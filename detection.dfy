/**
 * The AI-text detection service around the language-model call: the
 * fallback sentence split when the model returns no analyses, the
 * human/AI breakdown, the all-zero branch of the per-service scores and the
 * overall probability. Probabilities are reals.
 */
module Detection {
  import opened Wrappers
  import opened CharClasses

  // -------------------------------------------------------------------
  // regexp `[.!?]+\s+` and Regexp.Split(text, -1)
  // -------------------------------------------------------------------

  predicate IsSentencePunct(c: char) {
    c == '.' || c == '!' || c == '?'
  }

  /** A separator: a run of sentence punctuation followed by a run of white space. */
  predicate IsSeparator(t: string) {
    && |t| >= 2
    && IsSentencePunct(t[0])
    && IsRegexSpace(t[|t| - 1])
    && (forall k :: 0 <= k < |t| ==> IsSentencePunct(t[k]) || IsRegexSpace(t[k]))
    && (forall k :: 0 < k < |t| && IsRegexSpace(t[k - 1]) ==> IsRegexSpace(t[k]))
  }

  /**
   * Where the leftmost-first match of `[.!?]+\s+` starting at exactly i
   * ends. Both runs are maximal: a shorter punctuation run would leave
   * punctuation where white space must follow.
   */
  function SeparatorAt(s: string, i: nat): (e: Option<nat>)
    requires i <= |s|
    ensures e.Some? ==> i < e.value <= |s| && IsSeparator(s[i..e.value])
  {
    if i < |s| && IsSentencePunct(s[i]) then
      var p := RunEnd(s, i, IsSentencePunct);
      var e := RunEnd(s, p, IsRegexSpace);
      if e > p then
        SeparatorSlice(s, i, p, e);
        Some(e)
      else None
    else None
  }

  /** Punctuation on s[i..p] and white space on s[p..e] make a separator. */
  lemma SeparatorSlice(s: string, i: nat, p: nat, e: nat)
    requires i < p < e <= |s|
    requires forall k :: i <= k < p ==> IsSentencePunct(s[k])
    requires forall k :: p <= k < e ==> IsRegexSpace(s[k])
    ensures IsSeparator(s[i..e])
  {
    var t := s[i..e];
    assert forall k :: 0 <= k < |t| ==> t[k] == s[i + k];
    forall k | 0 < k < |t| && IsRegexSpace(t[k - 1])
      ensures IsRegexSpace(t[k])
    {
      assert p <= i + k - 1;
    }
  }

  /** The pieces of s[beg..] between matches, scanning from i; the tail is always a piece. */
  function SplitFrom(s: string, beg: nat, i: nat): (pieces: seq<string>)
    requires beg <= i <= |s|
    ensures |pieces| >= 1
    decreases |s| - i
  {
    if i == |s| then [s[beg..]]
    else
      var e := SeparatorAt(s, i);
      if e.Some? then [s[beg..i]] + SplitFrom(s, e.value, e.value) else SplitFrom(s, beg, i + 1)
  }

  /** The matched separators, in the same scan. */
  function SeparatorsFrom(s: string, beg: nat, i: nat): (seps: seq<string>)
    requires beg <= i <= |s|
    ensures |seps| + 1 == |SplitFrom(s, beg, i)|
    ensures forall k :: 0 <= k < |seps| ==> IsSeparator(seps[k])
    decreases |s| - i
  {
    if i == |s| then []
    else
      var e := SeparatorAt(s, i);
      if e.Some? then [s[i..e.value]] + SeparatorsFrom(s, e.value, e.value) else SeparatorsFrom(s, beg, i + 1)
  }

  /** Regexp.Split(text, -1); an empty text gives [""]. */
  function RegexSplit(text: string): seq<string> {
    SplitFrom(text, 0, 0)
  }

  /** The pieces interleaved with the separators. */
  function Join(pieces: seq<string>, seps: seq<string>): string
    requires |pieces| == |seps| + 1
    decreases |seps|
  {
    if seps == [] then pieces[0] else pieces[0] + seps[0] + Join(pieces[1..], seps[1..])
  }

  /** Splitting loses nothing: the pieces and the separators put back together give the text. */
  lemma {:induction false} SplitRejoins(s: string, beg: nat, i: nat)
    requires beg <= i <= |s|
    ensures Join(SplitFrom(s, beg, i), SeparatorsFrom(s, beg, i)) == s[beg..]
    decreases |s| - i
  {
    if i < |s| {
      var e := SeparatorAt(s, i);
      if e.Some? {
        var pieces := SplitFrom(s, e.value, e.value);
        var seps := SeparatorsFrom(s, e.value, e.value);
        assert SplitFrom(s, beg, i) == [s[beg..i]] + pieces;
        assert SeparatorsFrom(s, beg, i) == [s[i..e.value]] + seps;
        calc {
          Join([s[beg..i]] + pieces, [s[i..e.value]] + seps);
        == { JoinCons(s[beg..i], s[i..e.value], pieces, seps); }
          s[beg..i] + s[i..e.value] + Join(pieces, seps);
        == { SplitRejoins(s, e.value, e.value); }
          s[beg..i] + s[i..e.value] + s[e.value..];
        == { assert s[beg..] == s[beg..i] + s[i..e.value] + s[e.value..]; }
          s[beg..];
        }
      } else {
        SplitRejoins(s, beg, i + 1);
      }
    }
  }

  lemma JoinCons(piece: string, sep: string, pieces: seq<string>, seps: seq<string>)
    requires |pieces| == |seps| + 1
    ensures Join([piece] + pieces, [sep] + seps) == piece + sep + Join(pieces, seps)
  {
    assert ([piece] + pieces)[1..] == pieces;
    assert ([sep] + seps)[1..] == seps;
  }

  predicate AllBlank(s: string) {
    forall k :: 0 <= k < |s| ==> IsUnicodeSpace(s[k])
  }

  /** Pieces of blank text are blank. */
  lemma {:induction false} SplitOfBlank(s: string, beg: nat, i: nat)
    requires beg <= i <= |s|
    requires forall k :: beg <= k < |s| ==> IsUnicodeSpace(s[k])
    ensures forall k :: 0 <= k < |SplitFrom(s, beg, i)| ==> AllBlank(SplitFrom(s, beg, i)[k])
    decreases |s| - i
  {
    if i < |s| {
      var e := SeparatorAt(s, i);
      if e.Some? {
        SplitOfBlank(s, e.value, e.value);
        assert AllBlank(s[beg..i]) by {
          forall k | 0 <= k < i - beg ensures IsUnicodeSpace(s[beg..i][k]) {
            assert s[beg..i][k] == s[beg + k];
          }
        }
      } else {
        SplitOfBlank(s, beg, i + 1);
      }
    } else {
      assert AllBlank(s[beg..]) by {
        forall k | 0 <= k < |s| - beg ensures IsUnicodeSpace(s[beg..][k]) {
          assert s[beg..][k] == s[beg + k];
        }
      }
    }
  }

  // -------------------------------------------------------------------
  // strings.TrimSpace
  // -------------------------------------------------------------------

  predicate IsTrimmed(s: string) {
    s == [] || (!IsUnicodeSpace(s[0]) && !IsUnicodeSpace(s[|s| - 1]))
  }

  /** The suffix after the leading white space. */
  function TrimLeft(s: string): (r: string)
    ensures |r| <= |s| && r == s[|s| - |r|..]
    ensures r == [] || !IsUnicodeSpace(r[0])
    ensures forall k :: 0 <= k < |s| - |r| ==> IsUnicodeSpace(s[k])
    decreases |s|
  {
    if s != [] && IsUnicodeSpace(s[0]) then
      var r := TrimLeft(s[1..]);
      assert forall k :: 1 <= k < |s| - |r| ==> s[k] == s[1..][k - 1];
      r
    else s
  }

  /** The prefix before the trailing white space. */
  function TrimRight(s: string): (r: string)
    ensures |r| <= |s| && r == s[..|r|]
    ensures r == [] || !IsUnicodeSpace(r[|r| - 1])
    ensures forall k :: |r| <= k < |s| ==> IsUnicodeSpace(s[k])
    decreases |s|
  {
    if s != [] && IsUnicodeSpace(s[|s| - 1]) then
      var r := TrimRight(s[..|s| - 1]);
      assert forall k :: |r| <= k < |s| - 1 ==> s[k] == s[..|s| - 1][k];
      r
    else s
  }

  /** strings.TrimSpace: the text without leading and trailing white space. */
  function TrimSpace(s: string): (r: string)
    ensures IsTrimmed(r)
    ensures r == [] <==> AllBlank(s)
    ensures |r| <= |s|
  {
    var l := TrimLeft(s);
    var r := TrimRight(l);
    assert r != [] ==> r[0] == l[0];
    r
  }

  /** Trimming twice is trimming once. */
  lemma TrimSpaceIdempotent(s: string)
    ensures TrimSpace(TrimSpace(s)) == TrimSpace(s)
  {
    var t := TrimSpace(s);
    if t != [] {
      assert TrimLeft(t) == t;
      assert TrimRight(t) == t;
    }
  }

  // -------------------------------------------------------------------
  // splitIntoSentences
  // -------------------------------------------------------------------

  /** The trimmed pieces that are not blank, in order. */
  function KeepNonBlank(pieces: seq<string>): seq<string>
    decreases |pieces|
  {
    if pieces == [] then []
    else
      var prev := KeepNonBlank(pieces[..|pieces| - 1]);
      var t := TrimSpace(pieces[|pieces| - 1]);
      if t != [] then prev + [t] else prev
  }

  /** Every sentence is trimmed and not empty. */
  predicate NonEmptyTrimmed(r: seq<string>) {
    forall k :: 0 <= k < |r| ==> r[k] != [] && IsTrimmed(r[k])
  }

  /** What is kept is trimmed and not empty. */
  lemma {:induction false} KeepNonBlankTrimmed(pieces: seq<string>)
    ensures NonEmptyTrimmed(KeepNonBlank(pieces))
    decreases |pieces|
  {
    if pieces != [] {
      var prefix := pieces[..|pieces| - 1];
      KeepNonBlankTrimmed(prefix);
      var prev := KeepNonBlank(prefix);
      var t := TrimSpace(pieces[|pieces| - 1]);
      if t != [] {
        var r := prev + [t];
        assert KeepNonBlank(pieces) == r;
        forall k | 0 <= k < |r| ensures r[k] != [] && IsTrimmed(r[k]) {
          if k < |prev| { assert r[k] == prev[k]; } else { assert r[k] == t; }
        }
      }
    }
  }

  /** One more piece: kept at the end when it does not trim to nothing. */
  lemma KeepNonBlankSnoc(pieces: seq<string>, piece: string)
    ensures KeepNonBlank(pieces + [piece])
      == if TrimSpace(piece) != [] then KeepNonBlank(pieces) + [TrimSpace(piece)] else KeepNonBlank(pieces)
  {
    assert (pieces + [piece])[..|pieces|] == pieces;
  }

  lemma {:induction false} KeepNonBlankOfBlank(pieces: seq<string>)
    requires forall k :: 0 <= k < |pieces| ==> AllBlank(pieces[k])
    ensures KeepNonBlank(pieces) == []
    decreases |pieces|
  {
    if pieces != [] {
      KeepNonBlankOfBlank(pieces[..|pieces| - 1]);
    }
  }

  /** The sentences of a text: the trimmed non-blank pieces, or the trimmed text when there are none. */
  function Sentences(text: string): (r: seq<string>)
    ensures |r| >= 1
    ensures forall k :: 0 <= k < |r| ==> IsTrimmed(r[k])
    ensures NonEmptyTrimmed(r) || (r == [[]] && AllBlank(text))
  {
    var kept := KeepNonBlank(RegexSplit(text));
    KeepNonBlankTrimmed(RegexSplit(text));
    if kept != [] then kept
    else
      var t := TrimSpace(text);
      assert t != [] ==> NonEmptyTrimmed([t]);
      [t]
  }

  /** Only blank text yields the empty sentence, and then it is the only one. */
  lemma BlankTextIsOneEmptySentence(text: string)
    requires AllBlank(text)
    ensures Sentences(text) == [[]]
  {
    SplitOfBlank(text, 0, 0);
    KeepNonBlankOfBlank(RegexSplit(text));
  }

  /** splitIntoSentences. */
  method SplitIntoSentences(text: string) returns (result: seq<string>)
    ensures result == Sentences(text)
  {
    var sentences := RegexSplit(text);
    result := [];
    for i := 0 to |sentences|
      invariant result == KeepNonBlank(sentences[..i])
    {
      assert sentences[..i + 1] == sentences[..i] + [sentences[i]];
      KeepNonBlankSnoc(sentences[..i], sentences[i]);
      var sentence := TrimSpace(sentences[i]);
      if sentence != "" {
        result := result + [sentence];
      }
    }
    assert sentences[..|sentences|] == sentences;
    if |result| == 0 {
      result := result + [TrimSpace(text)];
    }
  }

  // -------------------------------------------------------------------
  // analyzeSentences fallback and calculateBreakdown
  // -------------------------------------------------------------------

  datatype SentenceAnalysis = SentenceAnalysis(text: string, aiProbability: real)

  /** The score given to every sentence when the model analysed none. */
  const Uncertain: real := 0.5

  /**
   * The end of analyzeSentences: the model's analyses, or, when it returned
   * none, one analysis of Uncertain per sentence of the text.
   */
  method CompleteAnalyses(parsed: seq<SentenceAnalysis>, text: string) returns (analyses: seq<SentenceAnalysis>)
    ensures |analyses| > 0
    ensures |parsed| > 0 ==> analyses == parsed
    ensures |parsed| == 0 ==> |analyses| == |Sentences(text)|
    ensures |parsed| == 0 ==>
      forall k :: 0 <= k < |analyses| ==> analyses[k] == SentenceAnalysis(Sentences(text)[k], Uncertain)
  {
    analyses := parsed;
    if |analyses| == 0 {
      var sentences := SplitIntoSentences(text);
      analyses := UncertainAnalyses(sentences);
    }
  }

  /** The fallback loop: one Uncertain analysis per sentence, in order. */
  method UncertainAnalyses(sentences: seq<string>) returns (analyses: seq<SentenceAnalysis>)
    ensures |analyses| == |sentences|
    ensures forall k :: 0 <= k < |analyses| ==> analyses[k] == SentenceAnalysis(sentences[k], Uncertain)
  {
    analyses := [];
    for i := 0 to |sentences|
      invariant |analyses| == i
      invariant forall k :: 0 <= k < i ==> analyses[k] == SentenceAnalysis(sentences[k], Uncertain)
    {
      analyses := analyses + [SentenceAnalysis(sentences[i], Uncertain)];
    }
  }

  predicate IsHuman(a: SentenceAnalysis) {
    a.aiProbability < 0.5
  }

  /** The number of analyses classified human. */
  function HumanCount(analyses: seq<SentenceAnalysis>): (n: nat)
    ensures n <= |analyses|
    decreases |analyses|
  {
    if analyses == [] then 0
    else HumanCount(analyses[..|analyses| - 1]) + (if IsHuman(analyses[|analyses| - 1]) then 1 else 0)
  }

  /** math.Max(p, 1 - p): how sure the classification of one sentence is. */
  function Confidence(p: real): real {
    if p >= 1.0 - p then p else 1.0 - p
  }

  function TotalConfidence(analyses: seq<SentenceAnalysis>): real
    decreases |analyses|
  {
    if analyses == [] then 0.0
    else TotalConfidence(analyses[..|analyses| - 1]) + Confidence(analyses[|analyses| - 1].aiProbability)
  }

  datatype Breakdown = Breakdown(humanSentences: nat, aiSentences: nat, confidence: real, sentenceAnalysis: seq<SentenceAnalysis>)

  /** calculateBreakdown. */
  method CalculateBreakdown(analyses: seq<SentenceAnalysis>) returns (b: Breakdown)
    ensures b.humanSentences + b.aiSentences == |analyses|
    ensures b.humanSentences == HumanCount(analyses)
    ensures b.confidence == if |analyses| == 0 then 0.0 else TotalConfidence(analyses) / (|analyses| as real)
    ensures b.sentenceAnalysis == analyses
  {
    var humanSentences := 0;
    var aiSentences := 0;
    var totalConfidence := 0.0;
    for i := 0 to |analyses|
      invariant humanSentences == HumanCount(analyses[..i])
      invariant humanSentences + aiSentences == i
      invariant totalConfidence == TotalConfidence(analyses[..i])
    {
      assert analyses[..i + 1][..i] == analyses[..i];
      if analyses[i].aiProbability < 0.5 {
        humanSentences := humanSentences + 1;
      } else {
        aiSentences := aiSentences + 1;
      }
      totalConfidence := totalConfidence + Confidence(analyses[i].aiProbability);
    }
    assert analyses[..|analyses|] == analyses;
    var avgConfidence := 0.0;
    if |analyses| > 0 {
      avgConfidence := totalConfidence / (|analyses| as real);
    }
    b := Breakdown(humanSentences, aiSentences, avgConfidence, analyses);
  }

  /** An analysis of exactly 0.5 counts as AI: appending one leaves the human count alone. */
  lemma HalfCountsAsAI(analyses: seq<SentenceAnalysis>, text: string)
    ensures HumanCount(analyses + [SentenceAnalysis(text, 0.5)]) == HumanCount(analyses)
  {
    assert (analyses + [SentenceAnalysis(text, 0.5)])[..|analyses|] == analyses;
  }

  predicate AreProbabilities(analyses: seq<SentenceAnalysis>) {
    forall k :: 0 <= k < |analyses| ==> 0.0 <= analyses[k].aiProbability <= 1.0
  }

  lemma {:induction false} TotalConfidenceBounds(analyses: seq<SentenceAnalysis>)
    requires AreProbabilities(analyses)
    ensures 0.5 * (|analyses| as real) <= TotalConfidence(analyses) <= |analyses| as real
    decreases |analyses|
  {
    if analyses != [] {
      var prefix := analyses[..|analyses| - 1];
      assert AreProbabilities(prefix) by {
        assert forall k :: 0 <= k < |prefix| ==> prefix[k] == analyses[k];
      }
      TotalConfidenceBounds(prefix);
    }
  }

  /** With probabilities in [0, 1] the average confidence lies in [0.5, 1]. */
  lemma AverageConfidenceBounds(analyses: seq<SentenceAnalysis>)
    requires AreProbabilities(analyses) && |analyses| > 0
    ensures 0.5 <= TotalConfidence(analyses) / (|analyses| as real) <= 1.0
  {
    TotalConfidenceBounds(analyses);
    QuotientBounds(TotalConfidence(analyses), |analyses| as real);
  }

  lemma QuotientBounds(t: real, n: real)
    requires n > 0.0 && 0.5 * n <= t <= n
    ensures 0.5 <= t / n <= 1.0
  {
    var q := t / n;
    assert q * n == t;
    assert (q - 0.5) * n == t - 0.5 * n;
    assert (1.0 - q) * n == n - t;
  }

  /** Fallback analyses are all AI, with confidence 0.5 each. */
  lemma {:induction false} UncertainAnalysesCount(analyses: seq<SentenceAnalysis>)
    requires forall k :: 0 <= k < |analyses| ==> analyses[k].aiProbability == Uncertain
    ensures HumanCount(analyses) == 0
    ensures TotalConfidence(analyses) == 0.5 * (|analyses| as real)
    decreases |analyses|
  {
    if analyses != [] {
      var prefix := analyses[..|analyses| - 1];
      assert forall k :: 0 <= k < |prefix| ==> prefix[k] == analyses[k];
      UncertainAnalysesCount(prefix);
    }
  }

  // -------------------------------------------------------------------
  // generateServiceResults and DetectAIContent
  // -------------------------------------------------------------------

  /** The AI share of the sentences, with an empty count taken as one sentence. */
  function BaseAIProbability(aiSentences: nat, humanSentences: nat): (p: real)
    ensures 0.0 <= p <= 1.0
    ensures aiSentences + humanSentences == 0 ==> p == 0.0
    ensures aiSentences + humanSentences > 0 ==> p * ((aiSentences + humanSentences) as real) == aiSentences as real
  {
    var total := if aiSentences + humanSentences == 0 then 1 else aiSentences + humanSentences;
    (aiSentences as real) / (total as real)
  }

  /**
   * The per-service scores: all zero below a 10% AI share, otherwise
   * random variations around the share (the variations are not modelled;
   * VariedAround records the share they start from).
   */
  datatype ServiceResults = AllZero | VariedAround(base: real)

  function GenerateServiceResults(aiSentences: nat, humanSentences: nat): (r: ServiceResults)
    ensures r.AllZero? <==> BaseAIProbability(aiSentences, humanSentences) < 0.1
    ensures r.VariedAround? ==> r.base == BaseAIProbability(aiSentences, humanSentences)
    ensures aiSentences == 0 ==> r.AllZero?
  {
    var base := BaseAIProbability(aiSentences, humanSentences);
    if base < 0.1 then AllZero else VariedAround(base)
  }

  datatype DetectionResult = DetectionResult(aiProbability: real, breakdown: Breakdown, serviceResults: ServiceResults)

  /**
   * DetectAIContent. `response` is the model's parsed sentence analyses, or
   * None when the call or its JSON decoding failed.
   */
  method DetectAIContent(response: Option<seq<SentenceAnalysis>>, text: string) returns (r: Option<DetectionResult>)
    ensures r.None? <==> response.None?
    ensures r.Some? ==>
      var b := r.value.breakdown;
      && b.aiSentences + b.humanSentences >= 1
      && r.value.aiProbability * ((b.aiSentences + b.humanSentences) as real) == b.aiSentences as real
      && 0.0 <= r.value.aiProbability <= 1.0
      && r.value.serviceResults == GenerateServiceResults(b.aiSentences, b.humanSentences)
      && (|response.value| > 0 ==> b.sentenceAnalysis == response.value)
      && (|response.value| == 0 ==> b.humanSentences == 0 && b.aiSentences == |Sentences(text)|)
  {
    if response.None? {
      return None;
    }
    var analyses := CompleteAnalyses(response.value, text);
    var breakdown := CalculateBreakdown(analyses);
    var serviceResults := GenerateServiceResults(breakdown.aiSentences, breakdown.humanSentences);
    var aiProbability := (breakdown.aiSentences as real) / ((breakdown.aiSentences + breakdown.humanSentences) as real);
    assert aiProbability == BaseAIProbability(breakdown.aiSentences, breakdown.humanSentences);
    if |response.value| == 0 {
      UncertainAnalysesCount(analyses);
    }
    r := Some(DetectionResult(aiProbability, breakdown, serviceResults));
  }
}
