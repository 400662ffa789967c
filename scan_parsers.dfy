/**
 * The two parsers of the face-scan route: parseRating takes the first
 * decimal number in a string, and parseTOMLResponse reads `key = "N/10"`
 * lines of the model's answer into the seven rating fields.
 *
 * Both regular expressions are fixed, so each is written out as a scanner
 * with the leftmost-first matching that Go's regexp package uses. Character
 * classes are the ASCII ones of RE2: \d is [0-9], \w is [0-9A-Za-z_] and
 * \s is [\t\n\f\r ].
 */
module ScanParsers {
  import opened Wrappers
  import opened CharClasses

  /** The largest Go int on a 64-bit platform; strconv.Atoi clamps to it on overflow. */
  const MaxInt: int := 0x7fff_ffff_ffff_ffff

  predicate AllDigits(s: string) {
    forall k :: 0 <= k < |s| ==> IsDigit(s[k])
  }

  // -------------------------------------------------------------------
  // Decimal numbers
  // -------------------------------------------------------------------

  /** The value of a string of decimal digits. */
  function DigitsValue(ds: string): (v: nat)
    requires AllDigits(ds)
    decreases |ds|
  {
    if ds == [] then 0
    else DigitsValue(ds[..|ds| - 1]) * 10 + (ds[|ds| - 1] as int - '0' as int)
  }

  /** strconv.Atoi on a run of digits: the value, or MaxInt when it is out of range. */
  function Atoi(ds: string): (v: int)
    requires AllDigits(ds)
    ensures 0 <= v <= MaxInt
    ensures DigitsValue(ds) <= MaxInt ==> v == DigitsValue(ds)
    ensures DigitsValue(ds) > MaxInt ==> v == MaxInt
  {
    if DigitsValue(ds) <= MaxInt then DigitsValue(ds) else MaxInt
  }

  /** The shortest decimal spelling of n. */
  function Decimal(n: nat): (s: string)
    ensures |s| > 0 && AllDigits(s)
  {
    var d := ['0' + ((n % 10) as char)];
    if n < 10 then d else Decimal(n / 10) + d
  }

  /** Reading back a printed number gives the number. */
  lemma {:induction false} DecimalRoundTrip(n: nat)
    ensures DigitsValue(Decimal(n)) == n
  {
    var s := Decimal(n);
    assert s[|s| - 1] as int - '0' as int == n % 10;
    if n >= 10 {
      assert s[..|s| - 1] == Decimal(n / 10);
      DecimalRoundTrip(n / 10);
    } else {
      assert s[..|s| - 1] == [];
    }
  }

  // -------------------------------------------------------------------
  // Scanning helpers
  // -------------------------------------------------------------------

  /** The first digit at or after i, or |s| when there is none. */
  function FirstDigit(s: string, i: nat): (j: nat)
    requires i <= |s|
    ensures i <= j <= |s|
    ensures forall k :: i <= k < j ==> !IsDigit(s[k])
    ensures j < |s| ==> IsDigit(s[j])
    decreases |s| - i
  {
    if i == |s| || IsDigit(s[i]) then i else FirstDigit(s, i + 1)
  }

  /** The last '1' in s[lo..hi]. */
  function LastOneIn(s: string, lo: nat, hi: nat): (p: Option<nat>)
    requires lo <= hi <= |s|
    ensures p.Some? ==> lo <= p.value < hi && s[p.value] == '1'
    ensures p.Some? ==> forall k :: p.value < k < hi ==> s[k] != '1'
    ensures p.None? ==> forall k :: lo <= k < hi ==> s[k] != '1'
    decreases hi - lo
  {
    if hi == lo then None
    else if s[hi - 1] == '1' then Some(hi - 1)
    else LastOneIn(s, lo, hi - 1)
  }

  // -------------------------------------------------------------------
  // parseRating
  // -------------------------------------------------------------------

  /** parseRating: the value of the leftmost maximal run of digits, 0 when there is none. */
  function ParseRating(s: string): (r: int)
    ensures 0 <= r <= MaxInt
    ensures (forall k :: 0 <= k < |s| ==> !IsDigit(s[k])) ==> r == 0
    ensures FirstDigit(s, 0) < |s| ==>
      r == Atoi(s[FirstDigit(s, 0)..RunEnd(s, FirstDigit(s, 0), IsDigit)])
  {
    var i := FirstDigit(s, 0);
    if i == |s| then 0
    else
      var j := RunEnd(s, i, IsDigit);
      assert AllDigits(s[i..j]);
      Atoi(s[i..j])
  }

  /** A number written at the front of any text that does not continue it with a digit is read back exactly. */
  lemma ParseRatingOfNumber(n: nat, rest: string)
    requires n <= MaxInt
    requires rest == [] || !IsDigit(rest[0])
    ensures ParseRating(Decimal(n) + rest) == n
  {
    var s := Decimal(n) + rest;
    var d := Decimal(n);
    assert IsDigit(s[0]);
    assert FirstDigit(s, 0) == 0;
    assert forall k :: 0 <= k < |d| ==> s[k] == d[k];
    RunEndAt(s, 0, |d|, IsDigit);
    assert s[0..|d|] == d;
    DecimalRoundTrip(n);
  }

  lemma ParseRatingSevenOutOfTen()
    ensures ParseRating("7/10") == 7
  {
    assert Decimal(7) == "7";
    assert "7/10" == Decimal(7) + "/10";
    ParseRatingOfNumber(7, "/10");
  }

  // -------------------------------------------------------------------
  // parseTOMLResponse
  // -------------------------------------------------------------------

  /** The two capture groups of a match, and where the match ends. */
  datatype Match = Match(key: string, digits: string, end: nat)

  /**
   * The value part `(\d+)/?10?"?` of the pattern at exactly q: where the
   * captured digits end and where the match ends. The digit run is maximal
   * when "/1" follows it; otherwise it is cut just before its last inner
   * '1', which then plays the mandatory '1'.
   */
  function ValueAt(s: string, q: nat): (r: Option<(nat, nat)>)
    requires q <= |s|
    ensures r.Some? ==> q < r.value.0 < r.value.1 <= |s| && AllDigits(s[q..r.value.0])
    ensures r.Some? ==> exists k :: q < k < r.value.1 && s[k] == '1'
  {
    var m := RunEnd(s, q, IsDigit);
    if m == q then None
    else
      var cut: Option<(nat, nat)> :=
        if m + 1 < |s| && s[m] == '/' && s[m + 1] == '1' then Some((m, m + 2))
        else
          var one := LastOneIn(s, q + 1, m);
          if one.Some? then Some((one.value, one.value + 1)) else None;
      if cut.None? then None
      else
        var p := cut.value.1;
        var p1 := if p < |s| && s[p] == '0' then p + 1 else p;
        var e := if p1 < |s| && s[p1] == '"' then p1 + 1 else p1;
        assert AllDigits(s[q..cut.value.0]);
        assert s[p - 1] == '1';
        Some((cut.value.0, e))
  }

  /**
   * The rest of a match once `(\w+)\s*=` has matched s[i..w] and the '='
   * ends before p: `\s*"?(\d+)/?10?"?` from p.
   */
  function ValueMatch(s: string, i: nat, w: nat, p: nat): (r: Option<Match>)
    requires i <= w <= p <= |s|
    ensures r.Some? ==> p < r.value.end <= |s| && r.value.key == s[i..w]
    ensures r.Some? ==> |r.value.digits| > 0 && AllDigits(r.value.digits)
  {
    var b := RunEnd(s, p, IsRegexSpace);
    var q := if b < |s| && s[b] == '"' then b + 1 else b;
    var value := ValueAt(s, q);
    if value.None? then None
    else Some(Match(s[i..w], s[q..value.value.0], value.value.1))
  }

  /**
   * The leftmost-first match of `(\w+)\s*=\s*"?(\d+)/?10?"?` starting at
   * exactly i. The word and the space runs cannot give back characters
   * (what follows them would not match), so all three are maximal.
   */
  function MatchAt(s: string, i: nat): (r: Option<Match>)
    requires i <= |s|
    ensures r.Some? ==> i < r.value.end <= |s|
    ensures r.Some? ==> r.value.key == s[i..RunEnd(s, i, IsWordChar)] && |r.value.key| > 0
    ensures r.Some? ==> |r.value.digits| > 0 && AllDigits(r.value.digits)
  {
    if i == |s| || !IsWordChar(s[i]) then None
    else
      var w := RunEnd(s, i, IsWordChar);
      var a := RunEnd(s, w, IsRegexSpace);
      if a == |s| || s[a] != '=' then None
      else ValueMatch(s, i, w, a + 1)
  }

  /** FindAllStringSubmatch from position i: successive non-overlapping leftmost matches. */
  function FindAll(s: string, i: nat): (r: seq<Match>)
    requires i <= |s|
    ensures forall k :: 0 <= k < |r| ==> |r[k].digits| > 0 && AllDigits(r[k].digits)
    decreases |s| - i
  {
    if i == |s| then []
    else
      var m := MatchAt(s, i);
      if m.Some? then [m.value] + FindAll(s, m.value.end) else FindAll(s, i + 1)
  }

  /** Without a '1' there is no match: the '1' of `/?10?` is mandatory. */
  lemma {:induction false} NoOneNoMatch(s: string, i: nat)
    requires i <= |s|
    requires forall k :: 0 <= k < |s| ==> s[k] != '1'
    ensures FindAll(s, i) == []
    decreases |s| - i
  {
    if i < |s| {
      assert forall q :: 0 <= q <= |s| ==> ValueAt(s, q).None?;
      assert MatchAt(s, i).None?;
      NoOneNoMatch(s, i + 1);
    }
  }

  datatype ScanData = ScanData(
    faceOverallRating: int,
    femininityRating: int,
    masculinityRating: int,
    faceRating: int,
    eyesRating: int,
    jawlineRating: int,
    skinRating: int)

  const Zero := ScanData(0, 0, 0, 0, 0, 0, 0)

  predicate IsRatingKey(key: string) {
    key == "face_overall_rating" || key == "femininity_rating" || key == "masculinity_rating"
    || key == "face_rating" || key == "eyes_rating" || key == "jawline_rating" || key == "skin_rating"
  }

  /** The field a rating key names. */
  function Rating(d: ScanData, key: string): int
    requires IsRatingKey(key)
  {
    if key == "face_overall_rating" then d.faceOverallRating
    else if key == "femininity_rating" then d.femininityRating
    else if key == "masculinity_rating" then d.masculinityRating
    else if key == "face_rating" then d.faceRating
    else if key == "eyes_rating" then d.eyesRating
    else if key == "jawline_rating" then d.jawlineRating
    else d.skinRating
  }

  /** One iteration of the switch: a known key sets its own field, any other key nothing. */
  function SetRating(d: ScanData, m: Match): (r: ScanData)
    requires AllDigits(m.digits)
    ensures !IsRatingKey(m.key) ==> r == d
    ensures IsRatingKey(m.key) ==> Rating(r, m.key) == Atoi(m.digits)
    ensures forall k :: IsRatingKey(k) && k != m.key ==> Rating(r, k) == Rating(d, k)
  {
    var v := Atoi(m.digits);
    if m.key == "face_overall_rating" then d.(faceOverallRating := v)
    else if m.key == "femininity_rating" then d.(femininityRating := v)
    else if m.key == "masculinity_rating" then d.(masculinityRating := v)
    else if m.key == "face_rating" then d.(faceRating := v)
    else if m.key == "eyes_rating" then d.(eyesRating := v)
    else if m.key == "jawline_rating" then d.(jawlineRating := v)
    else if m.key == "skin_rating" then d.(skinRating := v)
    else d
  }

  predicate ValidMatches(ms: seq<Match>) {
    forall k :: 0 <= k < |ms| ==> AllDigits(ms[k].digits)
  }

  /** The switch applied to each match in order. */
  function ApplyMatches(d: ScanData, ms: seq<Match>): ScanData
    requires ValidMatches(ms)
    decreases |ms|
  {
    if ms == [] then d else SetRating(ApplyMatches(d, ms[..|ms| - 1]), ms[|ms| - 1])
  }

  /** The value of the last match for key, if any. */
  function LastValue(ms: seq<Match>, key: string): (v: Option<int>)
    requires ValidMatches(ms)
    ensures v.None? <==> forall k :: 0 <= k < |ms| ==> ms[k].key != key
    decreases |ms|
  {
    if ms == [] then None
    else if ms[|ms| - 1].key == key then Some(Atoi(ms[|ms| - 1].digits))
    else LastValue(ms[..|ms| - 1], key)
  }

  /** Each field ends up with its key's last value, or keeps its start value when the key never matched. */
  lemma {:induction false} RatingAfterMatches(d: ScanData, ms: seq<Match>, key: string)
    requires ValidMatches(ms) && IsRatingKey(key)
    ensures Rating(ApplyMatches(d, ms), key) == LastValue(ms, key).GetOr(Rating(d, key))
    decreases |ms|
  {
    if ms != [] {
      RatingAfterMatches(d, ms[..|ms| - 1], key);
    }
  }

  /** parseTOMLResponse. */
  method ParseTOMLResponse(response: string) returns (data: ScanData)
    ensures data == ApplyMatches(Zero, FindAll(response, 0))
    ensures forall key :: IsRatingKey(key) ==> Rating(data, key) == LastValue(FindAll(response, 0), key).GetOr(0)
  {
    data := Zero;
    var matches := FindAll(response, 0);
    for i := 0 to |matches|
      invariant data == ApplyMatches(Zero, matches[..i])
    {
      assert matches[..i + 1][..i] == matches[..i];
      var key := matches[i].key;
      var val := Atoi(matches[i].digits);
      if key == "face_overall_rating" {
        data := data.(faceOverallRating := val);
      } else if key == "femininity_rating" {
        data := data.(femininityRating := val);
      } else if key == "masculinity_rating" {
        data := data.(masculinityRating := val);
      } else if key == "face_rating" {
        data := data.(faceRating := val);
      } else if key == "eyes_rating" {
        data := data.(eyesRating := val);
      } else if key == "jawline_rating" {
        data := data.(jawlineRating := val);
      } else if key == "skin_rating" {
        data := data.(skinRating := val);
      }
    }
    assert matches[..|matches|] == matches;
    forall key | IsRatingKey(key)
      ensures Rating(data, key) == LastValue(matches, key).GetOr(0)
    {
      RatingAfterMatches(Zero, matches, key);
    }
  }

  // -------------------------------------------------------------------
  // Answers of the shape scanSystemPrompt asks for
  // -------------------------------------------------------------------

  /** The seven keys, in the order scanSystemPrompt lists them. */
  const PromptKeys := ["face_overall_rating", "femininity_rating", "masculinity_rating",
    "face_rating", "eyes_rating", "jawline_rating", "skin_rating"]

  predicate IsWord(key: string) {
    |key| > 0 && forall k :: 0 <= k < |key| ==> IsWordChar(key[k])
  }

  /** The line `key = "D/10"` for a digit string D. */
  function RatingText(key: string, digits: string): string {
    key + " = \"" + digits + "/10\""
  }

  /** The line `key = "N/10"`. */
  function RatingLine(key: string, n: nat): string {
    RatingText(key, Decimal(n))
  }

  /** The value part `D/10"` of a rating line. */
  lemma {:induction false} ValueAtRatingShape(s: string, q: nat, m: nat)
    requires q < m && m + 4 <= |s|
    requires forall k :: q <= k < m ==> IsDigit(s[k])
    requires s[m] == '/' && s[m + 1] == '1' && s[m + 2] == '0' && s[m + 3] == '"'
    ensures ValueAt(s, q) == Some((m, m + 4))
  {
    RunEndAt(s, q, m, IsDigit);
  }

  /** The value part of a match once the run of `\s*"` after the '=' and the value are known. */
  lemma {:induction false} ValueMatchFromRuns(s: string, i: nat, w: nat, m: nat, key: string, digits: string, end: nat)
    requires i < w && w + 4 <= m && m + 4 <= |s| && end == m + 4
    requires key == s[i..w] && digits == s[w + 4..m]
    requires RunEnd(s, w + 2, IsRegexSpace) == w + 3 && s[w + 3] == '"'
    requires ValueAt(s, w + 4) == Some((m, m + 4))
    ensures ValueMatch(s, i, w, w + 2) == Some(Match(key, digits, end))
  {
  }

  /** The match at i once the runs of `(\w+)\s*=` and the rest are known. */
  lemma {:induction false} MatchAtFromRuns(s: string, i: nat, w: nat, r: Match)
    requires i < w <= |s| && w + 2 <= |s|
    requires IsWordChar(s[i]) && RunEnd(s, i, IsWordChar) == w
    requires RunEnd(s, w, IsRegexSpace) == w + 1 && s[w + 1] == '='
    requires ValueMatch(s, i, w, w + 2) == Some(r)
    ensures MatchAt(s, i) == Some(r)
  {
    assert MatchAt(s, i) == ValueMatch(s, i, w, w + 2);
  }

  /** The match at i once every run of a `key = "D/10"` shape is known. */
  lemma {:induction false} MatchAtFromParts(s: string, i: nat, w: nat, m: nat)
    requires i < w && w + 4 < m && m + 4 <= |s|
    requires IsWordChar(s[i]) && RunEnd(s, i, IsWordChar) == w
    requires RunEnd(s, w, IsRegexSpace) == w + 1 && s[w + 1] == '='
    requires RunEnd(s, w + 2, IsRegexSpace) == w + 3 && s[w + 3] == '"'
    requires ValueAt(s, w + 4) == Some((m, m + 4))
    ensures MatchAt(s, i) == Some(Match(s[i..w], s[w + 4..m], m + 4))
  {
    ValueMatchFromRuns(s, i, w, m, s[i..w], s[w + 4..m], m + 4);
    MatchAtFromRuns(s, i, w, Match(s[i..w], s[w + 4..m], m + 4));
  }

  /** u occurs in s at offset o. */
  predicate TextAt(s: string, o: nat, u: string) {
    o + |u| <= |s| && forall k :: 0 <= k < |u| ==> s[o + k] == u[k]
  }

  /** Where the parts of a rating line sit. */
  lemma {:induction false} RatingTextParts(key: string, digits: string)
    requires IsWord(key) && |digits| > 0 && AllDigits(digits)
    ensures var line := RatingText(key, digits); var w := |key|; var m := w + 4 + |digits|;
      && |line| == m + 4
      && (forall k :: 0 <= k < w ==> line[k] == key[k])
      && line[w] == ' ' && line[w + 1] == '=' && line[w + 2] == ' ' && line[w + 3] == '"'
      && (forall k :: w + 4 <= k < m ==> line[k] == digits[k - w - 4])
      && line[m] == '/' && line[m + 1] == '1' && line[m + 2] == '0' && line[m + 3] == '"'
  {
  }

  /**
   * Where the parts of a rating line sit once it occurs in s at offset o:
   * its key ends at w and its digits at m.
   */
  lemma {:induction false} RatingTextShape(key: string, digits: string, s: string, o: nat, w: nat, m: nat)
    requires IsWord(key) && |digits| > 0 && AllDigits(digits)
    requires TextAt(s, o, RatingText(key, digits))
    requires w == o + |key| && m == w + 4 + |digits|
    ensures o + |RatingText(key, digits)| == m + 4 && m + 4 <= |s|
    ensures forall k :: o <= k < w ==> IsWordChar(s[k])
    ensures s[w] == ' ' && s[w + 1] == '=' && s[w + 2] == ' ' && s[w + 3] == '"'
    ensures forall k :: w + 4 <= k < m ==> IsDigit(s[k])
    ensures s[m] == '/' && s[m + 1] == '1' && s[m + 2] == '0' && s[m + 3] == '"'
    ensures s[o..w] == key && s[w + 4..m] == digits
  {
    var line := RatingText(key, digits);
    RatingTextParts(key, digits);
    forall j | o <= j < o + |line|
      ensures s[j] == line[j - o]
    {
      assert s[o + (j - o)] == line[j - o];
    }
    assert forall k :: 0 <= k < |key| ==> s[o..w][k] == key[k];
    assert forall k :: 0 <= k < |digits| ==> s[w + 4..m][k] == digits[k];
  }

  /** The runs the pattern takes through a rating line at offset o. */
  lemma {:induction false} RatingTextRuns(key: string, digits: string, s: string, o: nat, w: nat, m: nat)
    requires IsWord(key) && |digits| > 0 && AllDigits(digits)
    requires TextAt(s, o, RatingText(key, digits))
    requires w == o + |key| && m == w + 4 + |digits|
    ensures o < w && w + 4 < m && m + 4 <= |s|
    ensures IsWordChar(s[o]) && RunEnd(s, o, IsWordChar) == w
    ensures RunEnd(s, w, IsRegexSpace) == w + 1 && s[w + 1] == '='
    ensures RunEnd(s, w + 2, IsRegexSpace) == w + 3 && s[w + 3] == '"'
    ensures ValueAt(s, w + 4) == Some((m, m + 4))
  {
    RatingTextShape(key, digits, s, o, w, m);
    RunEndAt(s, o, w, IsWordChar);
    RunEndAt(s, w, w + 1, IsRegexSpace);
    RunEndAt(s, w + 2, w + 3, IsRegexSpace);
    ValueAtRatingShape(s, w + 4, m);
  }

  /** The captures and the end of the match of a rating line at offset o, read off s. */
  lemma {:induction false} RatingTextCaptures(key: string, digits: string, s: string, o: nat, w: nat, m: nat)
    requires IsWord(key) && |digits| > 0 && AllDigits(digits)
    requires TextAt(s, o, RatingText(key, digits))
    requires w == o + |key| && m == w + 4 + |digits|
    ensures w + 4 < m && m + 4 <= |s|
    ensures Match(s[o..w], s[w + 4..m], m + 4) == Match(key, digits, o + |RatingText(key, digits)|)
  {
    RatingTextShape(key, digits, s, o, w, m);
  }

  /**
   * A rating line at offset o is matched from o to its end, whatever text
   * comes before or after it: the pattern looks at nothing outside the line.
   */
  lemma {:induction false} RatingTextMatchAt(key: string, digits: string, s: string, o: nat)
    requires IsWord(key) && |digits| > 0 && AllDigits(digits)
    requires TextAt(s, o, RatingText(key, digits))
    ensures MatchAt(s, o) == Some(Match(key, digits, o + |RatingText(key, digits)|))
  {
    var w := o + |key|;
    var m := w + 4 + |digits|;
    RatingTextRuns(key, digits, s, o, w, m);
    RatingTextCaptures(key, digits, s, o, w, m);
    MatchAtFromParts(s, o, w, m);
  }

  /** FindAll at a position where a match starts. */
  lemma FindAllAtMatch(s: string, i: nat, m: Match)
    requires i < |s| && MatchAt(s, i) == Some(m)
    ensures FindAll(s, i) == [m] + FindAll(s, m.end)
  {
  }

  /** FindAll at a position where no match starts. */
  lemma FindAllAtNoMatch(s: string, i: nat)
    requires i < |s| && MatchAt(s, i).None?
    ensures FindAll(s, i) == FindAll(s, i + 1)
  {
  }

  /** FindAll at the end of the text. */
  lemma FindAllAtEnd(s: string)
    ensures FindAll(s, |s|) == []
  {
  }

  /** A rating line that ends the text at offset o is its last match. */
  lemma {:induction false} FinalLineMatches(key: string, digits: string, s: string, o: nat)
    requires IsWord(key) && |digits| > 0 && AllDigits(digits)
    requires TextAt(s, o, RatingText(key, digits)) && o + |RatingText(key, digits)| == |s|
    ensures FindAll(s, o) == [Match(key, digits, |s|)]
  {
    var e := |s|;
    RatingTextMatchAt(key, digits, s, o);
    FindAllAtMatch(s, o, Match(key, digits, e));
    FindAllAtEnd(s);
  }

  /** A rating line at offset o followed by a newline: its match, then the matches after the newline. */
  lemma {:induction false} LineThenNewline(key: string, digits: string, s: string, o: nat, e: nat)
    requires IsWord(key) && |digits| > 0 && AllDigits(digits)
    requires TextAt(s, o, RatingText(key, digits)) && e == o + |RatingText(key, digits)|
    requires e < |s| && s[e] == '\n'
    ensures FindAll(s, o) == [Match(key, digits, e)] + FindAll(s, e + 1)
  {
    RatingTextMatchAt(key, digits, s, o);
    FindAllAtMatch(s, o, Match(key, digits, e));
    FindAllAtNewline(s, e);
  }

  /** A newline starts no match. */
  lemma FindAllAtNewline(s: string, e: nat)
    requires e < |s| && s[e] == '\n'
    ensures FindAll(s, e) == FindAll(s, e + 1)
  {
    assert MatchAt(s, e).None?;
  }

  /** A rating line is exactly one match, covering the whole line. */
  lemma {:induction false} RatingLineMatches(key: string, n: nat)
    requires IsWord(key)
    ensures FindAll(RatingLine(key, n), 0) == [Match(key, Decimal(n), |RatingLine(key, n)|)]
  {
    var s := RatingLine(key, n);
    assert TextAt(s, 0, s) by {
      assert forall k :: 0 <= k < |s| ==> s[0 + k] == s[k];
    }
    FinalLineMatches(key, Decimal(n), s, 0);
  }

  lemma RatingKeyIsWord(key: string)
    requires IsRatingKey(key)
    ensures IsWord(key)
  {
    assert forall k :: 0 <= k < |key| ==> IsWordChar(key[k]);
  }

  /** parseTOMLResponse on one rating line alone sets that field to N and leaves every other field 0. */
  lemma {:induction false} RatingLineSetsField(key: string, n: nat, other: string)
    requires IsRatingKey(key) && IsRatingKey(other) && n <= MaxInt
    ensures Rating(ApplyMatches(Zero, FindAll(RatingLine(key, n), 0)), key) == n
    ensures other != key ==> Rating(ApplyMatches(Zero, FindAll(RatingLine(key, n), 0)), other) == 0
  {
    RatingKeyIsWord(key);
    RatingLineMatches(key, n);
    DecimalRoundTrip(n);
    var ms := FindAll(RatingLine(key, n), 0);
    assert ms[..0] == [];
    RatingAfterMatches(Zero, ms, key);
    RatingAfterMatches(Zero, ms, other);
  }

  /** An answer of rating lines, one per (key, N) pair, separated by newlines. */
  function Answer(lines: seq<(string, nat)>): string
    requires |lines| > 0
    decreases |lines|
  {
    var line := RatingLine(lines[0].0, lines[0].1);
    if |lines| == 1 then line else line + "\n" + Answer(lines[1..])
  }

  predicate WordKeys(lines: seq<(string, nat)>) {
    forall k :: 0 <= k < |lines| ==> IsWord(lines[k].0)
  }

  /** The N of the last line with this key, if any. */
  function LastRating(lines: seq<(string, nat)>, key: string): Option<int>
    decreases |lines|
  {
    if lines == [] then None
    else if lines[|lines| - 1].0 == key then Some(lines[|lines| - 1].1)
    else LastRating(lines[..|lines| - 1], key)
  }

  /** The first line of an answer occurs at the answer's start. */
  lemma {:induction false} AnswerStartsWithLine(lines: seq<(string, nat)>)
    requires |lines| > 0
    ensures TextAt(Answer(lines), 0, RatingLine(lines[0].0, lines[0].1))
    ensures |lines| > 1 ==>
      Answer(lines) == RatingLine(lines[0].0, lines[0].1) + "\n" + Answer(lines[1..])
  {
    var line := RatingLine(lines[0].0, lines[0].1);
    var u := Answer(lines);
    if |lines| > 1 {
      assert forall k :: 0 <= k < |line| ==> u[k] == line[k];
    }
    assert forall k :: 0 <= k < |line| ==> u[0 + k] == line[k];
  }

  /** How an answer at offset o lies in s: its first line, then a newline and the rest of the answer. */
  lemma {:induction false} AnswerLayout(s: string, o: nat, lines: seq<(string, nat)>)
    requires |lines| > 0 && TextAt(s, o, Answer(lines))
    ensures var line := RatingLine(lines[0].0, lines[0].1);
      && TextAt(s, o, line)
      && (|lines| == 1 ==> |line| == |Answer(lines)|)
      && (|lines| > 1 ==>
        && s[o + |line|] == '\n'
        && TextAt(s, o + |line| + 1, Answer(lines[1..]))
        && |line| + 1 + |Answer(lines[1..])| == |Answer(lines)|)
  {
    var u := Answer(lines);
    var line := RatingLine(lines[0].0, lines[0].1);
    AnswerStartsWithLine(lines);
    forall k | 0 <= k < |line|
      ensures s[o + k] == line[k]
    {
      assert u[0 + k] == line[k];
    }
    if |lines| > 1 {
      var rest := Answer(lines[1..]);
      assert s[o + |line|] == u[|line|];
      forall k | 0 <= k < |rest|
        ensures s[o + |line| + 1 + k] == rest[k]
      {
        assert u[|line| + 1 + k] == rest[k];
        assert s[o + (|line| + 1 + k)] == u[|line| + 1 + k];
      }
    }
  }

  lemma WordKeysTail(lines: seq<(string, nat)>)
    requires |lines| > 0 && WordKeys(lines)
    ensures WordKeys(lines[1..])
  {
    assert forall k :: 0 <= k < |lines| - 1 ==> lines[1..][k] == lines[k + 1];
  }

  /** Matches that carry the lines' captures, after one more match that carries one more line's. */
  lemma ConsCaptures(m0: Match, ms: seq<Match>, lines: seq<(string, nat)>)
    requires |lines| > 0 && m0.key == lines[0].0 && m0.digits == Decimal(lines[0].1)
    requires |ms| == |lines| - 1
    requires forall k :: 0 <= k < |ms| ==> ms[k].key == lines[1..][k].0 && ms[k].digits == Decimal(lines[1..][k].1)
    ensures |[m0] + ms| == |lines|
    ensures forall k :: 0 <= k < |lines| ==> ([m0] + ms)[k].key == lines[k].0 && ([m0] + ms)[k].digits == Decimal(lines[k].1)
  {
    forall k | 1 <= k < |lines|
      ensures ([m0] + ms)[k].key == lines[k].0 && ([m0] + ms)[k].digits == Decimal(lines[k].1)
    {
      assert ([m0] + ms)[k] == ms[k - 1];
      assert lines[1..][k - 1] == lines[k];
    }
  }

  /** An answer occurring at offset o to the end of s yields one match per line, in order. */
  lemma {:induction false} AnswerMatchesAt(s: string, o: nat, lines: seq<(string, nat)>)
    requires |lines| > 0 && WordKeys(lines)
    requires TextAt(s, o, Answer(lines)) && o + |Answer(lines)| == |s|
    ensures |FindAll(s, o)| == |lines|
    ensures forall k :: 0 <= k < |lines| ==>
      FindAll(s, o)[k].key == lines[k].0 && FindAll(s, o)[k].digits == Decimal(lines[k].1)
    decreases |lines|
  {
    var key := lines[0].0;
    var digits := Decimal(lines[0].1);
    var e := o + |RatingText(key, digits)|;
    AnswerLayout(s, o, lines);
    if |lines| == 1 {
      FinalLineMatches(key, digits, s, o);
      ConsCaptures(Match(key, digits, e), [], lines);
    } else {
      LineThenNewline(key, digits, s, o, e);
      WordKeysTail(lines);
      AnswerMatchesAt(s, e + 1, lines[1..]);
      ConsCaptures(Match(key, digits, e), FindAll(s, e + 1), lines);
    }
  }

  /** The matches of an answer are its lines, in order: each line's key and the digits of its N. */
  lemma {:induction false} AnswerMatches(lines: seq<(string, nat)>)
    requires |lines| > 0 && WordKeys(lines)
    ensures |FindAll(Answer(lines), 0)| == |lines|
    ensures forall k :: 0 <= k < |lines| ==>
      FindAll(Answer(lines), 0)[k].key == lines[k].0 && FindAll(Answer(lines), 0)[k].digits == Decimal(lines[k].1)
  {
    var u := Answer(lines);
    assert TextAt(u, 0, u) by {
      assert forall k :: 0 <= k < |u| ==> u[0 + k] == u[k];
    }
    AnswerMatchesAt(u, 0, lines);
  }

  /** The last value of matches that carry the lines' keys and values is the last line's N. */
  lemma {:induction false} LastValueOfLines(ms: seq<Match>, lines: seq<(string, nat)>, key: string)
    requires ValidMatches(ms) && |ms| == |lines|
    requires forall k :: 0 <= k < |ms| ==> ms[k].key == lines[k].0 && Atoi(ms[k].digits) == lines[k].1
    ensures LastValue(ms, key) == LastRating(lines, key)
    decreases |ms|
  {
    if ms != [] {
      LastValueOfLines(ms[..|ms| - 1], lines[..|lines| - 1], key);
    }
  }

  /**
   * parseTOMLResponse on an answer of rating lines: each field is the N of
   * the last line with its key (a repeated key keeps its last value), and 0
   * when no line has its key.
   */
  lemma {:induction false} AnswerSetsFields(lines: seq<(string, nat)>, key: string)
    requires |lines| > 0 && WordKeys(lines) && IsRatingKey(key)
    requires forall k :: 0 <= k < |lines| ==> lines[k].1 <= MaxInt
    ensures Rating(ApplyMatches(Zero, FindAll(Answer(lines), 0)), key) == LastRating(lines, key).GetOr(0)
  {
    var ms := FindAll(Answer(lines), 0);
    AnswerMatches(lines);
    forall k | 0 <= k < |ms|
      ensures Atoi(ms[k].digits) == lines[k].1
    {
      DecimalRoundTrip(lines[k].1);
    }
    LastValueOfLines(ms, lines, key);
    RatingAfterMatches(Zero, ms, key);
  }

  /** With distinct keys, the last line with a key is its only line. */
  lemma {:induction false} LastRatingOfDistinct(lines: seq<(string, nat)>, i: nat)
    requires i < |lines|
    requires forall a, b :: 0 <= a < b < |lines| ==> lines[a].0 != lines[b].0
    ensures LastRating(lines, lines[i].0) == Some(lines[i].1)
    decreases |lines|
  {
    if i < |lines| - 1 {
      LastRatingOfDistinct(lines[..|lines| - 1], i);
    }
  }

  /** The seven lines scanSystemPrompt asks for, with the given ratings, in its order. */
  function PromptLines(r: seq<nat>): (lines: seq<(string, nat)>)
    requires |r| == 7
    ensures |lines| == 7
    ensures forall k :: 0 <= k < 7 ==> lines[k] == (PromptKeys[k], r[k])
  {
    seq(7, k requires 0 <= k < 7 => (PromptKeys[k], r[k]))
  }

  /** The seven keys are distinct rating keys, each a word. */
  lemma PromptKeysFacts()
    ensures forall k :: 0 <= k < 7 ==> IsRatingKey(PromptKeys[k]) && IsWord(PromptKeys[k])
    ensures forall a, b :: 0 <= a < b < 7 ==> PromptKeys[a] != PromptKeys[b]
  {
    forall k | 0 <= k < 7
      ensures IsWord(PromptKeys[k])
    {
      RatingKeyIsWord(PromptKeys[k]);
    }
  }

  /** The seven fields, read through their keys, determine the record. */
  lemma RatingsDetermine(d: ScanData, r: seq<nat>)
    requires |r| == 7 && forall k :: 0 <= k < 7 ==> Rating(d, PromptKeys[k]) == r[k]
    ensures d == ScanData(r[0], r[1], r[2], r[3], r[4], r[5], r[6])
  {
    assert Rating(d, PromptKeys[0]) == d.faceOverallRating;
    assert Rating(d, PromptKeys[1]) == d.femininityRating;
    assert Rating(d, PromptKeys[2]) == d.masculinityRating;
    assert Rating(d, PromptKeys[3]) == d.faceRating;
    assert Rating(d, PromptKeys[4]) == d.eyesRating;
    assert Rating(d, PromptKeys[5]) == d.jawlineRating;
    assert Rating(d, PromptKeys[6]) == d.skinRating;
  }

  /** An answer exactly as scanSystemPrompt asks for it reads back as its seven ratings. */
  lemma {:induction false} PromptAnswerReadsBack(r: seq<nat>)
    requires |r| == 7 && forall k :: 0 <= k < 7 ==> r[k] <= MaxInt
    ensures ApplyMatches(Zero, FindAll(Answer(PromptLines(r)), 0)) == ScanData(r[0], r[1], r[2], r[3], r[4], r[5], r[6])
  {
    var lines := PromptLines(r);
    PromptKeysFacts();
    assert WordKeys(lines);
    var d := ApplyMatches(Zero, FindAll(Answer(lines), 0));
    forall k | 0 <= k < 7
      ensures Rating(d, PromptKeys[k]) == r[k]
    {
      LastRatingOfDistinct(lines, k);
      AnswerSetsFields(lines, PromptKeys[k]);
    }
    RatingsDetermine(d, r);
  }

  /** When a key is repeated, its last line wins. */
  lemma {:induction false} LastLineWins(lines: seq<(string, nat)>, key: string, n: nat)
    requires WordKeys(lines) && IsRatingKey(key) && n <= MaxInt
    requires forall k :: 0 <= k < |lines| ==> lines[k].1 <= MaxInt
    ensures Rating(ApplyMatches(Zero, FindAll(Answer(lines + [(key, n)]), 0)), key) == n
  {
    RatingKeyIsWord(key);
    AnswerSetsFields(lines + [(key, n)], key);
  }

  /** A rating without "/10" is not read: `skin_rating = 7` leaves every field 0. */
  lemma BareNumberIgnored()
    ensures FindAll("skin_rating = 7", 0) == []
    ensures ApplyMatches(Zero, FindAll("skin_rating = 7", 0)) == Zero
  {
    NoOneNoMatch("skin_rating = 7", 0);
  }
}
