/**
 * The translation table: per language a map from message key to text,
 * merged from one JSON file per language, and the lookup with its
 * fallbacks to English and to the key itself.
 */
module Translate {

  type Table = map<string, map<string, string>>

  /** The languages the table starts with, each with no entries. */
  const InitialTable: Table := map["tr" := map[], "en" := map[], "de" := map[], "es" := map[], "fr" := map[], "it" := map[]]

  /** The order LoadFolder reads the files in. */
  const AvailableLanguages := ["en", "tr", "de", "es", "fr", "it"]

  /** What reading and decoding a language file gives. */
  datatype LanguageFile = Missing | Malformed | Parsed(entries: map<string, string>)

  /** How loadLang ends: it merges the file, skips a missing optional file, or panics. */
  datatype LoadOutcome = Loaded | Skipped | Panicked

  /** log.Panicln on a missing file only for the two required languages. */
  predicate IsRequiredLanguage(lang: string) {
    lang == "en" || lang == "tr"
  }

  /** The language's entries with the file's entries written over them. */
  function Merge(table: Table, lang: string, entries: map<string, string>): (t: Table)
    ensures t.Keys == table.Keys + {lang}
    ensures forall l :: l in table && l != lang ==> t[l] == table[l]
    ensures forall k :: k in entries ==> k in t[lang] && t[lang][k] == entries[k]
    ensures forall k :: lang in table && k in table[lang] && k !in entries ==> k in t[lang] && t[lang][k] == table[lang][k]
    ensures forall k :: k in t[lang] ==> k in entries || (lang in table && k in table[lang])
  {
    var current := if lang in table then table[lang] else map[];
    table[lang := current + entries]
  }

  /** loadLang, as a function of the table and of what the file gives. */
  function LoadLang(table: Table, lang: string, file: LanguageFile): (r: (Table, LoadOutcome))
    ensures r.1 == Panicked <==> file.Malformed? || (file.Missing? && IsRequiredLanguage(lang))
    ensures r.1 == Skipped <==> file.Missing? && !IsRequiredLanguage(lang)
    ensures r.1 != Loaded ==> r.0 == table
    ensures file.Parsed? ==> r == (Merge(table, lang, file.entries), Loaded)
  {
    match file
    case Missing => (table, if IsRequiredLanguage(lang) then Panicked else Skipped)
    case Malformed => (table, Panicked)
    case Parsed(entries) => (Merge(table, lang, entries), Loaded)
  }

  /** LoadFolder: the languages in order; a panic ends the process, so nothing after it loads. */
  function LoadAll(table: Table, langs: seq<string>, files: string -> LanguageFile): (r: (Table, bool))
    decreases |langs|
  {
    if langs == [] then (table, true)
    else
      var (t, outcome) := LoadLang(table, langs[0], files(langs[0]));
      if outcome == Panicked then (t, false) else LoadAll(t, langs[1..], files)
  }

  /** Loading a file whose entries are already in the table changes nothing. */
  lemma LoadLangIdempotent(table: Table, lang: string, file: LanguageFile)
    ensures LoadLang(LoadLang(table, lang, file).0, lang, file) == LoadLang(table, lang, file)
  {
    if file.Parsed? {
      var once := Merge(table, lang, file.entries);
      assert once[lang] + file.entries == once[lang];
      assert once[lang := once[lang]] == once;
    }
  }

  /** LoadFolder never drops a language. */
  lemma {:induction false} LoadAllKeepsLanguages(table: Table, langs: seq<string>, files: string -> LanguageFile)
    ensures table.Keys <= LoadAll(table, langs, files).0.Keys
    decreases |langs|
  {
    if langs != [] {
      var (t, outcome) := LoadLang(table, langs[0], files(langs[0]));
      if outcome != Panicked {
        LoadAllKeepsLanguages(t, langs[1..], files);
      }
    }
  }

  class Translator {
    var translatedData: Table

    constructor ()
      ensures translatedData == InitialTable
    {
      translatedData := InitialTable;
    }

    /** loadLang: the entries are copied one key at a time. */
    method LoadLanguage(lang: string, file: LanguageFile) returns (outcome: LoadOutcome)
      modifies this
      ensures (translatedData, outcome) == LoadLang(old(translatedData), lang, file)
    {
      if file.Missing? {
        return if IsRequiredLanguage(lang) then Panicked else Skipped;
      }
      if file.Malformed? {
        return Panicked;
      }
      var data := file.entries;
      if lang !in translatedData {
        translatedData := translatedData[lang := map[]];
      }
      ghost var start := translatedData[lang];
      var remaining := data.Keys;
      while remaining != {}
        invariant remaining <= data.Keys
        invariant lang in translatedData
        invariant translatedData == old(translatedData)[lang := translatedData[lang]]
        invariant translatedData[lang] == start + map k | k in data.Keys - remaining :: data[k]
        decreases remaining
      {
        var k :| k in remaining;
        translatedData := translatedData[lang := translatedData[lang][k := data[k]]];
        remaining := remaining - {k};
      }
      assert data.Keys - remaining == data.Keys;
      assert (map k | k in data.Keys :: data[k]) == data;
      outcome := Loaded;
    }

    /** LoadFolder: every available language in order, stopping at a panic. */
    method LoadFolder(files: string -> LanguageFile) returns (completed: bool)
      modifies this
      ensures (translatedData, completed) == LoadAll(old(translatedData), AvailableLanguages, files)
    {
      var i := 0;
      while i < |AvailableLanguages|
        invariant 0 <= i <= |AvailableLanguages|
        invariant LoadAll(old(translatedData), AvailableLanguages, files)
          == LoadAll(translatedData, AvailableLanguages[i..], files)
      {
        var lang := AvailableLanguages[i];
        var outcome := LoadLanguage(lang, files(lang));
        if outcome == Panicked {
          return false;
        }
        assert AvailableLanguages[i..][1..] == AvailableLanguages[i + 1..];
        i := i + 1;
      }
      return true;
    }
  }

  // -------------------------------------------------------------------
  // Lookup
  // -------------------------------------------------------------------

  function LowerChar(c: char): char {
    if 'A' <= c <= 'Z' then (c as int + 32) as char else c
  }

  /** strings.ToLower on ASCII letters. */
  function ToLower(s: string): (r: string)
    ensures |r| == |s|
    ensures forall k :: 0 <= k < |s| ==> r[k] == LowerChar(s[k])
    ensures forall k :: 0 <= k < |r| ==> !('A' <= r[k] <= 'Z')
  {
    seq(|s|, k requires 0 <= k < |s| => LowerChar(s[k]))
  }

  lemma ToLowerIdempotent(s: string)
    ensures ToLower(ToLower(s)) == ToLower(s)
  {
  }

  /** A missing language or key reads as "", as Go's lookup in a nil or absent map does. */
  function Lookup(table: Table, lang: string, key: string): string {
    if lang in table && key in table[lang] then table[lang][key] else ""
  }

  /** getKeyValue. */
  function GetKeyValue(table: Table, lang: string, key: string): (r: string)
    ensures var l := ToLower(lang); var own := if l in table then Lookup(table, l, key) else Lookup(table, "en", key);
      && (own != "" ==> r == own)
      && (own == "" && Lookup(table, "en", key) != "" ==> r == Lookup(table, "en", key))
      && (own == "" && Lookup(table, "en", key) == "" ==> r == key)
  {
    var l := ToLower(lang);
    var langData := if l in table then table[l] else if "en" in table then table["en"] else map[];
    var strData := if key in langData then langData[key] else "";
    if strData == "" then
      var english := Lookup(table, "en", key);
      if english == "" then key else english
    else strData
  }

  /** The lookup gives the language's text, else the English text, else the key; so non-empty keys never translate to "". */
  lemma GetKeyValueFallbacks(table: Table, lang: string, key: string)
    ensures var r := GetKeyValue(table, lang, key);
      r == Lookup(table, ToLower(lang), key) || r == Lookup(table, "en", key) || r == key
    ensures key != "" ==> GetKeyValue(table, lang, key) != ""
    ensures GetKeyValue(table, lang, key) == GetKeyValue(table, ToLower(lang), key)
  {
    ToLowerIdempotent(lang);
  }

  /** A language the table does not know reads as English. */
  lemma UnknownLanguageIsEnglish(table: Table, lang: string, key: string)
    requires ToLower(lang) !in table
    ensures GetKeyValue(table, lang, key) == GetKeyValue(table, "en", key)
  {
    assert ToLower("en") == "en";
  }

  /**
   * GetTranslation. Formatting with arguments is fmt.Sprintf, passed in as
   * `sprintf`; with no arguments the looked-up text is returned as is.
   */
  function GetTranslation<V>(table: Table, lang: string, key: string, vals: seq<V>, sprintf: (string, seq<V>) -> string): (r: string)
    ensures |vals| == 0 ==> r == GetKeyValue(table, lang, key)
    ensures |vals| > 0 && GetKeyValue(table, lang, key) == "" ==> r == key
    ensures |vals| > 0 && GetKeyValue(table, lang, key) != "" ==> r == sprintf(GetKeyValue(table, lang, key), vals)
  {
    var strData := GetKeyValue(table, lang, key);
    if |vals| == 0 then strData
    else if |strData| == 0 then key
    else sprintf(strData, vals)
  }
}
