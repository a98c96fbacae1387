/** The eight-step severity scale (level.go). */
module Levels {
  import opened Text
  import opened Wrappers

  /** Go's `type Level int`: any integer is a Level, only 0..7 are named. */
  type Level = int

  const Debug: Level := 0
  const Info: Level := 1
  const Notice: Level := 2
  const Warning: Level := 3
  const Error: Level := 4
  const Critical: Level := 5
  const Alert: Level := 6
  const Emergency: Level := 7

  /** The levels declared by the `iota` block. */
  predicate IsDefined(l: Level) {
    Debug <= l <= Emergency
  }

  /** Per-level lookup tables, indexed by the level's value. */
  const Names: seq<string> :=
    ["DEBUG", "INFO", "NOTICE", "WARNING", "ERROR", "CRITICAL", "ALERT", "EMERGENCY"]
  const Emojis: seq<string> := [
    "\U{1F50D}", "\U{2139}\U{FE0F}", "\U{1F4DD}", "\U{26A0}\U{FE0F}",
    "\U{274C}", "\U{1F525}", "\U{1F6A8}", "\U{1F480}"]
  const Colors: seq<string> := [
    "\U{1B}[36m", "\U{1B}[32m", "\U{1B}[34m", "\U{1B}[33m",
    "\U{1B}[31m", "\U{1B}[35m", "\U{1B}[31;1m", "\U{1B}[37;41m"]
  const SlackColors: seq<string> :=
    ["#36a64f", "#2196F3", "#9C27B0", "#FF9800", "#f44336", "#D32F2F", "#B71C1C", "#000000"]

  const UnknownName := "UNKNOWN"
  const FallbackEmoji := "\U{1F4CB}"
  const ResetColor := "\U{1B}[0m"
  const FallbackSlackColor := "#9E9E9E"

  /** `Level.String`: the upper-case name, or UNKNOWN outside the scale. */
  function Name(l: Level): (r: string)
    ensures IsDefined(l) <==> r != UnknownName
    ensures r == ToUpper(r)
    ensures IsDefined(l) ==> r == Names[l]
  {
    if IsDefined(l) then Names[l] else UnknownName
  }

  /** Distinct levels of the scale have distinct names. */
  lemma NameInjective(a: Level, b: Level)
    requires IsDefined(a) && IsDefined(b) && a != b
    ensures Name(a) != Name(b)
  {
  }

  /** `Level.Emoji`: the table glyph, or the clipboard glyph (never a table entry) outside the scale. */
  function Emoji(l: Level): (r: string)
    ensures IsDefined(l) ==> r == Emojis[l]
    ensures !IsDefined(l) <==> r == FallbackEmoji
  {
    if IsDefined(l) then Emojis[l] else FallbackEmoji
  }

  /** `Level.Color`: the ANSI escape, or the reset escape (never a table entry) outside the scale. */
  function Color(l: Level): (r: string)
    ensures IsDefined(l) ==> r == Colors[l]
    ensures !IsDefined(l) <==> r == ResetColor
  {
    if IsDefined(l) then Colors[l] else ResetColor
  }

  /** `Level.SlackColor`: the attachment colour, or grey (never a table entry) outside the scale. */
  function SlackColor(l: Level): (r: string)
    ensures IsDefined(l) ==> r == SlackColors[l]
    ensures !IsDefined(l) <==> r == FallbackSlackColor
  {
    if IsDefined(l) then SlackColors[l] else FallbackSlackColor
  }

  /** The words `ParseLevel` recognises after normalisation, with the short aliases. */
  function Keyword(u: string): Option<Level> {
    if u == "DEBUG" then Some(Debug)
    else if u == "INFO" then Some(Info)
    else if u == "NOTICE" then Some(Notice)
    else if u == "WARNING" || u == "WARN" then Some(Warning)
    else if u == "ERROR" || u == "ERR" then Some(Error)
    else if u == "CRITICAL" || u == "CRIT" then Some(Critical)
    else if u == "ALERT" then Some(Alert)
    else if u == "EMERGENCY" || u == "EMERG" then Some(Emergency)
    else None
  }

  /** `strings.ToUpper(strings.TrimSpace(s))`. */
  function Normalize(s: string): string {
    ToUpper(TrimSpace(s))
  }

  /** `ParseLevel`: total and forgiving; anything unrecognised, "" included, is Info. */
  function ParseLevel(s: string): (l: Level)
    ensures IsDefined(l)
    ensures Keyword(Normalize(s)).None? ==> l == Info
  {
    match Keyword(Normalize(s))
    case Some(k) => k
    case None => Info
  }

  predicate IsUpperWord(w: string) {
    |w| > 0 && forall i :: 0 <= i < |w| ==> 'A' <= w[i] <= 'Z'
  }

  /** A word of capital letters is its own normal form. */
  lemma NormalizeUpperWord(w: string)
    requires IsUpperWord(w)
    ensures Normalize(w) == w
  {
    assert !IsSpace(w[0]);
    assert TrimLeft(w) == w;
    assert !IsSpace(w[|w| - 1]);
    assert TrimRight(w) == w;
    assert ToUpper(w) == w;
  }

  /** Every name in the table is a keyword naming its own level. */
  lemma KeywordOfName(l: Level)
    requires IsDefined(l)
    ensures IsUpperWord(Names[l])
    ensures Keyword(Names[l]) == Some(l)
  {
    if l == Debug {
      assert Names[l] == "DEBUG";
    } else if l == Info {
      assert Names[l] == "INFO";
    } else if l == Notice {
      assert Names[l] == "NOTICE";
    } else if l == Warning {
      assert Names[l] == "WARNING";
    } else if l == Error {
      assert Names[l] == "ERROR";
    } else if l == Critical {
      assert Names[l] == "CRITICAL";
    } else if l == Alert {
      assert Names[l] == "ALERT";
    } else {
      assert Names[l] == "EMERGENCY";
    }
  }

  /** Printing a level and parsing it back gives the level. */
  lemma ParseNameRoundTrip(l: Level)
    requires IsDefined(l)
    ensures ParseLevel(Name(l)) == l
  {
    KeywordOfName(l);
    NormalizeUpperWord(Names[l]);
  }

  /** Each short alias parses to the same level as the full name it abbreviates. */
  lemma ParseAlias(alias: string, l: Level)
    requires (alias, l) in [("WARN", Warning), ("ERR", Error), ("CRIT", Critical), ("EMERG", Emergency)]
    ensures ParseLevel(alias) == l == ParseLevel(Name(l))
  {
    var aliases := [("WARN", Warning), ("ERR", Error), ("CRIT", Critical), ("EMERG", Emergency)];
    var k :| 0 <= k < 4 && aliases[k] == (alias, l);
    if k == 0 {
      ParseWarn();
    } else if k == 1 {
      ParseErr();
    } else if k == 2 {
      ParseCrit();
    } else {
      ParseEmerg();
    }
  }

  lemma ParseWarn() ensures ParseLevel("WARN") == Warning == ParseLevel(Name(Warning)) {
    ParseWord("WARN", Warning);
    ParseNameRoundTrip(Warning);
  }

  lemma ParseErr() ensures ParseLevel("ERR") == Error == ParseLevel(Name(Error)) {
    ParseWord("ERR", Error);
    ParseNameRoundTrip(Error);
  }

  lemma ParseCrit() ensures ParseLevel("CRIT") == Critical == ParseLevel(Name(Critical)) {
    ParseWord("CRIT", Critical);
    ParseNameRoundTrip(Critical);
  }

  lemma ParseEmerg() ensures ParseLevel("EMERG") == Emergency == ParseLevel(Name(Emergency)) {
    ParseWord("EMERG", Emergency);
    ParseNameRoundTrip(Emergency);
  }

  lemma ParseWord(w: string, l: Level)
    requires IsUpperWord(w) && Keyword(w) == Some(l)
    ensures ParseLevel(w) == l
  {
    NormalizeUpperWord(w);
  }

  /** The empty string and an unknown word both parse to Info, not to an error. */
  lemma ParseDefaults()
    ensures ParseLevel("") == Info && ParseLevel("unknown") == Info
  {
    ParseEmpty();
    ParseUnknown();
  }

  lemma ParseEmpty() ensures ParseLevel("") == Info {
    assert Normalize("") == "";
  }

  lemma ParseUnknown() ensures ParseLevel("unknown") == Info {
    UpperUnknown();
    ParseIgnoresCase("unknown");
    UnknownIsUpperWord();
    NormalizeUpperWord("UNKNOWN");
    UnknownIsNoKeyword();
  }

  lemma UnknownIsUpperWord() ensures IsUpperWord("UNKNOWN") {
  }

  lemma UnknownIsNoKeyword() ensures Keyword("UNKNOWN").None? {
  }

  lemma UpperUnknown() ensures ToUpper("unknown") == "UNKNOWN" {
    var u := ToUpper("unknown");
    assert |u| == 7;
    forall i | 0 <= i < 7 ensures u[i] == "UNKNOWN"[i] {
      assert u[i] == UpperChar("unknown"[i]);
    }
  }

  /** Upper-casing the input first never changes the parsed level. */
  lemma ParseIgnoresCase(s: string)
    ensures ParseLevel(ToUpper(s)) == ParseLevel(s)
  {
    UpperCommutesWithTrim(s);
    var t := TrimSpace(s);
    forall i | 0 <= i < |t|
      ensures ToUpper(ToUpper(t))[i] == ToUpper(t)[i]
    {
      UpperCharFacts(t[i]);
    }
    assert ToUpper(ToUpper(t)) == ToUpper(t);
  }

  /** Leading and trailing white space never changes the parsed level. */
  lemma ParseIgnoresPadding(ws1: string, s: string, ws2: string)
    requires AllSpace(ws1) && AllSpace(ws2)
    ensures ParseLevel(ws1 + s + ws2) == ParseLevel(s)
  {
    TrimSpacePadding(ws1, s, ws2);
  }

  lemma {:induction false} UpperCommutesWithTrimLeft(s: string)
    ensures TrimLeft(ToUpper(s)) == ToUpper(TrimLeft(s))
    decreases |s|
  {
    if s != [] {
      UpperCharFacts(s[0]);
      assert ToUpper(s)[1..] == ToUpper(s[1..]);
      UpperCommutesWithTrimLeft(s[1..]);
    }
  }

  lemma {:induction false} UpperCommutesWithTrimRight(s: string)
    ensures TrimRight(ToUpper(s)) == ToUpper(TrimRight(s))
    decreases |s|
  {
    if s != [] {
      UpperCharFacts(s[|s| - 1]);
      assert ToUpper(s)[..|s| - 1] == ToUpper(s[..|s| - 1]);
      UpperCommutesWithTrimRight(s[..|s| - 1]);
    }
  }

  lemma UpperCommutesWithTrim(s: string)
    ensures TrimSpace(ToUpper(s)) == ToUpper(TrimSpace(s))
  {
    UpperCommutesWithTrimLeft(s);
    UpperCommutesWithTrimRight(TrimLeft(s));
  }

  /** The scale is strictly ascending from Debug to Emergency. */
  lemma ScaleOrder()
    ensures Debug < Info < Notice < Warning < Error < Critical < Alert < Emergency
    ensures forall l :: IsDefined(l) ==> Debug <= l <= Emergency
  {
  }
}
