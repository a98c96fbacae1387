/** String helpers standing for the parts of Go's `strings`, `strconv` and `unicode/utf8`
    packages that the logging core relies on. */
module Text {

  /** A string that is never empty (what `json.MarshalIndent` or its `%v` fallback yields). */
  type NonEmptyString = s: string | |s| > 0 witness "{}"

  /** Go's `unicode.IsSpace`: the ASCII and Latin-1 spaces plus the Unicode White_Space set. */
  predicate IsSpace(c: char) {
    || c == ' ' || c == '\t' || c == '\n' || c == '\r' || c == '\U{000B}' || c == '\U{000C}'
    || c == '\U{0085}' || c == '\U{00A0}' || c == '\U{1680}'
    || ('\U{2000}' <= c <= '\U{200A}')
    || c == '\U{2028}' || c == '\U{2029}' || c == '\U{202F}' || c == '\U{205F}' || c == '\U{3000}'
  }

  predicate AllSpace(s: string) {
    forall i :: 0 <= i < |s| ==> IsSpace(s[i])
  }

  /** Drops leading white space. */
  function TrimLeft(s: string): (r: string)
    ensures |r| <= |s| && r == s[|s| - |r|..]
    ensures forall i :: 0 <= i < |s| - |r| ==> IsSpace(s[i])
    ensures r == [] || !IsSpace(r[0])
  {
    if |s| > 0 && IsSpace(s[0]) then TrimLeft(s[1..]) else s
  }

  /** Drops trailing white space. */
  function TrimRight(s: string): (r: string)
    ensures |r| <= |s| && r == s[..|r|]
    ensures forall i :: |r| <= i < |s| ==> IsSpace(s[i])
    ensures r == [] || !IsSpace(r[|r| - 1])
  {
    if |s| > 0 && IsSpace(s[|s| - 1]) then TrimRight(s[..|s| - 1]) else s
  }

  /** Go's `strings.TrimSpace`. */
  function TrimSpace(s: string): string {
    TrimRight(TrimLeft(s))
  }

  lemma {:induction false} TrimLeftPadding(ws: string, s: string)
    requires AllSpace(ws)
    ensures TrimLeft(ws + s) == TrimLeft(s)
    decreases |ws|
  {
    if ws == [] {
      assert ws + s == s;
    } else {
      assert (ws + s)[0] == ws[0];
      assert (ws + s)[1..] == ws[1..] + s;
      TrimLeftPadding(ws[1..], s);
    }
  }

  lemma {:induction false} TrimRightPadding(s: string, ws: string)
    requires AllSpace(ws)
    ensures TrimRight(s + ws) == TrimRight(s)
    decreases |ws|
  {
    if ws == [] {
      assert s + ws == s;
    } else {
      assert (s + ws)[|s + ws| - 1] == ws[|ws| - 1];
      assert (s + ws)[..|s + ws| - 1] == s + ws[..|ws| - 1];
      TrimRightPadding(s, ws[..|ws| - 1]);
    }
  }

  /** Surrounding white space never changes what `TrimSpace` yields. */
  lemma TrimSpacePadding(ws1: string, s: string, ws2: string)
    requires AllSpace(ws1) && AllSpace(ws2)
    ensures TrimSpace(ws1 + s + ws2) == TrimSpace(s)
  {
    assert ws1 + s + ws2 == ws1 + (s + ws2);
    TrimLeftPadding(ws1, s + ws2);
    var t := TrimLeft(s);
    if t != [] {
      TrimLeftAppend(s, ws2);
      TrimRightPadding(t, ws2);
    } else {
      AllSpaceTrimsToNothing(s, ws2);
    }
  }

  /** Once leading white space is gone, appending text does not move where trimming stops. */
  lemma {:induction false} TrimLeftAppend(s: string, x: string)
    requires TrimLeft(s) != []
    ensures TrimLeft(s + x) == TrimLeft(s) + x
    decreases |s|
  {
    assert (s + x)[0] == s[0];
    if IsSpace(s[0]) {
      assert (s + x)[1..] == s[1..] + x;
      TrimLeftAppend(s[1..], x);
    }
  }

  /** Text that trims to nothing stays all white space with more white space after it. */
  lemma AllSpaceTrimsToNothing(s: string, ws: string)
    requires TrimLeft(s) == [] && AllSpace(ws)
    ensures TrimSpace(s + ws) == []
  {
    AllSpaceAppend(s, ws);
    TrimLeftPadding(s + ws, []);
    assert s + ws + [] == s + ws;
  }

  lemma AllSpaceAppend(a: string, b: string)
    requires AllSpace(a) && AllSpace(b)
    ensures AllSpace(a + b)
  {
    forall i | 0 <= i < |a + b| ensures IsSpace((a + b)[i]) {
      if i < |a| { assert (a + b)[i] == a[i]; } else { assert (a + b)[i] == b[i - |a|]; }
    }
  }

  /** Go's `unicode.ToUpper` for every character whose upper case is ASCII: the letters a-z,
      dotless i and long s. Any other character is returned as it is: its Go upper case is
      never ASCII, so it can never complete an ASCII keyword either way. */
  function UpperChar(c: char): char {
    if 'a' <= c <= 'z' then (c as int - 32) as char
    else if c == '\U{0131}' then 'I'
    else if c == '\U{017F}' then 'S'
    else c
  }

  function ToUpper(s: string): (r: string)
    ensures |r| == |s|
    ensures forall i :: 0 <= i < |s| ==> r[i] == UpperChar(s[i])
  {
    seq(|s|, i requires 0 <= i < |s| => UpperChar(s[i]))
  }

  /** Upper-casing is idempotent and never creates or removes white space. */
  lemma UpperCharFacts(c: char)
    ensures UpperChar(UpperChar(c)) == UpperChar(c)
    ensures IsSpace(UpperChar(c)) == IsSpace(c)
  {
  }

  /** Go's `strings.Contains`. */
  predicate Contains(s: string, sub: string) {
    sub <= s || (|s| > 0 && Contains(s[1..], sub))
  }

  function DigitChar(d: nat): char
    requires d < 10
  {
    ('0' as int + d) as char
  }

  predicate AllDigits(s: string) {
    forall i :: 0 <= i < |s| ==> '0' <= s[i] <= '9'
  }

  /** The number a string of decimal digits denotes, most significant digit first. */
  function DecimalValue(s: string): nat
    requires AllDigits(s)
  {
    if s == [] then 0 else 10 * DecimalValue(s[..|s| - 1]) + (s[|s| - 1] as int - '0' as int)
  }

  /** `strconv.Itoa` on a non-negative number. */
  function NatToDecimal(n: nat): (r: string)
    ensures |r| > 0 && AllDigits(r)
  {
    if n < 10 then [DigitChar(n)] else NatToDecimal(n / 10) + [DigitChar(n % 10)]
  }

  /** `strconv.Itoa` writes the number itself, with no leading zero. */
  lemma {:induction false} NatToDecimalValue(n: nat)
    ensures DecimalValue(NatToDecimal(n)) == n
    ensures |NatToDecimal(n)| > 1 ==> NatToDecimal(n)[0] != '0'
    decreases n
  {
    if n >= 10 {
      var r := NatToDecimal(n);
      assert r[..|r| - 1] == NatToDecimal(n / 10);
      NatToDecimalValue(n / 10);
    }
  }

  /** `fmt.Sprintf("%d", n)`. */
  function IntToDecimal(n: int): (r: string)
    ensures |r| > 0
  {
    if n < 0 then "-" + NatToDecimal(-n) else NatToDecimal(n)
  }

  /** `%d` writes the number itself: its digits, after a minus sign when it is negative. */
  lemma IntToDecimalValue(n: int)
    ensures var r := IntToDecimal(n);
      && (n >= 0 ==> AllDigits(r) && DecimalValue(r) == n)
      && (n < 0 ==> r[0] == '-' && AllDigits(r[1..]) && DecimalValue(r[1..]) == -n)
  {
    if n < 0 {
      var d := NatToDecimal(-n);
      assert IntToDecimal(n) == "-" + d;
      assert IntToDecimal(n)[1..] == d;
      NatToDecimalValue(-n);
    } else {
      assert IntToDecimal(n) == NatToDecimal(n);
      NatToDecimalValue(n);
    }
  }

  /** Number of bytes of the UTF-8 encoding of one character. */
  function Utf8Width(c: char): nat {
    if c as int < 0x80 then 1
    else if c as int < 0x800 then 2
    else if c as int < 0x10000 then 3
    else 4
  }

  /** Go's `len` on a string: the byte length of its UTF-8 encoding. */
  function Utf8Len(s: string): (r: nat)
    ensures |s| <= r <= 4 * |s|
  {
    if s == [] then 0 else Utf8Width(s[0]) + Utf8Len(s[1..])
  }

  lemma {:induction false} Utf8LenAppend(a: string, b: string)
    ensures Utf8Len(a + b) == Utf8Len(a) + Utf8Len(b)
    decreases |a|
  {
    if a == [] {
      assert a + b == b;
    } else {
      assert (a + b)[0] == a[0];
      assert (a + b)[1..] == a[1..] + b;
      Utf8LenAppend(a[1..], b);
    }
  }

  /** On an all-ASCII string Go's byte length equals the character count. */
  lemma {:induction false} Utf8LenAscii(s: string)
    requires forall i :: 0 <= i < |s| ==> s[i] as int < 0x80
    ensures Utf8Len(s) == |s|
    decreases |s|
  {
    if s != [] {
      Utf8LenAscii(s[1..]);
    }
  }
}
