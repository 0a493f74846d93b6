/** The few JavaScript string built-ins the participant-import core relies on:
    `String.prototype.trim`, the regular-expression class `\s`,
    `toUpperCase`, the UTF-16 `length`, number-to-string conversion in
    template literals and `Array.prototype.join`. Strings are sequences of
    Unicode scalar values. */
module JsString {

  /** The characters matched by `\s` and stripped by `trim`: ECMAScript
      WhiteSpace together with LineTerminator. */
  predicate IsWhitespace(c: char) {
    || c == '\t' || c == '\n' || c == '\U{000B}' || c == '\U{000C}' || c == '\r'
    || c == ' ' || c == '\U{00A0}' || c == '\U{1680}'
    || ('\U{2000}' <= c <= '\U{200A}')
    || c == '\U{2028}' || c == '\U{2029}' || c == '\U{202F}' || c == '\U{205F}'
    || c == '\U{3000}' || c == '\U{FEFF}'
  }

  predicate AllWhitespace(s: string) {
    forall i :: 0 <= i < |s| ==> IsWhitespace(s[i])
  }

  /** Drops leading whitespace. */
  function TrimStart(s: string): string {
    if |s| > 0 && IsWhitespace(s[0]) then TrimStart(s[1..]) else s
  }

  /** Drops trailing whitespace. */
  function TrimEnd(s: string): string {
    if |s| > 0 && IsWhitespace(s[|s| - 1]) then TrimEnd(s[..|s| - 1]) else s
  }

  /** `s.trim()`. */
  function Trim(s: string): string {
    TrimEnd(TrimStart(s))
  }

  /** What `TrimStart` leaves is a suffix that does not start with
      whitespace, and all it drops is whitespace. */
  lemma {:induction false} TrimStartSpec(s: string)
    ensures var r := TrimStart(s);
      && |r| <= |s| && r == s[|s| - |r|..]
      && (r == [] || !IsWhitespace(r[0]))
      && AllWhitespace(s[..|s| - |r|])
  {
    if |s| > 0 && IsWhitespace(s[0]) {
      TrimStartSpec(s[1..]);
      var r := TrimStart(s[1..]);
      assert s[1..][..|s| - 1 - |r|] == s[1..|s| - |r|];
    }
  }

  /** What `TrimEnd` leaves is a prefix that does not end with whitespace,
      and all it drops is whitespace. */
  lemma {:induction false} TrimEndSpec(s: string)
    ensures var r := TrimEnd(s);
      && |r| <= |s| && r == s[..|r|]
      && (r == [] || !IsWhitespace(r[|r| - 1]))
      && AllWhitespace(s[|r|..])
  {
    if |s| > 0 && IsWhitespace(s[|s| - 1]) {
      TrimEndSpec(s[..|s| - 1]);
      var r := TrimEnd(s[..|s| - 1]);
      assert s[..|s| - 1][|r|..] == s[|r|..|s| - 1];
      assert s[|r|..] == s[|r|..|s| - 1] + [s[|s| - 1]];
    }
  }

  /** What `trim` leaves neither starts nor ends with whitespace. */
  lemma TrimSpec(s: string)
    ensures |Trim(s)| <= |s|
    ensures Trim(s) == [] || (!IsWhitespace(Trim(s)[0]) && !IsWhitespace(Trim(s)[|Trim(s)| - 1]))
  {
    var t := TrimStart(s);
    TrimStartSpec(s);
    TrimEndSpec(t);
    var r := TrimEnd(t);
    if r != [] {
      assert r[0] == t[0];
    }
  }

  /** The trim of `s` is the slice of `s` left once the whitespace at both
      ends is gone. */
  lemma TrimIsSlice(s: string)
    ensures exists a :: 0 <= a <= |s| - |Trim(s)| && Trim(s) == s[a..a + |Trim(s)|]
                        && AllWhitespace(s[..a]) && AllWhitespace(s[a + |Trim(s)|..])
  {
    var t := TrimStart(s);
    var r := TrimEnd(t);
    var a := |s| - |t|;
    TrimStartSpec(s);
    TrimEndSpec(t);
    assert Trim(s) == r;
    assert r == s[a..a + |r|] by {
      assert t == s[a..];
      assert r == t[..|r|];
    }
    assert AllWhitespace(s[a + |r|..]) by {
      assert s[a + |r|..] == t[|r|..];
    }
    assert AllWhitespace(s[..a]);
  }

  lemma TrimIdempotent(s: string)
    ensures Trim(Trim(s)) == Trim(s)
  {
    var r := Trim(s);
    TrimSpec(s);
    if |r| > 0 {
      assert TrimStart(r) == r;
      assert TrimEnd(r) == r;
    }
  }

  /** A string with nothing to strip at either end is its own trim. */
  lemma UnpaddedTrim(s: string)
    requires s == [] || (!IsWhitespace(s[0]) && !IsWhitespace(s[|s| - 1]))
    ensures Trim(s) == s
  {
    if s == [] {
      assert TrimStart(s) == [];
      assert TrimEnd([]) == [];
    } else {
      assert TrimStart(s) == s;
      assert TrimEnd(s) == s;
    }
  }

  /** A string trims to nothing exactly when every character is whitespace. */
  lemma TrimEmptyIff(s: string)
    ensures Trim(s) == [] <==> AllWhitespace(s)
  {
    TrimIsSlice(s);
    var a :| 0 <= a <= |s| - |Trim(s)| && Trim(s) == s[a..a + |Trim(s)|]
             && AllWhitespace(s[..a]) && AllWhitespace(s[a + |Trim(s)|..]);
    if Trim(s) == [] {
      forall i | 0 <= i < |s| ensures IsWhitespace(s[i]) {
        if i < a { assert s[..a][i] == s[i]; } else { assert s[a..][i - a] == s[i]; }
      }
    } else {
      TrimSpec(s);
      assert Trim(s)[0] == s[a];
    }
  }

  /** The letters `toUpperCase` changes here: ASCII `a`-`z` and the Latin-1
      lower-case letters U+00E0-U+00FE except the division sign U+00F7. */
  predicate IsLowerLetter(c: char) {
    'a' <= c <= 'z' || ('\U{00E0}' <= c <= '\U{00FE}' && c != '\U{00F7}')
  }

  /** `toUpperCase` on one character: the letters `IsLowerLetter` names move
      down by 0x20 to their capitals; every other character is left as it is. */
  function UpperChar(c: char): (u: char)
    ensures IsWhitespace(u) <==> IsWhitespace(c)
  {
    if IsLowerLetter(c) then (c as int - 0x20) as char else c
  }

  /** `s.toUpperCase()`, character by character. */
  function ToUpper(s: string): string {
    if s == [] then [] else [UpperChar(s[0])] + ToUpper(s[1..])
  }

  /** `ToUpper` maps every character through `UpperChar`, in place. */
  lemma {:induction false} ToUpperSpec(s: string)
    ensures |ToUpper(s)| == |s|
    ensures forall i :: 0 <= i < |s| ==> ToUpper(s)[i] == UpperChar(s[i])
  {
    if s != [] {
      ToUpperSpec(s[1..]);
    }
  }

  /** Upper-casing leaves no letter that `UpperChar` maps (a-z, and
      U+00E0-U+00FE except U+00F7), and doing it twice is the same as doing
      it once. */
  lemma {:induction false} ToUpperIdempotent(s: string)
    ensures |ToUpper(s)| == |s|
    ensures forall i :: 0 <= i < |s| ==> !IsLowerLetter(ToUpper(s)[i])
    ensures ToUpper(ToUpper(s)) == ToUpper(s)
  {
    var u := ToUpper(s);
    ToUpperSpec(s);
    ToUpperSpec(u);
    forall i | 0 <= i < |s| ensures !IsLowerLetter(u[i]) && UpperChar(u[i]) == u[i] {
      assert u[i] == UpperChar(s[i]);
    }
  }

  /** Upper-casing a trimmed string leaves it trimmed: `UpperChar` maps
      whitespace to whitespace and nothing else to whitespace. */
  lemma UpperOfTrimmed(s: string)
    ensures Trim(ToUpper(Trim(s))) == ToUpper(Trim(s))
  {
    var t := Trim(s);
    TrimSpec(s);
    ToUpperSpec(t);
    UnpaddedTrim(ToUpper(t));
  }

  /** A string without lower-case letters is its own upper case. */
  lemma {:induction false} NoLowerIsUpper(s: string)
    requires forall i :: 0 <= i < |s| ==> !IsLowerLetter(s[i])
    ensures ToUpper(s) == s
  {
    ToUpperSpec(s);
  }

  /** The string `length` of JavaScript: UTF-16 code units, so a character
      outside the Basic Multilingual Plane counts twice. */
  function Utf16Length(s: string): nat {
    if s == [] then 0 else (if s[0] as int < 0x10000 then 1 else 2) + Utf16Length(s[1..])
  }

  predicate IsBmp(s: string) {
    forall i :: 0 <= i < |s| ==> s[i] as int < 0x10000
  }

  lemma {:induction false} Utf16LengthBounds(s: string)
    ensures |s| <= Utf16Length(s) <= 2 * |s|
    ensures Utf16Length(s) == |s| <==> IsBmp(s)
  {
    if s != [] {
      Utf16LengthBounds(s[1..]);
      if IsBmp(s[1..]) && s[0] as int < 0x10000 {
        forall i | 0 <= i < |s| ensures s[i] as int < 0x10000 {
          if i > 0 { assert s[i] == s[1..][i - 1]; }
        }
      }
      if IsBmp(s) {
        forall i | 0 <= i < |s| - 1 ensures s[1..][i] as int < 0x10000 {
          assert s[1..][i] == s[i + 1];
        }
      }
    }
  }

  predicate IsDigit(c: char) { '0' <= c <= '9' }

  predicate AllDigits(s: string) {
    forall i :: 0 <= i < |s| ==> IsDigit(s[i])
  }

  function DigitChar(d: nat): (c: char)
    requires d < 10
    ensures IsDigit(c) && c as int - '0' as int == d
  {
    (d + '0' as int) as char
  }

  /** The decimal text of a natural number, as `${n}` writes it: digits
      only, never empty, and no leading zero except for `0` itself. */
  function NatToString(n: nat): (r: string)
    ensures |r| >= 1 && AllDigits(r)
    ensures r[0] == '0' ==> n == 0
    decreases n
  {
    if n < 10 then [DigitChar(n)] else NatToString(n / 10) + [DigitChar(n % 10)]
  }

  /** The value that a digit string denotes. */
  function DecimalValue(s: string): nat
    requires AllDigits(s)
  {
    if s == [] then 0
    else DecimalValue(s[..|s| - 1]) * 10 + (s[|s| - 1] as int - '0' as int)
  }

  lemma {:induction false} NatToStringRoundTrip(n: nat)
    ensures DecimalValue(NatToString(n)) == n
    decreases n
  {
    if n >= 10 {
      NatToStringRoundTrip(n / 10);
      var r := NatToString(n);
      assert r[..|r| - 1] == NatToString(n / 10);
    }
  }

  /** Different numbers are written differently. */
  lemma NatToStringInjective(m: nat, n: nat)
    requires NatToString(m) == NatToString(n)
    ensures m == n
  {
    NatToStringRoundTrip(m);
    NatToStringRoundTrip(n);
  }

  /** The longest run of digits at the start of `s`. */
  function LeadingDigits(s: string): (r: string)
    ensures AllDigits(r)
  {
    if s != [] && IsDigit(s[0]) then [s[0]] + LeadingDigits(s[1..]) else []
  }

  /** Digits followed by a non-digit are read back by `LeadingDigits`. */
  lemma {:induction false} LeadingDigitsOf(d: string, rest: string)
    requires AllDigits(d)
    requires rest != [] && !IsDigit(rest[0])
    ensures LeadingDigits(d + rest) == d
  {
    if d != [] {
      assert (d + rest)[1..] == d[1..] + rest;
      LeadingDigitsOf(d[1..], rest);
    }
  }

  /** `xs.join(sep)`. */
  function Join(xs: seq<string>, sep: string): string
  {
    if |xs| == 0 then ""
    else if |xs| == 1 then xs[0]
    else xs[0] + sep + Join(xs[1..], sep)
  }

  /** Joining one more string adds one separator and that string. */
  lemma {:induction false} JoinSnoc(xs: seq<string>, x: string, sep: string)
    requires |xs| >= 1
    ensures Join(xs + [x], sep) == Join(xs, sep) + sep + x
  {
    if |xs| == 1 {
      assert (xs + [x])[1..] == [x];
    } else {
      assert (xs + [x])[1..] == xs[1..] + [x];
      JoinSnoc(xs[1..], x, sep);
    }
  }

  predicate SingleLine(s: string) { '\n' !in s }

  /** Cuts a string at every line feed. Used to say which lines a
      multi-line message is made of. */
  function SplitLines(s: string): (r: seq<string>)
    ensures |r| >= 1
  {
    if |s| == 0 then [""]
    else
      var rest := SplitLines(s[1..]);
      if s[0] == '\n' then [""] + rest else [[s[0]] + rest[0]] + rest[1..]
  }

  lemma {:induction false} SplitLinesSingle(s: string)
    requires SingleLine(s)
    ensures SplitLines(s) == [s]
  {
    if |s| > 0 {
      assert s[0] in s;
      assert forall c :: c in s[1..] ==> c in s;
      SplitLinesSingle(s[1..]);
      assert [s[0]] + s[1..] == s;
    }
  }

  /** A single line followed by a line feed is cut off as the first line. */
  lemma {:induction false} SplitLinesHeaded(a: string, b: string)
    requires SingleLine(a)
    ensures SplitLines(a + "\n" + b) == [a] + SplitLines(b)
  {
    var s := a + "\n" + b;
    if |a| == 0 {
      assert s[0] == '\n' && s[1..] == b;
    } else {
      assert a[0] != '\n' by { assert a[0] in a; }
      assert SingleLine(a[1..]) by { assert forall c :: c in a[1..] ==> c in a; }
      SplitLinesHeaded(a[1..], b);
      assert s[0] == a[0] && s[1..] == a[1..] + "\n" + b;
      var rest := SplitLines(s[1..]);
      assert rest[0] == a[1..] && rest[1..] == SplitLines(b);
      assert [a[0]] + a[1..] == a;
    }
  }

  /** A single-line heading, a line feed and joined single lines cut back
      into the heading and those lines. */
  lemma HeadedLines(h: string, xs: seq<string>)
    requires SingleLine(h) && |xs| >= 1
    requires forall i :: 0 <= i < |xs| ==> SingleLine(xs[i])
    ensures SplitLines(h + "\n" + Join(xs, "\n")) == [h] + xs
  {
    SplitLinesHeaded(h, Join(xs, "\n"));
    SplitLinesJoin(xs);
  }

  /** Joining single-line strings with line feeds and cutting the result at
      line feeds gives the strings back. */
  lemma {:induction false} SplitLinesJoin(xs: seq<string>)
    requires |xs| >= 1
    requires forall i :: 0 <= i < |xs| ==> SingleLine(xs[i])
    ensures SplitLines(Join(xs, "\n")) == xs
  {
    if |xs| == 1 {
      SplitLinesSingle(xs[0]);
    } else {
      SplitLinesJoin(xs[1..]);
      SplitLinesHeaded(xs[0], Join(xs[1..], "\n"));
    }
  }
}
