/** Python's text operations that the program leans on: whitespace stripping, lower case, and the
    decimal formats of the derived identifiers. */
module Strings {

  /** `str.isspace` for one character, which is also what `\s` matches. */
  predicate IsSpace(c: char) {
    || '\t' <= c <= '\r'
    || '\U{1C}' <= c <= ' '
    || c in {'\U{85}', '\U{A0}', '\U{1680}', '\U{2028}', '\U{2029}', '\U{202F}', '\U{205F}', '\U{3000}'}
    || '\U{2000}' <= c <= '\U{200A}'
  }

  function LStrip(s: string): string {
    if s != [] && IsSpace(s[0]) then LStrip(s[1..]) else s
  }

  function RStrip(s: string): string {
    if s != [] && IsSpace(s[|s| - 1]) then RStrip(s[..|s| - 1]) else s
  }

  function Strip(s: string): string {
    LStrip(RStrip(s))
  }

  predicate Trimmed(s: string) {
    s == "" || (!IsSpace(s[0]) && !IsSpace(s[|s| - 1]))
  }

  function Lower(s: string): string {
    seq(|s|, i requires 0 <= i < |s| => if 'A' <= s[i] <= 'Z' then (s[i] as int + 32) as char else s[i])
  }

  function Digit(d: nat): char
    requires d < 10
  {
    ('0' as int + d) as char
  }

  /** Decimal digits of `n`, at least `width` of them: Python's `f"{n:0{width}d}"`. */
  function Decimal(n: nat, width: nat): string
    decreases n, width
  {
    if n < 10 && width <= 1 then [Digit(n)]
    else Decimal(n / 10, if width == 0 then 0 else width - 1) + [Digit(n % 10)]
  }

  function Value(s: string): int {
    if s == "" then 0 else 10 * Value(s[..|s| - 1]) + (s[|s| - 1] as int - '0' as int)
  }

  predicate IsDigits(s: string) {
    forall c | c in s :: '0' <= c <= '9'
  }

  lemma {:induction false} DecimalRoundTrip(n: nat, width: nat)
    ensures Value(Decimal(n, width)) == n && IsDigits(Decimal(n, width)) && Decimal(n, width) != ""
    decreases n, width
  {
    var s := Decimal(n, width);
    if n < 10 && width <= 1 {
      assert s[..|s| - 1] == "";
    } else {
      DecimalRoundTrip(n / 10, if width == 0 then 0 else width - 1);
      assert s[..|s| - 1] == Decimal(n / 10, if width == 0 then 0 else width - 1);
    }
  }

  lemma DecimalInjective(m: nat, n: nat, width: nat)
    requires Decimal(m, width) == Decimal(n, width)
    ensures m == n
  {
    DecimalRoundTrip(m, width);
    DecimalRoundTrip(n, width);
  }

  lemma {:induction false} RStripEnd(s: string)
    ensures |RStrip(s)| <= |s| && RStrip(s) == s[..|RStrip(s)|]
    ensures RStrip(s) == "" || !IsSpace(RStrip(s)[|RStrip(s)| - 1])
  {
    if s != [] && IsSpace(s[|s| - 1]) {
      RStripEnd(s[..|s| - 1]);
    }
  }

  lemma {:induction false} LStripStart(s: string)
    ensures |LStrip(s)| <= |s| && LStrip(s) == s[|s| - |LStrip(s)|..]
    ensures LStrip(s) == "" || !IsSpace(LStrip(s)[0])
  {
    if s != [] && IsSpace(s[0]) {
      LStripStart(s[1..]);
    }
  }

  lemma StripTrims(s: string)
    ensures Trimmed(Strip(s))
  {
    var r := RStrip(s);
    var l := LStrip(r);
    RStripEnd(s);
    LStripStart(r);
    if l != "" {
      assert l == r[|r| - |l|..];
      assert l[|l| - 1] == r[|r| - 1];
      assert !IsSpace(l[|l| - 1]) && !IsSpace(l[0]);
    }
  }

  /** Stripping changes exactly the texts that are not trimmed. */
  lemma StripFixes(s: string)
    ensures Strip(s) == s <==> Trimmed(s)
  {
    StripTrims(s);
    if Trimmed(s) {
      assert RStrip(s) == s;
      assert LStrip(s) == s;
    }
  }

  lemma {:induction false} RStripAppend(a: string, b: string)
    requires a != "" && !IsSpace(a[|a| - 1])
    ensures RStrip(a + b) == a + RStrip(b)
  {
    if b == "" {
      assert a + b == a;
    } else {
      assert (a + b)[|a + b| - 1] == b[|b| - 1];
      assert (a + b)[..|a + b| - 1] == a + b[..|b| - 1];
      RStripAppend(a, b[..|b| - 1]);
    }
  }

  /** A text that starts and continues without blanks keeps its head when stripped. */
  lemma StripAppend(a: string, b: string)
    requires a != "" && !IsSpace(a[0]) && !IsSpace(a[|a| - 1])
    ensures Strip(a + b) == a + RStrip(b)
  {
    RStripAppend(a, b);
  }

  /** The first separator splits a text in one way only. */
  lemma SplitAt(sep: char, a: string, x: string, b: string, y: string)
    requires sep !in a && sep !in b
    requires a + [sep] + x == b + [sep] + y
    ensures a == b && x == y
  {
    var whole := a + [sep] + x;
    assert whole == b + [sep] + y;
    assert forall i | 0 <= i < |a| :: whole[i] == a[i];
    assert forall i | 0 <= i < |b| :: whole[i] == b[i];
    assert whole[|a|] == sep && whole[|b|] == sep;
    assert |a| == |b|;
    assert a == whole[..|a|] && b == whole[..|b|];
    assert x == whole[|a| + 1..] && y == whole[|b| + 1..];
  }
}
