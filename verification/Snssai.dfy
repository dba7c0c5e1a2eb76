/** S-NSSAI texts: `_normalize_snssai` of src/control_runtime/execution/policy_batch_executor.py beside the
    form that the environment compiler gives to `current_slice_snssai`. */
module Snssai {
  import opened Strings
  import opened Documents

  function HexDigit(d: nat): char
    requires d < 16
  {
    if d < 10 then Digit(d) else ('a' as int + d - 10) as char
  }

  predicate IsHexChar(c: char) {
    '0' <= c <= '9' || 'a' <= c <= 'f'
  }

  predicate IsHex(s: string) {
    forall c | c in s :: IsHexChar(c)
  }

  /** Hexadecimal digits of `n`, at least `width` of them: Python's `f"{n:0{width}x}"`. */
  function Hex(n: nat, width: nat): string
    decreases n, width
  {
    if n < 16 && width <= 1 then [HexDigit(n)]
    else Hex(n / 16, if width == 0 then 0 else width - 1) + [HexDigit(n % 16)]
  }

  /** `f"{sst:02x}"`, where a sign takes one of the two places. */
  function SstText(sst: int): string {
    if sst < 0 then "-" + Hex(-sst, 1) else Hex(sst, 2)
  }

  function HexDigitValue(c: char): int {
    if c <= '9' then c as int - '0' as int else c as int - 'a' as int + 10
  }

  function HexValue(s: string): int {
    if s == "" then 0 else 16 * HexValue(s[..|s| - 1]) + HexDigitValue(s[|s| - 1])
  }

  lemma {:induction false} HexRoundTrip(n: nat, width: nat)
    ensures HexValue(Hex(n, width)) == n && IsHex(Hex(n, width)) && Hex(n, width) != ""
    decreases n, width
  {
    var s := Hex(n, width);
    if n < 16 && width <= 1 {
      assert s[..|s| - 1] == "";
    } else {
      HexRoundTrip(n / 16, if width == 0 then 0 else width - 1);
      assert s[..|s| - 1] == Hex(n / 16, if width == 0 then 0 else width - 1);
    }
  }

  /** The hexadecimal text determines the number, signs included. */
  lemma SstTextInjective(a: int, b: int)
    requires SstText(a) == SstText(b)
    ensures a == b
  {
    SignShows(a);
    SignShows(b);
  }

  lemma SignShows(a: int)
    ensures SstText(a) != "" && (a < 0 <==> SstText(a)[0] == '-')
    ensures if a < 0 then HexValue(SstText(a)[1..]) == -a else HexValue(SstText(a)) == a
  {
    if a < 0 {
      HexRoundTrip(-a, 1);
    } else {
      HexRoundTrip(a, 2);
      assert SstText(a)[0] in SstText(a);
    }
  }

  // ---- Normalization ----

  /** `int(value)`, booleans included; `None` where it raises. */
  function IntOf(py: Python, j: Json): Option<int> {
    if j.Bool? then Some(if j.b then 1 else 0) else py.ToInt(j)
  }

  function SdOf(py: Python, v: Json): string {
    Lower(py.Clean(v.Get(Sd)))
  }

  predicate ValidSnssai(py: Python, v: Json) {
    IntOf(py, v.Get(Sst)).Some? && |SdOf(py, v)| == 6 && IsHex(SdOf(py, v))
  }

  function NormalizeSnssai(py: Python, v: Json): string {
    if v.Obj? then (if ValidSnssai(py, v) then SstText(IntOf(py, v.Get(Sst)).value) + SdOf(py, v) else "")
    else Lower(py.Clean(v))
  }

  /** The mapping form is encoded injectively, for every integer sst. */
  lemma SnssaiInjective(py: Python, a: Json, b: Json)
    requires a.Obj? && b.Obj?
    requires NormalizeSnssai(py, a) == NormalizeSnssai(py, b) != ""
    ensures IntOf(py, a.Get(Sst)) == IntOf(py, b.Get(Sst)) && SdOf(py, a) == SdOf(py, b)
  {
    Suffix(SstText(IntOf(py, a.Get(Sst)).value), SdOf(py, a), SstText(IntOf(py, b.Get(Sst)).value), SdOf(py, b));
    SstTextInjective(IntOf(py, a.Get(Sst)).value, IntOf(py, b.Get(Sst)).value);
  }

  lemma Suffix(a: string, x: string, b: string, y: string)
    requires a + x == b + y && |x| == |y|
    ensures a == b && x == y
  {
    assert a == (a + x)[..|a|] && b == (b + y)[..|b|];
    assert x == (a + x)[|a|..] && y == (b + y)[|b|..];
  }

  // ---- Hexadecimal beside decimal ----

  lemma {:induction false} HexAtLeastDecimal(s: string)
    requires IsDigits(s)
    ensures 0 <= Value(s) <= HexValue(s)
  {
    if s != "" {
      assert forall i | 0 <= i < |s| :: s[i] in s;
      assert forall c | c in s[..|s| - 1] :: IsDigits([c]);
      assert s[|s| - 1] in s;
      HexAtLeastDecimal(s[..|s| - 1]);
    }
  }

  /** The two writings of an sst agree below ten, and nowhere else. */
  lemma HexIsDecimalExactly(sst: nat)
    ensures Hex(sst, 2) == Decimal(sst, 2) <==> sst < 10
  {
    var front := Decimal(sst / 10, 1);
    assert Decimal(sst, 2) == front + [Digit(sst % 10)];
    assert Hex(sst, 2) == Hex(sst / 16, 1) + [HexDigit(sst % 16)];
    if sst < 10 {
      assert front == [Digit(0)] && Hex(0, 1) == [HexDigit(0)];
    } else if sst < 16 {
      assert front == [Digit(1)] && Hex(0, 1) == [HexDigit(0)];
      assert Decimal(sst, 2)[0] != Hex(sst, 2)[0];
    } else {
      DecimalRoundTrip(sst, 2);
      DecimalRoundTrip(sst / 10, 1);
      HexRoundTrip(sst, 2);
      var s := Decimal(sst, 2);
      assert s[..|s| - 1] == front;
      HexAtLeastDecimal(front);
      assert HexDigitValue(Digit(sst % 10)) == sst % 10;
      assert HexValue(s) == 16 * HexValue(front) + sst % 10;
      assert HexValue(s) > sst;
    }
  }

  /** A slice requested as a mapping matches the text that the environment compiler writes for the same
      slice exactly when the sst is below ten; the case of the sd's digits is no matter. */
  lemma CompiledTextMatchesExactly(py: Python, sst: nat, sd: string)
    requires |sd| == 6 && IsHex(Lower(sd))
    ensures NormalizeSnssai(py, Obj(map[Sst := Num(Int(sst)), Sd := Text(sd)]))
              == NormalizeSnssai(py, Text(Decimal(sst, 2) + Lower(sd)))
            <==> sst < 10
  {
    var low := Lower(sd);
    AnyCaseTrimmed(sd);
    LowerHex(low);
    var dict := Obj(map[Sst := Num(Int(sst)), Sd := Text(sd)]);
    assert dict.Get(Sd) == Text(sd) && dict.Get(Sst) == Num(Int(sst));
    assert SdOf(py, dict) == low;
    assert NormalizeSnssai(py, dict) == Hex(sst, 2) + low;
    var text := Decimal(sst, 2) + low;
    DecimalRoundTrip(sst, 2);
    assert IsHex(text);
    LowerHex(text);
    HexTrimmed(text);
    assert NormalizeSnssai(py, Text(text)) == text;
    HexIsDecimalExactly(sst);
    if Hex(sst, 2) + low == text {
      Suffix(Hex(sst, 2), low, Decimal(sst, 2), low);
    }
  }

  lemma LowerHex(s: string)
    requires IsHex(s)
    ensures Lower(s) == s
  {
    assert forall i | 0 <= i < |s| :: s[i] in s && IsHexChar(s[i]);
  }

  /** Lower-casing does not touch blanks. */
  lemma AnyCaseTrimmed(s: string)
    requires s != "" && IsHex(Lower(s))
    ensures Strip(s) == s
  {
    assert Lower(s)[0] in Lower(s) && Lower(s)[|s| - 1] in Lower(s);
    StripFixes(s);
  }

  lemma HexTrimmed(s: string)
    requires IsHex(s) && s != ""
    ensures Strip(s) == s
  {
    assert s[0] in s && s[|s| - 1] in s;
    StripFixes(s);
  }
}
