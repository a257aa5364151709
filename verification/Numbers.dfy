/** Decimal text: how integers are written, which spellings `str::parse` accepts, and the decimal grammar of TLCP. */
module Numbers {
  import opened Sequences

  const U32_MAX: nat := 0xFFFF_FFFF
  const U64_MAX: nat := 0xFFFF_FFFF_FFFF_FFFF
  const I64_MAX: int := 0x7FFF_FFFF_FFFF_FFFF

  type U32 = n: int | 0 <= n <= U32_MAX
  type U64 = n: int | 0 <= n <= U64_MAX
  type I64 = n: int | -I64_MAX - 1 <= n <= I64_MAX

  const PLUS: Byte := 43
  const MINUS: Byte := 45
  const DOT: Byte := 46

  predicate Digit(b: Byte) {
    48 <= b <= 57
  }

  predicate AllDigits(b: seq<Byte>) {
    forall i :: 0 <= i < |b| ==> Digit(b[i])
  }

  /** The number a run of digits spells, in any length. */
  function Value(b: seq<Byte>): nat
    requires AllDigits(b)
  {
    if b == [] then 0 else Value(b[..|b| - 1]) * 10 + (b[|b| - 1] - 48)
  }

  function PrintNat(n: nat): (b: seq<Byte>)
    ensures b != [] && AllDigits(b)
  {
    if n < 10 then [48 + n] else PrintNat(n / 10) + [48 + n % 10]
  }

  function PrintInt(n: int): seq<Byte> {
    if n < 0 then [MINUS] + PrintNat(-n) else PrintNat(n)
  }

  /** Rust's `parse` for unsigned integers: an optional `+`, then digits, within the type's range. */
  function ParseUnsigned(b: seq<Byte>, max: nat): (n: Option<nat>)
    ensures n.Some? ==> n.value <= max
  {
    var digits := if b != [] && b[0] == PLUS then b[1..] else b;
    if digits != [] && AllDigits(digits) && Value(digits) <= max then Some(Value(digits)) else None
  }

  /** Rust's `parse` for `i64`: an optional sign, then digits, within range. */
  function ParseI64(b: seq<Byte>): (n: Option<I64>) {
    if b != [] && b[0] == MINUS then
      var digits := b[1..];
      if digits != [] && AllDigits(digits) && Value(digits) <= I64_MAX + 1 then
        var magnitude: int := Value(digits);
        Some(-magnitude)
      else None
    else ParseUnsigned(b, I64_MAX)
  }

  lemma {:induction false} ValueOfPrint(n: nat)
    ensures Value(PrintNat(n)) == n
  {
    if n >= 10 {
      ValueOfPrint(n / 10);
      assert PrintNat(n)[..|PrintNat(n)| - 1] == PrintNat(n / 10);
    } else {
      assert PrintNat(n)[..0] == [];
    }
  }

  /** A number survives printing and parsing exactly when the type holds it, and is refused otherwise. */
  lemma UnsignedRoundTrip(n: nat, max: nat)
    ensures ParseUnsigned(PrintNat(n), max) == if n <= max then Some(n) else None
  {
    hide PrintNat, Value;
    ValueOfPrint(n);
  }

  lemma SignedRoundTrip(n: int)
    ensures ParseI64(PrintInt(n)) == if -I64_MAX - 1 <= n <= I64_MAX then Some(n) else None
  {
    hide PrintNat, Value;
    if n < 0 {
      ValueOfPrint(-n);
      assert PrintInt(n)[1..] == PrintNat(-n);
    } else {
      ValueOfPrint(n);
      assert PrintNat(n)[0] != MINUS;
    }
  }

  // ---- which spellings are read ------------------------------------------------------------------------------------

  function Zeros(k: nat): seq<Byte> {
    if k == 0 then [] else Ascii("0") + Zeros(k - 1)
  }

  /** A sign, any number of zeros, and the number as it is printed. */
  ghost predicate Spells(b: seq<Byte>, sign: seq<Byte>, n: nat) {
    exists zeros :: b == sign + (Zeros(zeros) + PrintNat(n))
  }

  lemma {:induction false} ValueSnoc(b: seq<Byte>, d: Byte)
    requires AllDigits(b) && Digit(d)
    ensures Value(b + [d]) == Value(b) * 10 + (d - 48)
  {
    assert (b + [d])[..|b|] == b;
  }

  lemma {:induction false} ZerosAre(k: nat, d: seq<Byte>)
    requires AllDigits(d)
    ensures AllDigits(Zeros(k) + d) && Value(Zeros(k) + d) == Value(d)
    decreases k, |d|
  {
    if d != [] {
      var init, last := d[..|d| - 1], d[|d| - 1];
      ZerosAre(k, init);
      assert d == init + [last];
      assert Zeros(k) + d == Zeros(k) + init + [last];
      ValueSnoc(init, last);
      ValueSnoc(Zeros(k) + init, last);
    } else if k > 0 {
      ZerosAre(k - 1, []);
      ZerosSnoc(k - 1);
      assert Zeros(k) + [] == Zeros(k - 1) + [] + Ascii("0");
      ValueSnoc(Zeros(k - 1) + [], 48);
    }
  }

  lemma {:induction false} ZerosSnoc(k: nat)
    ensures Zeros(k + 1) == Zeros(k) + Ascii("0")
  {
    if k > 0 {
      ZerosSnoc(k - 1);
    }
  }

  /** Any run of digits is zeros and the number as it is printed. */
  lemma {:induction false} DigitsSpell(b: seq<Byte>) returns (zeros: nat)
    requires b != [] && AllDigits(b)
    ensures b == Zeros(zeros) + PrintNat(Value(b))
  {
    hide Value, PrintNat, Zeros;
    var init, d := b[..|b| - 1], b[|b| - 1];
    assert b == init + [d];
    if init == [] {
      zeros := 0;
      OneDigit(d);
      assert b == [d];
    } else {
      zeros := DigitsSpell(init);
      zeros := OneMoreDigit(init, d, zeros);
    }
  }

  lemma OneDigit(d: Byte)
    requires Digit(d)
    ensures [d] == Zeros(0) + PrintNat(Value([d]))
  {
    assert [d][..0] == [];
  }

  lemma OneMoreDigit(init: seq<Byte>, d: Byte, before: nat) returns (zeros: nat)
    requires AllDigits(init) && Digit(d) && init == Zeros(before) + PrintNat(Value(init))
    ensures init + [d] == Zeros(zeros) + PrintNat(Value(init + [d]))
  {
    hide Value, PrintNat, Zeros;
    ValueSnoc(init, d);
    PrintedSnoc(Value(init), d - 48);
    ZerosSnoc(before);
    Regrouped(Zeros(before), PrintNat(Value(init)), [d]);
    zeros := if Value(init) == 0 then before + 1 else before;
  }

  lemma Regrouped(a: seq<Byte>, b: seq<Byte>, c: seq<Byte>)
    ensures a + b + c == a + (b + c)
  {
  }

  lemma {:induction false} PrintedSnoc(n: nat, d: nat)
    requires d < 10
    ensures PrintNat(n * 10 + d) == if n == 0 then [48 + d] else PrintNat(n) + [48 + d]
    ensures PrintNat(0) == Ascii("0")
  {
  }

  lemma SpelledDigits(b: seq<Byte>, sign: seq<Byte>, n: nat)
    ensures Spells(b, sign, n) <==>
            sign <= b && b != sign && AllDigits(b[|sign|..]) && Value(b[|sign|..]) == n
  {
    hide PrintNat, Value, Zeros;
    if Spells(b, sign, n) {
      var zeros :| b == sign + (Zeros(zeros) + PrintNat(n));
      assert b[|sign|..] == Zeros(zeros) + PrintNat(n);
      ZerosAre(zeros, PrintNat(n));
      ValueOfPrint(n);
    }
    if sign <= b && b != sign && AllDigits(b[|sign|..]) && Value(b[|sign|..]) == n {
      var zeros := DigitsSpell(b[|sign|..]);
      assert b == sign + (Zeros(zeros) + PrintNat(n));
    }
  }

  /** An unsigned number is read from exactly its spellings, with any leading zeros and perhaps a plus. */
  lemma UnsignedExactly(b: seq<Byte>, max: nat, n: nat)
    ensures ParseUnsigned(b, max) == Some(n) <==> n <= max && (Spells(b, [], n) || Spells(b, Ascii("+"), n))
  {
    hide Spells, Value, PrintNat;
    SpelledDigits(b, [], n);
    SpelledDigits(b, Ascii("+"), n);
    assert b[0..] == b;
  }

  /** And a signed one also with a minus. */
  lemma SignedExactly(b: seq<Byte>, n: int)
    ensures ParseI64(b) == Some(n) <==>
            && -0x8000_0000_0000_0000 <= n < 0x8000_0000_0000_0000
            && ((n >= 0 && (Spells(b, [], n) || Spells(b, Ascii("+"), n))) || (n <= 0 && Spells(b, Ascii("-"), -n)))
  {
    hide Spells, Value, PrintNat;
    if n >= 0 {
      UnsignedExactly(b, I64_MAX, n);
      SpelledDigits(b, [], n);
      SpelledDigits(b, Ascii("+"), n);
    }
    if n <= 0 {
      SpelledDigits(b, Ascii("-"), -n);
    }
    assert b[0..] == b;
  }

  /** `DecimalNumber::try_new`: digits, then possibly a dot and more digits. */
  predicate IsDecimal(text: seq<Byte>) {
    var parts := SplitOn(text, DOT);
    && |parts| <= 2
    && (forall i :: 0 <= i < |parts| ==> parts[i] != [] && AllDigits(parts[i]))
  }

  /** One or more decimal digits. */
  predicate Numeral(text: seq<Byte>) {
    text != [] && forall i :: 0 <= i < |text| ==> '0' <= text[i] as char <= '9'
  }

  predicate DotAt(text: seq<Byte>, k: nat) {
    k < |text| && text[k] == '.' as Byte && Numeral(text[..k]) && Numeral(text[k + 1..])
  }

  /** Decimal text is a numeral, or two with a dot between them. */
  lemma DecimalExactly(text: seq<Byte>)
    ensures IsDecimal(text) <==> Numeral(text) || exists k :: DotAt(text, k)
  {
    hide IsDecimal, SplitOn, Numeral, DotAt;
    if DOT in text {
      var k := IndexOf(text, DOT);
      DottedDecimal(text);
      NumeralIs(text);
      forall j | DotAt(text, j) ensures j == k {
        DotIsFirst(text, j);
      }
    } else {
      DotlessDecimal(text);
    }
  }

  lemma NumeralIs(text: seq<Byte>)
    ensures Numeral(text) <==> text != [] && AllDigits(text)
    ensures Numeral(text) ==> DOT !in text
  {
  }

  lemma DotIsFirst(text: seq<Byte>, j: nat)
    requires DotAt(text, j)
    ensures j == IndexOf(text, DOT)
  {
    hide Numeral;
    NumeralIs(text[..j]);
    assert forall i :: 0 <= i < j ==> text[i] == text[..j][i];
  }

  lemma DotlessDecimal(text: seq<Byte>)
    requires DOT !in text
    ensures IsDecimal(text) <==> Numeral(text)
    ensures forall k :: !DotAt(text, k)
  {
    hide Numeral, SplitOn;
    SplitOnStep(text, DOT);
    NumeralIs(text);
    assert [text][0] == text;
  }

  lemma DottedDecimal(text: seq<Byte>)
    requires DOT in text
    ensures IsDecimal(text) <==> DotAt(text, IndexOf(text, DOT))
  {
    hide Numeral, SplitOn, AllDigits;
    SplitOnStep(text, DOT);
    var k := IndexOf(text, DOT);
    var whole, fraction := text[..k], text[k + 1..];
    NumeralIs(whole);
    NumeralIs(fraction);
    SplitOnStep(fraction, DOT);
    var parts := SplitOn(text, DOT);
    if DOT in fraction {
      assert |parts| >= 3;
    } else {
      assert parts == [whole, fraction] && parts[0] == whole && parts[1] == fraction;
    }
  }

  /** Decimal text is digits with at most one dot, and starts with a digit. */
  lemma DecimalIsPlain(text: seq<Byte>)
    requires IsDecimal(text)
    ensures text != [] && Digit(text[0])
    ensures forall i :: 0 <= i < |text| ==> Digit(text[i]) || text[i] == DOT
  {
    SplitOnStep(text, DOT);
    if DOT in text {
      var k := IndexOf(text, DOT);
      SplitOnStep(text[k + 1..], DOT);
      var parts := SplitOn(text, DOT);
      assert parts == [text[..k], text[k + 1..]];
      assert forall i :: k < i < |text| ==> text[i] == parts[1][i - k - 1];
      assert forall i :: 0 <= i < k ==> text[i] == parts[0][i];
    } else {
      assert SplitOn(text, DOT)[0] == text;
    }
  }
}
