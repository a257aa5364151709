/**
 * UTF-8 (RFC 3629, section 4): which octet runs Rust accepts as a `str`, how far a run stays valid, and the code
 * points a valid run spells.
 */
module Utf8 {
  import opened Sequences

  /** A Unicode scalar value, Rust's `char`. */
  type Scalar = c: int | 0 <= c < 0x110000 && !(0xD800 <= c < 0xE000)

  predicate Continuation(b: Byte) {
    0x80 <= b < 0xC0
  }

  /**
   * Whether `b1` may follow the lead octet `b0`: the second-octet ranges of RFC 3629 exclude overlong and surrogate
   * forms.
   */
  predicate SecondOctet(b0: Byte, b1: Byte) {
    if b0 == 0xE0 then 0xA0 <= b1 < 0xC0
    else if b0 == 0xED then 0x80 <= b1 < 0xA0
    else if b0 == 0xF0 then 0x90 <= b1 < 0xC0
    else if b0 == 0xF4 then 0x80 <= b1 < 0x90
    else Continuation(b1)
  }

  /** The number of octets a lead octet announces; 0 when it cannot lead. */
  function Announced(b0: Byte): nat {
    if b0 < 0x80 then 1
    else if 0xC2 <= b0 < 0xE0 then 2
    else if 0xE0 <= b0 < 0xF0 then 3
    else if 0xF0 <= b0 < 0xF5 then 4
    else 0
  }

  /** The length of the well-formed character at the front of `b`; 0 when there is none. */
  function CharLength(b: seq<Byte>): (n: nat)
    ensures n <= |b| && n <= 4
  {
    if b == [] then 0 else
    var n := Announced(b[0]);
    if n == 0 || |b| < n then 0
    else if n >= 2 && !SecondOctet(b[0], b[1]) then 0
    else if n >= 3 && !Continuation(b[2]) then 0
    else if n == 4 && !Continuation(b[3]) then 0
    else n
  }

  /** How many leading octets form whole characters: Rust's `Utf8Error::valid_up_to`. */
  function ValidUpTo(b: seq<Byte>): (n: nat)
    ensures n <= |b|
    decreases |b|
  {
    var n := CharLength(b);
    if n == 0 then 0 else n + ValidUpTo(b[n..])
  }

  predicate Valid(b: seq<Byte>) {
    ValidUpTo(b) == |b|
  }

  // ---- the reference meaning: encoding scalar values ----------------------------------------------------------

  function Encode(c: Scalar): (b: seq<Byte>)
    ensures 1 <= |b| <= 4
  {
    if c < 0x80 then [c]
    else if c < 0x800 then [0xC0 + c / 64, 0x80 + c % 64]
    else if c < 0x10000 then [0xE0 + c / 4096, 0x80 + c / 64 % 64, 0x80 + c % 64]
    else [0xF0 + c / 262144, 0x80 + c / 4096 % 64, 0x80 + c / 64 % 64, 0x80 + c % 64]
  }

  function EncodeAll(text: seq<Scalar>): seq<Byte> {
    if text == [] then [] else Encode(text[0]) + EncodeAll(text[1..])
  }

  /** The scalar value the first character of `b` spells. */
  function FirstScalar(b: seq<Byte>): (c: Scalar)
    requires CharLength(b) > 0
  {
    Weigh(b[..CharLength(b)])
  }

  /** The payload bits of an encoded character, lead octet first. */
  function Weigh(b: seq<Byte>): (c: Scalar)
    requires b != [] && CharLength(b) == |b|
  {
    var b0: int := b[0];
    if |b| == 1 then b0 else
    var b1: int := b[1];
    if |b| == 2 then (b0 - 0xC0) * 64 + (b1 - 0x80) else
    var b2: int := b[2];
    if |b| == 3 then (b0 - 0xE0) * 4096 + (b1 - 0x80) * 64 + (b2 - 0x80) else
    var b3: int := b[3];
    (b0 - 0xF0) * 262144 + (b1 - 0x80) * 4096 + (b2 - 0x80) * 64 + (b3 - 0x80)
  }

  /** Rust's `str::chars`. */
  function Chars(b: seq<Byte>): seq<Scalar>
    requires Valid(b)
    decreases |b|
  {
    if b == [] then [] else
    var n := CharLength(b);
    [FirstScalar(b)] + Chars(b[n..])
  }

  /** The encoding of a scalar value is one whole character, and weighs that value. */
  lemma EncodeIsOneChar(c: Scalar)
    ensures CharLength(Encode(c)) == |Encode(c)|
    ensures Weigh(Encode(c)) == c
  {
    assert c == c / 64 * 64 + c % 64;
    assert c / 64 == c / 4096 * 64 + c / 64 % 64;
    assert c / 4096 == c / 262144 * 64 + c / 4096 % 64;
  }

  /** Cutting a run right after its first character leaves that character whole. */
  lemma {:induction false} CharLengthCut(b: seq<Byte>)
    ensures CharLength(b[..CharLength(b)]) == CharLength(b)
  {
  }

  /** One character decodes to the scalar value it was encoded from, whatever follows it. */
  lemma EncodeThenFirst(c: Scalar, rest: seq<Byte>)
    ensures CharLength(Encode(c) + rest) == |Encode(c)|
    ensures FirstScalar(Encode(c) + rest) == c
  {
    EncodeIsOneChar(c);
    CharLengthLocal(Encode(c), rest);
    assert (Encode(c) + rest)[..|Encode(c)|] == Encode(c);
  }

  /** The base-64 digits behind a lead digit can be read back by division. */
  lemma Digits(lead: int, d1: int, d2: int, d3: int)
    requires 0 <= lead && 0 <= d1 < 64 && 0 <= d2 < 64 && 0 <= d3 < 64
    ensures (lead * 64 + d1) / 64 == lead && (lead * 64 + d1) % 64 == d1
    ensures
      var c := lead * 4096 + d1 * 64 + d2;
      c / 64 == lead * 64 + d1 && c % 64 == d2 && c / 4096 == lead
    ensures
      var c := lead * 262144 + d1 * 4096 + d2 * 64 + d3;
      c / 64 == lead * 4096 + d1 * 64 + d2 && c % 64 == d3 && c / 4096 == lead * 64 + d1 && c / 262144 == lead
  {
  }

  lemma EncodeOfWeigh2(d0: int, d1: int)
    requires 2 <= d0 < 32 && 0 <= d1 < 64
    ensures Encode(d0 * 64 + d1) == [0xC0 + d0, 0x80 + d1]
  {
    Digits(d0, d1, 0, 0);
  }

  lemma EncodeOfWeigh3(d0: int, d1: int, d2: int)
    requires 0 <= d0 < 16 && 0 <= d1 < 64 && 0 <= d2 < 64
    requires 0x800 <= d0 * 4096 + d1 * 64 + d2 && !(d0 == 13 && d1 >= 32)
    ensures Encode(d0 * 4096 + d1 * 64 + d2) == [0xE0 + d0, 0x80 + d1, 0x80 + d2]
  {
    Digits(d0, d1, d2, 0);
    Digits(d0, d1, 0, 0);
  }

  lemma EncodeOfWeigh4(d0: int, d1: int, d2: int, d3: int)
    requires 0 <= d0 < 5 && 0 <= d1 < 64 && 0 <= d2 < 64 && 0 <= d3 < 64
    requires 0x10000 <= d0 * 262144 + d1 * 4096 + d2 * 64 + d3 < 0x110000
    ensures Encode(d0 * 262144 + d1 * 4096 + d2 * 64 + d3) == [0xF0 + d0, 0x80 + d1, 0x80 + d2, 0x80 + d3]
  {
    Digits(d0, d1, d2, d3);
    Digits(d0 * 64 + d1, d2, 0, 0);
    Digits(d0, d1, 0, 0);
  }

  /** A whole character is the one encoding of the scalar value it spells. */
  lemma EncodeOfWeigh(b: seq<Byte>)
    requires b != [] && CharLength(b) == |b|
    ensures Encode(Weigh(b)) == b
  {
    hide Encode;
    var b0: int := b[0];
    if |b| == 1 {
      EncodeOfWeigh1(b0);
    } else if |b| == 2 {
      EncodeOfWeigh2(b0 - 0xC0, b[1] - 0x80);
    } else if |b| == 3 {
      EncodeOfWeigh3(b0 - 0xE0, b[1] - 0x80, b[2] - 0x80);
    } else {
      EncodeOfWeigh4(b0 - 0xF0, b[1] - 0x80, b[2] - 0x80, b[3] - 0x80);
    }
  }

  lemma EncodeOfWeigh1(b0: Byte)
    requires b0 < 0x80
    ensures Encode(b0) == [b0]
  {
  }

  /** Every text has a valid encoding, and decoding gives the text back. */
  lemma {:induction false} CharsOfEncoding(text: seq<Scalar>)
    ensures Valid(EncodeAll(text)) && Chars(EncodeAll(text)) == text
  {
    if text != [] {
      CharsOfEncoding(text[1..]);
      EncodeThenFirst(text[0], EncodeAll(text[1..]));
      assert EncodeAll(text)[|Encode(text[0])|..] == EncodeAll(text[1..]);
    }
  }

  /** A valid run is the encoding of the characters it decodes to, so validity is exactly "some text encodes to it". */
  lemma {:induction false} EncodingOfChars(b: seq<Byte>)
    requires Valid(b)
    ensures EncodeAll(Chars(b)) == b
    decreases |b|
  {
    hide CharLength, Weigh, Encode;
    if b != [] {
      var n := CharLength(b);
      EncodingOfChars(b[n..]);
      CharLengthCut(b);
      EncodeOfWeigh(b[..n]);
      var rest := Chars(b[n..]);
      assert ([FirstScalar(b)] + rest)[1..] == rest;
      assert EncodeAll([FirstScalar(b)] + rest) == b[..n] + b[n..];
    }
  }

  /** What text is, said by the encoding alone. */
  ghost predicate IsText(b: seq<Byte>) {
    exists text: seq<Scalar> :: EncodeAll(text) == b
  }

  /** The valid runs are exactly the encodings. */
  lemma TextExactly(b: seq<Byte>)
    ensures Valid(b) <==> IsText(b)
  {
    hide ValidUpTo, EncodeAll, Chars;
    if Valid(b) {
      EncodingOfChars(b);
    }
    if IsText(b) {
      var text: seq<Scalar> :| EncodeAll(text) == b;
      CharsOfEncoding(text);
    }
  }

  /** The length of the longest prefix that is text. */
  ghost predicate LongestText(b: seq<Byte>, n: nat) {
    && n <= |b| && IsText(b[..n])
    && forall k :: n < k <= |b| ==> !IsText(b[..k])
  }

  /** That is how far a run is valid, and no other length is. */
  lemma ValidUpToExactly(b: seq<Byte>, n: nat)
    ensures LongestText(b, n) <==> n == ValidUpTo(b)
  {
    hide ValidUpTo, IsText;
    LongestValidPrefix(b);
    forall k | 0 <= k <= |b| ensures Valid(b[..k]) <==> IsText(b[..k]) {
      TextExactly(b[..k]);
    }
  }

  // ---- prefixes, concatenation, and cutting at an ASCII octet ---------------------------------------------------

  /** The first character does not depend on what follows it. */
  lemma {:induction false} CharLengthLocal(a: seq<Byte>, b: seq<Byte>)
    requires CharLength(a) > 0
    ensures CharLength(a + b) == CharLength(a)
  {
  }

  lemma {:induction false} CharLengthOfPrefix(b: seq<Byte>, k: nat)
    requires k <= |b| && CharLength(b[..k]) > 0
    ensures CharLength(b) == CharLength(b[..k])
  {
    CharLengthLocal(b[..k], b[k..]);
    assert b == b[..k] + b[k..];
  }

  lemma {:induction false} ValidConcat(a: seq<Byte>, b: seq<Byte>)
    requires Valid(a)
    ensures ValidUpTo(a + b) == |a| + ValidUpTo(b)
    decreases |a|
  {
    hide CharLength;
    if a == [] {
      assert a + b == b;
    } else {
      var n := CharLength(a);
      ValidConcat(a[n..], b);
      CharLengthLocal(a, b);
      assert (a + b)[n..] == a[n..] + b;
    }
  }

  /** `ValidUpTo` is the longest valid prefix: that prefix is valid, and no longer one is. */
  lemma {:induction false} LongestValidPrefix(b: seq<Byte>)
    ensures Valid(b[..ValidUpTo(b)])
    ensures forall k :: ValidUpTo(b) < k <= |b| ==> !Valid(b[..k])
    decreases |b|
  {
    hide CharLength;
    var n := CharLength(b);
    var v := ValidUpTo(b);
    if n > 0 {
      LongestValidPrefix(b[n..]);
      assert b[..v][n..] == b[n..][..v - n];
      CharLengthCut(b);
      CharLengthLocal(b[..n], b[n..v]);
      assert b[..n] + b[n..v] == b[..v];
    }
    forall k | v < k <= |b|
      ensures !Valid(b[..k])
    {
      if CharLength(b[..k]) > 0 {
        CharLengthOfPrefix(b, k);
        assert b[..k][n..] == b[n..][..k - n];
      }
    }
  }

  lemma InsideIsContinuation(b: seq<Byte>)
    ensures forall i :: 0 < i < CharLength(b) ==> Continuation(b[i])
  {
  }

  /** Only an octet that is no continuation can start a character, so a cut in front of one keeps both sides valid. */
  lemma {:induction false} ValidCut(a: seq<Byte>, b: seq<Byte>)
    requires Valid(a + b)
    requires b != [] ==> !Continuation(b[0])
    ensures Valid(a) && Valid(b)
    decreases |a|
  {
    if a == [] {
      assert a + b == b;
    } else {
      var n := CharLength(a + b);
      InsideIsContinuation(a + b);
      assert b != [] ==> (a + b)[|a|] == b[0];
      assert n <= |a|;
      assert (a + b)[n..] == a[n..] + b;
      ValidCut(a[n..], b);
      assert CharLength(a) == n;
    }
  }

  /** A multi-byte character cut inside is no valid text. */
  lemma CutShort(b: seq<Byte>, p: nat)
    requires p < CharLength(b) && Continuation(b[p])
    ensures p > 0 && !Continuation(b[0]) && CharLength(b[..p]) == 0
    ensures forall i :: 0 <= i < p ==> b[i] >= 0x80
  {
  }

  /** The lead octet of the character that a continuation octet of valid text lies in: what precedes it is cut short. */
  lemma {:induction false} LeadOf(b: seq<Byte>, p: nat) returns (q: nat)
    requires Valid(b) && p < |b| && Continuation(b[p])
    ensures q < p && !Continuation(b[q])
    ensures forall i :: q <= i < p ==> b[i] >= 0x80
    ensures !Valid(b[q..p])
    decreases |b|
  {
    hide CharLength;
    var n := CharLength(b);
    if p < n {
      q := 0;
      CutShort(b, p);
      assert b[0..p] == b[..p];
    } else {
      var r := LeadOf(b[n..], p - n);
      q := n + r;
      assert b[n..][r..p - n] == b[q..p];
      assert forall i :: q <= i < p ==> b[i] == b[n..][i - n];
    }
  }

  /** An ASCII octet is never part of a longer character: cutting around it keeps validity, and so does rejoining. */
  lemma ValidAroundAscii(a: seq<Byte>, c: Byte, b: seq<Byte>)
    requires c < 0x80
    ensures Valid(a + [c] + b) <==> Valid(a) && Valid(b)
  {
    assert a + [c] + b == a + ([c] + b);
    assert ([c] + b)[1..] == b;
    if Valid(a + [c] + b) {
      ValidCut(a, [c] + b);
    } else if Valid(a) {
      ValidConcat(a, [c] + b);
    }
  }

  /** A run of ASCII octets is valid. */
  lemma {:induction false} AsciiIsValid(b: seq<Byte>)
    requires forall i :: 0 <= i < |b| ==> b[i] < 0x80
    ensures Valid(b)
  {
    if b != [] {
      AsciiIsValid(b[1..]);
      assert CharLength(b) == 1;
    }
  }

  /** Splitting valid text at an ASCII separator leaves every piece valid. */
  lemma {:induction false} SplitIsValid(b: seq<Byte>, sep: Byte)
    requires sep < 0x80
    requires Valid(b)
    ensures forall i :: 0 <= i < |SplitOn(b, sep)| ==> Valid(SplitOn(b, sep)[i])
    decreases |b|
  {
    SplitOnStep(b, sep);
    if sep in b {
      var k := IndexOf(b, sep);
      ValidAroundAscii(b[..k], sep, b[k + 1..]);
      SplitIsValid(b[k + 1..], sep);
    }
  }
}
