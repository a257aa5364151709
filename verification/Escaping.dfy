/**
 * Percent-encoding (RFC 3986, sections 2.1 and 2.3) over UTF-8: the decoder of what the server sends, the encoder of
 * what the client sends, and where a failure is reported.
 */
module Escaping {
  import opened Sequences
  import Utf8

  const PERCENT: Byte := 37

  datatype Reason = Truncated | NotHex | NotUtf8

  datatype EscapeError = EscapeError(position: nat, reason: Reason)

  /** Text that is either the caller's own buffer or a new one. */
  datatype Cow = Borrowed(text: seq<Byte>) | Owned(text: seq<Byte>)

  predicate IsUnreserved(b: Byte) {
    48 <= b <= 57 || 65 <= b <= 90 || 97 <= b <= 122 || b in {45, 46, 95, 126}
  }

  function HexValue(b: Byte): (v: Option<int>)
    ensures v.Some? <==> 48 <= b <= 57 || 65 <= b <= 70 || 97 <= b <= 102
    ensures v.Some? ==> 0 <= v.value < 16
  {
    if 48 <= b <= 57 then Some(b - 48)
    else if 97 <= b <= 102 then Some(b - 97 + 10)
    else if 65 <= b <= 70 then Some(b - 65 + 10)
    else None
  }

  predicate UpperHex(b: Byte) {
    48 <= b <= 57 || 65 <= b <= 70
  }

  function HexDigit(nibble: nat): (b: Byte) {
    if nibble <= 9 then 48 + nibble
    else if nibble <= 15 then 65 + nibble - 10
    else 48
  }

  /** A nibble's digit is an uppercase one, and reads back as the nibble. */
  lemma HexRoundTrip(nibble: nat)
    requires nibble < 16
    ensures UpperHex(HexDigit(nibble)) && HexValue(HexDigit(nibble)) == Some(nibble)
  {
  }

  // ---- decoding ---------------------------------------------------------------------------------------------------

  /**
   * How many octets the first token of a run takes: a `%` with its two hex digits, or any other octet; 0 if
   * malformed.
   */
  function TokenLength(b: seq<Byte>): (n: nat)
    requires b != []
    ensures n in {0, 1, 3} && n <= |b|
  {
    if b[0] != PERCENT then 1
    else if |b| >= 3 && HexValue(b[1]).Some? && HexValue(b[2]).Some? then 3
    else 0
  }

  /** The octet the first token stands for. */
  function TokenValue(b: seq<Byte>): Byte
    requires b != [] && TokenLength(b) > 0
  {
    if b[0] != PERCENT then b[0] else HexValue(b[1]).value * 16 + HexValue(b[2]).value
  }

  /** A result carried on behind `done` octets that were decoded from the `read` octets in front. */
  function Resume(done: seq<Byte>, read: nat, r: Result<seq<Byte>, EscapeError>): Result<seq<Byte>, EscapeError> {
    match r
    case Ok(rest) => Ok(done + rest)
    case Err(e) => Err(e.(position := read + e.position))
  }

  lemma ResumeTwice(d: seq<Byte>, k: nat, e: seq<Byte>, l: nat, r: Result<seq<Byte>, EscapeError>)
    ensures Resume(d, k, Resume(e, l, r)) == Resume(d + e, k + l, r)
  {
    if r.Ok? {
      assert d + (e + r.value) == d + e + r.value;
    }
  }

  lemma ResumeError(d: seq<Byte>, k: nat, e: EscapeError)
    ensures Resume(d, k, Err(e)) == Err(e.(position := k + e.position))
  {
  }

  lemma ResumeNothing(r: Result<seq<Byte>, EscapeError>)
    ensures Resume([], 0, r) == r
  {
    if r.Ok? {
      assert [] + r.value == r.value;
    }
  }

  /** The octets an escaped run stands for. */
  function Unescape(b: seq<Byte>): Result<seq<Byte>, EscapeError> {
    if b == [] then Ok([]) else
    var n := TokenLength(b);
    if n == 0 then Err(EscapeError(0, if |b| < 3 then Truncated else NotHex))
    else Resume([TokenValue(b)], n, Unescape(b[n..]))
  }

  /** Where the token that stands for decoded octet `n` starts. */
  function InputOffset(b: seq<Byte>, n: nat): (p: nat)
    ensures p <= |b|
  {
    if b == [] || n == 0 || TokenLength(b) == 0 then 0
    else TokenLength(b) + InputOffset(b[TokenLength(b)..], n - 1)
  }

  /** Percent-decoding an argument into text. */
  function PercentDecode(input: seq<Byte>): Result<seq<Byte>, EscapeError> {
    var decoded :- Unescape(input);
    if Utf8.Valid(decoded) then Ok(decoded)
    else Err(EscapeError(InputOffset(input, Utf8.ValidUpTo(decoded)), NotUtf8))
  }

  /** A decoding result as the source hands it out: the input itself when there was nothing to decode. */
  function Lent(input: seq<Byte>, r: Result<seq<Byte>, EscapeError>): Result<Cow, EscapeError> {
    match r
    case Ok(text) => Ok(if PERCENT in input then Owned(text) else Borrowed(text))
    case Err(e) => Err(e)
  }

  /** `percent_decode`: its borrowing fast path agrees with the general decoder, because its input is text already. */
  method DecodeText(input: seq<Byte>) returns (r: Result<Cow, EscapeError>)
    requires Utf8.Valid(input)
    ensures r == Lent(input, PercentDecode(input))
    ensures r.Ok? ==> PercentDecode(input) == Ok(r.value.text) && (r.value.Borrowed? <==> PERCENT !in input)
    ensures r.Err? ==> PercentDecode(input) == Err(r.error)
  {
    hide Utf8.ValidUpTo, HexValue, InputOffset, Unescape, TokenLength, TokenValue, Resume;
    var first := IndexOf(input, PERCENT);
    StartScan(input, first);
    if first == |input| {
      return Ok(Borrowed(input));
    }
    assert input[first] in input;
    var decoded: seq<Byte> := input[..first];
    var index := first;
    while index < |input|
      invariant index <= |input|
      invariant Unescape(input) == Resume(decoded, index, Unescape(input[index..]))
    {
      ScanToken(input, index, decoded);
      TokenAt(input, index);
      var byte := input[index];
      if byte != PERCENT {
        decoded := decoded + [byte];
        index := index + 1;
        continue;
      }
      if index + 2 >= |input| {
        return Err(EscapeError(index, Truncated));
      }
      var high, low := HexValue(input[index + 1]), HexValue(input[index + 2]);
      if high.None? || low.None? {
        return Err(EscapeError(index, NotHex));
      }
      decoded := decoded + [high.value * 16 + low.value];
      index := index + 3;
    }
    EndScan(input, decoded);
    if Utf8.Valid(decoded) {
      return Ok(Owned(decoded));
    }
    var position := InputOffsetOfDecodedByte(input, Utf8.ValidUpTo(decoded));
    return Err(EscapeError(position, NotUtf8));
  }

  lemma {:induction false} UnescapeStep(b: seq<Byte>)
    requires b != []
    ensures
      var n := TokenLength(b);
      Unescape(b) ==
      if n == 0 then Err(EscapeError(0, if |b| < 3 then Truncated else NotHex))
      else Resume([TokenValue(b)], n, Unescape(b[n..]))
  {
  }

  /** The prefix in front of the first `%` is decoded as it is. */
  lemma StartScan(input: seq<Byte>, first: nat)
    requires first == IndexOf(input, PERCENT)
    ensures Unescape(input) == Resume(input[..first], first, Unescape(input[first..]))
    ensures first == |input| ==> Unescape(input) == Ok(input) && PERCENT !in input
  {
    LiteralRun(input[..first]);
    UnescapeConcat(input[..first], input[first..]);
    assert input == input[..first] + input[first..];
  }

  lemma EndScan(input: seq<Byte>, decoded: seq<Byte>)
    requires Unescape(input) == Resume(decoded, |input|, Unescape(input[|input|..]))
    ensures Unescape(input) == Ok(decoded)
  {
    assert input[|input|..] == [];
    assert decoded + [] == decoded;
  }

  /** What the decoder's next token adds to what it has decoded. */
  lemma ScanToken(input: seq<Byte>, index: nat, decoded: seq<Byte>)
    requires index < |input|
    requires Unescape(input) == Resume(decoded, index, Unescape(input[index..]))
    ensures
      var n := TokenLength(input[index..]);
      Unescape(input) ==
      if n == 0 then Err(EscapeError(index, if index + 2 >= |input| then Truncated else NotHex))
      else Resume(decoded + [TokenValue(input[index..])], index + n, Unescape(input[index + n..]))
  {
    hide TokenLength, TokenValue, Unescape, Resume;
    var rest := input[index..];
    var n := TokenLength(rest);
    UnescapeStep(rest);
    if n == 0 {
      ResumeError(decoded, index, EscapeError(0, if |rest| < 3 then Truncated else NotHex));
    } else {
      assert rest[n..] == input[index..][n..] == input[index + n..];
      ResumeTwice(decoded, index, [TokenValue(rest)], n, Unescape(rest[n..]));
    }
  }

  lemma TokenAt(input: seq<Byte>, index: nat)
    requires index < |input|
    ensures input[index] != PERCENT ==>
              TokenLength(input[index..]) == 1 && TokenValue(input[index..]) == input[index]
    ensures input[index] == PERCENT && index + 2 >= |input| ==> TokenLength(input[index..]) == 0
    ensures input[index] == PERCENT && index + 2 < |input| ==>
              var high, low := HexValue(input[index + 1]), HexValue(input[index + 2]);
              if high.None? || low.None? then TokenLength(input[index..]) == 0
              else
                TokenLength(input[index..]) == 3 && TokenValue(input[index..]) == high.value * 16 + low.value
  {
    hide HexValue;
    var rest := input[index..];
    assert forall i :: index <= i < |input| ==> input[i] == rest[i - index];
  }

  /** One token further into input whose escapes are accepted. */
  lemma {:induction false} OffsetStep(b: seq<Byte>, n: nat)
    requires b != [] && Unescape(b).Ok?
    ensures
      var step := if b[0] == PERCENT then 3 else 1;
      && step <= |b| && Unescape(b[step..]).Ok?
      && InputOffset(b, n) == if n == 0 then 0 else step + InputOffset(b[step..], n - 1)
  {
    hide HexValue;
  }

  lemma OffsetAtEnd(n: nat)
    ensures InputOffset([], n) == 0
  {
  }

  /** `input_offset_of_decoded_byte`, on input whose escapes the decoder has already accepted. */
  method InputOffsetOfDecodedByte(input: seq<Byte>, decodedOffset: nat) returns (position: nat)
    requires Unescape(input).Ok?
    ensures position == InputOffset(input, decodedOffset)
  {
    hide Unescape, InputOffset;
    var produced := 0;
    var index := 0;
    assert input[0..] == input;
    while index < |input|
      invariant index <= |input| && produced <= decodedOffset
      invariant Unescape(input[index..]).Ok?
      invariant InputOffset(input, decodedOffset) == index + InputOffset(input[index..], decodedOffset - produced)
    {
      OffsetStep(input[index..], decodedOffset - produced);
      if produced == decodedOffset {
        return index;
      }
      var step := if input[index] == PERCENT then 3 else 1;
      assert input[index..][step..] == input[index + step..];
      index := index + step;
      produced := produced + 1;
    }
    assert input[index..] == [];
    OffsetAtEnd(decodedOffset - produced);
    return |input|;
  }

  /** The first token does not depend on what follows it. */
  lemma {:induction false} TokenLocal(a: seq<Byte>, b: seq<Byte>)
    requires a != [] && TokenLength(a) > 0
    ensures TokenLength(a + b) == TokenLength(a) && TokenValue(a + b) == TokenValue(a)
  {
  }

  lemma {:induction false} UnescapeConcat(a: seq<Byte>, b: seq<Byte>)
    requires Unescape(a).Ok?
    ensures Unescape(a + b) == Resume(Unescape(a).value, |a|, Unescape(b))
  {
    hide TokenLength, TokenValue;
    if a == [] {
      assert a + b == b;
      ResumeNothing(Unescape(b));
    } else {
      TokenLocal(a, b);
      var n := TokenLength(a);
      assert (a + b)[n..] == a[n..] + b;
      UnescapeConcat(a[n..], b);
      ResumeTwice([TokenValue(a)], n, Unescape(a[n..]).value, |a| - n, Unescape(b));
    }
  }

  /** A run without escapes stands for itself. */
  lemma {:induction false} LiteralRun(b: seq<Byte>)
    requires PERCENT !in b
    ensures Unescape(b) == Ok(b)
  {
    if b != [] {
      LiteralRun(b[1..]);
      assert b == [b[0]] + b[1..];
    }
  }

  // ---- where failures are reported ----------------------------------------------------------------------------------

  /**
   * A malformed escape is reported at the first scanned `%` that two hex digits do not follow: everything before it
   * decodes, and nothing else is ever reported so.
   */
  lemma {:induction false} MalformedEscapePosition(b: seq<Byte>, p: nat)
    requires p < |b|
    ensures (Unescape(b).Err? && Unescape(b).error.position == p) <==> Unescape(b[..p]).Ok? && TokenLength(b[p..]) == 0
    decreases |b|
  {
    hide TokenLength, TokenValue;
    var n := TokenLength(b);
    if p == 0 {
      assert b[..p] == [] && b[p..] == b;
    } else if n == 0 {
      PrefixToken(b, p);
    } else if n <= p {
      MalformedEscapePosition(b[n..], p - n);
      TokenLocalPrefix(b, p);
      assert b[..p][n..] == b[n..][..p - n];
      assert b[n..][p - n..] == b[p..];
    } else {
      PrefixToken(b, p);
    }
  }

  /** A run that does not decode is reported at an octet of it, for the reason the source gives there. */
  lemma {:induction false} MalformedEscapeReason(b: seq<Byte>)
    requires Unescape(b).Err?
    ensures
      var e := Unescape(b).error;
      e.position < |b| && e.reason == if e.position + 2 >= |b| then Truncated else NotHex
  {
    hide TokenLength, TokenValue;
    if TokenLength(b) > 0 {
      MalformedEscapeReason(b[TokenLength(b)..]);
    }
  }

  lemma {:induction false} TokenLocalPrefix(b: seq<Byte>, p: nat)
    requires b != [] && 0 < TokenLength(b) <= p <= |b|
    ensures TokenLength(b[..p]) == TokenLength(b) && TokenValue(b[..p]) == TokenValue(b)
  {
  }

  /** Cut inside its first token, or behind a malformed one, a run does not decode. */
  lemma PrefixToken(b: seq<Byte>, p: nat)
    requires b != [] && 0 < p <= |b|
    requires TokenLength(b) == 0 || p < TokenLength(b)
    ensures TokenLength(b[..p]) == 0
  {
  }

  /** Decoding up to the token of decoded octet `n` yields exactly the first `n` decoded octets. */
  lemma {:induction false} OffsetDecodesPrefix(b: seq<Byte>, n: nat)
    requires Unescape(b).Ok? && n <= |Unescape(b).value|
    ensures Unescape(b[..InputOffset(b, n)]) == Ok(Unescape(b).value[..n])
    ensures n < |Unescape(b).value| ==> InputOffset(b, n) < |b|
  {
    hide TokenLength, TokenValue, Unescape;
    UnescapeEmpty();
    if b == [] || n == 0 {
      assert b[..0] == [];
    } else {
      UnescapeStep(b);
      var step := TokenLength(b);
      var rest := b[step..];
      OffsetDecodesPrefix(rest, n - 1);
      var p := InputOffset(rest, n - 1);
      assert b[..step + p][step..] == rest[..p];
      TokenLocalPrefix(b, step + p);
      UnescapeStep(b[..step + p]);
      var head := [TokenValue(b)];
      assert (head + Unescape(rest).value)[..n] == head + Unescape(rest).value[..n - 1];
    }
  }

  lemma UnescapeEmpty()
    ensures Unescape([]) == Ok([])
  {
  }

  /** Octets beyond ASCII at the end of a run are no part of an escape. */
  lemma {:induction false} RawSuffix(a: seq<Byte>, raw: seq<Byte>)
    requires forall i :: 0 <= i < |raw| ==> raw[i] >= 0x80
    requires Unescape(a + raw).Ok?
    ensures Unescape(a).Ok? && Unescape(a + raw) == Ok(Unescape(a).value + raw)
  {
    hide TokenLength, TokenValue;
    var all := a + raw;
    if a == [] {
      LiteralRun(raw);
      assert all == raw;
    } else {
      TokenBeforeRaw(a, raw);
      var n := TokenLength(a);
      assert all[n..] == a[n..] + raw;
      RawSuffix(a[n..], raw);
      ResumeTwice([TokenValue(a)], n, Unescape(a[n..]).value, 0, Ok(raw));
    }
  }

  lemma TokenBeforeRaw(a: seq<Byte>, raw: seq<Byte>)
    requires forall i :: 0 <= i < |raw| ==> raw[i] >= 0x80
    requires a != [] && TokenLength(a + raw) > 0
    ensures TokenLength(a) == TokenLength(a + raw) && TokenValue(a + raw) == TokenValue(a)
  {
    assert |a + raw| > |a| ==> (a + raw)[|a|] >= 0x80;
    assert |a + raw| > |a| + 1 ==> (a + raw)[|a| + 1] >= 0x80;
  }

  /**
   * On text whose decoded octets are no UTF-8, the reported position cuts the input where its longest decodable part
   * ends: what precedes it is text, and decodes to exactly the longest valid prefix of the decoded octets.
   */
  lemma Utf8FailurePosition(input: seq<Byte>)
    requires Utf8.Valid(input)
    requires PercentDecode(input).Err? && PercentDecode(input).error.reason == NotUtf8
    ensures
      Unescape(input).Ok? &&
      var decoded := Unescape(input).value;
      var p := PercentDecode(input).error.position;
      var v := Utf8.ValidUpTo(decoded);
      && p < |input|
      && Utf8.Valid(input[..p])
      && PercentDecode(input[..p]) == Ok(decoded[..v])
      && forall k :: v < k <= |decoded| ==> !Utf8.Valid(decoded[..k])
  {
    hide Utf8.ValidUpTo, TokenLength, TokenValue, InputOffset;
    if Unescape(input).Err? {
      MalformedEscapeReason(input);
    }
    var decoded := Unescape(input).value;
    var v := Utf8.ValidUpTo(decoded);
    var p := InputOffset(input, v);
    Utf8.LongestValidPrefix(decoded);
    assert decoded[..|decoded|] == decoded;
    OffsetDecodesPrefix(input, v);
    if Utf8.Continuation(input[p]) {
      var q := Utf8.LeadOf(input, p);
      assert input[..q] + input[q..p] == input[..p];
      RawSuffix(input[..q], input[q..p]);
      var before := Unescape(input[..q]).value;
      assert before + input[q..p] == decoded[..v];
      Utf8.ValidCut(before, input[q..p]);
      assert false;
    }
    assert input == input[..p] + input[p..];
    Utf8.ValidCut(input[..p], input[p..]);
  }

  // ---- what escaped text is -----------------------------------------------------------------------------------------

  /** How an octet may stand in escaped text: as itself, or as an escape with digits of either case. */
  datatype Form = AsItself | Escaped(upperHigh: bool, upperLow: bool)

  /** The digit of a number below 16, in either case. */
  function DigitOf(nibble: nat, upper: bool): (b: Byte)
    requires nibble < 16
  {
    Ascii(if upper then "0123456789ABCDEF" else "0123456789abcdef")[nibble]
  }

  function Formed(b: Byte, form: Form): (s: seq<Byte>)
    ensures s != []
  {
    match form
    case AsItself => [b]
    case Escaped(high, low) => Ascii("%") + [DigitOf(b / 16, high), DigitOf(b % 16, low)]
  }

  /** A form for each octet; a percent sign cannot stand for itself. */
  predicate Forms(s: seq<Byte>, forms: seq<Form>) {
    |forms| == |s| && forall i :: 0 <= i < |s| && forms[i].AsItself? ==> s[i] != '%' as Byte
  }

  function AllFormed(s: seq<Byte>, forms: seq<Form>): seq<Byte>
    requires |forms| == |s|
  {
    if s == [] then [] else Formed(s[0], forms[0]) + AllFormed(s[1..], forms[1..])
  }

  lemma DigitIsHex(nibble: nat, upper: bool)
    requires nibble < 16
    ensures HexValue(DigitOf(nibble, upper)) == Some(nibble)
    ensures 48 <= DigitOf(nibble, upper) < 0x80
  {
  }

  /** Every hex digit is the digit of its value in one of the cases. */
  lemma HexIsDigit(b: Byte)
    requires HexValue(b).Some?
    ensures b == DigitOf(HexValue(b).value, b < 97)
  {
  }

  /** An octet is a hex digit of exactly the number whose digit it is, in either case. */
  lemma HexExactly(b: Byte, n: nat)
    ensures HexValue(b) == Some(n) <==> n < 16 && (b == DigitOf(n, true) || b == DigitOf(n, false))
  {
    hide HexValue, DigitOf;
    if HexValue(b).Some? {
      HexIsDigit(b);
    }
    if n < 16 {
      DigitIsHex(n, true);
      DigitIsHex(n, false);
    }
  }

  /** An octet in any of its forms is one token, and stands for the octet. */
  lemma FormIsToken(b: Byte, form: Form, rest: seq<Byte>)
    requires form.AsItself? ==> b != '%' as Byte
    ensures var s := Formed(b, form) + rest;
            TokenLength(s) == |Formed(b, form)| && TokenValue(s) == b && s[|Formed(b, form)|..] == rest
  {
    hide HexValue, DigitOf;
    if form.Escaped? {
      DigitIsHex(b / 16, form.upperHigh);
      DigitIsHex(b % 16, form.upperLow);
    }
  }

  /** And every token is one of the forms of the octet it stands for. */
  lemma TokenIsForm(s: seq<Byte>) returns (form: Form)
    requires s != [] && TokenLength(s) > 0
    ensures form.AsItself? ==> TokenValue(s) != '%' as Byte
    ensures s[..TokenLength(s)] == Formed(TokenValue(s), form)
  {
    hide HexValue, DigitOf;
    if s[0] == PERCENT {
      HexIsDigit(s[1]);
      HexIsDigit(s[2]);
      form := Escaped(s[1] < 97, s[2] < 97);
      assert s[..3] == Formed(TokenValue(s), form);
    } else {
      form := AsItself;
    }
  }

  /** Whatever the forms, the octets are read back. */
  lemma {:induction false} UnescapeFormed(s: seq<Byte>, forms: seq<Form>)
    requires Forms(s, forms)
    ensures Unescape(AllFormed(s, forms)) == Ok(s)
  {
    hide Formed, TokenLength, TokenValue, Unescape;
    UnescapeEmpty();
    if s != [] {
      var rest := AllFormed(s[1..], forms[1..]);
      FormIsToken(s[0], forms[0], rest);
      UnescapeFormed(s[1..], forms[1..]);
      UnescapeStep(AllFormed(s, forms));
      assert s == [s[0]] + s[1..];
    }
  }

  /** And only they are: what is read is one of the ways to write it. */
  lemma {:induction false} UnescapedIsFormed(b: seq<Byte>) returns (forms: seq<Form>)
    requires Unescape(b).Ok?
    ensures Forms(Unescape(b).value, forms) && b == AllFormed(Unescape(b).value, forms)
  {
    hide Formed, TokenLength, TokenValue, Unescape;
    UnescapeEmpty();
    if b == [] {
      forms := [];
    } else {
      UnescapeStep(b);
      var n := TokenLength(b);
      var rest := UnescapedIsFormed(b[n..]);
      var form := TokenIsForm(b);
      forms := [form] + rest;
      var s := Unescape(b).value;
      assert s[1..] == Unescape(b[n..]).value && forms[1..] == rest;
      assert b == b[..n] + b[n..];
    }
  }

  /** Some forms of the octets make up the run. */
  ghost predicate Writes(b: seq<Byte>, s: seq<Byte>) {
    exists forms :: |forms| == |s| && Forms(s, forms) && AllFormed(s, forms) == b
  }

  /** A run decodes to exactly the octets of which it is one of the ways to write them, with digits of either case. */
  lemma UnescapeExactly(b: seq<Byte>, s: seq<Byte>)
    ensures Unescape(b) == Ok(s) <==> Writes(b, s)
  {
    hide Unescape, AllFormed;
    if Unescape(b) == Ok(s) {
      var forms := UnescapedIsFormed(b);
      assert |forms| == |s| && Forms(s, forms);
    }
    if Writes(b, s) {
      var forms :| |forms| == |s| && Forms(s, forms) && AllFormed(s, forms) == b;
      UnescapeFormed(s, forms);
    }
  }

  /**
   * An argument decodes to exactly the text of which it is one of the ways to write it. A malformed escape is reported
   * before an octet run that is no text, and that where its longest part that is text ends.
   */
  lemma DecodesExactly(input: seq<Byte>, s: seq<Byte>)
    ensures PercentDecode(input) == Ok(s) <==> Utf8.IsText(s) && Writes(input, s)
    ensures Writes(input, s) && !Utf8.IsText(s) ==>
              PercentDecode(input).Err? && PercentDecode(input).error.reason == NotUtf8
    ensures Unescape(input).Err? ==> PercentDecode(input) == Unescape(input)
  {
    hide Unescape, Writes, Utf8.IsText, Utf8.ValidUpTo;
    UnescapeExactly(input, s);
    Utf8.TextExactly(s);
  }

  // ---- encoding -----------------------------------------------------------------------------------------------------

  /** One octet, literally or as an escape. */
  function EscapeByte(b: Byte, literal: Byte -> bool): (e: seq<Byte>)
    ensures |e| == 1 || |e| == 3
  {
    if literal(b) then [b] else [PERCENT, HexDigit(b / 16), HexDigit(b % 16)]
  }

  /** A run in which every octet that is not to stay literal is escaped. */
  function Escape(s: seq<Byte>, literal: Byte -> bool): seq<Byte> {
    if s == [] then [] else EscapeByte(s[0], literal) + Escape(s[1..], literal)
  }

  function EncodeForm(s: seq<Byte>): seq<Byte> {
    Escape(s, IsUnreserved)
  }

  /** `encode_form_value`: borrows the input exactly when every octet is unreserved. */
  method EncodeFormValue(input: seq<Byte>) returns (r: Cow)
    ensures r.text == EncodeForm(input)
    ensures r.Borrowed? <==> forall i :: 0 <= i < |input| ==> IsUnreserved(input[i])
  {
    hide HexDigit, IsUnreserved, Escape, EscapeByte;
    if forall i :: 0 <= i < |input| ==> IsUnreserved(input[i]) {
      EscapeNothing(input, IsUnreserved);
      return Borrowed(input);
    }
    var encoded: seq<Byte> := [];
    assert input[0..] == input && encoded + EncodeForm(input) == EncodeForm(input);
    for i := 0 to |input|
      invariant EncodeForm(input) == encoded + Escape(input[i..], IsUnreserved)
    {
      var byte := input[i];
      EscapeByteIs(byte);
      EscapeStep(input[i..], IsUnreserved);
      assert input[i..][1..] == input[i + 1..];
      ghost var before := encoded;
      if IsUnreserved(byte) {
        encoded := encoded + [byte];
      } else {
        encoded := encoded + [PERCENT];
        encoded := encoded + [HexDigit(byte / 16)];
        encoded := encoded + [HexDigit(byte % 16)];
      }
      assert encoded == before + EscapeByte(byte, IsUnreserved);
    }
    assert input[|input|..] == [];
    EscapeNothing([], IsUnreserved);
    return Owned(encoded);
  }

  lemma {:induction false} EscapeStep(s: seq<Byte>, literal: Byte -> bool)
    requires s != []
    ensures Escape(s, literal) == EscapeByte(s[0], literal) + Escape(s[1..], literal)
  {
  }

  lemma EscapeByteIs(b: Byte)
    ensures EscapeByte(b, IsUnreserved)
         == if IsUnreserved(b) then [b] else [PERCENT, HexDigit(b / 16), HexDigit(b % 16)]
  {
  }

  lemma {:induction false} EscapeNothing(s: seq<Byte>, literal: Byte -> bool)
    requires forall i :: 0 <= i < |s| ==> literal(s[i])
    ensures Escape(s, literal) == s
  {
    if s != [] {
      EscapeNothing(s[1..], literal);
      assert s == [s[0]] + s[1..];
    }
  }

  lemma EscapedOctet(b: Byte, literal: Byte -> bool)
    requires !literal(PERCENT)
    ensures Unescape(EscapeByte(b, literal)) == Ok([b])
  {
    hide HexValue, HexDigit;
    var e := EscapeByte(b, literal);
    HexRoundTrip(b / 16);
    HexRoundTrip(b % 16);
    assert b == b / 16 * 16 + b % 16;
    assert TokenLength(e) == |e| && TokenValue(e) == b && e[|e|..] == [];
    UnescapeStep(e);
    UnescapeEmpty();
    assert [b] + [] == [b];
  }

  /** Whatever is kept literal besides `%`, unescaping undoes escaping. */
  lemma {:induction false} UnescapeOfEscape(s: seq<Byte>, literal: Byte -> bool)
    requires !literal(PERCENT)
    ensures Unescape(Escape(s, literal)) == Ok(s)
  {
    hide Escape, EscapeByte, Unescape;
    if s == [] {
      EscapeNothing(s, literal);
      UnescapeEmpty();
    } else {
      UnescapeOfEscape(s[1..], literal);
      EscapedOctet(s[0], literal);
      EscapeStep(s, literal);
      UnescapeConcat(EscapeByte(s[0], literal), Escape(s[1..], literal));
      assert s == [s[0]] + s[1..];
    }
  }

  /** Text survives the encoder and the decoder. */
  lemma FormRoundTrip(s: seq<Byte>)
    requires Utf8.Valid(s)
    ensures PercentDecode(EncodeForm(s)) == Ok(s)
  {
    UnescapeOfEscape(s, IsUnreserved);
  }

  /** Two octet runs with the same encoding are the same run. */
  lemma EncodeFormInjective(s: seq<Byte>, t: seq<Byte>)
    requires EncodeForm(s) == EncodeForm(t)
    ensures s == t
  {
    UnescapeOfEscape(s, IsUnreserved);
    UnescapeOfEscape(t, IsUnreserved);
  }

  /** The unreserved characters of section 2.3 of RFC 3986. */
  predicate Unreserved(c: char) {
    'A' <= c <= 'Z' || 'a' <= c <= 'z' || '0' <= c <= '9' || c in "-._~"
  }

  lemma UnreservedExactly(b: Byte)
    ensures IsUnreserved(b) <==> Unreserved(b as char)
  {
  }

  /** The client's form of each octet: unreserved ones as themselves, all others as escapes with uppercase digits. */
  function ClientForms(s: seq<Byte>): (forms: seq<Form>)
    ensures |forms| == |s|
  {
    seq(|s|, i requires 0 <= i < |s| => if Unreserved(s[i] as char) then AsItself else Escaped(true, true))
  }

  lemma {:induction false} EncodedExactly(s: seq<Byte>)
    ensures EncodeForm(s) == AllFormed(s, ClientForms(s))
  {
    hide EscapeByte, IsUnreserved, Unreserved, Formed;
    if s != [] {
      EncodedExactly(s[1..]);
      ByteEncodedExactly(s[0]);
      assert ClientForms(s)[1..] == ClientForms(s[1..]);
    }
  }

  lemma ByteEncodedExactly(b: Byte)
    ensures EscapeByte(b, IsUnreserved) == Formed(b, if Unreserved(b as char) then AsItself else Escaped(true, true))
  {
    hide IsUnreserved, Unreserved, HexDigit, DigitOf;
    UnreservedExactly(b);
    DigitsAgree(b / 16);
    DigitsAgree(b % 16);
  }

  lemma DigitsAgree(nibble: nat)
    requires nibble < 16
    ensures HexDigit(nibble) == DigitOf(nibble, true)
  {
  }

  /** Text over the RFC 3986 unreserved octets and escapes with two uppercase hex digits. */
  predicate FormText(b: seq<Byte>) {
    b == []
    || (IsUnreserved(b[0]) && FormText(b[1..]))
    || (|b| >= 3 && b[0] == PERCENT && UpperHex(b[1]) && UpperHex(b[2]) && FormText(b[3..]))
  }

  lemma {:induction false} EncodedIsFormText(s: seq<Byte>)
    ensures FormText(EncodeForm(s))
  {
    if s != [] {
      EncodedIsFormText(s[1..]);
      HexRoundTrip(s[0] / 16);
      HexRoundTrip(s[0] % 16);
      var n := |EscapeByte(s[0], IsUnreserved)|;
      assert EncodeForm(s)[n..] == EncodeForm(s[1..]);
    }
  }

  /** Form text is ASCII, and holds none of the octets that separate parameters and lines. */
  lemma {:induction false} FormTextIsSafe(b: seq<Byte>)
    requires FormText(b)
    ensures forall i :: 0 <= i < |b| ==> b[i] < 0x80 && b[i] !in {CR, LF, 38, 43, 61}
  {
    if b != [] {
      var n := if IsUnreserved(b[0]) then 1 else 3;
      FormTextIsSafe(b[n..]);
      assert forall i :: n <= i < |b| ==> b[i] == b[n..][i - n];
    }
  }
}
