/** Requests: validated values, the parameter line, batch framing, and a server's reading of lines and batches. */
module Request {
  import opened Sequences
  import opened Numbers
  import Escaping
  import Utf8

  type Text = seq<Byte>

  const AMPERSAND: Byte := 38
  const EQUALS: Byte := 61
  const UNDERSCORE: Byte := 95
  const CRLF: Text := [CR, LF]

  datatype RequestError =
    | EmptyBatch | SessionRequired | EmptyValue | BadCharacter | ReservedName
    | SnapshotLengthNeedsDistinct | SnapshotIgnored | FrequencyIgnored | BufferIgnored | BufferUnfiltered
    | ProgressiveRequired | MaxWaitIgnored

  // ---- validated values --------------------------------------------------------------------------------------------

  predicate Alphanumeric(b: Byte) {
    48 <= b <= 57 || 65 <= b <= 90 || 97 <= b <= 122
  }

  /** `RequestId::try_new`. */
  function TryRequestId(id: Text): Result<Text, RequestError> {
    if id == [] then Err(EmptyValue)
    else if exists i :: 0 <= i < |id| && !Alphanumeric(id[i]) then Err(BadCharacter)
    else Ok(id)
  }

  const RESERVED_SEQUENCE := Ascii("UNORDERED_MESSAGES")

  /** `SequenceName::try_new`. */
  function TrySequenceName(name: Text): Result<Text, RequestError> {
    if name == [] then Err(EmptyValue)
    else if name == RESERVED_SEQUENCE then Err(ReservedName)
    else if exists i :: 0 <= i < |name| && !Alphanumeric(name[i]) && name[i] != UNDERSCORE then Err(BadCharacter)
    else Ok(name)
  }

  /** A letter or a digit. */
  predicate LetterOrDigit(b: Byte) {
    var c := b as char;
    'A' <= c <= 'Z' || 'a' <= c <= 'z' || '0' <= c <= '9'
  }

  /** Which texts are request ids, and why the others are none. */
  lemma RequestIdExactly(id: Text)
    ensures TryRequestId(id) == Ok(id) <==> id != [] && forall i :: 0 <= i < |id| ==> LetterOrDigit(id[i])
    ensures TryRequestId(id) == Err(EmptyValue) <==> id == []
    ensures TryRequestId(id) == Err(BadCharacter) <==> exists i :: 0 <= i < |id| && !LetterOrDigit(id[i])
    ensures TryRequestId(id).Ok? ==> TryRequestId(id).value == id
  {
  }

  /** Which texts name a sequence, and why the others do not; the reserved name is told apart first. */
  lemma SequenceNameExactly(name: Text)
    ensures
      var plain := forall i :: 0 <= i < |name| ==> LetterOrDigit(name[i]) || name[i] as char == '_';
      var reserved := name == Ascii("UNORDERED_MESSAGES");
      && (TrySequenceName(name) == Ok(name) <==> name != [] && !reserved && plain)
      && (TrySequenceName(name) == Err(EmptyValue) <==> name == [])
      && (TrySequenceName(name) == Err(ReservedName) <==> reserved)
      && (TrySequenceName(name) == Err(BadCharacter) <==> !plain)
      && (TrySequenceName(name).Ok? ==> TrySequenceName(name).value == name)
  {
    var reserved := Ascii("UNORDERED_MESSAGES");
    forall i | 0 <= i < |reserved| ensures LetterOrDigit(reserved[i]) || reserved[i] as char == '_' {
      ReservedIsPlain(i);
    }
  }

  lemma ReservedIsPlain(i: nat)
    requires i < 18
    ensures var c := "UNORDERED_MESSAGES"[i]; 'A' <= c <= 'Z' || c == '_'
  {
  }

  type RequestId = t: Text | TryRequestId(t).Ok? witness [48]
  type SequenceName = t: Text | TrySequenceName(t).Ok? witness [48]
  type DecimalNumber = t: Text | IsDecimal(t) witness PrintNat(0)
  type Positive = n: int | 0 < n <= U32_MAX witness 1
  type Str = t: Text | Utf8.Valid(t)

  // ---- a server's reading of a parameter line ----------------------------------------------------------------------

  /** None of the octets that frame a parameter. */
  predicate Unframed(name: Text) {
    AMPERSAND !in name && EQUALS !in name && Unbroken(name)
  }

  type Name = t: Text | Unframed(t) witness [76]

  datatype Field = Field(name: Text, value: Text)

  datatype ReadError = NoValue | BadValue

  function ReadField(piece: Text): Result<Field, ReadError> {
    var k := IndexOf(piece, '=' as Byte);
    if k == |piece| then Err(NoValue)
    else if Escaping.PercentDecode(piece[k + 1..]).Err? then Err(BadValue)
    else Ok(Field(piece[..k], Escaping.PercentDecode(piece[k + 1..]).value))
  }

  function ReadPieces(pieces: seq<Text>): Result<seq<Field>, ReadError> {
    if pieces == [] then Ok([])
    else
      var before :- ReadPieces(pieces[..|pieces| - 1]);
      var last :- ReadField(pieces[|pieces| - 1]);
      Ok(before + [last])
  }

  /** Split at `&`, each piece at its first `=`, and decode each value. */
  function ReadFields(line: Text): Result<seq<Field>, ReadError> {
    if line == [] then Ok([]) else ReadPieces(SplitOn(line, '&' as Byte))
  }

  /** No octet that ends a line. */
  predicate Unbroken(line: Text) {
    '\r' as Byte !in line && '\n' as Byte !in line
  }

  /** A value that can follow a name on a line as it is. */
  predicate WireSafe(wire: Text) {
    Unbroken(wire) && AMPERSAND !in wire && Escaping.PercentDecode(wire).Ok?
  }

  lemma ReadFurtherPiece(pieces: seq<Text>, piece: Text)
    requires ReadPieces(pieces).Ok? && ReadField(piece).Ok?
    ensures ReadPieces(pieces + [piece]) == Ok(ReadPieces(pieces).value + [ReadField(piece).value])
  {
    hide ReadField;
    assert (pieces + [piece])[..|pieces|] == pieces;
  }

  lemma PieceReads(name: Name, wire: Text)
    requires WireSafe(wire)
    ensures
      var piece := name + [EQUALS] + wire;
      && ReadField(piece) == Ok(Field(name, Escaping.PercentDecode(wire).value))
      && AMPERSAND !in piece && Unbroken(piece)
  {
    hide Escaping.PercentDecode;
    var piece := name + [EQUALS] + wire;
    assert piece[|name|] == EQUALS;
    assert forall i :: 0 <= i < |name| ==> piece[i] == name[i];
    assert IndexOf(piece, EQUALS) == |name|;
    assert piece[..|name|] == name && piece[|name| + 1..] == wire;
  }

  /** A further piece is a further field. */
  lemma LineReads(buf: Text, piece: Text)
    requires ReadFields(buf).Ok? && ReadField(piece).Ok? && AMPERSAND !in piece
    ensures
      var line := if buf == [] then piece else buf + [AMPERSAND] + piece;
      line != [] ==> ReadFields(line) == Ok(ReadFields(buf).value + [ReadField(piece).value])
  {
    hide ReadField, ReadPieces, SplitOn;
    SplitOnStep(piece, AMPERSAND);
    if buf == [] {
      ReadNothing();
      ReadFurtherPiece([], piece);
      assert [] + [piece] == [piece];
    } else {
      var pieces := SplitOn(buf, AMPERSAND);
      var last := pieces[|pieces| - 1];
      PiecesHoldNoSeparator(buf, AMPERSAND);
      SplitConcat(buf, [AMPERSAND] + piece, AMPERSAND);
      SplitOnCons(last, AMPERSAND, piece);
      assert buf + [AMPERSAND] + piece == buf + ([AMPERSAND] + piece);
      assert last + ([AMPERSAND] + piece) == last + [AMPERSAND] + piece;
      assert pieces[..|pieces| - 1] + ([last] + [piece]) == pieces + [piece];
      ReadFurtherPiece(pieces, piece);
    }
  }

  lemma ReadNothing()
    ensures ReadPieces([]) == Ok([])
  {
  }

  /** Plain ASCII without `%` decodes to itself. */
  lemma PlainDecodes(wire: Text)
    requires forall i :: 0 <= i < |wire| ==> wire[i] < 0x80 && wire[i] != Escaping.PERCENT
    ensures Escaping.PercentDecode(wire) == Ok(wire)
  {
    Escaping.LiteralRun(wire);
    Utf8.AsciiIsValid(wire);
  }

  const TRUE := Ascii("true")
  const FALSE := Ascii("false")

  /** A line with one more parameter. */
  function Appended(buf: Text, name: Text, wire: Text): Text {
    (if buf == [] then [] else buf + [AMPERSAND]) + name + [EQUALS] + wire
  }

  /** It reads as the line did, and one more field. */
  lemma FieldAppended(buf: Text, name: Name, wire: Text)
    requires ReadFields(buf).Ok? && Unbroken(buf) && WireSafe(wire)
    ensures
      var line := Appended(buf, name, wire);
      && ReadFields(line) == Ok(ReadFields(buf).value + [Field(name, Escaping.PercentDecode(wire).value)])
      && line != [] && Unbroken(line)
  {
    hide ReadField, ReadFields, Unbroken, Escaping.PercentDecode;
    var piece := name + [EQUALS] + wire;
    PieceReads(name, wire);
    LineReads(buf, piece);
    var line := if buf == [] then piece else buf + [AMPERSAND] + piece;
    assert Appended(buf, name, wire) == line;
    if buf != [] {
      JoinedUnbroken(buf, piece);
    }
  }

  lemma JoinedUnbroken(a: Text, b: Text)
    requires Unbroken(a) && Unbroken(b)
    ensures Unbroken(a + [AMPERSAND] + b)
  {
  }

  /**
   * `ParameterLine`: whatever is appended, a server that splits the line and decodes the pieces reads back the same
   * names and values in the same order, and the line holds no terminator.
   */
  class ParameterLine {
    var buf: Text
    ghost var fields: seq<Field>

    ghost predicate Valid()
      reads this
    {
      ReadFields(buf) == Ok(fields) && (buf == [] <==> fields == []) && Unbroken(buf)
    }

    constructor ()
      ensures Valid() && fields == []
    {
      buf, fields := [], [];
    }

    method Verbatim(name: Name, value: Text)
      requires Valid() && WireSafe(value)
      modifies this
      ensures Valid() && fields == old(fields) + [Field(name, Escaping.PercentDecode(value).value)]
    {
      hide ReadFields, Unbroken, Escaping.PercentDecode;
      FieldAppended(buf, name, value);
      ghost var line := Appended(buf, name, value);
      if buf != [] {
        buf := buf + [AMPERSAND];
      }
      buf := buf + name;
      buf := buf + [EQUALS];
      buf := buf + value;
      assert buf == line;
      fields := fields + [Field(name, Escaping.PercentDecode(value).value)];
    }

    method Text(name: Name, value: Str)
      requires Valid()
      modifies this
      ensures Valid() && fields == old(fields) + [Field(name, value)]
    {
      hide Escaping.PercentDecode, ReadFields;
      var encoded := Escaping.EncodeFormValue(value);
      Escaping.FormRoundTrip(value);
      Escaping.EncodedIsFormText(value);
      Escaping.FormTextIsSafe(encoded.text);
      Verbatim(name, encoded.text);
    }

    method Boolean(name: Name, value: bool)
      requires Valid()
      modifies this
      ensures Valid() && fields == old(fields) + [Field(name, if value then TRUE else FALSE)]
    {
      hide Escaping.PercentDecode, ReadFields;
      var wire := if value then TRUE else FALSE;
      PlainDecodes(wire);
      Verbatim(name, wire);
    }

    method Number(name: Name, value: nat)
      requires Valid()
      modifies this
      ensures Valid() && fields == old(fields) + [Field(name, PrintNat(value))]
    {
      hide Escaping.PercentDecode, ReadFields, PrintNat;
      PlainDecodes(PrintNat(value));
      Verbatim(name, PrintNat(value));
    }

    method Finish() returns (line: Text)
      requires Valid()
      ensures line == buf
    {
      return buf;
    }
  }

  // ---- batches -----------------------------------------------------------------------------------------------------

  /** `encode_http_batch`. */
  function EncodeHttpBatch(lines: seq<Text>): Result<Text, RequestError> {
    if lines == [] then Err(EmptyBatch) else Ok(Join(lines, CRLF))
  }

  /** `encode_ws_batch`. */
  function EncodeWsBatch(name: Text, lines: seq<Text>): Result<Text, RequestError> {
    var body :- EncodeHttpBatch(lines);
    Ok(name + CRLF + body)
  }

  /** `ws_message`: a single request's name and parameter line. */
  function WsMessage(name: Text, parameters: Text): Text {
    name + CRLF + parameters
  }

  predicate CrlfAt(s: Text, i: nat) {
    i + 1 < |s| && s[i] as char == '\r' && s[i + 1] as char == '\n'
  }

  /** The first index at which a CR-LF pair starts, or the length when there is none. */
  function CrlfIndex(s: Text, from: nat): (k: nat)
    requires from <= |s|
    ensures from <= k <= |s|
    ensures k < |s| ==> CrlfAt(s, k)
    ensures forall i :: from <= i < k ==> !CrlfAt(s, i)
    decreases |s| - from
  {
    if from == |s| || CrlfAt(s, from) then from else CrlfIndex(s, from + 1)
  }

  /** A server's splitting of a message into lines. */
  function SplitCrlf(s: Text): seq<Text>
    decreases |s|
  {
    var k := CrlfIndex(s, 0);
    if k == |s| then [s] else [s[..k]] + SplitCrlf(s[k + 2..])
  }

  lemma {:induction false} SplitCrlfStep(s: Text)
    ensures var k := CrlfIndex(s, 0);
            SplitCrlf(s) == if k == |s| then [s] else [s[..k]] + SplitCrlf(s[k + 2..])
  {
    hide CrlfIndex;
  }

  /** The first pair behind a line without terminators is the one that ends it. */
  lemma FirstCrlf(line: Text, rest: Text)
    requires Unbroken(line)
    ensures CrlfIndex(line + CRLF + rest, 0) == |line|
  {
    hide CrlfIndex;
    var s := line + CRLF + rest;
    assert s[|line|] == CR && s[|line| + 1] == LF;
    assert forall i :: 0 <= i < |line| ==> s[i] == line[i];
    assert CrlfAt(s, |line|);
  }

  lemma {:induction false} SplitCrlfCons(line: Text, rest: Text)
    requires Unbroken(line)
    ensures SplitCrlf(line + CRLF + rest) == [line] + SplitCrlf(rest)
  {
    hide CrlfIndex, SplitCrlf, Unbroken;
    var s := line + CRLF + rest;
    FirstCrlf(line, rest);
    SplitCrlfStep(s);
    assert s[..|line|] == line && s[|line| + 2..] == rest;
  }

  /** Lines without terminators come back from a batch one by one. */
  lemma {:induction false} BatchSplits(lines: seq<Text>)
    requires lines != [] && forall i :: 0 <= i < |lines| ==> Unbroken(lines[i])
    ensures EncodeHttpBatch(lines).Ok? && SplitCrlf(EncodeHttpBatch(lines).value) == lines
  {
    var line, rest := lines[0], lines[1..];
    if rest == [] {
      var k := CrlfIndex(line, 0);
      assert lines == [line];
    } else {
      BatchSplits(rest);
      SplitCrlfCons(line, Join(rest, CRLF));
      assert lines == [line] + rest;
    }
  }

  /** A WS batch splits back into its request name and its lines; a single message into its name and its one line. */
  lemma WsBatchSplits(name: Text, lines: seq<Text>)
    requires Unbroken(name) && lines != [] && forall i :: 0 <= i < |lines| ==> Unbroken(lines[i])
    ensures EncodeWsBatch(name, lines).Ok? && SplitCrlf(EncodeWsBatch(name, lines).value) == [name] + lines
  {
    BatchSplits(lines);
    SplitCrlfCons(name, EncodeHttpBatch(lines).value);
  }

  lemma WsMessageSplits(name: Text, parameters: Text)
    requires Unbroken(name) && Unbroken(parameters)
    ensures SplitCrlf(WsMessage(name, parameters)) == [name, parameters]
  {
    WsBatchSplits(name, [parameters]);
    assert [name] + [parameters] == [name, parameters];
  }

  /** An empty batch is refused because joined it would be the batch of one empty line. */
  lemma EmptyBatchWouldCollide()
    ensures Join([], CRLF) == Join([[]], CRLF) && EncodeHttpBatch([]).Err? && EncodeHttpBatch([[]]).Ok?
    ensures forall lines :: EncodeHttpBatch(lines).Err? <==> lines == []
  {
    var one: seq<Text> := [[]];
    assert Join(one, CRLF) == one[0];
  }
}
