/** The inbound path as a whole: octet runs of any division, lines, notifications. */
module Pipeline {
  import opened Sequences
  import opened Numbers
  import opened Response
  import opened Printer
  import opened Framing
  import Utf8

  /** Lines end in CR-LF; a bare LF is tolerated. */
  predicate Terminator(t: Text) {
    t == Ascii("\r\n") || t == Ascii("\n")
  }

  /**
   * A notification as a server sends it: what it leaves unescaped and how it ends the line may vary from line to
   * line.
   */
  datatype Sent = Sent(notification: Notification, choice: Choice, terminator: Text)

  function Printed(m: Sent): Text {
    Print(m.notification, m.choice)
  }

  /** The octets a server sends for a list of notifications. */
  function Stream(ms: seq<Sent>): Text {
    if ms == [] then [] else Printed(ms[0]) + ms[0].terminator + Stream(ms[1..])
  }

  ghost predicate Sendable(m: Sent) {
    Printable(m.notification) && Lawful(m.choice) && Terminator(m.terminator)
  }

  ghost predicate AllSendable(ms: seq<Sent>) {
    forall i :: 0 <= i < |ms| ==> Sendable(ms[i])
  }

  /** Each printed notification is one line of the stream, and nothing is left over. */
  lemma {:induction false} LinesOfStream(ms: seq<Sent>)
    requires AllSendable(ms)
    ensures
      var s := Stream(ms);
      && Tail(s) == [] && |Lines(s)| == |ms|
      && forall i :: 0 <= i < |ms| ==> Lines(s)[i] == Printed(ms[i])
  {
    hide Lines, Tail, Print, Printable, Lawful, Clean;
    LinesOfPiece([]);
    if ms != [] {
      var m, rest := ms[0], Stream(ms[1..]);
      assert Sendable(m);
      PrintedIsClean(m.notification, m.choice);
      LinesOfStream(ms[1..]);
      TerminatedLine(Printed(m), m.terminator);
      LinesConcat(Printed(m) + m.terminator, rest);
      assert [] + rest == rest;
    }
  }

  lemma TerminatedLine(line: Text, terminator: Text)
    requires Clean(line, true) && line != [] && Terminator(terminator)
    ensures Lines(line + terminator) == [line] && Tail(line + terminator) == []
  {
    hide Lines, Tail, Utf8.ValidUpTo;
    var piece := (line + terminator)[..|line + terminator| - 1];
    assert line + terminator == piece + [LF];
    assert piece == line || (piece == line + [CR] && piece[..|piece| - 1] == line);
    LinesOfPiece(piece);
  }

  /** A popped line decodes as text and parses to a notification. */
  predicate IsRead(line: Text, n: Notification) {
    FromUtf8(line) == Ok(line) && ParseLine(line) == Ok(n)
  }

  ghost predicate ReadInto(lines: seq<Text>, ms: seq<Sent>) {
    |lines| <= |ms| && forall i :: 0 <= i < |lines| ==> IsRead(lines[i], ms[i].notification)
  }

  /** Where a run of pushes and pops leads, none of its pushes being refused. */
  predicate Leaves(ops: seq<Op>, r: Outcome) {
    Run(ops) == Ok(r)
  }

  /** The pushes of a run, whatever their division, are a stream up to its rest. */
  ghost predicate Carries(ops: seq<Op>, ms: seq<Sent>, rest: Text) {
    AllSendable(ms) && Pushed(ops) + rest == Stream(ms)
  }

  /**
   * For every list of printable notifications, whatever the server leaves unescaped, and every division of the octets
   * into pushes that raise no capacity error: the lines popped or ready so far decode and parse to exactly the first
   * notifications, in order.
   */
  lemma InboundPipeline(ops: seq<Op>, ms: seq<Sent>, rest: Text, r: Outcome)
    requires Leaves(ops, r) && Carries(ops, ms, rest)
    ensures ReadInto(r.popped + r.state.ready, ms)
  {
    hide Lines, Tail, Print, Printable, Lawful, ParseLine, Run, Pushed, Stream, Utf8.ValidUpTo;
    RunRefinesSplitter(ops);
    LinesOfStream(ms);
    LinesConcat(Pushed(ops), rest);
    var lines := Lines(Pushed(ops));
    forall i | 0 <= i < |lines| ensures IsRead(lines[i], ms[i].notification) {
      assert lines[i] == Lines(Pushed(ops) + rest)[i];
      assert Sendable(ms[i]);
      PrintedIsClean(ms[i].notification, ms[i].choice);
      ParsePrinted(ms[i].notification, ms[i].choice);
    }
  }

  /** And once the whole stream is in, to all of them: nothing is held back. */
  lemma PipelineIsComplete(ops: seq<Op>, ms: seq<Sent>, r: Outcome)
    requires Leaves(ops, r) && Carries(ops, ms, [])
    ensures |r.popped + r.state.ready| == |ms| && r.state.partial == []
  {
    hide Lines, Tail, Print, Printable, Lawful, Run, Pushed, Stream;
    RunRefinesSplitter(ops);
    LinesOfStream(ms);
    assert Pushed(ops) + [] == Pushed(ops);
  }

  // ---- the one argument that nothing protects ----------------------------------------------------------------------

  /** Whether a notification sent on its own reaches the client as itself. */
  predicate Survives(n: Notification, choice: Choice) {
    var lines := Lines(Print(n, choice) + [CR, LF]);
    lines != [] && ParseLine(lines[0]) == Ok(n)
  }

  /**
   * A raw value list reaches the client intact exactly when it holds no LF and does not end in CR: the buffer splits at
   * the one, and the parser takes the other for a terminator, on top of the CR that the buffer strips.
   */
  lemma RawSurvivesExactly(n: Notification, choice: Choice)
    requires n.Update? && AllText(n) && Lawful(choice)
    ensures Survives(n, choice) <==> RawOk(n)
  {
    hide Lines, Print, Clean, ParseLine, AllText;
    if RawOk(n) {
      PrintedIsClean(n, choice);
      TerminatedLine(Print(n, choice), [CR, LF]);
      ParsePrinted(n, choice);
    } else if LF in n.rawValues {
      var lines := Lines(Print(n, choice) + [CR, LF]);
      if Survives(n, choice) {
        LinesHoldNoTerminator(Print(n, choice) + [CR, LF]);
        ParsedHoldsOnly(lines[0], LF);
        assert false;
      }
    } else {
      TrailingCrIsLost(n, choice);
    }
  }

  lemma LinesHoldNoTerminator(b: Text)
    ensures forall i :: 0 <= i < |Lines(b)| ==> LF !in Lines(b)[i]
  {
    hide SplitOn;
    PiecesHoldNoSeparator(b, LF);
    var pieces := SplitOn(b, LF);
    KeptHoldsNoTerminator(pieces[..|pieces| - 1]);
  }

  lemma {:induction false} KeptHoldsNoTerminator(pieces: seq<Text>)
    requires Separable(pieces, LF)
    ensures forall i :: 0 <= i < |Kept(pieces)| ==> LF !in Kept(pieces)[i]
  {
    if pieces != [] {
      KeptHoldsNoTerminator(pieces[1..]);
    }
  }

  /** The raw value list of a parsed update holds only octets of its line. */
  lemma ParsedHoldsOnly(line: Text, c: Byte)
    requires ParseLine(line).Ok? && ParseLine(line).value.Update?
    requires c !in line
    ensures c !in ParseLine(line).value.rawValues
  {
    hide TagOf, Interpret, Arity;
    var inner := StripTerminator(line);
    var (tag, rest) := SplitTag(inner);
    var t := TagOf(tag).value;
    var a := Arguments(tag, rest, Arity(t)).value;
    UpdateArguments(t, a);
    PiecesHoldOnly(rest.value, Arity(t), c);
  }

  lemma UpdateArguments(t: Tag, a: seq<Text>)
    requires |a| == Arity(t) && Interpret(t, a).Ok? && Interpret(t, a).value.Update?
    ensures t == Tag.U && Arity(t) == 3 && Interpret(t, a).value.rawValues == a[2]
  {
    hide Wire, ParseUnsigned, ParseI64, IsDecimal, Decode, Ascii;
  }

  lemma {:induction false} PiecesHoldOnly(s: Text, n: nat, c: Byte)
    requires c !in s && n > 0
    ensures forall i :: 0 <= i < |SplitN(s, n)| ==> c !in SplitN(s, n)[i]
    decreases n
  {
    var k := IndexOf(s, COMMA);
    if n > 1 && k < |s| {
      PiecesHoldOnly(s[k + 1..], n - 1, c);
    }
  }

  /** An update whose raw value list ends in CR is read without that CR. */
  lemma TrailingCrIsLost(n: Notification, choice: Choice)
    requires n.Update? && AllText(n) && Lawful(choice)
    requires LF !in n.rawValues && n.rawValues != [] && n.rawValues[|n.rawValues| - 1] == CR
    ensures
      var line := Print(n, choice);
      && Lines(line + [CR, LF]) == [line]
      && ParseLine(line) == Ok(n.(rawValues := n.rawValues[..|n.rawValues| - 1]))
  {
    hide Lines, ParseLine, PrintInt, Wire, Print;
    var raw := n.rawValues[..|n.rawValues| - 1];
    assert n.rawValues == raw + [CR];
    var line := Print(n, choice);
    PrintedUpdate(n, choice);
    var id, item, tag := PrintInt(n.subscriptionId), PrintInt(n.itemIndex), Wire(Tag.U);
    var body := id + [COMMA] + (item + [COMMA] + raw);
    assert line == tag + [COMMA] + body + [CR];
    LineEndingInCr(tag, id, item, raw, n.subscriptionId, n.itemIndex);
    BodySplits(id, item, raw, n.subscriptionId, n.itemIndex);
    ParseUpdate(line, tag, body, [id, item, raw], n.subscriptionId, n.itemIndex);
  }

  lemma LineEndingInCr(tag: Text, id: Text, item: Text, raw: Text, i: int, j: int)
    requires tag == Wire(Tag.U) && id == PrintInt(i) && item == PrintInt(j)
    requires LF !in raw
    ensures
      var body := id + [COMMA] + (item + [COMMA] + raw);
      var line := tag + [COMMA] + body + [CR];
      && Lines(line + [CR, LF]) == [line]
      && SplitTag(StripTerminator(line)) == (tag, Some(body))
  {
    hide Lines, PrintInt, Wire, SplitTag, Utf8.ValidUpTo;
    DigitsArePlain(i);
    DigitsArePlain(j);
    TagRoundTrip(Tag.U);
    var body := id + [COMMA] + (item + [COMMA] + raw);
    var inner := tag + [COMMA] + body;
    var line := inner + [CR];
    assert LF !in line + [CR];
    LinesOfPiece(line + [CR]);
    assert line + [CR] + [LF] == line + [CR, LF];
    assert (line + [CR])[..|line|] == line;
    assert StripTerminator(line) == inner;
    FirstComma(tag, body);
  }

  lemma BodySplits(id: Text, item: Text, raw: Text, i: int, j: int)
    requires id == PrintInt(i) && item == PrintInt(j)
    ensures SplitN(id + [COMMA] + (item + [COMMA] + raw), 3) == [id, item, raw]
  {
    hide PrintInt, SplitN, Utf8.ValidUpTo;
    DigitsArePlain(i);
    DigitsArePlain(j);
    SplitNCons(id, item + [COMMA] + raw, 3);
    SplitNCons(item, raw, 2);
    JoinedOne(raw);
  }

  lemma PrintedUpdate(n: Notification, choice: Choice)
    requires n.Update?
    ensures Print(n, choice)
         == Wire(Tag.U) + [COMMA]
            + (PrintInt(n.subscriptionId) + [COMMA] + (PrintInt(n.itemIndex) + [COMMA] + n.rawValues))
  {
    hide Wire, PrintInt, Join;
    TagTextIs(n);
    var p := PrintArguments(ArgumentsOf(n), choice);
    var id, item, raw := PrintInt(n.subscriptionId), PrintInt(n.itemIndex), n.rawValues;
    assert p == [id, item, raw];
    assert [id] + [item, raw] == [id, item, raw] && [item] + [raw] == [item, raw];
    JoinCons(Wire(Tag.U), p, [COMMA]);
    JoinCons(id, [item, raw], [COMMA]);
    JoinCons(item, [raw], [COMMA]);
    JoinedOne(raw);
  }

  lemma ParseUpdate(line: Text, tag: Text, body: Text, a: seq<Text>, id: U32, item: U32)
    requires tag == Wire(Tag.U) && SplitTag(StripTerminator(line)) == (tag, Some(body))
    requires |a| == 3 && SplitN(body, 3) == a && a[0] == PrintInt(id) && a[1] == PrintInt(item)
    ensures ParseLine(line) == Ok(Update(id, item, a[2]))
  {
    hide Wire, TagOf, SplitTag, StripTerminator, SplitN, PrintNat, ParseUnsigned, Decode, ParseI64;
    TagRoundTrip(Tag.U);
    UnsignedRoundTrip(id, U32_MAX);
    UnsignedRoundTrip(item, U32_MAX);
  }
}
