/**
 * Reassembly of octet runs into lines: the in-place buffer of the transports, and the pure splitter it refines however
 * the octets were cut into runs.
 */
module Framing {
  import opened Sequences
  import Utf8

  /** 8 MiB. */
  const MAX_LINE_BYTES: nat := 8 * 1024 * 1024

  datatype TransportError =
    | Capacity(limit: nat, held: nat)
    | MalformedFrame(validUpTo: nat)

  // ---- the pure splitter ----------------------------------------------------------------------------------------

  /** A piece without the one CR that may end it. */
  function StripCr(raw: seq<Byte>): seq<Byte> {
    if raw != [] && raw[|raw| - 1] == CR then raw[..|raw| - 1] else raw
  }

  /** The line one terminated piece holds: one CR stripped, and nothing when the rest is empty. */
  function LineOf(raw: seq<Byte>): seq<seq<Byte>> {
    var line := StripCr(raw);
    if line == [] then [] else [line]
  }

  function Kept(pieces: seq<seq<Byte>>): seq<seq<Byte>> {
    if pieces == [] then [] else LineOf(pieces[0]) + Kept(pieces[1..])
  }

  /** The lines an octet stream completes. */
  function Lines(b: seq<Byte>): seq<seq<Byte>> {
    var pieces := SplitOn(b, LF);
    Kept(pieces[..|pieces| - 1])
  }

  /** The unterminated rest of an octet stream. */
  function Tail(b: seq<Byte>): seq<Byte> {
    var pieces := SplitOn(b, LF);
    pieces[|pieces| - 1]
  }

  /** What popping a line yields: its text, or the report that it is no UTF-8. */
  function FromUtf8(line: seq<Byte>): (r: Result<seq<Byte>, TransportError>)
    ensures IsHandedOut(line, r)
  {
    Utf8.TextExactly(line);
    Utf8.ValidUpToExactly(line, Utf8.ValidUpTo(line));
    if Utf8.Valid(line) then Ok(line) else Err(MalformedFrame(Utf8.ValidUpTo(line)))
  }

  /** A line is handed out as it is exactly when scalars encode to it; otherwise the report says how far some do. */
  ghost predicate IsHandedOut(line: seq<Byte>, r: Result<seq<Byte>, TransportError>) {
    if Utf8.IsText(line) then r == Ok(line)
    else r.Err? && r.error.MalformedFrame? && Utf8.LongestText(line, r.error.validUpTo)
  }

  lemma {:induction false} KeptStep(head: seq<Byte>, rest: seq<seq<Byte>>)
    ensures Kept([head] + rest) == LineOf(head) + Kept(rest) && Kept([]) == []
  {
    hide LineOf;
    assert ([head] + rest)[1..] == rest;
  }

  lemma {:induction false} KeptConcat(p: seq<seq<Byte>>, q: seq<seq<Byte>>)
    ensures Kept(p + q) == Kept(p) + Kept(q)
  {
    hide LineOf, Kept;
    if p == [] {
      KeptStep([], q);
      assert p + q == q;
    } else {
      var head, rest := p[0], p[1..];
      KeptConcat(rest, q);
      KeptStep(head, rest);
      KeptStep(head, rest + q);
      assert p == [head] + rest && p + q == [head] + (rest + q);
    }
  }

  /** Only the unterminated rest of what came before matters for what follows. */
  lemma LinesConcat(a: seq<Byte>, b: seq<Byte>)
    ensures Lines(a + b) == Lines(a) + Lines(Tail(a) + b)
    ensures Tail(a + b) == Tail(Tail(a) + b)
  {
    SplitConcat(a, b, LF);
    var p, q := SplitOn(a, LF), SplitOn(Tail(a) + b, LF);
    var done, all := p[..|p| - 1], p[..|p| - 1] + q;
    assert all[..|all| - 1] == done + q[..|q| - 1];
    KeptConcat(done, q[..|q| - 1]);
  }

  /** A piece without a terminator completes nothing; one terminator completes exactly that piece. */
  lemma LinesOfPiece(piece: seq<Byte>)
    requires LF !in piece
    ensures Lines(piece) == [] && Tail(piece) == piece
    ensures Lines(piece + [LF]) == LineOf(piece) && Tail(piece + [LF]) == []
  {
    SplitOnStep(piece, LF);
    SplitOnCons(piece, LF, []);
    SplitOnStep([], LF);
    assert piece + [LF] + [] == piece + [LF];
    assert [piece, []][..1] == [piece];
    assert Kept([piece]) == LineOf(piece) + Kept([]);
  }

  // ---- the buffer -----------------------------------------------------------------------------------------------

  /** The abstract state of a buffer. */
  datatype State = State(partial: seq<Byte>, ready: seq<seq<Byte>>)

  const EMPTY := State([], [])

  /** Absorbing a run: the lines it completes become ready, and the rest is held unless it exceeds the ceiling. */
  function Push(s: State, bytes: seq<Byte>): Result<State, TransportError> {
    var held := Tail(s.partial + bytes);
    if |held| > MAX_LINE_BYTES then Err(Capacity(MAX_LINE_BYTES, |held|))
    else Ok(State(held, s.ready + Lines(s.partial + bytes)))
  }

  /** `LineBuffer`: every operation, with the state it leaves stated by the pure splitter. */
  class LineBuffer {
    var partial: seq<Byte>
    var scanned: nat
    var ready: seq<seq<Byte>>

    /** Between calls the held fragment has no terminator and has been scanned to its end. */
    ghost predicate Valid()
      reads this
    {
      scanned == |partial| <= MAX_LINE_BYTES && LF !in partial
    }

    ghost function View(): State
      reads this
    {
      State(partial, ready)
    }

    constructor ()
      ensures Valid() && View() == EMPTY
    {
      partial, scanned, ready := [], 0, [];
    }

    method PushBytes(bytes: seq<Byte>) returns (r: Result<(), TransportError>)
      requires Valid()
      modifies this
      ensures Valid()
      ensures r.Ok? <==> Push(old(View()), bytes).Ok?
      ensures r.Ok? ==> View() == Push(old(View()), bytes).value
      ensures r.Err? ==> r.error == Push(old(View()), bytes).error && View() == EMPTY
    {
      hide Lines, Tail, SplitOn, Kept, IndexFrom, StripCr;
      LinesOfPiece([]);
      partial := partial + bytes;
      ghost var all := partial;
      var consumed := 0;
      var cursor := scanned;
      var end := IndexFrom(partial, LF, cursor);
      assert all[..0] == [];
      while end < |partial|
        invariant partial == all && scanned == old(scanned) && consumed <= cursor <= end <= |all|
        invariant end < |all| ==> all[end] == LF
        invariant forall i :: consumed <= i < end ==> all[i] != LF
        invariant Tail(all[..consumed]) == []
        invariant ready == old(ready) + Lines(all[..consumed])
        decreases |all| - end, |all| - cursor
      {
        var raw := partial[consumed..end];
        var line := StripCr(raw);
        if line != [] {
          ready := ready + [line];
        }
        TakeLine(all, consumed, end);
        assert ready == old(ready) + Lines(all[..end + 1]);
        consumed := end + 1;
        cursor := consumed;
        end := IndexFrom(partial, LF, cursor);
      }
      TakeRest(all, consumed);
      if consumed > 0 {
        partial := partial[consumed..];
      }
      scanned := |partial|;
      if |partial| > MAX_LINE_BYTES {
        var held := |partial|;
        Clear();
        return Err(Capacity(MAX_LINE_BYTES, held));
      }
      return Ok(());
    }

    method PushMessage(text: seq<Byte>) returns (r: Result<(), TransportError>)
      requires Valid()
      modifies this
      ensures Valid()
      ensures r.Ok? <==> Push(old(View()), text).Ok?
      ensures r.Ok? ==> View() == Push(old(View()), text).value
      ensures r.Err? ==> r.error == Push(old(View()), text).error && View() == EMPTY
    {
      r := PushBytes(text);
    }

    method PopLine() returns (r: Option<Result<seq<Byte>, TransportError>>)
      requires Valid()
      modifies this
      ensures Valid() && partial == old(partial)
      ensures old(ready) == [] ==> r == None && ready == []
      ensures old(ready) != [] ==> r.Some? && IsHandedOut(old(ready)[0], r.value) && ready == old(ready)[1..]
    {
      if ready == [] {
        return None;
      }
      var bytes := ready[0];
      ready := ready[1..];
      return Some(FromUtf8(bytes));
    }

    /** The held fragment as a last line: what one more terminator would have completed. */
    method FlushPartial() returns (r: Option<Result<seq<Byte>, TransportError>>)
      requires Valid()
      modifies this
      ensures Valid() && partial == [] && ready == old(ready)
      ensures
        var last := Lines(old(partial) + [LF]);
        if last == [] then r == None else last == [last[0]] && r.Some? && IsHandedOut(last[0], r.value)
    {
      LinesOfPiece(partial);
      scanned := 0;
      if partial == [] {
        return None;
      }
      var raw := partial;
      partial := [];
      if raw[|raw| - 1] == CR {
        raw := raw[..|raw| - 1];
      }
      if raw == [] {
        return None;
      }
      return Some(FromUtf8(raw));
    }

    method DiscardPartial() returns (r: Option<nat>)
      requires Valid()
      modifies this
      ensures Valid() && partial == [] && ready == old(ready)
      ensures r == if old(partial) == [] then None else Some(|old(partial)|)
    {
      var held := |partial|;
      partial := [];
      scanned := 0;
      return if held > 0 then Some(held) else None;
    }

    method Clear()
      modifies this
      ensures Valid() && View() == EMPTY
    {
      partial, scanned, ready := [], 0, [];
    }
  }

  /** One more line is complete at a terminator. */
  lemma TakeLine(all: seq<Byte>, consumed: nat, end: nat)
    requires consumed <= end < |all| && all[end] == LF
    requires forall i :: consumed <= i < end ==> all[i] != LF
    requires Tail(all[..consumed]) == []
    ensures Lines(all[..end + 1]) == Lines(all[..consumed]) + LineOf(all[consumed..end])
    ensures Tail(all[..end + 1]) == []
  {
    hide Lines, Tail, SplitOn, Kept;
    var piece := all[consumed..end];
    LinesOfPiece(piece);
    LinesConcat(all[..consumed], piece + [LF]);
    assert all[..end + 1] == all[..consumed] + (piece + [LF]);
    assert [] + (piece + [LF]) == piece + [LF];
  }

  /** What follows the last terminator is the tail. */
  lemma TakeRest(all: seq<Byte>, consumed: nat)
    requires consumed <= |all|
    requires forall i :: consumed <= i < |all| ==> all[i] != LF
    requires Tail(all[..consumed]) == []
    ensures Lines(all) == Lines(all[..consumed]) && Tail(all) == all[consumed..]
  {
    hide Lines, Tail, SplitOn, Kept;
    LinesOfPiece(all[consumed..]);
    LinesConcat(all[..consumed], all[consumed..]);
    assert all == all[..consumed] + all[consumed..];
    assert [] + all[consumed..] == all[consumed..];
  }

  // ---- whole runs of the buffer -----------------------------------------------------------------------------------

  datatype Op = PushOp(bytes: seq<Byte>) | PopOp

  /** All the octets a sequence of operations pushes. */
  function Pushed(ops: seq<Op>): seq<Byte> {
    if ops == [] then []
    else
      var last := ops[|ops| - 1];
      Pushed(ops[..|ops| - 1]) + (if last.PushOp? then last.bytes else [])
  }

  datatype Outcome = Outcome(popped: seq<seq<Byte>>, state: State)

  /** A run of the buffer from empty, or the first push that was refused. */
  function Run(ops: seq<Op>): Result<Outcome, TransportError> {
    if ops == [] then Ok(Outcome([], EMPTY))
    else
      var before :- Run(ops[..|ops| - 1]);
      match ops[|ops| - 1]
      case PushOp(bytes) =>
        var state :- Push(before.state, bytes);
        Ok(before.(state := state))
      case PopOp =>
        if before.state.ready == [] then Ok(before)
        else
          Ok(Outcome(before.popped + [before.state.ready[0]],
                     before.state.(ready := before.state.ready[1..])))
  }

  /**
   * The buffer refines the splitter: after any sequence of pushes and pops, the popped and the ready lines together
   * are the lines of the concatenated input, and the fragment held is its tail. How the input was cut is irrelevant.
   */
  lemma {:induction false} RunRefinesSplitter(ops: seq<Op>)
    requires Run(ops).Ok?
    ensures
      var r := Run(ops).value;
      r.popped + r.state.ready == Lines(Pushed(ops)) && r.state.partial == Tail(Pushed(ops))
  {
    hide Lines, Tail, SplitOn, Kept;
    LinesOfPiece([]);
    if ops != [] {
      var init, last := ops[..|ops| - 1], ops[|ops| - 1];
      RunRefinesSplitter(init);
      var before := Run(init).value;
      match last
      case PushOp(bytes) =>
        LinesConcat(Pushed(init), bytes);
      case PopOp =>
        assert Pushed(ops) == Pushed(init);
        var ready := before.state.ready;
        if ready != [] {
          assert before.popped + [ready[0]] + ready[1..] == before.popped + ready;
        }
    }
  }

  /** Whether an octet stream ends in a fragment longer than the ceiling, 8 MiB. */
  predicate TooLong(b: seq<Byte>) {
    |Tail(b)| > 0x80_0000
  }

  /** The first place in a run at which the fragment is too long. */
  ghost predicate FirstTooLong(ops: seq<Op>, i: nat) {
    && i <= |ops| && TooLong(Pushed(ops[..i]))
    && forall j :: 0 <= j < i ==> !TooLong(Pushed(ops[..j]))
  }

  /** What a run is refused with there. */
  ghost predicate RefusedAt(ops: seq<Op>, i: nat) {
    FirstTooLong(ops, i) && Run(ops) == Err(Capacity(0x80_0000, |Tail(Pushed(ops[..i]))|))
  }

  lemma {:induction false} RunSnoc(init: seq<Op>, op: Op)
    ensures Run(init).Err? ==> Run(init + [op]) == Run(init)
    ensures Run(init).Ok? && op.PopOp? ==> Run(init + [op]).Ok?
    ensures Run(init).Ok? && op.PushOp? ==>
              var pushed := Push(Run(init).value.state, op.bytes);
              && Run(init + [op]).Ok? == pushed.Ok?
              && (pushed.Err? ==> Run(init + [op]) == Err(pushed.error))
    ensures Pushed(init + [op]) == if op.PushOp? then Pushed(init) + op.bytes else Pushed(init)
  {
    hide Push;
    assert (init + [op])[..|init|] == init;
  }

  lemma OneMoreOp(init: seq<Op>, op: Op)
    requires Run(init).Ok? && !TooLong(Pushed(init))
    ensures var ops := init + [op];
            && (Run(ops).Err? <==> TooLong(Pushed(ops)))
            && (Run(ops).Err? ==> Run(ops) == Err(Capacity(0x80_0000, |Tail(Pushed(ops))|)))
  {
    hide Lines, Run, Pushed, Tail;
    RunSnoc(init, op);
    RunRefinesSplitter(init);
    if op.PushOp? {
      LinesConcat(Pushed(init), op.bytes);
    }
  }

  /**
   * A run is refused exactly when some prefix of it leaves a fragment longer than the ceiling, with the length of the
   * first such fragment. Only that leftover counts: a line of any length that arrives whole passes.
   */
  lemma {:induction false} RefusedExactlyWhenTailTooLong(ops: seq<Op>)
    ensures Run(ops).Err? <==> exists i :: 0 <= i <= |ops| && TooLong(Pushed(ops[..i]))
    ensures Run(ops).Err? ==> exists i :: 0 <= i <= |ops| && RefusedAt(ops, i)
  {
    hide Lines, Tail, Run, Pushed, TooLong;
    if ops == [] {
      NothingRun();
      assert forall i :: 0 <= i <= |ops| ==> ops[..i] == [];
    } else {
      var n := |ops| - 1;
      var init := ops[..n];
      assert ops == init + [ops[n]] && ops[..|ops|] == ops;
      assert forall i :: 0 <= i <= n ==> init[..i] == ops[..i];
      RefusedExactlyWhenTailTooLong(init);
      RunSnoc(init, ops[n]);
      if Run(init).Ok? {
        assert init[..n] == init;
        OneMoreOp(init, ops[n]);
        if Run(ops).Err? {
          assert RefusedAt(ops, |ops|);
        }
      } else {
        var i :| 0 <= i <= |init| && RefusedAt(init, i);
        assert RefusedAt(ops, i);
      }
    }
  }

  lemma NothingRun()
    ensures Run([]).Ok? && !TooLong(Pushed([]))
  {
    LinesOfPiece([]);
  }

  // ---- what the sender put on its lines ----------------------------------------------------------------------------

  /** One line as it is sent: its content, which ends in CR only if a CR follows it, and its terminator. */
  datatype Item = Item(content: seq<Byte>, cr: bool)

  predicate Proper(i: Item) {
    LF !in i.content && (i.content != [] && i.content[|i.content| - 1] == CR ==> i.cr)
  }

  predicate AllProper(items: seq<Item>) {
    forall i :: 0 <= i < |items| ==> Proper(items[i])
  }

  function Sent(i: Item): seq<Byte> {
    i.content + Ascii(if i.cr then "\r\n" else "\n")
  }

  function AllSent(items: seq<Item>): seq<Byte> {
    if items == [] then [] else Sent(items[0]) + AllSent(items[1..])
  }

  /** The contents that are not empty. */
  function Contents(items: seq<Item>): seq<seq<Byte>> {
    if items == [] then []
    else (if items[0].content == [] then [] else [items[0].content]) + Contents(items[1..])
  }

  lemma SentIsPiece(i: Item)
    requires Proper(i)
    ensures var piece := i.content + (if i.cr then [CR] else []);
            && Sent(i) == piece + [LF] && LF !in piece
            && LineOf(piece) == (if i.content == [] then [] else [i.content])
  {
    var piece := i.content + (if i.cr then [CR] else []);
    assert Sent(i) == piece + [LF];
    assert i.cr ==> piece[..|piece| - 1] == i.content;
    assert !i.cr ==> piece == i.content;
  }

  /** The lines of a stream are exactly the contents that were sent and are not empty, and the rest is its tail. */
  lemma {:induction false} LinesAreContents(items: seq<Item>, rest: seq<Byte>)
    requires AllProper(items) && LF !in rest
    ensures Lines(AllSent(items) + rest) == Contents(items) && Tail(AllSent(items) + rest) == rest
  {
    hide Lines, Tail, Proper, Sent, LineOf;
    if items == [] {
      LinesOfPiece(rest);
      assert [] + rest == rest;
    } else {
      var i, others := items[0], AllSent(items[1..]);
      SentIsPiece(i);
      LinesAreContents(items[1..], rest);
      LinesOfPiece(i.content + (if i.cr then [CR] else []));
      LinesConcat(Sent(i), others + rest);
      assert Sent(i) + others + rest == Sent(i) + (others + rest);
      assert [] + (others + rest) == others + rest;
    }
  }

  /** And every stream was sent so. */
  lemma {:induction false} EveryStreamIsSent(b: seq<Byte>) returns (items: seq<Item>, rest: seq<Byte>)
    ensures AllProper(items) && LF !in rest && b == AllSent(items) + rest
    decreases |b|
  {
    var k := IndexOf(b, LF);
    if k == |b| {
      items, rest := [], b;
      assert [] + b == b;
    } else {
      var others;
      others, rest := EveryStreamIsSent(b[k + 1..]);
      var cr := k > 0 && b[k - 1] == CR;
      var i := Item(if cr then b[..k - 1] else b[..k], cr);
      items := [i] + others;
      assert items[1..] == others;
      assert b == b[..k] + [LF] + b[k + 1..];
      assert Sent(i) == b[..k] + [LF];
      assert Sent(i) + AllSent(others) + rest == Sent(i) + (AllSent(others) + rest);
    }
  }

  /**
   * If the octets pushed so far begin a valid UTF-8 stream, every line popped or ready decodes without error, even when
   * the pushes, or the stream so far, end inside a multi-byte character.
   */
  lemma LinesOfValidStreamDecode(ops: seq<Op>, rest: seq<Byte>)
    requires Run(ops).Ok?
    requires Utf8.Valid(Pushed(ops) + rest)
    ensures
      var r := Run(ops).value;
      forall line :: line in r.popped + r.state.ready ==> FromUtf8(line) == Ok(line)
  {
    hide Utf8.ValidUpTo, Kept, SplitOn;
    RunRefinesSplitter(ops);
    var b := Pushed(ops);
    Utf8.SplitIsValid(b + rest, LF);
    SplitConcat(b, rest, LF);
    var pieces := SplitOn(b, LF);
    var done := pieces[..|pieces| - 1];
    assert forall i :: 0 <= i < |done| ==> done[i] == SplitOn(b + rest, LF)[i];
    KeptIsValid(done);
  }

  /** Dropping an ASCII terminator keeps a piece valid. */
  lemma {:induction false} KeptIsValid(pieces: seq<seq<Byte>>)
    requires forall i :: 0 <= i < |pieces| ==> Utf8.Valid(pieces[i])
    ensures forall line :: line in Kept(pieces) ==> Utf8.Valid(line)
  {
    if pieces != [] {
      var raw := pieces[0];
      if raw != [] && raw[|raw| - 1] == CR {
        Utf8.ValidAroundAscii(raw[..|raw| - 1], CR, []);
        assert raw[..|raw| - 1] + [CR] + [] == raw;
      }
      KeptIsValid(pieces[1..]);
    }
  }
}
