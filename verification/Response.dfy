/** Parsing of one server line into its typed notification. */
module Response {
  import opened Sequences
  import opened Numbers
  import Escaping

  const COMMA: Byte := 44
  const STAR: Byte := 42

  const UNLIMITED := Ascii("unlimited")
  const UNMANAGED := Ascii("unmanaged")
  const FILTERED := Ascii("filtered")
  const UNFILTERED := Ascii("unfiltered")

  type Text = seq<Byte>

  datatype ProtocolError =
    | UnknownTag(tag: Text, line: Text)
    | ArgumentCount(tag: Text, expected: nat, found: nat)
    | NotNumeric(tag: Text, argument: string, value: Text)
    | BadEscape(position: nat, reason: Escaping.Reason)

  datatype MaxFrequency = Unlimited | Limited(updatesPerSecond: Text) | UnrecognizedFrequency(literal: Text)

  datatype FilteringMode = Filtered | Unfiltered | UnrecognizedFiltering(literal: Text)

  datatype Bandwidth =
    | UnlimitedBandwidth | Unmanaged | LimitedBandwidth(kbps: Text) | UnrecognizedBandwidth(literal: Text)

  datatype MessageSequence = Unspecified | Named(name: Text)

  /** One line from the server in its typed form: one constructor for each wire tag. */
  datatype Notification =
    | Update(subscriptionId: U32, itemIndex: U32, rawValues: Text)
    | SubscriptionOk(subscriptionId: U32, itemCount: U32, fieldCount: U32)
    | SubscriptionCommandOk(subscriptionId: U32, itemCount: U32, fieldCount: U32, keyField: U32, commandField: U32)
    | Unsubscribed(subscriptionId: U32)
    | EndOfSnapshot(subscriptionId: U32, itemIndex: U32)
    | ClearSnapshot(subscriptionId: U32, itemIndex: U32)
    | Overflow(subscriptionId: U32, itemIndex: U32, droppedCount: U64)
    | Reconfigured(subscriptionId: U32, maxFrequency: MaxFrequency, filtering: FilteringMode)
    | MessageDone(sequence: MessageSequence, prog: U64, response: Text)
    | MessageFailed(sequence: MessageSequence, prog: U64, code: I64, message: Text)
    | ConstraintsChanged(bandwidth: Bandwidth)
    | Sync(elapsedSeconds: U64)
    | ClientIp(address: Text)
    | ServerName(name: Text)
    | Progressive(progressive: U64)
    | NoOp(preamble: Text)
    | Probe
    | Loop(expectedDelayMillis: U64)
    | End(causeCode: I64, causeMessage: Text)
    | ConnectionOk(sessionId: Text, requestLimitBytes: U64, keepAliveMillis: U64, controlLink: Option<Text>)
    | ConnectionError(code: I64, message: Text)
    | RequestOk(requestId: Option<Text>)
    | RequestError(id: Text, code: I64, message: Text)
    | Error(code: I64, message: Text)
    | WsOk

  /** The tags this client knows. */
  datatype Tag =
    | U | SUBOK | SUBCMD | UNSUB | EOS | CS | OV | CONF | MSGDONE | MSGFAIL | CONS | SYNC | CLIENTIP | SERVNAME
    | PROG | NOOP | PROBE | LOOP | END | CONOK | CONERR | REQOK | REQERR | ERROR | WSOK

  function TagName(t: Tag): string {
    match t
    case U => "U" case SUBOK => "SUBOK" case SUBCMD => "SUBCMD" case UNSUB => "UNSUB" case EOS => "EOS"
    case CS => "CS" case OV => "OV" case CONF => "CONF" case MSGDONE => "MSGDONE" case MSGFAIL => "MSGFAIL"
    case CONS => "CONS" case SYNC => "SYNC" case CLIENTIP => "CLIENTIP" case SERVNAME => "SERVNAME"
    case PROG => "PROG" case NOOP => "NOOP" case PROBE => "PROBE" case LOOP => "LOOP" case END => "END"
    case CONOK => "CONOK" case CONERR => "CONERR" case REQOK => "REQOK" case REQERR => "REQERR"
    case ERROR => "ERROR" case WSOK => "WSOK"
  }

  /** The fixed argument count of each tag; `REQOK` is the one that may also come bare. */
  function Arity(t: Tag): nat {
    match t
    case PROBE => 0 case WSOK => 0
    case UNSUB => 1 case CONS => 1 case SYNC => 1 case CLIENTIP => 1 case SERVNAME => 1 case PROG => 1
    case NOOP => 1 case LOOP => 1 case REQOK => 1
    case EOS => 2 case CS => 2 case END => 2 case CONERR => 2 case ERROR => 2
    case U => 3 case SUBOK => 3 case OV => 3 case CONF => 3 case MSGDONE => 3 case REQERR => 3
    case MSGFAIL => 4 case CONOK => 4
    case SUBCMD => 5
  }

  const TAGS: seq<Tag> :=
    [ U, SUBOK, SUBCMD, UNSUB, EOS, CS, OV, CONF, MSGDONE, MSGFAIL, CONS, SYNC, CLIENTIP, SERVNAME,
      PROG, NOOP, PROBE, LOOP, END, CONOK, CONERR, REQOK, REQERR, ERROR, WSOK ]

  /** A tag's octets on the wire. */
  function Wire(t: Tag): Text {
    Ascii(TagName(t))
  }

  /** The tag that some octets name, looked up among the known ones in order. */
  function TagOf(b: Text): Option<Tag> {
    FindTag(b, TAGS)
  }

  function FindTag(b: Text, tags: seq<Tag>): (t: Option<Tag>)
    ensures t.Some? ==> t.value in tags && Wire(t.value) == b
    ensures t.None? ==> forall i :: 0 <= i < |tags| ==> Wire(tags[i]) != b
  {
    if tags == [] then None
    else if b == Wire(tags[0]) then Some(tags[0])
    else FindTag(b, tags[1..])
  }

  /** At most one trailing terminator is removed. */
  function StripTerminator(line: Text): Text {
    var n := |line|;
    if n >= 2 && line[n - 2..] == [CR, LF] then line[..n - 2]
    else if n >= 1 && line[n - 1] == LF then line[..n - 1]
    else if n >= 1 && line[n - 1] == CR then line[..n - 1]
    else line
  }

  // ---- splitting into a fixed number of arguments -----------------------------------------------------------------

  /** Up to `n` pieces at the first commas; the last piece keeps every further comma. */
  function SplitN(s: Text, n: nat): (parts: seq<Text>)
    requires n > 0
    ensures 1 <= |parts| <= n
    decreases n
  {
    var k := IndexOf(s, COMMA);
    if n == 1 || k == |s| then [s] else [s[..k]] + SplitN(s[k + 1..], n - 1)
  }

  function Arguments(tag: Text, rest: Option<Text>, n: nat): (r: Result<seq<Text>, ProtocolError>)
    ensures r.Ok? ==> |r.value| == n
  {
    match rest
    case None => if n == 0 then Ok([]) else Err(ArgumentCount(tag, n, 0))
    case Some(text) =>
      if n == 0 then Err(ArgumentCount(tag, 0, |SplitOn(text, COMMA)|))
      else
        var parts := SplitN(text, n);
        if |parts| == n then Ok(parts) else Err(ArgumentCount(tag, n, |parts|))
  }

  /** Splitting peels off one piece at a time. */
  lemma {:induction false} SplitNStep(s: Text, n: nat)
    requires n > 0
    ensures var k := IndexOf(s, COMMA);
            SplitN(s, n) == if n == 1 || k == |s| then [s] else [s[..k]] + SplitN(s[k + 1..], n - 1)
  {
  }

  lemma Regrouped<T>(filled: seq<T>, next: T, rest: seq<T>)
    ensures filled + ([next] + rest) == filled + [next] + rest
  {
  }

  /** `split_fixed`: the array of arguments, filled slot by slot from the splitting iterator. */
  method SplitFixed(tag: Text, rest: Option<Text>, n: nat) returns (r: Result<seq<Text>, ProtocolError>)
    ensures r == Arguments(tag, rest, n)
  {
    hide SplitN, SplitOn;
    if rest.None? {
      if n == 0 {
        return Ok([]);
      }
      return Err(ArgumentCount(tag, n, 0));
    }
    if n == 0 {
      return Err(ArgumentCount(tag, 0, |SplitOn(rest.value, COMMA)|));
    }
    var arguments := new Text[n](_ => []);
    var parts := rest;
    ghost var all := SplitN(rest.value, n);
    for index := 0 to n
      invariant index < n && parts.Some? ==> all == arguments[..index] + SplitN(parts.value, n - index)
      invariant parts.None? ==> index > 0 && all == arguments[..index]
      invariant index == n ==> parts.None?
    {
      if parts.None? {
        return Err(ArgumentCount(tag, n, index));
      }
      var text := parts.value;
      var k := IndexOf(text, COMMA);
      SplitNStep(text, n - index);
      ghost var filled := arguments[..index];
      if index == n - 1 || k == |text| {
        arguments[index] := text;
        parts := None;
        assert arguments[..index + 1] == filled + [text];
      } else {
        arguments[index] := text[..k];
        parts := Some(text[k + 1..]);
        assert arguments[..index + 1] == filled + [text[..k]];
        Regrouped(filled, text[..k], SplitN(text[k + 1..], n - index - 1));
      }
    }
    assert arguments[..] == arguments[..n];
    return Ok(arguments[..]);
  }

  // ---- typed arguments -------------------------------------------------------------------------------------------

  function Decode(argument: Text): Result<Text, ProtocolError> {
    match Escaping.PercentDecode(argument)
    case Ok(text) => Ok(text)
    case Err(e) => Err(BadEscape(e.position, e.reason))
  }

  function NumberU32(tag: Text, argument: string, value: Text): Result<U32, ProtocolError> {
    match ParseUnsigned(value, U32_MAX)
    case Some(n) => Ok(n)
    case None => Err(NotNumeric(tag, argument, value))
  }

  function NumberU64(tag: Text, argument: string, value: Text): Result<U64, ProtocolError> {
    match ParseUnsigned(value, U64_MAX)
    case Some(n) => Ok(n)
    case None => Err(NotNumeric(tag, argument, value))
  }

  function NumberI64(tag: Text, argument: string, value: Text): Result<I64, ProtocolError> {
    match ParseI64(value)
    case Some(n) => Ok(n)
    case None => Err(NotNumeric(tag, argument, value))
  }

  function ParseMaxFrequency(argument: Text): MaxFrequency {
    if argument == UNLIMITED then Unlimited
    else if IsDecimal(argument) then Limited(argument)
    else UnrecognizedFrequency(argument)
  }

  function ParseBandwidth(argument: Text): Bandwidth {
    if argument == UNLIMITED then UnlimitedBandwidth
    else if argument == UNMANAGED then Unmanaged
    else if IsDecimal(argument) then LimitedBandwidth(argument)
    else UnrecognizedBandwidth(argument)
  }

  function ParseFiltering(argument: Text): FilteringMode {
    if argument == FILTERED then Filtered
    else if argument == UNFILTERED then Unfiltered
    else UnrecognizedFiltering(argument)
  }

  function ParseSequence(argument: Text): MessageSequence {
    if argument == [STAR] then Unspecified else Named(argument)
  }

  // ---- the line ---------------------------------------------------------------------------------------------------

  /** The tag and what follows its comma. */
  function SplitTag(line: Text): (Text, Option<Text>) {
    var k := IndexOf(line, COMMA);
    if k == |line| then (line, None) else (line[..k], Some(line[k + 1..]))
  }

  /** `parse_line`. */
  function ParseLine(input: Text): Result<Notification, ProtocolError> {
    var line := StripTerminator(input);
    var (tag, rest) := SplitTag(line);
    match TagOf(tag)
    case None => Err(UnknownTag(tag, line))
    case Some(t) =>
      if t == REQOK && rest.None? then Ok(RequestOk(None))
      else
        var a :- Arguments(tag, rest, Arity(t));
        Interpret(t, a)
  }

  /** The arm of each tag, on its arguments, in the order in which the source reads them. */
  function Interpret(t: Tag, a: seq<Text>): Result<Notification, ProtocolError>
    requires |a| == Arity(t)
  {
    var tag := Wire(t);
    match t
    case U =>
      var id :- NumberU32(tag, "subscription-ID", a[0]);
      var item :- NumberU32(tag, "item", a[1]);
      Ok(Update(id, item, a[2]))
    case SUBOK =>
      var id :- NumberU32(tag, "subscription-ID", a[0]);
      var items :- NumberU32(tag, "num-items", a[1]);
      var fields :- NumberU32(tag, "num-fields", a[2]);
      Ok(SubscriptionOk(id, items, fields))
    case SUBCMD =>
      var id :- NumberU32(tag, "subscription-ID", a[0]);
      var items :- NumberU32(tag, "num-items", a[1]);
      var fields :- NumberU32(tag, "num-fields", a[2]);
      var key :- NumberU32(tag, "key-field", a[3]);
      var command :- NumberU32(tag, "command-field", a[4]);
      Ok(SubscriptionCommandOk(id, items, fields, key, command))
    case UNSUB =>
      var id :- NumberU32(tag, "subscription-ID", a[0]);
      Ok(Unsubscribed(id))
    case EOS =>
      var id :- NumberU32(tag, "subscription-ID", a[0]);
      var item :- NumberU32(tag, "item", a[1]);
      Ok(EndOfSnapshot(id, item))
    case CS =>
      var id :- NumberU32(tag, "subscription-ID", a[0]);
      var item :- NumberU32(tag, "item", a[1]);
      Ok(ClearSnapshot(id, item))
    case OV =>
      var id :- NumberU32(tag, "subscription-ID", a[0]);
      var item :- NumberU32(tag, "item", a[1]);
      var size :- NumberU64(tag, "overflow-size", a[2]);
      Ok(Overflow(id, item, size))
    case CONF =>
      var id :- NumberU32(tag, "subscription-ID", a[0]);
      var frequency :- Decode(a[1]);
      var filtering :- Decode(a[2]);
      Ok(Reconfigured(id, ParseMaxFrequency(frequency), ParseFiltering(filtering)))
    case MSGDONE =>
      var sequence :- Decode(a[0]);
      var prog :- NumberU64(tag, "prog", a[1]);
      var response :- Decode(a[2]);
      Ok(MessageDone(ParseSequence(sequence), prog, response))
    case MSGFAIL =>
      var sequence :- Decode(a[0]);
      var prog :- NumberU64(tag, "prog", a[1]);
      var code :- NumberI64(tag, "error-code", a[2]);
      var message :- Decode(a[3]);
      Ok(MessageFailed(ParseSequence(sequence), prog, code, message))
    case CONS =>
      var bandwidth :- Decode(a[0]);
      Ok(ConstraintsChanged(ParseBandwidth(bandwidth)))
    case SYNC =>
      var seconds :- NumberU64(tag, "seconds-since-initial-header", a[0]);
      Ok(Sync(seconds))
    case CLIENTIP =>
      var address :- Decode(a[0]);
      Ok(ClientIp(address))
    case SERVNAME =>
      var name :- Decode(a[0]);
      Ok(ServerName(name))
    case PROG =>
      var progressive :- NumberU64(tag, "progressive", a[0]);
      Ok(Progressive(progressive))
    case NOOP =>
      var preamble :- Decode(a[0]);
      Ok(NoOp(preamble))
    case PROBE => Ok(Probe)
    case LOOP =>
      var delay :- NumberU64(tag, "expected-delay", a[0]);
      Ok(Loop(delay))
    case END =>
      var code :- NumberI64(tag, "cause-code", a[0]);
      var message :- Decode(a[1]);
      Ok(End(code, message))
    case CONOK =>
      var link :- Decode(a[3]);
      var id :- Decode(a[0]);
      var limit :- NumberU64(tag, "request-limit", a[1]);
      var keepAlive :- NumberU64(tag, "keep-alive", a[2]);
      Ok(ConnectionOk(id, limit, keepAlive, if link == [STAR] then None else Some(link)))
    case CONERR =>
      var code :- NumberI64(tag, "error-code", a[0]);
      var message :- Decode(a[1]);
      Ok(ConnectionError(code, message))
    case REQOK =>
      var id :- Decode(a[0]);
      Ok(RequestOk(Some(id)))
    case REQERR =>
      var id :- Decode(a[0]);
      var code :- NumberI64(tag, "error-code", a[1]);
      var message :- Decode(a[2]);
      Ok(RequestError(id, code, message))
    case ERROR =>
      var code :- NumberI64(tag, "error-code", a[0]);
      var message :- Decode(a[1]);
      Ok(Error(code, message))
    case WSOK => Ok(WsOk)
  }
}
