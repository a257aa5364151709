/**
 * The two requests with the most rules, `add` and `msg`: encoded step by step, and read back by a server as
 * themselves.
 */
module Encoders {
  import opened Sequences
  import opened Numbers
  import opened Request
  import Escaping
  import Utf8

  datatype TransportKind = Http | HttpBatched | WebSocket

  datatype SubscriptionMode = RawMode | MergeMode | DistinctMode | CommandMode

  datatype Frequency = UnlimitedRate | UnfilteredRate | LimitedRate(rate: DecimalNumber)

  datatype BufferSize = UnlimitedBuffer | Events(count: Positive)

  datatype Snapshot = Off | On | Length(count: Positive)

  datatype Subscribe = Subscribe(
    session: Option<Str>, requestId: RequestId, subscriptionId: Positive, group: Str, schema: Str,
    mode: SubscriptionMode, dataAdapter: Option<Str>, selector: Option<Str>, bufferSize: Option<BufferSize>,
    maxFrequency: Option<Frequency>, snapshot: Option<Snapshot>, ack: Option<bool>)

  datatype MessageSend = MessageSend(
    session: Option<Str>, requestId: RequestId, message: Str, sequence: Option<SequenceName>, prog: Option<Positive>,
    maxWait: Option<U64>, ack: Option<bool>, outcome: Option<bool>)

  const UNLIMITED := Ascii("unlimited")
  const UNFILTERED := Ascii("unfiltered")
  const ADD := Ascii("add")
  const RAW := Ascii("RAW")
  const MERGE := Ascii("MERGE")
  const DISTINCT := Ascii("DISTINCT")
  const COMMAND := Ascii("COMMAND")

  function ModeText(m: SubscriptionMode): Text {
    match m
    case RawMode => RAW
    case MergeMode => MERGE
    case DistinctMode => DISTINCT
    case CommandMode => COMMAND
  }

  function FrequencyText(f: Frequency): Text {
    match f
    case UnlimitedRate => UNLIMITED
    case UnfilteredRate => UNFILTERED
    case LimitedRate(rate) => rate
  }

  // ---- which combinations are admitted -----------------------------------------------------------------------------

  /** `Subscribe::validate`. */
  function ValidateSubscribe(s: Subscribe): Result<(), RequestError> {
    if s.snapshot.Some? && s.snapshot.value.Length? && s.mode != DistinctMode then Err(SnapshotLengthNeedsDistinct)
    else if s.snapshot == Some(On) && s.mode == RawMode then Err(SnapshotIgnored)
    else if s.maxFrequency.Some? && !s.maxFrequency.value.UnlimitedRate? && s.mode == RawMode then Err(FrequencyIgnored)
    else if s.bufferSize.Some? && s.mode != MergeMode && s.mode != DistinctMode then Err(BufferIgnored)
    else if s.bufferSize.Some? && s.maxFrequency == Some(UnfilteredRate) then Err(BufferUnfiltered)
    else Ok(())
  }

  /** `MessageSend::validate`. */
  function ValidateMessage(m: MessageSend): Result<(), RequestError> {
    if m.prog.None? && (m.sequence.Some? || m.outcome != Some(false)) then Err(ProgressiveRequired)
    else if m.maxWait.Some? && m.sequence.None? then Err(MaxWaitIgnored)
    else Ok(())
  }

  /** The rules of the server that a subscription breaks, or would have a parameter ignored under. */
  predicate Breaks(s: Subscribe, rule: RequestError) {
    match rule
    case SnapshotLengthNeedsDistinct => s.snapshot.Some? && s.snapshot.value.Length? && !s.mode.DistinctMode?
    case SnapshotIgnored => s.mode.RawMode? && s.snapshot == Some(On)
    case FrequencyIgnored => s.mode.RawMode? && s.maxFrequency != None && s.maxFrequency != Some(UnlimitedRate)
    case BufferIgnored => s.bufferSize.Some? && (s.mode.RawMode? || s.mode.CommandMode?)
    case BufferUnfiltered => s.bufferSize.Some? && s.maxFrequency == Some(UnfilteredRate)
    case _ => false
  }

  /** The order in which they are checked. */
  const RULES := [SnapshotLengthNeedsDistinct, SnapshotIgnored, FrequencyIgnored, BufferIgnored, BufferUnfiltered]

  /** The first rule broken. */
  predicate FirstBroken(s: Subscribe, rule: RequestError) {
    exists i :: 0 <= i < |RULES| && RULES[i] == rule && Breaks(s, RULES[i])
                && forall j :: 0 <= j < i ==> !Breaks(s, RULES[j])
  }

  predicate BreaksNone(s: Subscribe) {
    forall i :: 0 <= i < |RULES| ==> !Breaks(s, RULES[i])
  }

  lemma SubscribeRefusedExactly(s: Subscribe)
    ensures ValidateSubscribe(s).Ok? <==> BreaksNone(s)
    ensures forall rule :: ValidateSubscribe(s) == Err(rule) <==> FirstBroken(s, rule)
  {
    hide Breaks;
    BreaksIs(s);
    var v := ValidateSubscribe(s);
    if v.Err? {
      var i := match v.error
        case SnapshotLengthNeedsDistinct => 0 case SnapshotIgnored => 1 case FrequencyIgnored => 2
        case BufferIgnored => 3 case _ => 4;
      assert RULES[i] == v.error;
      assert FirstBroken(s, v.error);
    }
  }

  lemma BreaksIs(s: Subscribe)
    ensures ValidateSubscribe(s)
         == if Breaks(s, RULES[0]) then Err(RULES[0])
            else if Breaks(s, RULES[1]) then Err(RULES[1])
            else if Breaks(s, RULES[2]) then Err(RULES[2])
            else if Breaks(s, RULES[3]) then Err(RULES[3])
            else if Breaks(s, RULES[4]) then Err(RULES[4])
            else Ok(())
  {
    assert s.maxFrequency.Some? && s.maxFrequency.value.UnlimitedRate? ==> s.maxFrequency == Some(UnlimitedRate);
    match s.mode
    case RawMode =>
    case MergeMode =>
    case DistinctMode =>
    case CommandMode =>
  }

  /** A message needs a progressive in a sequence, and whenever its outcome is wanted, which it is unless declined. */
  predicate NeedsProgressive(m: MessageSend) {
    m.sequence.Some? || m.outcome == None || m.outcome == Some(true)
  }

  lemma MessageRefusedExactly(m: MessageSend)
    ensures ValidateMessage(m) == Err(ProgressiveRequired) <==> NeedsProgressive(m) && m.prog == None
    ensures ValidateMessage(m) == Err(MaxWaitIgnored) <==>
            m.maxWait != None && m.sequence == None && !(NeedsProgressive(m) && m.prog == None)
    ensures ValidateMessage(m).Ok? <==>
            (NeedsProgressive(m) ==> m.prog != None) && (m.maxWait != None ==> m.sequence != None)
  {
    assert m.outcome.Some? ==> m.outcome == Some(if m.outcome.value then true else false);
  }

  // ---- parameter names ---------------------------------------------------------------------------------------------

  datatype ParamName =
    | SESSION | REQ_ID | OP | SUB_ID | GROUP | SCHEMA | DATA_ADAPTER | MODE | SELECTOR | BUFFER_SIZE | MAX_FREQUENCY
    | SNAPSHOT | ACK | SEQUENCE | MSG_PROG | MAX_WAIT | OUTCOME | MESSAGE

  function NameText(n: ParamName): (s: string)
    ensures s != "" && forall i :: 0 <= i < |s| ==> 'A' <= s[i] <= 'z'
  {
    match n
    case SESSION => "LS_session" case REQ_ID => "LS_reqId" case OP => "LS_op" case SUB_ID => "LS_subId"
    case GROUP => "LS_group" case SCHEMA => "LS_schema" case DATA_ADAPTER => "LS_data_adapter" case MODE => "LS_mode"
    case SELECTOR => "LS_selector" case BUFFER_SIZE => "LS_requested_buffer_size"
    case MAX_FREQUENCY => "LS_requested_max_frequency" case SNAPSHOT => "LS_snapshot" case ACK => "LS_ack"
    case SEQUENCE => "LS_sequence" case MSG_PROG => "LS_msg_prog" case MAX_WAIT => "LS_max_wait"
    case OUTCOME => "LS_outcome" case MESSAGE => "LS_message"
  }

  function NameWire(n: ParamName): Name {
    NameIsUnframed(n);
    Ascii(NameText(n))
  }

  lemma NameIsUnframed(n: ParamName)
    ensures Unframed(Ascii(NameText(n)))
  {
    hide NameText;
    var w := Ascii(NameText(n));
    assert forall i :: 0 <= i < |w| ==> w[i] >= 65;
  }

  /** The parameters of TLCP as a server knows them. */
  const KNOWN: seq<(string, ParamName)> :=
    [ ("LS_ack", ACK), ("LS_data_adapter", DATA_ADAPTER), ("LS_group", GROUP), ("LS_max_wait", MAX_WAIT),
      ("LS_message", MESSAGE), ("LS_mode", MODE), ("LS_msg_prog", MSG_PROG), ("LS_op", OP), ("LS_outcome", OUTCOME),
      ("LS_reqId", REQ_ID), ("LS_requested_buffer_size", BUFFER_SIZE), ("LS_requested_max_frequency", MAX_FREQUENCY),
      ("LS_schema", SCHEMA), ("LS_selector", SELECTOR), ("LS_sequence", SEQUENCE), ("LS_session", SESSION),
      ("LS_snapshot", SNAPSHOT), ("LS_subId", SUB_ID) ]

  /** Whether some octets are an ASCII text. */
  predicate Are(b: Text, s: string) {
    |b| == |s| && forall i :: 0 <= i < |b| ==> b[i] as char == s[i]
  }

  function NameOf(b: Text): Option<ParamName> {
    FindName(b, KNOWN)
  }

  function FindName(b: Text, known: seq<(string, ParamName)>): (n: Option<ParamName>)
    ensures n.Some? ==> exists i :: 0 <= i < |known| && Are(b, known[i].0) && n.value == known[i].1
    ensures n.None? ==> forall i :: 0 <= i < |known| ==> !Are(b, known[i].0)
  {
    if known == [] then None
    else if Are(b, known[0].0) then Some(known[0].1)
    else
      var n := FindName(b, known[1..]);
      assert n.Some? ==> exists i :: 1 <= i < |known| && Are(b, known[i].0) && n.value == known[i].1 by {
        if n.Some? {
          var i :| 0 <= i < |known| - 1 && Are(b, known[1..][i].0) && n.value == known[1..][i].1;
          assert known[1..][i] == known[i + 1];
        }
      }
      n
  }

  /** The client uses the server's names. */
  lemma NamesAgree(i: nat)
    requires i < |KNOWN|
    ensures KNOWN[i].0 == NameText(KNOWN[i].1)
  {
  }

  lemma NameIsKnown(n: ParamName)
    ensures exists i :: 0 <= i < |KNOWN| && KNOWN[i].1 == n
  {
    var k := match n
      case ACK => 0 case DATA_ADAPTER => 1 case GROUP => 2 case MAX_WAIT => 3 case MESSAGE => 4 case MODE => 5
      case MSG_PROG => 6 case OP => 7 case OUTCOME => 8 case REQ_ID => 9 case BUFFER_SIZE => 10
      case MAX_FREQUENCY => 11 case SCHEMA => 12 case SELECTOR => 13 case SEQUENCE => 14 case SESSION => 15
      case SNAPSHOT => 16 case SUB_ID => 17;
    assert KNOWN[k].1 == n;
  }

  lemma SameName(n: ParamName, m: ParamName)
    requires NameText(n) == NameText(m)
    ensures n == m
  {
  }

  /** The server finds the parameter that the client means. */
  lemma NameRoundTrip(n: ParamName)
    ensures NameOf(NameWire(n)) == Some(n)
  {
    hide KNOWN, NameText;
    var b := NameWire(n);
    NameIsKnown(n);
    var k :| 0 <= k < |KNOWN| && KNOWN[k].1 == n;
    NamesAgree(k);
    assert Are(b, KNOWN[k].0);
    var m := FindName(b, KNOWN);
    var i :| 0 <= i < |KNOWN| && Are(b, KNOWN[i].0) && m.value == KNOWN[i].1;
    NamesAgree(i);
    assert NameText(n) == NameText(m.value);
    SameName(n, m.value);
  }

  type Entry = map<ParamName, Text>

  /** The value each known name was given. */
  function Entries(fields: seq<Field>): Entry {
    if fields == [] then map[]
    else
      var last := fields[|fields| - 1];
      var before := Entries(fields[..|fields| - 1]);
      match NameOf(last.name)
      case Some(name) => before[name := last.value]
      case None => before
  }

  lemma {:induction false} EntriesSnoc(fields: seq<Field>, name: ParamName, value: Text)
    ensures Entries(fields + [Field(NameWire(name), value)]) == Entries(fields)[name := value]
  {
    hide NameOf, NameWire;
    NameRoundTrip(name);
    var all := fields + [Field(NameWire(name), value)];
    assert all[..|fields|] == fields;
  }

  // ---- encoding ----------------------------------------------------------------------------------------------------

  /** An optional parameter that is not given is not on the line. */
  function With(m: Entry, name: ParamName, value: Option<Text>): Entry {
    match value
    case None => m
    case Some(text) => m[name := text]
  }

  function BoolText(b: bool): Text {
    if b then TRUE else FALSE
  }

  function BufferText(b: BufferSize): Text {
    match b
    case UnlimitedBuffer => UNLIMITED
    case Events(n) => PrintNat(n)
  }

  function SnapshotText(s: Snapshot): Text {
    match s
    case Off => FALSE
    case On => TRUE
    case Length(n) => PrintNat(n)
  }

  function Mapped<A>(o: Option<A>, f: A -> Text): Option<Text> {
    match o
    case None => None
    case Some(a) => Some(f(a))
  }

  /** Alphanumeric and decimal text goes on the wire as it is. */
  lemma PlainValues(id: Option<RequestId>, name: Option<SequenceName>, rate: Option<DecimalNumber>)
    ensures id.Some? ==> Plain(id.value)
    ensures name.Some? ==> Plain(name.value)
    ensures rate.Some? ==> Plain(rate.value)
  {
    if rate.Some? {
      DecimalIsPlain(rate.value);
    }
  }

  predicate Plain(wire: Text) {
    forall i :: 0 <= i < |wire| ==>
      45 <= wire[i] <= 57 || 65 <= wire[i] <= 90 || wire[i] == 95 || 97 <= wire[i] <= 122
  }

  /** A parameter whose grammar excludes every reserved octet. */
  method Add(params: ParameterLine, name: ParamName, value: Text)
    requires params.Valid() && Plain(value)
    modifies params
    ensures params.Valid()
    ensures params.fields == old(params.fields) + [Field(NameWire(name), value)]
    ensures Entries(params.fields) == Entries(old(params.fields))[name := value]
  {
    hide Entries, NameWire, ReadFields, Escaping.PercentDecode;
    PlainDecodes(value);
    EntriesSnoc(params.fields, name, value);
    params.Verbatim(NameWire(name), value);
  }

  method PutText(params: ParameterLine, name: ParamName, value: Str)
    requires params.Valid()
    modifies params
    ensures params.Valid()
    ensures params.fields == old(params.fields) + [Field(NameWire(name), value)]
    ensures Entries(params.fields) == Entries(old(params.fields))[name := value]
  {
    hide Entries, NameWire, ReadFields, Unbroken;
    EntriesSnoc(params.fields, name, value);
    params.Text(NameWire(name), value);
  }

  method AddText(params: ParameterLine, name: ParamName, value: Option<Str>)
    requires params.Valid()
    modifies params
    ensures params.Valid()
    ensures Entries(params.fields) == With(Entries(old(params.fields)), name, value)
  {
    hide Entries, NameWire, ReadFields, Unbroken;
    if value.Some? {
      PutText(params, name, value.value);
    }
  }

  method AddNumber(params: ParameterLine, name: ParamName, value: nat)
    requires params.Valid()
    modifies params
    ensures params.Valid()
    ensures Entries(params.fields) == Entries(old(params.fields))[name := PrintNat(value)]
  {
    hide Entries, NameWire, ReadFields, Unbroken, PrintNat;
    EntriesSnoc(params.fields, name, PrintNat(value));
    params.Number(NameWire(name), value);
  }

  method AddBoolean(params: ParameterLine, name: ParamName, value: bool)
    requires params.Valid()
    modifies params
    ensures params.Valid()
    ensures Entries(params.fields) == Entries(old(params.fields))[name := BoolText(value)]
  {
    hide Entries, NameWire, ReadFields, Unbroken;
    EntriesSnoc(params.fields, name, BoolText(value));
    params.Boolean(NameWire(name), value);
  }

  /** `encode_ack`: only on WS. */
  method EncodeAck(params: ParameterLine, ack: Option<bool>, transport: TransportKind)
    requires params.Valid()
    modifies params
    ensures params.Valid()
    ensures Entries(params.fields)
         == With(Entries(old(params.fields)), ACK, if transport == WebSocket then Mapped(ack, BoolText) else None)
  {
    if transport != WebSocket {
      return;
    }
    if ack.Some? {
      AddBoolean(params, ACK, ack.value);
    }
  }

  /** The parameters every control request begins with, in the order in which they are sent. */
  function HeaderFields(session: Option<Str>, requestId: RequestId, operation: Text): seq<Field> {
    (match session case None => [] case Some(id) => [Field(NameWire(SESSION), id)])
    + [Field(NameWire(REQ_ID), requestId), Field(NameWire(OP), operation)]
  }

  /** `encode_control_header`. */
  method EncodeControlHeader(params: ParameterLine, session: Option<Str>, requestId: RequestId, operation: Text,
                             transport: TransportKind)
    returns (r: Result<(), RequestError>)
    requires params.Valid() && Plain(operation)
    modifies params
    ensures params.Valid()
    ensures r == if session == None && transport == Http then Err(SessionRequired) else Ok(())
    ensures r.Ok? ==> params.fields == old(params.fields) + HeaderFields(session, requestId, operation)
    ensures r.Ok? ==>
              Entries(params.fields)
              == With(Entries(old(params.fields)), SESSION, session)[REQ_ID := requestId][OP := operation]
  {
    hide Entries, NameWire, ReadFields, Unbroken, Plain;
    if session.Some? {
      PutText(params, SESSION, session.value);
    } else if transport == Http {
      return Err(SessionRequired);
    }
    PlainValues(Some(requestId), None, None);
    Add(params, REQ_ID, requestId);
    Add(params, OP, operation);
    return Ok(());
  }

  /** The parameters every subscription has, and where its data comes from. */
  function SubscribeHead(s: Subscribe): Entry {
    var header := With(map[], SESSION, s.session)[REQ_ID := s.requestId][OP := ADD];
    var items := header[SUB_ID := PrintNat(s.subscriptionId)][GROUP := s.group][SCHEMA := s.schema];
    With(items, DATA_ADAPTER, s.dataAdapter)[MODE := ModeText(s.mode)]
  }

  /** The parameters that shape it. */
  function SubscribeOptions(m: Entry, s: Subscribe, transport: TransportKind): Entry {
    var selected := With(m, SELECTOR, s.selector);
    var buffered := With(selected, BUFFER_SIZE, Mapped(s.bufferSize, BufferText));
    var limited := With(buffered, MAX_FREQUENCY, Mapped(s.maxFrequency, FrequencyText));
    var started := With(limited, SNAPSHOT, Mapped(s.snapshot, SnapshotText));
    With(started, ACK, if transport == WebSocket then Mapped(s.ack, BoolText) else None)
  }

  lemma LiteralsArePlain()
    ensures Plain(ADD) && Plain(RAW) && Plain(MERGE) && Plain(DISTINCT) && Plain(COMMAND)
    ensures Plain(UNLIMITED) && Plain(UNFILTERED)
  {
  }

  /** The second half of `Subscribe::encode_parameters`: the optional parameters after the mode. */
  method EncodeSubscribeOptions(params: ParameterLine, s: Subscribe, transport: TransportKind)
    requires params.Valid()
    modifies params
    ensures params.Valid()
    ensures Entries(params.fields) == SubscribeOptions(Entries(old(params.fields)), s, transport)
  {
    hide Entries, ReadFields, PrintNat, Plain, Unbroken, With;
    LiteralsArePlain();
    ghost var m := Entries(params.fields);
    AddText(params, SELECTOR, s.selector);
    EncodeBuffer(params, s.bufferSize);
    if s.maxFrequency.Some? {
      PlainValues(None, None, match s.maxFrequency.value case LimitedRate(rate) => Some(rate) case _ => None);
      Add(params, MAX_FREQUENCY, FrequencyText(s.maxFrequency.value));
    }
    WithIs(With(With(m, SELECTOR, s.selector), BUFFER_SIZE, Mapped(s.bufferSize, BufferText)), MAX_FREQUENCY,
           Mapped(s.maxFrequency, FrequencyText));
    EncodeSnapshot(params, s.snapshot);
    EncodeAck(params, s.ack, transport);
  }

  lemma WithIs(m: Entry, name: ParamName, value: Option<Text>)
    ensures With(m, name, value) == if value.Some? then m[name := value.value] else m
  {
  }

  method EncodeBuffer(params: ParameterLine, size: Option<BufferSize>)
    requires params.Valid()
    modifies params
    ensures params.Valid()
    ensures Entries(params.fields) == With(Entries(old(params.fields)), BUFFER_SIZE, Mapped(size, BufferText))
  {
    hide Entries, ReadFields, PrintNat, Plain, Unbroken;
    LiteralsArePlain();
    match size {
      case Some(UnlimitedBuffer) =>
        Add(params, BUFFER_SIZE, UNLIMITED);
      case Some(Events(n)) =>
        AddNumber(params, BUFFER_SIZE, n);
      case None =>
    }
  }

  method EncodeSnapshot(params: ParameterLine, snapshot: Option<Snapshot>)
    requires params.Valid()
    modifies params
    ensures params.Valid()
    ensures Entries(params.fields) == With(Entries(old(params.fields)), SNAPSHOT, Mapped(snapshot, SnapshotText))
  {
    hide Entries, ReadFields, PrintNat, Unbroken;
    match snapshot {
      case Some(Off) =>
        AddBoolean(params, SNAPSHOT, false);
      case Some(On) =>
        AddBoolean(params, SNAPSHOT, true);
      case Some(Length(n)) =>
        AddNumber(params, SNAPSHOT, n);
      case None =>
    }
  }

  /** `Subscribe::encode_parameters`. */
  method EncodeSubscribe(s: Subscribe, transport: TransportKind) returns (r: Result<Text, RequestError>)
    ensures r.Err? <==> !BreaksNone(s) || (s.session == None && transport == Http)
    ensures r.Err? ==> FirstBroken(s, r.error) || (BreaksNone(s) && r.error == SessionRequired)
    ensures r.Ok? ==> Unbroken(r.value)
    ensures r.Ok? ==> ReadSubscribe(r.value) == Some(if transport == WebSocket then s else s.(ack := None))
  {
    hide Entries, ReadFields, PrintNat, Plain, ReadSubscribe, Unbroken, With, SubscribeOptions, ValidateSubscribe,
      BreaksNone, FirstBroken;
    SubscribeRefusedExactly(s);
    if ValidateSubscribe(s).Err? {
      return Err(ValidateSubscribe(s).error);
    }
    LiteralsArePlain();
    EntriesEmpty();
    var params := new ParameterLine();
    var header := EncodeControlHeader(params, s.session, s.requestId, ADD, transport);
    if header.Err? {
      return Err(header.error);
    }
    AddNumber(params, SUB_ID, s.subscriptionId);
    PutText(params, GROUP, s.group);
    PutText(params, SCHEMA, s.schema);
    AddText(params, DATA_ADAPTER, s.dataAdapter);
    Add(params, MODE, ModeText(s.mode));
    EncodeSubscribeOptions(params, s, transport);
    var line := params.Finish();
    SubscribeReads(line, params.fields, s, transport);
    return Ok(line);
  }

  lemma EntriesEmpty()
    ensures Entries([]) == map[]
  {
  }

  // ---- a server's reading ------------------------------------------------------------------------------------------

  function Get(m: Entry, name: ParamName): Option<Text> {
    if name in m then Some(m[name]) else None
  }

  function ReadPositive(t: Text): Option<Positive> {
    match ParseUnsigned(t, U32_MAX)
    case Some(n) => if n > 0 then Some(n) else None
    case None => None
  }

  function ReadBool(t: Text): Option<bool> {
    if Are(t, "true") then Some(true) else if Are(t, "false") then Some(false) else None
  }

  function ReadMode(t: Text): Option<SubscriptionMode> {
    if Are(t, "RAW") then Some(RawMode)
    else if Are(t, "MERGE") then Some(MergeMode)
    else if Are(t, "DISTINCT") then Some(DistinctMode)
    else if Are(t, "COMMAND") then Some(CommandMode)
    else None
  }

  function ReadFrequency(t: Text): Option<Frequency> {
    if Are(t, "unlimited") then Some(UnlimitedRate)
    else if Are(t, "unfiltered") then Some(UnfilteredRate)
    else if IsDecimal(t) then Some(LimitedRate(t))
    else None
  }

  function ReadBuffer(t: Text): Option<BufferSize> {
    if Are(t, "unlimited") then Some(UnlimitedBuffer)
    else
      match ReadPositive(t)
      case Some(n) => Some(Events(n))
      case None => None
  }

  function ReadSnapshot(t: Text): Option<Snapshot> {
    if Are(t, "false") then Some(Off)
    else if Are(t, "true") then Some(On)
    else
      match ReadPositive(t)
      case Some(n) => Some(Length(n))
      case None => None
  }

  function ReadStr(t: Text): Option<Str> {
    if Utf8.Valid(t) then Some(t) else None
  }

  function ReadId(t: Text): Option<RequestId> {
    if TryRequestId(t).Ok? then Some(t) else None
  }

  function ReadSequence(t: Text): Option<SequenceName> {
    if TrySequenceName(t).Ok? then Some(t) else None
  }

  /** Reading an optional parameter: absent, or present and well formed. */
  function Optional<A>(t: Option<Text>, read: Text -> Option<A>): Option<Option<A>> {
    match t
    case None => Some(None)
    case Some(text) =>
      match read(text)
      case None => None
      case Some(a) => Some(Some(a))
  }

  function Required<A>(t: Option<Text>, read: Text -> Option<A>): Option<A> {
    match t
    case None => None
    case Some(text) => read(text)
  }

  function SubscribeOf(m: Entry): Option<Subscribe> {
    var session := Optional(Get(m, SESSION), ReadStr);
    var id := Required(Get(m, REQ_ID), ReadId);
    var subId := Required(Get(m, SUB_ID), ReadPositive);
    var group := Required(Get(m, GROUP), ReadStr);
    var schema := Required(Get(m, SCHEMA), ReadStr);
    var mode := Required(Get(m, MODE), ReadMode);
    var adapter := Optional(Get(m, DATA_ADAPTER), ReadStr);
    var selector := Optional(Get(m, SELECTOR), ReadStr);
    var buffer := Optional(Get(m, BUFFER_SIZE), ReadBuffer);
    var frequency := Optional(Get(m, MAX_FREQUENCY), ReadFrequency);
    var snapshot := Optional(Get(m, SNAPSHOT), ReadSnapshot);
    var ack := Optional(Get(m, ACK), ReadBool);
    var op := Get(m, OP);
    if op.Some? && Are(op.value, "add") && session.Some? && id.Some? && subId.Some? && group.Some? && schema.Some?
       && mode.Some? && adapter.Some? && selector.Some? && buffer.Some? && frequency.Some?
       && snapshot.Some? && ack.Some? then
      Some(Subscribe(session.value, id.value, subId.value, group.value, schema.value, mode.value, adapter.value,
                     selector.value, buffer.value, frequency.value, snapshot.value, ack.value))
    else None
  }

  /** A server's reading of an `add` request: by parameter name, in any order. */
  function ReadSubscribe(line: Text): Option<Subscribe> {
    match ReadFields(line)
    case Ok(fields) => SubscribeOf(Entries(fields))
    case Err(_) => None
  }

  lemma NumbersRead(n: Positive)
    ensures ReadPositive(PrintNat(n)) == Some(n)
    ensures Digit(PrintNat(n)[0])
  {
    hide PrintNat;
    UnsignedRoundTrip(n, U32_MAX);
  }

  lemma ValuesRead(mode: SubscriptionMode, b: Option<BufferSize>, f: Option<Frequency>, s: Option<Snapshot>)
    ensures ReadMode(ModeText(mode)) == Some(mode)
    ensures b.Some? ==> ReadBuffer(BufferText(b.value)) == b
    ensures f.Some? ==> ReadFrequency(FrequencyText(f.value)) == f
    ensures s.Some? ==> ReadSnapshot(SnapshotText(s.value)) == s
    ensures ReadBool(TRUE) == Some(true) && ReadBool(FALSE) == Some(false)
  {
    hide PrintNat, ReadPositive, IsDecimal;
    LiteralsStart();
    if b.Some? && b.value.Events? {
      NumbersRead(b.value.count);
    }
    if s.Some? && s.value.Length? {
      NumbersRead(s.value.count);
    }
    if f.Some? && f.value.LimitedRate? {
      DecimalIsPlain(f.value.rate);
    }
  }

  lemma LiteralsStart()
    ensures Are(UNLIMITED, "unlimited") && Are(UNFILTERED, "unfiltered") && Are(TRUE, "true") && Are(FALSE, "false")
    ensures Are(RAW, "RAW") && Are(MERGE, "MERGE") && Are(DISTINCT, "DISTINCT") && Are(COMMAND, "COMMAND")
    ensures Are(ADD, "add")
    ensures UNLIMITED[0] == 117 && UNFILTERED[0] == 117 && |UNLIMITED| != |UNFILTERED|
    ensures TRUE[0] == 116 && FALSE[0] == 102
    ensures |RAW| == 3 && |MERGE| == 5 && |DISTINCT| == 8 && |COMMAND| == 7
  {
  }

  /** What the optional parameters say, and that they leave the others alone. */
  lemma OptionsRead(m: Entry, s: Subscribe, transport: TransportKind)
    requires m.Keys !! {SELECTOR, BUFFER_SIZE, MAX_FREQUENCY, SNAPSHOT, ACK}
    ensures
      var all := SubscribeOptions(m, s, transport);
      && (forall n :: n !in {SELECTOR, BUFFER_SIZE, MAX_FREQUENCY, SNAPSHOT, ACK} ==> Get(all, n) == Get(m, n))
      && Get(all, SELECTOR) == s.selector
      && Get(all, BUFFER_SIZE) == Mapped(s.bufferSize, BufferText)
      && Get(all, MAX_FREQUENCY) == Mapped(s.maxFrequency, FrequencyText)
      && Get(all, SNAPSHOT) == Mapped(s.snapshot, SnapshotText)
      && Get(all, ACK) == if transport == WebSocket then Mapped(s.ack, BoolText) else None
  {
    hide BufferText, FrequencyText, SnapshotText, BoolText;
  }

  lemma HeadReads(s: Subscribe)
    ensures
      var m := SubscribeHead(s);
      && m.Keys !! {SELECTOR, BUFFER_SIZE, MAX_FREQUENCY, SNAPSHOT, ACK}
      && Get(m, SESSION) == s.session && Get(m, REQ_ID) == Some(s.requestId) && Get(m, OP) == Some(ADD)
      && Get(m, SUB_ID) == Some(PrintNat(s.subscriptionId)) && Get(m, GROUP) == Some(s.group)
      && Get(m, SCHEMA) == Some(s.schema) && Get(m, DATA_ADAPTER) == s.dataAdapter
      && Get(m, MODE) == Some(ModeText(s.mode))
  {
    hide PrintNat, ModeText;
  }

  lemma SubscribeReads(line: Text, fields: seq<Field>, s: Subscribe, transport: TransportKind)
    requires ReadFields(line) == Ok(fields)
    requires Entries(fields) == SubscribeOptions(SubscribeHead(s), s, transport)
    ensures ReadSubscribe(line) == Some(if transport == WebSocket then s else s.(ack := None))
  {
    hide Entries, ReadFields, PrintNat, ReadPositive, ModeText, FrequencyText, BufferText, SnapshotText, ReadMode,
      ReadFrequency, ReadBuffer, ReadSnapshot, ReadBool, SubscribeHead, SubscribeOptions, Get, With;
    HeadReads(s);
    OptionsRead(SubscribeHead(s), s, transport);
    LiteralsStart();
    ValuesRead(s.mode, s.bufferSize, s.maxFrequency, s.snapshot);
    NumbersRead(s.subscriptionId);
  }

  // ---- msg ---------------------------------------------------------------------------------------------------------

  function ProgText(n: Positive): Text {
    PrintNat(n)
  }

  function WaitText(n: U64): Text {
    PrintNat(n)
  }

  /** The parameters that place a message in its sequence. */
  function MessageOrder(header: Entry, m: MessageSend): Entry {
    var named := With(header, SEQUENCE, m.sequence);
    var numbered := With(named, MSG_PROG, Mapped(m.prog, ProgText));
    With(numbered, MAX_WAIT, Mapped(m.maxWait, WaitText))
  }

  function MessageEntries(m: MessageSend, transport: TransportKind): Entry {
    var header := With(map[], SESSION, m.session)[REQ_ID := m.requestId];
    var ordered := MessageOrder(header, m);
    var acked := With(ordered, ACK, if transport == WebSocket then Mapped(m.ack, BoolText) else None);
    With(acked, OUTCOME, Mapped(m.outcome, BoolText))[MESSAGE := m.message]
  }

  method EncodeMessageOrder(params: ParameterLine, m: MessageSend)
    requires params.Valid()
    modifies params
    ensures params.Valid()
    ensures Entries(params.fields) == MessageOrder(Entries(old(params.fields)), m)
  {
    hide Entries, ReadFields, PrintNat, Plain, Unbroken;
    PlainValues(None, m.sequence, None);
    if m.sequence.Some? {
      Add(params, SEQUENCE, m.sequence.value);
    }
    if m.prog.Some? {
      AddNumber(params, MSG_PROG, m.prog.value);
    }
    if m.maxWait.Some? {
      AddNumber(params, MAX_WAIT, m.maxWait.value);
    }
  }

  /** `MessageSend::encode_parameters`. */
  method EncodeMessage(m: MessageSend, transport: TransportKind) returns (r: Result<Text, RequestError>)
    ensures
      var unnumbered := NeedsProgressive(m) && m.prog == None;
      var ignored := m.maxWait != None && m.sequence == None;
      && (r.Err? <==> unnumbered || ignored || (m.session == None && transport == Http))
      && (r.Err? ==> r.error == if unnumbered then ProgressiveRequired else if ignored then MaxWaitIgnored
                                else SessionRequired)
    ensures r.Ok? ==> Unbroken(r.value)
    ensures r.Ok? ==> ReadMessage(r.value) == Some(if transport == WebSocket then m else m.(ack := None))
  {
    hide Entries, ReadFields, PrintNat, Plain, ReadMessage, Unbroken, ValidateMessage, MessageOrder;
    MessageRefusedExactly(m);
    if ValidateMessage(m).Err? {
      return Err(ValidateMessage(m).error);
    }
    EntriesEmpty();
    var params := new ParameterLine();
    if m.session.Some? {
      AddText(params, SESSION, m.session);
    } else if transport == Http {
      return Err(SessionRequired);
    }
    PlainValues(Some(m.requestId), None, None);
    Add(params, REQ_ID, m.requestId);
    EncodeMessageOrder(params, m);
    EncodeAck(params, m.ack, transport);
    if m.outcome.Some? {
      AddBoolean(params, OUTCOME, m.outcome.value);
    }
    PutText(params, MESSAGE, m.message);
    assert Entries(params.fields) == MessageEntries(m, transport);
    var line := params.Finish();
    MessageReads(line, params.fields, m, transport);
    return Ok(line);
  }

  function ReadU64(t: Text): Option<U64> {
    match ParseUnsigned(t, U64_MAX)
    case Some(n) => Some(n)
    case None => None
  }

  /** A server's reading of a `msg` request: by parameter name, in any order. */
  function ReadMessage(line: Text): Option<MessageSend> {
    match ReadFields(line)
    case Ok(fields) => MessageOf(Entries(fields))
    case Err(_) => None
  }

  function MessageOf(m: Entry): Option<MessageSend> {
    var session := Optional(Get(m, SESSION), ReadStr);
    var id := Required(Get(m, REQ_ID), ReadId);
    var message := Required(Get(m, MESSAGE), ReadStr);
    var sequence := Optional(Get(m, SEQUENCE), ReadSequence);
    var prog := Optional(Get(m, MSG_PROG), ReadPositive);
    var maxWait := Optional(Get(m, MAX_WAIT), ReadU64);
    var ack := Optional(Get(m, ACK), ReadBool);
    var outcome := Optional(Get(m, OUTCOME), ReadBool);
    if session.Some? && id.Some? && message.Some? && sequence.Some? && prog.Some? && maxWait.Some? && ack.Some?
       && outcome.Some? then
      Some(MessageSend(session.value, id.value, message.value, sequence.value, prog.value, maxWait.value, ack.value,
                       outcome.value))
    else None
  }

  lemma MessageLookups(m: MessageSend, transport: TransportKind)
    ensures
      var all := MessageEntries(m, transport);
      && Get(all, SESSION) == m.session && Get(all, REQ_ID) == Some(m.requestId) && Get(all, MESSAGE) == Some(m.message)
      && Get(all, SEQUENCE) == m.sequence && Get(all, MSG_PROG) == Mapped(m.prog, ProgText)
      && Get(all, MAX_WAIT) == Mapped(m.maxWait, WaitText) && Get(all, OUTCOME) == Mapped(m.outcome, BoolText)
      && Get(all, ACK) == if transport == WebSocket then Mapped(m.ack, BoolText) else None
  {
    hide PrintNat, BoolText, ProgText, WaitText;
  }

  lemma MessageReads(line: Text, fields: seq<Field>, m: MessageSend, transport: TransportKind)
    requires ReadFields(line) == Ok(fields) && Entries(fields) == MessageEntries(m, transport)
    ensures ReadMessage(line) == Some(if transport == WebSocket then m else m.(ack := None))
  {
    hide Entries, ReadFields, PrintNat, ReadPositive, ParseUnsigned, MessageEntries, Get, With;
    MessageLookups(m, transport);
    LiteralsStart();
    if m.prog.Some? {
      NumbersRead(m.prog.value);
    }
    if m.maxWait.Some? {
      UnsignedRoundTrip(m.maxWait.value, U64_MAX);
    }
  }
}
