/** The router's decisions: what each command and each session event does, split at the one send an event may await. */
module RouterCore {
  import opened Sequences
  import Response

  /** A subscription's key. Its stream's sender is created with it, one for each key, so it names that as well. */
  type Key = nat

  datatype ServerError = ServerError(code: int, message: string)

  /** What the subscription layer reports about one subscription. */
  datatype WireSubscriptionEvent =
    | WireActivated(items: nat, fields: nat, commandFields: Option<(nat, nat)>)
    | WireUpdate(update: string)
    | WireEndOfSnapshot(item: nat)
    | WireSnapshotCleared(item: nat)
    | WireOverflow(item: nat, dropped: nat)
    | WireReconfigured(frequency: Response.MaxFrequency, filtering: Response.FilteringMode)
    | WireUnsubscribed

  /** What one subscription's stream delivers. */
  datatype SubscriptionEvent =
    | Activated(items: nat, fields: nat, commandFields: Option<(nat, nat)>)
    | Update(update: string)
    | EndOfSnapshot(item: nat)
    | SnapshotCleared(item: nat)
    | Overflow(item: nat, dropped: nat)
    | Reconfigured(frequency: Response.MaxFrequency, filtering: Response.FilteringMode)
    | Deferred(reason: string)
    | Rejected(cause: ServerError)
    | Unsubscribed
    | Undecodable(detail: string)

  /** `SubscriptionEvent::is_terminal`. */
  predicate IsTerminal(e: SubscriptionEvent) {
    e.Unsubscribed? || e.Rejected?
  }

  /** `SubscriptionEvent::from_wire`. */
  function FromWire(e: WireSubscriptionEvent): SubscriptionEvent {
    match e
    case WireActivated(items, fields, commandFields) => Activated(items, fields, commandFields)
    case WireUpdate(update) => Update(update)
    case WireEndOfSnapshot(item) => EndOfSnapshot(item)
    case WireSnapshotCleared(item) => SnapshotCleared(item)
    case WireOverflow(item, dropped) => Overflow(item, dropped)
    case WireReconfigured(frequency, filtering) => Reconfigured(frequency, filtering)
    case WireUnsubscribed => Unsubscribed
  }

  datatype Operation = Subscribe | Unsubscribe | Reconfigure

  datatype Target = OfSubscription(key: Key, operation: Operation) | Other

  datatype ControlOutcome = Accepted | Refused(cause: ServerError) | NotSent(reason: string)

  /** What the session driver reports. */
  datatype WireEvent =
    | WireBound(info: string)
    | WireRecovered(recovery: string)
    | WireResubscribed(entries: seq<Key>)
    | WireUnbound(reason: string, retryIn: Option<nat>)
    | WireMessage(sequence: string, prog: nat, result: string)
    | WireSubscription(key: Key, report: Result<WireSubscriptionEvent, string>)
    | WireControlResponse(target: Target, outcome: ControlOutcome)
    | WireServerInfo(announcement: string)
    | WireUnparsed(line: string, error: string)
    | WireClosed(reason: string)

  /** What the session's stream delivers. */
  datatype SessionEvent =
    | Connected(info: string)
    | Recovered(outcome: string)
    | Resubscribed(entries: seq<Key>)
    | Disconnected(reason: string, retryIn: Option<nat>)
    | MessageOutcome(sequence: string, prog: nat, result: string)
    | ServerInfo(announcement: string)
    | Unrecognized(line: string)
    | RequestRejected(cause: ServerError)
    | RequestNotSent(reason: string)
    | SessionClosed(reason: string)

  datatype Command = Register(key: Key) | Unregister(key: Key) | StreamDropped(key: Key)

  datatype ReadyError = ClosedWith(reason: string) | NeverBound

  type Readiness = Result<string, ReadyError>

  /** One send towards the caller. */
  datatype Send = ToStream(key: Key, event: SubscriptionEvent) | ToSession(message: SessionEvent)

  datatype Delivery = Delivered | ReceiverGone | Stopped

  /** What the router remembers between events. */
  datatype Core = Core(subscriptions: set<Key>, sessionOpen: bool, awaitingReady: bool)

  const FRESH := Core({}, true, true)

  /** `on_command`: the new registrations, and the unsubscription it asks for, whatever the removal found. */
  function OnCommand(c: Core, command: Command): (Core, Option<Key>) {
    match command
    case Register(key) => (c.(subscriptions := c.subscriptions + {key}), None)
    case Unregister(key) => (c.(subscriptions := c.subscriptions - {key}), None)
    case StreamDropped(key) => (c.(subscriptions := c.subscriptions - {key}), Some(key))
  }

  /** An event up to the send it awaits: the registrations, the readiness it fires, and the send, if any. */
  datatype Decision = Decision(core: Core, signal: Option<Readiness>, send: Option<Send>)

  /** `emit`: nothing once the caller has dropped the session's stream. */
  function Emit(c: Core, message: SessionEvent): Decision {
    Decision(c, None, if c.sessionOpen then Some(ToSession(message)) else None)
  }

  /** `notify` and `route`: nothing when the key has no stream. */
  function Notify(c: Core, key: Key, event: SubscriptionEvent): Decision {
    Decision(c, None, if key in c.subscriptions then Some(ToStream(key, event)) else None)
  }

  /** `signal_ready` and `fail_ready`: only the first has anybody to tell. */
  function Signal(d: Decision, readiness: Readiness): Decision {
    if d.core.awaitingReady then d.(core := d.core.(awaitingReady := false), signal := Some(readiness)) else d
  }

  /** `on_control_response`. */
  function OnControlResponse(c: Core, target: Target, outcome: ControlOutcome): Decision {
    match outcome
    case Accepted => Decision(c, None, None)
    case Refused(cause) =>
      if target.OfSubscription? && target.operation == Subscribe && target.key in c.subscriptions then
        Notify(c, target.key, Rejected(cause)).(core := c.(subscriptions := c.subscriptions - {target.key}))
      else Emit(c, RequestRejected(cause))
    case NotSent(reason) =>
      if target.OfSubscription? && target.operation == Subscribe then Notify(c, target.key, Deferred(reason))
      else Emit(c, RequestNotSent(reason))
  }

  /** `on_session_event`, up to its send. */
  function OnEvent(c: Core, e: WireEvent): Decision {
    match e
    case WireBound(info) => Signal(Emit(c, Connected(info)), Ok(info))
    case WireRecovered(outcome) => Emit(c, Recovered(outcome))
    case WireResubscribed(entries) => Emit(c, Resubscribed(entries))
    case WireUnbound(reason, retryIn) => Emit(c, Disconnected(reason, retryIn))
    case WireMessage(sequence, prog, result) => Emit(c, MessageOutcome(sequence, prog, result))
    case WireSubscription(key, outcome) =>
      Notify(c, key, match outcome case Ok(event) => FromWire(event) case Err(error) => Undecodable(error))
    case WireControlResponse(target, outcome) => OnControlResponse(c, target, outcome)
    case WireServerInfo(announcement) => Emit(c, ServerInfo(announcement))
    case WireUnparsed(line, error) => Emit(c, Unrecognized(line))
    case WireClosed(reason) => Signal(Emit(c, SessionClosed(reason)), Err(ClosedWith(reason)))
  }

  /**
   * What the end of a send changes: a terminal event ends its registration, a dropped session stream ends forwarding.
   */
  function OnSent(c: Core, send: Send, delivery: Delivery): Core {
    match send
    case ToStream(key, event) => if IsTerminal(event) then c.(subscriptions := c.subscriptions - {key}) else c
    case ToSession(_) => if delivery == ReceiverGone then c.(sessionOpen := false) else c
  }

  /** A whole event, with the outcome of the send it awaits, if it awaits one. */
  function Handled(c: Core, e: WireEvent, delivery: Delivery): Core {
    var d := OnEvent(c, e);
    match d.send
    case None => d.core
    case Some(send) => OnSent(d.core, send, delivery)
  }

  /** Whether the router ends after an event. */
  predicate IsLast(e: WireEvent) {
    e.WireClosed?
  }
}
