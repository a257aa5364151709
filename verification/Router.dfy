/**
 * The fan-out task as it is: registrations and readiness updated in place, one awaited send at a time. The outcome of
 * an awaited send, and what each `select!` yields, are the environment's and come in as parameters.
 */
module Router {
  import opened Sequences
  import opened RouterCore

  /** What one turn of the loop finds. */
  datatype Turn =
    | Commanded(command: Command)
    | CommandsClosed
    | StopSeen
    | Happened(event: WireEvent, delivery: Delivery)
    | EventsClosed

  /** Everything the router has done to the outside: sends with their outcomes, unsubscriptions, readiness. */
  datatype Effects = Effects(sends: seq<(Send, Delivery)>, unsubscribed: seq<Key>, signals: seq<Readiness>)

  datatype State = State(core: Core, effects: Effects)

  const INITIAL := State(FRESH, Effects([], [], []))

  function Told(f: Effects, signal: Option<Readiness>): Effects {
    match signal
    case None => f
    case Some(readiness) => f.(signals := f.signals + [readiness])
  }

  function AfterCommand(s: State, command: Command): State {
    var (core, unsubscribe) := OnCommand(s.core, command);
    State(core, match unsubscribe
                case None => s.effects
                case Some(key) => s.effects.(unsubscribed := s.effects.unsubscribed + [key]))
  }

  function AfterEvent(s: State, e: WireEvent, delivery: Delivery): State {
    var d := OnEvent(s.core, e);
    var told := Told(s.effects, d.signal);
    State(Handled(s.core, e, delivery), match d.send
                                        case None => told
                                        case Some(send) => told.(sends := told.sends + [(send, delivery)]))
  }

  /** The end of the task: whoever still waits for readiness learns that it will not come. */
  function AfterEnd(s: State): State {
    State(s.core.(awaitingReady := false),
          if s.core.awaitingReady then Told(s.effects, Some(Err(NeverBound))) else s.effects)
  }

  /** Whether a turn is the last one. */
  predicate Ends(t: Turn) {
    t.StopSeen? || t.EventsClosed? || (t.Happened? && IsLast(t.event))
  }

  function AfterTurn(s: State, t: Turn): State {
    match t
    case Commanded(command) => AfterCommand(s, command)
    case Happened(event, delivery) => AfterEvent(s, event, delivery)
    case _ => s
  }

  /** The turns the router takes: up to and including the first that ends it. */
  function AfterTurns(s: State, turns: seq<Turn>): State
    decreases |turns|
  {
    if turns == [] then s
    else
      var t := AfterTurn(s, turns[0]);
      if Ends(turns[0]) then AfterEnd(t) else AfterTurns(t, turns[1..])
  }

  class Router {
    var subscriptions: set<Key>
    var sessionOut: bool
    var ready: bool
    ghost var effects: Effects

    ghost function View(): State
      reads this
    {
      State(Core(subscriptions, sessionOut, ready), effects)
    }

    constructor ()
      ensures View() == INITIAL
    {
      subscriptions, sessionOut, ready := {}, true, true;
      effects := Effects([], [], []);
    }

    /**
     * `run`, on a sequence of turns that ends the task or is all there is so far. `CommandsClosed` only switches the
     * command branch off: whether commands are still taken is a matter of which turns can come, and part of
     * `Protocol`.
     */
    method Run(turns: seq<Turn>)
      modifies this
      ensures View() == AfterTurns(old(View()), turns)
    {
      var i := 0;
      assert turns[0..] == turns;
      while i < |turns|
        invariant i <= |turns|
        invariant AfterTurns(old(View()), turns) == AfterTurns(View(), turns[i..])
      {
        assert turns[i..][0] == turns[i] && turns[i..][1..] == turns[i + 1..];
        var done := false;
        match turns[i] {
          case Commanded(command) =>
            HandleCommand(command);
          case CommandsClosed =>
          case StopSeen =>
            done := true;
          case Happened(event, delivery) =>
            done := HandleEvent(event, delivery);
          case EventsClosed =>
            done := true;
        }
        i := i + 1;
        if done {
          FailReady(NeverBound);
          return;
        }
      }
      assert turns[i..] == [];
    }

    method HandleCommand(command: Command)
      modifies this
      ensures View() == AfterCommand(old(View()), command)
    {
      match command {
        case Register(key) =>
          subscriptions := subscriptions + {key};
        case Unregister(key) =>
          subscriptions := subscriptions - {key};
        case StreamDropped(key) =>
          subscriptions := subscriptions - {key};
          effects := effects.(unsubscribed := effects.unsubscribed + [key]);
      }
    }

    /** `on_session_event`. */
    method HandleEvent(event: WireEvent, delivery: Delivery) returns (done: bool)
      modifies this
      ensures View() == AfterEvent(old(View()), event, delivery)
      ensures done == event.WireClosed?
    {
      done := false;
      match event {
        case WireBound(info) =>
          SignalReady(info);
          Emit(Connected(info), delivery);
        case WireRecovered(outcome) =>
          Emit(Recovered(outcome), delivery);
        case WireResubscribed(entries) =>
          Emit(Resubscribed(entries), delivery);
        case WireUnbound(reason, retryIn) =>
          Emit(Disconnected(reason, retryIn), delivery);
        case WireMessage(sequence, prog, result) =>
          Emit(MessageOutcome(sequence, prog, result), delivery);
        case WireSubscription(key, outcome) =>
          Route(key, outcome, delivery);
        case WireControlResponse(target, outcome) =>
          HandleControlResponse(target, outcome, delivery);
        case WireServerInfo(announcement) =>
          Emit(ServerInfo(announcement), delivery);
        case WireUnparsed(line, error) =>
          Emit(Unrecognized(line), delivery);
        case WireClosed(reason) =>
          FailReady(ClosedWith(reason));
          Emit(SessionClosed(reason), delivery);
          done := true;
      }
    }

    /** `on_control_response`. */
    method HandleControlResponse(target: Target, outcome: ControlOutcome, delivery: Delivery)
      modifies this
      ensures View() == AfterEvent(old(View()), WireControlResponse(target, outcome), delivery)
    {
      if target.Other? {
        match outcome {
          case Refused(cause) =>
            Emit(RequestRejected(cause), delivery);
          case NotSent(reason) =>
            Emit(RequestNotSent(reason), delivery);
          case Accepted =>
        }
        return;
      }
      var key := target.key;
      match (target.operation, outcome) {
        case (Subscribe, Refused(cause)) =>
          if key in subscriptions {
            subscriptions := subscriptions - {key};
            Deliver(ToStream(key, Rejected(cause)), delivery);
          } else {
            Emit(RequestRejected(cause), delivery);
          }
        case (Subscribe, NotSent(reason)) =>
          Notify(key, Deferred(reason), delivery);
        case (_, Accepted) =>
        case (_, Refused(cause)) =>
          Emit(RequestRejected(cause), delivery);
        case (_, NotSent(reason)) =>
          Emit(RequestNotSent(reason), delivery);
      }
    }

    method Notify(key: Key, event: SubscriptionEvent, delivery: Delivery)
      modifies this`effects
      ensures View() == old(View()).(effects := if key in subscriptions
                                                then Sent(old(effects), ToStream(key, event), delivery)
                                                else old(effects))
    {
      if key !in subscriptions {
        return;
      }
      Deliver(ToStream(key, event), delivery);
    }

    method Route(key: Key, outcome: Result<WireSubscriptionEvent, string>, delivery: Delivery)
      modifies this
      ensures View() == AfterEvent(old(View()), WireSubscription(key, outcome), delivery)
    {
      if key !in subscriptions {
        return;
      }
      var event := match outcome case Ok(e) => FromWire(e) case Err(error) => Undecodable(error);
      Deliver(ToStream(key, event), delivery);
      if IsTerminal(event) {
        subscriptions := subscriptions - {key};
      }
    }

    method Emit(message: SessionEvent, delivery: Delivery)
      modifies this
      ensures subscriptions == old(subscriptions) && ready == old(ready)
      ensures sessionOut == (old(sessionOut) && delivery != ReceiverGone)
      ensures effects == if old(sessionOut) then Sent(old(effects), ToSession(message), delivery) else old(effects)
    {
      if !sessionOut {
        return;
      }
      Deliver(ToSession(message), delivery);
      if delivery == ReceiverGone {
        sessionOut := false;
      }
    }

    /** `deliver`: the awaited send, whose outcome is the environment's. */
    ghost method Deliver(send: Send, delivery: Delivery)
      modifies this`effects
      ensures effects == Sent(old(effects), send, delivery)
    {
      effects := effects.(sends := effects.sends + [(send, delivery)]);
    }

    method SignalReady(info: string)
      modifies this`ready, this`effects
      ensures !ready && effects == if old(ready) then Told(old(effects), Some(Ok(info))) else old(effects)
    {
      if ready {
        ready := false;
        effects := Told(effects, Some(Ok(info)));
      }
    }

    method FailReady(error: ReadyError)
      modifies this`ready, this`effects
      ensures !ready && effects == if old(ready) then Told(old(effects), Some(Err(error))) else old(effects)
    {
      if ready {
        ready := false;
        effects := Told(effects, Some(Err(error)));
      }
    }
  }

  function Sent(f: Effects, send: Send, delivery: Delivery): Effects {
    f.(sends := f.sends + [(send, delivery)])
  }
}
