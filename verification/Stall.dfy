/** A caller that stops reading stops the session driver: every deployment can come to it, and it lasts. */
module Stall {
  import opened Sequences
  import opened RouterCore
  import opened Router
  import opened Protocol
  import opened Invariants
  import opened Runs
  import opened Progress

  lemma ReachesFurther(cfg: Deployment, s: System, a: Action)
    requires Reachable(cfg, s) && Can(cfg, s, a)
    ensures Reachable(cfg, Do(cfg, s, a))
  {
    hide Can, Do;
    var actions: seq<Action> :| Exec(cfg, actions) == Some(s);
    assert (actions + [a])[..|actions|] == actions;
    assert Exec(cfg, actions + [a]) == Some(Do(cfg, s, a));
  }

  /** The router has handled everything, and the caller holds the session's stream. */
  predicate Idle(s: System) {
    && s.phase == Selecting && s.driver == Running && s.commands == [] && s.events == [] && !s.stop
    && s.session.holder == Held && s.router.core.sessionOpen
  }

  /** The router is about to send to the session's stream, and there is nothing else to do. */
  predicate AtSend(s: System) {
    && s.phase.Sending? && s.phase.send.ToSession? && !IsLast(s.phase.event) && s.driver == Running
    && s.commands == [] && s.events == [] && !s.stop
    && s.session.holder == Held && s.router.core.sessionOpen
  }

  /** Each session bound and each announcement of the server is news for the session's stream. */
  predicate Bulletin(e: WireEvent) {
    e.WireBound? || e.WireServerInfo?
  }

  const NEWS := WireServerInfo("news")

  lemma TakingIsSending(s: System, e: WireEvent)
    requires Idle(s) && Bulletin(e)
    ensures var t := Take(s.(events := [e], phase := PastStop, log := s.log.(reported := s.log.reported + [e])));
            && AtSend(t) && t.session == s.session
            && (IsReady(s) || (e.WireBound? && Awaited(s)) ==> IsReady(t))
  {
  }

  predicate Awaited(s: System) {
    s.router.core.awaitingReady && s.router.effects.signals == []
  }

  /** The driver produces a bulletin and the router gets as far as its send. */
  lemma Speak(cfg: Deployment, s: System, e: WireEvent) returns (t: System)
    requires Reachable(cfg, s) && Idle(s) && Bulletin(e)
    ensures Reachable(cfg, t) && AtSend(t) && t.session == s.session
    ensures IsReady(s) || (e.WireBound? && Awaited(s)) ==> IsReady(t)
  {
    hide Reachable, Take;
    ReachesFurther(cfg, s, OfDriver(Produce(e)));
    ReachesFurther(cfg, s.(driver := Blocked(e)), OfDriver(PushEvent));
    assert s.events + [e] == [e];
    var u := s.(events := [e], log := s.log.(reported := s.log.reported + [e]));
    ReachesFurther(cfg, u, OfRouter(PassCommands));
    ReachesFurther(cfg, u.(phase := PastCommands), OfRouter(PassStop));
    ReachesFurther(cfg, u.(phase := PastStop), OfRouter(TakeEvent));
    t := Take(u.(phase := PastStop));
    TakingIsSending(s, e);
  }

  lemma Answer(cfg: Deployment, s: System) returns (t: System)
    requires Reachable(cfg, s) && AtSend(s) && |s.session.buffer| < cfg.session
    ensures Reachable(cfg, t) && Idle(t) && |t.session.buffer| == |s.session.buffer| + 1 && (IsReady(s) ==> IsReady(t))
  {
    hide Reachable;
    ReachesFurther(cfg, s, OfRouter(Deliver));
    t := Do(cfg, s, OfRouter(Deliver));
  }

  /** News until the session's stream is full. */
  lemma {:induction false} Fill(cfg: Deployment, s: System) returns (t: System)
    requires Reachable(cfg, s) && Idle(s) && IsReady(s) && |s.session.buffer| <= cfg.session
    ensures Reachable(cfg, t) && AtSend(t) && IsReady(t) && |t.session.buffer| == cfg.session
    decreases cfg.session - |s.session.buffer|
  {
    hide Reachable, Idle, AtSend, IsReady;
    t := Speak(cfg, s, NEWS);
    if |s.session.buffer| < cfg.session {
      t := Answer(cfg, t);
      t := Fill(cfg, t);
    }
  }

  /** News until the driver's queue is full as well. */
  lemma {:induction false} Pile(cfg: Deployment, s: System) returns (t: System)
    requires Reachable(cfg, s) && s.driver == Running && s.phase.Sending? && |s.events| <= cfg.events
    ensures Reachable(cfg, t) && t == s.(driver := Blocked(NEWS), events := t.events, log := t.log)
    ensures |t.events| == cfg.events
    decreases cfg.events - |s.events|
  {
    hide Reachable;
    t := s.(driver := Blocked(NEWS));
    ReachesFurther(cfg, s, OfDriver(Produce(NEWS)));
    if |s.events| < cfg.events {
      ReachesFurther(cfg, t, OfDriver(PushEvent));
      t := Pile(cfg, s.(events := s.events + [NEWS], log := s.log.(reported := s.log.reported + [NEWS])));
    }
  }

  /**
   * Under every deployment, once `connect` has returned, a caller that holds the session's stream and does not read
   * it comes to hold the driver at a send. No step of any task moves it again, until the caller acts.
   */
  lemma CallerCanStallTheDriver(cfg: Deployment) returns (s: System)
    ensures Reachable(cfg, s) && IsReady(s) && s.session.holder == Held && !s.stop
    ensures s.driver.Blocked?
    ensures forall actions: seq<Action> ::
              From(cfg, s, actions).Some? && (forall i :: 0 <= i < |actions| ==> !actions[i].OfCaller?) ==>
                From(cfg, s, actions).value.driver == s.driver
  {
    hide Reachable, From;
    StartReachable(cfg);
    s := Speak(cfg, START, WireBound("session"));
    s := Answer(cfg, s);
    s := Fill(cfg, s);
    s := Pile(cfg, s);
    forall actions: seq<Action> |
      From(cfg, s, actions).Some? && (forall i :: 0 <= i < |actions| ==> !actions[i].OfCaller?)
      ensures From(cfg, s, actions).value.driver == s.driver
    {
      StallLasts(cfg, s, actions);
    }
  }

  lemma StartReachable(cfg: Deployment)
    ensures Reachable(cfg, START) && Idle(START) && Awaited(START)
  {
    assert Exec(cfg, []) == Some(START);
  }
}
