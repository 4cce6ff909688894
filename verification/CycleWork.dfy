/** What a completed cycle leaves of a slot, whatever it found: nothing overdue, every due call under
    way, the chain planned to the horizon, and nothing kept that is no longer needed. */
module CycleWork {
  import opened Basics
  import opened SlotRules
  import opened SlotRuns
  import opened SlotShape
  import opened SlotLinks
  import opened SlotSends
  import opened SlotFreeze
  import opened SlotFreshness
  import opened SlotProgress
  import opened SlotLives
  import opened SlotFailures
  import opened SlotWaits
  import opened SlotEnds
  import opened EpochPhases
  import opened Cycles

  // ---------------------------------------------------------------- runs in parts

  lemma {:induction false} LifeJoins(k12: Hash, l: Life, a: seq<SlotEvent>, b: seq<SlotEvent>)
    ensures RunLife(k12, l, a + b) == RunLife(k12, RunLife(k12, l, a), b)
    decreases |a|
  {
    if a == [] {
      assert a + b == b;
    } else {
      assert (a + b)[1..] == a[1..] + b;
      LifeJoins(k12, NextLife(k12, l, a[0]), a[1..], b);
    }
  }

  lemma OneStep(k12: Hash, l: Life, e: SlotEvent)
    ensures RunLife(k12, l, [e]) == NextLife(k12, l, e)
  {
    assert [e][1..] == [];
  }

  lemma LivesOn(k12: Hash, stream: nat, l: Life, events: seq<SlotEvent>)
    requires Lived(k12, stream, l)
    ensures Lived(k12, stream, RunLife(k12, l, events))
  {
    var past :| RunLife(k12, NewLife(stream), past) == l;
    LifeJoins(k12, NewLife(stream), past, events);
  }

  lemma StepLives(k12: Hash, stream: nat, l: Life, e: SlotEvent)
    requires Lived(k12, stream, l)
    ensures Lived(k12, stream, NextLife(k12, l, e))
  {
    LivesOn(k12, stream, l, [e]);
    OneStep(k12, l, e);
  }

  // ---------------------------------------------------------------- the service

  /** A planned call that could be sent at this tick: its window is open, it has neither been
      accepted nor failed, and a terminal call has its chain accepted before it. */
  ghost predicate Sendable(l: Life, s: Signed, tick: nat) {
    && s in CallSet(CallsOf(l.h.slot)) && 1 <= s.tx.target - tick <= (if s.kind.FirstCommit? then 6 else 4)
    && s.tx.target !in l.h.accepted && s.tx.target !in l.failed
    && (s.kind.TerminalReveal? ==> ChainAccepted(l.h.signed, l.h.accepted, l.h.chainFirst, s.tx.target))
  }

  /** Nothing is left to do for the slot at this tick. A live chain has every call accepted that was
      due, a drain is still ahead of its terminal target, a frozen chain ahead of its tail; a task
      runs for each sendable call; and no call is kept that pruning would drop. */
  ghost predicate Serviced(l: Life, tick: nat) {
    && (l.h.slot.state.Live() ==> !Unaccepted(l.h, tick))
    && (l.h.slot.state.Draining? ==>
          && tick < l.h.slot.state.terminalTarget && !AnyOverdue(l, tick)
          && l.h.slot.state.terminalTarget !in l.h.accepted && l.h.slot.state.terminalTarget !in l.failed)
    && (l.h.slot.state.Restarting? ==> l.h.signed != [] && tick < LastTarget(l.h.signed))
    && (forall s :: Sendable(l, s, tick) ==> s.tx.target in l.running)
    && (l.h.slot.chain.Some? && !l.h.slot.state.Draining? ==> forall s :: s in CallSet(CallsOf(l.h.slot)) ==> !Prunes(l.h, s, tick))
  }

  /** The five steps of a service. */
  ghost predicate Steps(k12: Hash, l: Life, tick: nat, a: Life, b: Life, c: Life, d: Life, n: Life) {
    && a == NextLife(k12, l, ExpiryDue(tick)) && b == NextLife(k12, a, DispatchDue(tick)) && c == NextLife(k12, b, DrainChecked)
    && d == NextLife(k12, c, RestartChecked(tick)) && n == NextLife(k12, d, Pruned(tick))
  }

  lemma ServiceSteps(k12: Hash, l: Life, tick: nat, a: Life, b: Life, c: Life, d: Life, n: Life)
    requires Steps(k12, l, tick, a, b, c, d, n)
    ensures RunLife(k12, l, Service(tick)) == n
  {
    hide NextLife;
    assert Service(tick) == [ExpiryDue(tick)] + ([DispatchDue(tick)] + ([DrainChecked] + ([RestartChecked(tick)] + [Pruned(tick)])));
    LifeJoins(k12, l, [ExpiryDue(tick)], [DispatchDue(tick)] + ([DrainChecked] + ([RestartChecked(tick)] + [Pruned(tick)])));
    LifeJoins(k12, a, [DispatchDue(tick)], [DrainChecked] + ([RestartChecked(tick)] + [Pruned(tick)]));
    LifeJoins(k12, b, [DrainChecked], [RestartChecked(tick)] + [Pruned(tick)]);
    LifeJoins(k12, c, [RestartChecked(tick)], [Pruned(tick)]);
    OneStep(k12, l, ExpiryDue(tick));
    OneStep(k12, a, DispatchDue(tick));
    OneStep(k12, b, DrainChecked);
    OneStep(k12, c, RestartChecked(tick));
    OneStep(k12, d, Pruned(tick));
    hide RunLife, Service;
  }

  /** A service signs, polls and observes nothing. */
  lemma ServiceKeeps(k12: Hash, l: Life, e: SlotEvent)
    requires e.ExpiryDue? || e.DispatchDue? || e.DrainChecked? || e.RestartChecked? || e.Pruned?
    ensures var n := NextLife(k12, l, e);
      && n.h.signed == l.h.signed && n.h.accepted == l.h.accepted && n.h.chainFirst == l.h.chainFirst
      && (!e.ExpiryDue? ==> n.failed == l.failed)
      && (!e.ExpiryDue? && !e.DispatchDue? ==> n.running == l.running)
  {
    hide StepSlot;
  }

  predicate IsService(e: SlotEvent) { e.ExpiryDue? || e.DispatchDue? || e.DrainChecked? || e.RestartChecked? || e.Pruned? }

  /** How one step of a service moves a state, by what is left of it. */
  ghost predicate Serves(l: Life, e: SlotEvent, n: Life)
    requires IsService(e)
  {
    && (n.h.slot.state.Live() ==> l.h.slot.state.Live() && (e.ExpiryDue? ==> !Unaccepted(l.h, e.tick)))
    && (n.h.slot.state.Draining? ==>
          && l.h.slot.state == n.h.slot.state
          && (e.ExpiryDue? ==> !AnyOverdue(l, e.tick))
          && (e.DrainChecked? ==> l.h.slot.state.terminalTarget !in l.h.accepted && l.h.slot.state.terminalTarget !in l.failed))
    && (n.h.slot.state.Restarting? ==> l.h.slot.state.Restarting? && (e.RestartChecked? ==> l.h.signed != [] && e.tick < LastTarget(l.h.signed)))
  }

  lemma ServiceStep(k12: Hash, stream: nat, l: Life, e: SlotEvent)
    requires Lived(k12, stream, l) && IsService(e)
    ensures Lived(k12, stream, NextLife(k12, l, e)) && Serves(l, e, NextLife(k12, l, e))
  {
    StepLives(k12, stream, l, e);
    StatesAreExact(k12, stream, l, e);
    if l.h.slot.state.Restarting? { FrozenSigned(k12, stream, l); }
    hide Lived, NextLife, SeenAbsent, BoundOf, Free, FirstFree, AnyOverdue, Unaccepted;
    var n := NextLife(k12, l, e);
    if Idle(l.h.slot.state) {
      assert IdleGoesTo(l, e, BoundOf(n), SeenAbsent(n), n.h.slot.state);
      hide GoesTo, LiveGoesTo, DrainGoesTo;
    } else {
      hide IdleGoesTo;
    }
  }

  lemma FrozenSigned(k12: Hash, stream: nat, l: Life)
    requires Lived(k12, stream, l) && l.h.slot.state.Restarting?
    ensures l.h.signed != []
  {
    LivedIsKnown(k12, stream, l);
    KnownFacts(k12, l);
    IdleTail(k12, l.h);
  }

  /** Where a service takes the state. */
  lemma ServiceStates(k12: Hash, stream: nat, l: Life, tick: nat, a: Life, b: Life, c: Life, d: Life, n: Life)
    requires Lived(k12, stream, l) && Steps(k12, l, tick, a, b, c, d, n)
    ensures Lived(k12, stream, a) && Lived(k12, stream, d) && Lived(k12, stream, n)
    ensures n.h.signed == a.h.signed == l.h.signed && n.h.accepted == a.h.accepted == l.h.accepted
    ensures n.h.chainFirst == a.h.chainFirst == l.h.chainFirst && n.failed == a.failed && n.running == b.running
    ensures n.h.slot.state.Live() ==> l.h.slot.state.Live() && !Unaccepted(l.h, tick)
    ensures n.h.slot.state.Draining? ==>
      && l.h.slot.state == n.h.slot.state && !AnyOverdue(l, tick)
      && n.h.slot.state.terminalTarget !in n.h.accepted && n.h.slot.state.terminalTarget !in n.failed
    ensures n.h.slot.state.Restarting? ==> n.h.signed != [] && tick < LastTarget(n.h.signed)
  {
    ServiceStep(k12, stream, l, ExpiryDue(tick));
    ServiceStep(k12, stream, a, DispatchDue(tick));
    ServiceStep(k12, stream, b, DrainChecked);
    ServiceStep(k12, stream, c, RestartChecked(tick));
    ServiceStep(k12, stream, d, Pruned(tick));
    ServiceKeeps(k12, l, ExpiryDue(tick));
    ServiceKeeps(k12, a, DispatchDue(tick));
    ServiceKeeps(k12, b, DrainChecked);
    ServiceKeeps(k12, c, RestartChecked(tick));
    ServiceKeeps(k12, d, Pruned(tick));
    hide Lived, NextLife, AnyOverdue, Unaccepted;
  }

  lemma SameUnaccepted(a: Trace, b: Trace, tick: nat)
    requires a.signed == b.signed && a.accepted == b.accepted && a.chainFirst == b.chainFirst
    ensures Unaccepted(a, tick) <==> Unaccepted(b, tick)
  {
  }

  /** A drain that an expiry leaves is ahead of its terminal target, and stays so. */
  lemma DrainIsAhead(k12: Hash, stream: nat, l: Life, tick: nat, n: Life)
    requires Lived(k12, stream, l) && l.h.slot.state.Draining? && n.h.slot.state == l.h.slot.state && !AnyOverdue(l, tick)
    requires n.h.signed == l.h.signed && n.h.accepted == l.h.accepted && n.h.chainFirst == l.h.chainFirst && l.failed <= n.failed
    requires l.h.slot.state.terminalTarget !in n.h.accepted && l.h.slot.state.terminalTarget !in n.failed
    ensures tick < n.h.slot.state.terminalTarget && !AnyOverdue(n, tick)
  {
    LivedIsKnown(k12, stream, l);
    DrainOverdue(k12, l, tick);
    hide Lived, Known;
    OverdueBefore(l, n, tick);
  }

  lemma OverdueBefore(l: Life, n: Life, tick: nat)
    requires n.h.signed == l.h.signed && n.h.accepted == l.h.accepted && n.h.chainFirst == l.h.chainFirst && l.failed <= n.failed
    ensures AnyOverdue(n, tick) ==> AnyOverdue(l, tick)
  {
    assert forall s :: Overdue(n, s, tick) ==> Overdue(l, s, tick);
  }

  /** What is planned after the last steps of a service was planned when it dispatched. */
  lemma PlannedBefore(k12: Hash, stream: nat, l: Life, e: SlotEvent, s: Signed)
    requires Lived(k12, stream, l) && IsService(e) && s in CallSet(CallsOf(NextLife(k12, l, e).h.slot))
    ensures s in CallSet(CallsOf(l.h.slot))
    ensures e.Pruned? && !NextLife(k12, l, e).h.slot.state.Draining? ==> !Prunes(l.h, s, e.tick)
  {
    var n := NextLife(k12, l, e);
    PlannedCallsAreExact(k12, stream, l, e, s);
    NoCalls();
    assert NewlySigned(l.h.slot, n.h.slot, e) == [];
    hide Lived, Prunes, StepSlot, CallSet;
  }

  /** A sendable call of the dispatching slot has a task afterwards. */
  lemma SendableIsSent(k12: Hash, stream: nat, a: Life, tick: nat, s: Signed)
    requires Lived(k12, stream, a) && Sendable(a, s, tick)
    ensures s.tx.target in NextLife(k12, a, DispatchDue(tick)).running
  {
    DispatchIsComplete(k12, stream, a, tick, s);
    hide Lived, CallSet, ChainAccepted, NewlySent, Next;
  }

  lemma SendableBefore(a: Life, n: Life, s: Signed, tick: nat)
    requires Sendable(n, s, tick) && s in CallSet(CallsOf(a.h.slot))
    requires n.h.signed == a.h.signed && n.h.accepted == a.h.accepted && n.h.chainFirst == a.h.chainFirst && n.failed == a.failed
    ensures Sendable(a, s, tick)
  {
  }

  /** Over every run: after a service at a tick, whatever came before it, nothing is left to do for
      the slot at that tick. */
  lemma ServiceIsComplete(k12: Hash, stream: nat, l: Life, tick: nat)
    requires Lived(k12, stream, l)
    ensures Serviced(RunLife(k12, l, Service(tick)), tick)
  {
    var a := NextLife(k12, l, ExpiryDue(tick));
    var b := NextLife(k12, a, DispatchDue(tick));
    var c := NextLife(k12, b, DrainChecked);
    var d := NextLife(k12, c, RestartChecked(tick));
    var n := NextLife(k12, d, Pruned(tick));
    ServiceSteps(k12, l, tick, a, b, c, d, n);
    ServiceStates(k12, stream, l, tick, a, b, c, d, n);
    SameUnaccepted(n.h, l.h, tick);
    assert l.failed <= a.failed;
    ServiceStep(k12, stream, a, DispatchDue(tick));
    ServiceStep(k12, stream, b, DrainChecked);
    ServiceKeeps(k12, d, Pruned(tick));
    hide NextLife, Lived, Prunes, Sendable, Unaccepted, AnyOverdue, CallSet, Service;
    if n.h.slot.state.Draining? { DrainIsAhead(k12, stream, l, tick, n); }
    forall s | Sendable(n, s, tick) ensures s.tx.target in n.running {
      assert s in CallSet(CallsOf(n.h.slot)) by { PlannedIfSendable(n, s, tick); }
      PlannedBefore(k12, stream, d, Pruned(tick), s);
      PlannedBefore(k12, stream, c, RestartChecked(tick), s);
      PlannedBefore(k12, stream, b, DrainChecked, s);
      PlannedBefore(k12, stream, a, DispatchDue(tick), s);
      SendableBefore(a, n, s, tick);
      SendableIsSent(k12, stream, a, tick, s);
    }
    if n.h.slot.chain.Some? && !n.h.slot.state.Draining? {
      forall s | s in CallSet(CallsOf(n.h.slot)) ensures !Prunes(n.h, s, tick) {
        PlannedBefore(k12, stream, d, Pruned(tick), s);
        SamePrunes(n.h, d.h, s, tick);
      }
    }
  }

  lemma PlannedIfSendable(l: Life, s: Signed, tick: nat)
    requires Sendable(l, s, tick)
    ensures s in CallSet(CallsOf(l.h.slot))
  {
  }

  lemma SamePrunes(a: Trace, b: Trace, s: Signed, tick: nat)
    requires a.accepted == b.accepted && a.chainFirst == b.chainFirst
    ensures Prunes(a, s, tick) <==> Prunes(b, s, tick)
  {
  }

  // ---------------------------------------------------------------- a completed cycle

  lemma FreeMayStart(k12: Hash, stream: nat, l: Life)
    requires Lived(k12, stream, l)
    ensures SlotOk(l.h.slot) && (Free(l) <==> MayStart(l.h.slot.state))
  {
    LivedWaits(k12, stream, l);
    KnownFacts(k12, l);
    hide Told, Known, Lived, SeenAbsent;
  }

  /** Only an answer makes a slot free to start. */
  lemma NotFreeStays(k12: Hash, slot: ManagedSlot, e: SlotEvent)
    requires SlotOk(slot) && !MayStart(slot.state) && !e.StatusSeen? && !e.EpochReset?
    ensures !MayStart(StepSlot(k12, slot, e).slot.state)
  {
    hide ChainOk;
  }

  lemma {:induction false} NotFreeRuns(k12: Hash, l: Life, events: seq<SlotEvent>)
    requires SlotOk(l.h.slot) && !MayStart(l.h.slot.state) && forall e :: e in events ==> !e.StatusSeen? && !e.EpochReset?
    ensures !MayStart(RunLife(k12, l, events).h.slot.state)
    decreases |events|
  {
    hide SlotOk, StepSlot;
    if events != [] {
      assert events[0] in events && forall e :: e in events[1..] ==> e in events;
      NotFreeStays(k12, l.h.slot, events[0]);
      StepKeepsShape(k12, l.h.slot, events[0]);
      NotFreeRuns(k12, NextLife(k12, l, events[0]), events[1..]);
    }
  }

  /** The chain is planned past the tick six ahead, or to the last 32-bit tick. */
  ghost predicate PlannedAhead(l: Life, tick: nat) {
    l.h.slot.state.Live() ==>
      l.h.signed != [] && (tick + 6 < LastTarget(l.h.signed) + 3 || U32_MAX < LastTarget(l.h.signed) + 3)
  }

  /** What starting and extending leave when both go well. */
  lemma PlanningIsComplete(k12: Hash, stream: nat, l: Life, c: CycleInput)
    requires Lived(k12, stream, l) && PlansFully(k12, l.h.slot, stream, c)
    ensures var k := RunLife(k12, l, [StartAsked(c.info.tick, c.starts(stream)), ExtendAsked(c.info.tick, c.draws(stream))]);
      Lived(k12, stream, k) && !Free(k) && PlannedAhead(k, c.info.tick)
  {
    hide Lived, ExtendTo;
    var e, f := StartAsked(c.info.tick, c.starts(stream)), ExtendAsked(c.info.tick, c.draws(stream));
    var m := NextLife(k12, l, e);
    var k := NextLife(k12, m, f);
    LifeJoins(k12, l, [e], [f]);
    OneStep(k12, l, e);
    OneStep(k12, m, f);
    assert [e] + [f] == [e, f];
    StepLives(k12, stream, l, e);
    StepLives(k12, stream, m, f);
    FreeMayStart(k12, stream, l);
    FreeMayStart(k12, stream, m);
    FreeMayStart(k12, stream, k);
    StartEnds(k12, l.h.slot, e);
    NotFreeStays(k12, m.h.slot, f);
    ExtendEnds(k12, m.h.slot, c.info.tick, c.draws(stream));
    LivedIsKnown(k12, stream, k);
    LiveTail(k12, k);
    hide SlotOk, Free, MayStart, ExtendChain, NextWait, NextRunning, NextFailed, NextAcknowledged, Known;
  }

  lemma StartEnds(k12: Hash, slot: ManagedSlot, e: SlotEvent)
    requires e.StartAsked? && StartIfReady(k12, slot, e.tick, e.preimage).Some?
    ensures var n := StepSlot(k12, slot, e).slot; n == StartIfReady(k12, slot, e.tick, e.preimage).value && !MayStart(n.state)
  {
  }

  lemma ExtendEnds(k12: Hash, slot: ManagedSlot, tick: nat, draws: nat -> Option<Bits>)
    requires SlotOk(slot) && ExtendChain(k12, slot, tick, draws).Some? && !SigningStopped(k12, slot, tick, draws)
    ensures var n := StepSlot(k12, slot, ExtendAsked(tick, draws)).slot;
      n.state.Live() ==> n.chain.Some? && (tick + 6 < n.chain.value.last + 3 || U32_MAX < n.chain.value.last + 3)
  {
    hide ChainOk, ExtendTo, AnyExpires;
  }

  lemma AheadStays(k12: Hash, stream: nat, l: Life, tick: nat, n: Life)
    requires Lived(k12, stream, l) && n == RunLife(k12, l, Service(tick)) && PlannedAhead(l, tick)
    ensures PlannedAhead(n, tick)
  {
    var a := NextLife(k12, l, ExpiryDue(tick));
    var b := NextLife(k12, a, DispatchDue(tick));
    var c := NextLife(k12, b, DrainChecked);
    var d := NextLife(k12, c, RestartChecked(tick));
    var last := NextLife(k12, d, Pruned(tick));
    ServiceSteps(k12, l, tick, a, b, c, d, last);
    ServiceStates(k12, stream, l, tick, a, b, c, d, last);
    hide NextLife, Lived, Service, RunLife, Unaccepted, AnyOverdue;
  }

  /** Over every run: after a completed cycle nothing is left to do for the slot at the cycle's tick.
      While planning, moreover, a live chain is planned past the tick six ahead, and no slot that
      is free to start is left waiting. */
  lemma CompletedCycleIsDone(k12: Hash, stream: nat, l: Life, tier: nat, resumeDelay: nat, w: Watch, c: CycleInput)
    requires Lived(k12, stream, l)
    requires var phase := NextPhase(w.phase, c.info, resumeDelay, c.stopWindow);
      PlansWell(k12, RunLife(k12, l, ObserveEvents(tier, stream, w, c)).h.slot, stream, phase, c)
    ensures var n := RunLife(k12, l, CycleEvents(tier, resumeDelay, stream, w, c));
      && Serviced(n, c.info.tick)
      && (NextPhase(w.phase, c.info, resumeDelay, c.stopWindow).Planning? && !c.shuttingDown ==>
            PlannedAhead(n, c.info.tick) && !Free(n))
  {
    hide Lived, NextLife, Serviced, PlannedAhead, Free, PlansFully, NextPhase, ObserveEvents, DrainsFully, SlotOk;
    var phase := NextPhase(w.phase, c.info, resumeDelay, c.stopWindow);
    var seen, plan := ObserveEvents(tier, stream, w, c), PlanPart(stream, phase, c);
    var m := RunLife(k12, l, seen);
    var k := RunLife(k12, m, plan);
    var n := RunLife(k12, k, Service(c.info.tick));
    LifeJoins(k12, l, seen, plan);
    LifeJoins(k12, l, seen + plan, Service(c.info.tick));
    LivesOn(k12, stream, l, seen);
    LivesOn(k12, stream, m, plan);
    LivesOn(k12, stream, k, Service(c.info.tick));
    ServiceIsComplete(k12, stream, k, c.info.tick);
    if phase.Planning? && !c.shuttingDown {
      PlanningIsComplete(k12, stream, m, c);
      AheadStays(k12, stream, k, c.info.tick, n);
      FreeMayStart(k12, stream, k);
      FreeMayStart(k12, stream, n);
      NotFreeRuns(k12, k, Service(c.info.tick));
    }
  }

  // ---------------------------------------------------------------- what a cycle observes

  lemma PollAccepts(k12: Hash, stream: nat, l: Life, polls: nat -> Poll, target: nat)
    requires Lived(k12, stream, l)
    ensures target in NextLife(k12, l, Polled(polls)).h.accepted <==>
      target in l.h.accepted || (target in l.running && Answered(l.h.slot, polls, target, true))
  {
    LivedIsKnown(k12, stream, l);
    KnownFacts(k12, l);
    var calls := CallsOf(l.h.slot);
    var n := NextLife(k12, l, Polled(polls));
    assert n.h.accepted == l.h.accepted + AcceptedBy(l.h.slot, Polled(polls));
    hide Lived, Known, SlotOk, Links, NextLife, SentTo, SentAgain;
    if target in AcceptedBy(l.h.slot, Polled(polls)) {
      var i :| 0 <= i < |calls| && NewlyAccepted(calls[i], polls(i)) && calls[i].target == target;
      assert CallKnown(l, calls[i]);
    }
    if target in l.running && Answered(l.h.slot, polls, target, true) && target !in l.h.accepted {
      var i :| 0 <= i < |calls| && calls[i].target == target && polls(i) == Done(true);
      assert CallKnown(l, calls[i]);
    }
  }

  /** The slot's update tick in an answer: that of the listed slot of its stream and tier. */
  ghost predicate ShownIn(tier: nat, stream: nat, list: seq<ProviderStatus.ProviderSlot>, observed: Option<nat>) {
    var key := ProviderStatus.SlotKey(stream, tier);
    if observed.Some? then exists x :: x in list && x.key == key && x.lastUpdate == observed.value
    else forall x :: x in list ==> x.key != key
  }

  lemma ObservedIsShown(tier: nat, stream: nat, list: seq<ProviderStatus.ProviderSlot>)
    ensures ShownIn(tier, stream, list, ObservedIn(tier, stream, list))
  {
    var key := ProviderStatus.SlotKey(stream, tier);
    var found := ProviderStatus.SlotFor(list, key);
    if found.Some? {
      assert found.value in list;
    } else {
      forall x | x in list ensures x.key != key {
        var k :| 0 <= k < |list| && list[k] == x;
        assert list[k].key == key ==> ProviderStatus.Listed(list, key);
      }
    }
  }

  /** Before it plans, a cycle starts over in a new epoch; otherwise every task found finished well is
      accepted, and a status answer that arrived for a query of this epoch, and no other, is
      applied as an observation at the tick of that query. */
  lemma CycleObserves(k12: Hash, stream: nat, l: Life, tier: nat, w: Watch, c: CycleInput)
    requires Lived(k12, stream, l)
    ensures var m := RunLife(k12, l, ObserveEvents(tier, stream, w, c));
      if w.phase.None? || w.phase.value.epoch != c.info.epoch then m.h == Begin(stream)
      else
        && (forall t: nat :: t in m.h.accepted <==>
              t in l.h.accepted || (t in l.running && Answered(l.h.slot, c.polls(stream), t, true)))
        && if w.query.Some? && c.status.StatusAnswer? then
             exists x :: ShownIn(tier, stream, c.status.slots, x) && m.h.seen == l.h.seen + [Observation(w.query.value.requested, x)]
           else m.h.seen == l.h.seen
  {
    var reset, polled, status := ResetPart(w.phase, c.info), [Polled(c.polls(stream))], StatusPart(tier, stream, AnsweredBy(w, c));
    var a := RunLife(k12, l, reset);
    var b := NextLife(k12, a, Polled(c.polls(stream)));
    LifeJoins(k12, l, reset + polled, status);
    LifeJoins(k12, l, reset, polled);
    OneStep(k12, a, Polled(c.polls(stream)));
    StreamIs(k12, stream, l);
    if NewEpoch(w.phase, c.info) {
      OneStep(k12, l, EpochReset);
      FreshPoll(k12, stream, c.polls(stream));
    } else {
      forall t: nat ensures t in b.h.accepted <==>
        t in l.h.accepted || (t in l.running && Answered(l.h.slot, c.polls(stream), t, true))
      {
        PollAccepts(k12, stream, l, c.polls(stream), t);
      }
      if AnsweredBy(w, c).Some? {
        ObservedIsShown(tier, stream, c.status.slots);
        OneStep(k12, b, status[0]);
      }
    }
    hide Lived, StepSlot, Answered, ShownIn, ObservedIn;
  }

  lemma StreamIs(k12: Hash, stream: nat, l: Life)
    requires Lived(k12, stream, l)
    ensures l.h.slot.stream == stream
  {
    var past :| RunLife(k12, NewLife(stream), past) == l;
    LifeIsRun(k12, NewLife(stream), past);
    RunKeepsStream(k12, Begin(stream), past);
  }

  lemma FreshPoll(k12: Hash, stream: nat, polls: nat -> Poll)
    ensures Next(k12, Begin(stream), Polled(polls)) == Begin(stream)
  {
  }
}
