/** Restart freshness over all runs: a chain starts only on an absence seen at or after the
    slot's bound with no occupied answer since, and the bound moves past every discontinuity. */
module SlotFreshness {
  import opened Basics
  import opened SlotRules
  import opened SlotRuns
  import opened SlotShape
  import opened SlotLinks
  import opened SlotFreeze

  /** States that wait for the slot to be absent on the contract. */
  predicate Idle(s: SlotState) { s.Waiting? || s.Restarting? }

  predicate AllAbsent(seen: seq<Observation>, from: nat) {
    forall j :: from <= j < |seen| ==> seen[j].observed.None?
  }

  /** Some answer, requested at or after the bound, showed the slot absent, and so did every
      answer applied since. */
  ghost predicate AbsentSince(seen: seq<Observation>, bound: nat) {
    exists i: nat :: i < |seen| && bound <= seen[i].requested && AllAbsent(seen, i)
  }

  ghost predicate AbsenceKnown(h: Trace) {
    Idle(h.slot.state) && h.slot.state.absenceObserved ==> AbsentSince(h.seen, h.slot.state.absenceAfter)
  }

  lemma SinceGrows(seen: seq<Observation>, bound: nat, o: Observation)
    requires o.observed.None?
    requires AbsentSince(seen, bound) || bound <= o.requested
    ensures AbsentSince(seen + [o], bound)
  {
    var n := seen + [o];
    if bound <= o.requested {
      assert n[|seen|] == o && AllAbsent(n, |seen|);
    } else {
      var i: nat :| i < |seen| && bound <= seen[i].requested && AllAbsent(seen, i);
      assert n[i] == seen[i];
      forall j | i <= j < |n| ensures n[j].observed.None? { assert j < |seen| ==> n[j] == seen[j]; }
      assert AllAbsent(n, i);
    }
  }

  lemma EvidenceIsFresh(slot: ManagedSlot, e: Evidence, requested: nat)
    requires slot.state.Live() && slot.chain.Some?
    ensures var s := ObserveEvidence(slot, e, requested).slot.state;
      Idle(s) && s.absenceObserved ==> e.Absent? && requested >= s.absenceAfter
  {
    hide FinancialFailureTarget;
  }

  /** How one answer moves a waiting or freezing slot. */
  lemma StatusIsFresh(slot: ManagedSlot, requested: nat, observed: Option<nat>)
    requires slot.state.Live() ==> slot.chain.Some?
    ensures var s := ApplyStatus(slot, requested, observed).slot.state;
      Idle(s) && s.absenceObserved ==>
        && observed.None?
        && (requested >= s.absenceAfter
            || (Idle(slot.state) && slot.state.absenceObserved && slot.state.absenceAfter == s.absenceAfter))
  {
    if slot.state.Live() {
      var active := slot.(state := Active);
      EvidenceIsFresh(slot, if observed.Some? then Foreign(observed.value) else Absent, requested);
      if observed.Some? {
        EvidenceIsFresh(active, Lag(observed.value + STREAM_COUNT), requested);
        EvidenceIsFresh(active.(chain := Some(slot.chain.value.(confirmed := observed, suspicion := None))),
                        Lag(observed.value + STREAM_COUNT), requested);
      }
    }
    hide ObserveEvidence;
  }

  /** Other steps start no wait with an absence already seen. */
  lemma OtherIsFresh(k12: Hash, slot: ManagedSlot, e: SlotEvent)
    requires SlotOk(slot) && !e.StatusSeen?
    ensures var s := StepSlot(k12, slot, e).slot.state;
      Idle(s) && s.absenceObserved ==> Idle(slot.state) && slot.state.absenceObserved && slot.state.absenceAfter == s.absenceAfter
  {
    hide ChainOk;
  }

  lemma StepAbsenceKnown(k12: Hash, h: Trace, e: SlotEvent)
    requires SlotOk(h.slot) && AbsenceKnown(h)
    ensures AbsenceKnown(Next(k12, h, e))
  {
    if e.StatusSeen? {
      StatusIsFresh(h.slot, e.requested, e.observed);
      var s := Next(k12, h, e).slot.state;
      if Idle(s) && s.absenceObserved {
        SinceGrows(h.seen, s.absenceAfter, Observation(e.requested, e.observed));
      }
      hide ApplyStatus, AbsentSince;
    } else {
      OtherIsFresh(k12, h.slot, e);
    }
  }

  lemma {:induction false} RunAbsenceKnown(k12: Hash, h: Trace, events: seq<SlotEvent>)
    requires SlotOk(h.slot) && AbsenceKnown(h)
    ensures AbsenceKnown(RunSlot(k12, h, events))
    decreases |events|
  {
    if events != [] {
      StepKeepsShape(k12, h.slot, events[0]);
      StepAbsenceKnown(k12, h, events[0]);
      RunAbsenceKnown(k12, Next(k12, h, events[0]), events[1..]);
    }
  }

  /** Over every run: a chain start is justified by an absence of the same epoch, requested at
      or after the slot's bound, with no occupied answer applied since. */
  lemma StartIsJustified(k12: Hash, stream: nat, events: seq<SlotEvent>, e: SlotEvent)
    requires stream < STREAM_COUNT
    ensures var h := RunSlot(k12, Begin(stream), events);
      Started(k12, h.slot, e) ==> Idle(h.slot.state) && AbsentSince(h.seen, h.slot.state.absenceAfter)
  {
    RunAbsenceKnown(k12, Begin(stream), events);
  }

  // ---------------------------------------------------------------- the bound

  /** One step never lowers the bound of an idle slot, and an occupied answer lifts it past
      its request. */
  lemma BoundGrows(k12: Hash, slot: ManagedSlot, e: SlotEvent)
    requires SlotOk(slot) && Idle(slot.state) && !e.EpochReset?
    ensures var s := StepSlot(k12, slot, e).slot.state;
      && (Idle(s) ==> slot.state.absenceAfter <= s.absenceAfter)
      && (Idle(s) && e.StatusSeen? && e.observed.Some? ==> SaturatingAdd(e.requested, 1) <= s.absenceAfter && !s.absenceObserved)
      && (!Started(k12, slot, e) ==> Idle(s) || s.Drained?)
  {
    hide ChainOk;
  }

  /** While idle, a slot counts as absent exactly when the latest answer said so and either that
      answer was requested at or after the bound or an earlier one already was. */
  lemma AbsenceIsNoticed(slot: ManagedSlot, requested: nat, observed: Option<nat>)
    requires Idle(slot.state)
    ensures var s := ApplyStatus(slot, requested, observed).slot.state;
      && Idle(s)
      && (s.absenceObserved <==> observed.None? && (slot.state.absenceAfter <= requested || slot.state.absenceObserved))
  {
  }

  lemma DrainedStays(k12: Hash, slot: ManagedSlot, e: SlotEvent)
    requires SlotOk(slot) && slot.state.Drained? && !e.EpochReset?
    ensures StepSlot(k12, slot, e) == Outcome(slot, [])
  {
  }

  lemma {:induction false} RunDrainedStays(k12: Hash, h: Trace, events: seq<SlotEvent>)
    requires SlotOk(h.slot) && h.slot.state.Drained? && NoReset(events)
    ensures RunSlot(k12, h, events).slot == h.slot
    decreases |events|
  {
    if events != [] {
      assert events[0] in events && forall e :: e in events[1..] ==> e in events;
      DrainedStays(k12, h.slot, events[0]);
      RunDrainedStays(k12, Next(k12, h, events[0]), events[1..]);
    }
  }

  lemma FirstIsLater(k12: Hash, h: Trace, e: SlotEvent)
    requires Links(k12, h) && Onward(h) && Started(k12, h.slot, e)
    ensures h.chainFirst < Next(k12, h, e).chainFirst
  {
    StartTargetFits(h.slot, e.tick);
    StepOnward(k12, h, e);
  }

  /** Within an epoch, until the next chain starts, the bound never decreases. */
  lemma {:induction false} BoundNeverDecreases(k12: Hash, h: Trace, events: seq<SlotEvent>)
    requires Links(k12, h) && Onward(h) && Idle(h.slot.state) && NoReset(events)
    ensures var n := RunSlot(k12, h, events);
      Idle(n.slot.state) && n.chainFirst == h.chainFirst ==> h.slot.state.absenceAfter <= n.slot.state.absenceAfter
    decreases |events|
  {
    if events != [] {
      var m := Next(k12, h, events[0]);
      assert events[0] in events && forall e :: e in events[1..] ==> e in events;
      StepLinks(k12, h, events[0]);
      StepOnward(k12, h, events[0]);
      BoundGrows(k12, h.slot, events[0]);
      StaysOnward(k12, m, events[1..]);
      if Idle(m.slot.state) {
        BoundNeverDecreases(k12, m, events[1..]);
      } else if Started(k12, h.slot, events[0]) {
        FirstIsLater(k12, h, events[0]);
      } else {
        RunDrainedStays(k12, m, events[1..]);
      }
    }
  }

  /** A live chain is lost locally only by expiry or by a continuation that was never planned,
      and then the bound is the tick after the discontinuity, saturating at the last tick. */
  lemma LossSetsTheBound(k12: Hash, slot: ManagedSlot, e: SlotEvent)
    requires SlotOk(slot) && slot.state.Live() && !e.EpochReset?
    ensures var s := StepSlot(k12, slot, e).slot.state;
      s.Waiting? ==>
        && (e.ExpiryDue? || e.ExtendAsked?)
        && s == Waiting(SaturatingAdd(e.tick, 1), false)
        && (e.tick <= U32_MAX ==> (e.tick < s.absenceAfter <==> e.tick < U32_MAX))
  {
    hide ChainOk;
  }

  /** From any reachable waiting or frozen state on, the next chain start rests on an absence
      requested at or after the bound of that state. */
  lemma NextStartIsFresh(k12: Hash, stream: nat, h: Trace, events: seq<SlotEvent>, start: SlotEvent)
    requires Reachable(k12, stream, h) && Idle(h.slot.state) && NoReset(events)
    ensures var n := RunSlot(k12, h, events);
      n.chainFirst == h.chainFirst && Started(k12, n.slot, start) ==> AbsentSince(n.seen, h.slot.state.absenceAfter)
  {
    var past :| RunSlot(k12, Begin(stream), past) == h;
    BeginLinks(k12, stream);
    RunOnward(k12, Begin(stream), past);
    RunAbsenceKnown(k12, Begin(stream), past);
    var n := RunSlot(k12, h, events);
    RunAbsenceKnown(k12, h, events);
    if n.chainFirst == h.chainFirst && Started(k12, n.slot, start) {
      BoundNeverDecreases(k12, h, events);
      var i: nat :| i < |n.seen| && n.slot.state.absenceAfter <= n.seen[i].requested && AllAbsent(n.seen, i);
    }
    hide Links, Onward, StepSlot, StartTarget;
  }

  /** Over every run: after a live chain was lost locally, the next chain start rests on an absence
      requested at or after the tick that follows the loss, so strictly after the loss exactly
      when that tick is not the last 32-bit one. */
  lemma RestartAfterLossIsFresh(k12: Hash, stream: nat, h: Trace, loss: SlotEvent, events: seq<SlotEvent>, start: SlotEvent)
    requires Reachable(k12, stream, h) && h.slot.state.Live() && !loss.EpochReset? && NoReset(events)
    ensures var m := Next(k12, h, loss);
      m.slot.state.Waiting? ==>
        && (loss.ExpiryDue? || loss.ExtendAsked?)
        && (loss.tick <= U32_MAX ==> (loss.tick < SaturatingAdd(loss.tick, 1) <==> loss.tick < U32_MAX))
        && var n := RunSlot(k12, m, events);
           n.chainFirst == m.chainFirst && Started(k12, n.slot, start) ==> AbsentSince(n.seen, SaturatingAdd(loss.tick, 1))
  {
    var past :| RunSlot(k12, Begin(stream), past) == h;
    RunKeepsShape(k12, Begin(stream), past);
    LossSetsTheBound(k12, h.slot, loss);
    var m := Next(k12, h, loss);
    if m.slot.state.Waiting? {
      RunAppend(k12, Begin(stream), past, loss);
      assert m.slot.state.absenceAfter == SaturatingAdd(loss.tick, 1);
      hide SlotOk, StepSlot, Started, RunSlot, AbsentSince;
      NextStartIsFresh(k12, stream, m, events, start);
    }
  }
}
