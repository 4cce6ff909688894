/** Drain progress: once asked to drain, a slot is drained by the first serviced tick that
    reaches its terminal target, or the tail of a frozen chain, and stays drained. */
module SlotProgress {
  import opened Basics
  import opened SlotRules
  import opened SlotRuns
  import opened SlotShape
  import opened SlotSends
  import opened SlotFreeze
  import opened SlotFreshness

  /** The last five calls an engine cycle makes for a slot, whatever happened before them. */
  function Service(tick: nat): seq<SlotEvent> {
    [ExpiryDue(tick), DispatchDue(tick), DrainChecked, RestartChecked(tick), Pruned(tick)]
  }

  /** The slot drains, and this is the tick by which it must be done. */
  predicate DrainsBy(slot: ManagedSlot, due: nat) {
    match slot.state
    case Draining(_, terminal) => due == terminal
    case Restarting(tail, _, _, drain) => drain.Some? && due == tail
    case Drained(_) => true
    case _ => false
  }

  /** The deadline a drain request sets: the terminal target, or the tail of a frozen chain. */
  function DrainDue(slot: ManagedSlot): nat {
    match slot.state
    case Draining(_, terminal) => terminal
    case Restarting(tail, _, _, _) => tail
    case _ => if slot.state.Live() && slot.chain.Some? then slot.chain.value.last + STREAM_COUNT else 0
  }

  /** A drain request is refused exactly when the live chain's tail leaves no room for a
      terminal target; otherwise the slot drains from here on. */
  lemma DrainIsAsked(k12: Hash, slot: ManagedSlot, reason: DrainReason)
    requires SlotOk(slot)
    ensures EnterDrain(slot, reason).None? <==> slot.state.Live() && U32_MAX < slot.chain.value.last + STREAM_COUNT
    ensures var n := EnterDrain(slot, reason); n.Some? ==> DrainsBy(n.value, DrainDue(slot))
  {
  }

  /** Nothing but an epoch change ends a drain without finishing it, or moves its deadline. */
  lemma DrainGoesOn(k12: Hash, slot: ManagedSlot, e: SlotEvent, due: nat)
    requires SlotOk(slot) && DrainsBy(slot, due) && !e.EpochReset?
    ensures DrainsBy(StepSlot(k12, slot, e).slot, due)
  {
    hide ChainOk;
  }

  lemma {:induction false} RunDrainGoesOn(k12: Hash, h: Trace, events: seq<SlotEvent>, due: nat)
    requires SlotOk(h.slot) && DrainsBy(h.slot, due) && NoReset(events)
    ensures var n := RunSlot(k12, h, events); SlotOk(n.slot) && DrainsBy(n.slot, due)
    decreases |events|
  {
    if events != [] {
      assert events[0] in events && forall e :: e in events[1..] ==> e in events;
      StepKeepsShape(k12, h.slot, events[0]);
      DrainGoesOn(k12, h.slot, events[0], due);
      RunDrainGoesOn(k12, Next(k12, h, events[0]), events[1..], due);
    }
  }

  /** A shutdown drain, or one that is over. */
  predicate ShutdownKept(slot: ManagedSlot) {
    match slot.state
    case Draining(reason, _) => reason.Shutdown?
    case Restarting(_, _, _, drain) => drain == Some(Shutdown)
    case Drained(_) => true
    case _ => false
  }

  lemma ShutdownGoesOn(k12: Hash, slot: ManagedSlot, e: SlotEvent)
    requires SlotOk(slot) && ShutdownKept(slot) && !e.EpochReset?
    ensures ShutdownKept(StepSlot(k12, slot, e).slot)
  {
    hide ChainOk;
  }

  lemma {:induction false} RunShutdownGoesOn(k12: Hash, h: Trace, events: seq<SlotEvent>)
    requires SlotOk(h.slot) && ShutdownKept(h.slot) && NoReset(events)
    ensures ShutdownKept(RunSlot(k12, h, events).slot)
    decreases |events|
  {
    if events != [] {
      assert events[0] in events && forall e :: e in events[1..] ==> e in events;
      StepKeepsShape(k12, h.slot, events[0]);
      ShutdownGoesOn(k12, h.slot, events[0]);
      RunShutdownGoesOn(k12, Next(k12, h, events[0]), events[1..]);
    }
  }

  /** After expiry at its target a terminal call is final, or the drain has failed. */
  lemma ExpiryFinishes(slot: ManagedSlot, tick: nat, due: nat)
    requires SlotOk(slot) && DrainsBy(slot, due) && due <= tick
    ensures var n := ExpireCalls(slot, tick).slot;
      n.state.Draining? ==> CallsOf(n) != [] && Final(CallsOf(n)[|CallsOf(n)| - 1].state)
  {
    if slot.state.Draining? {
      var calls := slot.chain.value.calls;
      var c := calls[|calls| - 1];
      assert CallOk(c, slot.stream);
      if !Final(c.state) { assert Expires(c, slot.chain.value.first, tick); }
    }
  }

  lemma FinalIsKept(slot: ManagedSlot, tick: nat)
    requires SlotOk(slot) && slot.state.Draining? && Final(CallsOf(slot)[|CallsOf(slot)| - 1].state)
    requires slot.state.terminalTarget <= tick
    ensures FinishDrain(DispatchCalls(slot, tick).slot).state.Drained?
  {
    var calls, x := slot.chain.value.calls, ContextOf(slot, tick);
    var n := DispatchCalls(slot, tick).slot;
    DispatchKeeps(slot, tick);
    assert CallsOf(n)[|calls| - 1] == Dispatched(calls[|calls| - 1], x) == calls[|calls| - 1];
    TerminalIsLast(CallsOf(n), n.chain.value.last, n.state);
  }

  lemma RestartFinishes(slot: ManagedSlot, tick: nat, due: nat)
    requires SlotOk(slot) && DrainsBy(slot, due) && due <= tick && !slot.state.Draining?
    ensures FinishStatusRestart(FinishDrain(slot), tick).state.Drained?
  {
  }

  lemma RunFirst(k12: Hash, h: Trace, e: SlotEvent, rest: seq<SlotEvent>)
    ensures RunSlot(k12, h, [e] + rest) == RunSlot(k12, Next(k12, h, e), rest)
  {
    assert ([e] + rest)[1..] == rest;
  }

  /** The service step by step. */
  lemma RunService(k12: Hash, h: Trace, tick: nat)
    ensures var b := Next(k12, Next(k12, h, ExpiryDue(tick)), DispatchDue(tick));
      var c := Next(k12, b, DrainChecked);
      RunSlot(k12, h, Service(tick)) == RunSlot(k12, c, [RestartChecked(tick), Pruned(tick)])
  {
    hide Next;
    var a := Next(k12, h, ExpiryDue(tick));
    var b := Next(k12, a, DispatchDue(tick));
    RunFirst(k12, h, ExpiryDue(tick), [DispatchDue(tick), DrainChecked, RestartChecked(tick), Pruned(tick)]);
    RunFirst(k12, a, DispatchDue(tick), [DrainChecked, RestartChecked(tick), Pruned(tick)]);
    RunFirst(k12, b, DrainChecked, [RestartChecked(tick), Pruned(tick)]);
  }

  lemma ServiceDrains(k12: Hash, h: Trace, tick: nat, due: nat)
    requires SlotOk(h.slot) && DrainsBy(h.slot, due) && due <= tick
    ensures RunSlot(k12, h, Service(tick)).slot.state.Drained?
  {
    hide SlotOk, ExpireCalls, DispatchEach, FinishDrain, FinishStatusRestart, PruneCalls, NewlySent, NewlySigned, NextStreak, Failures,
         RunSlot;
    var a := Next(k12, h, ExpiryDue(tick));
    var b := Next(k12, a, DispatchDue(tick));
    var c := Next(k12, b, DrainChecked);
    var d := Next(k12, c, RestartChecked(tick));
    StepKeepsShape(k12, h.slot, ExpiryDue(tick));
    StepKeepsShape(k12, a.slot, DispatchDue(tick));
    StepKeepsShape(k12, b.slot, DrainChecked);
    DrainGoesOn(k12, h.slot, ExpiryDue(tick), due);
    DrainGoesOn(k12, a.slot, DispatchDue(tick), due);
    DrainGoesOn(k12, b.slot, DrainChecked, due);
    ExpiryFinishes(h.slot, tick, due);
    RunService(k12, h, tick);
    RunFirst(k12, c, RestartChecked(tick), [Pruned(tick)]);
    assert [RestartChecked(tick), Pruned(tick)] == [RestartChecked(tick)] + [Pruned(tick)];
    if a.slot.state.Draining? {
      FinalIsKept(a.slot, tick);
      RunDrainedStays(k12, c, [RestartChecked(tick), Pruned(tick)]);
    } else {
      assert d.slot.state.Drained? by { RestartFinishes(b.slot, tick, due); }
      StepKeepsShape(k12, c.slot, RestartChecked(tick));
      RunDrainedStays(k12, d, [Pruned(tick)]);
    }
  }

  /** From the drain request on: let anything happen short of an epoch change, then service the
      slot at a tick that reaches the deadline, then let anything happen again. The slot is
      drained and stays as it is. */
  lemma DrainFinishes(k12: Hash, h: Trace, before: seq<SlotEvent>, tick: nat, after: seq<SlotEvent>, due: nat)
    requires SlotOk(h.slot) && DrainsBy(h.slot, due) && NoReset(before) && due <= tick && NoReset(after)
    ensures var n := RunSlot(k12, RunSlot(k12, h, before), Service(tick));
      n.slot.state.Drained? && RunSlot(k12, n, after).slot == n.slot
  {
    var m := RunSlot(k12, h, before);
    var n := RunSlot(k12, m, Service(tick));
    RunDrainGoesOn(k12, h, before, due);
    ServiceDrains(k12, m, tick, due);
    RunKeepsShape(k12, m, Service(tick));
    RunDrainedStays(k12, n, after);
  }

  lemma {:induction false} RunJoins(k12: Hash, h: Trace, a: seq<SlotEvent>, b: seq<SlotEvent>)
    ensures RunSlot(k12, h, a + b) == RunSlot(k12, RunSlot(k12, h, a), b)
    decreases |a|
  {
    if a == [] {
      assert a + b == b;
    } else {
      assert (a + b)[1..] == a[1..] + b;
      RunJoins(k12, Next(k12, h, a[0]), a[1..], b);
    }
  }

  /** A completed cycle that asks for a drain: the slot drains from then on, by the deadline
      set by the state it was asked in, and is drained if the cycle's tick has reached it. Asked
      to shut down, a slot not yet in an epoch's drain is in a shutdown drain until it is drained. */
  lemma RequestAndService(k12: Hash, h: Trace, before: seq<SlotEvent>, reason: DrainReason, tick: nat)
    requires SlotOk(h.slot)
    ensures var m := RunSlot(k12, h, before).slot;
      var n := RunSlot(k12, h, before + [DrainAsked(reason)] + Service(tick)).slot;
      EnterDrain(m, reason).Some? ==>
        && DrainsBy(n, DrainDue(m)) && (DrainDue(m) <= tick ==> n.state.Drained?)
        && (reason.Shutdown? && !m.state.Draining? ==> ShutdownKept(n))
  {
    var m := RunSlot(k12, h, before);
    var d := Next(k12, m, DrainAsked(reason));
    RunJoins(k12, h, before, [DrainAsked(reason)]);
    RunJoins(k12, h, before + [DrainAsked(reason)], Service(tick));
    RunFirst(k12, m, DrainAsked(reason), []);
    assert [DrainAsked(reason)] + [] == [DrainAsked(reason)];
    RunKeepsShape(k12, h, before);
    StepKeepsShape(k12, m.slot, DrainAsked(reason));
    if EnterDrain(m.slot, reason).Some? {
      DrainIsAsked(k12, m.slot, reason);
      RunDrainGoesOn(k12, d, Service(tick), DrainDue(m.slot));
      if reason.Shutdown? && !m.slot.state.Draining? { RunShutdownGoesOn(k12, d, Service(tick)); }
      if DrainDue(m.slot) <= tick { ServiceDrains(k12, d, tick, DrainDue(m.slot)); }
    }
    hide SlotOk, EnterDrain, NewlySigned, NewlySent;
  }
}
