/** The shape every step keeps: which states own a chain, and how a chain's calls look. */
module SlotShape {
  import opened Basics
  import opened SlotRules
  import opened SlotRuns

  /** Task and retry bookkeeping of one call: a running task belongs to a first delivery or to
      the redundant send of an accepted call. */
  ghost predicate CallOk(c: PlannedCall, stream: nat) {
    && c.tx.target == c.target && c.target % STREAM_COUNT == stream && c.target <= U32_MAX
    && (c.inFlight ==> c.state.Broadcasting? || (c.state.Accepted? && c.redundantAttempted))
    && (c.state.Broadcasting? ==> c.inFlight)
    && (c.redundantAttempted ==> c.state.Accepted? && !c.kind.TerminalReveal?)
  }

  ghost predicate Ascending(calls: seq<PlannedCall>) {
    forall i, j :: 0 <= i < j < |calls| ==> calls[i].target < calls[j].target
  }

  ghost predicate CallsOk(calls: seq<PlannedCall>, stream: nat) {
    Ascending(calls) && forall i :: 0 <= i < |calls| ==> CallOk(calls[i], stream)
  }

  /** Nothing is planned beyond the tail, and only a draining slot has a terminal call, namely
      its last one. */
  ghost predicate TailShape(calls: seq<PlannedCall>, last: nat, state: SlotState) {
    if state.Draining? then
      && state.terminalTarget == last + STREAM_COUNT <= U32_MAX
      && calls != [] && calls[|calls| - 1].target == state.terminalTarget
      && forall i :: 0 <= i < |calls| ==>
           calls[i].target <= state.terminalTarget &&
           (calls[i].kind.TerminalReveal? <==> calls[i].target == state.terminalTarget)
    else
      forall i :: 0 <= i < |calls| ==> calls[i].target <= last && !calls[i].kind.TerminalReveal?
  }

  ghost predicate ChainOk(chain: Chain, stream: nat, state: SlotState) {
    && chain.first <= chain.last <= U32_MAX
    && chain.first % STREAM_COUNT == stream == chain.last % STREAM_COUNT
    && CallsOk(chain.calls, stream)
    && TailShape(chain.calls, chain.last, state)
  }

  /** A slot has a chain exactly in the states that manage one, and they agree on its ends. */
  ghost predicate SlotOk(slot: ManagedSlot) {
    && slot.stream < STREAM_COUNT
    && (slot.chain.Some? <==> !slot.state.Waiting? && !slot.state.Drained?)
    && (slot.chain.Some? ==> ChainOk(slot.chain.value, slot.stream, slot.state))
    && (slot.state.Starting? ==> slot.chain.value.first == slot.state.firstTarget)
    && (slot.state.Restarting? ==>
          slot.state.frozenTail == slot.chain.value.last && slot.restartAt == slot.state.frozenTail + STREAM_COUNT)
  }

  // ---------------------------------------------------------------- call by call

  /** A step that goes over the calls one by one, keeping what identifies them. */
  ghost predicate SameCalls(a: seq<PlannedCall>, b: seq<PlannedCall>) {
    && |a| == |b|
    && forall i :: 0 <= i < |a| ==> a[i].target == b[i].target && a[i].tx == b[i].tx && a[i].kind == b[i].kind
  }

  lemma EachKeepsShape(a: seq<PlannedCall>, b: seq<PlannedCall>, stream: nat, last: nat, state: SlotState)
    requires SameCalls(a, b) && CallsOk(a, stream) && TailShape(a, last, state)
    requires forall i :: 0 <= i < |b| ==> CallOk(b[i], stream)
    ensures CallsOk(b, stream) && TailShape(b, last, state)
  {
  }

  lemma ExpireEachOk(calls: seq<PlannedCall>, stream: nat, tick: nat)
    requires CallsOk(calls, stream)
    ensures var n := ExpireEach(calls, tick); SameCalls(calls, n) && forall i :: 0 <= i < |n| ==> CallOk(n[i], stream)
  {
    forall i | 0 <= i < |calls| ensures CallOk(ExpireEach(calls, tick)[i], stream) {
      assert CallOk(calls[i], stream);
    }
  }

  lemma DispatchEachOk(calls: seq<PlannedCall>, stream: nat, x: Context)
    requires CallsOk(calls, stream)
    ensures var n := DispatchEach(calls, x); SameCalls(calls, n) && forall i :: 0 <= i < |n| ==> CallOk(n[i], stream)
  {
    forall i | 0 <= i < |calls| ensures CallOk(DispatchEach(calls, x)[i], stream) {
      assert CallOk(calls[i], stream);
    }
  }

  lemma HarvestEachOk(calls: seq<PlannedCall>, stream: nat, polls: nat -> Poll, shutdown: bool)
    requires CallsOk(calls, stream)
    ensures var n := HarvestEach(calls, polls, shutdown);
      SameCalls(calls, n) && forall i :: 0 <= i < |n| ==> CallOk(n[i], stream)
  {
    forall i | 0 <= i < |calls| ensures CallOk(HarvestEach(calls, polls, shutdown)[i], stream) {
      assert CallOk(calls[i], stream);
    }
  }

  lemma RetainIn(calls: seq<PlannedCall>, first: nat, tick: nat, c: PlannedCall)
    requires c in Retain(calls, first, tick)
    ensures c in calls && Retained(c, first, tick)
  {
    if c in Retain(calls[1..], first, tick) {
      RetainIn(calls[1..], first, tick, c);
    }
  }

  lemma RetainOk(calls: seq<PlannedCall>, stream: nat, first: nat, tick: nat)
    requires CallsOk(calls, stream)
    ensures CallsOk(Retain(calls, first, tick), stream)
  {
    if calls != [] {
      var rest := Retain(calls[1..], first, tick);
      RetainOk(calls[1..], stream, first, tick);
      forall i | 0 <= i < |rest| ensures calls[0].target < rest[i].target {
        RetainIn(calls[1..], first, tick, rest[i]);
      }
    }
  }

  // ---------------------------------------------------------------- step by step

  lemma ExpireKeeps(slot: ManagedSlot, tick: nat)
    requires SlotOk(slot)
    ensures SlotOk(ExpireCalls(slot, tick).slot)
  {
    if slot.chain.Some? {
      var chain := slot.chain.value;
      ExpireEachOk(chain.calls, slot.stream, tick);
      EachKeepsShape(chain.calls, ExpireEach(chain.calls, tick), slot.stream, chain.last, slot.state);
    }
  }

  lemma DispatchKeeps(slot: ManagedSlot, tick: nat)
    requires SlotOk(slot)
    ensures SlotOk(DispatchCalls(slot, tick).slot)
  {
    if slot.chain.Some? {
      var chain := slot.chain.value;
      DispatchEachOk(chain.calls, slot.stream, ContextOf(slot, tick));
      EachKeepsShape(chain.calls, DispatchEach(chain.calls, ContextOf(slot, tick)), slot.stream, chain.last, slot.state);
    }
  }

  lemma HarvestKeeps(slot: ManagedSlot, polls: nat -> Poll)
    requires SlotOk(slot)
    ensures SlotOk(HarvestBroadcasts(slot, polls).slot)
  {
    if slot.chain.Some? {
      var chain := slot.chain.value;
      var shutdown := ShutdownDrain(slot.state);
      HarvestEachOk(chain.calls, slot.stream, polls, shutdown);
      EachKeepsShape(chain.calls, HarvestEach(chain.calls, polls, shutdown), slot.stream, chain.last, slot.state);
    }
  }

  lemma PruneKeeps(slot: ManagedSlot, tick: nat)
    requires SlotOk(slot)
    ensures SlotOk(PruneCalls(slot, tick))
  {
    if slot.chain.Some? && !slot.state.Draining? {
      var chain := slot.chain.value;
      var n := Retain(chain.calls, chain.first, tick);
      RetainOk(chain.calls, slot.stream, chain.first, tick);
      forall i | 0 <= i < |n| ensures n[i].target <= chain.last && !n[i].kind.TerminalReveal? {
        RetainIn(chain.calls, chain.first, tick, n[i]);
      }
    }
  }

  lemma EvidenceKeeps(slot: ManagedSlot, e: Evidence, requested: nat)
    requires SlotOk(slot) && slot.state.Live()
    ensures SlotOk(ObserveEvidence(slot, e, requested).slot)
  {
  }

  lemma WatermarkKeeps(slot: ManagedSlot, confirmed: nat, requested: nat)
    requires SlotOk(slot) && slot.state.Live()
    ensures SlotOk(ApplyWatermark(slot, confirmed, requested).slot)
  {
    var chain := slot.chain.value;
    var cleared := slot.(chain := Some(chain.(confirmed := Some(confirmed), suspicion := None)));
    EvidenceKeeps(cleared, Lag(confirmed + STREAM_COUNT), requested);
    EvidenceKeeps(slot, Lag(confirmed + STREAM_COUNT), requested);
  }

  lemma StatusKeeps(slot: ManagedSlot, requested: nat, observed: Option<nat>)
    requires SlotOk(slot)
    ensures SlotOk(ApplyStatus(slot, requested, observed).slot)
  {
    hide ObserveEvidence, ApplyWatermark;
    if slot.state.Live() {
      EvidenceKeeps(slot, if observed.Some? then Foreign(observed.value) else Absent, requested);
      if observed.Some? { WatermarkKeeps(slot.(state := Active), observed.value, requested); }
    }
  }

  lemma StartTargetFits(slot: ManagedSlot, tick: nat)
    requires slot.stream < STREAM_COUNT && StartTarget(slot, tick).Some?
    ensures var t := StartTarget(slot, tick).value;
      && t % STREAM_COUNT == slot.stream && t <= U32_MAX
      && tick + SEND_LEAD_TICKS <= t && slot.restartAt <= t
      && t < Max(tick + SEND_LEAD_TICKS, slot.restartAt) + STREAM_COUNT
  {
  }

  lemma AppendShape(calls: seq<PlannedCall>, c: PlannedCall, stream: nat)
    requires CallsOk(calls, stream) && CallOk(c, stream)
    requires forall i :: 0 <= i < |calls| ==> calls[i].target < c.target
    ensures CallsOk(calls + [c], stream)
  {
  }

  lemma StartKeeps(k12: Hash, slot: ManagedSlot, tick: nat, preimage: Bits)
    requires SlotOk(slot)
    ensures SlotOk(StepSlot(k12, slot, StartAsked(tick, preimage)).slot)
  {
    if MayStart(slot.state) && StartTarget(slot, tick).Some? {
      StartTargetFits(slot, tick);
      var t := StartTarget(slot, tick).value;
      AppendShape(CallsOf(slot), Plan(t, ZERO_BITS, k12(preimage), FirstCommit), slot.stream);
    }
  }

  lemma ContinueKeeps(k12: Hash, chain: Chain, stream: nat, state: SlotState, preimage: Bits)
    requires ChainOk(chain, stream, state) && state.Live() && chain.last + STREAM_COUNT <= U32_MAX
    ensures ChainOk(Continue(k12, chain, preimage), stream, state)
  {
    AppendShape(chain.calls, Plan(chain.last + STREAM_COUNT, chain.preimage, k12(preimage), RevealCommit), stream);
  }

  lemma {:induction false} ExtendToKeeps(k12: Hash, chain: Chain, stream: nat, state: SlotState, horizon: nat,
                                         draws: nat -> Option<Bits>, n: nat)
    requires ChainOk(chain, stream, state) && state.Live()
    ensures var e := ExtendTo(k12, chain, horizon, draws, n); ChainOk(e, stream, state) && e.first == chain.first
    decreases horizon - chain.last
  {
    if CanExtend(chain, horizon) && draws(n).Some? {
      ContinueKeeps(k12, chain, stream, state, draws(n).value);
      ExtendToKeeps(k12, Continue(k12, chain, draws(n).value), stream, state, horizon, draws, n + 1);
    }
  }

  lemma ExtendKeeps(k12: Hash, slot: ManagedSlot, tick: nat, draws: nat -> Option<Bits>)
    requires SlotOk(slot)
    ensures SlotOk(StepSlot(k12, slot, ExtendAsked(tick, draws)).slot)
  {
    if slot.state.Live() {
      if Missed(slot, tick) {
        ExpireKeeps(slot, tick);
      } else if CheckedAdd(tick, SEND_LEAD_TICKS).Some? {
        ExtendToKeeps(k12, slot.chain.value, slot.stream, slot.state, tick + SEND_LEAD_TICKS, draws, 0);
      }
    }
  }

  lemma DrainKeeps(k12: Hash, slot: ManagedSlot, reason: DrainReason)
    requires SlotOk(slot)
    ensures SlotOk(StepSlot(k12, slot, DrainAsked(reason)).slot)
  {
    if slot.state.Live() && CheckedAdd(slot.chain.value.last, STREAM_COUNT).Some? {
      var chain := slot.chain.value;
      AppendShape(chain.calls, Plan(chain.last + STREAM_COUNT, chain.preimage, ZERO_ID, TerminalReveal), slot.stream);
    }
  }

  /** Every step keeps the shape, so every reachable slot has it. */
  lemma StepKeepsShape(k12: Hash, slot: ManagedSlot, e: SlotEvent)
    requires SlotOk(slot)
    ensures SlotOk(StepSlot(k12, slot, e).slot)
  {
    hide SlotOk, ExpireCalls, ApplyStatus, EnterDrain, StartIfReady, ExtendChain, DispatchCalls, HarvestBroadcasts;
    match e
    case EpochReset => FreshIsOk(slot);
    case Polled(polls) => HarvestKeeps(slot, polls);
    case StatusSeen(requested, observed) => StatusKeeps(slot, requested, observed);
    case DrainAsked(reason) => DrainKeeps(k12, slot, reason);
    case StartAsked(tick, preimage) => StartKeeps(k12, slot, tick, preimage);
    case ExtendAsked(tick, draws) => ExtendKeeps(k12, slot, tick, draws);
    case ExpiryDue(tick) => ExpireKeeps(slot, tick);
    case DispatchDue(tick) => DispatchKeeps(slot, tick);
    case DrainChecked => FinishKeeps(slot, 0);
    case RestartChecked(tick) => FinishKeeps(slot, tick);
    case Pruned(tick) => PruneKeeps(slot, tick);
  }

  lemma FreshIsOk(slot: ManagedSlot)
    requires SlotOk(slot)
    ensures SlotOk(FreshSlot(slot.stream))
  {
  }

  lemma FinishKeeps(slot: ManagedSlot, tick: nat)
    requires SlotOk(slot)
    ensures SlotOk(FinishDrain(slot)) && SlotOk(FinishStatusRestart(slot, tick))
  {
  }

  lemma {:induction false} RunKeepsShape(k12: Hash, h: Trace, events: seq<SlotEvent>)
    requires SlotOk(h.slot)
    ensures SlotOk(RunSlot(k12, h, events).slot)
    decreases |events|
  {
    if events != [] {
      StepKeepsShape(k12, h.slot, events[0]);
      RunKeepsShape(k12, Next(k12, h, events[0]), events[1..]);
    }
  }
}
