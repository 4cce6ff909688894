/** The broadcast log and the order of acceptance: every send lies in its window and carries
    signed bytes, redundant sends follow acceptance and happen once, and a terminal reveal
    goes out only after its whole chain was accepted. */
module SlotSends {
  import opened Basics
  import opened SlotRules
  import opened SlotRuns
  import opened SlotShape
  import opened SlotLinks

  // ---------------------------------------------------------------- what the log must look like

  function TicksLeft(e: Sent): int { e.call.tx.target - e.tick }

  /** One broadcast by itself. */
  ghost predicate SendOk(e: Sent) {
    && 1 <= TicksLeft(e) <= (if e.call.kind.FirstCommit? then 6 else 4)
    && !e.wasBusy
    && (e.again <==> e.wasAccepted)
    && (e.again ==>
          && !e.call.kind.TerminalReveal? && e.first <= e.call.tx.target
          && 3 <= TicksLeft(e) && TicksLeft(e) <= (if e.call.kind.FirstCommit? then 4 else 3))
    && (e.call.kind.TerminalReveal? ==> e.prerequisitesMet)
  }

  ghost predicate LogOk(signed: seq<Signed>, sent: seq<Sent>) {
    forall e :: e in sent ==> SendOk(e) && e.call in signed
  }

  ghost predicate AgainOnce(sent: seq<Sent>) {
    forall i, j :: 0 <= i < j < |sent| && sent[i].again && sent[j].again ==>
      sent[i].call.tx.target != sent[j].call.tx.target
  }

  predicate ShutdownTerminal(e: Sent) { e.call.kind.TerminalReveal? && e.inShutdown }

  ghost predicate TerminalOnce(sent: seq<Sent>) {
    forall i, j :: 0 <= i < j < |sent| && ShutdownTerminal(sent[i]) ==> !ShutdownTerminal(sent[j])
  }

  // ---------------------------------------------------------------- acceptance

  ghost predicate AcceptedOk(calls: seq<PlannedCall>, accepted: set<nat>) {
    forall i :: 0 <= i < |calls| ==> (calls[i].state.Accepted? <==> calls[i].target in accepted)
  }

  ghost predicate OnlySigned(signed: seq<Signed>, accepted: set<nat>) {
    forall t :: t in accepted ==> exists s :: s in signed && s.tx.target == t
  }

  /** A call of the current chain that left the queue had been accepted. */
  ghost predicate StillPlanned(signed: seq<Signed>, calls: seq<PlannedCall>, accepted: set<nat>, first: nat) {
    forall s :: s in signed && first <= s.tx.target ==> s in CallSet(calls) || s.tx.target in accepted
  }

  predicate Attempted(s: BroadcastState) { s.Broadcasting? || s.Retry? || s.Accepted? }

  /** In a drain, an attempted terminal call had all its prerequisites accepted. */
  ghost predicate TerminalGated(slot: ManagedSlot) {
    slot.state.Draining? && slot.chain.Some? ==>
      var chain := slot.chain.value;
      chain.calls != [] && Attempted(chain.calls[|chain.calls| - 1].state) ==>
        PrerequisitesAccepted(chain.calls, chain.first, slot.state.terminalTarget)
  }

  ghost predicate AgainMarked(calls: seq<PlannedCall>, sent: seq<Sent>) {
    forall i, e :: 0 <= i < |calls| && e in sent && e.again && e.call.tx.target == calls[i].target ==>
      calls[i].redundantAttempted
  }

  /** A shutdown drain never retries its terminal call. */
  ghost predicate TerminalFresh(slot: ManagedSlot, sent: seq<Sent>) {
    slot.state.Draining? && slot.state.reason.Shutdown? && slot.chain.Some? && slot.chain.value.calls != [] ==>
      var c := slot.chain.value.calls[|slot.chain.value.calls| - 1];
      !c.state.Retry? && (c.state.Ready? ==> forall e :: e in sent ==> !ShutdownTerminal(e))
  }

  ghost predicate Deliveries(k12: Hash, h: Trace) {
    && Links(k12, h)
    && OnlySigned(h.signed, h.accepted)
    && AcceptedOk(CallsOf(h.slot), h.accepted)
    && (h.slot.chain.Some? ==> StillPlanned(h.signed, CallsOf(h.slot), h.accepted, h.chainFirst))
    && TerminalGated(h.slot)
    && (h.slot.state == Drained(DrainAccepted) ==>
          h.signed != [] && h.signed[|h.signed| - 1].kind.TerminalReveal?
          && ChainAccepted(h.signed, h.accepted, h.chainFirst, LastTarget(h.signed) + 1))
  }

  // ---------------------------------------------------------------- acceptance, step by step

  lemma HarvestAccepts(calls: seq<PlannedCall>, polls: nat -> Poll, shutdown: bool, accepted: set<nat>, more: set<nat>)
    requires AcceptedOk(calls, accepted) && Ascending(calls)
    requires more == set i | 0 <= i < |calls| && NewlyAccepted(calls[i], polls(i)) :: calls[i].target
    ensures AcceptedOk(HarvestEach(calls, polls, shutdown), accepted + more)
  {
    var n := HarvestEach(calls, polls, shutdown);
    forall i | 0 <= i < |n| ensures n[i].state.Accepted? <==> n[i].target in accepted + more {
      assert n[i] == HarvestCall(calls[i], polls(i), shutdown);
      if n[i].target in more {
        var j :| 0 <= j < |calls| && NewlyAccepted(calls[j], polls(j)) && calls[j].target == n[i].target;
        assert i == j;
      }
    }
  }

  lemma ExpireAccepts(calls: seq<PlannedCall>, tick: nat, accepted: set<nat>)
    requires AcceptedOk(calls, accepted)
    ensures AcceptedOk(ExpireEach(calls, tick), accepted)
  {
  }

  lemma DispatchAccepts(calls: seq<PlannedCall>, x: Context, accepted: set<nat>)
    requires AcceptedOk(calls, accepted)
    ensures AcceptedOk(DispatchEach(calls, x), accepted)
  {
  }

  lemma RetainHas(calls: seq<PlannedCall>, first: nat, tick: nat, c: PlannedCall)
    requires c in calls && Retained(c, first, tick)
    ensures c in Retain(calls, first, tick)
  {
    if c != calls[0] {
      assert c in calls[1..];
      RetainHas(calls[1..], first, tick, c);
    }
  }

  lemma RetainAccepts(signed: seq<Signed>, calls: seq<PlannedCall>, first: nat, tick: nat, accepted: set<nat>, stream: nat)
    requires AcceptedOk(calls, accepted) && StillPlanned(signed, calls, accepted, first) && CallsOk(calls, stream)
    ensures AcceptedOk(Retain(calls, first, tick), accepted)
    ensures StillPlanned(signed, Retain(calls, first, tick), accepted, first)
  {
    var n := Retain(calls, first, tick);
    forall i | 0 <= i < |n| ensures n[i].state.Accepted? <==> n[i].target in accepted {
      RetainIn(calls, first, tick, n[i]);
    }
    forall s | s in signed && first <= s.tx.target && s.tx.target !in accepted ensures s in CallSet(n) {
      var i :| 0 <= i < |calls| && s == SignedOf(calls[i]);
      assert CallOk(calls[i], stream);
      RetainHas(calls, first, tick, calls[i]);
      var j :| 0 <= j < |n| && n[j] == calls[i];
    }
  }

  /** The prerequisites are met exactly when everything signed for the chain was accepted;
      calls retained from an older chain do not count. */
  lemma GateMeansChainAccepted(k12: Hash, h: Trace)
    requires Links(k12, h) && OnlySigned(h.signed, h.accepted) && AcceptedOk(CallsOf(h.slot), h.accepted)
    requires h.slot.state.Draining? && StillPlanned(h.signed, CallsOf(h.slot), h.accepted, h.chainFirst)
    ensures PrerequisitesAccepted(CallsOf(h.slot), h.chainFirst, h.slot.state.terminalTarget)
       <==> ChainAccepted(h.signed, h.accepted, h.chainFirst, h.slot.state.terminalTarget)
  {
    var calls, t := CallsOf(h.slot), h.slot.state.terminalTarget;
    if PrerequisitesAccepted(calls, h.chainFirst, t) {
      forall s | s in h.signed && h.chainFirst <= s.tx.target < t ensures s.tx.target in h.accepted {
        if s in CallSet(calls) {
          var i :| 0 <= i < |calls| && s == SignedOf(calls[i]);
          assert CallOk(calls[i], h.slot.stream);
        }
      }
    }
    if ChainAccepted(h.signed, h.accepted, h.chainFirst, t) {
      forall i | 0 <= i < |calls| && h.chainFirst <= calls[i].target && !calls[i].kind.TerminalReveal? && calls[i].target <= t
        ensures calls[i].state.Accepted?
      {
        assert SignedOf(calls[i]) in CallSet(calls) && CallOk(calls[i], h.slot.stream);
      }
    }
  }

  lemma AcceptedStays(a: seq<PlannedCall>, b: seq<PlannedCall>, first: nat, terminal: nat)
    requires SameCalls(a, b) && PrerequisitesAccepted(a, first, terminal)
    requires forall i :: 0 <= i < |a| && a[i].state.Accepted? ==> b[i].state.Accepted?
    ensures PrerequisitesAccepted(b, first, terminal)
  {
  }

  lemma SameCallSet(a: seq<PlannedCall>, b: seq<PlannedCall>)
    requires SameCalls(a, b)
    ensures CallSet(a) == CallSet(b)
  {
    SameCallsQuiet(a, b);
  }

  lemma GateStays(slot: ManagedSlot, calls: seq<PlannedCall>)
    requires SlotOk(slot) && TerminalGated(slot) && slot.chain.Some? && SameCalls(CallsOf(slot), calls)
    requires forall i :: 0 <= i < |calls| && CallsOf(slot)[i].state.Accepted? ==> calls[i].state.Accepted?
    requires slot.state.Draining? && calls != [] && Attempted(calls[|calls| - 1].state) ==>
      Attempted(CallsOf(slot)[|calls| - 1].state)
      || PrerequisitesAccepted(CallsOf(slot), slot.chain.value.first, slot.state.terminalTarget)
    ensures TerminalGated(slot.(chain := Some(slot.chain.value.(calls := calls))))
  {
    if slot.state.Draining? && calls != [] && Attempted(calls[|calls| - 1].state) {
      AcceptedStays(CallsOf(slot), calls, slot.chain.value.first, slot.state.terminalTarget);
    }
  }

  /** A step that only updates calls in place, and may add acceptances. */
  lemma EachDelivers(k12: Hash, h: Trace, n: Trace, calls: seq<PlannedCall>)
    requires Deliveries(k12, h) && Links(k12, n) && h.slot.chain.Some? && SameCalls(CallsOf(h.slot), calls)
    requires n.slot == h.slot.(chain := Some(h.slot.chain.value.(calls := calls)))
    requires n.signed == h.signed && n.chainFirst == h.chainFirst && h.accepted <= n.accepted
    requires OnlySigned(n.signed, n.accepted) && AcceptedOk(calls, n.accepted) && TerminalGated(n.slot)
    ensures Deliveries(k12, n)
  {
    SameCallSet(CallsOf(h.slot), calls);
    hide Links, OnlySigned, AcceptedOk, TerminalGated, CallSet, SameCalls;
  }

  lemma PollGates(slot: ManagedSlot, polls: nat -> Poll)
    requires SlotOk(slot) && TerminalGated(slot) && slot.chain.Some?
    ensures TerminalGated(HarvestBroadcasts(slot, polls).slot)
  {
    var calls, shutdown := CallsOf(slot), ShutdownDrain(slot.state);
    HarvestEachOk(calls, slot.stream, polls, shutdown);
    if calls != [] { assert CallOk(calls[|calls| - 1], slot.stream); }
    GateStays(slot, HarvestEach(calls, polls, shutdown));
  }

  lemma PollOnlySigned(h: Trace, polls: nat -> Poll)
    requires OnlySigned(h.signed, h.accepted) && CallsSigned(h.signed, CallsOf(h.slot)) && SlotOk(h.slot)
    ensures OnlySigned(h.signed, h.accepted + AcceptedBy(h.slot, Polled(polls)))
  {
    var calls := CallsOf(h.slot);
    forall t | t in AcceptedBy(h.slot, Polled(polls)) ensures exists s :: s in h.signed && s.tx.target == t {
      var i :| 0 <= i < |calls| && NewlyAccepted(calls[i], polls(i)) && calls[i].target == t;
      assert CallOk(calls[i], h.slot.stream) && SignedOf(calls[i]) in CallSet(calls);
    }
  }

  lemma PollDelivers(k12: Hash, h: Trace, polls: nat -> Poll)
    requires Deliveries(k12, h)
    ensures Deliveries(k12, Next(k12, h, Polled(polls)))
  {
    var n := Next(k12, h, Polled(polls));
    StepLinks(k12, h, Polled(polls));
    assert n.signed == h.signed;
    PollOnlySigned(h, polls);
    if h.slot.chain.Some? {
      var calls, shutdown := CallsOf(h.slot), ShutdownDrain(h.slot.state);
      HarvestAccepts(calls, polls, shutdown, h.accepted, AcceptedBy(h.slot, Polled(polls)));
      HarvestEachOk(calls, h.slot.stream, polls, shutdown);
      PollGates(h.slot, polls);
      EachDelivers(k12, h, n, HarvestEach(calls, polls, shutdown));
    }
  }

  lemma ExpireGates(slot: ManagedSlot, tick: nat)
    requires SlotOk(slot) && TerminalGated(slot) && slot.chain.Some?
    ensures TerminalGated(slot.(chain := Some(slot.chain.value.(calls := ExpireEach(CallsOf(slot), tick)))))
  {
    ExpireEachOk(CallsOf(slot), slot.stream, tick);
    GateStays(slot, ExpireEach(CallsOf(slot), tick));
  }

  lemma ExpireDelivers(k12: Hash, h: Trace, tick: nat)
    requires Deliveries(k12, h)
    ensures Deliveries(k12, Next(k12, h, ExpiryDue(tick)))
  {
    var n := Next(k12, h, ExpiryDue(tick));
    assert n.signed == h.signed && n.accepted == h.accepted;
    if n.slot.chain.None? {
      PlainDelivers(k12, h, ExpiryDue(tick));
    } else {
      StepLinks(k12, h, ExpiryDue(tick));
      ExpireAccepts(CallsOf(h.slot), tick, h.accepted);
      ExpireEachOk(CallsOf(h.slot), h.slot.stream, tick);
      ExpireGates(h.slot, tick);
      EachDelivers(k12, h, n, ExpireEach(CallsOf(h.slot), tick));
    }
  }

  lemma DispatchGates(slot: ManagedSlot, tick: nat)
    requires SlotOk(slot) && TerminalGated(slot) && slot.chain.Some?
    ensures TerminalGated(DispatchCalls(slot, tick).slot)
  {
    DispatchEachOk(CallsOf(slot), slot.stream, ContextOf(slot, tick));
    GateStays(slot, DispatchEach(CallsOf(slot), ContextOf(slot, tick)));
  }

  lemma DispatchDelivers(k12: Hash, h: Trace, tick: nat)
    requires Deliveries(k12, h)
    ensures Deliveries(k12, Next(k12, h, DispatchDue(tick)))
  {
    var n := Next(k12, h, DispatchDue(tick));
    StepLinks(k12, h, DispatchDue(tick));
    assert n.signed == h.signed && n.accepted == h.accepted;
    if h.slot.chain.Some? {
      DispatchAccepts(CallsOf(h.slot), ContextOf(h.slot, tick), h.accepted);
      DispatchEachOk(CallsOf(h.slot), h.slot.stream, ContextOf(h.slot, tick));
      DispatchGates(h.slot, tick);
      EachDelivers(k12, h, n, DispatchEach(CallsOf(h.slot), ContextOf(h.slot, tick)));
    }
  }

  lemma PruneDelivers(k12: Hash, h: Trace, tick: nat)
    requires Deliveries(k12, h)
    ensures Deliveries(k12, Next(k12, h, Pruned(tick)))
  {
    var n := Next(k12, h, Pruned(tick));
    StepLinks(k12, h, Pruned(tick));
    assert n.signed == h.signed && n.accepted == h.accepted;
    if h.slot.chain.Some? && !h.slot.state.Draining? {
      RetainAccepts(h.signed, CallsOf(h.slot), h.slot.chain.value.first, tick, h.accepted, h.slot.stream);
    }
  }

  /** The step leaves the calls alone or drops the chain, and no drain begins or succeeds. */
  ghost predicate Plain(a: ManagedSlot, b: ManagedSlot) {
    && (b.chain.Some? ==> a.chain.Some? && CallsOf(b) == CallsOf(a))
    && (b == a || (!b.state.Draining? && b.state != Drained(DrainAccepted)))
  }

  lemma PlainDelivers(k12: Hash, h: Trace, e: SlotEvent)
    requires Deliveries(k12, h) && !e.Polled? && !e.EpochReset? && !e.DispatchDue?
    requires var n := Next(k12, h, e); Plain(h.slot, n.slot) && n.signed == h.signed && n.chainFirst == h.chainFirst
    ensures Deliveries(k12, Next(k12, h, e))
  {
    StepLinks(k12, h, e);
    assert Next(k12, h, e).accepted == h.accepted;
  }

  lemma EvidenceIsPlain(slot: ManagedSlot, e: Evidence, requested: nat)
    requires SlotOk(slot) && slot.state.Live()
    ensures Plain(slot, ObserveEvidence(slot, e, requested).slot)
  {
  }

  lemma StatusIsPlain(slot: ManagedSlot, requested: nat, observed: Option<nat>)
    requires SlotOk(slot)
    ensures Plain(slot, ApplyStatus(slot, requested, observed).slot)
  {
    hide ObserveEvidence;
    if slot.state.Live() {
      EvidenceIsPlain(slot, if observed.Some? then Foreign(observed.value) else Absent, requested);
      if observed.Some? {
        var active := slot.(state := Active);
        var cleared := active.(chain := Some(slot.chain.value.(confirmed := observed, suspicion := None)));
        EvidenceIsPlain(active, Lag(observed.value + STREAM_COUNT), requested);
        EvidenceIsPlain(cleared, Lag(observed.value + STREAM_COUNT), requested);
      }
    }
  }

  // ---------------------------------------------------------------- acceptance while signing

  lemma SignedBound(k12: Hash, signed: seq<Signed>, stream: nat, s: Signed)
    requires SignedOk(k12, signed, stream) && s in signed
    ensures s.tx.target <= LastTarget(signed)
  {
    var i :| 0 <= i < |signed| && signed[i] == s;
    if i < |signed| - 1 { TargetsAscend(k12, signed, stream, i, |signed| - 1); }
  }

  lemma AppendDelivers(k12: Hash, signed: seq<Signed>, calls: seq<PlannedCall>, accepted: set<nat>, first: nat,
                       c: PlannedCall, stream: nat)
    requires SignedOk(k12, signed, stream) && OnlySigned(signed, accepted) && AcceptedOk(calls, accepted)
    requires c.state.Ready? && (signed != [] ==> LastTarget(signed) < c.target)
    requires StillPlanned(signed, calls, accepted, first) || (signed != [] ==> LastTarget(signed) < first)
    ensures AcceptedOk(calls + [c], accepted) && OnlySigned(signed + [SignedOf(c)], accepted)
    ensures StillPlanned(signed + [SignedOf(c)], calls + [c], accepted, first)
  {
    var n, m := signed + [SignedOf(c)], calls + [c];
    assert c.target !in accepted by {
      if c.target in accepted {
        var s :| s in signed && s.tx.target == c.target;
        SignedBound(k12, signed, stream, s);
      }
    }
    forall t | t in accepted ensures exists s :: s in n && s.tx.target == t {
      var s :| s in signed && s.tx.target == t;
      assert s in n;
    }
    assert m[|calls|] == c;
    forall s | s in n && first <= s.tx.target && s.tx.target !in accepted ensures s in CallSet(m) {
      if s in signed {
        SignedBound(k12, signed, stream, s);
        var i :| 0 <= i < |calls| && s == SignedOf(calls[i]);
        assert m[i] == calls[i];
      } else {
        assert s == SignedOf(m[|calls|]);
      }
    }
  }

  lemma StartDelivers(k12: Hash, h: Trace, tick: nat, preimage: Bits)
    requires Deliveries(k12, h)
    ensures Deliveries(k12, Next(k12, h, StartAsked(tick, preimage)))
  {
    var e := StartAsked(tick, preimage);
    var n := Next(k12, h, e);
    StepLinks(k12, h, e);
    assert n.accepted == h.accepted;
    if Started(k12, h.slot, e) {
      var t := StartTarget(h.slot, tick).value;
      var c := Plan(t, ZERO_BITS, k12(preimage), FirstCommit);
      StartTargetFits(h.slot, tick);
      SignedFromOne(CallsOf(h.slot), c);
      AppendDelivers(k12, h.signed, CallsOf(h.slot), h.accepted, t, c, h.slot.stream);
    } else {
      assert n.signed == h.signed;
      PlainDelivers(k12, h, e);
    }
  }

  lemma {:induction false} ExtendToDelivers(k12: Hash, signed: seq<Signed>, chain: Chain, stream: nat, accepted: set<nat>,
                                            horizon: nat, draws: nat -> Option<Bits>, n: nat)
    requires ChainLinks(k12, signed, chain, stream) && OnlySigned(signed, accepted) && AcceptedOk(chain.calls, accepted)
    requires StillPlanned(signed, chain.calls, accepted, chain.first)
    ensures var x := ExtendTo(k12, chain, horizon, draws, n);
      var more := signed + SignedFrom(x.calls, |chain.calls|);
      && OnlySigned(more, accepted) && AcceptedOk(x.calls, accepted) && StillPlanned(more, x.calls, accepted, chain.first)
    decreases horizon - chain.last
  {
    hide SignedOk, HeadOk, CallsSigned, CallSet, StillPlanned, OnlySigned, AcceptedOk;
    var x := ExtendTo(k12, chain, horizon, draws, n);
    if CanExtend(chain, horizon) && draws(n).Some? {
      var next := Continue(k12, chain, draws(n).value);
      var c := next.calls[|chain.calls|];
      ContinueLinks(k12, signed, chain, stream, draws(n).value);
      AppendDelivers(k12, signed, chain.calls, accepted, chain.first, c, stream);
      ExtendToDelivers(k12, signed + [SignedOf(c)], next, stream, accepted, horizon, draws, n + 1);
      ExtendToLinks(k12, signed + [SignedOf(c)], next, stream, horizon, draws, n + 1);
      assert x.calls[|chain.calls|] == x.calls[..|next.calls|][|chain.calls|] == c;
      assert signed + SignedFrom(x.calls, |chain.calls|) == (signed + [SignedOf(c)]) + SignedFrom(x.calls, |chain.calls| + 1);
    } else {
      assert signed + [] == signed;
    }
  }

  lemma ExtendDelivers(k12: Hash, h: Trace, tick: nat, draws: nat -> Option<Bits>)
    requires Deliveries(k12, h)
    ensures Deliveries(k12, Next(k12, h, ExtendAsked(tick, draws)))
  {
    hide SignedOk, HeadOk, CallSet, CallOk, StillPlanned, OnlySigned, AcceptedOk;
    var e := ExtendAsked(tick, draws);
    var n := Next(k12, h, e);
    StepLinks(k12, h, e);
    assert n.accepted == h.accepted;
    if h.slot.state.Live() && !Missed(h.slot, tick) && CheckedAdd(tick, SEND_LEAD_TICKS).Some? {
      ExtendToDelivers(k12, h.signed, h.slot.chain.value, h.slot.stream, h.accepted, tick + SEND_LEAD_TICKS, draws, 0);
    } else {
      MissedIsQuiet(k12, h.slot, tick, draws);
      assert n.signed == h.signed;
      PlainDelivers(k12, h, e);
    }
  }

  lemma DrainDelivers(k12: Hash, h: Trace, reason: DrainReason)
    requires Deliveries(k12, h)
    ensures Deliveries(k12, Next(k12, h, DrainAsked(reason)))
  {
    hide SignedOk, HeadOk, CallSet, CallOk, StillPlanned, OnlySigned, AcceptedOk;
    var e := DrainAsked(reason);
    var n := Next(k12, h, e);
    StepLinks(k12, h, e);
    assert n.accepted == h.accepted;
    if h.slot.state.Live() && CheckedAdd(h.slot.chain.value.last, STREAM_COUNT).Some? {
      var chain := h.slot.chain.value;
      var c := Plan(chain.last + STREAM_COUNT, chain.preimage, ZERO_ID, TerminalReveal);
      SignedFromOne(chain.calls, c);
      AppendDelivers(k12, h.signed, chain.calls, h.accepted, chain.first, c, h.slot.stream);
    } else {
      assert n.signed == h.signed;
      PlainDelivers(k12, h, e);
    }
  }

  lemma TerminalIsLast(calls: seq<PlannedCall>, last: nat, state: SlotState)
    requires state.Draining? && TailShape(calls, last, state) && Ascending(calls)
    ensures TerminalState(calls) == Some(calls[|calls| - 1].state)
  {
    FirstTerminal(calls, |calls| - 1);
  }

  lemma FirstTerminal(calls: seq<PlannedCall>, k: nat)
    requires k < |calls| && calls[k].kind.TerminalReveal?
    requires forall i :: 0 <= i < k ==> !calls[i].kind.TerminalReveal?
    ensures TerminalState(calls) == Some(calls[k].state)
  {
    if k > 0 { FirstTerminal(calls[1..], k - 1); }
  }

  lemma FinishDelivers(k12: Hash, h: Trace)
    requires Deliveries(k12, h)
    ensures Deliveries(k12, Next(k12, h, DrainChecked))
  {
    hide SignedOk, HeadOk, CallSet, CallOk, StillPlanned, OnlySigned;
    var n := Next(k12, h, DrainChecked);
    StepLinks(k12, h, DrainChecked);
    assert n.signed == h.signed && n.accepted == h.accepted;
    if h.slot.state.Draining? {
      var calls, t := CallsOf(h.slot), h.slot.state.terminalTarget;
      TerminalIsLast(calls, h.slot.chain.value.last, h.slot.state);
      if calls[|calls| - 1].state.Accepted? {
        GateMeansChainAccepted(k12, h);
        assert calls[|calls| - 1].target in h.accepted;
      }
    }
  }

  lemma StepDelivers(k12: Hash, h: Trace, e: SlotEvent)
    requires Deliveries(k12, h)
    ensures Deliveries(k12, Next(k12, h, e))
  {
    hide Deliveries, Next;
    match e
    case EpochReset => BeginDelivers(k12, h);
    case Polled(polls) => PollDelivers(k12, h, polls);
    case StatusSeen(requested, observed) => StatusDelivers(k12, h, requested, observed);
    case DrainAsked(reason) => DrainDelivers(k12, h, reason);
    case StartAsked(tick, preimage) => StartDelivers(k12, h, tick, preimage);
    case ExtendAsked(tick, draws) => ExtendDelivers(k12, h, tick, draws);
    case ExpiryDue(tick) => ExpireDelivers(k12, h, tick);
    case DispatchDue(tick) => DispatchDelivers(k12, h, tick);
    case DrainChecked => FinishDelivers(k12, h);
    case RestartChecked(tick) => RestartDelivers(k12, h, tick);
    case Pruned(tick) => PruneDelivers(k12, h, tick);
  }

  lemma StatusDelivers(k12: Hash, h: Trace, requested: nat, observed: Option<nat>)
    requires Deliveries(k12, h)
    ensures Deliveries(k12, Next(k12, h, StatusSeen(requested, observed)))
  {
    StatusIsPlain(h.slot, requested, observed);
    assert Next(k12, h, StatusSeen(requested, observed)).signed == h.signed;
    PlainDelivers(k12, h, StatusSeen(requested, observed));
  }

  lemma RestartDelivers(k12: Hash, h: Trace, tick: nat)
    requires Deliveries(k12, h)
    ensures Deliveries(k12, Next(k12, h, RestartChecked(tick)))
  {
    assert Next(k12, h, RestartChecked(tick)).signed == h.signed;
    PlainDelivers(k12, h, RestartChecked(tick));
  }

  lemma BeginDelivers(k12: Hash, h: Trace)
    requires Deliveries(k12, h)
    ensures Deliveries(k12, Next(k12, h, EpochReset)) && Deliveries(k12, Begin(h.slot.stream))
  {
    BeginLinks(k12, h.slot.stream);
  }
}
