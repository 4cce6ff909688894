/** The signed calls of an epoch: strictly increasing targets on the stream's residue, hash
    links three ticks apart inside a chain, and never a target signed twice. */
module SlotLinks {
  import opened Basics
  import opened SlotRules
  import opened SlotRuns
  import opened SlotShape

  // ---------------------------------------------------------------- what the history must look like

  /** One signed call by itself. */
  ghost predicate EntryOk(s: Signed, stream: nat) {
    && s.tx.target % STREAM_COUNT == stream && s.tx.target <= U32_MAX
    && (s.kind.FirstCommit? ==> s.tx.preimage == ZERO_BITS)
    && (s.kind.TerminalReveal? ==> s.tx.commit == ZERO_ID)
  }

  /** Two calls signed in a row: a new chain begins, or the second opens the first's commit
      three ticks later. Nothing follows a terminal call in its epoch. */
  ghost predicate Linked(k12: Hash, a: Signed, b: Signed) {
    && a.tx.target < b.tx.target
    && !a.kind.TerminalReveal?
    && (b.kind.FirstCommit? || (b.tx.target == a.tx.target + STREAM_COUNT && k12(b.tx.preimage) == a.tx.commit))
  }

  ghost predicate SignedOk(k12: Hash, signed: seq<Signed>, stream: nat) {
    && (forall i :: 0 <= i < |signed| ==> EntryOk(signed[i], stream))
    && (forall i :: 0 < i < |signed| ==> Linked(k12, signed[i - 1], signed[i]))
    && (signed != [] ==> signed[0].kind.FirstCommit?)
  }

  function LastTarget(signed: seq<Signed>): nat
    requires signed != []
  {
    signed[|signed| - 1].tx.target
  }

  /** How the slot continues what was signed. */
  ghost predicate EndsOk(k12: Hash, signed: seq<Signed>, slot: ManagedSlot) {
    match slot.state
    case Waiting(_, _) =>
      signed == [] || (slot.restartAt == LastTarget(signed) + STREAM_COUNT && !signed[|signed| - 1].kind.TerminalReveal?)
    case Drained(_) => true
    case Draining(_, terminal) =>
      signed != [] && LastTarget(signed) == terminal && signed[|signed| - 1].kind.TerminalReveal?
    case _ =>
      slot.chain.Some? && signed != [] && LastTarget(signed) == slot.chain.value.last
      && k12(slot.chain.value.preimage) == signed[|signed| - 1].tx.commit
      && !signed[|signed| - 1].kind.TerminalReveal?
  }

  /** The current chain is what was signed from its first commit on. */
  ghost predicate HeadAt(signed: seq<Signed>, first: nat, f: nat) {
    && f < |signed| && signed[f].kind.FirstCommit? && signed[f].tx.target == first
    && forall i :: f < i < |signed| ==> !signed[i].kind.FirstCommit?
  }

  ghost predicate HeadOk(signed: seq<Signed>, first: nat) { exists f: nat :: HeadAt(signed, first, f) }

  ghost function CallSet(calls: seq<PlannedCall>): set<Signed> {
    set i | 0 <= i < |calls| :: SignedOf(calls[i])
  }

  ghost predicate CallsSigned(signed: seq<Signed>, calls: seq<PlannedCall>) {
    forall s :: s in CallSet(calls) ==> s in signed
  }

  ghost predicate Links(k12: Hash, h: Trace) {
    && SlotOk(h.slot)
    && SignedOk(k12, h.signed, h.slot.stream)
    && EndsOk(k12, h.signed, h.slot)
    && CallsSigned(h.signed, CallsOf(h.slot))
    && (h.slot.chain.Some? ==> h.chainFirst == h.slot.chain.value.first && HeadOk(h.signed, h.chainFirst))
  }

  // ---------------------------------------------------------------- growing the history

  lemma {:induction false} TargetsAscend(k12: Hash, signed: seq<Signed>, stream: nat, i: nat, j: nat)
    requires SignedOk(k12, signed, stream) && i < j < |signed|
    ensures signed[i].tx.target < signed[j].tx.target
    decreases j
  {
    assert Linked(k12, signed[j - 1], signed[j]);
    if i < j - 1 { TargetsAscend(k12, signed, stream, i, j - 1); }
  }

  lemma SignedAppend(k12: Hash, signed: seq<Signed>, s: Signed, stream: nat)
    requires SignedOk(k12, signed, stream) && EntryOk(s, stream)
    requires signed == [] ==> s.kind.FirstCommit?
    requires signed != [] ==> Linked(k12, signed[|signed| - 1], s)
    ensures SignedOk(k12, signed + [s], stream)
  {
  }

  lemma HeadGrows(signed: seq<Signed>, s: Signed, first: nat)
    requires HeadOk(signed, first) && !s.kind.FirstCommit?
    ensures HeadOk(signed + [s], first)
  {
    var f: nat :| HeadAt(signed, first, f);
    assert HeadAt(signed + [s], first, f);
  }

  lemma CallsGrow(signed: seq<Signed>, calls: seq<PlannedCall>, c: PlannedCall)
    requires CallsSigned(signed, calls)
    ensures CallsSigned(signed + [SignedOf(c)], calls + [c])
  {
    assert CallSet(calls + [c]) == CallSet(calls) + {SignedOf(c)} by {
      assert (calls + [c])[|calls|] == c;
      assert forall i :: 0 <= i < |calls| ==> (calls + [c])[i] == calls[i];
    }
  }

  // ---------------------------------------------------------------- steps that sign nothing

  /** The step drops or updates calls but keeps the ends of the chain. */
  ghost predicate Quiet(a: ManagedSlot, b: ManagedSlot) {
    && a.stream == b.stream
    && CallSet(CallsOf(b)) <= CallSet(CallsOf(a))
    && (b.chain.Some? ==>
          && a.chain.Some? && a.chain.value.first == b.chain.value.first && a.chain.value.last == b.chain.value.last
          && a.chain.value.preimage == b.chain.value.preimage
          && (b.state.Draining? <==> a.state.Draining?)
          && (b.state.Draining? ==> b.state.terminalTarget == a.state.terminalTarget))
    && (b.chain.None? ==>
          b.state.Drained? || (b.state.Waiting? && !a.state.Draining? && !a.state.Drained? &&
                               b.restartAt == if a.chain.Some? then a.chain.value.last + STREAM_COUNT else a.restartAt))
  }

  lemma QuietKeeps(k12: Hash, h: Trace, n: Trace)
    requires Links(k12, h) && Quiet(h.slot, n.slot) && SlotOk(n.slot)
    requires n.signed == h.signed && n.chainFirst == h.chainFirst
    ensures Links(k12, n)
  {
    hide CallSet;
  }

  lemma SameCallsQuiet(a: seq<PlannedCall>, b: seq<PlannedCall>)
    requires SameCalls(a, b)
    ensures CallSet(a) == CallSet(b) && CallSet([]) == {}
  {
    assert forall i :: 0 <= i < |a| ==> SignedOf(b[i]) == SignedOf(a[i]);
  }

  lemma NoCalls()
    ensures CallSet([]) == {}
  {
  }

  lemma ExpireIsQuiet(slot: ManagedSlot, tick: nat)
    requires SlotOk(slot)
    ensures Quiet(slot, ExpireCalls(slot, tick).slot)
  {
    if slot.chain.Some? {
      ExpireEachOk(slot.chain.value.calls, slot.stream, tick);
      SameCallsQuiet(slot.chain.value.calls, ExpireEach(slot.chain.value.calls, tick));
    }
  }

  lemma DispatchIsQuiet(slot: ManagedSlot, tick: nat)
    requires SlotOk(slot)
    ensures Quiet(slot, DispatchCalls(slot, tick).slot)
  {
    if slot.chain.Some? {
      DispatchEachOk(slot.chain.value.calls, slot.stream, ContextOf(slot, tick));
      SameCallsQuiet(slot.chain.value.calls, DispatchEach(slot.chain.value.calls, ContextOf(slot, tick)));
    }
  }

  lemma HarvestIsQuiet(slot: ManagedSlot, polls: nat -> Poll)
    requires SlotOk(slot)
    ensures Quiet(slot, HarvestBroadcasts(slot, polls).slot)
  {
    if slot.chain.Some? {
      HarvestEachOk(slot.chain.value.calls, slot.stream, polls, ShutdownDrain(slot.state));
      SameCallsQuiet(slot.chain.value.calls, HarvestEach(slot.chain.value.calls, polls, ShutdownDrain(slot.state)));
    }
  }

  lemma PruneIsQuiet(slot: ManagedSlot, tick: nat)
    requires SlotOk(slot)
    ensures Quiet(slot, PruneCalls(slot, tick))
  {
    var a, b := CallsOf(slot), CallsOf(PruneCalls(slot, tick));
    forall x | x in CallSet(b) ensures x in CallSet(a) {
      var i :| 0 <= i < |b| && x == SignedOf(b[i]);
      if slot.chain.Some? && !slot.state.Draining? {
        RetainIn(a, slot.chain.value.first, tick, b[i]);
      }
      assert b[i] in a;
    }
  }

  lemma EvidenceIsQuiet(slot: ManagedSlot, e: Evidence, requested: nat)
    requires SlotOk(slot) && slot.state.Live()
    ensures Quiet(slot, ObserveEvidence(slot, e, requested).slot)
  {
    NoCalls();
  }

  lemma WatermarkIsQuiet(slot: ManagedSlot, confirmed: nat, requested: nat)
    requires SlotOk(slot) && slot.state.Live()
    ensures Quiet(slot, ApplyWatermark(slot, confirmed, requested).slot)
  {
    var chain := slot.chain.value;
    var cleared := slot.(chain := Some(chain.(confirmed := Some(confirmed), suspicion := None)));
    EvidenceIsQuiet(cleared, Lag(confirmed + STREAM_COUNT), requested);
    EvidenceIsQuiet(slot, Lag(confirmed + STREAM_COUNT), requested);
    NoCalls();
    hide CallSet, ObserveEvidence;
  }

  lemma StatusIsQuiet(slot: ManagedSlot, requested: nat, observed: Option<nat>)
    requires SlotOk(slot)
    ensures Quiet(slot, ApplyStatus(slot, requested, observed).slot)
  {
    var n := ApplyStatus(slot, requested, observed).slot;
    hide ObserveEvidence, ApplyWatermark;
    if slot.state.Live() {
      EvidenceIsQuiet(slot, if observed.Some? then Foreign(observed.value) else Absent, requested);
      if observed.Some? { WatermarkIsQuiet(slot.(state := Active), observed.value, requested); }
    }
  }

  lemma FinishIsQuiet(slot: ManagedSlot, tick: nat)
    requires SlotOk(slot)
    ensures Quiet(slot, FinishDrain(slot)) || slot == FinishDrain(slot)
    ensures Quiet(slot, FinishStatusRestart(slot, tick)) || slot == FinishStatusRestart(slot, tick)
  {
    NoCalls();
  }

  // ---------------------------------------------------------------- steps that sign

  lemma SignedFromOne(calls: seq<PlannedCall>, c: PlannedCall)
    ensures SignedFrom(calls + [c], |calls|) == [SignedOf(c)]
  {
    assert SignedFrom(calls + [c], |calls| + 1) == [];
  }

  lemma StartLinks(k12: Hash, h: Trace, tick: nat, preimage: Bits)
    requires Links(k12, h) && MayStart(h.slot.state) && StartTarget(h.slot, tick).Some?
    ensures Links(k12, Next(k12, h, StartAsked(tick, preimage)))
  {
    var e := StartAsked(tick, preimage);
    var t := StartTarget(h.slot, tick).value;
    var c := Plan(t, ZERO_BITS, k12(preimage), FirstCommit);
    StartKeeps(k12, h.slot, tick, preimage);
    StartTargetFits(h.slot, tick);
    SignedFromOne(CallsOf(h.slot), c);
    SignedAppend(k12, h.signed, SignedOf(c), h.slot.stream);
    CallsGrow(h.signed, CallsOf(h.slot), c);
    assert HeadAt(h.signed + [SignedOf(c)], t, |h.signed|);
  }

  /** A live chain together with what was signed. */
  ghost predicate ChainLinks(k12: Hash, signed: seq<Signed>, chain: Chain, stream: nat) {
    && SignedOk(k12, signed, stream) && signed != []
    && LastTarget(signed) == chain.last && k12(chain.preimage) == signed[|signed| - 1].tx.commit
    && !signed[|signed| - 1].kind.TerminalReveal?
    && CallsSigned(signed, chain.calls) && HeadOk(signed, chain.first)
    && chain.last % STREAM_COUNT == stream
  }

  lemma ContinueLinks(k12: Hash, signed: seq<Signed>, chain: Chain, stream: nat, preimage: Bits)
    requires ChainLinks(k12, signed, chain, stream) && chain.last + STREAM_COUNT <= U32_MAX
    ensures var n := Continue(k12, chain, preimage);
      ChainLinks(k12, signed + [SignedOf(n.calls[|chain.calls|])], n, stream)
  {
    var c := Continue(k12, chain, preimage).calls[|chain.calls|];
    SignedAppend(k12, signed, SignedOf(c), stream);
    CallsGrow(signed, chain.calls, c);
    HeadGrows(signed, SignedOf(c), chain.first);
  }

  lemma {:induction false} ExtendToLinks(k12: Hash, signed: seq<Signed>, chain: Chain, stream: nat, horizon: nat,
                                         draws: nat -> Option<Bits>, n: nat)
    requires ChainLinks(k12, signed, chain, stream)
    ensures var e := ExtendTo(k12, chain, horizon, draws, n);
      && |chain.calls| <= |e.calls| && e.calls[..|chain.calls|] == chain.calls
      && ChainLinks(k12, signed + SignedFrom(e.calls, |chain.calls|), e, stream)
    decreases horizon - chain.last
  {
    var e := ExtendTo(k12, chain, horizon, draws, n);
    if CanExtend(chain, horizon) && draws(n).Some? {
      var next := Continue(k12, chain, draws(n).value);
      var s := SignedOf(next.calls[|chain.calls|]);
      ContinueLinks(k12, signed, chain, stream, draws(n).value);
      ExtendToLinks(k12, signed + [s], next, stream, horizon, draws, n + 1);
      assert e.calls[|chain.calls|] == e.calls[..|next.calls|][|chain.calls|] == next.calls[|chain.calls|];
      assert signed + SignedFrom(e.calls, |chain.calls|) == (signed + [s]) + SignedFrom(e.calls, |chain.calls| + 1);
      assert e.calls[..|chain.calls|] == e.calls[..|next.calls|][..|chain.calls|];
    } else {
      assert signed + [] == signed;
    }
  }

  lemma ExtendLinks(k12: Hash, h: Trace, tick: nat, draws: nat -> Option<Bits>)
    requires Links(k12, h)
    ensures Links(k12, Next(k12, h, ExtendAsked(tick, draws)))
  {
    hide CallSet, HeadOk, SignedOk, CallsOk, TailShape;
    var n := Next(k12, h, ExtendAsked(tick, draws));
    ExtendKeeps(k12, h.slot, tick, draws);
    if h.slot.state.Live() && !Missed(h.slot, tick) && CheckedAdd(tick, SEND_LEAD_TICKS).Some? {
      ExtendToLinks(k12, h.signed, h.slot.chain.value, h.slot.stream, tick + SEND_LEAD_TICKS, draws, 0);
      ExtendToKeeps(k12, h.slot.chain.value, h.slot.stream, h.slot.state, tick + SEND_LEAD_TICKS, draws, 0);
    } else {
      MissedIsQuiet(k12, h.slot, tick, draws);
      assert n.signed == h.signed;
      QuietKeeps(k12, h, n);
    }
  }

  lemma MissedIsQuiet(k12: Hash, slot: ManagedSlot, tick: nat, draws: nat -> Option<Bits>)
    requires SlotOk(slot) && !(slot.state.Live() && !Missed(slot, tick) && CheckedAdd(tick, SEND_LEAD_TICKS).Some?)
    ensures var n := StepSlot(k12, slot, ExtendAsked(tick, draws)).slot;
      Quiet(slot, n) && SignedFrom(CallsOf(n), |CallsOf(slot)|) == []
  {
    ExpireIsQuiet(slot, tick);
    ExpireKeeps(slot, tick);
  }

  lemma DrainLinks(k12: Hash, h: Trace, reason: DrainReason)
    requires Links(k12, h)
    ensures Links(k12, Next(k12, h, DrainAsked(reason)))
  {
    var n := Next(k12, h, DrainAsked(reason));
    DrainKeeps(k12, h.slot, reason);
    if h.slot.state.Live() && CheckedAdd(h.slot.chain.value.last, STREAM_COUNT).Some? {
      var chain := h.slot.chain.value;
      var c := Plan(chain.last + STREAM_COUNT, chain.preimage, ZERO_ID, TerminalReveal);
      SignedFromOne(chain.calls, c);
      SignedAppend(k12, h.signed, SignedOf(c), h.slot.stream);
      CallsGrow(h.signed, chain.calls, c);
      HeadGrows(h.signed, SignedOf(c), chain.first);
    } else {
      assert n.signed == h.signed;
      QuietKeeps(k12, h, n);
    }
  }

  // ---------------------------------------------------------------- all steps, all runs

  lemma OtherStepIsQuiet(k12: Hash, slot: ManagedSlot, e: SlotEvent)
    requires SlotOk(slot) && !e.EpochReset? && !e.StartAsked? && !e.ExtendAsked? && !e.DrainAsked?
    ensures var n := StepSlot(k12, slot, e).slot; Quiet(slot, n) || n == slot
  {
    hide Quiet, SlotOk, ExpireCalls, ApplyStatus, DispatchCalls, HarvestBroadcasts, FinishDrain, FinishStatusRestart, PruneCalls;
    match e
    case Polled(polls) => HarvestIsQuiet(slot, polls);
    case StatusSeen(requested, observed) => StatusIsQuiet(slot, requested, observed);
    case ExpiryDue(tick) => ExpireIsQuiet(slot, tick);
    case DispatchDue(tick) => DispatchIsQuiet(slot, tick);
    case DrainChecked => FinishIsQuiet(slot, 0);
    case RestartChecked(tick) => FinishIsQuiet(slot, tick);
    case Pruned(tick) => PruneIsQuiet(slot, tick);
  }

  lemma IdleStartLinks(k12: Hash, h: Trace, tick: nat, preimage: Bits)
    requires Links(k12, h) && !(MayStart(h.slot.state) && StartTarget(h.slot, tick).Some?)
    ensures Links(k12, Next(k12, h, StartAsked(tick, preimage)))
  {
    assert Next(k12, h, StartAsked(tick, preimage)).signed == h.signed;
  }

  lemma BeginLinks(k12: Hash, stream: nat)
    requires stream < STREAM_COUNT
    ensures Links(k12, Begin(stream))
  {
    NoCalls();
  }

  lemma SameSlotLinks(k12: Hash, h: Trace, n: Trace)
    requires Links(k12, h) && n.slot == h.slot && n.signed == h.signed && n.chainFirst == h.chainFirst
    ensures Links(k12, n)
  {
  }

  lemma StepLinks(k12: Hash, h: Trace, e: SlotEvent)
    requires Links(k12, h)
    ensures Links(k12, Next(k12, h, e))
  {
    if e.EpochReset? {
      BeginLinks(k12, h.slot.stream);
    } else if e.StartAsked? {
      if MayStart(h.slot.state) && StartTarget(h.slot, e.tick).Some? {
        StartLinks(k12, h, e.tick, e.preimage);
      } else {
        IdleStartLinks(k12, h, e.tick, e.preimage);
      }
    } else if e.ExtendAsked? {
      ExtendLinks(k12, h, e.tick, e.draws);
    } else if e.DrainAsked? {
      DrainLinks(k12, h, e.reason);
    } else {
      var n := Next(k12, h, e);
      OtherStepIsQuiet(k12, h.slot, e);
      StepKeepsShape(k12, h.slot, e);
      hide StepSlot;
      assert n.signed == h.signed && n.chainFirst == h.chainFirst;
      if n.slot == h.slot { SameSlotLinks(k12, h, n); } else { QuietKeeps(k12, h, n); }
    }
  }

  lemma {:induction false} RunLinks(k12: Hash, h: Trace, events: seq<SlotEvent>)
    requires Links(k12, h)
    ensures Links(k12, RunSlot(k12, h, events))
    decreases |events|
  {
    if events != [] {
      StepLinks(k12, h, events[0]);
      RunLinks(k12, Next(k12, h, events[0]), events[1..]);
    }
  }

  /** Over every run: the targets signed in an epoch strictly increase, across chains, overlapping
      restarts, losses and the terminal call, and all lie on the stream's residue. Two calls
      signed in a row belong to one chain, hash-linked and three ticks apart, or the second
      starts a new chain; nothing is signed after a terminal call. */
  lemma NoTargetIsReused(k12: Hash, stream: nat, events: seq<SlotEvent>)
    requires stream < STREAM_COUNT
    ensures var signed := RunSlot(k12, Begin(stream), events).signed;
      && (forall i, j :: 0 <= i < j < |signed| ==> signed[i].tx.target < signed[j].tx.target)
      && (forall i :: 0 <= i < |signed| ==> EntryOk(signed[i], stream))
      && (forall i :: 0 < i < |signed| ==> Linked(k12, signed[i - 1], signed[i]))
  {
    BeginLinks(k12, stream);
    RunLinks(k12, Begin(stream), events);
    RunKeepsStream(k12, Begin(stream), events);
    var signed := RunSlot(k12, Begin(stream), events).signed;
    forall i, j | 0 <= i < j < |signed| ensures signed[i].tx.target < signed[j].tx.target {
      TargetsAscend(k12, signed, stream, i, j);
    }
  }

  lemma StepKeepsStream(k12: Hash, slot: ManagedSlot, e: SlotEvent)
    ensures StepSlot(k12, slot, e).slot.stream == slot.stream
  {
    if e.StatusSeen? {
      StatusKeepsStream(slot, e.requested, e.observed);
      hide ApplyStatus;
    }
  }

  lemma EvidenceKeepsStream(slot: ManagedSlot, e: Evidence, requested: nat)
    ensures ObserveEvidence(slot, e, requested).slot.stream == slot.stream
  {
  }

  lemma StatusKeepsStream(slot: ManagedSlot, requested: nat, observed: Option<nat>)
    ensures ApplyStatus(slot, requested, observed).slot.stream == slot.stream
  {
    EvidenceKeepsStream(slot, if observed.Some? then Foreign(observed.value) else Absent, requested);
    if observed.Some? {
      var active := slot.(state := Active);
      EvidenceKeepsStream(slot, Lag(observed.value + STREAM_COUNT), requested);
      EvidenceKeepsStream(active, Lag(observed.value + STREAM_COUNT), requested);
      if slot.chain.Some? {
        var seen := Some(slot.chain.value.(confirmed := observed, suspicion := None));
        EvidenceKeepsStream(slot.(chain := seen), Lag(observed.value + STREAM_COUNT), requested);
        EvidenceKeepsStream(active.(chain := seen), Lag(observed.value + STREAM_COUNT), requested);
      }
    }
    hide ObserveEvidence;
  }

  lemma {:induction false} RunKeepsStream(k12: Hash, h: Trace, events: seq<SlotEvent>)
    ensures RunSlot(k12, h, events).slot.stream == h.slot.stream
    decreases |events|
  {
    if events != [] {
      StepKeepsStream(k12, h.slot, events[0]);
      RunKeepsStream(k12, Next(k12, h, events[0]), events[1..]);
    }
  }

  /** The outstanding preimage of a live chain opens the last commit it signed. */
  lemma OutstandingOpensLast(k12: Hash, stream: nat, events: seq<SlotEvent>)
    requires stream < STREAM_COUNT
    ensures var h := RunSlot(k12, Begin(stream), events);
      h.slot.state.Live() ==>
        h.slot.chain.Some? && h.signed != [] && LastTarget(h.signed) == h.slot.chain.value.last
        && k12(h.slot.chain.value.preimage) == h.signed[|h.signed| - 1].tx.commit
  {
    BeginLinks(k12, stream);
    RunLinks(k12, Begin(stream), events);
  }

  /** However far the tick jumped, one extension signs at most two calls, for the two targets
      after the tail, all after the current tick and at most six ticks ahead. */
  lemma ExtensionIsBounded(k12: Hash, h: Trace, tick: nat, draws: nat -> Option<Bits>)
    requires Links(k12, h)
    ensures var more := NewlySigned(h.slot, StepSlot(k12, h.slot, ExtendAsked(tick, draws)).slot, ExtendAsked(tick, draws));
      && |more| <= 2
      && forall i :: 0 <= i < |more| ==>
           h.slot.chain.Some? && more[i].tx.target == h.slot.chain.value.last + STREAM_COUNT * (i + 1)
           && tick < more[i].tx.target <= tick + SEND_LEAD_TICKS
  {
    if h.slot.state.Live() && !Missed(h.slot, tick) && CheckedAdd(tick, SEND_LEAD_TICKS).Some? {
      ExtendTwice(k12, h.slot.chain.value, tick, draws);
    } else {
      MissedIsQuiet(k12, h.slot, tick, draws);
    }
  }

  lemma ExtendTwice(k12: Hash, chain: Chain, tick: nat, draws: nat -> Option<Bits>)
    requires chain.last <= U32_MAX && tick + SEND_LEAD_TICKS <= U32_MAX
    requires chain.last + STREAM_COUNT <= U32_MAX ==> tick < chain.last + STREAM_COUNT
    ensures var more := SignedFrom(ExtendTo(k12, chain, tick + SEND_LEAD_TICKS, draws, 0).calls, |chain.calls|);
      && |more| <= 2
      && forall i :: 0 <= i < |more| ==>
           more[i].tx.target == chain.last + STREAM_COUNT * (i + 1) && tick < more[i].tx.target <= tick + SEND_LEAD_TICKS
  {
    var horizon := tick + SEND_LEAD_TICKS;
    var e := ExtendTo(k12, chain, horizon, draws, 0);
    if CanExtend(chain, horizon) && draws(0).Some? {
      var one := Continue(k12, chain, draws(0).value);
      if CanExtend(one, horizon) && draws(1).Some? {
        var two := Continue(k12, one, draws(1).value);
        assert !CanExtend(two, horizon);
        assert e == ExtendTo(k12, one, horizon, draws, 1) == ExtendTo(k12, two, horizon, draws, 2) == two;
        SignedFromOne(one.calls, two.calls[|one.calls|]);
        assert SignedFrom(two.calls, |chain.calls|) == [SignedOf(two.calls[|chain.calls|])] + SignedFrom(two.calls, |chain.calls| + 1);
      } else {
        assert e == ExtendTo(k12, one, horizon, draws, 1) == one;
        SignedFromOne(chain.calls, one.calls[|chain.calls|]);
      }
    }
  }

  /** The i-th continuation of a chain: three ticks on, it opens the commit before it and commits
      to the next draw. */
  predicate Continues(k12: Hash, s: Signed, last: nat, preimage: Bits, draws: nat -> Option<Bits>, n: nat, i: nat) {
    && draws(n + i).Some? && s.kind.RevealCommit?
    && s.tx.target == last + STREAM_COUNT * (i + 1) && s.tx.commit == k12(draws(n + i).value)
    && (if i == 0 then s.tx.preimage == preimage else draws(n + i - 1) == Some(s.tx.preimage))
  }

  /** The planning loop stops only past its horizon, at the end of the 32-bit ticks, or where the
      wallet fails to sign the next call. */
  ghost predicate Stops(last: nat, horizon: nat, next: Option<Bits>) {
    horizon < last + STREAM_COUNT || U32_MAX < last + STREAM_COUNT || next.None?
  }

  lemma {:induction false} ExtendSigns(k12: Hash, chain: Chain, horizon: nat, draws: nat -> Option<Bits>, n: nat)
    ensures var x := ExtendTo(k12, chain, horizon, draws, n);
      var more := SignedFrom(x.calls, |chain.calls|);
      && |chain.calls| <= |x.calls| && x.calls[..|chain.calls|] == chain.calls
      && x.last == chain.last + STREAM_COUNT * |more| && Stops(x.last, horizon, draws(n + |more|))
      && forall i: nat :: i < |more| ==> Continues(k12, more[i], chain.last, chain.preimage, draws, n, i)
    decreases horizon - chain.last
  {
    var x := ExtendTo(k12, chain, horizon, draws, n);
    if CanExtend(chain, horizon) && draws(n).Some? {
      var next := Continue(k12, chain, draws(n).value);
      ExtendSigns(k12, next, horizon, draws, n + 1);
      var more, rest := SignedFrom(x.calls, |chain.calls|), SignedFrom(x.calls, |next.calls|);
      assert x.calls[|chain.calls|] == x.calls[..|next.calls|][|chain.calls|];
      assert x.calls[..|chain.calls|] == x.calls[..|next.calls|][..|chain.calls|];
      assert more == [SignedOf(next.calls[|chain.calls|])] + rest;
      forall i: nat | i < |more| ensures Continues(k12, more[i], chain.last, chain.preimage, draws, n, i) {
        if i > 0 { assert more[i] == rest[i - 1] && Continues(k12, rest[i - 1], next.last, next.preimage, draws, n + 1, i - 1); }
      }
      assert draws(n + 1 + |rest|) == draws(n + |more|);
    } else {
      assert SignedFrom(x.calls, |chain.calls|) == [];
    }
  }

  /** An extension of a live chain that is not late signs one continuation after the other, each
      opening the commit before it and committing to the next draw, and stops short of the tick six
      ahead only where the wallet fails to sign, or no 32-bit tick is left. */
  lemma ExtensionReachesTheHorizon(k12: Hash, h: Trace, tick: nat, draws: nat -> Option<Bits>)
    requires Links(k12, h) && h.slot.state.Live() && h.signed != []
    requires tick < LastTarget(h.signed) + STREAM_COUNT && tick + 6 <= U32_MAX
    ensures h.slot.chain.Some?
    ensures var n := StepSlot(k12, h.slot, ExtendAsked(tick, draws)).slot;
      var more := NewlySigned(h.slot, n, ExtendAsked(tick, draws));
      && n.chain.Some? && n.chain.value.last == LastTarget(h.signed) + STREAM_COUNT * |more|
      && Stops(n.chain.value.last, tick + 6, draws(|more|))
      && forall i: nat :: i < |more| ==>
           Continues(k12, more[i], LastTarget(h.signed), h.slot.chain.value.preimage, draws, 0, i)
  {
    ExtendSigns(k12, h.slot.chain.value, tick + SEND_LEAD_TICKS, draws, 0);
    hide ExtendTo, SlotOk, SignedOk, HeadOk, CallsSigned, SignedFrom;
  }
}
