/** Status evidence over all runs: a chain freezes exactly at the third of three agreeing
    observations, and the acknowledgement watermark and the lag it shows are sound. */
module SlotFreeze {
  import opened Basics
  import opened SlotRules
  import opened SlotRuns
  import opened SlotShape
  import opened SlotLinks

  // ---------------------------------------------------------------- the reference count

  /** Request ticks strictly increase and each piece of evidence repeats the one before. */
  ghost predicate Rises(streak: seq<Counted>) {
    forall i :: 0 < i < |streak| ==>
      streak[i - 1].requested < streak[i].requested && Repeats(streak[i - 1].evidence, streak[i].evidence)
  }

  /** What the chain remembers of the counted observations. */
  ghost predicate Mirrors(s: Option<Suspicion>, streak: seq<Counted>) {
    if s.None? then streak == []
    else
      && streak != []
      && s.value.evidence == streak[|streak| - 1].evidence && s.value.lastRequested == streak[|streak| - 1].requested
      && s.value.firstRequested == streak[0].requested && s.value.confirmations == |streak|
  }

  /** A counted observation was answered that way. */
  predicate Answers(o: Observation, c: Counted) {
    && o.requested == c.requested
    && match c.evidence
       case Absent => o.observed == None
       case Foreign(t) => o.observed == Some(t)
       case Lag(missing) => o.observed.Some? && missing == o.observed.value + STREAM_COUNT
  }

  ghost predicate Justified(streak: seq<Counted>, seen: seq<Observation>) {
    forall c :: c in streak ==> exists o :: o in seen && Answers(o, c)
  }

  /** The watermark is a target of the chain; a lag names the next one, which is planned and
      was due before the request. */
  ghost predicate LagOk(chain: Chain, c: Counted) {
    c.evidence.Lag? ==>
      && chain.confirmed.Some? && c.evidence.missing == chain.confirmed.value + STREAM_COUNT
      && chain.Owns(c.evidence.missing) && c.evidence.missing < c.requested
  }

  ghost predicate WatermarkOk(chain: Chain, streak: seq<Counted>) {
    && (chain.confirmed.Some? ==> chain.Owns(chain.confirmed.value))
    && forall c :: c in streak ==> LagOk(chain, c)
  }

  ghost predicate Watched(h: Trace) {
    && SlotOk(h.slot)
    && Rises(h.streak) && |h.streak| <= STATUS_CONFIRMATIONS_REQUIRED && Justified(h.streak, h.seen)
    && (h.slot.chain.Some? ==> WatermarkOk(h.slot.chain.value, h.streak))
    && (h.slot.state.Live() ==> Mirrors(h.slot.chain.value.suspicion, h.streak) && |h.streak| < STATUS_CONFIRMATIONS_REQUIRED)
  }

  // ---------------------------------------------------------------- one observation

  /** The frozen slot: its signed calls stay, planning stops, and absence must be seen at or
      after the bound. Where no further target fits, the slot is given up. */
  ghost predicate Frozen(before: ManagedSlot, after: ManagedSlot, last: Counted)
    requires before.chain.Some?
  {
    var tail := before.chain.value.last;
    if tail + STREAM_COUNT <= U32_MAX then
      && after.state == Restarting(tail, if last.evidence.Absent? then last.requested else SaturatingAdd(last.requested, 1),
                                   last.evidence.Absent?, None)
      && after.restartAt == tail + STREAM_COUNT && CallsOf(after) == CallsOf(before) && after.chain.Some?
    else after.state == Drained(DrainFailed) && after.chain.None?
  }

  lemma CountRises(streak: seq<Counted>, e: Evidence, requested: nat)
    requires Rises(streak)
    ensures Rises(Count(streak, e, requested))
  {
  }

  lemma EvidenceCounts(slot: ManagedSlot, streak: seq<Counted>, e: Evidence, requested: nat)
    requires slot.chain.Some? && Mirrors(slot.chain.value.suspicion, streak) && |streak| < STATUS_CONFIRMATIONS_REQUIRED
    ensures var n := ObserveEvidence(slot, e, requested).slot;
      var s := Count(streak, e, requested);
      && |s| <= STATUS_CONFIRMATIONS_REQUIRED
      && (|s| < STATUS_CONFIRMATIONS_REQUIRED ==>
            n.chain.Some? && Mirrors(n.chain.value.suspicion, s) && n.state == slot.state)
      && (|s| == STATUS_CONFIRMATIONS_REQUIRED ==> Frozen(slot, n, s[|s| - 1]))
      && (n.chain.Some? ==> n.chain == Some(slot.chain.value.(suspicion := n.chain.value.suspicion)))
  {
  }

  lemma LagIsOwned(chain: Chain, t: nat, requested: nat)
    requires chain.Owns(t) && LagAfter(chain, t, requested).Some?
    ensures chain.Owns(t + STREAM_COUNT) && t + STREAM_COUNT < requested
  {
  }

  /** The latest target before a tick is the greatest of the chain's targets below it. */
  lemma LatestIsGreatest(chain: Chain, tick: nat, target: nat)
    ensures chain.LatestTargetBefore(tick) == Some(target) <==>
      && OnChain(chain, target) && target < tick
      && forall t: nat :: OnChain(chain, t) && t < tick ==> t <= target
  {
    var due := chain.LatestTargetBefore(tick);
    if tick > 0 && chain.first <= Min(tick - 1, chain.last) {
      assert (due.value - chain.first) % STREAM_COUNT == 0;
      assert OnChain(chain, due.value) && due.value < tick;
      forall t: nat | OnChain(chain, t) && t < tick ensures t <= due.value { StepsUpTo(chain.first, t, Min(tick - 1, chain.last)); }
    }
  }

  lemma StepsUpTo(first: nat, t: nat, limit: nat)
    requires first <= t <= limit && t % STREAM_COUNT == first % STREAM_COUNT
    ensures t <= first + (limit - first) / STREAM_COUNT * STREAM_COUNT
  {
    assert (t - first) / STREAM_COUNT <= (limit - first) / STREAM_COUNT;
  }

  lemma OwnsIs(chain: Chain, t: nat)
    ensures chain.Owns(t) <==> OnChain(chain, t)
  {
  }

  /** Some target after t is due exactly when the next one is. */
  lemma DueIs(chain: Chain, t: nat, requested: nat)
    requires chain.Owns(t) && chain.last <= U32_MAX
    ensures var due := chain.LatestTargetBefore(requested);
      && (LagAfter(chain, t, requested).Some? <==> due.Some? && t < due.value)
      && (LagAfter(chain, t, requested).Some? ==> t + STREAM_COUNT <= U32_MAX)
  {
    var due := chain.LatestTargetBefore(requested);
    if due.Some? { assert (due.value - chain.first) % STREAM_COUNT == 0; }
  }

  lemma JustifyCount(streak: seq<Counted>, seen: seq<Observation>, c: Counted, o: Observation)
    requires Justified(streak, seen) && Answers(o, c)
    ensures Justified(Count(streak, c.evidence, c.requested), seen + [o]) && Justified(streak, seen + [o])
  {
    forall d | d in Count(streak, c.evidence, c.requested) + streak ensures exists x :: x in seen + [o] && Answers(x, d) {
      if d in streak {
        var x :| x in seen && Answers(x, d);
        assert x in seen + [o];
      } else {
        assert d == c && o in seen + [o];
      }
    }
  }

  /** One answer about a live chain. */
  lemma EvidenceWatched(slot: ManagedSlot, streak: seq<Counted>, e: Evidence, requested: nat)
    requires SlotOk(slot) && slot.state.Live() && Rises(streak) && WatermarkOk(slot.chain.value, streak)
    requires Mirrors(slot.chain.value.suspicion, streak) && |streak| < STATUS_CONFIRMATIONS_REQUIRED
    requires LagOk(slot.chain.value, Counted(e, requested))
    ensures StatusKept(slot, ObserveEvidence(slot, e, requested).slot, Count(streak, e, requested))
  {
    EvidenceKeeps(slot, e, requested);
    EvidenceCounts(slot, streak, e, requested);
    CountRises(streak, e, requested);
    hide ObserveEvidence, Mirrors, Rises, ChainOk;
  }

  /** What a status answer leaves: a live chain still mirrors its count, or it froze at three. */
  ghost predicate StatusKept(before: ManagedSlot, after: ManagedSlot, streak: seq<Counted>)
    requires before.chain.Some?
  {
    && Rises(streak) && |streak| <= STATUS_CONFIRMATIONS_REQUIRED
    && (after.chain.Some? ==> WatermarkOk(after.chain.value, streak))
    && (|streak| < STATUS_CONFIRMATIONS_REQUIRED ==>
          after.state.Live() && after.chain.Some? && Mirrors(after.chain.value.suspicion, streak))
    && (|streak| == STATUS_CONFIRMATIONS_REQUIRED ==> Frozen(before, after, streak[|streak| - 1]))
  }

  lemma LagWatched(slot: ManagedSlot, streak: seq<Counted>, t: nat, requested: nat)
    requires SlotOk(slot) && slot.state.Live() && Rises(streak) && WatermarkOk(slot.chain.value, streak)
    requires Mirrors(slot.chain.value.suspicion, streak) && |streak| < STATUS_CONFIRMATIONS_REQUIRED
    requires slot.chain.value.Owns(t) && slot.chain.value.confirmed == Some(t) && LagAfter(slot.chain.value, t, requested).Some?
    ensures StatusKept(slot, ObserveEvidence(slot, Lag(t + STREAM_COUNT), requested).slot, Count(streak, Lag(t + STREAM_COUNT), requested))
  {
    LagIsOwned(slot.chain.value, t, requested);
    hide ObserveEvidence, Count, Rises, ChainOk, Mirrors;
    EvidenceWatched(slot, streak, Lag(t + STREAM_COUNT), requested);
  }

  lemma WatermarkWatched(slot: ManagedSlot, streak: seq<Counted>, t: nat, requested: nat)
    requires SlotOk(slot) && slot.state.Live() && Rises(streak) && WatermarkOk(slot.chain.value, streak)
    requires Mirrors(slot.chain.value.suspicion, streak) && |streak| < STATUS_CONFIRMATIONS_REQUIRED
    requires slot.chain.value.Owns(t)
    ensures StatusKept(slot, ApplyWatermark(slot, t, requested).slot,
                       CountSignal(streak, SignalOf(slot, streak, requested, Some(t)), requested))
  {
    var chain := slot.chain.value;
    var cleared := slot.(chain := Some(chain.(confirmed := Some(t), suspicion := None)));
    DueIs(chain, t, requested);
    OwnsIs(chain, t);
    assert SlotOk(cleared) && WatermarkOk(cleared.chain.value, []);
    hide ObserveEvidence, Rises, ChainOk, Count, Mirrors, OnChain;
    assert LagAfter(cleared.chain.value, t, requested) == LagAfter(chain, t, requested);
    assert cleared.chain.value.Owns(t);
    hide LagAfter;
    if LagAfter(chain, t, requested).Some? {
      if chain.confirmed != Some(t) {
        LagWatched(cleared, [], t, requested);
        assert StatusKept(slot, ObserveEvidence(cleared, Lag(t + STREAM_COUNT), requested).slot,
                          Count([], Lag(t + STREAM_COUNT), requested));
      } else {
        LagWatched(slot, streak, t, requested);
      }
    }
  }

  lemma OwnedStatusWatched(slot: ManagedSlot, streak: seq<Counted>, requested: nat, t: nat)
    requires SlotOk(slot) && slot.state.Live() && Rises(streak) && WatermarkOk(slot.chain.value, streak)
    requires Mirrors(slot.chain.value.suspicion, streak) && |streak| < STATUS_CONFIRMATIONS_REQUIRED
    requires slot.chain.value.Owns(t)
    ensures StatusKept(slot, ApplyStatus(slot, requested, Some(t)).slot,
                       CountSignal(streak, SignalOf(slot, streak, requested, Some(t)), requested))
  {
    var active := slot.(state := Active);
    OwnsIs(slot.chain.value, t);
    hide Chain.Owns;
    WatermarkWatched(active, streak, t, requested);
    assert SignalOf(active, streak, requested, Some(t)) == SignalOf(slot, streak, requested, Some(t));
    assert ApplyStatus(slot, requested, Some(t)) == ApplyWatermark(active, t, requested);
    hide ApplyWatermark, ApplyStatus, Rises, ChainOk, SignalOf, CountSignal, Mirrors;
  }

  lemma StatusWatched(slot: ManagedSlot, streak: seq<Counted>, requested: nat, observed: Option<nat>)
    requires SlotOk(slot) && slot.state.Live() && Rises(streak) && WatermarkOk(slot.chain.value, streak)
    requires Mirrors(slot.chain.value.suspicion, streak) && |streak| < STATUS_CONFIRMATIONS_REQUIRED
    ensures StatusKept(slot, ApplyStatus(slot, requested, observed).slot,
                       CountSignal(streak, SignalOf(slot, streak, requested, observed), requested))
  {
    if observed.Some? && slot.chain.value.Owns(observed.value) {
      OwnedStatusWatched(slot, streak, requested, observed.value);
    } else {
      EvidenceWatched(slot, streak, if observed.Some? then Foreign(observed.value) else Absent, requested);
      hide ObserveEvidence, ApplyWatermark, Rises, ChainOk, Count, Mirrors;
    }
  }

  lemma SignalJustified(slot: ManagedSlot, streak: seq<Counted>, seen: seq<Observation>, requested: nat, observed: Option<nat>)
    requires Justified(streak, seen)
    ensures Justified(CountSignal(streak, SignalOf(slot, streak, requested, observed), requested),
                      seen + [Observation(requested, observed)])
  {
    var o := Observation(requested, observed);
    match SignalOf(slot, streak, requested, observed)
    case Silent => JustifyCount(streak, seen, Counted(if observed.Some? then Foreign(observed.value) else Absent, requested), o);
    case Clearing =>
    case Evident(e) => JustifyCount(streak, seen, Counted(e, requested), o);
    case ClearingThen(e) => JustifyCount([], seen, Counted(e, requested), o);
  }

  // ---------------------------------------------------------------- every step

  /** The step touches no status evidence: what is left of the chain keeps its watermark and
      suspicion, and no chain becomes live or frozen. */
  ghost predicate Steady(a: ManagedSlot, b: ManagedSlot) {
    && (b.chain.Some? ==>
          && a.chain.Some? && b.chain.value.first == a.chain.value.first && a.chain.value.last <= b.chain.value.last
          && b.chain.value.confirmed == a.chain.value.confirmed && b.chain.value.suspicion == a.chain.value.suspicion)
    && (b.state.Live() ==> a.state.Live())
    && (b.state.Restarting? ==> a.state.Restarting?)
  }

  lemma SteadyWatched(h: Trace, n: Trace)
    requires Watched(h) && Steady(h.slot, n.slot) && SlotOk(n.slot) && n.streak == h.streak && n.seen == h.seen
    ensures Watched(n)
  {
    hide SlotOk, Rises, Mirrors, Justified;
    assert SlotOk(h.slot) ==> (h.slot.state.Live() ==> h.slot.chain.Some?) by { LiveHasChain(h.slot); LiveHasChain(n.slot); }
    LiveHasChain(n.slot);
  }

  lemma LiveHasChain(slot: ManagedSlot)
    ensures SlotOk(slot) && slot.state.Live() ==> slot.chain.Some?
  {
  }

  lemma {:induction false} ExtendToSteady(k12: Hash, chain: Chain, horizon: nat, draws: nat -> Option<Bits>, n: nat)
    ensures var x := ExtendTo(k12, chain, horizon, draws, n);
      x.first == chain.first && chain.last <= x.last && x.confirmed == chain.confirmed && x.suspicion == chain.suspicion
    decreases horizon - chain.last
  {
    if CanExtend(chain, horizon) && draws(n).Some? { ExtendToSteady(k12, Continue(k12, chain, draws(n).value), horizon, draws, n + 1); }
  }

  lemma OtherIsSteady(k12: Hash, slot: ManagedSlot, e: SlotEvent)
    requires SlotOk(slot) && !e.EpochReset? && !e.StatusSeen? && !Started(k12, slot, e)
    ensures Steady(slot, StepSlot(k12, slot, e).slot)
  {
    if e.ExtendAsked? && slot.state.Live() && !Missed(slot, e.tick) && CheckedAdd(e.tick, SEND_LEAD_TICKS).Some? {
      ExtendToSteady(k12, slot.chain.value, e.tick + SEND_LEAD_TICKS, e.draws, 0);
    }
    hide ChainOk;
  }

  lemma StepWatched(k12: Hash, h: Trace, e: SlotEvent)
    requires Watched(h)
    ensures Watched(Next(k12, h, e))
  {
    var n := Next(k12, h, e);
    StepKeepsShape(k12, h.slot, e);
    if e.StatusSeen? {
      SignalJustified(h.slot, h.streak, h.seen, e.requested, e.observed);
      if h.slot.state.Live() {
        StatusWatched(h.slot, h.streak, e.requested, e.observed);
        hide ApplyStatus, ChainOk, SignalOf, Rises, Mirrors, CountSignal, Justified;
      }
    } else if !e.EpochReset? && !Started(k12, h.slot, e) {
      OtherIsSteady(k12, h.slot, e);
      SteadyWatched(h, n);
    }
  }

  lemma {:induction false} RunWatched(k12: Hash, h: Trace, events: seq<SlotEvent>)
    requires Watched(h)
    ensures Watched(RunSlot(k12, h, events))
    decreases |events|
  {
    if events != [] {
      StepWatched(k12, h, events[0]);
      RunWatched(k12, Next(k12, h, events[0]), events[1..]);
    }
  }

  /** Over every run: a live chain has counted at most two agreeing observations, and it is
      frozen by exactly the step that counts the third. The counted observations were all
      answered as recorded, at strictly increasing request ticks, each agreeing with the one
      before. */
  lemma FreezesAtTheThird(k12: Hash, stream: nat, events: seq<SlotEvent>, e: SlotEvent)
    requires stream < STREAM_COUNT
    ensures var h := RunSlot(k12, Begin(stream), events);
      var n := Next(k12, h, e);
      && Rises(n.streak) && Justified(n.streak, n.seen)
      && (h.slot.state.Live() ==>
            && h.slot.chain.Some? && |h.streak| < STATUS_CONFIRMATIONS_REQUIRED
            && (e.StatusSeen? && |n.streak| == STATUS_CONFIRMATIONS_REQUIRED ==>
                  Frozen(h.slot, n.slot, n.streak[|n.streak| - 1]))
            && (e.StatusSeen? && |n.streak| != STATUS_CONFIRMATIONS_REQUIRED ==> n.slot.state.Live())
            && (!e.StatusSeen? ==> !n.slot.state.Restarting?))
  {
    var h := RunSlot(k12, Begin(stream), events);
    RunWatched(k12, Begin(stream), events);
    StepWatched(k12, h, e);
    if h.slot.state.Live() {
      if e.StatusSeen? {
        StatusWatched(h.slot, h.streak, e.requested, e.observed);
      } else if !e.EpochReset? && !Started(k12, h.slot, e) {
        OtherIsSteady(k12, h.slot, e);
      }
      hide ApplyStatus, ChainOk, SignalOf, Rises, Mirrors, CountSignal, Justified, ExtendChain, ExpireCalls;
    }
  }

  // ---------------------------------------------------------------- lag and watermark

  lemma {:induction false} ChainIsEveryThird(k12: Hash, signed: seq<Signed>, stream: nat, first: nat, f: nat, i: nat)
    requires SignedOk(k12, signed, stream) && HeadAt(signed, first, f) && f <= i < |signed|
    ensures signed[i].tx.target == first + STREAM_COUNT * (i - f)
    decreases i
  {
    if f < i {
      assert Linked(k12, signed[i - 1], signed[i]);
      ChainIsEveryThird(k12, signed, stream, first, f, i - 1);
    }
  }

  /** A live or frozen chain owns exactly the targets it signed a call for. */
  lemma OwnedIsSigned(k12: Hash, h: Trace, target: nat)
    requires Links(k12, h) && h.slot.chain.Some? && !h.slot.state.Draining?
    ensures h.slot.chain.value.Owns(target) <==> h.chainFirst <= target && exists s :: s in h.signed && s.tx.target == target
  {
    var signed := h.signed;
    var f: nat :| HeadAt(signed, h.chainFirst, f);
    ChainIsEveryThird(k12, signed, h.slot.stream, h.chainFirst, f, |signed| - 1);
    if h.slot.chain.value.Owns(target) {
      var k := (target - h.chainFirst) / STREAM_COUNT;
      assert target == h.chainFirst + STREAM_COUNT * k;
      ChainIsEveryThird(k12, signed, h.slot.stream, h.chainFirst, f, f + k);
      assert signed[f + k] in signed;
    }
    if s :| s in signed && s.tx.target == target && h.chainFirst <= target {
      var i :| 0 <= i < |signed| && signed[i] == s;
      if i < f { TargetsAscend(k12, signed, h.slot.stream, i, f); }
      ChainIsEveryThird(k12, signed, h.slot.stream, h.chainFirst, f, i);
    }
  }

  /** Over every run: a counted lag names the first target after the acknowledgement watermark,
      a target this chain signed, and it was due before the request was made. */
  lemma LagNamesADueTarget(k12: Hash, stream: nat, events: seq<SlotEvent>, c: Counted)
    requires stream < STREAM_COUNT
    ensures var h := RunSlot(k12, Begin(stream), events);
      h.slot.chain.Some? && !h.slot.state.Draining? && c in h.streak && c.evidence.Lag? ==>
        && h.slot.chain.value.confirmed.Some?
        && c.evidence.missing == h.slot.chain.value.confirmed.value + STREAM_COUNT
        && h.chainFirst < c.evidence.missing < c.requested
        && exists s :: s in h.signed && s.tx.target == c.evidence.missing
  {
    var h := RunSlot(k12, Begin(stream), events);
    BeginLinks(k12, stream);
    RunLinks(k12, Begin(stream), events);
    RunWatched(k12, Begin(stream), events);
    if h.slot.chain.Some? && !h.slot.state.Draining? && c in h.streak && c.evidence.Lag? {
      assert LagOk(h.slot.chain.value, c);
      OwnedIsSigned(k12, h, c.evidence.missing);
    }
  }

  /** What the chain knows to be acknowledged; -1 stands for nothing. */
  function Acknowledged(slot: ManagedSlot): int {
    if slot.chain.Some? && slot.chain.value.confirmed.Some? then slot.chain.value.confirmed.value else -1
  }

  /** Chain starts move on: no later chain of the epoch begins where an earlier one did. */
  ghost predicate Onward(h: Trace) {
    if h.signed == [] then h.chainFirst == 0 && h.slot.chain.None? else h.chainFirst <= LastTarget(h.signed)
  }

  /** The watermark of the chain, as long as it is the same chain. */
  ghost predicate Acknowledges(a: ManagedSlot, b: ManagedSlot) {
    b.chain.Some? ==> a.chain.Some? && b.chain.value.first == a.chain.value.first && Acknowledged(a) <= Acknowledged(b)
  }

  lemma EvidenceAcknowledges(slot: ManagedSlot, e: Evidence, requested: nat)
    ensures Acknowledges(slot, ObserveEvidence(slot, e, requested).slot)
  {
    hide FinancialFailureTarget, Agrees;
  }

  lemma WatermarkAcknowledges(slot: ManagedSlot, confirmed: nat, requested: nat)
    ensures Acknowledges(slot, ApplyWatermark(slot, confirmed, requested).slot)
  {
    if slot.chain.Some? {
      var cleared := slot.(chain := Some(slot.chain.value.(confirmed := Some(confirmed), suspicion := None)));
      EvidenceAcknowledges(slot, Lag(confirmed + STREAM_COUNT), requested);
      EvidenceAcknowledges(cleared, Lag(confirmed + STREAM_COUNT), requested);
    }
    hide ObserveEvidence;
  }

  lemma StatusAcknowledges(slot: ManagedSlot, requested: nat, observed: Option<nat>)
    ensures Acknowledges(slot, ApplyStatus(slot, requested, observed).slot)
  {
    EvidenceAcknowledges(slot, if observed.Some? then Foreign(observed.value) else Absent, requested);
    if observed.Some? {
      WatermarkAcknowledges(slot, observed.value, requested);
      WatermarkAcknowledges(slot.(state := Active), observed.value, requested);
    }
    hide ObserveEvidence, ApplyWatermark;
  }

  lemma StepOnward(k12: Hash, h: Trace, e: SlotEvent)
    requires Links(k12, h) && Onward(h) && !e.EpochReset?
    ensures var n := Next(k12, h, e);
      && Onward(n) && h.chainFirst <= n.chainFirst
      && (Started(k12, h.slot, e) && h.signed != [] ==> h.chainFirst < n.chainFirst)
      && (n.slot.chain.Some? && !Started(k12, h.slot, e) ==>
            h.slot.chain.Some? && Acknowledged(h.slot) <= Acknowledged(n.slot))
  {
    var n := Next(k12, h, e);
    StepLinks(k12, h, e);
    if Started(k12, h.slot, e) {
      StartTargetFits(h.slot, e.tick);
      SignedFromOne(CallsOf(h.slot), n.slot.chain.value.calls[|CallsOf(h.slot)|]);
    } else {
      if e.StatusSeen? { StatusAcknowledges(h.slot, e.requested, e.observed); } else { OtherIsSteady(k12, h.slot, e); }
      LastGrows(k12, h, n, e);
    }
  }

  lemma LastGrows(k12: Hash, h: Trace, n: Trace, e: SlotEvent)
    requires Links(k12, h) && Links(k12, n) && n == Next(k12, h, e) && !e.EpochReset?
    ensures h.signed != [] ==> n.signed != [] && LastTarget(h.signed) <= LastTarget(n.signed)
  {
    if h.signed != [] {
      assert n.signed[|h.signed| - 1] == h.signed[|h.signed| - 1];
      SignedLast(k12, n.signed, h.slot.stream, |h.signed| - 1);
    }
  }

  lemma SignedLast(k12: Hash, signed: seq<Signed>, stream: nat, i: nat)
    requires SignedOk(k12, signed, stream) && i < |signed|
    ensures signed[i].tx.target <= LastTarget(signed)
  {
    if i < |signed| - 1 { TargetsAscend(k12, signed, stream, i, |signed| - 1); }
  }

  ghost predicate NoReset(events: seq<SlotEvent>) { forall e :: e in events ==> !e.EpochReset? }

  lemma {:induction false} RunOnward(k12: Hash, h: Trace, events: seq<SlotEvent>)
    requires Links(k12, h) && Onward(h)
    ensures Links(k12, RunSlot(k12, h, events)) && Onward(RunSlot(k12, h, events))
    decreases |events|
  {
    if events != [] {
      StepLinks(k12, h, events[0]);
      if !events[0].EpochReset? { StepOnward(k12, h, events[0]); }
      RunOnward(k12, Next(k12, h, events[0]), events[1..]);
    }
  }

  lemma {:induction false} StaysOnward(k12: Hash, h: Trace, events: seq<SlotEvent>)
    requires Links(k12, h) && Onward(h) && NoReset(events)
    ensures var n := RunSlot(k12, h, events);
      && h.chainFirst <= n.chainFirst
      && (n.slot.chain.Some? && h.slot.chain.None? && h.signed != [] ==> h.chainFirst < n.chainFirst)
      && (n.slot.chain.Some? && h.slot.chain.Some? && n.chainFirst == h.chainFirst ==>
            Acknowledged(h.slot) <= Acknowledged(n.slot))
    decreases |events|
  {
    if events != [] {
      assert events[0] in events && forall e :: e in events[1..] ==> e in events;
      StepOnward(k12, h, events[0]);
      StepLinks(k12, h, events[0]);
      LastGrows(k12, h, Next(k12, h, events[0]), events[0]);
      assert h.slot.chain.Some? ==> h.signed != [];
      hide Links, Next, Started, LastTarget, Onward;
      StaysOnward(k12, Next(k12, h, events[0]), events[1..]);
    }
  }

  /** Within an epoch, as long as the slot is on the same chain its acknowledgement watermark
      never decreases, whatever happens in between. */
  lemma WatermarkNeverDecreases(k12: Hash, stream: nat, h: Trace, events: seq<SlotEvent>)
    requires Reachable(k12, stream, h) && NoReset(events)
    ensures var n := RunSlot(k12, h, events);
      h.slot.chain.Some? && n.slot.chain.Some? && n.chainFirst == h.chainFirst ==>
        Acknowledged(h.slot) <= Acknowledged(n.slot)
  {
    var past :| RunSlot(k12, Begin(stream), past) == h;
    BeginLinks(k12, stream);
    RunOnward(k12, Begin(stream), past);
    StaysOnward(k12, h, events);
  }
}
