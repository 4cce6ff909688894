/** Waiting for absence, exactly: the bound of a wait and whether absence was seen follow from
    the answers since the wait began, and a chain starts exactly then, at the first free target. */
module SlotWaits {
  import opened Basics
  import opened SlotRules
  import opened SlotRuns
  import opened SlotShape
  import opened SlotLinks
  import opened SlotSends
  import opened SlotLog
  import opened SlotFreeze
  import opened SlotFreshness
  import opened SlotMarks
  import opened SlotLives
  import opened SlotFailures

  /** The bound that a wait began with, lifted past every answer since that showed the slot occupied. */
  function BoundOver(seen: seq<Observation>, from: nat, bound: nat): nat {
    if |seen| <= from then bound
    else
      var o, rest := seen[|seen| - 1], BoundOver(seen[..|seen| - 1], from, bound);
      if o.observed.Some? then Max(rest, SaturatingAdd(o.requested, 1)) else rest
  }

  /** Since the wait began some answer, requested at or after the bound, showed the slot absent,
      and so did every answer after it. */
  ghost predicate AbsentFrom(seen: seq<Observation>, from: nat, bound: nat) {
    exists i: nat :: from <= i < |seen| && bound <= seen[i].requested && AllAbsent(seen, i)
  }

  ghost function BoundOf(l: Life): nat { BoundOver(l.h.seen, l.from, l.bound) }

  ghost predicate SeenAbsent(l: Life) { AbsentFrom(l.h.seen, l.from, BoundOf(l)) }

  ghost predicate Waits(l: Life) {
    && (l.h.signed == [] ==> l.h.slot.restartAt == 0)
    && (Idle(l.h.slot.state) ==>
          && l.from <= |l.h.seen|
          && l.h.slot.state.absenceAfter == BoundOf(l)
          && (l.h.slot.state.absenceObserved <==> SeenAbsent(l)))
  }

  lemma AnswerExtends(seen: seq<Observation>, from: nat, bound: nat, b: nat, o: Observation)
    requires from <= |seen|
    ensures BoundOver(seen + [o], from, bound)
         == if o.observed.Some? then Max(BoundOver(seen, from, bound), SaturatingAdd(o.requested, 1)) else BoundOver(seen, from, bound)
    ensures AbsentFrom(seen + [o], from, b) <==> o.observed.None? && (b <= o.requested || AbsentFrom(seen, from, b))
  {
    var n := seen + [o];
    assert n[..|n| - 1] == seen;
    if AbsentFrom(n, from, b) {
      var i: nat :| from <= i < |n| && b <= n[i].requested && AllAbsent(n, i);
      assert n[|seen|] == o;
      if i < |seen| {
        forall j | i <= j < |seen| ensures seen[j].observed.None? { assert n[j] == seen[j]; }
        assert n[i] == seen[i] && AllAbsent(seen, i);
      }
    }
    if o.observed.None? && b <= o.requested {
      assert n[|seen|] == o && AllAbsent(n, |seen|);
    }
    if o.observed.None? && AbsentFrom(seen, from, b) {
      var i: nat :| from <= i < |seen| && b <= seen[i].requested && AllAbsent(seen, i);
      forall j | i <= j < |n| ensures n[j].observed.None? { assert j < |seen| ==> n[j] == seen[j]; }
      assert n[i] == seen[i] && AllAbsent(n, i);
    }
  }

  /** The answers that move an idle slot. */
  lemma IdleStatus(slot: ManagedSlot, requested: nat, observed: Option<nat>)
    requires Idle(slot.state)
    ensures var s := ApplyStatus(slot, requested, observed).slot.state;
      && Idle(s)
      && s.absenceAfter == (if observed.Some? then Max(slot.state.absenceAfter, SaturatingAdd(requested, 1)) else slot.state.absenceAfter)
      && (s.absenceObserved <==> observed.None? && (slot.state.absenceAfter <= requested || slot.state.absenceObserved))
  {
  }

  lemma StatusWaits(k12: Hash, l: Life, requested: nat, observed: Option<nat>)
    requires Told(k12, l) && Waits(l) && Idle(l.h.slot.state)
    ensures var n := NextLife(k12, l, StatusSeen(requested, observed));
      && Idle(n.h.slot.state) && n.from <= |n.h.seen| && n.h.slot.state.absenceAfter == BoundOf(n)
      && (n.h.slot.state.absenceObserved <==> SeenAbsent(n))
  {
    hide Told, AbsentFrom, BoundOver, ApplyStatus;
    var n := NextLife(k12, l, StatusSeen(requested, observed));
    var o := Observation(requested, observed);
    IdleStatus(l.h.slot, requested, observed);
    AnswerExtends(l.h.seen, l.from, l.bound, BoundOf(n), o);
    assert n.h.seen == l.h.seen + [o];
  }

  lemma FreezeWaits(k12: Hash, l: Life, requested: nat, observed: Option<nat>)
    requires Told(k12, l) && l.h.slot.state.Live()
    ensures var n := NextLife(k12, l, StatusSeen(requested, observed));
      Idle(n.h.slot.state) ==>
        && n.from <= |n.h.seen| && n.h.slot.state.absenceAfter == BoundOf(n)
        && (n.h.slot.state.absenceObserved <==> SeenAbsent(n))
  {
    hide Known, Mirrors, Rises, Justified, WatermarkOk, Hopeful, Acknowledging, AbsentFrom, BoundOver, ApplyStatus;
    var n := NextLife(k12, l, StatusSeen(requested, observed));
    var o := Observation(requested, observed);
    LiveHasChain(l.h.slot);
    StatusWatched(l.h.slot, l.h.streak, requested, observed);
    LastCounted(l.h.slot, l.h.streak, requested, observed);
    AnswerExtends(l.h.seen, |l.h.seen|, requested, requested, o);
    NoAnswers(l.h.seen, requested);
    NoAnswers(n.h.seen, SaturatingAdd(requested, 1));
    assert n.h.seen == l.h.seen + [o];
    hide SlotOk, SignalOf, CountSignal;
  }

  lemma NoAnswers(seen: seq<Observation>, bound: nat)
    ensures BoundOver(seen, |seen|, bound) == bound && !AbsentFrom(seen, |seen|, bound)
  {
  }

  lemma LastCounted(slot: ManagedSlot, streak: seq<Counted>, requested: nat, observed: Option<nat>)
    requires |streak| < STATUS_CONFIRMATIONS_REQUIRED
    ensures var s := CountSignal(streak, SignalOf(slot, streak, requested, observed), requested);
      |s| == STATUS_CONFIRMATIONS_REQUIRED ==>
        s[|s| - 1].requested == requested && (s[|s| - 1].evidence.Absent? ==> observed.None?)
  {
    hide OnChain;
  }

  lemma LossWaits(k12: Hash, l: Life, e: SlotEvent)
    requires Told(k12, l) && l.h.slot.state.Live() && !e.StatusSeen? && !e.EpochReset?
    ensures var n := NextLife(k12, l, e);
      Idle(n.h.slot.state) ==>
        && n.from <= |n.h.seen| && n.h.slot.state.absenceAfter == BoundOf(n)
        && (n.h.slot.state.absenceObserved <==> SeenAbsent(n))
  {
    var n := NextLife(k12, l, e);
    assert SlotOk(l.h.slot) by { KnownFacts(k12, l); }
    hide Told, AbsentFrom, BoundOver, SlotOk;
    if Idle(n.h.slot.state) {
      LossSetsTheBound(k12, l.h.slot, e);
      NoRestart(k12, l.h.slot, e);
      hide StepSlot;
      NoAnswers(l.h.seen, SaturatingAdd(e.tick, 1));
    }
  }

  lemma NoRestart(k12: Hash, slot: ManagedSlot, e: SlotEvent)
    requires SlotOk(slot) && slot.state.Live() && !e.StatusSeen?
    ensures !StepSlot(k12, slot, e).slot.state.Restarting?
  {
    hide ChainOk;
  }

  /** Steps other than an answer keep a wait as it is, and end it or keep it idle. */
  lemma OtherKeepsWait(k12: Hash, slot: ManagedSlot, e: SlotEvent)
    requires SlotOk(slot) && !slot.state.Live() && !e.StatusSeen? && !e.EpochReset?
    ensures var s := StepSlot(k12, slot, e).slot.state;
      Idle(s) ==> Idle(slot.state) && s.absenceAfter == slot.state.absenceAfter && s.absenceObserved == slot.state.absenceObserved
  {
    hide ChainOk;
  }

  lemma StartSigns(k12: Hash, h: Trace, e: SlotEvent)
    requires Started(k12, h.slot, e)
    ensures Next(k12, h, e).signed == h.signed + [Signed(SignedTx(StartTarget(h.slot, e.tick).value, ZERO_BITS, k12(e.preimage)), FirstCommit)]
  {
    SignedFromOne(CallsOf(h.slot), Plan(StartTarget(h.slot, e.tick).value, ZERO_BITS, k12(e.preimage), FirstCommit));
  }

  lemma NothingSigned(k12: Hash, l: Life, e: SlotEvent)
    requires Told(k12, l) && (l.h.signed == [] ==> l.h.slot.restartAt == 0)
    ensures var n := NextLife(k12, l, e); n.h.signed == [] ==> n.h.slot.restartAt == 0
  {
    var n := NextLife(k12, l, e);
    assert Links(k12, l.h) by { KnownFacts(k12, l); }
    hide Told;
    if n.h.signed == [] && !e.EpochReset? {
      if Started(k12, l.h.slot, e) { StartSigns(k12, l.h, e); }
      assert l.h.signed == [] && l.h.slot.chain.None?;
    }
  }

  lemma StepWaits(k12: Hash, l: Life, e: SlotEvent)
    requires Told(k12, l) && Waits(l)
    ensures Waits(NextLife(k12, l, e))
  {
    var n := NextLife(k12, l, e);
    NothingSigned(k12, l, e);
    assert SlotOk(l.h.slot) by { KnownFacts(k12, l); }
    if e.EpochReset? {
      NoAnswers([], 0);
    } else if e.StatusSeen? {
      if Idle(l.h.slot.state) {
        StatusWaits(k12, l, e.requested, e.observed);
      } else if l.h.slot.state.Live() {
        FreezeWaits(k12, l, e.requested, e.observed);
      }
    } else if l.h.slot.state.Live() {
      LossWaits(k12, l, e);
    } else {
      OtherKeepsWait(k12, l.h.slot, e);
      assert n.h.seen == l.h.seen && n.from == l.from && n.bound == l.bound;
      hide StepSlot, SlotOk;
    }
    hide Told, AbsentFrom, BoundOver;
  }

  lemma {:induction false} RunWaits(k12: Hash, l: Life, events: seq<SlotEvent>)
    requires Told(k12, l) && Waits(l)
    ensures Told(k12, RunLife(k12, l, events)) && Waits(RunLife(k12, l, events))
    decreases |events|
  {
    if events != [] {
      StepTells(k12, l, events[0]);
      StepWaits(k12, l, events[0]);
      hide Told, Waits, NextLife;
      RunWaits(k12, NextLife(k12, l, events[0]), events[1..]);
    }
  }

  lemma LivedWaits(k12: Hash, stream: nat, l: Life)
    requires Lived(k12, stream, l)
    ensures Told(k12, l) && Waits(l)
  {
    var events :| RunLife(k12, NewLife(stream), events) == l;
    BeginTells(k12, stream);
    NoAnswers([], 0);
    RunWaits(k12, NewLife(stream), events);
  }

  /** Over every run: while a slot waits or its frozen chain runs out, its bound is the one the wait
      began with (zero, the tick after the loss, the last answer of a freeze by absence, or the
      tick after that of any other freeze), lifted past every occupied answer since, and absence
      counts as seen if and only if some answer since was absent at or after that bound and no
      later one was occupied. The end of the frozen chain and drain requests change neither. */
  lemma WaitsAreExact(k12: Hash, stream: nat, l: Life)
    requires Lived(k12, stream, l) && Idle(l.h.slot.state)
    ensures l.h.slot.state.absenceAfter == BoundOver(l.h.seen, l.from, l.bound)
    ensures l.h.slot.state.absenceObserved <==> AbsentFrom(l.h.seen, l.from, l.h.slot.state.absenceAfter)
  {
    LivedWaits(k12, stream, l);
    hide Told, AbsentFrom, BoundOver;
  }

  // ---------------------------------------------------------------- starting

  /** The first target of the stream, at least six ticks ahead and after everything it signed. */
  ghost predicate FreeTarget(h: Trace, tick: nat, target: nat) {
    && target <= U32_MAX && target % STREAM_COUNT == h.slot.stream && tick + 6 <= target
    && (h.signed != [] ==> LastTarget(h.signed) < target)
  }

  ghost predicate FirstFree(h: Trace, tick: nat, target: nat) {
    FreeTarget(h, tick, target) && forall t: nat :: FreeTarget(h, tick, t) ==> target <= t
  }

  /** Nothing stands against a new chain: absence was seen, and no drain was asked for. */
  ghost predicate Free(l: Life) {
    && Idle(l.h.slot.state) && SeenAbsent(l)
    && (l.h.slot.state.Restarting? ==> l.h.slot.state.drainReason.None?)
  }

  lemma StartTargetIs(k12: Hash, h: Trace, tick: nat, target: nat)
    requires Links(k12, h) && Idle(h.slot.state) && (h.signed == [] ==> h.slot.restartAt == 0)
    ensures StartTarget(h.slot, tick) == Some(target) <==> FirstFree(h, tick, target)
  {
    var earliest := Max(tick + SEND_LEAD_TICKS, h.slot.restartAt);
    var ahead := (h.slot.stream + STREAM_COUNT - earliest % STREAM_COUNT) % STREAM_COUNT;
    LastIsOnStream(k12, h);
    assert h.signed != [] ==> h.slot.restartAt == LastTarget(h.signed) + STREAM_COUNT;
    assert (earliest + ahead) % STREAM_COUNT == h.slot.stream && ahead < STREAM_COUNT;
    forall t: nat ensures FreeTarget(h, tick, t) <==> t <= U32_MAX && t % STREAM_COUNT == h.slot.stream && earliest <= t {}
    forall t: nat | t % STREAM_COUNT == h.slot.stream && earliest <= t ensures earliest + ahead <= t {}
    hide Links, FreeTarget;
    if StartTarget(h.slot, tick).Some? {
      assert FreeTarget(h, tick, earliest + ahead);
    }
  }

  lemma LastIsOnStream(k12: Hash, h: Trace)
    requires Links(k12, h) && Idle(h.slot.state)
    ensures h.slot.stream < STREAM_COUNT
    ensures h.signed != [] ==> LastTarget(h.signed) % STREAM_COUNT == h.slot.stream && h.slot.restartAt == LastTarget(h.signed) + STREAM_COUNT
  {
    if h.signed != [] { assert EntryOk(h.signed[|h.signed| - 1], h.slot.stream); }
  }

  /** Over every run: a start request begins a chain at a target if and only if absence was seen,
      no drain was asked for and the target is the first free one; it then signs the one first
      commit to the drawn preimage, keeps the calls still planned, and otherwise changes nothing. */
  lemma StartsAreExact(k12: Hash, stream: nat, l: Life, tick: nat, preimage: Bits, target: nat)
    requires Lived(k12, stream, l)
    ensures var n := Next(k12, l.h, StartAsked(tick, preimage));
      && (Free(l) && FirstFree(l.h, tick, target) ==>
            && n.slot.state == Starting(target) && n.chainFirst == target
            && n.signed == l.h.signed + [Signed(SignedTx(target, ZERO_BITS, k12(preimage)), FirstCommit)]
            && n.slot.chain.Some? && n.slot.chain.value.preimage == preimage
            && |CallsOf(n.slot)| == |CallsOf(l.h.slot)| + 1 && CallsOf(n.slot)[..|CallsOf(l.h.slot)|] == CallsOf(l.h.slot))
      && (!(Free(l) && exists t: nat :: FirstFree(l.h, tick, t)) ==> n.slot == l.h.slot && n.signed == l.h.signed)
  {
    LivedWaits(k12, stream, l);
    assert Links(k12, l.h) by { KnownFacts(k12, l); }
    hide Told, SeenAbsent, Links, FirstFree;
    var n := Next(k12, l.h, StartAsked(tick, preimage));
    assert Free(l) <==> MayStart(l.h.slot.state);
    if Free(l) {
      StartTargetIs(k12, l.h, tick, target);
      var t := StartTarget(l.h.slot, tick);
      if t.Some? {
        StartTargetIs(k12, l.h, tick, t.value);
        StartSigns(k12, l.h, StartAsked(tick, preimage));
      }
    }
  }
}
