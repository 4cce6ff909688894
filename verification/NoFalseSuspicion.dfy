/** When the engine distrusts a chain. Over every joint run, in which the contract executes each
    signed call in its tick and status answers show the contract as it was, a suspicion arises
    exactly from an answer taken so late that the contract had already evicted the chain. */
module NoFalseSuspicion {
  import opened Basics
  import R = RandomRules
  import W = RandomWorld
  import opened Delivery
  import opened Snapshots
  import opened ChainDelivery
  import opened SlotRules
  import opened SlotRuns
  import opened SlotShape
  import opened SlotLinks
  import opened SlotFreeze
  import opened SlotFreshness
  import opened KeySlots
  import opened JointRuns

  // ---------------------------------------------------------------- one answer

  /** No suspicion anywhere, and what was acknowledged lies before the tick the latest answer
      speaks for. */
  ghost predicate Trusting(slot: ManagedSlot, before: nat) {
    && SlotOk(slot) && !slot.state.Restarting?
    && (slot.state.Live() ==>
          var chain := slot.chain.value;
          && chain.suspicion.None?
          && (chain.confirmed.Some? ==> chain.Owns(chain.confirmed.value) && chain.confirmed.value < before)
          && (slot.state.Active? ==> chain.confirmed.Some?))
  }

  predicate Suspects(slot: ManagedSlot) {
    slot.state.Restarting? || (slot.state.Live() && slot.chain.Some? && slot.chain.value.suspicion.Some?)
  }

  /** The first observation has been counted against a live chain. */
  predicate FirstDoubt(slot: ManagedSlot) {
    && slot.state.Live() && slot.chain.Some?
    && slot.chain.value.suspicion.Some? && slot.chain.value.suspicion.value.confirmations == 1
  }

  /** The answer shows a tick after the one that evicts the live chain, which counts unless the
      chain is still starting and the request no later than its first target. */
  predicate LateFor(slot: ManagedSlot, requested: nat, tick: nat) {
    && slot.state.Live() && slot.chain.Some? && slot.chain.value.last + STREAM_COUNT < tick
    && (slot.state.Starting? ==> slot.state.firstTarget < requested)
  }

  predicate Late(j: Joint, m: Move) { m.Answered? && m.k < |j.past| && LateFor(j.h.slot, m.requested, j.past[m.k].w.tick) }

  lemma DivGrows(x: nat, y: nat)
    requires x <= y
    ensures x / STREAM_COUNT * STREAM_COUNT <= y / STREAM_COUNT * STREAM_COUNT
  {
  }

  lemma LatestGrows(chain: Chain, a: nat, b: nat)
    requires a <= b && chain.LatestTargetBefore(a).Some?
    ensures chain.LatestTargetBefore(b).Some? && chain.LatestTargetBefore(a).value <= chain.LatestTargetBefore(b).value
  {
    var x, y := Min(a - 1, chain.last) - chain.first, Min(b - 1, chain.last) - chain.first;
    DivGrows(x, y);
  }

  lemma OwnedIsAtMostLatest(chain: Chain, target: nat, asOf: nat)
    requires chain.Owns(target) && target < asOf
    ensures chain.LatestTargetBefore(asOf).Some? && target <= chain.LatestTargetBefore(asOf).value
  {
    LatestInside(chain, target, target + 1);
    LatestGrows(chain, target + 1, asOf);
  }

  /** The latest target before a tick not before the request is an acknowledgement, or too early
      to count. */
  lemma LatestIsTrusted(slot: ManagedSlot, requested: nat, asOf: nat, before: nat)
    requires Trusting(slot, before) && slot.state.Live() && before <= asOf && requested <= asOf
    ensures var o := ApplyStatus(slot, requested, slot.chain.value.LatestTargetBefore(asOf));
      Trusting(o.slot, asOf) && o.slot.state.Live()
  {
    var chain := slot.chain.value;
    var observed := chain.LatestTargetBefore(asOf);
    LatestIsOwned(chain, asOf);
    if chain.confirmed.Some? { OwnedIsAtMostLatest(chain, chain.confirmed.value, asOf); }
    if observed.Some? {
      if chain.LatestTargetBefore(requested).Some? { LatestGrows(chain, requested, asOf); }
      AcknowledgedIsTrusted(slot, requested, observed.value, asOf);
    }
  }

  lemma AcknowledgedIsTrusted(slot: ManagedSlot, requested: nat, t: nat, asOf: nat)
    requires SlotOk(slot) && slot.state.Live() && slot.chain.value.suspicion.None?
    requires slot.chain.value.Owns(t) && t < asOf
    requires slot.chain.value.confirmed.Some? ==> slot.chain.value.confirmed.value <= t
    requires var due := slot.chain.value.LatestTargetBefore(requested); due.Some? ==> due.value <= t
    ensures var o := ApplyStatus(slot, requested, Some(t)); Trusting(o.slot, asOf) && o.slot.state.Live()
  {
    StatusKeeps(slot, requested, Some(t));
    hide ChainOk, ObserveEvidence;
  }

  /** An absent answer about a trusted live chain raises a suspicion, or is too early to count. */
  lemma AbsenceIsSuspected(slot: ManagedSlot, requested: nat, before: nat, asOf: nat)
    requires Trusting(slot, before) && slot.state.Live() && before <= asOf
    ensures var o := ApplyStatus(slot, requested, None);
      if slot.state.Starting? ==> slot.state.firstTarget < requested then
        FirstDoubt(o.slot) && o.slot.chain.value.last == slot.chain.value.last
      else Trusting(o.slot, asOf) && o.slot.state.Live()
  {
    hide ChainOk;
  }

  // ---------------------------------------------------------------- one move

  predicate StaysQuiet(a: Trace, b: Trace) { |b.streak| <= |a.streak| }

  ghost predicate Trusted(k12: Hash, p: Provider, j: Joint) {
    && Along(k12, p, j) && Watched(j.h)
    && Trusting(j.h.slot, AsOf(j.h.signed, j.past[j.seen]))
  }

  lemma AsOfGrows(k12: Hash, p: Provider, j: Joint, k: nat)
    requires Along(k12, p, j) && j.seen <= k < |j.past|
    ensures AsOf(j.h.signed, j.past[j.seen]) <= AsOf(j.h.signed, j.past[k])
  {
    var a, b := j.past[j.seen], j.past[k];
    assert Before(a, b);
    assert MomentOk(j.h.signed, b, p, j.h.slot.stream, ClearedOnce(j.h));
    if 0 < a.done < b.done { TargetsAscend(k12, j.h.signed, j.h.slot.stream, a.done - 1, b.done - 1); }
    hide W.StreamOk, Taken, LeftBehind, AbsentKey, Sealed, Onward, Gaps, HeadOk, EndsOk, CallsSigned, SlotOk, Linked, EntryOk;
  }

  /** An answer about a live chain raises a suspicion exactly when it is late. */
  lemma AnswerIsTrusted(k12: Hash, p: Provider, j: Joint, requested: nat, k: nat)
    requires Trusted(k12, p, j) && Allowed(p, j, Answered(requested, k)) && j.h.slot.state.Live()
    ensures var n := Moved(k12, p, j, Answered(requested, k));
      if LateFor(j.h.slot, requested, j.past[k].w.tick) then
        FirstDoubt(n.h.slot) && n.h.slot.chain.value.last == j.h.slot.chain.value.last
      else Trusting(n.h.slot, AsOf(j.h.signed, j.past[k])) && n.h.slot.state.Live()
  {
    hide MomentsOk, Ordered, HistoryOk, SeenLate, W.StreamOk, Shown, ApplyStatus, Watched;
    AlongShows(k12, p, j, k);
    AsOfGrows(k12, p, j, k);
    var before, asOf := AsOf(j.h.signed, j.past[j.seen]), AsOf(j.h.signed, j.past[k]);
    LatestIsTrusted(j.h.slot, requested, asOf, before);
    AbsenceIsSuspected(j.h.slot, requested, before, asOf);
  }

  lemma AnswerHistory(k12: Hash, h: Trace, e: SlotEvent)
    requires HistoryOk(k12, h) && DigestsNonZero(k12) && e.StatusSeen?
    ensures var n := Next(k12, h, e);
      HistoryOk(k12, n) && n.signed == h.signed && n.chainFirst == h.chainFirst
  {
    StepLinks(k12, h, e);
    StepOnward(k12, h, e);
    StepSeals(k12, h, e);
    assert Next(k12, h, e).signed == h.signed;
    hide Links, Onward, Sealed, Gaps, HeadOk, StepSlot;
  }

  lemma AnswerSeenLate(k12: Hash, p: Provider, j: Joint, requested: nat, k: nat)
    requires Along(k12, p, j) && DigestsNonZero(k12) && Allowed(p, j, Answered(requested, k))
    requires var n := Moved(k12, p, j, Answered(requested, k)).h.slot; !n.state.Restarting? && (j.h.slot.state.Live() ==> n.state.Live())
    ensures SeenLate(Moved(k12, p, j, Answered(requested, k)).h, j.past[k].w.tick)
  {
    var h, m := j.h, j.past[k];
    var observed := Shown(m.w, p, h.slot.stream);
    var n := Next(k12, h, StatusSeen(requested, observed));
    assert Before(j.past[j.seen], m);
    AnswerHistory(k12, h, StatusSeen(requested, observed));
    AbsentShowsNothing(m.w, p, h.slot.stream);
    if h.slot.state.Waiting? {
      AbsenceIsNoticed(h.slot, requested, observed);
      if h.signed != [] && h.chainFirst < m.w.tick && observed.None? { NothingMeansOver(k12, p, j, k); }
    }
    hide Shown, MomentsOk, Ordered, HistoryOk, W.StreamOk, ObserveEvidence, ApplyWatermark, AbsentKey, HeadAt;
  }

  lemma SeenKeepsMoments(p: Provider, j: Joint, n: Joint)
    requires JointOk(j) && JointOk(n) && MomentsOk(j, p) && Ordered(j, p)
    requires n.past == j.past && j.seen <= n.seen && n.h.signed == j.h.signed && n.h.slot.stream == j.h.slot.stream
    requires ClearedOnce(n.h) ==> ClearedOnce(j.h) || AbsentKey(j.past[n.seen].w.c.streams[j.h.slot.stream], p)
    ensures MomentsOk(n, p) && Ordered(n, p)
  {
    var signed, stream, m := j.h.signed, j.h.slot.stream, j.past[n.seen];
    hide W.StreamOk, SlotIs, AbsentKey, SlotOk;
    assert forall a, b :: 0 <= a <= b < |j.past| ==> Before(j.past[a], j.past[b]) && GoneStays(j.past[a], j.past[b], p, stream);
    assert MomentOk(signed, m, p, stream, ClearedOnce(j.h));
    forall i | 0 <= i < |n.past| ensures MomentOk(signed, n.past[i], p, stream, n.seen <= i && ClearedOnce(n.h)) {
      assert MomentOk(signed, j.past[i], p, stream, j.seen <= i && ClearedOnce(j.h));
      if n.seen <= i { assert GoneStays(m, j.past[i], p, stream); }
    }
  }

  lemma AnswerMoments(k12: Hash, p: Provider, j: Joint, requested: nat, k: nat)
    requires Along(k12, p, j) && DigestsNonZero(k12) && Allowed(p, j, Answered(requested, k))
    requires var n := Moved(k12, p, j, Answered(requested, k)).h.slot; j.h.slot.state.Live() ==> n.state.Live()
    ensures MomentsOk(Moved(k12, p, j, Answered(requested, k)), p) && Ordered(Moved(k12, p, j, Answered(requested, k)), p)
  {
    hide MomentsOk, Ordered, HistoryOk, SeenLate, W.StreamOk, AbsentKey, Shown, ApplyStatus;
    var observed := Shown(j.past[k].w, p, j.h.slot.stream);
    var n := Moved(k12, p, j, Answered(requested, k));
    AnswerHistory(k12, j.h, StatusSeen(requested, observed));
    AbsentShowsNothing(j.past[k].w, p, j.h.slot.stream);
    if ClearedOnce(n.h) && !ClearedOnce(j.h) { OnlyAnAbsence(j.h.slot, requested, observed); }
    StepKeepsStream(k12, j.h.slot, StatusSeen(requested, observed));
    SeenKeepsMoments(p, j, n);
  }

  /** A slot newly counts as absent only by an answer that showed nothing. */
  lemma OnlyAnAbsence(slot: ManagedSlot, requested: nat, observed: Option<nat>)
    requires !(slot.state.Waiting? && slot.state.absenceObserved)
    requires var n := ApplyStatus(slot, requested, observed).slot.state;
      n.Waiting? && n.absenceObserved && (slot.state.Live() ==> n.Live())
    ensures observed.None?
  {
    hide ObserveEvidence, ApplyWatermark;
  }

  lemma AnswerStaysTrusted(k12: Hash, p: Provider, j: Joint, requested: nat, k: nat)
    requires Trusted(k12, p, j) && DigestsNonZero(k12) && Allowed(p, j, Answered(requested, k))
    requires !Late(j, Answered(requested, k))
    ensures Trusted(k12, p, Moved(k12, p, j, Answered(requested, k)))
    ensures StaysQuiet(j.h, Moved(k12, p, j, Answered(requested, k)).h)
  {
    AnswerAlong(k12, p, j, requested, k);
    AnswerCountsNothing(k12, p, j, requested, k);
    hide Along, W.StreamOk, Shown, Next, Watched, SlotOk, AsOf;
  }

  /** Late or not, an answer keeps the two sides in step. */
  lemma AnswerAlong(k12: Hash, p: Provider, j: Joint, requested: nat, k: nat)
    requires Trusted(k12, p, j) && DigestsNonZero(k12) && Allowed(p, j, Answered(requested, k))
    ensures var n := Moved(k12, p, j, Answered(requested, k));
      Along(k12, p, n) && Watched(n.h) && (j.h.slot.state.Live() ==> n.h.slot.state.Live())
  {
    hide MomentsOk, Ordered, HistoryOk, SeenLate, W.StreamOk, Shown, Next, Watched, SlotOk, AsOf;
    var e := StatusSeen(requested, Shown(j.past[k].w, p, j.h.slot.stream));
    AnswerHistory(k12, j.h, e);
    StepWatched(k12, j.h, e);
    AnswerStaysLive(k12, p, j, requested, k);
    AnswerSeenLate(k12, p, j, requested, k);
    AnswerMoments(k12, p, j, requested, k);
  }

  lemma AnswerStaysLive(k12: Hash, p: Provider, j: Joint, requested: nat, k: nat)
    requires Trusted(k12, p, j) && Allowed(p, j, Answered(requested, k))
    ensures var n := Moved(k12, p, j, Answered(requested, k)).h.slot;
      !n.state.Restarting? && (j.h.slot.state.Live() <==> n.state.Live()) && n.stream == j.h.slot.stream
  {
    hide MomentsOk, Ordered, HistoryOk, SeenLate, W.StreamOk, Shown, ApplyStatus, Watched, ChainOk, NextStreak, AsOf;
    var observed := Shown(j.past[k].w, p, j.h.slot.stream);
    StepKeepsStream(k12, j.h.slot, StatusSeen(requested, observed));
    if j.h.slot.state.Live() { AnswerIsTrusted(k12, p, j, requested, k); } else { IdleStaysTrusting(j.h.slot, requested, observed); }
  }

  lemma AnswerCountsNothing(k12: Hash, p: Provider, j: Joint, requested: nat, k: nat)
    requires Trusted(k12, p, j) && Allowed(p, j, Answered(requested, k)) && !Late(j, Answered(requested, k))
    ensures var n := Moved(k12, p, j, Answered(requested, k));
      && Watched(n.h) && StaysQuiet(j.h, n.h) && Trusting(n.h.slot, AsOf(j.h.signed, j.past[k]))
      && (j.h.slot.state.Live() ==> n.h.slot.state.Live())
  {
    hide MomentsOk, Ordered, HistoryOk, SeenLate, W.StreamOk, Shown, ApplyStatus, Watched, ChainOk, NextStreak, AsOf;
    var e := StatusSeen(requested, Shown(j.past[k].w, p, j.h.slot.stream));
    if j.h.slot.state.Live() { AnswerIsTrusted(k12, p, j, requested, k); } else { IdleStaysTrusting(j.h.slot, requested, e.observed); }
    StepKeepsShape(k12, j.h.slot, e);
    StepWatched(k12, j.h, e);
    NothingCounted(k12, j.h, e);
  }

  lemma IdleStaysTrusting(slot: ManagedSlot, requested: nat, observed: Option<nat>)
    requires SlotOk(slot) && !slot.state.Live() && !slot.state.Restarting?
    ensures var s := ApplyStatus(slot, requested, observed).slot.state; !s.Live() && !s.Restarting?
  {
  }

  lemma NothingCounted(k12: Hash, h: Trace, e: SlotEvent)
    requires Watched(h) && Watched(Next(k12, h, e))
    requires h.slot.state.Live() && e.StatusSeen? ==>
      var n := Next(k12, h, e).slot; n.state.Live() && n.chain.value.suspicion.None?
    ensures StaysQuiet(h, Next(k12, h, e))
  {
    hide Rises, Justified, WatermarkOk, SlotRules.ApplyStatus;
  }

  lemma OtherKeepsActive(k12: Hash, slot: ManagedSlot, e: SlotEvent)
    requires SlotOk(slot) && !e.EpochReset? && !e.StatusSeen? && !Started(k12, slot, e)
    ensures StepSlot(k12, slot, e).slot.state.Active? ==> slot.state.Active?
  {
    hide ChainOk;
  }

  lemma EngineStaysTrusting(k12: Hash, slot: ManagedSlot, e: SlotEvent, before: nat)
    requires Trusting(slot, before) && !e.StatusSeen? && !e.EpochReset?
    ensures Trusting(StepSlot(k12, slot, e).slot, before)
  {
    StepKeepsShape(k12, slot, e);
    if !Started(k12, slot, e) {
      OtherIsSteady(k12, slot, e);
      OtherKeepsActive(k12, slot, e);
    }
    hide ChainOk;
  }

  lemma EngineStaysTrusted(k12: Hash, p: Provider, j: Joint, e: SlotEvent)
    requires Trusted(k12, p, j) && DigestsNonZero(k12) && !e.EpochReset?
    requires Allowed(p, j, EngineMoves(e)) && Punctual(Moved(k12, p, j, EngineMoves(e)))
    ensures Trusted(k12, p, Moved(k12, p, j, EngineMoves(e))) && StaysQuiet(j.h, Moved(k12, p, j, EngineMoves(e)).h)
  {
    EngineAlong(k12, p, j, e);
    Growth(k12, j.h, e);
    assert MomentOk(j.h.signed, j.past[j.seen], p, j.h.slot.stream, ClearedOnce(j.h));
    EngineStaysTrusting(k12, j.h.slot, e, AsOf(j.h.signed, j.past[j.seen]));
    StepWatched(k12, j.h, e);
    NothingCounted(k12, j.h, e);
    hide MomentsOk, Ordered, HistoryOk, SeenLate, W.StreamOk, Watched, SlotOk, NextStreak, StepSlot, SlotIs, AbsentKey;
  }

  lemma ContractStaysTrusted(k12: Hash, p: Provider, j: Joint, c: W.Event)
    requires Trusted(k12, p, j) && Allowed(p, j, ContractMoves(c)) && Punctual(Moved(k12, p, j, ContractMoves(c)))
    ensures Trusted(k12, p, Moved(k12, p, j, ContractMoves(c))) && StaysQuiet(j.h, Moved(k12, p, j, ContractMoves(c)).h)
  {
    ContractAlong(k12, p, j, c);
    hide Along, W.StreamOk, Watched, SlotOk, Executes, OwnIsSigned, HasRoom;
  }

  lemma OpeningIsTrusted(k12: Hash, p: Provider, stream: nat, w: W.World)
    requires stream < STREAM_COUNT && p.tier < R.TIER_COUNT && W.WorldOk(w)
    ensures Trusted(k12, p, Opening(stream, w))
  {
    BeginsAlong(k12, p, stream, w);
    hide Along, W.WorldOk;
  }

  /** As long as no answer is late, every move leaves the engine trusting. */
  lemma MoveStaysTrusted(k12: Hash, p: Provider, j: Joint, m: Move)
    requires Trusted(k12, p, j) && DigestsNonZero(k12) && Allowed(p, j, m) && Punctual(Moved(k12, p, j, m)) && !Late(j, m)
    ensures Trusted(k12, p, Moved(k12, p, j, m)) && StaysQuiet(j.h, Moved(k12, p, j, m).h)
  {
    match m
    case EngineMoves(e) =>
      if e.EpochReset? {
        hide Punctual, MomentsOk, Ordered, HistoryOk, SeenLate, Watched;
        OpeningIsTrusted(k12, p, j.h.slot.stream, Now(j).w);
      } else {
        EngineStaysTrusted(k12, p, j, e);
      }
    case ContractMoves(c) => ContractStaysTrusted(k12, p, j, c);
    case Answered(requested, k) => AnswerStaysTrusted(k12, p, j, requested, k);
  }

  // ---------------------------------------------------------------- every run

  ghost predicate EverLate(k12: Hash, p: Provider, j: Joint, moves: seq<Move>)
    requires JointOk(j) && JointRun(k12, p, j, moves)
    decreases |moves|
  {
    moves != [] && (Late(j, moves[0]) || EverLate(k12, p, Moved(k12, p, j, moves[0]), moves[1..]))
  }

  ghost predicate EverSuspects(k12: Hash, p: Provider, j: Joint, moves: seq<Move>)
    requires JointOk(j) && JointRun(k12, p, j, moves)
    decreases |moves|
  {
    Suspects(j.h.slot) || (moves != [] && EverSuspects(k12, p, Moved(k12, p, j, moves[0]), moves[1..]))
  }

  /** A run is its parts one after another, and so is what happens in it. */
  lemma {:induction false} RunSplits(k12: Hash, p: Provider, j: Joint, a: seq<Move>, b: seq<Move>)
    requires JointOk(j)
    ensures JointRun(k12, p, j, a + b) <==> JointRun(k12, p, j, a) && JointRun(k12, p, JointEnd(k12, p, j, a), b)
    ensures JointRun(k12, p, j, a + b) ==>
      var m := JointEnd(k12, p, j, a);
      && JointEnd(k12, p, j, a + b) == JointEnd(k12, p, m, b)
      && (EverLate(k12, p, j, a + b) <==> EverLate(k12, p, j, a) || EverLate(k12, p, m, b))
      && (EverSuspects(k12, p, j, a + b) <==> EverSuspects(k12, p, j, a) || EverSuspects(k12, p, m, b))
    decreases |a|
  {
    hide Moved, Allowed, Punctual, Late, JointOk, Suspects;
    if a == [] {
      assert a + b == b;
    } else {
      assert (a + b)[1..] == a[1..] + b && (a + b)[0] == a[0];
      if Allowed(p, j, a[0]) && Punctual(Moved(k12, p, j, a[0])) { RunSplits(k12, p, Moved(k12, p, j, a[0]), a[1..], b); }
    }
  }

  lemma RunsOne(k12: Hash, p: Provider, j: Joint, m: Move)
    requires JointOk(j) && Allowed(p, j, m) && Punctual(Moved(k12, p, j, m))
    ensures JointRun(k12, p, j, [m]) && JointEnd(k12, p, j, [m]) == Moved(k12, p, j, m)
    ensures EverLate(k12, p, j, [m]) <==> Late(j, m)
  {
    hide Moved, Allowed, Punctual, Late, JointOk;
    assert [m][1..] == [];
  }

  lemma LateMoveSuspects(k12: Hash, p: Provider, j: Joint, m: Move)
    requires Trusted(k12, p, j) && Allowed(p, j, m) && Late(j, m)
    ensures Suspects(Moved(k12, p, j, m).h.slot)
  {
    AnswerIsTrusted(k12, p, j, m.requested, m.k);
    hide Trusted, Suspects, Shown;
  }

  lemma TrustedIsQuiet(k12: Hash, p: Provider, j: Joint)
    requires Trusted(k12, p, j)
    ensures !Suspects(j.h.slot)
  {
    hide Along, Watched;
  }

  lemma {:induction false} RunSuspicions(k12: Hash, p: Provider, j: Joint, moves: seq<Move>)
    requires Trusted(k12, p, j) && DigestsNonZero(k12) && JointRun(k12, p, j, moves)
    ensures EverSuspects(k12, p, j, moves) <==> EverLate(k12, p, j, moves)
    ensures !EverLate(k12, p, j, moves) ==>
      var n := JointEnd(k12, p, j, moves); Trusted(k12, p, n) && StaysQuiet(j.h, n.h)
    decreases |moves|
  {
    TrustedIsQuiet(k12, p, j);
    if moves != [] {
      var n := Moved(k12, p, j, moves[0]);
      if Late(j, moves[0]) {
        LateMoveSuspects(k12, p, j, moves[0]);
      } else {
        MoveStaysTrusted(k12, p, j, moves[0]);
        RunSuspicions(k12, p, n, moves[1..]);
      }
    }
    hide Trusted, Late, Suspects, Allowed, Punctual, Moved;
  }

  /** A run of the engine's stream beside the contract, from any contract state on. */
  ghost predicate FromOpening(k12: Hash, p: Provider, stream: nat, w: W.World, moves: seq<Move>) {
    && stream < STREAM_COUNT && p.tier < R.TIER_COUNT && DigestsNonZero(k12) && W.WorldOk(w)
    && JointRun(k12, p, Opening(stream, w), moves)
  }

  /** Over every joint run: the engine suspects a chain at some point if and only if some answer
      came late, that is, showed the contract after it had evicted the chain for want of a
      further call. */
  lemma SuspicionsAreLateAnswers(k12: Hash, p: Provider, stream: nat, w: W.World, moves: seq<Move>)
    requires FromOpening(k12, p, stream, w, moves)
    ensures EverSuspects(k12, p, Opening(stream, w), moves) <==> EverLate(k12, p, Opening(stream, w), moves)
  {
    OpeningIsTrusted(k12, p, stream, w);
    RunSuspicions(k12, p, Opening(stream, w), moves);
    hide Trusted, Opening, EverLate, EverSuspects, JointRun, W.WorldOk;
  }

  /** Over every joint run without a late answer: no suspicion is held, nothing has been counted
      against a chain and no chain is frozen. */
  lemma NoFalseSuspicionEver(k12: Hash, p: Provider, stream: nat, w: W.World, moves: seq<Move>)
    requires FromOpening(k12, p, stream, w, moves) && !EverLate(k12, p, Opening(stream, w), moves)
    ensures var n := JointEnd(k12, p, Opening(stream, w), moves).h;
      && !n.slot.state.Restarting? && n.streak == []
      && (n.slot.state.Live() ==> n.slot.chain.Some? && n.slot.chain.value.suspicion.None?)
  {
    OpeningIsTrusted(k12, p, stream, w);
    RunSuspicions(k12, p, Opening(stream, w), moves);
    hide Along, Watched, EverLate, EverSuspects, JointRun, W.WorldOk, JointEnd;
  }

  /** Over every joint run without a late answer, for a live chain: any moment since the latest
      answer, in the middle of a tick or not, shows the latest target of that chain whose tick
      the moment has seen; and it shows nothing exactly before the first target, or once the
      chain has been evicted because no call followed its tail. */
  lemma LiveChainSnapshot(k12: Hash, p: Provider, stream: nat, w: W.World, moves: seq<Move>, k: nat)
    requires FromOpening(k12, p, stream, w, moves) && !EverLate(k12, p, Opening(stream, w), moves)
    ensures var n := JointEnd(k12, p, Opening(stream, w), moves);
      n.h.slot.state.Live() && n.seen <= k < |n.past| && n.past[k].w.tick <= U32_MAX ==>
        && n.h.slot.chain.Some?
        && var chain := n.h.slot.chain.value;
           Shown(n.past[k].w, p, n.h.slot.stream) ==
             if chain.last + STREAM_COUNT < n.past[k].w.tick then None
             else chain.LatestTargetBefore(AsOf(n.h.signed, n.past[k]))
  {
    OpeningIsTrusted(k12, p, stream, w);
    RunSuspicions(k12, p, Opening(stream, w), moves);
    hide MomentsOk, Ordered, HistoryOk, SeenLate, Watched, Trusting, Opening, EverLate, EverSuspects, JointRun, W.StreamOk, JointEnd, Shown;
    var n := JointEnd(k12, p, Opening(stream, w), moves);
    if n.h.slot.state.Live() && n.seen <= k < |n.past| && n.past[k].w.tick <= U32_MAX { AlongShows(k12, p, n, k); }
  }

  /** An extension at tick T that the wallet signs in full keeps every answer up to tick T + 7
      from being late. */
  lemma ExtendedChainsAreTrusted(k12: Hash, h: Trace, tick: nat, draws: nat -> Option<Bits>, requested: nat, snapshot: nat)
    requires SlotOk(h.slot) && tick + SEND_LEAD_TICKS + STREAM_COUNT <= U32_MAX && forall i: nat :: draws(i).Some?
    requires snapshot <= tick + SEND_LEAD_TICKS + 1
    ensures !LateFor(Next(k12, h, ExtendAsked(tick, draws)).slot, requested, snapshot)
  {
    if h.slot.state.Live() {
      ExtendSigns(k12, h.slot.chain.value, tick + SEND_LEAD_TICKS, draws, 0);
    }
    hide ChainOk;
  }
}
