/** What a late answer can still do. When every cycle knows a tick no older than the answer it
    applies, a late answer is counted once at most, and the next completed cycle ends the chain:
    no chain is ever frozen on its account. */
module Doubts {
  import opened Basics
  import R = RandomRules
  import W = RandomWorld
  import opened Delivery
  import opened Snapshots
  import opened ChainDelivery
  import opened SlotRules
  import opened SlotRuns
  import opened SlotShape
  import opened SlotLinks
  import opened SlotFreeze
  import opened SlotProgress
  import opened EpochPhases
  import opened Cycles
  import opened KeySlots
  import opened JointRuns
  import opened NoFalseSuspicion
  import opened CycleRuns

  // ---------------------------------------------------------------- a chain that is over

  /** One observation counts against a chain whose next target this tick has passed. */
  predicate Doomed(slot: ManagedSlot, tick: nat) {
    FirstDoubt(slot) && slot.chain.value.last + STREAM_COUNT <= Min(tick, U32_MAX)
  }

  /** The chain is trusted, or over with one observation counted. */
  ghost predicate Watchful(k12: Hash, p: Provider, j: Joint, tick: nat) {
    && Along(k12, p, j) && Watched(j.h) && |j.h.streak| <= 1
    && (Trusting(j.h.slot, AsOf(j.h.signed, j.past[j.seen])) || Doomed(j.h.slot, tick))
  }

  lemma DoomedStep(k12: Hash, slot: ManagedSlot, e: SlotEvent, tick: nat)
    requires SlotOk(slot) && Doomed(slot, tick) && !e.StatusSeen? && !e.EpochReset? && (e.ExtendAsked? ==> tick <= e.tick)
    ensures var n := StepSlot(k12, slot, e).slot;
      && (Doomed(n, tick) || (!n.state.Live() && !n.state.Restarting?))
      && (e.ExtendAsked? || e.DrainAsked? ==> !n.state.Live())
  {
    if e.ExtendAsked? {
      MissedEnds(k12, slot, e.tick, e.draws);
    } else {
      OtherIsSteady(k12, slot, e);
      if !e.DrainAsked? && !e.StartAsked? { OtherStepIsQuiet(k12, slot, e); }
    }
    hide ChainOk, CallSet, ExpireCalls, ExtendChain;
  }

  /** What is not live is trusted. */
  lemma IdleIsTrusting(slot: ManagedSlot, before: nat)
    requires SlotOk(slot) && !slot.state.Live() && !slot.state.Restarting?
    ensures Trusting(slot, before)
  {
  }

  lemma EngineStaysWatchful(k12: Hash, p: Provider, j: Joint, e: SlotEvent, tick: nat)
    requires Watchful(k12, p, j, tick) && DigestsNonZero(k12) && !e.EpochReset? && (e.ExtendAsked? ==> tick <= e.tick)
    requires Allowed(p, j, EngineMoves(e)) && Punctual(Moved(k12, p, j, EngineMoves(e)))
    ensures var n := Moved(k12, p, j, EngineMoves(e));
      && Watchful(k12, p, n, tick)
      && (Trusted(k12, p, j) || e.ExtendAsked? || e.DrainAsked? ==> Trusted(k12, p, n))
  {
    hide MomentsOk, Ordered, SeenLate, W.StreamOk, Watched, NextStreak, StepSlot, SlotIs, AbsentKey;
    var before := AsOf(j.h.signed, j.past[j.seen]);
    if Trusting(j.h.slot, before) {
      EngineStaysTrusted(k12, p, j, e);
    } else {
      EngineAlong(k12, p, j, e);
      StepWatched(k12, j.h, e);
      NothingCounted(k12, j.h, e);
      StepKeepsShape(k12, j.h.slot, e);
      DoomedStep(k12, j.h.slot, e, tick);
      var n := Moved(k12, p, j, EngineMoves(e));
      if !n.h.slot.state.Live() { IdleIsTrusting(n.h.slot, AsOf(n.h.signed, n.past[n.seen])); }
    }
    hide HistoryOk, SlotOk;
  }

  lemma MoveStaysWatchful(k12: Hash, p: Provider, j: Joint, m: Move, tick: nat)
    requires Watchful(k12, p, j, tick) && DigestsNonZero(k12) && !m.Answered?
    requires m.EngineMoves? && m.e.ExtendAsked? ==> tick <= m.e.tick
    requires Allowed(p, j, m) && Punctual(Moved(k12, p, j, m))
    ensures Watchful(k12, p, Moved(k12, p, j, m), tick) && (Trusted(k12, p, j) ==> Trusted(k12, p, Moved(k12, p, j, m)))
  {
    match m
    case EngineMoves(e) =>
      if e.EpochReset? {
        hide Punctual, MomentsOk, Ordered, HistoryOk, SeenLate, Watched;
        OpeningIsTrusted(k12, p, j.h.slot.stream, Now(j).w);
      } else {
        EngineStaysWatchful(k12, p, j, e, tick);
        hide Along, Watched;
      }
    case ContractMoves(c) =>
      ContractAlong(k12, p, j, c);
      hide Along, W.StreamOk, Watched, SlotOk, Executes, OwnIsSigned, HasRoom;
  }

  // ---------------------------------------------------------------- a series of moves

  /** The move brings no answer, and extends no chain before this tick. */
  predicate Plain(m: Move, tick: nat) { !m.Answered? && (m.EngineMoves? && m.e.ExtendAsked? ==> tick <= m.e.tick) }

  lemma {:induction false} RunStaysWatchful(k12: Hash, p: Provider, j: Joint, moves: seq<Move>, tick: nat)
    requires Watchful(k12, p, j, tick) && DigestsNonZero(k12) && JointOk(j) && JointRun(k12, p, j, moves)
    requires forall m :: m in moves ==> Plain(m, tick)
    ensures var n := JointEnd(k12, p, j, moves);
      Watchful(k12, p, n, tick) && (Trusted(k12, p, j) ==> Trusted(k12, p, n))
    decreases |moves|
  {
    hide Watchful, Trusted, JointOk, Moved, Allowed, Punctual;
    if moves != [] {
      assert moves[0] in moves && forall m :: m in moves[1..] ==> m in moves;
      MoveStaysWatchful(k12, p, j, moves[0], tick);
      assert JointOk(Moved(k12, p, j, moves[0])) by { WatchfulIsOk(k12, p, Moved(k12, p, j, moves[0]), tick); }
      RunStaysWatchful(k12, p, Moved(k12, p, j, moves[0]), moves[1..], tick);
    }
  }

  lemma WatchfulIsOk(k12: Hash, p: Provider, j: Joint, tick: nat)
    requires Watchful(k12, p, j, tick)
    ensures JointOk(j) && SlotOk(j.h.slot) && (Trusted(k12, p, j) || Doomed(j.h.slot, tick))
  {
    hide MomentsOk, Ordered, HistoryOk, SeenLate;
  }

  lemma TrustedIsWatchful(k12: Hash, p: Provider, j: Joint, tick: nat)
    requires Trusted(k12, p, j) && |j.h.streak| <= 1
    ensures Watchful(k12, p, j, tick)
  {
    hide Along, Watched;
  }

  /** Time goes on. */
  lemma LaterIsWatchful(k12: Hash, p: Provider, j: Joint, tick: nat, later: nat)
    requires Watchful(k12, p, j, tick) && tick <= later
    ensures Watchful(k12, p, j, later)
  {
    hide Along, Watched, Trusting;
  }

  // ---------------------------------------------------------------- one turn

  /** The cycle's tick is no older than what its answer shows. */
  predicate Current(s: Side, t: Turn) {
    t.Cycled? && AnsweredBy(s.w, t.c).Some? && t.k < |s.j.past| ==> s.j.past[t.k].w.tick <= t.c.info.tick
  }

  /** A doubt is held only while no query runs. */
  ghost predicate DoubtHeld(g: Setup, s: Side) {
    && WarmIdle(s) && Watchful(g.k12, g.p, s.j, s.tick)
    && (s.w.query.Some? ==> Trusted(g.k12, g.p, s.j))
  }

  /** A late answer is counted once, against a chain that is over. */
  lemma LateIsDoomed(k12: Hash, p: Provider, j: Joint, requested: nat, k: nat, tick: nat)
    requires Trusted(k12, p, j) && |j.h.streak| <= 1 && DigestsNonZero(k12) && Allowed(p, j, Answered(requested, k))
    requires Punctual(Moved(k12, p, j, Answered(requested, k))) && j.past[k].w.tick <= tick
    ensures Watchful(k12, p, Moved(k12, p, j, Answered(requested, k)), tick)
  {
    var n := Moved(k12, p, j, Answered(requested, k));
    if Late(j, Answered(requested, k)) {
      hide MomentsOk, Ordered, HistoryOk, SeenLate, W.StreamOk, Watched, Trusting, Shown, Next;
      AnswerIsTrusted(k12, p, j, requested, k);
      AnswerAlong(k12, p, j, requested, k);
      CountedOnce(n.h);
    } else {
      AnswerStaysTrusted(k12, p, j, requested, k);
      hide Trusted, Late;
      TrustedIsWatchful(k12, p, n, tick);
    }
  }

  lemma CountedOnce(h: Trace)
    requires Watched(h) && FirstDoubt(h.slot)
    ensures |h.streak| == 1
  {
    hide SlotOk, Rises, Justified, WatermarkOk;
  }

  lemma AnswerStaysWatchful(g: Setup, s: Side, t: Turn)
    requires Trusted(g.k12, g.p, s.j) && |s.j.h.streak| <= 1 && DigestsNonZero(g.k12) && Current(s, t)
    requires t.Cycled? && AnsweredBy(s.w, t.c).Some? && t.k < |s.j.past|
    requires JointOk(s.j) && JointRun(g.k12, g.p, s.j, MovesOf(Seen(g, s, t.c), t.k))
    ensures Watchful(g.k12, g.p, JointEnd(g.k12, g.p, s.j, MovesOf(Seen(g, s, t.c), t.k)), t.c.info.tick)
  {
    AnswerIsApplied(g, s, t);
    hide Trusted, Seen, Moved, Punctual, Allowed, JointOk, Watchful, JointRun, JointEnd;
    var r := s.w.query.value.requested;
    var polled, answered := EngineMoves(Polled(t.c.polls(StreamOf(s)))), Answered(r, t.k);
    RunSplits(g.k12, g.p, s.j, [polled], [answered]);
    OneMove(g.k12, g.p, s.j, polled);
    var j := Moved(g.k12, g.p, s.j, polled);
    MoveStaysTrusted(g.k12, g.p, s.j, polled);
    OneMove(g.k12, g.p, j, answered);
    assert j.past == s.j.past by { PolledKeepsPast(g.k12, g.p, s.j, polled); }
    LateIsDoomed(g.k12, g.p, j, r, t.k, t.c.info.tick);
  }

  lemma SeenStaysWatchful(g: Setup, s: Side, t: Turn)
    requires DoubtHeld(g, s) && DigestsNonZero(g.k12) && t.Cycled? && JointOk(s.j) && TurnOk(g, s, t) && Current(s, t)
    requires JointRun(g.k12, g.p, s.j, MovesOf(Seen(g, s, t.c), t.k))
    ensures Watchful(g.k12, g.p, JointEnd(g.k12, g.p, s.j, MovesOf(Seen(g, s, t.c), t.k)), t.c.info.tick)
  {
    var seen := MovesOf(Seen(g, s, t.c), t.k);
    if AnsweredBy(s.w, t.c).Some? {
      assert |s.j.h.streak| <= 1;
      hide Trusted, Along, Seen, MovesOf, JointRun, JointEnd, JointOk, Watched, Trusting;
      AnswerStaysWatchful(g, s, t);
    } else if NewEpoch(s.w.phase, t.c.info) {
      NewEpochIsTrusted(g, s, t);
    } else {
      SeenIsPlain(g, s, t);
      hide Trusted, Watchful, Seen, MovesOf, JointRun, JointEnd, JointOk;
      LaterIsWatchful(g.k12, g.p, s.j, s.tick, t.c.info.tick);
      RunStaysWatchful(g.k12, g.p, s.j, seen, t.c.info.tick);
    }
  }

  lemma SeenIsPlain(g: Setup, s: Side, t: Turn)
    requires t.Cycled? && AnsweredBy(s.w, t.c).None?
    ensures forall m :: m in MovesOf(Seen(g, s, t.c), t.k) ==> Plain(m, t.c.info.tick)
  {
  }

  lemma NewEpochIsTrusted(g: Setup, s: Side, t: Turn)
    requires DoubtHeld(g, s) && DigestsNonZero(g.k12) && t.Cycled? && JointOk(s.j) && NewEpoch(s.w.phase, t.c.info)
    requires JointRun(g.k12, g.p, s.j, MovesOf(Seen(g, s, t.c), t.k))
    ensures Watchful(g.k12, g.p, JointEnd(g.k12, g.p, s.j, MovesOf(Seen(g, s, t.c), t.k)), t.c.info.tick)
  {
    SeenIsPlain(g, s, t);
    var seen := MovesOf(Seen(g, s, t.c), t.k);
    var reset := EngineMoves(EpochReset);
    assert seen == [reset] + seen[1..];
    hide Trusted, Seen, MovesOf, JointRun, JointEnd, Punctual;
    RunSplits(g.k12, g.p, s.j, [reset], seen[1..]);
    OneMove(g.k12, g.p, s.j, reset);
    var j := Moved(g.k12, g.p, s.j, reset);
    assert j == Opening(StreamOf(s), Now(s.j).w);
    assert Watchful(g.k12, g.p, j, t.c.info.tick) by { OpeningIsWatchful(g, s, t.c.info.tick); }
    hide Watchful, Moved, Opening;
    RunStaysWatchful(g.k12, g.p, j, seen[1..], t.c.info.tick);
  }

  lemma OpeningIsWatchful(g: Setup, s: Side, tick: nat)
    requires DoubtHeld(g, s) && JointOk(s.j)
    ensures Watchful(g.k12, g.p, Opening(StreamOf(s), Now(s.j).w), tick)
  {
    hide MomentsOk, Ordered, HistoryOk, SeenLate, Watched, Trusting;
    OpeningIsTrusted(g.k12, g.p, StreamOf(s), Now(s.j).w);
    TrustedIsWatchful(g.k12, g.p, Opening(StreamOf(s), Now(s.j).w), tick);
  }

  lemma WorkIsPlain(g: Setup, s: Side, t: Turn)
    requires t.Cycled?
    ensures forall m :: m in MovesOf(Worked(g, s, t), t.k) ==> Plain(m, t.c.info.tick)
    ensures forall m :: m in MovesOf(PlanPart(StreamOf(s), PhaseIn(g, s, t.c), t.c), t.k) ==> Plain(m, t.c.info.tick)
    ensures forall m :: m in MovesOf(Service(t.c.info.tick), t.k) ==> Plain(m, t.c.info.tick)
  {
    hide NextPhase;
  }

  /** Once the chain was extended or drained in this tick, no doubt is left. */
  lemma {:induction false} PlanEndsDoubt(k12: Hash, p: Provider, j: Joint, moves: seq<Move>, tick: nat, at: nat)
    requires Watchful(k12, p, j, tick) && DigestsNonZero(k12) && JointOk(j) && JointRun(k12, p, j, moves)
    requires forall m :: m in moves ==> Plain(m, tick)
    requires at < |moves| && moves[at].EngineMoves? && (moves[at].e.ExtendAsked? || moves[at].e.DrainAsked?)
    ensures Trusted(k12, p, JointEnd(k12, p, j, moves))
    decreases |moves|
  {
    hide Watchful, Trusted, JointOk, Moved, Allowed, Punctual;
    var n := Moved(k12, p, j, moves[0]);
    assert moves[0] in moves && forall m :: m in moves[1..] ==> m in moves;
    MoveStaysWatchful(k12, p, j, moves[0], tick);
    assert JointOk(n) by { WatchfulIsOk(k12, p, n, tick); }
    if at == 0 {
      EngineStaysWatchful(k12, p, j, moves[0].e, tick);
      RunStaysWatchful(k12, p, n, moves[1..], tick);
    } else {
      PlanEndsDoubt(k12, p, n, moves[1..], tick, at - 1);
    }
  }

  /** A completed cycle leaves no doubt. */
  lemma WorkEndsDoubt(g: Setup, s: Side, t: Turn, j: Joint)
    requires t.Cycled? && t.ok && DigestsNonZero(g.k12) && Watchful(g.k12, g.p, j, t.c.info.tick) && JointOk(j)
    requires PhaseIn(g, s, t.c).Warmup? ==> !j.h.slot.state.Live()
    requires JointRun(g.k12, g.p, j, MovesOf(Worked(g, s, t), t.k))
    ensures Trusted(g.k12, g.p, JointEnd(g.k12, g.p, j, MovesOf(Worked(g, s, t), t.k)))
  {
    var work := MovesOf(Worked(g, s, t), t.k);
    WorkIsPlain(g, s, t);
    if PhaseIn(g, s, t.c).Warmup? && !t.c.shuttingDown {
      WatchfulIsOk(g.k12, g.p, j, t.c.info.tick);
      hide Watchful, Trusted, JointOk, JointRun, JointEnd, MovesOf, Worked;
      RunStaysWatchful(g.k12, g.p, j, work, t.c.info.tick);
    } else {
      WorkDecides(g, s, t);
      var at: nat := if t.c.shuttingDown || PhaseIn(g, s, t.c).Closing? then 0 else 1;
      hide Watchful, Trusted, JointOk, JointRun, JointEnd, MovesOf, Worked, NextPhase;
      PlanEndsDoubt(g.k12, g.p, j, work, t.c.info.tick, at);
    }
  }

  lemma WorkDecides(g: Setup, s: Side, t: Turn)
    requires t.Cycled? && t.ok && (t.c.shuttingDown || !PhaseIn(g, s, t.c).Warmup?)
    ensures var work := MovesOf(Worked(g, s, t), t.k);
      var at := if t.c.shuttingDown || PhaseIn(g, s, t.c).Closing? then 0 else 1;
      at < |work| && work[at].EngineMoves? && (work[at].e.ExtendAsked? || work[at].e.DrainAsked?)
  {
    hide NextPhase;
  }

  lemma CycleHoldsDoubt(g: Setup, s: Side, t: Turn)
    requires DoubtHeld(g, s) && DigestsNonZero(g.k12) && t.Cycled? && JointOk(s.j) && TurnOk(g, s, t) && Current(s, t)
    ensures DoubtHeld(g, TurnEnd(g, s, t)) && (t.ok ==> Trusted(g.k12, g.p, TurnEnd(g, s, t).j))
  {
    WatchfulIsOk(g.k12, g.p, s.j, s.tick);
    TurnStaysIdle(g, s, t);
    TurnSplits(g, s, t);
    SeenStaysWatchful(g, s, t);
    var j := JointEnd(g.k12, g.p, s.j, MovesOf(Seen(g, s, t.c), t.k));
    if PhaseIn(g, s, t.c).Warmup? { WarmupIsIdle(g, s, t); }
    WorkIsPlain(g, s, t);
    if KeptQuery(s.w, t.c).Some? { PendingStaysTrusted(g, s, t); }
    hide Watchful, Trusted, JointOk, JointRun, JointEnd, MovesOf, Worked, NextPhase, Seen, SlotOk, Current, TurnOk;
    RunStaysWatchful(g.k12, g.p, j, MovesOf(Worked(g, s, t), t.k), t.c.info.tick);
    if t.ok { WorkEndsDoubt(g, s, t, j); }
  }

  lemma PendingStaysTrusted(g: Setup, s: Side, t: Turn)
    requires DoubtHeld(g, s) && DigestsNonZero(g.k12) && t.Cycled? && JointOk(s.j) && TurnOk(g, s, t)
    requires KeptQuery(s.w, t.c).Some?
    ensures Trusted(g.k12, g.p, TurnEnd(g, s, t).j)
  {
    SeenIsPlain(g, s, t);
    WorkIsPlain(g, s, t);
    hide Watchful, Trusted, JointOk, JointRun, JointEnd, MovesOf, Worked, NextPhase, Seen;
    LaterIsWatchful(g.k12, g.p, s.j, s.tick, t.c.info.tick);
    RunStaysWatchful(g.k12, g.p, s.j, TurnMoves(g, s, t), t.c.info.tick);
  }

  lemma BetweenHoldsDoubt(g: Setup, s: Side, t: Turn)
    requires DoubtHeld(g, s) && DigestsNonZero(g.k12) && !t.Cycled? && JointOk(s.j) && TurnOk(g, s, t)
    ensures DoubtHeld(g, TurnEnd(g, s, t))
  {
    WatchfulIsOk(g.k12, g.p, s.j, s.tick);
    hide Watchful, Trusted, JointRun, SlotOk, JointOk;
    TurnStaysIdle(g, s, t);
    RunStaysWatchful(g.k12, g.p, s.j, TurnMoves(g, s, t), s.tick);
  }

  // ---------------------------------------------------------------- every run of cycles

  /** Every cycle knows a tick no older than what its answer shows. */
  ghost predicate AllCurrent(g: Setup, s: Side, turns: seq<Turn>)
    requires JointOk(s.j) && CycleRun(g, s, turns)
    decreases |turns|
  {
    turns != [] ==> Current(s, turns[0]) && AllCurrent(g, TurnEnd(g, s, turns[0]), turns[1..])
  }

  lemma {:induction false} RunHoldsDoubt(g: Setup, s: Side, turns: seq<Turn>)
    requires DoubtHeld(g, s) && DigestsNonZero(g.k12)
    requires JointOk(s.j) && CycleRun(g, s, turns) && AllCurrent(g, s, turns)
    ensures var n := CycleEnd(g, s, turns);
      DoubtHeld(g, n) && (turns != [] && turns[|turns| - 1].Cycled? && turns[|turns| - 1].ok ==> Trusted(g.k12, g.p, n.j))
    decreases |turns|
  {
    hide DoubtHeld, Trusted, Current, TurnOk, TurnEnd;
    if turns != [] {
      var t := turns[0];
      if t.Cycled? { CycleHoldsDoubt(g, s, t); } else { BetweenHoldsDoubt(g, s, t); }
      RunHoldsDoubt(g, TurnEnd(g, s, t), turns[1..]);
    }
  }

  /** Over every run of cycles beside the contract in which each cycle knows a tick no older than
      the answer it applies, however late the answers are: no chain is ever frozen, at most one
      observation is ever counted against one, a chain is suspected only when the latest cycle's
      tick has passed its next target, and a completed cycle leaves none suspected. */
  lemma LateAnswersFreezeNothing(g: Setup, stream: nat, w: W.World, nextAt: nat, turns: seq<Turn>)
    requires FromStart(g, stream, w, nextAt, turns) && AllCurrent(g, Start(stream, w, nextAt), turns)
    ensures var n := CycleEnd(g, Start(stream, w, nextAt), turns);
      var slot := n.j.h.slot;
      && !slot.state.Restarting? && |n.j.h.streak| <= 1
      && (Suspects(slot) ==> slot.state.Live() && slot.chain.Some? && slot.chain.value.last + STREAM_COUNT <= n.tick)
      && (turns != [] && turns[|turns| - 1].Cycled? && turns[|turns| - 1].ok ==> !Suspects(slot))
  {
    hide AllCurrent, CycleRun, CycleEnd, W.WorldOk, Trusted;
    OpeningIsTrusted(g.k12, g.p, stream, w);
    TrustedIsWatchful(g.k12, g.p, Opening(stream, w), 0);
    hide Watchful;
    RunHoldsDoubt(g, Start(stream, w, nextAt), turns);
    var n := CycleEnd(g, Start(stream, w, nextAt), turns);
    WatchfulIsPlain(g.k12, g.p, n.j, n.tick);
    if Trusted(g.k12, g.p, n.j) { TrustedIsQuiet(g.k12, g.p, n.j); }
  }

  lemma WatchfulIsPlain(k12: Hash, p: Provider, j: Joint, tick: nat)
    requires Watchful(k12, p, j, tick)
    ensures !j.h.slot.state.Restarting? && |j.h.streak| <= 1
    ensures Suspects(j.h.slot) ==>
      j.h.slot.state.Live() && j.h.slot.chain.Some? && j.h.slot.chain.value.last + STREAM_COUNT <= tick
  {
    hide Along, Watched;
  }
}
