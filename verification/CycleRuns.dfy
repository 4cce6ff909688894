/** The engine's cycles beside the contract, seen from one stream. A run is a series of turns: a
    cycle, completed or failed, the drain that a shutdown asks for between two cycles, or what
    the contract does. What it does while a cycle runs may be counted before or after it. Within
    an epoch the ticks of the cycles do not go back, and an answered status query carries the
    contract's report at some moment. */
module CycleRuns {
  import opened Basics
  import R = RandomRules
  import W = RandomWorld
  import opened Delivery
  import opened Snapshots
  import opened ChainDelivery
  import opened SlotRules
  import opened SlotRuns
  import opened SlotShape
  import opened SlotLinks
  import opened SlotFreeze
  import opened SlotProgress
  import opened EpochPhases
  import opened Cycles
  import opened KeySlots
  import opened JointRuns
  import opened NoFalseSuspicion

  // ---------------------------------------------------------------- turns

  /** A cycle with its input, the moment its status answer shows, whether it completed, and how
      much of each slot's planning a failed one did; or something between two cycles. */
  datatype Turn =
    | Cycled(c: CycleInput, k: nat, ok: bool, cuts: nat -> nat)
    | Halted
    | Outside(events: seq<W.Event>)

  /** One stream of the engine: its query and phase, the latest tick observed, and the stream
      beside the contract. */
  datatype Side = Side(w: Watch, tick: nat, j: Joint)

  /** Configuration: the provider's key and the warm-up delay. */
  datatype Setup = Setup(k12: Hash, p: Provider, resumeDelay: nat)

  function StreamOf(s: Side): nat { s.j.h.slot.stream }

  function PhaseIn(g: Setup, s: Side, c: CycleInput): EpochPhase { NextPhase(s.w.phase, c.info, g.resumeDelay, c.stopWindow) }

  function Seen(g: Setup, s: Side, c: CycleInput): seq<SlotEvent> { ObserveEvents(g.p.tier, StreamOf(s), s.w, c) }

  /** What a cycle does to the slot after it has observed. */
  function Worked(g: Setup, s: Side, t: Turn): seq<SlotEvent>
    requires t.Cycled?
  {
    var plan := PlanPart(StreamOf(s), PhaseIn(g, s, t.c), t.c);
    if t.ok then plan + Service(t.c.info.tick) else plan[..Min(t.cuts(StreamOf(s)), |plan|)]
  }

  function MoveOf(e: SlotEvent, k: nat): Move { if e.StatusSeen? then Answered(e.requested, k) else EngineMoves(e) }

  function MovesOf(events: seq<SlotEvent>, k: nat): (moves: seq<Move>)
    ensures |moves| == |events| && forall i :: 0 <= i < |events| ==> moves[i] == MoveOf(events[i], k)
  {
    seq(|events|, i requires 0 <= i < |events| => MoveOf(events[i], k))
  }

  function Happens(events: seq<W.Event>): (moves: seq<Move>)
    ensures |moves| == |events| && forall i :: 0 <= i < |events| ==> moves[i] == ContractMoves(events[i])
  {
    seq(|events|, i requires 0 <= i < |events| => ContractMoves(events[i]))
  }

  function TurnMoves(g: Setup, s: Side, t: Turn): seq<Move> {
    match t
    case Halted => [EngineMoves(DrainAsked(Shutdown))]
    case Outside(events) => Happens(events)
    case Cycled(c, k, _, _) => MovesOf(Seen(g, s, c), k) + MovesOf(Worked(g, s, t), k)
  }

  /** The turn is one of the joint machine, its answer is the report of the moment it shows, time
      does not go back in an epoch, and what a completed cycle planned went well. */
  ghost predicate TurnOk(g: Setup, s: Side, t: Turn)
    requires JointOk(s.j)
  {
    && JointRun(g.k12, g.p, s.j, TurnMoves(g, s, t))
    && (t.Cycled? ==>
          && (AnsweredBy(s.w, t.c).Some? ==>
                t.k < |s.j.past| && s.j.past[t.k].w.tick <= U32_MAX && t.c.status.slots == Reported(s.j.past[t.k].w, g.p))
          && (!NewEpoch(s.w.phase, t.c.info) ==> s.tick <= t.c.info.tick)
          && (t.ok ==> PlansWell(g.k12, RunSlot(g.k12, s.j.h, Seen(g, s, t.c)).slot, StreamOf(s), PhaseIn(g, s, t.c), t.c)))
  }

  ghost function TurnEnd(g: Setup, s: Side, t: Turn): (n: Side)
    requires JointOk(s.j) && TurnOk(g, s, t)
    ensures JointOk(n.j)
  {
    var j := JointEnd(g.k12, g.p, s.j, TurnMoves(g, s, t));
    match t
    case Cycled(c, _, ok, _) => Side(WatchAfter(s.w, g.resumeDelay, c, ok), c.info.tick, j)
    case _ => s.(j := j)
  }

  ghost predicate CycleRun(g: Setup, s: Side, turns: seq<Turn>)
    requires JointOk(s.j)
    decreases |turns|
  {
    turns != [] ==> TurnOk(g, s, turns[0]) && CycleRun(g, TurnEnd(g, s, turns[0]), turns[1..])
  }

  ghost function CycleEnd(g: Setup, s: Side, turns: seq<Turn>): (n: Side)
    requires JointOk(s.j) && CycleRun(g, s, turns)
    ensures JointOk(n.j)
    decreases |turns|
  {
    if turns == [] then s else CycleEnd(g, TurnEnd(g, s, turns[0]), turns[1..])
  }

  /** At some point of the run, in the middle of a cycle or not, the slot suspects its chain. */
  ghost predicate SuspectsEver(g: Setup, s: Side, turns: seq<Turn>)
    requires JointOk(s.j) && CycleRun(g, s, turns)
    decreases |turns|
  {
    turns != [] &&
      (EverSuspects(g.k12, g.p, s.j, TurnMoves(g, s, turns[0])) || SuspectsEver(g, TurnEnd(g, s, turns[0]), turns[1..]))
  }

  // ---------------------------------------------------------------- the same as events

  lemma MovesJoin(a: seq<SlotEvent>, b: seq<SlotEvent>, k: nat)
    ensures MovesOf(a + b, k) == MovesOf(a, k) + MovesOf(b, k)
  {
  }

  /** The answer in these events is what the moment shows. */
  ghost predicate Truthful(p: Provider, j: Joint, events: seq<SlotEvent>, k: nat)
    requires JointOk(j)
  {
    forall e :: e in events && e.StatusSeen? ==>
      k < |j.past| && j.past[k].w.tick <= U32_MAX && e.observed == Shown(j.past[k].w, p, j.h.slot.stream)
  }

  /** The slot moves as its events say, as long as no reset comes before an answer. */
  lemma {:induction false} MovesAreEvents(k12: Hash, p: Provider, j: Joint, events: seq<SlotEvent>, k: nat)
    requires JointOk(j) && JointRun(k12, p, j, MovesOf(events, k)) && Truthful(p, j, events, k)
    requires (forall e :: e in events ==> !e.EpochReset?) || (forall e :: e in events ==> !e.StatusSeen?)
    ensures JointEnd(k12, p, j, MovesOf(events, k)).h == RunSlot(k12, j.h, events)
    decreases |events|
  {
    hide Next, Shown, W.StreamOk, Punctual, OwnIsSigned, HasRoom;
    if events != [] {
      var n := Moved(k12, p, j, MoveOf(events[0], k));
      assert MovesOf(events, k)[1..] == MovesOf(events[1..], k);
      assert events[0] in events && forall e :: e in events[1..] ==> e in events;
      assert n.h == Next(k12, j.h, events[0]);
      StepKeepsStream(k12, j.h.slot, events[0]);
      assert n.h.slot.stream == j.h.slot.stream by { NextKeepsStream(k12, j.h, events[0]); }
      MovesAreEvents(k12, p, n, events[1..], k);
    }
  }

  lemma NextKeepsStream(k12: Hash, h: Trace, e: SlotEvent)
    ensures Next(k12, h, e).slot.stream == h.slot.stream
  {
    StepKeepsStream(k12, h.slot, e);
  }

  // ---------------------------------------------------------------- ahead of a request

  /** No answer requested at this tick and showing at most seven ticks more can be late. */
  predicate Ahead(slot: ManagedSlot, requested: nat) {
    slot.state.Live() && slot.chain.Some? ==>
      requested + ANSWER_MARGIN <= slot.chain.value.last + STREAM_COUNT || U32_MAX < slot.chain.value.last + STREAM_COUNT
  }

  lemma AheadStays(k12: Hash, slot: ManagedSlot, e: SlotEvent, requested: nat)
    requires SlotOk(slot) && Ahead(slot, requested) && !e.StatusSeen? && !e.EpochReset? && (e.StartAsked? ==> requested <= e.tick)
    ensures SlotOk(StepSlot(k12, slot, e).slot) && Ahead(StepSlot(k12, slot, e).slot, requested)
    ensures !e.StartAsked? && StepSlot(k12, slot, e).slot.state.Live() ==> slot.state.Live()
  {
    StepKeepsShape(k12, slot, e);
    if Started(k12, slot, e) { StartTargetFits(slot, e.tick); } else { OtherIsSteady(k12, slot, e); }
    hide ChainOk, ExtendChain, ExpireCalls;
  }

  lemma AheadAfterExtension(k12: Hash, slot: ManagedSlot, tick: nat, draws: nat -> Option<Bits>)
    requires SlotOk(slot) && SlotRules.ExtendChain(k12, slot, tick, draws).Some? && !SigningStopped(k12, slot, tick, draws)
    ensures Ahead(StepSlot(k12, slot, ExtendAsked(tick, draws)).slot, tick)
  {
    if slot.state.Live() && Missed(slot, tick) { MissedEnds(k12, slot, tick, draws); }
    hide ChainOk, LoseMissed, ExtendTo;
  }

  /** A continuation that was missed ends the chain. */
  lemma MissedEnds(k12: Hash, slot: ManagedSlot, tick: nat, draws: nat -> Option<Bits>)
    requires SlotOk(slot) && slot.state.Live() && Missed(slot, tick)
    ensures var s := StepSlot(k12, slot, ExtendAsked(tick, draws)).slot.state; !s.Live() && !s.Restarting?
  {
    hide ChainOk;
  }

  // ---------------------------------------------------------------- moves without an answer

  /** A move that brings no answer and no epoch, and starts no chain before this tick. */
  predicate Unanswered(m: Move, tick: nat) {
    m.ContractMoves? || (m.EngineMoves? && !m.e.EpochReset? && (m.e.StartAsked? ==> tick <= m.e.tick))
  }

  predicate StartsNothing(m: Move) { m.EngineMoves? ==> !m.e.StartAsked? }

  lemma {:induction false} RunAhead(k12: Hash, p: Provider, j: Joint, moves: seq<Move>, requested: nat)
    requires JointOk(j) && JointRun(k12, p, j, moves) && SlotOk(j.h.slot) && Ahead(j.h.slot, requested)
    requires forall m :: m in moves ==> Unanswered(m, requested)
    ensures var n := JointEnd(k12, p, j, moves);
      && !EverLate(k12, p, j, moves) && SlotOk(n.h.slot) && Ahead(n.h.slot, requested) && n.h.slot.stream == j.h.slot.stream
      && ((forall m :: m in moves ==> StartsNothing(m)) && n.h.slot.state.Live() ==> j.h.slot.state.Live())
    decreases |moves|
  {
    hide SlotOk, Ahead, W.StreamOk, Punctual, OwnIsSigned, HasRoom, StepSlot;
    if moves != [] {
      assert moves[0] in moves && forall m :: m in moves[1..] ==> m in moves;
      if moves[0].EngineMoves? {
        AheadStays(k12, j.h.slot, moves[0].e, requested);
        StepKeepsStream(k12, j.h.slot, moves[0].e);
      }
      RunAhead(k12, p, Moved(k12, p, j, moves[0]), moves[1..], requested);
    }
  }

  lemma PartsAreQuiet(tier: nat, i: nat, w: Watch, resumeDelay: nat, c: CycleInput, k: nat, requested: nat)
    requires requested <= c.info.tick
    ensures forall m :: m in MovesOf(PlanPart(i, NextPhase(w.phase, c.info, resumeDelay, c.stopWindow), c), k) ==> Unanswered(m, requested)
    ensures forall m :: m in MovesOf(Service(c.info.tick), k) ==> Unanswered(m, requested) && StartsNothing(m)
    ensures !NewEpoch(w.phase, c.info) && AnsweredBy(w, c).None? ==>
      forall m :: m in MovesOf(ObserveEvents(tier, i, w, c), k) ==> Unanswered(m, requested) && StartsNothing(m)
  {
    hide NextPhase;
  }

  // ---------------------------------------------------------------- one turn

  /** How far an answer may safely look past the tick its query was requested at. */
  const ANSWER_MARGIN: nat := SEND_LEAD_TICKS + 1

  /** The answer of this turn shows at most so many ticks more than its query was requested at. */
  predicate Prompt(s: Side, t: Turn, margin: nat) {
    t.Cycled? && AnsweredBy(s.w, t.c).Some? && t.k < |s.j.past| ==>
      s.j.past[t.k].w.tick <= s.w.query.value.requested + margin
  }

  /** Before the warm-up ends there is no live chain. */
  predicate WarmIdle(s: Side) { s.w.phase.None? || s.w.phase.value.Warmup? ==> !s.j.h.slot.state.Live() }

  /** A running query is no older than the latest cycle, and the chain is ahead of it. */
  ghost predicate QueryAhead(s: Side) {
    && WarmIdle(s)
    && (s.w.query.Some? ==> s.w.query.value.requested <= s.tick && Ahead(s.j.h.slot, s.w.query.value.requested))
  }

  lemma SlotIsOk(k12: Hash, p: Provider, j: Joint)
    requires Trusted(k12, p, j)
    ensures JointOk(j) && SlotOk(j.h.slot)
  {
    hide MomentsOk, Ordered, HistoryOk, SeenLate;
  }

  /** The observation of a cycle with an answer. */
  lemma AnswerIsApplied(g: Setup, s: Side, t: Turn)
    requires JointOk(s.j) && t.Cycled? && AnsweredBy(s.w, t.c).Some?
    ensures Seen(g, s, t.c) == [Polled(t.c.polls(StreamOf(s))),
      StatusSeen(s.w.query.value.requested, ObservedIn(g.p.tier, StreamOf(s), t.c.status.slots))]
    ensures MovesOf(Seen(g, s, t.c), t.k) ==
      [EngineMoves(Polled(t.c.polls(StreamOf(s))))] + [Answered(s.w.query.value.requested, t.k)]
  {
  }

  lemma OneMove(k12: Hash, p: Provider, j: Joint, m: Move)
    requires JointOk(j) && JointRun(k12, p, j, [m])
    ensures Allowed(p, j, m) && Punctual(Moved(k12, p, j, m)) && JointEnd(k12, p, j, [m]) == Moved(k12, p, j, m)
    ensures EverLate(k12, p, j, [m]) <==> Late(j, m)
  {
    hide Moved, Allowed, Punctual, Late, JointOk;
    assert [m][1..] == [];
  }

  lemma AnswerIsNotLate(g: Setup, s: Side, t: Turn)
    requires Trusted(g.k12, g.p, s.j) && QueryAhead(s) && t.Cycled? && AnsweredBy(s.w, t.c).Some? && TurnOk(g, s, t) && Prompt(s, t, ANSWER_MARGIN)
    requires JointRun(g.k12, g.p, s.j, MovesOf(Seen(g, s, t.c), t.k))
    ensures !EverLate(g.k12, g.p, s.j, MovesOf(Seen(g, s, t.c), t.k))
  {
    SlotIsOk(g.k12, g.p, s.j);
    AnswerIsApplied(g, s, t);
    hide Trusted, TurnOk, SlotOk, Ahead, Seen, NextPhase, Moved, Punctual, Allowed, Late;
    var r := s.w.query.value.requested;
    var polled, answered := EngineMoves(Polled(t.c.polls(StreamOf(s)))), Answered(r, t.k);
    RunSplits(g.k12, g.p, s.j, [polled], [answered]);
    RunAhead(g.k12, g.p, s.j, [polled], r);
    OneMove(g.k12, g.p, s.j, polled);
    var j := Moved(g.k12, g.p, s.j, polled);
    OneMove(g.k12, g.p, j, answered);
    assert j.past == s.j.past by { PolledKeepsPast(g.k12, g.p, s.j, polled); }
    AheadIsNotLate(g.p, j, r, t.k);
  }

  lemma PolledKeepsPast(k12: Hash, p: Provider, j: Joint, m: Move)
    requires JointOk(j) && Allowed(p, j, m) && m.EngineMoves? && !m.e.EpochReset?
    ensures Moved(k12, p, j, m).past == j.past
  {
  }

  lemma AheadIsNotLate(p: Provider, j: Joint, requested: nat, k: nat)
    requires JointOk(j) && Ahead(j.h.slot, requested) && Allowed(p, j, Answered(requested, k))
    requires j.past[k].w.tick <= requested + ANSWER_MARGIN
    ensures !Late(j, Answered(requested, k))
  {
  }

  /** No move of a turn with a prompt answer, or with none, is late. */
  lemma TurnIsNotLate(g: Setup, s: Side, t: Turn)
    requires Trusted(g.k12, g.p, s.j) && QueryAhead(s) && TurnOk(g, s, t) && Prompt(s, t, ANSWER_MARGIN) && DigestsNonZero(g.k12)
    ensures !EverLate(g.k12, g.p, s.j, TurnMoves(g, s, t))
    ensures t.Cycled? ==>
      var seen := MovesOf(Seen(g, s, t.c), t.k);
      && JointRun(g.k12, g.p, s.j, seen)
      && var j := JointEnd(g.k12, g.p, s.j, seen);
         Trusted(g.k12, g.p, j) && JointRun(g.k12, g.p, j, MovesOf(Worked(g, s, t), t.k))
  {
    if t.Cycled? {
      SeenIsNotLate(g, s, t);
      WorkIsNotLate(g, s, t);
    } else {
      UnansweredIsNotLate(g.k12, g.p, s.j, TurnMoves(g, s, t));
    }
    hide Trusted, QueryAhead, Prompt, MovesOf, Late;
  }

  lemma SeenIsNotLate(g: Setup, s: Side, t: Turn)
    requires Trusted(g.k12, g.p, s.j) && QueryAhead(s) && TurnOk(g, s, t) && Prompt(s, t, ANSWER_MARGIN) && DigestsNonZero(g.k12) && t.Cycled?
    ensures var seen := MovesOf(Seen(g, s, t.c), t.k);
      && JointRun(g.k12, g.p, s.j, seen) && !EverLate(g.k12, g.p, s.j, seen)
      && Trusted(g.k12, g.p, JointEnd(g.k12, g.p, s.j, seen))
  {
    hide Trusted, QueryAhead, Prompt, Late, PlansWell, JointOk;
    var seen := MovesOf(Seen(g, s, t.c), t.k);
    assert JointOk(s.j) by { SlotIsOk(g.k12, g.p, s.j); }
    RunSplits(g.k12, g.p, s.j, seen, MovesOf(Worked(g, s, t), t.k));
    if AnsweredBy(s.w, t.c).Some? { AnswerIsNotLate(g, s, t); } else { UnansweredIsNotLate(g.k12, g.p, s.j, seen); }
    RunSuspicions(g.k12, g.p, s.j, seen);
  }

  lemma {:induction false} UnansweredIsNotLate(k12: Hash, p: Provider, j: Joint, moves: seq<Move>)
    requires JointOk(j) && JointRun(k12, p, j, moves) && forall m :: m in moves ==> !m.Answered?
    ensures !EverLate(k12, p, j, moves)
    decreases |moves|
  {
    hide Moved, Allowed, Punctual, JointOk;
    if moves != [] {
      assert moves[0] in moves && forall m :: m in moves[1..] ==> m in moves;
      UnansweredIsNotLate(k12, p, Moved(k12, p, j, moves[0]), moves[1..]);
    }
  }

  lemma WorkIsNotLate(g: Setup, s: Side, t: Turn)
    requires JointOk(s.j) && TurnOk(g, s, t) && t.Cycled?
    requires JointRun(g.k12, g.p, s.j, MovesOf(Seen(g, s, t.c), t.k))
    requires !EverLate(g.k12, g.p, s.j, MovesOf(Seen(g, s, t.c), t.k))
    ensures !EverLate(g.k12, g.p, s.j, TurnMoves(g, s, t))
    ensures JointRun(g.k12, g.p, JointEnd(g.k12, g.p, s.j, MovesOf(Seen(g, s, t.c), t.k)), MovesOf(Worked(g, s, t), t.k))
  {
    hide Late, PlansWell, JointOk, Seen;
    var seen, work := MovesOf(Seen(g, s, t.c), t.k), MovesOf(Worked(g, s, t), t.k);
    RunSplits(g.k12, g.p, s.j, seen, work);
    WorkHasNoAnswer(g, s, t);
    UnansweredIsNotLate(g.k12, g.p, JointEnd(g.k12, g.p, s.j, seen), work);
  }

  lemma WorkHasNoAnswer(g: Setup, s: Side, t: Turn)
    requires t.Cycled?
    ensures forall m :: m in MovesOf(Worked(g, s, t), t.k) ==> Unanswered(m, t.c.info.tick)
  {
    hide NextPhase;
  }

  /** Nothing but a start makes a chain live. */
  lemma StaysIdle(k12: Hash, slot: ManagedSlot, e: SlotEvent)
    requires SlotOk(slot) && !e.StartAsked? && (e.EpochReset? || !slot.state.Live())
    ensures SlotOk(StepSlot(k12, slot, e).slot) && !StepSlot(k12, slot, e).slot.state.Live()
  {
    StepKeepsShape(k12, slot, e);
    if !e.EpochReset? && !e.StatusSeen? { OtherIsSteady(k12, slot, e); }
    hide ChainOk;
  }

  lemma MoveStaysIdle(k12: Hash, p: Provider, j: Joint, m: Move)
    requires JointOk(j) && Allowed(p, j, m) && SlotOk(j.h.slot) && StartsNothing(m)
    requires (m.EngineMoves? && m.e.EpochReset?) || !j.h.slot.state.Live()
    ensures var n := Moved(k12, p, j, m); SlotOk(n.h.slot) && !n.h.slot.state.Live()
  {
    hide SlotOk, StepSlot, Shown, W.StreamOk, OwnIsSigned, HasRoom;
    ResetIsFresh(k12, j.h);
    match m
    case EngineMoves(e) => StaysIdle(k12, j.h.slot, e);
    case Answered(requested, k) => StaysIdle(k12, j.h.slot, StatusSeen(requested, Shown(j.past[k].w, p, j.h.slot.stream)));
    case ContractMoves(_) =>
  }

  lemma ResetIsFresh(k12: Hash, h: Trace)
    ensures Next(k12, h, EpochReset).slot == StepSlot(k12, h.slot, EpochReset).slot
  {
  }

  lemma {:induction false} RunStaysIdle(k12: Hash, p: Provider, j: Joint, moves: seq<Move>)
    requires JointOk(j) && JointRun(k12, p, j, moves) && SlotOk(j.h.slot) && forall m :: m in moves ==> StartsNothing(m)
    requires (moves != [] && moves[0].EngineMoves? && moves[0].e.EpochReset?) || !j.h.slot.state.Live()
    ensures !JointEnd(k12, p, j, moves).h.slot.state.Live()
    decreases |moves|
  {
    hide Moved, Allowed, Punctual, JointOk, SlotOk;
    if moves != [] {
      assert moves[0] in moves && forall m :: m in moves[1..] ==> m in moves;
      MoveStaysIdle(k12, p, j, moves[0]);
      RunStaysIdle(k12, p, Moved(k12, p, j, moves[0]), moves[1..]);
    }
  }

  lemma SeenStartsNothing(g: Setup, s: Side, t: Turn)
    requires t.Cycled?
    ensures var seen := MovesOf(Seen(g, s, t.c), t.k);
      && (forall m :: m in seen ==> StartsNothing(m))
      && (NewEpoch(s.w.phase, t.c.info) ==> seen != [] && seen[0] == EngineMoves(EpochReset))
  {
  }

  /** Before the warm-up ends a cycle finds no live chain. */
  lemma WarmupIsIdle(g: Setup, s: Side, t: Turn)
    requires JointOk(s.j) && SlotOk(s.j.h.slot) && WarmIdle(s) && t.Cycled? && PhaseIn(g, s, t.c).Warmup?
    requires JointRun(g.k12, g.p, s.j, MovesOf(Seen(g, s, t.c), t.k))
    ensures !JointEnd(g.k12, g.p, s.j, MovesOf(Seen(g, s, t.c), t.k)).h.slot.state.Live()
  {
    hide SlotOk, JointOk, JointRun, JointEnd, Seen, MovesOf, Ahead;
    SeenStartsNothing(g, s, t);
    RunStaysIdle(g.k12, g.p, s.j, MovesOf(Seen(g, s, t.c), t.k));
  }

  /** What a completed cycle planned leaves the chain ahead of its tick. */
  lemma PlanIsAhead(g: Setup, s: Side, t: Turn, j: Joint)
    requires JointOk(j) && SlotOk(j.h.slot) && j.h.slot.stream == StreamOf(s) && t.Cycled?
    requires PlansWell(g.k12, j.h.slot, StreamOf(s), PhaseIn(g, s, t.c), t.c)
    requires !t.c.shuttingDown && PhaseIn(g, s, t.c).Warmup? ==> !j.h.slot.state.Live()
    requires JointRun(g.k12, g.p, j, MovesOf(PlanPart(StreamOf(s), PhaseIn(g, s, t.c), t.c), t.k))
    ensures var n := JointEnd(g.k12, g.p, j, MovesOf(PlanPart(StreamOf(s), PhaseIn(g, s, t.c), t.c), t.k));
      SlotOk(n.h.slot) && Ahead(n.h.slot, t.c.info.tick)
  {
    hide SlotOk, Ahead, PlansWell, NextPhase, JointRun, JointEnd, RunSlot, MovesOf, Shown;
    var plan := PlanPart(StreamOf(s), PhaseIn(g, s, t.c), t.c);
    MovesAreEvents(g.k12, g.p, j, plan, t.k);
    PlannedSlot(g.k12, j.h, StreamOf(s), PhaseIn(g, s, t.c), t.c);
  }

  lemma PlannedSlot(k12: Hash, h: Trace, i: nat, phase: EpochPhase, c: CycleInput)
    requires SlotOk(h.slot) && PlansWell(k12, h.slot, i, phase, c)
    requires !c.shuttingDown && phase.Warmup? ==> !h.slot.state.Live()
    ensures var n := RunSlot(k12, h, PlanPart(i, phase, c)).slot; SlotOk(n) && Ahead(n, c.info.tick)
  {
    RunKeepsShape(k12, h, PlanPart(i, phase, c));
    if !c.shuttingDown && phase.Planning? {
      var start, extend := StartAsked(c.info.tick, c.starts(i)), ExtendAsked(c.info.tick, c.draws(i));
      assert PlanPart(i, phase, c) == [start] + [extend];
      TwoSteps(k12, h, start, extend);
      StepKeepsShape(k12, h.slot, start);
      AheadAfterExtension(k12, StepSlot(k12, h.slot, start).slot, c.info.tick, c.draws(i));
    } else if c.shuttingDown || phase.Closing? {
      OneStep(k12, h, DrainAsked(if c.shuttingDown then Shutdown else EpochEnd));
    }
    hide SlotOk, SlotRules.ExtendChain, SigningStopped, RunSlot, Next;
  }

  lemma OneStep(k12: Hash, h: Trace, e: SlotEvent)
    requires !e.EpochReset?
    ensures RunSlot(k12, h, [e]).slot == StepSlot(k12, h.slot, e).slot
  {
    assert [e][1..] == [];
    hide StepSlot;
  }

  lemma TwoSteps(k12: Hash, h: Trace, d: SlotEvent, e: SlotEvent)
    requires !d.EpochReset? && !e.EpochReset?
    ensures RunSlot(k12, h, [d] + [e]).slot == StepSlot(k12, StepSlot(k12, h.slot, d).slot, e).slot
  {
    hide StepSlot;
    var events := [d] + [e];
    assert events[0] == d && events[1..] == [e];
    OneStep(k12, Next(k12, h, d), e);
  }

  /** The slot after observing is the one the cycle's contract speaks of. */
  lemma SeenSlot(g: Setup, s: Side, t: Turn)
    requires JointOk(s.j) && t.Cycled? && TurnOk(g, s, t) && JointRun(g.k12, g.p, s.j, MovesOf(Seen(g, s, t.c), t.k))
    ensures JointEnd(g.k12, g.p, s.j, MovesOf(Seen(g, s, t.c), t.k)).h == RunSlot(g.k12, s.j.h, Seen(g, s, t.c))
    ensures RunSlot(g.k12, s.j.h, Seen(g, s, t.c)).slot.stream == StreamOf(s)
  {
    hide Reported, JointRun, PlansWell, W.StreamOk, RunSlot, JointEnd, NextPhase;
    RunKeepsStream(g.k12, s.j.h, Seen(g, s, t.c));
    assert Truthful(g.p, s.j, Seen(g, s, t.c), t.k);
    MovesAreEvents(g.k12, g.p, s.j, Seen(g, s, t.c), t.k);
  }

  /** A query that keeps running stays behind the chain. */
  lemma KeptIsAhead(g: Setup, s: Side, t: Turn)
    requires Trusted(g.k12, g.p, s.j) && QueryAhead(s) && TurnOk(g, s, t) && t.Cycled? && KeptQuery(s.w, t.c).Some?
    ensures KeptQuery(s.w, t.c) == s.w.query && s.w.query.value.requested <= t.c.info.tick
    ensures Ahead(JointEnd(g.k12, g.p, s.j, TurnMoves(g, s, t)).h.slot, s.w.query.value.requested)
  {
    SlotIsOk(g.k12, g.p, s.j);
    var r := s.w.query.value.requested;
    PartsAreQuiet(g.p.tier, StreamOf(s), s.w, g.resumeDelay, t.c, t.k, r);
    WorkHasNoAnswer(g, s, t);
    hide Trusted, SlotOk, JointRun, NextPhase, PlansWell, Ahead, Seen, Worked, MovesOf;
    RunAhead(g.k12, g.p, s.j, TurnMoves(g, s, t), r);
  }

  /** A completed cycle's own query is behind the chain it leaves. */
  lemma NewIsAhead(g: Setup, s: Side, t: Turn, j: Joint)
    requires JointOk(s.j) && TurnOk(g, s, t) && t.Cycled? && t.ok
    requires JointRun(g.k12, g.p, s.j, MovesOf(Seen(g, s, t.c), t.k))
    requires j == JointEnd(g.k12, g.p, s.j, MovesOf(Seen(g, s, t.c), t.k)) && JointOk(j) && SlotOk(j.h.slot)
    requires !t.c.shuttingDown && PhaseIn(g, s, t.c).Warmup? ==> !j.h.slot.state.Live()
    requires JointRun(g.k12, g.p, j, MovesOf(Worked(g, s, t), t.k))
    ensures Ahead(JointEnd(g.k12, g.p, j, MovesOf(Worked(g, s, t), t.k)).h.slot, t.c.info.tick)
  {
    SeenSlot(g, s, t);
    var plan, service := PlanPart(StreamOf(s), PhaseIn(g, s, t.c), t.c), Service(t.c.info.tick);
    MovesJoin(plan, service, t.k);
    PartsAreQuiet(g.p.tier, StreamOf(s), s.w, g.resumeDelay, t.c, t.k, t.c.info.tick);
    hide SlotOk, JointRun, NextPhase, PlansWell, Ahead, Seen, PlanPart, Service, MovesOf, JointEnd, Reported;
    RunSplits(g.k12, g.p, j, MovesOf(plan, t.k), MovesOf(service, t.k));
    PlanIsAhead(g, s, t, j);
    RunAhead(g.k12, g.p, JointEnd(g.k12, g.p, j, MovesOf(plan, t.k)), MovesOf(service, t.k), t.c.info.tick);
  }

  lemma WarmupStaysIdle(g: Setup, s: Side, t: Turn, j: Joint)
    requires JointOk(j) && SlotOk(j.h.slot) && t.Cycled? && PhaseIn(g, s, t.c).Warmup? && !j.h.slot.state.Live()
    requires JointRun(g.k12, g.p, j, MovesOf(Worked(g, s, t), t.k))
    ensures !JointEnd(g.k12, g.p, j, MovesOf(Worked(g, s, t), t.k)).h.slot.state.Live()
  {
    hide SlotOk, NextPhase, JointRun, JointEnd, JointOk;
    WarmupStartsNothing(g, s, t);
    RunStaysIdle(g.k12, g.p, j, MovesOf(Worked(g, s, t), t.k));
  }

  lemma WarmupStartsNothing(g: Setup, s: Side, t: Turn)
    requires t.Cycled? && PhaseIn(g, s, t.c).Warmup?
    ensures forall m :: m in MovesOf(Worked(g, s, t), t.k) ==> StartsNothing(m)
  {
    hide NextPhase;
  }

  lemma {:induction false} RunKeepsSlot(k12: Hash, p: Provider, j: Joint, moves: seq<Move>)
    requires JointOk(j) && JointRun(k12, p, j, moves) && SlotOk(j.h.slot)
    ensures SlotOk(JointEnd(k12, p, j, moves).h.slot)
    decreases |moves|
  {
    hide SlotOk, W.StreamOk, Punctual, OwnIsSigned, HasRoom, StepSlot, Shown;
    if moves != [] {
      var m := moves[0];
      var e := if m.EngineMoves? then m.e
               else if m.Answered? then StatusSeen(m.requested, Shown(j.past[m.k].w, p, j.h.slot.stream)) else EpochReset;
      StepKeepsShape(k12, j.h.slot, e);
      ResetIsFresh(k12, j.h);
      RunKeepsSlot(k12, p, Moved(k12, p, j, m), moves[1..]);
    }
  }

  /** What a turn leaves, part by part. */
  lemma TurnSplits(g: Setup, s: Side, t: Turn)
    requires JointOk(s.j) && SlotOk(s.j.h.slot) && TurnOk(g, s, t) && t.Cycled?
    ensures var seen, work := MovesOf(Seen(g, s, t.c), t.k), MovesOf(Worked(g, s, t), t.k);
      && JointRun(g.k12, g.p, s.j, seen)
      && var j := JointEnd(g.k12, g.p, s.j, seen);
         SlotOk(j.h.slot) && JointRun(g.k12, g.p, j, work) && TurnEnd(g, s, t).j == JointEnd(g.k12, g.p, j, work)
  {
    hide SlotOk, JointOk, JointRun, JointEnd, MovesOf, Seen, Worked, PlansWell;
    var seen, work := MovesOf(Seen(g, s, t.c), t.k), MovesOf(Worked(g, s, t), t.k);
    RunSplits(g.k12, g.p, s.j, seen, work);
    RunKeepsSlot(g.k12, g.p, s.j, seen);
  }

  lemma TurnStaysIdle(g: Setup, s: Side, t: Turn)
    requires JointOk(s.j) && SlotOk(s.j.h.slot) && WarmIdle(s) && TurnOk(g, s, t)
    ensures WarmIdle(TurnEnd(g, s, t))
  {
    if t.Cycled? {
      hide SlotOk, JointOk, JointRun, JointEnd, MovesOf, Seen, Worked, NextPhase;
      TurnSplits(g, s, t);
      if PhaseIn(g, s, t.c).Warmup? {
        WarmupIsIdle(g, s, t);
        WarmupStaysIdle(g, s, t, JointEnd(g.k12, g.p, s.j, MovesOf(Seen(g, s, t.c), t.k)));
      }
    } else if WarmIdle(s) && !s.j.h.slot.state.Live() {
      RunStaysIdle(g.k12, g.p, s.j, TurnMoves(g, s, t));
    }
  }

  lemma TurnKeepsAhead(g: Setup, s: Side, t: Turn)
    requires Trusted(g.k12, g.p, s.j) && QueryAhead(s) && TurnOk(g, s, t) && t.Cycled?
    ensures QueryAhead(TurnEnd(g, s, t))
  {
    SlotIsOk(g.k12, g.p, s.j);
    hide Trusted, SlotOk, JointOk, JointRun, JointEnd, MovesOf, Seen, Worked, NextPhase, Ahead;
    TurnStaysIdle(g, s, t);
    TurnSplits(g, s, t);
    if KeptQuery(s.w, t.c).Some? {
      KeptIsAhead(g, s, t);
    } else if t.ok && Asks(s.w, t.c) {
      if PhaseIn(g, s, t.c).Warmup? { WarmupIsIdle(g, s, t); }
      NewIsAhead(g, s, t, JointEnd(g.k12, g.p, s.j, MovesOf(Seen(g, s, t.c), t.k)));
    }
  }

  lemma BetweenKeepsAhead(g: Setup, s: Side, t: Turn)
    requires JointOk(s.j) && SlotOk(s.j.h.slot) && QueryAhead(s) && TurnOk(g, s, t) && !t.Cycled?
    ensures QueryAhead(TurnEnd(g, s, t))
  {
    hide SlotOk, JointOk, JointRun, Ahead;
    TurnStaysIdle(g, s, t);
    if s.w.query.Some? { RunAhead(g.k12, g.p, s.j, TurnMoves(g, s, t), s.w.query.value.requested); }
  }

  lemma TurnIsTrusted(g: Setup, s: Side, t: Turn)
    requires Trusted(g.k12, g.p, s.j) && QueryAhead(s) && TurnOk(g, s, t) && Prompt(s, t, ANSWER_MARGIN) && DigestsNonZero(g.k12)
    ensures Trusted(g.k12, g.p, TurnEnd(g, s, t).j) && QueryAhead(TurnEnd(g, s, t)) && StaysQuiet(s.j.h, TurnEnd(g, s, t).j.h)
    ensures !EverSuspects(g.k12, g.p, s.j, TurnMoves(g, s, t))
  {
    SlotIsOk(g.k12, g.p, s.j);
    hide Trusted, QueryAhead, TurnMoves, Prompt, PlansWell, JointOk, SlotOk, JointRun;
    TurnIsNotLate(g, s, t);
    RunSuspicions(g.k12, g.p, s.j, TurnMoves(g, s, t));
    if t.Cycled? { TurnKeepsAhead(g, s, t); } else { BetweenKeepsAhead(g, s, t); }
  }

  // ---------------------------------------------------------------- every run of cycles

  ghost predicate AllPrompt(g: Setup, s: Side, turns: seq<Turn>, margin: nat)
    requires JointOk(s.j) && CycleRun(g, s, turns)
    decreases |turns|
  {
    turns != [] ==> Prompt(s, turns[0], margin) && AllPrompt(g, TurnEnd(g, s, turns[0]), turns[1..], margin)
  }

  lemma {:induction false} RunIsTrusted(g: Setup, s: Side, turns: seq<Turn>)
    requires Trusted(g.k12, g.p, s.j) && QueryAhead(s) && DigestsNonZero(g.k12)
    requires JointOk(s.j) && CycleRun(g, s, turns) && AllPrompt(g, s, turns, ANSWER_MARGIN)
    ensures Trusted(g.k12, g.p, CycleEnd(g, s, turns).j) && !SuspectsEver(g, s, turns)
    ensures StaysQuiet(s.j.h, CycleEnd(g, s, turns).j.h)
    decreases |turns|
  {
    hide Trusted, QueryAhead, TurnMoves, Prompt, TurnOk, TurnEnd;
    if turns != [] {
      TurnIsTrusted(g, s, turns[0]);
      RunIsTrusted(g, TurnEnd(g, s, turns[0]), turns[1..]);
    }
  }

  /** The engine as constructed, on one stream, beside any contract state. */
  function Start(stream: nat, w: W.World, nextAt: nat): Side { Side(Watch(None, None, nextAt), 0, Opening(stream, w)) }

  ghost predicate FromStart(g: Setup, stream: nat, w: W.World, nextAt: nat, turns: seq<Turn>) {
    && stream < STREAM_COUNT && g.p.tier < R.TIER_COUNT && DigestsNonZero(g.k12) && W.WorldOk(w)
    && CycleRun(g, Start(stream, w, nextAt), turns)
  }

  /** Over every run of cycles beside the contract, failed ones included: if every answer shows at
      most seven ticks more than its query was requested at, no chain is ever suspected, not even
      in the middle of a cycle, and nothing has been counted against one. */
  lemma PromptAnswersAreTrusted(g: Setup, stream: nat, w: W.World, nextAt: nat, turns: seq<Turn>)
    requires FromStart(g, stream, w, nextAt, turns) && AllPrompt(g, Start(stream, w, nextAt), turns, ANSWER_MARGIN)
    ensures !SuspectsEver(g, Start(stream, w, nextAt), turns)
    ensures var n := CycleEnd(g, Start(stream, w, nextAt), turns).j.h; !Suspects(n.slot) && n.streak == []
  {
    OpeningIsTrusted(g.k12, g.p, stream, w);
    hide Trusted, AllPrompt, CycleRun, CycleEnd, SuspectsEver, W.WorldOk, Suspects;
    RunIsTrusted(g, Start(stream, w, nextAt), turns);
    TrustedIsQuiet(g.k12, g.p, CycleEnd(g, Start(stream, w, nextAt), turns).j);
  }

  // ---------------------------------------------------------------- the engine's own cycles

  /** How much of its planning a failed cycle did, read off the slot's steps. */
  predicate CutAt(g: Setup, s: Side, t: Turn, past: seq<SlotEvent>, now: seq<SlotEvent>) {
    t.Cycled? && !t.ok ==> |past| + |Seen(g, s, t.c)| + t.cuts(StreamOf(s)) == |now|
  }

  lemma CycleIsWorked(g: Setup, s: Side, t: Turn, past: seq<SlotEvent>, now: seq<SlotEvent>)
    requires t.Cycled? && CutAt(g, s, t, past, now)
    requires CycleDid(past, now, g.p.tier, g.resumeDelay, StreamOf(s), s.w, t.c, t.ok)
    ensures now == past + (Seen(g, s, t.c) + Worked(g, s, t))
  {
    hide NextPhase, ObserveEvents, PlanPart, Service;
    var seen, plan := past + Seen(g, s, t.c), PlanPart(StreamOf(s), PhaseIn(g, s, t.c), t.c);
    if !t.ok {
      assert seen <= now <= seen + plan;
      assert now == (seen + plan)[..|now|];
      assert now == seen + plan[..|now| - |seen|];
    }
  }

  /** What the engine's `Cycle` promises makes a turn: if a stream's trace and the query are those
      of the engine before the cycle, they are so after it, and `Cycle` planned on the very slot
      the turn speaks of. */
  lemma CycleIsATurn(g: Setup, s: Side, t: Turn, past: seq<SlotEvent>, now: seq<SlotEvent>)
    requires JointOk(s.j) && SlotOk(s.j.h.slot) && t.Cycled? && TurnOk(g, s, t) && CutAt(g, s, t, past, now)
    requires s.j.h == RunSlot(g.k12, Begin(StreamOf(s)), past)
    requires CycleDid(past, now, g.p.tier, g.resumeDelay, StreamOf(s), s.w, t.c, t.ok)
    ensures TurnEnd(g, s, t).j.h == RunSlot(g.k12, Begin(StreamOf(s)), now)
    ensures RunSlot(g.k12, s.j.h, Seen(g, s, t.c)) == RunSlot(g.k12, Begin(StreamOf(s)), past + Seen(g, s, t.c))
  {
    hide SlotOk, JointOk, JointRun, JointEnd, MovesOf, RunSlot, Seen, PlansWell, CycleDid, Reported;
    TurnSplits(g, s, t);
    CycleIsWorked(g, s, t, past, now);
    var seen, work := Seen(g, s, t.c), Worked(g, s, t);
    RunJoins(g.k12, Begin(StreamOf(s)), past, seen);
    RunJoins(g.k12, Begin(StreamOf(s)), past, seen + work);
    RunJoins(g.k12, s.j.h, seen, work);
    SeenSlot(g, s, t);
    var j := JointEnd(g.k12, g.p, s.j, MovesOf(seen, t.k));
    WorkIsUnanswered(g, s, t, j);
    MovesAreEvents(g.k12, g.p, j, work, t.k);
  }

  lemma WorkIsUnanswered(g: Setup, s: Side, t: Turn, j: Joint)
    requires t.Cycled? && JointOk(j)
    ensures (forall e :: e in Worked(g, s, t) ==> !e.EpochReset? && !e.StatusSeen?) && Truthful(g.p, j, Worked(g, s, t), t.k)
  {
    hide NextPhase, W.StreamOk;
  }
}
