/** Everything proved about runs, read off any state the engine object can be in. */
module EngineSafety {
  import opened Basics
  import opened SlotRules
  import opened SlotRuns
  import opened SlotShape
  import opened SlotLinks
  import opened SlotFreeze
  import opened SlotFreshness
  import opened SlotProgress
  import opened SlotSends
  import opened SlotLog
  import opened SlotMarks
  import opened SlotOutcomes
  import L = SlotLives
  import F = SlotFailures
  import W = SlotWaits
  import EpochPhases
  import C = Cycles
  import Work = CycleWork
  import M = Monitor
  import opened MonitorRuns
  import Q = MonitorQueue
  import E = ProviderEngine

  /** A drain that ended accepted had every call of its chain accepted. */
  ghost predicate DrainKept(h: Trace) {
    h.slot.state == Drained(DrainAccepted) ==>
      && h.signed != [] && h.signed[|h.signed| - 1].kind.TerminalReveal?
      && forall s :: s in h.signed && h.chainFirst <= s.tx.target ==> s.tx.target in h.accepted
  }

  /** One slot of the engine: coherent, its signed targets never reused and hash-linked, its
      broadcasts in their windows, at most one financial failure for its chain, its suspicion
      made of agreeing answers and short of a freeze while live, its absence known from a fresh
      enough answer, and its accepted drain complete. */
  ghost predicate SafeSlot(k12: Hash, stream: nat, events: seq<SlotEvent>, slot: ManagedSlot) {
    var h := RunSlot(k12, Begin(stream), events);
    && slot == h.slot && SlotOk(slot) && slot.stream == stream
    && (forall i, j :: 0 <= i < j < |h.signed| ==> h.signed[i].tx.target < h.signed[j].tx.target)
    && (forall i :: 0 < i < |h.signed| ==> Linked(k12, h.signed[i - 1], h.signed[i]))
    && (forall e :: e in h.sent ==> SendOk(e) && e.call in h.signed)
    && AgainOnce(h.sent) && TerminalOnce(h.sent)
    && h.failures <= 1
    && Watched(h) && AbsenceKnown(h) && DrainKept(h)
  }

  lemma RunIsSafe(k12: Hash, stream: nat, events: seq<SlotEvent>)
    requires stream < STREAM_COUNT
    ensures SafeSlot(k12, stream, events, RunSlot(k12, Begin(stream), events).slot)
  {
    RunKeepsShape(k12, Begin(stream), events);
    RunKeepsStream(k12, Begin(stream), events);
    NoTargetIsReused(k12, stream, events);
    BroadcastLogIsSafe(k12, stream, events);
    ChainFailsAtMostOnce(k12, stream, events);
    RunWatched(k12, Begin(stream), events);
    RunAbsenceKnown(k12, Begin(stream), events);
    AcceptedDrainIsComplete(k12, stream, events);
    hide SlotOk, Linked, SendOk, AgainOnce, TerminalOnce, Watched, AbsenceKnown, RunSlot;
  }

  /** The three slots, the check queue and the counters of every state an engine can reach. */
  lemma EveryStateIsSafe(engine: E.ProviderEngine)
    requires engine.Valid()
    ensures engine.slots.Length == STREAM_COUNT == |engine.log|
    ensures forall i: nat :: i < STREAM_COUNT ==> SafeSlot(engine.k12, i, engine.log[i], engine.slots[i])
    ensures QueueOk(engine.View())
    ensures var h := RunMonitor(NewHistory(engine.startedAt), engine.monitorLog, engine.pace);
      h.m == engine.View() && (BelowLimit(h.m, h.base) ==> CountersAdd(h.m, h.base))
  {
    forall i: nat | i < STREAM_COUNT ensures SafeSlot(engine.k12, i, engine.log[i], engine.slots[i]) {
      RunIsSafe(engine.k12, i, engine.log[i]);
      assert engine.slots[..][i] == engine.slots[i];
    }
    NoTargetIsCheckedTwice(engine.startedAt, engine.monitorLog, engine.pace);
    CountersAreExact(engine.startedAt, engine.monitorLog, engine.pace);
    hide SafeSlot, QueueOk, CountersAdd;
  }

  // ---------------------------------------------------------------- outcomes and counters

  ghost function TraceOf(engine: E.ProviderEngine, i: nat): Trace
    reads engine
    requires i < |engine.log|
  {
    RunSlot(engine.k12, Begin(i), engine.log[i])
  }

  ghost function Told(engine: E.ProviderEngine): History
    reads engine
  {
    RunMonitor(NewHistory(engine.startedAt), engine.monitorLog, engine.pace)
  }

  /** Chains started by the three slots since their epoch began. */
  ghost function StartsOf(engine: E.ProviderEngine): nat
    reads engine
    requires |engine.log| == STREAM_COUNT
  {
    TraceOf(engine, 0).starts + TraceOf(engine, 1).starts + TraceOf(engine, 2).starts
  }

  /** The monitor was told a mark exactly when some slot reported it in this epoch. */
  lemma ToldIsReported(engine: E.ProviderEngine, m: Mark)
    requires engine.Valid()
    ensures |engine.log| == STREAM_COUNT
    ensures m in Told(engine).marks <==>
      m in TraceOf(engine, 0).marks || m in TraceOf(engine, 1).marks || m in TraceOf(engine, 2).marks
  {
    var told := multiset(Told(engine).marks);
    assert told == E.AllMarks(engine.k12, engine.log);
    assert m in Told(engine).marks <==> m in told;
    hide RunSlot, RunMonitor;
  }

  lemma ViewIsTold(engine: E.ProviderEngine)
    requires engine.Valid()
    ensures engine.View() == Told(engine).m
  {
  }

  /** An accepted reveal belongs to the stream of its target. */
  lemma RevealIsOnStream(k12: Hash, stream: nat, events: seq<SlotEvent>, target: nat)
    requires stream < STREAM_COUNT && RevealAccepted(RunSlot(k12, Begin(stream), events), target)
    ensures target % STREAM_COUNT == stream
  {
    var h := RunSlot(k12, Begin(stream), events);
    var s :| s in h.signed && s.kind.RevealCommit? && s.tx.target == target;
    assert Reachable(k12, stream, h);
    SignedOnStream(k12, stream, h, s);
  }

  /** In every state: a target's outcome is ok exactly when the slot of its stream signed a
      reveal for it in this epoch, the backend accepted it, no slot reported a failure for it
      and no check found its tick empty; it is failed exactly when some slot reported a failure
      for it and no check found its tick empty. */
  lemma OutcomesAreTheSlots(engine: E.ProviderEngine, target: nat)
    requires engine.Valid()
    ensures |engine.log| == STREAM_COUNT
    ensures var failed := exists i: nat :: i < STREAM_COUNT && Failure(target) in TraceOf(engine, i).marks;
      var empty := target in Told(engine).empties;
      && (M.OutcomeOf(engine.View(), target) == Some(M.OkSend) <==>
            RevealAccepted(TraceOf(engine, target % STREAM_COUNT), target) && !failed && !empty)
      && (M.OutcomeOf(engine.View(), target) == Some(M.FailedSend) <==> failed && !empty)
      && (M.OutcomeOf(engine.View(), target) == Some(M.EmptyTick) <==> empty)
  {
    hide RunSlot, RunMonitor, RevealAccepted, E.IsRun;
    ViewIsTold(engine);
    ToldIsReported(engine, Success(target));
    ToldIsReported(engine, Failure(target));
    OutcomesComeFromReports(engine.startedAt, engine.monitorLog, engine.pace, target);
    SuccessIsOnItsStream(engine, 0, target);
    SuccessIsOnItsStream(engine, 1, target);
    SuccessIsOnItsStream(engine, 2, target);
    assert Failure(target) in Told(engine).marks <==>
      exists i: nat :: i < STREAM_COUNT && Failure(target) in TraceOf(engine, i).marks;
  }

  lemma SuccessIsOnItsStream(engine: E.ProviderEngine, i: nat, target: nat)
    requires |engine.log| == STREAM_COUNT && i < STREAM_COUNT
    ensures Success(target) in TraceOf(engine, i).marks <==>
      i == target % STREAM_COUNT && RevealAccepted(TraceOf(engine, target % STREAM_COUNT), target)
  {
    hide RunSlot, RevealAccepted;
    SuccessesAreAcceptedReveals(engine.k12, i, engine.log[i], target);
    if Success(target) in TraceOf(engine, i).marks { RevealIsOnStream(engine.k12, i, engine.log[i], target); }
  }

  lemma Union3(whole: set<nat>, a: set<nat>, b: set<nat>, c: set<nat>)
    requires whole <= a + b + c
    ensures |whole| <= |a| + |b| + |c|
  {
    Smaller(whole, a + b + c);
    assert |a + b + c| <= |a + b| + |c|;
  }

  lemma FailedAreReported(engine: E.ProviderEngine, target: nat)
    requires engine.Valid() && target in Mapped(engine.sendOutcomes, M.FailedSend)
    ensures |engine.log| == STREAM_COUNT
    ensures exists i: nat :: i < STREAM_COUNT && target in FailedTargets(TraceOf(engine, i).marks)
  {
    OutcomesAreTheSlots(engine, target);
    hide RunSlot, RunMonitor;
    assert M.OutcomeOf(engine.View(), target) == Some(M.FailedSend);
    var i: nat :| i < STREAM_COUNT && Failure(target) in TraceOf(engine, i).marks;
    assert Failure(target).target in FailedTargets(TraceOf(engine, i).marks);
  }

  /** In every state: at most as many targets count as failed in this epoch as chains were
      started in it, so the failure counter has grown by no more since the epoch began. */
  lemma EngineFailuresAreBounded(engine: E.ProviderEngine)
    requires engine.Valid()
    ensures |engine.log| == STREAM_COUNT
    ensures |Mapped(engine.sendOutcomes, M.FailedSend)| <= StartsOf(engine)
    ensures var base := Told(engine).base;
      BelowLimit(engine.View(), base) ==> engine.sendStats.failed <= base.failed + StartsOf(engine)
  {
    hide RunSlot, RunMonitor, FailedTargets, Failures, Mapped, E.IsRun;
    var failed := Mapped(engine.sendOutcomes, M.FailedSend);
    forall t | t in failed
      ensures t in FailedTargets(TraceOf(engine, 0).marks) + FailedTargets(TraceOf(engine, 1).marks)
                   + FailedTargets(TraceOf(engine, 2).marks)
    {
      FailedAreReported(engine, t);
    }
    EpochFailuresAreBounded(engine.k12, 0, engine.log[0]);
    EpochFailuresAreBounded(engine.k12, 1, engine.log[1]);
    EpochFailuresAreBounded(engine.k12, 2, engine.log[2]);
    Union3(failed, FailedTargets(TraceOf(engine, 0).marks), FailedTargets(TraceOf(engine, 1).marks),
           FailedTargets(TraceOf(engine, 2).marks));
    CountersAreExact(engine.startedAt, engine.monitorLog, engine.pace);
    ViewIsTold(engine);
  }

  // ---------------------------------------------------------------- targets and shutdown

  /** Two streams never sign a call for the same target, so outcomes kept by target tick never
      mix streams. */
  lemma StreamsShareNoTarget(k12: Hash, i: nat, j: nat, a: Trace, b: Trace, x: Signed, y: Signed)
    requires i != j && Reachable(k12, i, a) && Reachable(k12, j, b) && x in a.signed && y in b.signed
    ensures x.tx.target != y.tx.target
  {
    SignedOnStream(k12, i, a, x);
    SignedOnStream(k12, j, b, y);
  }

  lemma SignedOnStream(k12: Hash, stream: nat, h: Trace, s: Signed)
    requires Reachable(k12, stream, h) && s in h.signed
    ensures s.tx.target % STREAM_COUNT == stream
  {
    var events :| RunSlot(k12, Begin(stream), events) == h;
    BeginLinks(k12, stream);
    RunLinks(k12, Begin(stream), events);
    RunKeepsStream(k12, Begin(stream), events);
    var i :| 0 <= i < |h.signed| && h.signed[i] == s;
    hide RunSlot, SlotOk, EndsOk, CallsSigned, HeadOk, Linked;
    assert EntryOk(h.signed[i], h.slot.stream);
  }

  /** When a shutdown ends without failure, each slot either had no trusted chain to drain, or
      every call of its last chain, the terminal reveal included, was accepted. */
  lemma SuccessfulShutdownIsComplete(engine: E.ProviderEngine, i: nat)
    requires engine.Valid() && i < STREAM_COUNT && engine.ShutdownComplete() && !engine.ShutdownFailed()
    ensures |engine.log| == STREAM_COUNT
    ensures var h := RunSlot(engine.k12, Begin(i), engine.log[i]);
      || h.slot.state == Drained(NothingToDrain)
      || (&& h.signed != [] && h.signed[|h.signed| - 1].kind.TerminalReveal?
          && forall s :: s in h.signed && h.chainFirst <= s.tx.target ==> s.tx.target in h.accepted)
  {
    SlotIsTrace(engine, i);
    hide RunSlot, E.IsRun, E.ProviderEngine.Matches;
    AcceptedDrainIsComplete(engine.k12, i, engine.log[i]);
    var state := TraceOf(engine, i).slot.state;
    assert state.Drained? && state != Drained(DrainFailed);
    assert state.outcome.NothingToDrain? || state.outcome.DrainAccepted?;
  }

  /** From any state in which a slot drains: whatever happens short of an epoch change, the first
      serviced tick that reaches the deadline drains it, and it stays drained. */
  lemma EngineDrainFinishes(engine: E.ProviderEngine, i: nat, before: seq<SlotEvent>, tick: nat, after: seq<SlotEvent>, due: nat)
    requires engine.Valid() && i < STREAM_COUNT && i < engine.slots.Length && DrainsBy(engine.slots[i], due)
    requires NoReset(before) && due <= tick && NoReset(after)
    ensures |engine.log| == STREAM_COUNT
    ensures RunSlot(engine.k12, Begin(i), engine.log[i] + (before + (Service(tick) + after))).slot.state.Drained?
  {
    SlotIsTrace(engine, i);
    var h := TraceOf(engine, i);
    RunKeepsShape(engine.k12, Begin(i), engine.log[i]);
    hide RunSlot, E.IsRun, SlotOk, DrainsBy, Service;
    RunJoins(engine.k12, Begin(i), engine.log[i], before + (Service(tick) + after));
    RunJoins(engine.k12, h, before, Service(tick) + after);
    RunJoins(engine.k12, RunSlot(engine.k12, h, before), Service(tick), after);
    DrainFinishes(engine.k12, h, before, tick, after, due);
  }

  lemma SlotIsTrace(engine: E.ProviderEngine, i: nat)
    requires engine.Valid() && i < STREAM_COUNT
    ensures engine.slots.Length == STREAM_COUNT == |engine.log| && TraceOf(engine, i).slot == engine.slots[i]
  {
    assert engine.slots[..][i] == engine.slots[i];
  }

  // ---------------------------------------------------------------- calls, failures and checks

  /** What became of each call of slot `i`, from the log of the object. */
  ghost function LifeOf(engine: E.ProviderEngine, i: nat): L.Life
    reads engine
    requires i < |engine.log|
  {
    L.RunLife(engine.k12, L.NewLife(i), engine.log[i])
  }

  /** Every slot of the object has lived through its log, so whatever is proved about lives holds of
      it: each planned call is in the state its history gives, and every step it takes from here
      reports exactly the failures that its history tells. */
  lemma SlotsLive(engine: E.ProviderEngine, i: nat, e: SlotEvent, target: nat)
    requires engine.Valid() && i < STREAM_COUNT
    ensures engine.slots.Length == STREAM_COUNT == |engine.log|
    ensures var l := LifeOf(engine, i);
      && L.Lived(engine.k12, i, l) && l.h == TraceOf(engine, i) && l.h.slot == engine.slots[i]
      && (forall c :: c in CallsOf(engine.slots[i]) ==> L.CallKnown(l, c))
      && (Failure(target) in StepSlot(engine.k12, engine.slots[i], e).marks <==> F.FailsNow(engine.k12, l, e, target))
  {
    SlotIsTrace(engine, i);
    hide RunSlot, E.IsRun, StepSlot, L.RunLife, L.CallKnown, F.FailsNow;
    L.LifeIsRun(engine.k12, L.NewLife(i), engine.log[i]);
    var l := LifeOf(engine, i);
    assert L.Lived(engine.k12, i, l);
    L.LivedIsKnown(engine.k12, i, l);
    L.KnownFacts(engine.k12, l);
    F.FailuresAreExact(engine.k12, i, l, e, target);
  }

  /** In every state a target is queued for a tick check or checked if and only if a slot reported it
      in this epoch and it is at or above the watermark. */
  lemma ReportsAreChecked(engine: E.ProviderEngine, target: nat)
    requires engine.Valid()
    ensures |engine.log| == STREAM_COUNT
    ensures (target in engine.View().queued || target in engine.View().checked) <==>
      && engine.View().oldest <= target
      && exists i: nat :: i < STREAM_COUNT &&
           (Success(target) in TraceOf(engine, i).marks || Failure(target) in TraceOf(engine, i).marks)
  {
    hide RunSlot, RunMonitor, E.IsRun, Q.RunQueue;
    ViewIsTold(engine);
    ToldIsReported(engine, Success(target));
    ToldIsReported(engine, Failure(target));
    Q.QueueIsRun(Q.NewQueue(engine.startedAt), engine.monitorLog, engine.pace);
    Q.ReportsAreQueued(engine.startedAt, engine.monitorLog, engine.pace, Success(target));
  }

  /** After a completed cycle of the object nothing is left to do for any of its slots at the cycle's
      tick; while planning, live chains are planned ahead and no slot that is free to start waits. */
  lemma CycleIsDone(engine: E.ProviderEngine, i: nat, past: seq<SlotEvent>, w: C.Watch, c: C.CycleInput)
    requires engine.Valid() && i < STREAM_COUNT && i < |engine.log|
    requires engine.log[i] == past + C.CycleEvents(engine.tier, engine.resumeDelay, i, w, c)
    requires C.PlansWell(engine.k12, RunSlot(engine.k12, Begin(i), past + C.ObserveEvents(engine.tier, i, w, c)).slot, i,
                         EpochPhases.NextPhase(w.phase, c.info, engine.resumeDelay, c.stopWindow), c)
    ensures Work.Serviced(LifeOf(engine, i), c.info.tick)
    ensures EpochPhases.NextPhase(w.phase, c.info, engine.resumeDelay, c.stopWindow).Planning? && !c.shuttingDown ==>
      Work.PlannedAhead(LifeOf(engine, i), c.info.tick) && !W.Free(LifeOf(engine, i))
  {
    hide RunSlot, L.RunLife, C.PlansWell, Work.Serviced, Work.PlannedAhead, W.Free, EpochPhases.NextPhase, C.ObserveEvents, C.CycleEvents;
    var k12, began := engine.k12, L.NewLife(i);
    var l := L.RunLife(k12, began, past);
    assert L.Lived(k12, i, l);
    Work.LifeJoins(k12, began, past, C.CycleEvents(engine.tier, engine.resumeDelay, i, w, c));
    Work.LifeJoins(k12, began, past, C.ObserveEvents(engine.tier, i, w, c));
    L.LifeIsRun(k12, began, past + C.ObserveEvents(engine.tier, i, w, c));
    Work.CompletedCycleIsDone(k12, i, l, engine.tier, engine.resumeDelay, w, c);
  }
}
