/** The provider engine as a class whose methods update the slots, the counters and the check
    queue in place. Each method is proved equal to the step of `SlotRules` or `Monitor` that
    specifies it, and the whole state is always the result of a run. */
module ProviderEngine {
  import opened Basics
  import opened SlotRules
  import opened SlotRuns
  import opened SlotShape
  import opened SlotProgress
  import opened Monitor
  import opened MonitorRuns
  import opened EpochPhases
  import opened Cycles
  import ProviderStatus

  // ---------------------------------------------------------------- one more element

  lemma {:induction false} NormalAppend(calls: seq<PlannedCall>, c: PlannedCall, first: nat, tick: nat)
    ensures FirstExpiredNormal(calls + [c], first, tick) ==
      var t := FirstExpiredNormal(calls, first, tick);
      if t.Some? then t else if Expires(c, first, tick) && c.kind.RevealCommit? then Some(c.target) else None
  {
    var all := calls + [c];
    if calls == [] {
      assert all == [c] && all[1..] == [];
    } else {
      assert all[1..] == calls[1..] + [c];
      NormalAppend(calls[1..], c, first, tick);
    }
  }

  lemma TerminalAppend(calls: seq<PlannedCall>, c: PlannedCall, first: nat, tick: nat)
    ensures AttemptedTerminal(calls + [c], first, tick) ==
      if Expires(c, first, tick) && c.kind.TerminalReveal? && (c.state.Broadcasting? || c.state.Retry?) then Some(c.target)
      else AttemptedTerminal(calls, first, tick)
  {
    assert (calls + [c])[..|calls|] == calls;
  }

  lemma AnyAppend(calls: seq<PlannedCall>, c: PlannedCall, first: nat, tick: nat)
    ensures AnyExpires(calls + [c], first, tick) <==> AnyExpires(calls, first, tick) || Expires(c, first, tick)
  {
    var all := calls + [c];
    assert all[|calls|] == c && forall i :: 0 <= i < |calls| ==> all[i] == calls[i];
    if AnyExpires(all, first, tick) && !Expires(c, first, tick) {
      var i :| 0 <= i < |all| && Expires(all[i], first, tick);
      assert Expires(calls[i], first, tick);
    }
    if AnyExpires(calls, first, tick) {
      var i :| 0 <= i < |calls| && Expires(calls[i], first, tick);
      assert Expires(all[i], first, tick);
    }
  }

  lemma GivenUpAppend(calls: seq<PlannedCall>, c: PlannedCall, x: Context)
    ensures LastGivenUp(calls + [c], x) == if Decide(c, x).GiveUp? then Some(c.target) else LastGivenUp(calls, x)
  {
    assert (calls + [c])[..|calls|] == calls;
  }

  lemma {:induction false} RetainAppend(calls: seq<PlannedCall>, c: PlannedCall, first: nat, tick: nat)
    ensures Retain(calls + [c], first, tick) == Retain(calls, first, tick) + (if Retained(c, first, tick) then [c] else [])
  {
    hide Retained;
    var all := calls + [c];
    if calls == [] {
      assert all == [c] && all[1..] == [];
    } else {
      var head := if Retained(calls[0], first, tick) then [calls[0]] else [];
      assert all[1..] == calls[1..] + [c] && all[0] == calls[0];
      RetainAppend(calls[1..], c, first, tick);
      assert Retain(all, first, tick) == head + Retain(all[1..], first, tick);
    }
  }

  lemma {:induction false} ReportAppend(m: Monitor, a: seq<Mark>, b: seq<Mark>)
    ensures ReportAll(m, a + b) == ReportAll(ReportAll(m, a), b)
    decreases |a|
  {
    if a == [] {
      assert a + b == b;
    } else {
      assert (a + b)[1..] == a[1..] + b;
      ReportAppend(Report(m, a[0]), a[1..], b);
    }
  }

  lemma {:induction false} MonitorAppend(h: History, events: seq<MonitorEvent>, e: MonitorEvent, pace: Pace)
    ensures RunMonitor(h, events + [e], pace) == NextMonitor(RunMonitor(h, events, pace), e, pace)
    decreases |events|
  {
    if events == [] {
      assert events + [e] == [e] && [e][1..] == [];
    } else {
      assert (events + [e])[1..] == events[1..] + [e];
      MonitorAppend(NextMonitor(h, events[0], pace), events[1..], e, pace);
    }
  }

  predicate IsLeast(t: nat, s: set<nat>) { t in s && forall u :: u in s ==> t <= u }

  lemma {:induction false} LeastExists(s: set<nat>)
    requires s != {}
    ensures exists t :: IsLeast(t, s)
    decreases |s|
  {
    var t :| t in s;
    var rest := s - {t};
    assert s == rest + {t};
    if rest == {} {
      assert IsLeast(t, s);
    } else {
      LeastExists(rest);
      var r :| IsLeast(r, rest);
      assert IsLeast(if t < r then t else r, s);
    }
  }

  lemma NewestIsUnique(ready: map<ReadyKey, nat>, now: nat, a: ReadyKey, b: ReadyKey)
    requires Newest(ready, now, a) && Newest(ready, now, b)
    ensures a == b
  {
  }

  lemma ReadyGrows(ready: map<ReadyKey, nat>, moved: set<nat>, target: nat, now: nat)
    ensures AllReady(ready, moved + {target}, now) == AllReady(ready, moved, now)[ReadyKey(now, target) := 0]
    ensures AllReady(ready, {}, now) == ready
  {
    assert KeysAt(moved + {target}, now) == KeysAt(moved, now) + {ReadyKey(now, target)};
  }

  /** When the oldest waiting target is too recent, so are all of them. */
  lemma NoneEligible(waiting: set<nat>, moved: set<nat>, target: nat, tick: nat, delayTicks: nat)
    requires moved <= EligibleOf(waiting, tick, delayTicks)
    requires waiting == moved || (!Eligible(target, tick, delayTicks) && forall t :: t in waiting - moved ==> target <= t)
    ensures moved == EligibleOf(waiting, tick, delayTicks)
  {
    forall t | t in waiting - moved ensures !Eligible(t, tick, delayTicks) {
    }
  }

  /** Everything the three slots reported since their epoch began. */
  ghost function AllMarks(k12: Hash, logs: seq<seq<SlotEvent>>): multiset<Mark>
    requires |logs| == STREAM_COUNT
  {
    multiset(RunSlot(k12, Begin(0), logs[0]).marks) + multiset(RunSlot(k12, Begin(1), logs[1]).marks)
      + multiset(RunSlot(k12, Begin(2), logs[2]).marks)
  }

  /** The slots and the monitor are where their recorded steps lead, and since its last reset the
      monitor was told exactly what the slots reported since their epoch began. */
  ghost predicate IsRun(k12: Hash, at: nat, pace: Pace, logs: seq<seq<SlotEvent>>, told: seq<MonitorEvent>,
                        s: seq<ManagedSlot>, m: Monitor)
  {
    && |s| == |logs| == STREAM_COUNT
    && (forall i: nat :: i < STREAM_COUNT ==> s[i] == RunSlot(k12, Begin(i), logs[i]).slot)
    && m == RunMonitor(NewHistory(at), told, pace).m
    && multiset(RunMonitor(NewHistory(at), told, pace).marks) == AllMarks(k12, logs)
  }

  lemma MarksGrow(k12: Hash, logs: seq<seq<SlotEvent>>, index: nat, e: SlotEvent)
    requires |logs| == STREAM_COUNT && index < STREAM_COUNT && !e.EpochReset?
    ensures AllMarks(k12, logs[index := logs[index] + [e]]) ==
      AllMarks(k12, logs) + multiset(StepSlot(k12, RunSlot(k12, Begin(index), logs[index]).slot, e).marks)
  {
    hide StepSlot, RunSlot;
    OneMore(k12, RunSlot(k12, Begin(index), logs[index]), e);
    RunAppend(k12, Begin(index), logs[index], e);
    var more := logs[index := logs[index] + [e]];
    assert forall i: nat :: i < STREAM_COUNT && i != index ==> more[i] == logs[i];
  }

  lemma OneMore(k12: Hash, h: Trace, e: SlotEvent)
    requires !e.EpochReset?
    ensures multiset(Next(k12, h, e).marks) == multiset(h.marks) + multiset(StepSlot(k12, h.slot, e).marks)
  {
    hide StepSlot, NewlySigned, NewlySent, AcceptedBy, NextStreak, Started;
  }

  lemma SlotStepIsRun(k12: Hash, at: nat, pace: Pace, logs: seq<seq<SlotEvent>>, told: seq<MonitorEvent>,
                      s: seq<ManagedSlot>, m: Monitor, index: nat, e: SlotEvent)
    requires IsRun(k12, at, pace, logs, told, s, m) && index < STREAM_COUNT && !e.EpochReset?
    ensures var o := StepSlot(k12, s[index], e);
      IsRun(k12, at, pace, logs[index := logs[index] + [e]], told + [Marked(o.marks)], s[index := o.slot], ReportAll(m, o.marks))
  {
    hide RunSlot, RunMonitor, StepSlot, ReportAll, AllMarks;
    var marks := StepSlot(k12, s[index], e).marks;
    RunAppend(k12, Begin(index), logs[index], e);
    MarksGrow(k12, logs, index, e);
    MonitorAppend(NewHistory(at), told, Marked(marks), pace);
  }

  lemma MonitorStepIsRun(k12: Hash, at: nat, pace: Pace, logs: seq<seq<SlotEvent>>, told: seq<MonitorEvent>,
                         s: seq<ManagedSlot>, m: Monitor, e: MonitorEvent)
    requires IsRun(k12, at, pace, logs, told, s, m) && !e.Marked? && !e.Reset?
    ensures IsRun(k12, at, pace, logs, told + [e], s, StepMonitor(m, e, pace))
  {
    hide RunSlot, RunMonitor, StepMonitor, AllMarks;
    MonitorAppend(NewHistory(at), told, e, pace);
  }

  lemma ResetIsRun(k12: Hash, at: nat, pace: Pace, logs: seq<seq<SlotEvent>>, told: seq<MonitorEvent>,
                   s: seq<ManagedSlot>, m: Monitor, checkAt: nat, logAt: nat)
    requires IsRun(k12, at, pace, logs, told, s, m)
    ensures IsRun(k12, at, pace, [logs[0] + [EpochReset], logs[1] + [EpochReset], logs[2] + [EpochReset]],
                  told + [MonitorEvent.Reset(checkAt, logAt)],
                  [FreshSlot(s[0].stream), FreshSlot(s[1].stream), FreshSlot(s[2].stream)], ResetMonitor(m, checkAt, logAt))
  {
    hide RunSlot, RunMonitor, ResetMonitor;
    RunAppend(k12, Begin(0), logs[0], EpochReset);
    RunAppend(k12, Begin(1), logs[1], EpochReset);
    RunAppend(k12, Begin(2), logs[2], EpochReset);
    MonitorAppend(NewHistory(at), told, MonitorEvent.Reset(checkAt, logAt), pace);
  }

  /** The monitor was only told outcomes in between. */
  ghost predicate OnlyMarks(before: seq<MonitorEvent>, after: seq<MonitorEvent>) {
    before <= after && forall k :: |before| <= k < |after| ==> after[k].Marked?
  }

  lemma OnlyMarksJoin(a: seq<MonitorEvent>, b: seq<MonitorEvent>, c: seq<MonitorEvent>)
    requires OnlyMarks(a, b) && OnlyMarks(b, c)
    ensures OnlyMarks(a, c)
  {
    forall k | |a| <= k < |c| ensures c[k].Marked? { assert k < |b| ==> b[k] == c[k]; }
  }

  lemma OnlyMarksSelf(a: seq<MonitorEvent>)
    ensures OnlyMarks(a, a)
  {
  }

  /** A cycle's events of the monitor: the reset, then outcomes only, then the checks. */
  ghost predicate CycleLogged(before: seq<MonitorEvent>, after: seq<MonitorEvent>, resets: seq<MonitorEvent>,
                              checks: seq<MonitorEvent>)
  {
    && |checks| <= |after| && after[|after| - |checks|..] == checks
    && OnlyMarks(before + resets, after[..|after| - |checks|])
  }

  lemma CycleIsLogged(before: seq<MonitorEvent>, told: seq<MonitorEvent>, resets: seq<MonitorEvent>, checks: seq<MonitorEvent>)
    requires OnlyMarks(before + resets, told)
    ensures CycleLogged(before, told + checks, resets, checks) && CycleLogged(before, told, resets, [])
  {
    assert (told + checks)[..|told|] == told && told[..|told|] == told;
  }

  // ---------------------------------------------------------------- the engine

  class ProviderEngine {
    const k12: Hash
    const pace: Pace
    const resumeDelay: nat
    const tier: nat
    const slots: array<ManagedSlot>

    var statusQuery: Option<StatusQuery>
    var nextStatusQueryAt: nat
    var epochPhase: Option<EpochPhase>
    var sendStats: SendStats
    var sendOutcomes: map<nat, SendOutcome>
    var pendingTickChecks: set<nat>
    var readyTickChecks: map<ReadyKey, nat>
    var queuedTargetTicks: set<nat>
    var checkedTargetTicks: set<nat>
    var tickCheck: Option<Check>
    var nextTickCheckAt: nat
    var oldestTickCheck: nat
    var expiredTickChecks: nat
    var nextMonitorLogAt: nat

    /** The steps every slot and the monitor have taken. */
    ghost var log: seq<seq<SlotEvent>>
    ghost var monitorLog: seq<MonitorEvent>
    ghost const startedAt: nat

    function View(): Monitor
      reads `sendStats, `sendOutcomes, `pendingTickChecks, `readyTickChecks, `queuedTargetTicks, `checkedTargetTicks, `tickCheck,
            `nextTickCheckAt, `oldestTickCheck, `expiredTickChecks, `nextMonitorLogAt
    {
      Monitor(sendStats, sendOutcomes, pendingTickChecks, readyTickChecks, queuedTargetTicks, checkedTargetTicks, tickCheck,
              nextTickCheckAt, oldestTickCheck, expiredTickChecks, nextMonitorLogAt)
    }

    /** The slots and the monitor after one step of slot `index`. */
    ghost predicate Became(s: seq<ManagedSlot>, m: Monitor, index: nat, o: Outcome)
      requires index < |s|
      reads this, slots
    {
      slots[..] == s[index := o.slot] && View() == ReportAll(m, o.marks)
    }

    // -------------------------------------------------------------- counters and queue

    method RecordSendOutcome(target: nat, next: SendOutcome)
      modifies `sendStats, `sendOutcomes
      ensures View() == Record(old(View()), target, next)
    {
      var previous := if target in sendOutcomes then Some(sendOutcomes[target]) else None;
      if !Allowed(previous, next) {
        return;
      }
      if previous.Some? {
        sendStats := Decrement(sendStats, previous.value);
      }
      sendStats := Increment(sendStats, next);
      sendOutcomes := sendOutcomes[target := next];
    }

    method QueueTickCheck(target: nat)
      modifies `pendingTickChecks, `queuedTargetTicks
      ensures View() == QueueCheck(old(View()), target)
    {
      if oldestTickCheck <= target && target !in checkedTargetTicks && target !in queuedTargetTicks {
        queuedTargetTicks := queuedTargetTicks + {target};
        pendingTickChecks := pendingTickChecks + {target};
      }
    }

    method MarkFinancialFailure(target: nat)
      modifies `sendStats, `sendOutcomes, `pendingTickChecks, `queuedTargetTicks
      ensures View() == Report(old(View()), Failure(target))
      ensures View() == ReportAll(old(View()), [Failure(target)])
    {
      RecordSendOutcome(target, FailedSend);
      QueueTickCheck(target);
      assert ReportAll(Report(old(View()), Failure(target)), []) == View();
    }

    // -------------------------------------------------------------- status

    method BeginStatusRestart(index: nat, absenceAfter: nat, absenceObserved: bool)
      requires index < slots.Length
      modifies slots
      ensures slots[..] == old(slots[..])[index := SlotRules.BeginStatusRestart(old(slots[index]), absenceAfter, absenceObserved)]
    {
      if slots[index].chain.None? {
        return;
      }
      var tail := slots[index].chain.value.last;
      var restartAt := CheckedAdd(tail, STREAM_COUNT);
      if restartAt.None? {
        slots[index] := slots[index].(chain := None, restartAt := U32_MAX, state := Drained(DrainFailed));
        return;
      }
      slots[index] := slots[index].(restartAt := restartAt.value, state := Restarting(tail, absenceAfter, absenceObserved, None));
    }

    method LoseChain(index: nat, absenceAfter: nat, absenceObserved: bool)
      requires index < slots.Length
      modifies slots
      ensures slots[..] == old(slots[..])[index := SlotRules.LoseChain(old(slots[index]), absenceAfter, absenceObserved)]
    {
      var tail := if slots[index].chain.Some? then slots[index].chain.value.last else slots[index].restartAt;
      slots[index] := slots[index].(chain := None);
      var restartAt := CheckedAdd(tail, STREAM_COUNT);
      if restartAt.None? {
        slots[index] := slots[index].(restartAt := U32_MAX, state := Drained(DrainFailed));
        return;
      }
      slots[index] := slots[index].(restartAt := restartAt.value, state := Waiting(absenceAfter, absenceObserved));
    }

    method ObserveStatusEvidence(index: nat, e: Evidence, requested: nat)
      requires index < slots.Length
      modifies slots, `sendStats, `sendOutcomes, `pendingTickChecks, `queuedTargetTicks
      ensures Became(old(slots[..]), old(View()), index, ObserveEvidence(old(slots[index]), e, requested))
    {
      if slots[index].chain.None? {
        return;
      }
      var chain := slots[index].chain.value;
      if chain.suspicion.Some? && requested <= chain.suspicion.value.lastRequested {
        return;
      }
      var s := if chain.suspicion.None? then NewSuspicion(e, requested) else Observe(chain.suspicion.value, e, requested);
      slots[index] := slots[index].(chain := Some(chain.(suspicion := Some(s))));
      if s.confirmations < STATUS_CONFIRMATIONS_REQUIRED {
        return;
      }
      var failed := FinancialFailureTarget(slots[index].chain.value, s.evidence);
      if failed.Some? {
        MarkFinancialFailure(failed.value);
      }
      if s.evidence.Absent? {
        BeginStatusRestart(index, s.lastRequested, true);
      } else {
        BeginStatusRestart(index, SaturatingAdd(s.lastRequested, 1), false);
      }
    }

    method ApplyConfirmationWatermark(index: nat, confirmed: nat, requested: nat)
      requires index < slots.Length
      modifies slots, `sendStats, `sendOutcomes, `pendingTickChecks, `queuedTargetTicks
      ensures Became(old(slots[..]), old(View()), index, ApplyWatermark(old(slots[index]), confirmed, requested))
    {
      if slots[index].chain.None? {
        return;
      }
      var chain := slots[index].chain.value;
      if chain.confirmed.Some? && confirmed < chain.confirmed.value {
        return;
      }
      var advanced := chain.confirmed != Some(confirmed);
      if !advanced && chain.suspicion.Some? && requested <= chain.suspicion.value.lastRequested {
        return;
      }
      if advanced {
        chain := chain.(confirmed := Some(confirmed), suspicion := None);
        slots[index] := slots[index].(chain := Some(chain));
      }
      var due := chain.LatestTargetBefore(requested);
      if due.None? || due.value <= confirmed {
        slots[index] := slots[index].(chain := Some(chain.(suspicion := None)));
        return;
      }
      var missing := CheckedAdd(confirmed, STREAM_COUNT);
      if missing.None? {
        return;
      }
      ObserveStatusEvidence(index, Lag(missing.value), requested);
    }

    method ApplyStatus(index: nat, o: Snapshot)
      requires index < slots.Length
      modifies slots, `sendStats, `sendOutcomes, `pendingTickChecks, `queuedTargetTicks
      ensures Became(old(slots[..]), old(View()), index,
                     SlotRules.ApplyStatus(old(slots[index]), o.requested, ObservedIn(tier, index, o.slots)))
    {
      if slots[index].state.Draining? || slots[index].state.Drained? {
        return;
      }
      var observed := ObservedIn(tier, index, o.slots);
      match slots[index].state
      case Waiting(after, _) =>
        if observed.None? && o.requested >= after {
          slots[index] := slots[index].(state := Waiting(after, true));
        } else if observed.Some? {
          slots[index] := slots[index].(state := Waiting(Max(after, SaturatingAdd(o.requested, 1)), false));
        }
      case Starting(first) =>
        if observed.Some? && ChainOwns(slots[index], observed.value) {
          slots[index] := slots[index].(state := Active);
          ApplyConfirmationWatermark(index, observed.value, o.requested);
        } else if observed.Some? && o.requested > first {
          ObserveStatusEvidence(index, Foreign(observed.value), o.requested);
        } else if observed.None? && o.requested > first {
          ObserveStatusEvidence(index, Absent, o.requested);
        }
      case Active =>
        if observed.Some? && ChainOwns(slots[index], observed.value) {
          ApplyConfirmationWatermark(index, observed.value, o.requested);
        } else if observed.Some? {
          ObserveStatusEvidence(index, Foreign(observed.value), o.requested);
        } else {
          ObserveStatusEvidence(index, Absent, o.requested);
        }
      case Restarting(tail, after, _, drain) =>
        if observed.None? && o.requested >= after {
          slots[index] := slots[index].(state := Restarting(tail, after, true, drain));
        } else if observed.Some? {
          slots[index] := slots[index].(state := Restarting(tail, Max(after, SaturatingAdd(o.requested, 1)), false, drain));
        }
      case _ =>
    }

    // -------------------------------------------------------------- planning

    /** `signs` tells whether the wallet signs the call; a failure leaves the slot as it was. */
    method StartIfReady(index: nat, tick: nat, preimage: Bits, signs: bool) returns (ok: bool)
      requires index < slots.Length
      modifies slots
      ensures var n := SlotRules.StartIfReady(k12, old(slots[index]), tick, preimage);
        && ok == (n.Some? && (signs || !MayStart(old(slots[index].state))))
        && slots[..] == old(slots[..])[index := if ok then n.value else old(slots[index])]
    {
      if !MayStart(slots[index].state) {
        return true;
      }
      var earliest := CheckedAdd(tick, SEND_LEAD_TICKS);
      if earliest.None? {
        return false;
      }
      var target := NextStreamTick(Max(earliest.value, slots[index].restartAt), slots[index].stream);
      if target.None? {
        return false;
      }
      if !signs {
        return false;
      }
      var calls := if slots[index].chain.Some? then slots[index].chain.value.calls else [];
      slots[index] := slots[index].(chain := None);
      calls := calls + [PlannedCall(target.value, SignedTx(target.value, ZERO_BITS, k12(preimage)), FirstCommit, Ready, false, false)];
      slots[index] := slots[index].(chain := Some(Chain(target.value, target.value, None, None, preimage, calls)));
      slots[index] := slots[index].(state := Starting(target.value));
      return true;
    }

    /** The planning loop: one signed continuation after the other, up to the horizon or to the
        first call the wallet fails to sign. */
    method PlanCalls(index: nat, horizon: nat, draws: nat -> Option<Bits>) returns (ok: bool)
      requires index < slots.Length && slots[index].chain.Some?
      modifies slots
      ensures var planned := ExtendTo(k12, old(slots[index]).chain.value, horizon, draws, 0);
        && slots[..] == old(slots[..])[index := old(slots[index]).(chain := Some(planned))]
        && ok == !CanExtend(planned, horizon)
    {
      var chain := slots[index].chain.value;
      var n: nat := 0;
      while CheckedAdd(chain.last, STREAM_COUNT).Some? && chain.last + STREAM_COUNT <= horizon
        invariant slots[..] == old(slots[..])[index := old(slots[index]).(chain := Some(chain))]
        invariant ExtendTo(k12, chain, horizon, draws, n) == ExtendTo(k12, old(slots[index]).chain.value, horizon, draws, 0)
        decreases horizon - chain.last
      {
        var target := chain.last + STREAM_COUNT;
        var drawn := draws(n);
        if drawn.None? {
          return false;
        }
        var tx := SignedTx(target, chain.preimage, k12(drawn.value));
        chain := chain.(calls := chain.calls + [PlannedCall(target, tx, RevealCommit, Ready, false, false)],
                        last := target, preimage := drawn.value);
        slots[index] := slots[index].(chain := Some(chain));
        n := n + 1;
      }
      return true;
    }

    /** A continuation that was never planned has been passed. */
    method LoseMissedChain(index: nat, tick: nat)
      requires index < slots.Length && slots[index].state.Live() && Missed(slots[index], tick)
      modifies slots, `sendStats, `sendOutcomes, `pendingTickChecks, `queuedTargetTicks
      ensures Became(old(slots[..]), old(View()), index, LoseMissed(old(slots[index]), tick))
    {
      var missed := slots[index].chain.value.last + STREAM_COUNT;
      ghost var before, o := View(), SlotRules.ExpireCalls(slots[index], tick);
      hide SlotRules.ExpireCalls, SlotRules.LoseChain;
      ExpireCalls(index, tick);
      if slots[index].state.Starting? || slots[index].state.Active? {
        MarkFinancialFailure(missed);
        LoseChain(index, SaturatingAdd(tick, 1), false);
        ReportAppend(before, o.marks, [Failure(missed)]);
      }
    }

    method ExtendChain(index: nat, tick: nat, draws: nat -> Option<Bits>) returns (ok: bool)
      requires index < slots.Length
      modifies slots, `sendStats, `sendOutcomes, `pendingTickChecks, `queuedTargetTicks
      ensures ok == (SlotRules.ExtendChain(k12, old(slots[index]), tick, draws).Some?
                     && !SigningStopped(k12, old(slots[index]), tick, draws))
      ensures Became(old(slots[..]), old(View()), index, StepSlot(k12, old(slots[index]), ExtendAsked(tick, draws)))
    {
      hide LoseMissed, ExtendTo;
      if !(slots[index].state.Starting? || slots[index].state.Active?) {
        return true;
      }
      if Missed(slots[index], tick) {
        LoseMissedChain(index, tick);
        return true;
      }
      var horizon := CheckedAdd(tick, SEND_LEAD_TICKS);
      if horizon.None? {
        return false;
      }
      ok := true;
      if slots[index].chain.Some? {
        ok := PlanCalls(index, horizon.value, draws);
      }
    }

    /** `signs` tells whether the wallet signs a terminal call; a failure refuses the drain. */
    method EnterDrain(index: nat, reason: DrainReason, signs: bool) returns (ok: bool)
      requires index < slots.Length
      modifies slots
      ensures var n := SlotRules.EnterDrain(old(slots[index]), reason);
        && ok == (n.Some? && (signs || !old(slots[index].state.Live())))
        && slots[..] == old(slots[..])[index := if ok then n.value else old(slots[index])]
    {
      match slots[index].state
      case Draining(_, _) => return true;
      case Drained(_) => return true;
      case Waiting(_, _) =>
        slots[index] := slots[index].(state := Drained(NothingToDrain));
        return true;
      case Restarting(tail, after, observed, prior) =>
        var merged := if reason.Shutdown? then Shutdown else if prior == Some(Shutdown) then Shutdown else EpochEnd;
        slots[index] := slots[index].(state := Restarting(tail, after, observed, Some(merged)));
        return true;
      case _ =>
        if slots[index].chain.None? {
          return false;
        }
        var chain := slots[index].chain.value;
        var target := CheckedAdd(chain.last, STREAM_COUNT);
        if target.None? {
          return false;
        }
        if !signs {
          return false;
        }
        var tx := SignedTx(target.value, chain.preimage, ZERO_ID);
        chain := chain.(calls := chain.calls + [PlannedCall(target.value, tx, TerminalReveal, Ready, false, false)]);
        slots[index] := slots[index].(chain := Some(chain));
        slots[index] := slots[index].(state := Draining(reason, target.value));
        return true;
    }

    // -------------------------------------------------------------- expiry, dispatch, polling

    method CompleteDrain(index: nat, outcome: DrainOutcome)
      requires index < slots.Length
      modifies slots
      ensures slots[..] == old(slots[..])[index := SlotRules.CompleteDrain(old(slots[index]), outcome)]
    {
      slots[index] := slots[index].(chain := None);
      slots[index] := slots[index].(state := Drained(outcome));
    }

    method ExpireCalls(index: nat, tick: nat)
      requires index < slots.Length
      modifies slots, `sendStats, `sendOutcomes, `pendingTickChecks, `queuedTargetTicks
      ensures Became(old(slots[..]), old(View()), index, SlotRules.ExpireCalls(old(slots[index]), tick))
    {
      if slots[index].chain.None? {
        return;
      }
      var expired, normal, attempted := ExpireEachCall(index, tick);
      if !expired {
        return;
      }
      var failure := if slots[index].state.Live() then normal
                     else if slots[index].state.Draining? then (if normal.Some? then normal else attempted)
                     else None;
      if failure.Some? {
        MarkFinancialFailure(failure.value);
      }
      if slots[index].state.Live() {
        LoseChain(index, SaturatingAdd(tick, 1), false);
      } else if slots[index].state.Draining? {
        CompleteDrain(index, DrainFailed);
      }
    }

    /** The loop over the calls: every passed call is final afterwards. */
    method ExpireEachCall(index: nat, tick: nat) returns (expired: bool, normal: Option<nat>, attempted: Option<nat>)
      requires index < slots.Length && slots[index].chain.Some?
      modifies slots
      ensures var chain := old(slots[index]).chain.value;
        && slots[..] == old(slots[..])[index := old(slots[index]).(chain := Some(chain.(calls := ExpireEach(chain.calls, tick))))]
        && expired == AnyExpires(chain.calls, chain.first, tick)
        && normal == FirstExpiredNormal(chain.calls, chain.first, tick)
        && attempted == AttemptedTerminal(chain.calls, chain.first, tick)
    {
      var chain := slots[index].chain.value;
      var calls := chain.calls;
      expired, normal, attempted := false, None, None;
      var i := 0;
      while i < |calls|
        invariant slots[..] == old(slots[..])
        invariant i <= |calls| == |chain.calls|
        invariant forall k :: 0 <= k < |calls| ==> calls[k] == if k < i then ExpireCall(chain.calls[k], tick) else chain.calls[k]
        invariant expired == AnyExpires(chain.calls[..i], chain.first, tick)
        invariant normal == FirstExpiredNormal(chain.calls[..i], chain.first, tick)
        invariant attempted == AttemptedTerminal(chain.calls[..i], chain.first, tick)
      {
        var c := calls[i];
        assert chain.calls[..i + 1] == chain.calls[..i] + [c];
        NormalAppend(chain.calls[..i], c, chain.first, tick);
        TerminalAppend(chain.calls[..i], c, chain.first, tick);
        AnyAppend(chain.calls[..i], c, chain.first, tick);
        if c.target <= tick {
          calls := calls[i := calls[i].(inFlight := false)];
          if !Final(c.state) {
            if chain.first <= c.target {
              if c.kind.RevealCommit? && normal.None? {
                normal := Some(c.target);
              }
              if c.kind.TerminalReveal? && (c.state.Broadcasting? || c.state.Retry?) {
                attempted := Some(c.target);
              }
              expired := true;
            }
            calls := calls[i := calls[i].(state := BroadcastState.Failed)];
          }
        }
        i := i + 1;
      }
      assert chain.calls[..i] == chain.calls;
      assert calls == ExpireEach(chain.calls, tick);
      slots[index] := slots[index].(chain := Some(chain.(calls := calls)));
      assert slots[..] == old(slots[..])[index := slots[index]];
    }

    /** The body of the dispatch loop for one call; a failed call is given up. */
    static method DispatchCall(c: PlannedCall, tick: nat, first: nat, redundantAllowed: bool, terminalReady: bool, shutdown: bool)
      returns (n: PlannedCall)
      ensures var x := Context(tick, first, redundantAllowed, terminalReady, shutdown);
        n == Dispatched(c, x) && (n.state.Failed? && !c.state.Failed? <==> Decide(c, x).GiveUp?)
    {
      n := c;
      var lead := if c.kind.FirstCommit? then SEND_LEAD_TICKS else REVEAL_SEND_LEAD_TICKS;
      if c.target <= tick || SaturatingAdd(tick, lead) < c.target {
        return;
      }
      if c.kind.TerminalReveal? && !terminalReady {
        return;
      }
      var latest := match c.kind
        case FirstCommit => REDUNDANT_SEND_LEAD_TICKS
        case RevealCommit => 3
        case TerminalReveal => 0;
      var redundant := redundantAllowed && first <= c.target && c.state.Accepted? && !c.kind.TerminalReveal?
        && !c.redundantAttempted && TICK_DATA_PUBLICATION_LEAD_TICKS < c.target - tick && c.target - tick <= latest;
      if !redundant && !(c.state.Ready? || c.state.Retry?) {
        return;
      }
      if c.kind.TerminalReveal? && shutdown && c.state.Retry? {
        n := n.(state := BroadcastState.Failed);
        return;
      }
      n := n.(inFlight := true);
      if redundant {
        n := n.(redundantAttempted := true);
        return;
      }
      n := n.(state := Broadcasting);
    }

    method DispatchEachCall(index: nat, tick: nat, terminalReady: bool, ghost x: Context) returns (failed: Option<nat>)
      requires index < slots.Length && slots[index].chain.Some?
      requires x == ContextOf(slots[index], tick) && terminalReady == x.terminalReady
      modifies slots
      ensures var chain := old(slots[index]).chain.value;
        && slots[..] == old(slots[..])[index := old(slots[index]).(chain := Some(chain.(calls := DispatchEach(chain.calls, x))))]
        && failed == LastGivenUp(chain.calls, x)
    {
      var redundantAllowed := slots[index].state.Starting? || slots[index].state.Active?;
      var shutdown := slots[index].state.Draining? && slots[index].state.reason.Shutdown?;
      var chain := slots[index].chain.value;
      assert x == Context(tick, chain.first, redundantAllowed, terminalReady, shutdown);
      var calls := chain.calls;
      failed := None;
      var i := 0;
      while i < |calls|
        invariant slots[..] == old(slots[..])
        invariant i <= |calls| == |chain.calls|
        invariant forall k :: 0 <= k < |calls| ==> calls[k] == if k < i then Dispatched(chain.calls[k], x) else chain.calls[k]
        invariant failed == LastGivenUp(chain.calls[..i], x)
      {
        var c := calls[i];
        assert chain.calls[..i + 1] == chain.calls[..i] + [c];
        GivenUpAppend(chain.calls[..i], c, x);
        var n := DispatchCall(c, tick, chain.first, redundantAllowed, terminalReady, shutdown);
        hide Dispatched, Decide;
        calls := calls[i := n];
        if n.state.Failed? && !c.state.Failed? {
          failed := Some(c.target);
        }
        i := i + 1;
      }
      assert chain.calls[..i] == chain.calls;
      assert calls == DispatchEach(chain.calls, x);
      slots[index] := slots[index].(chain := Some(chain.(calls := calls)));
      assert slots[..] == old(slots[..])[index := slots[index]];
    }

    method DispatchCalls(index: nat, tick: nat)
      requires index < slots.Length
      modifies slots, `sendStats, `sendOutcomes, `pendingTickChecks, `queuedTargetTicks
      ensures Became(old(slots[..]), old(View()), index, SlotRules.DispatchCalls(old(slots[index]), tick))
    {
      if slots[index].chain.None? {
        return;
      }
      var chain := slots[index].chain.value;
      var terminalReady := true;
      if slots[index].state.Draining? {
        terminalReady := PrerequisitesAccepted(chain.calls, chain.first, slots[index].state.terminalTarget);
      }
      var failed := DispatchEachCall(index, tick, terminalReady, ContextOf(slots[index], tick));
      if failed.Some? {
        MarkFinancialFailure(failed.value);
      }
    }

    method ReportTargets(marks: seq<Mark>)
      modifies `sendStats, `sendOutcomes, `pendingTickChecks, `queuedTargetTicks
      ensures View() == ReportAll(old(View()), marks)
    {
      var i := 0;
      while i < |marks|
        invariant i <= |marks|
        invariant View() == ReportAll(old(View()), marks[..i])
      {
        ReportAppend(old(View()), marks[..i], [marks[i]]);
        assert marks[..i + 1] == marks[..i] + [marks[i]];
        ghost var m := View();
        assert ReportAll(m, [marks[i]]) == ReportAll(Report(m, marks[i]), []);
        if marks[i].Success? {
          RecordSendOutcome(marks[i].target, OkSend);
          QueueTickCheck(marks[i].target);
        } else {
          MarkFinancialFailure(marks[i].target);
        }
        i := i + 1;
      }
      assert marks[..i] == marks;
    }

    /** The body of the harvesting loop for one finished task. */
    static method HarvestOne(c: PlannedCall, poll: Poll, shutdown: bool) returns (n: PlannedCall, accepted: seq<Mark>, failed: seq<Mark>)
      ensures n == HarvestCall(c, poll, shutdown)
      ensures accepted == if NewlyAccepted(c, poll) && c.kind.RevealCommit? then [Success(c.target)] else []
      ensures failed == if NewlyFailed(c, poll, shutdown) then [Failure(c.target)] else []
    {
      n, accepted, failed := c, [], [];
      if !c.inFlight || poll.Pending? {
        return;
      }
      n := n.(inFlight := false);
      if c.state.Accepted? {
        return;
      }
      if poll.ok {
        n := n.(state := BroadcastState.Accepted);
        if c.kind.RevealCommit? {
          accepted := [Success(c.target)];
        }
      } else if shutdown && c.kind.TerminalReveal? {
        failed := [Failure(c.target)];
        n := n.(state := BroadcastState.Failed);
      } else {
        n := n.(state := Retry);
      }
    }

    method HarvestEachCall(index: nat, polls: nat -> Poll, shutdown: bool) returns (accepted: seq<Mark>, failed: seq<Mark>)
      requires index < slots.Length && slots[index].chain.Some?
      modifies slots
      ensures var chain := old(slots[index]).chain.value;
        && slots[..] == old(slots[..])[index :=
             old(slots[index]).(chain := Some(chain.(calls := HarvestEach(chain.calls, polls, shutdown))))]
        && accepted == AcceptedMarks(chain.calls, polls, |chain.calls|)
        && failed == FailedMarks(chain.calls, polls, shutdown, |chain.calls|)
    {
      var chain := slots[index].chain.value;
      var calls := chain.calls;
      accepted, failed := [], [];
      var i: nat := 0;
      while i < |calls|
        invariant slots[..] == old(slots[..])
        invariant i <= |calls| == |chain.calls|
        invariant forall k: nat :: k < |calls| ==>
          calls[k] == if k < i then HarvestCall(chain.calls[k], polls(k), shutdown) else chain.calls[k]
        invariant accepted == AcceptedMarks(chain.calls, polls, i)
        invariant failed == FailedMarks(chain.calls, polls, shutdown, i)
      {
        hide HarvestCall, NewlyAccepted, NewlyFailed;
        var n, a, f := HarvestOne(calls[i], polls(i), shutdown);
        calls := calls[i := n];
        accepted, failed := accepted + a, failed + f;
        i := i + 1;
      }
      assert calls == HarvestEach(chain.calls, polls, shutdown);
      slots[index] := slots[index].(chain := Some(chain.(calls := calls)));
      assert slots[..] == old(slots[..])[index := slots[index]];
    }

    method HarvestBroadcasts(index: nat, polls: nat -> Poll)
      requires index < slots.Length
      modifies slots, `sendStats, `sendOutcomes, `pendingTickChecks, `queuedTargetTicks
      ensures Became(old(slots[..]), old(View()), index, SlotRules.HarvestBroadcasts(old(slots[index]), polls))
    {
      if slots[index].chain.None? {
        return;
      }
      var shutdown := slots[index].state.Draining? && slots[index].state.reason.Shutdown?;
      var accepted, failed := HarvestEachCall(index, polls, shutdown);
      ReportAppend(View(), accepted, failed);
      ReportTargets(accepted);
      ReportTargets(failed);
    }

    // -------------------------------------------------------------- finishing and pruning

    method FinishDrain(index: nat)
      requires index < slots.Length
      modifies slots
      ensures slots[..] == old(slots[..])[index := SlotRules.FinishDrain(old(slots[index]))]
    {
      if !slots[index].state.Draining? || slots[index].chain.None? {
        return;
      }
      var terminal := TerminalState(slots[index].chain.value.calls);
      if terminal == Some(BroadcastState.Accepted) {
        CompleteDrain(index, DrainAccepted);
      } else if terminal == Some(BroadcastState.Failed) {
        CompleteDrain(index, DrainFailed);
      }
    }

    method FinishStatusRestart(index: nat, tick: nat)
      requires index < slots.Length
      modifies slots
      ensures slots[..] == old(slots[..])[index := SlotRules.FinishStatusRestart(old(slots[index]), tick)]
    {
      if !slots[index].state.Restarting? {
        return;
      }
      var state := slots[index].state;
      if tick < state.frozenTail {
        return;
      }
      slots[index] := slots[index].(chain := None);
      if state.drainReason.Some? {
        slots[index] := slots[index].(state := Drained(NothingToDrain));
      } else {
        slots[index] := slots[index].(state := Waiting(state.absenceAfter, state.absenceObserved));
      }
    }

    method PruneCalls(index: nat, tick: nat)
      requires index < slots.Length
      modifies slots
      ensures slots[..] == old(slots[..])[index := SlotRules.PruneCalls(old(slots[index]), tick)]
    {
      if slots[index].state.Draining? || slots[index].chain.None? {
        return;
      }
      var chain := slots[index].chain.value;
      var kept: seq<PlannedCall> := [];
      for i := 0 to |chain.calls|
        invariant slots[..] == old(slots[..])
        invariant kept == Retain(chain.calls[..i], chain.first, tick)
      {
        var c := chain.calls[i];
        assert chain.calls[..i + 1] == chain.calls[..i] + [c];
        RetainAppend(chain.calls[..i], c, chain.first, tick);
        if if c.target < chain.first then tick < c.target else tick <= c.target || !c.state.Accepted? {
          kept := kept + [c];
        }
      }
      assert chain.calls[..|chain.calls|] == chain.calls;
      slots[index] := slots[index].(chain := Some(chain.(calls := kept)));
      assert slots[..] == old(slots[..])[index := slots[index]];
    }

    // -------------------------------------------------------------- tick checks

    method ExpireTickChecks(tick: nat, now: nat)
      modifies `oldestTickCheck, `pendingTickChecks, `readyTickChecks, `queuedTargetTicks, `checkedTargetTicks, `tickCheck,
               `expiredTickChecks, `nextMonitorLogAt
      ensures View() == ExpireChecks(old(View()), tick, pace, now)
    {
      var oldest := Max(SaturatingSub(tick, SaturatingAdd(pace.delayTicks, TICK_CHECK_WINDOW)), oldestTickCheck);
      oldestTickCheck := oldest;
      var before := queuedTargetTicks;
      pendingTickChecks := From(pendingTickChecks, oldest);
      readyTickChecks := ReadyFrom(readyTickChecks, oldest);
      queuedTargetTicks := From(queuedTargetTicks, oldest);
      checkedTargetTicks := From(checkedTargetTicks, oldest);
      if tickCheck.Some? && tickCheck.value.target < oldest {
        tickCheck := None;
      }
      expiredTickChecks := Min(expiredTickChecks + |before - queuedTargetTicks|, U64_MAX);
      if expiredTickChecks != 0 && nextMonitorLogAt <= now {
        expiredTickChecks := 0;
        nextMonitorLogAt := now + MONITOR_LOG_INTERVAL;
      }
    }

    method HarvestTickCheck(poll: CheckPoll, now: nat)
      modifies `tickCheck, `queuedTargetTicks, `checkedTargetTicks, `readyTickChecks, `sendStats, `sendOutcomes
      ensures View() == HarvestCheck(old(View()), poll, now)
    {
      if tickCheck.None? || poll.CheckPending? {
        return;
      }
      var check := tickCheck.value;
      tickCheck := None;
      match poll
      case CheckDone(hasTransactions) =>
        queuedTargetTicks := queuedTargetTicks - {check.target};
        checkedTargetTicks := checkedTargetTicks + {check.target};
        if !hasTransactions {
          RecordSendOutcome(check.target, EmptyTick);
        }
      case CheckError =>
        readyTickChecks := readyTickChecks[ReadyKey(now + RetryDelay(check.failures), check.target) := SaturatingAdd(check.failures, 1)];
    }

    /** Moves waiting targets to the ready checks, oldest first, until one is too recent. */
    method PromoteChecks(tick: nat, now: nat)
      modifies `pendingTickChecks, `readyTickChecks, `queuedTargetTicks
      ensures View() == Promote(old(View()), tick, pace.delayTicks, now)
    {
      hide AllReady, SaturatingAdd;
      ghost var waiting, moved := pendingTickChecks, {};
      ghost var least := 0;
      ReadyGrows(readyTickChecks, {}, 0, now);
      while pendingTickChecks != {}
        invariant moved <= EligibleOf(waiting, tick, pace.delayTicks)
        invariant pendingTickChecks == waiting - moved && queuedTargetTicks == old(queuedTargetTicks) + moved
        invariant readyTickChecks == AllReady(old(readyTickChecks), moved, now)
        decreases pendingTickChecks
      {
        LeastExists(pendingTickChecks);
        var target :| IsLeast(target, pendingTickChecks);
        if tick < SaturatingAdd(target, pace.delayTicks) {
          least := target;
          break;
        }
        ReadyGrows(old(readyTickChecks), moved, target, now);
        pendingTickChecks := pendingTickChecks - {target};
        queuedTargetTicks := queuedTargetTicks + {target};
        readyTickChecks := readyTickChecks[ReadyKey(now, target) := 0];
        moved := moved + {target};
      }
      NoneEligible(waiting, moved, least, tick, pace.delayTicks);
    }

    method EnsureTickCheck(tick: nat, before: nat, now: nat)
      modifies `oldestTickCheck, `pendingTickChecks, `readyTickChecks, `queuedTargetTicks, `checkedTargetTicks, `tickCheck,
               `expiredTickChecks, `nextMonitorLogAt, `nextTickCheckAt
      ensures View() == EnsureCheck(old(View()), tick, pace, before, now)
    {
      hide ExpireChecks, Promote;
      ExpireTickChecks(tick, before);
      if tickCheck.Some? || now < nextTickCheckAt {
        return;
      }
      PromoteChecks(tick, now);
      if !(exists k :: k in readyTickChecks && k.at <= now) {
        return;
      }
      NewestExists(readyTickChecks, now);
      var key :| Newest(readyTickChecks, now, key);
      NewestIsUnique(readyTickChecks, now, key, NewestOf(readyTickChecks, now));
      var failures := readyTickChecks[key];
      readyTickChecks := readyTickChecks - {key};
      tickCheck := Some(Check(key.target, failures));
      nextTickCheckAt := now + pace.interval;
    }

    // -------------------------------------------------------------- the state as a run

    ghost predicate Matches(s: seq<ManagedSlot>, m: Monitor)
      reads `log, `monitorLog
    {
      |s| == |log| == STREAM_COUNT && IsRun(k12, startedAt, pace, log, monitorLog, s, m)
    }

    /** The whole state is reached by such a run, and a running query belongs to the current epoch. */
    ghost predicate Valid()
      reads this, slots
    {
      && Matches(slots[..], View())
      && (statusQuery.Some? ==> epochPhase.Some? && statusQuery.value.epoch == epochPhase.value.epoch)
    }

    constructor (k12: Hash, pace: Pace, resumeDelay: nat, tier: nat, now: nat)
      ensures Valid() && fresh(slots)
      ensures forall i: nat :: i < STREAM_COUNT ==> log[i] == []
      ensures epochPhase == None && this.k12 == k12 && this.pace == pace && this.resumeDelay == resumeDelay && this.tier == tier
    {
      this.k12, this.pace, this.resumeDelay, this.tier, startedAt := k12, pace, resumeDelay, tier, now;
      slots := new ManagedSlot[STREAM_COUNT](i requires 0 <= i < STREAM_COUNT => FreshSlot(i));
      statusQuery, nextStatusQueryAt, epochPhase := None, now, None;
      sendStats, sendOutcomes := SendStats(0, 0, 0), map[];
      pendingTickChecks, readyTickChecks, queuedTargetTicks, checkedTargetTicks := {}, map[], {}, {};
      tickCheck, nextTickCheckAt, oldestTickCheck, expiredTickChecks, nextMonitorLogAt := None, now, 0, 0, now;
      log, monitorLog := [[], [], []], [];
    }

    /** Records one step of a slot, with the marks it reported. */
    ghost method Note(index: nat, e: SlotEvent, s: seq<ManagedSlot>, m: Monitor)
      requires index < STREAM_COUNT && !e.EpochReset? && Matches(s, m) && |s| == STREAM_COUNT
      requires Became(s, m, index, StepSlot(k12, s[index], e))
      modifies `log, `monitorLog
      ensures Matches(slots[..], View()) && |old(log)| == STREAM_COUNT
      ensures log == old(log)[index := old(log)[index] + [e]] && OnlyMarks(old(monitorLog), monitorLog)
    {
      hide StepSlot, ReportAll;
      SlotStepIsRun(k12, startedAt, pace, log, monitorLog, s, m, index, e);
      log := log[index := log[index] + [e]];
      monitorLog := monitorLog + [Marked(StepSlot(k12, s[index], e).marks)];
      hide IsRun;
    }

    /** Records one step of the monitor alone. */
    ghost method NoteMonitor(e: MonitorEvent, m: Monitor)
      requires !e.Marked? && !e.Reset? && Matches(slots[..], m) && View() == StepMonitor(m, e, pace)
      modifies `monitorLog
      ensures Matches(slots[..], View()) && monitorLog == old(monitorLog) + [e]
    {
      hide StepMonitor, IsRun;
      MonitorStepIsRun(k12, startedAt, pace, log, monitorLog, slots[..], m, e);
      monitorLog := monitorLog + [e];
    }

    /** Records the epoch reset of the slots and of the monitor. */
    ghost method NoteReset(checkAt: nat, logAt: nat, s: seq<ManagedSlot>, m: Monitor)
      requires Matches(s, m) && View() == ResetMonitor(m, checkAt, logAt) && |s| == STREAM_COUNT
      requires slots[..] == [FreshSlot(s[0].stream), FreshSlot(s[1].stream), FreshSlot(s[2].stream)]
      modifies `log, `monitorLog
      ensures Matches(slots[..], View()) && monitorLog == old(monitorLog) + [MonitorEvent.Reset(checkAt, logAt)]
      ensures |old(log)| == STREAM_COUNT && forall i: nat :: i < STREAM_COUNT ==> log[i] == old(log[i]) + [EpochReset]
    {
      ResetIsRun(k12, startedAt, pace, log, monitorLog, s, m, checkAt, logAt);
      hide IsRun;
      log := [log[0] + [EpochReset], log[1] + [EpochReset], log[2] + [EpochReset]];
      monitorLog := monitorLog + [MonitorEvent.Reset(checkAt, logAt)];
    }

    // -------------------------------------------------------------- recorded steps

    method PollStep(index: nat, polls: nat -> Poll)
      requires Matches(slots[..], View()) && index < STREAM_COUNT
      modifies slots, `sendStats, `sendOutcomes, `pendingTickChecks, `queuedTargetTicks, `log, `monitorLog
      ensures Matches(slots[..], View()) && log == old(log)[index := old(log)[index] + [Polled(polls)]]
      ensures OnlyMarks(old(monitorLog), monitorLog)
    {
      ghost var s, m := slots[..], View();
      HarvestBroadcasts(index, polls);
      Note(index, Polled(polls), s, m);
    }

    method StatusStep(index: nat, o: Snapshot)
      requires Matches(slots[..], View()) && index < STREAM_COUNT
      modifies slots, `sendStats, `sendOutcomes, `pendingTickChecks, `queuedTargetTicks, `log, `monitorLog
      ensures Matches(slots[..], View()) && log == old(log)[index := old(log)[index] + [StatusSeen(o.requested, ObservedIn(tier, index, o.slots))]]
      ensures OnlyMarks(old(monitorLog), monitorLog)
    {
      ghost var s, m := slots[..], View();
      ApplyStatus(index, o);
      Note(index, StatusSeen(o.requested, ObservedIn(tier, index, o.slots)), s, m);
    }

    method DrainStep(index: nat, reason: DrainReason, signs: bool) returns (ok: bool)
      requires Matches(slots[..], View()) && index < STREAM_COUNT
      modifies slots, `log, `monitorLog
      ensures Matches(slots[..], View()) && ok == (SlotRules.EnterDrain(old(slots[index]), reason).Some?
                                                   && (signs || !old(slots[index].state.Live())))
      ensures forall j: nat :: j < STREAM_COUNT && j != index ==> slots[j] == old(slots[j])
      ensures log == if ok then old(log)[index := old(log)[index] + [DrainAsked(reason)]] else old(log)
      ensures OnlyMarks(old(monitorLog), monitorLog)
    {
      ghost var s, m := slots[..], View();
      ok := EnterDrain(index, reason, signs);
      if ok {
        Note(index, DrainAsked(reason), s, m);
      }
    }

    method StartStep(index: nat, tick: nat, preimage: Bits, signs: bool) returns (ok: bool)
      requires Matches(slots[..], View()) && index < STREAM_COUNT
      modifies slots, `log, `monitorLog
      ensures Matches(slots[..], View())
      ensures var n := SlotRules.StartIfReady(k12, old(slots[index]), tick, preimage);
        && ok == (n.Some? && (signs || !MayStart(old(slots[index].state))))
        && slots[..] == old(slots[..])[index := if ok then n.value else old(slots[index])]
      ensures log == if ok then old(log)[index := old(log)[index] + [StartAsked(tick, preimage)]] else old(log)
      ensures OnlyMarks(old(monitorLog), monitorLog)
    {
      ghost var s, m := slots[..], View();
      ok := StartIfReady(index, tick, preimage, signs);
      if ok {
        Note(index, StartAsked(tick, preimage), s, m);
      }
    }

    method ExtendStep(index: nat, tick: nat, draws: nat -> Option<Bits>) returns (ok: bool)
      requires Matches(slots[..], View()) && index < STREAM_COUNT
      modifies slots, `sendStats, `sendOutcomes, `pendingTickChecks, `queuedTargetTicks, `log, `monitorLog
      ensures Matches(slots[..], View()) && log == old(log)[index := old(log)[index] + [ExtendAsked(tick, draws)]]
      ensures ok == (SlotRules.ExtendChain(k12, old(slots[index]), tick, draws).Some?
                     && !SigningStopped(k12, old(slots[index]), tick, draws))
      ensures forall j: nat :: j < STREAM_COUNT && j != index ==> slots[j] == old(slots[j])
      ensures OnlyMarks(old(monitorLog), monitorLog)
    {
      ghost var s, m := slots[..], View();
      ok := ExtendChain(index, tick, draws);
      Note(index, ExtendAsked(tick, draws), s, m);
    }

    method ExpireStep(index: nat, tick: nat)
      requires Matches(slots[..], View()) && index < STREAM_COUNT
      modifies slots, `sendStats, `sendOutcomes, `pendingTickChecks, `queuedTargetTicks, `log, `monitorLog
      ensures Matches(slots[..], View()) && log == old(log)[index := old(log)[index] + [ExpiryDue(tick)]]
      ensures OnlyMarks(old(monitorLog), monitorLog)
    {
      ghost var s, m := slots[..], View();
      ExpireCalls(index, tick);
      Note(index, ExpiryDue(tick), s, m);
    }

    method DispatchStep(index: nat, tick: nat)
      requires Matches(slots[..], View()) && index < STREAM_COUNT
      modifies slots, `sendStats, `sendOutcomes, `pendingTickChecks, `queuedTargetTicks, `log, `monitorLog
      ensures Matches(slots[..], View()) && log == old(log)[index := old(log)[index] + [DispatchDue(tick)]]
      ensures OnlyMarks(old(monitorLog), monitorLog)
    {
      ghost var s, m := slots[..], View();
      DispatchCalls(index, tick);
      Note(index, DispatchDue(tick), s, m);
    }

    method FinishStep(index: nat)
      requires Matches(slots[..], View()) && index < STREAM_COUNT
      modifies slots, `log, `monitorLog
      ensures Matches(slots[..], View()) && log == old(log)[index := old(log)[index] + [DrainChecked]]
      ensures OnlyMarks(old(monitorLog), monitorLog)
    {
      ghost var s, m := slots[..], View();
      FinishDrain(index);
      Note(index, DrainChecked, s, m);
    }

    method RestartStep(index: nat, tick: nat)
      requires Matches(slots[..], View()) && index < STREAM_COUNT
      modifies slots, `log, `monitorLog
      ensures Matches(slots[..], View()) && log == old(log)[index := old(log)[index] + [RestartChecked(tick)]]
      ensures OnlyMarks(old(monitorLog), monitorLog)
    {
      ghost var s, m := slots[..], View();
      FinishStatusRestart(index, tick);
      Note(index, RestartChecked(tick), s, m);
    }

    method PruneStep(index: nat, tick: nat)
      requires Matches(slots[..], View()) && index < STREAM_COUNT
      modifies slots, `log, `monitorLog
      ensures Matches(slots[..], View()) && log == old(log)[index := old(log)[index] + [Pruned(tick)]]
      ensures OnlyMarks(old(monitorLog), monitorLog)
    {
      ghost var s, m := slots[..], View();
      PruneCalls(index, tick);
      Note(index, Pruned(tick), s, m);
    }

    // -------------------------------------------------------------- epoch and status query

    /** Forgets the monitored targets of the past epoch; the counters stay. */
    method ResetMonitoring(checkAt: nat, logAt: nat)
      modifies `sendOutcomes, `pendingTickChecks, `readyTickChecks, `queuedTargetTicks, `checkedTargetTicks, `tickCheck,
               `nextTickCheckAt, `oldestTickCheck, `expiredTickChecks, `nextMonitorLogAt
      ensures View() == ResetMonitor(old(View()), checkAt, logAt)
    {
      tickCheck := None;
      pendingTickChecks, readyTickChecks, queuedTargetTicks, checkedTargetTicks := {}, map[], {}, {};
      sendOutcomes := map[];
      nextTickCheckAt, nextMonitorLogAt := checkAt, logAt;
      oldestTickCheck, expiredTickChecks := 0, 0;
    }

    /** Starts every slot and the monitor over; the counters stay. The clock is read three times. */
    method ResetSlots(checkAt: nat, queryAt: nat, logAt: nat)
      requires Matches(slots[..], View())
      modifies slots, `sendOutcomes, `pendingTickChecks, `readyTickChecks, `queuedTargetTicks, `checkedTargetTicks, `tickCheck,
               `nextTickCheckAt, `oldestTickCheck, `expiredTickChecks, `nextMonitorLogAt, `monitorLog, `log, `statusQuery,
               `nextStatusQueryAt
      ensures Matches(slots[..], View()) && statusQuery.None? && nextStatusQueryAt == queryAt
      ensures View() == ResetMonitor(old(View()), checkAt, logAt)
      ensures forall i: nat :: i < STREAM_COUNT ==> slots[i] == FreshSlot(old(slots[i].stream))
      ensures forall i: nat :: i < STREAM_COUNT ==> log[i] == old(log[i]) + [EpochReset]
      ensures monitorLog == old(monitorLog) + [MonitorEvent.Reset(checkAt, logAt)]
    {
      hide IsRun, StepSlot, ReportAll;
      statusQuery, nextStatusQueryAt := None, queryAt;
      ResetMonitoring(checkAt, logAt);
      for index := 0 to STREAM_COUNT
        invariant forall i: nat :: i < STREAM_COUNT ==>
          slots[i] == if i < index then FreshSlot(old(slots[i].stream)) else old(slots[i])
        modifies slots
      {
        slots[index] := slots[index].(chain := None);
        slots[index] := slots[index].(state := Waiting(0, false));
        slots[index] := slots[index].(restartAt := 0);
      }
      NoteReset(checkAt, logAt, old(slots[..]), old(View()));
    }

    /** The monitor's part of an epoch change. */
    static function ResetEvents(phase: Option<EpochPhase>, info: TickInfo, checkAt: nat, logAt: nat): seq<MonitorEvent> {
      if NewEpoch(phase, info) then [MonitorEvent.Reset(checkAt, logAt)] else []
    }

    method UpdateEpochPhase(info: TickInfo, stopWindow: bool, checkAt: nat, queryAt: nat, logAt: nat)
      requires Valid()
      modifies slots, `sendOutcomes, `pendingTickChecks, `readyTickChecks, `queuedTargetTicks, `checkedTargetTicks, `tickCheck,
               `nextTickCheckAt, `oldestTickCheck, `expiredTickChecks, `nextMonitorLogAt, `monitorLog, `log, `statusQuery,
               `nextStatusQueryAt, `epochPhase
      ensures Valid() && epochPhase == Some(NextPhase(old(epochPhase), info, resumeDelay, stopWindow))
      ensures forall i: nat :: i < STREAM_COUNT ==> log[i] == old(log[i]) + ResetPart(old(epochPhase), info)
      ensures monitorLog == old(monitorLog) + ResetEvents(old(epochPhase), info, checkAt, logAt)
      ensures View() == if NewEpoch(old(epochPhase), info) then ResetMonitor(old(View()), checkAt, logAt) else old(View())
      ensures statusQuery == if NewEpoch(old(epochPhase), info) then None else old(statusQuery)
      ensures nextStatusQueryAt == if NewEpoch(old(epochPhase), info) then queryAt else old(nextStatusQueryAt)
    {
      hide IsRun, StepSlot, ReportAll;
      if epochPhase.None? || epochPhase.value.epoch != info.epoch {
        ResetSlots(checkAt, queryAt, logAt);
        epochPhase := Some(Warmup(info.epoch, SaturatingAdd(info.initialTick, resumeDelay)));
      }
      if epochPhase.value.Warmup? && epochPhase.value.readyTick <= info.tick {
        epochPhase := Some(Planning(info.epoch));
      }
      if epochPhase.value.Planning? && stopWindow {
        epochPhase := Some(Closing(info.epoch));
      }
    }

    method HarvestStatusQuery(poll: StatusPoll) returns (o: Option<Snapshot>)
      requires Valid()
      modifies `statusQuery
      ensures Valid()
      ensures o == if old(statusQuery).Some? && poll.StatusAnswer?
                   then Some(Snapshot(old(statusQuery).value.epoch, old(statusQuery).value.requested, poll.slots)) else None
      ensures statusQuery == if poll.StatusPending? then old(statusQuery) else None
    {
      if statusQuery.None? || poll.StatusPending? {
        return None;
      }
      var query := statusQuery.value;
      statusQuery := None;
      if poll.StatusAnswer? {
        return Some(Snapshot(query.epoch, query.requested, poll.slots));
      }
      return None;
    }

    method EnsureStatusQuery(epoch: nat, requested: nat, before: nat, now: nat)
      requires Valid() && epochPhase.Some? && epoch == epochPhase.value.epoch
      modifies `statusQuery, `nextStatusQueryAt
      ensures Valid()
      ensures if old(statusQuery).None? && old(nextStatusQueryAt) <= before
              then statusQuery == Some(StatusQuery(epoch, requested)) && nextStatusQueryAt == now + STATUS_QUERY_INTERVAL
              else statusQuery == old(statusQuery) && nextStatusQueryAt == old(nextStatusQueryAt)
    {
      if statusQuery.Some? || before < nextStatusQueryAt {
        return;
      }
      nextStatusQueryAt := now + STATUS_QUERY_INTERVAL;
      statusQuery := Some(StatusQuery(epoch, requested));
    }

    // -------------------------------------------------------------- the cycle

    method PollAll(polls: nat -> nat -> Poll)
      requires Valid()
      modifies slots, `sendStats, `sendOutcomes, `pendingTickChecks, `queuedTargetTicks, `log, `monitorLog
      ensures Valid() && OnlyMarks(old(monitorLog), monitorLog)
      ensures forall i: nat :: i < STREAM_COUNT ==> log[i] == old(log[i]) + [Polled(polls(i))]
    {
      hide OnlyMarks, IsRun, StepSlot, ReportAll;
      OnlyMarksSelf(monitorLog);
      for index := 0 to STREAM_COUNT
        invariant Valid() && OnlyMarks(old(monitorLog), monitorLog)
        invariant forall i: nat :: i < STREAM_COUNT ==> log[i] == old(log[i]) + (if i < index then [Polled(polls(i))] else [])
      {
        ghost var told := monitorLog;
        PollStep(index, polls(index));
        OnlyMarksJoin(old(monitorLog), told, monitorLog);
      }
    }

    method ApplyStatusAll(o: Snapshot)
      requires Valid()
      modifies slots, `sendStats, `sendOutcomes, `pendingTickChecks, `queuedTargetTicks, `log, `monitorLog
      ensures Valid() && OnlyMarks(old(monitorLog), monitorLog)
      ensures forall i: nat :: i < STREAM_COUNT ==> log[i] == old(log[i]) + StatusPart(tier, i, Some(o))
    {
      hide OnlyMarks, IsRun, StepSlot, ReportAll;
      OnlyMarksSelf(monitorLog);
      for index := 0 to STREAM_COUNT
        invariant Valid() && OnlyMarks(old(monitorLog), monitorLog)
        invariant forall i: nat :: i < STREAM_COUNT ==> log[i] == old(log[i]) + (if i < index then StatusPart(tier, i, Some(o)) else [])
      {
        ghost var told := monitorLog;
        StatusStep(index, o);
        OnlyMarksJoin(old(monitorLog), told, monitorLog);
      }
    }

    /** Asks every slot to drain; a refusal aborts the cycle. */
    method DrainAll(reason: DrainReason, signs: nat -> bool) returns (ok: bool)
      requires Valid()
      modifies slots, `log, `monitorLog
      ensures Valid() && OnlyMarks(old(monitorLog), monitorLog)
      ensures forall i: nat :: i < STREAM_COUNT ==> old(log[i]) <= log[i] <= old(log[i]) + [DrainAsked(reason)]
      ensures ok ==> forall i: nat :: i < STREAM_COUNT ==>
        log[i] == old(log[i]) + [DrainAsked(reason)] && DrainsFully(old(slots[i]), i, reason, signs)
    {
      hide OnlyMarks, IsRun, StepSlot, ReportAll;
      OnlyMarksSelf(monitorLog);
      for index := 0 to STREAM_COUNT
        invariant Valid() && OnlyMarks(old(monitorLog), monitorLog)
        invariant forall i: nat :: i < STREAM_COUNT ==> log[i] == old(log[i]) + (if i < index then [DrainAsked(reason)] else [])
        invariant forall i: nat :: i < STREAM_COUNT ==>
          if i < index then DrainsFully(old(slots[i]), i, reason, signs) else slots[i] == old(slots[i])
      {
        ghost var told := monitorLog;
        ok := DrainStep(index, reason, signs(index));
        OnlyMarksJoin(old(monitorLog), told, monitorLog);
        if !ok {
          return;
        }
      }
      ok := true;
    }

    method PlanSlot(index: nat, c: CycleInput) returns (ok: bool)
      requires Matches(slots[..], View()) && index < STREAM_COUNT
      modifies slots, `sendStats, `sendOutcomes, `pendingTickChecks, `queuedTargetTicks, `log, `monitorLog
      ensures Matches(slots[..], View()) && OnlyMarks(old(monitorLog), monitorLog)
      ensures var planned := [StartAsked(c.info.tick, c.starts(index)), ExtendAsked(c.info.tick, c.draws(index))];
        && old(log[index]) <= log[index] <= old(log[index]) + planned && log == old(log)[index := log[index]]
        && (ok ==> log[index] == old(log[index]) + planned)
      ensures ok ==> PlansFully(k12, old(slots[index]), index, c)
      ensures forall j: nat :: j < STREAM_COUNT && j != index ==> slots[j] == old(slots[j])
    {
      hide IsRun, StepSlot, ReportAll, SlotRules.StartIfReady, SlotRules.ExtendChain, SigningStopped;
      ok := StartStep(index, c.info.tick, c.starts(index), c.signs(index));
      if !ok {
        return;
      }
      ok := ExtendStep(index, c.info.tick, c.draws(index));
      assert log[index] == old(log)[index] + [StartAsked(c.info.tick, c.starts(index)), ExtendAsked(c.info.tick, c.draws(index))];
    }

    /** Starts and extends every slot in turn; a failure aborts the cycle. */
    method PlanAll(c: CycleInput) returns (ok: bool)
      requires Valid()
      modifies slots, `sendStats, `sendOutcomes, `pendingTickChecks, `queuedTargetTicks, `log, `monitorLog
      ensures Valid() && OnlyMarks(old(monitorLog), monitorLog)
      ensures forall i: nat :: i < STREAM_COUNT ==>
        old(log[i]) <= log[i] <= old(log[i]) + [StartAsked(c.info.tick, c.starts(i)), ExtendAsked(c.info.tick, c.draws(i))]
      ensures ok ==> forall i: nat :: i < STREAM_COUNT ==>
        log[i] == old(log[i]) + [StartAsked(c.info.tick, c.starts(i)), ExtendAsked(c.info.tick, c.draws(i))]
      ensures ok ==> forall i: nat :: i < STREAM_COUNT ==> PlansFully(k12, old(slots[i]), i, c)
    {
      hide OnlyMarks, IsRun, StepSlot, ReportAll, PlansFully;
      OnlyMarksSelf(monitorLog);
      for index := 0 to STREAM_COUNT
        invariant Valid() && OnlyMarks(old(monitorLog), monitorLog)
        invariant forall i: nat :: i < STREAM_COUNT ==>
          log[i] == old(log[i]) +
            (if i < index then [StartAsked(c.info.tick, c.starts(i)), ExtendAsked(c.info.tick, c.draws(i))] else [])
        invariant forall i: nat :: i < STREAM_COUNT ==>
          if i < index then PlansFully(k12, old(slots[i]), i, c) else slots[i] == old(slots[i])
      {
        ghost var told := monitorLog;
        ok := PlanSlot(index, c);
        OnlyMarksJoin(old(monitorLog), told, monitorLog);
        if !ok {
          return;
        }
      }
      ok := true;
    }

    method FinishSlot(index: nat, tick: nat)
      requires Matches(slots[..], View()) && index < STREAM_COUNT
      modifies slots, `log, `monitorLog
      ensures Matches(slots[..], View()) && OnlyMarks(old(monitorLog), monitorLog)
      ensures log == old(log)[index := old(log)[index] + [DrainChecked, RestartChecked(tick), Pruned(tick)]]
    {
      hide IsRun, StepSlot, ReportAll;
      FinishStep(index);
      RestartStep(index, tick);
      PruneStep(index, tick);
      assert log[index] == old(log)[index] + [DrainChecked, RestartChecked(tick), Pruned(tick)];
    }

    method ServiceSlot(index: nat, tick: nat)
      requires Matches(slots[..], View()) && index < STREAM_COUNT
      modifies slots, `sendStats, `sendOutcomes, `pendingTickChecks, `queuedTargetTicks, `log, `monitorLog
      ensures Matches(slots[..], View()) && OnlyMarks(old(monitorLog), monitorLog)
      ensures log == old(log)[index := old(log)[index] + Service(tick)]
    {
      hide IsRun, StepSlot, ReportAll;
      ExpireStep(index, tick);
      DispatchStep(index, tick);
      FinishSlot(index, tick);
      assert log[index] == old(log)[index] + Service(tick);
    }

    method ServiceAll(tick: nat)
      requires Valid()
      modifies slots, `sendStats, `sendOutcomes, `pendingTickChecks, `queuedTargetTicks, `log, `monitorLog
      ensures Valid() && OnlyMarks(old(monitorLog), monitorLog)
      ensures forall i: nat :: i < STREAM_COUNT ==> log[i] == old(log[i]) + Service(tick)
    {
      hide OnlyMarks, IsRun, StepSlot, ReportAll;
      OnlyMarksSelf(monitorLog);
      for index := 0 to STREAM_COUNT
        invariant Valid() && OnlyMarks(old(monitorLog), monitorLog)
        invariant forall i: nat :: i < STREAM_COUNT ==> log[i] == old(log[i]) + (if i < index then Service(tick) else [])
      {
        ghost var told := monitorLog;
        ServiceSlot(index, tick);
        OnlyMarksJoin(old(monitorLog), told, monitorLog);
      }
    }

    /** Everything one completed cycle does to the monitor after the slots. */
    static function CheckEvents(c: CycleInput, closing: bool): seq<MonitorEvent> {
      [Expiry(c.info.tick, c.clock(5)), Harvest(c.checkPoll, c.clock(6))]
        + (if closing then [] else [Ensure(c.info.tick, c.clock(7), c.clock(8))])
    }

    method ExpiryStep(tick: nat, now: nat)
      requires Matches(slots[..], View())
      modifies `oldestTickCheck, `pendingTickChecks, `readyTickChecks, `queuedTargetTicks, `checkedTargetTicks, `tickCheck,
               `expiredTickChecks, `nextMonitorLogAt, `nextTickCheckAt, `sendStats, `sendOutcomes, `monitorLog
      ensures Matches(slots[..], View()) && monitorLog == old(monitorLog) + [Expiry(tick, now)]
    {
      ghost var m := View();
      ExpireTickChecks(tick, now);
      NoteMonitor(Expiry(tick, now), m);
    }

    method HarvestStep(poll: CheckPoll, now: nat)
      requires Matches(slots[..], View())
      modifies `oldestTickCheck, `pendingTickChecks, `readyTickChecks, `queuedTargetTicks, `checkedTargetTicks, `tickCheck,
               `expiredTickChecks, `nextMonitorLogAt, `nextTickCheckAt, `sendStats, `sendOutcomes, `monitorLog
      ensures Matches(slots[..], View()) && monitorLog == old(monitorLog) + [Harvest(poll, now)]
    {
      ghost var m := View();
      HarvestTickCheck(poll, now);
      NoteMonitor(Harvest(poll, now), m);
    }

    method EnsureStep(tick: nat, before: nat, now: nat)
      requires Matches(slots[..], View())
      modifies `oldestTickCheck, `pendingTickChecks, `readyTickChecks, `queuedTargetTicks, `checkedTargetTicks, `tickCheck,
               `expiredTickChecks, `nextMonitorLogAt, `nextTickCheckAt, `sendStats, `sendOutcomes, `monitorLog
      ensures Matches(slots[..], View()) && monitorLog == old(monitorLog) + [Ensure(tick, before, now)]
    {
      ghost var m := View();
      EnsureTickCheck(tick, before, now);
      NoteMonitor(Ensure(tick, before, now), m);
    }

    method CheckTicks(c: CycleInput, closing: bool)
      requires Valid()
      modifies `oldestTickCheck, `pendingTickChecks, `readyTickChecks, `queuedTargetTicks, `checkedTargetTicks, `tickCheck,
               `expiredTickChecks, `nextMonitorLogAt, `nextTickCheckAt, `sendStats, `sendOutcomes, `monitorLog
      ensures Valid() && monitorLog == old(monitorLog) + CheckEvents(c, closing)
    {
      hide IsRun, StepSlot, ReportAll;
      ExpiryStep(c.info.tick, c.clock(5));
      HarvestStep(c.checkPoll, c.clock(6));
      if !closing {
        EnsureStep(c.info.tick, c.clock(7), c.clock(8));
      }
    }

    /** Drains, plans or leaves the slots alone, as the phase demands. */
    method PlanOrDrain(c: CycleInput) returns (ok: bool)
      requires Valid() && epochPhase.Some?
      modifies slots, `sendStats, `sendOutcomes, `pendingTickChecks, `queuedTargetTicks, `log, `monitorLog
      ensures Valid() && OnlyMarks(old(monitorLog), monitorLog)
      ensures forall i: nat :: i < STREAM_COUNT ==>
        old(log[i]) <= log[i] <= old(log[i]) + PlanPart(i, epochPhase.value, c)
      ensures ok ==> forall i: nat :: i < STREAM_COUNT ==>
        log[i] == old(log[i]) + PlanPart(i, epochPhase.value, c) && PlansWell(k12, old(slots[i]), i, epochPhase.value, c)
    {
      hide IsRun, StepSlot, ReportAll, PlansFully, DrainsFully;
      if c.shuttingDown || epochPhase.value.Closing? {
        ok := DrainAll(if c.shuttingDown then Shutdown else EpochEnd, c.signs);
      } else if epochPhase.value.Planning? {
        ok := PlanAll(c);
      } else {
        ok := true;
      }
    }

    function Watching(): Watch
      reads `epochPhase, `statusQuery, `nextStatusQueryAt
    {
      Watch(epochPhase, statusQuery, nextStatusQueryAt)
    }

    method ObserveAll(c: CycleInput)
      requires Valid()
      modifies slots, this
      ensures Valid() && Watching() == WatchAfter(old(Watching()), resumeDelay, c, false)
      ensures OnlyMarks(old(monitorLog) + ResetEvents(old(epochPhase), c.info, c.clock(0), c.clock(2)), monitorLog)
      ensures forall i: nat :: i < STREAM_COUNT ==> log[i] == old(log[i]) + ObserveEvents(tier, i, old(Watching()), c)
    {
      hide OnlyMarks, IsRun, StepSlot, ReportAll;
      UpdateEpochPhase(c.info, c.stopWindow, c.clock(0), c.clock(1), c.clock(2));
      ghost var start := monitorLog;
      var o := HarvestStatusQuery(c.status);
      PollAll(c.polls);
      if o.Some? && o.value.epoch == c.info.epoch {
        ghost var told := monitorLog;
        ApplyStatusAll(o.value);
        OnlyMarksJoin(start, told, monitorLog);
      }
    }

    static lemma Joined(l0: seq<SlotEvent>, l1: seq<SlotEvent>, l2: seq<SlotEvent>, a: seq<SlotEvent>, b: seq<SlotEvent>,
                        c: seq<SlotEvent>)
      requires l1 == l0 + a && l2 == l1 + b
      ensures l2 + c == l0 + (a + b + c)
    {
    }

    /** The slot as it is when a cycle begins to plan. */
    ghost function Observed(i: nat, past: seq<SlotEvent>, w: Watch, c: CycleInput): ManagedSlot {
      RunSlot(k12, Begin(i), past + ObserveEvents(tier, i, w, c)).slot
    }

    /** The part of a cycle that concerns the slots. */
    method CycleSlots(c: CycleInput) returns (ok: bool)
      requires Valid()
      modifies slots, this
      ensures Valid() && Watching() == WatchAfter(old(Watching()), resumeDelay, c, false)
      ensures OnlyMarks(old(monitorLog) + ResetEvents(old(epochPhase), c.info, c.clock(0), c.clock(2)), monitorLog)
      ensures forall i: nat :: i < STREAM_COUNT ==>
        CycleDid(old(log[i]), log[i], tier, resumeDelay, i, old(Watching()), c, ok)
      ensures ok ==> forall i: nat :: i < STREAM_COUNT ==>
        PlansWell(k12, Observed(i, old(log[i]), old(Watching()), c), i, epochPhase.value, c)
    {
      hide OnlyMarks, IsRun, StepSlot, ReportAll, PlansWell;
      ghost var w := Watching();
      ghost var start := monitorLog + ResetEvents(w.phase, c.info, c.clock(0), c.clock(2));
      ObserveAll(c);
      ghost var l1, told, seen := log, monitorLog, slots[..];
      SlotsAreRuns();
      ok := PlanOrDrain(c);
      OnlyMarksJoin(start, told, monitorLog);
      ghost var l2 := log;
      hide Matches, Service, PlanPart, NextPhase, ObserveEvents;
      if ok {
        ghost var after := monitorLog;
        ServiceAll(c.info.tick);
        OnlyMarksJoin(start, after, monitorLog);
        forall i: nat | i < STREAM_COUNT
          ensures log[i] == old(log[i]) + CycleEvents(tier, resumeDelay, i, w, c)
        {
          Joined(old(log[i]), l1[i], l2[i], ObserveEvents(tier, i, w, c),
                 PlanPart(i, NextPhase(w.phase, c.info, resumeDelay, c.stopWindow), c), Service(c.info.tick));
        }
      }
    }

    lemma SlotsAreRuns()
      requires Matches(slots[..], View())
      ensures forall i: nat :: i < STREAM_COUNT ==> slots[i] == RunSlot(k12, Begin(i), log[i]).slot
    {
      hide RunSlot;
      assert forall i: nat :: i < STREAM_COUNT ==> slots[i] == slots[..][i];
    }

    /** A completed closing cycle drains slot `i` by the deadline of the state it finds; at or
        after that tick the slot is drained when the cycle ends. Asked to shut down, a slot not yet
        in an epoch's drain is in a shutdown drain until it is drained. */
    lemma ClosingCycleDrains(h: Trace, i: nat, w: Watch, c: CycleInput)
      requires SlotOk(h.slot) && ClosingNow(w.phase, resumeDelay, c)
      ensures var m := RunSlot(k12, h, ObserveEvents(tier, i, w, c)).slot;
        var n := RunSlot(k12, h, CycleEvents(tier, resumeDelay, i, w, c)).slot;
        SlotRules.EnterDrain(m, if c.shuttingDown then Shutdown else EpochEnd).Some? ==>
          && DrainsBy(n, DrainDue(m)) && (DrainDue(m) <= c.info.tick ==> n.state.Drained?)
          && (c.shuttingDown && !m.state.Draining? ==> ShutdownKept(n))
    {
      RequestAndService(k12, h, ObserveEvents(tier, i, w, c), if c.shuttingDown then Shutdown else EpochEnd, c.info.tick);
    }

    /** One cycle. A failed tick query changes nothing; a refused drain, start or extension ends
        the cycle before any slot is serviced; otherwise it does all of it, everything it planned
        was signed, and it leaves the status query it made for its tick. The monitor is reset
        first, exactly when the epoch changes, then told the slots' outcomes, and its checks come
        last. */
    method Cycle(c: CycleInput, tickKnown: bool) returns (ok: bool)
      requires Valid()
      modifies slots, this
      ensures Valid()
      ensures !tickKnown ==> !ok && log == old(log) && monitorLog == old(monitorLog) && Watching() == old(Watching())
      ensures tickKnown ==> Watching() == WatchAfter(old(Watching()), resumeDelay, c, ok)
      ensures tickKnown ==> forall i: nat :: i < STREAM_COUNT ==>
        CycleDid(old(log[i]), log[i], tier, resumeDelay, i, old(Watching()), c, ok)
      ensures ok ==> forall i: nat :: i < STREAM_COUNT ==>
        PlansWell(k12, Observed(i, old(log[i]), old(Watching()), c), i, epochPhase.value, c)
      ensures tickKnown ==> CycleLogged(old(monitorLog), monitorLog, ResetEvents(old(epochPhase), c.info, c.clock(0), c.clock(2)),
                                        if ok then CheckEvents(c, ClosingNow(old(epochPhase), resumeDelay, c)) else [])
    {
      hide Matches, CycleLogged, OnlyMarks, CycleDid, PlansWell, CheckEvents, ResetEvents, Observed;
      if !tickKnown {
        return false;
      }
      ghost var before, phase := monitorLog, epochPhase;
      ok := CycleSlots(c);
      CycleIsLogged(before, monitorLog, ResetEvents(phase, c.info, c.clock(0), c.clock(2)),
                    CheckEvents(c, ClosingNow(phase, resumeDelay, c)));
      if ok {
        EnsureStatusQuery(c.info.epoch, c.info.tick, c.clock(3), c.clock(4));
        CheckTicks(c, c.shuttingDown || epochPhase.value.Closing?);
      }
    }

    // -------------------------------------------------------------- shutdown

    predicate ShutdownComplete()
      reads slots
    {
      forall i :: 0 <= i < slots.Length ==> slots[i].state.Drained?
    }

    predicate ShutdownFailed()
      reads slots
    {
      exists i :: 0 <= i < slots.Length && slots[i].state == Drained(DrainFailed)
    }
  }
}
