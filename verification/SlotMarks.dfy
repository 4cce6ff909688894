/** Financial failures over all runs: however a chain ends, at most one of its targets is
    reported as failed. */
module SlotMarks {
  import opened Basics
  import opened SlotRules
  import opened SlotRuns
  import opened SlotShape
  import opened SlotSends
  import opened SlotFreeze

  function LastCall(calls: seq<PlannedCall>): PlannedCall
    requires calls != []
  {
    calls[|calls| - 1]
  }

  /** A terminal call that is no longer ready had its prerequisites accepted, and a shutdown
      drain never leaves it for a retry. */
  ghost predicate Gated(slot: ManagedSlot) {
    slot.state.Draining? && slot.chain.Some? ==>
      var calls := slot.chain.value.calls;
      && calls != []
      && (!LastCall(calls).state.Ready? ==>
            PrerequisitesAccepted(calls, slot.chain.value.first, slot.state.terminalTarget))
      && (ShutdownDrain(slot.state) ==> !LastCall(calls).state.Retry?)
  }

  /** No further failure can be reported for the chain. */
  ghost predicate FailedForGood(slot: ManagedSlot) {
    && !slot.state.Live()
    && (slot.state.Draining? ==>
          slot.chain.Some? && slot.chain.value.calls != [] && LastCall(slot.chain.value.calls).state.Failed?)
  }

  ghost predicate Spent(slot: ManagedSlot, failures: nat) {
    && SlotOk(slot) && Gated(slot)
    && (failures == 0 || (failures == 1 && FailedForGood(slot)))
  }

  // ---------------------------------------------------------------- counting marks

  lemma {:induction false} FailuresAppend(a: seq<Mark>, b: seq<Mark>)
    ensures Failures(a + b) == Failures(a) + Failures(b)
  {
    if a == [] {
      assert a + b == b;
    } else {
      assert (a + b)[1..] == a[1..] + b;
      FailuresAppend(a[1..], b);
    }
  }

  lemma {:induction false} AcceptedAreNotFailures(calls: seq<PlannedCall>, polls: nat -> Poll, n: nat)
    requires n <= |calls|
    ensures Failures(AcceptedMarks(calls, polls, n)) == 0
  {
    if n > 0 {
      AcceptedAreNotFailures(calls, polls, n - 1);
      var c := calls[n - 1];
      FailuresAppend(AcceptedMarks(calls, polls, n - 1),
                     if NewlyAccepted(c, polls(n - 1)) && c.kind.RevealCommit? then [Success(c.target)] else []);
    }
  }

  lemma {:induction false} NoEarlyFailures(calls: seq<PlannedCall>, polls: nat -> Poll, shutdown: bool, n: nat)
    requires n <= |calls|
    requires forall i :: 0 <= i < n ==> !NewlyFailed(calls[i], polls(i), shutdown)
    ensures FailedMarks(calls, polls, shutdown, n) == []
  {
    if n > 0 { NoEarlyFailures(calls, polls, shutdown, n - 1); }
  }

  /** Polling reports a failure exactly when the terminal call of a shutdown drain fails. */
  lemma PollFailures(slot: ManagedSlot, polls: nat -> Poll)
    requires SlotOk(slot) && slot.chain.Some?
    ensures var calls := slot.chain.value.calls;
      Failures(HarvestBroadcasts(slot, polls).marks) ==
        if calls != [] && NewlyFailed(LastCall(calls), polls(|calls| - 1), ShutdownDrain(slot.state)) then 1 else 0
  {
    var calls, shutdown := slot.chain.value.calls, ShutdownDrain(slot.state);
    AcceptedAreNotFailures(calls, polls, |calls|);
    FailuresAppend(AcceptedMarks(calls, polls, |calls|), FailedMarks(calls, polls, shutdown, |calls|));
    if calls != [] {
      forall i | 0 <= i < |calls| - 1 ensures !calls[i].kind.TerminalReveal? {
        assert calls[i].target < calls[|calls| - 1].target;
      }
      NoEarlyFailures(calls, polls, shutdown, |calls| - 1);
    }
  }

  // ---------------------------------------------------------------- step by step

  lemma PollSpends(slot: ManagedSlot, failures: nat, polls: nat -> Poll)
    requires Spent(slot, failures)
    ensures var o := HarvestBroadcasts(slot, polls); Spent(o.slot, failures + Failures(o.marks))
  {
    if slot.chain.Some? {
      var calls, shutdown := slot.chain.value.calls, ShutdownDrain(slot.state);
      var n := HarvestEach(calls, polls, shutdown);
      HarvestKeeps(slot, polls);
      PollFailures(slot, polls);
      HarvestEachOk(calls, slot.stream, polls, shutdown);
      if slot.state.Draining? {
        assert CallOk(LastCall(calls), slot.stream) && LastCall(n) == HarvestCall(LastCall(calls), polls(|calls| - 1), shutdown);
        if !LastCall(n).state.Ready? {
          AcceptedStays(calls, n, slot.chain.value.first, slot.state.terminalTarget);
        }
      }
      hide SlotOk, HarvestEach, NewlyAccepted;
    }
  }

  lemma EvidenceFails(slot: ManagedSlot, e: Evidence, requested: nat)
    requires SlotOk(slot) && slot.state.Live()
    ensures var o := ObserveEvidence(slot, e, requested);
      !o.slot.state.Draining? && (o.marks == [] || (Failures(o.marks) == 1 && !o.slot.state.Live()))
  {
    var o := ObserveEvidence(slot, e, requested);
    if o.marks != [] { assert Failures(o.marks[1..]) == 0; }
    hide ChainOk;
  }

  lemma StatusFails(slot: ManagedSlot, requested: nat, observed: Option<nat>)
    requires SlotOk(slot)
    ensures var o := ApplyStatus(slot, requested, observed);
      && (o.marks == [] || (Failures(o.marks) == 1 && !o.slot.state.Live()))
      && (!slot.state.Live() ==> o.marks == [] && !o.slot.state.Live())
      && (o.slot.state.Draining? ==> o.slot == slot)
  {
    if slot.state.Live() {
      var active := slot.(state := Active);
      EvidenceFails(slot, if observed.Some? then Foreign(observed.value) else Absent, requested);
      if observed.Some? {
        EvidenceFails(active, Lag(observed.value + STREAM_COUNT), requested);
        EvidenceFails(active.(chain := Some(slot.chain.value.(confirmed := observed, suspicion := None))),
                      Lag(observed.value + STREAM_COUNT), requested);
      }
    }
    hide ObserveEvidence, ChainOk;
  }

  lemma StatusSpends(slot: ManagedSlot, failures: nat, requested: nat, observed: Option<nat>)
    requires Spent(slot, failures)
    ensures var o := ApplyStatus(slot, requested, observed); Spent(o.slot, failures + Failures(o.marks))
  {
    StatusFails(slot, requested, observed);
    StatusKeeps(slot, requested, observed);
    hide ApplyStatus, SlotOk;
  }

  /** Once the prerequisites are accepted and the terminal call failed, nothing expires. */
  lemma NothingLeftToExpire(slot: ManagedSlot, tick: nat)
    requires SlotOk(slot) && Gated(slot) && slot.state.Draining? && LastCall(CallsOf(slot)).state.Failed?
    ensures !AnyExpires(CallsOf(slot), slot.chain.value.first, tick)
  {
    var calls := CallsOf(slot);
    forall i | 0 <= i < |calls| ensures !Expires(calls[i], slot.chain.value.first, tick) {
      if i < |calls| - 1 { assert calls[i].target < calls[|calls| - 1].target; }
    }
  }

  lemma ExpireSpends(slot: ManagedSlot, failures: nat, tick: nat)
    requires Spent(slot, failures)
    ensures var o := ExpireCalls(slot, tick); Spent(o.slot, failures + Failures(o.marks))
    ensures var o := ExpireCalls(slot, tick); o.marks != [] ==> !o.slot.state.Live() && Failures(o.marks) == 1
    ensures slot.state.Live() ==> !ExpireCalls(slot, tick).slot.state.Draining?
  {
    ExpireKeeps(slot, tick);
    if slot.chain.Some? {
      var calls := slot.chain.value.calls;
      ExpireEachOk(calls, slot.stream, tick);
      if slot.state.Draining? {
        if LastCall(calls).state.Failed? { NothingLeftToExpire(slot, tick); }
        if !LastCall(calls).state.Ready? {
          AcceptedStays(calls, ExpireEach(calls, tick), slot.chain.value.first, slot.state.terminalTarget);
        } else if LastCall(calls).target <= tick {
          assert Expires(calls[|calls| - 1], slot.chain.value.first, tick);
        }
      }
    }
    hide SlotOk, AnyExpires, FirstExpiredNormal, AttemptedTerminal, PrerequisitesAccepted;
  }

  lemma {:induction false} NoGiveUp(calls: seq<PlannedCall>, x: Context)
    requires forall i :: 0 <= i < |calls| ==> !Decide(calls[i], x).GiveUp?
    ensures LastGivenUp(calls, x).None?
  {
    if calls != [] { NoGiveUp(calls[..|calls| - 1], x); }
  }

  /** The dispatcher's give-up branch is never taken: polling already failed the call. */
  lemma NothingIsGivenUp(slot: ManagedSlot, tick: nat)
    requires SlotOk(slot) && Gated(slot) && slot.chain.Some?
    ensures LastGivenUp(CallsOf(slot), ContextOf(slot, tick)).None?
  {
    var calls, x := CallsOf(slot), ContextOf(slot, tick);
    forall i | 0 <= i < |calls| ensures !Decide(calls[i], x).GiveUp? {
      if i < |calls| - 1 { assert calls[i].target < calls[|calls| - 1].target; }
    }
    NoGiveUp(calls, x);
  }

  lemma DispatchSpends(slot: ManagedSlot, failures: nat, tick: nat)
    requires Spent(slot, failures)
    ensures var o := DispatchCalls(slot, tick); Spent(o.slot, failures + Failures(o.marks)) && o.marks == []
  {
    DispatchKeeps(slot, tick);
    if slot.chain.Some? {
      var calls, x := slot.chain.value.calls, ContextOf(slot, tick);
      var n := DispatchEach(calls, x);
      NothingIsGivenUp(slot, tick);
      DispatchEachOk(calls, slot.stream, x);
      if slot.state.Draining? {
        assert CallOk(LastCall(calls), slot.stream) && LastCall(n) == Dispatched(LastCall(calls), x);
        if !LastCall(n).state.Ready? {
          AcceptedStays(calls, n, slot.chain.value.first, slot.state.terminalTarget);
        }
      }
    }
    hide SlotOk, LastGivenUp, DispatchEach;
  }

  lemma DrainSpends(k12: Hash, slot: ManagedSlot, failures: nat, reason: DrainReason)
    requires Spent(slot, failures)
    ensures Spent(StepSlot(k12, slot, DrainAsked(reason)).slot, failures)
  {
    DrainKeeps(k12, slot, reason);
    hide SlotOk;
  }

  lemma ExtendSpends(k12: Hash, slot: ManagedSlot, failures: nat, tick: nat, draws: nat -> Option<Bits>)
    requires Spent(slot, failures)
    ensures var o := StepSlot(k12, slot, ExtendAsked(tick, draws)); Spent(o.slot, failures + Failures(o.marks))
  {
    ExtendKeeps(k12, slot, tick, draws);
    ExpireSpends(slot, failures, tick);
    assert slot.state.Live() ==> slot.chain.Some?;
    hide SlotOk, ExpireCalls, ExtendTo;
    if slot.state.Live() && Missed(slot, tick) {
      var e := ExpireCalls(slot, tick);
      FailuresAppend(e.marks, [Failure(slot.chain.value.last + STREAM_COUNT)]);
    }
  }

  lemma PlainSpends(k12: Hash, slot: ManagedSlot, failures: nat, e: SlotEvent)
    requires Spent(slot, failures) && (e.DrainChecked? || e.RestartChecked? || e.Pruned? || e.StartAsked?)
    requires !Started(k12, slot, e)
    ensures var o := StepSlot(k12, slot, e); Spent(o.slot, failures) && o.marks == []
  {
    StepKeepsShape(k12, slot, e);
    hide SlotOk;
  }

  lemma StepSpends(k12: Hash, h: Trace, e: SlotEvent)
    requires Spent(h.slot, h.failures)
    ensures var n := Next(k12, h, e); Spent(n.slot, n.failures)
  {
    hide Spent, HarvestBroadcasts, ApplyStatus, EnterDrain, StartIfReady, ExtendChain, ExpireCalls, DispatchCalls, FinishDrain,
         FinishStatusRestart, PruneCalls, NewlySigned, NewlySent, AcceptedBy, NextStreak;
    match e
    case EpochReset => BeginSpends(h.slot, h.failures);
    case Polled(polls) => PollSpends(h.slot, h.failures, polls);
    case StatusSeen(requested, observed) => StatusSpends(h.slot, h.failures, requested, observed);
    case DrainAsked(reason) => DrainSpends(k12, h.slot, h.failures, reason);
    case StartAsked(tick, preimage) =>
      if Started(k12, h.slot, e) { StartSpends(k12, h.slot, h.failures, e); } else { PlainSpends(k12, h.slot, h.failures, e); }
    case ExtendAsked(tick, draws) => ExtendSpends(k12, h.slot, h.failures, tick, draws);
    case ExpiryDue(tick) => ExpireSpends(h.slot, h.failures, tick);
    case DispatchDue(tick) => DispatchSpends(h.slot, h.failures, tick);
    case _ => PlainSpends(k12, h.slot, h.failures, e);
  }

  lemma BeginSpends(slot: ManagedSlot, failures: nat)
    requires Spent(slot, failures)
    ensures Spent(FreshSlot(slot.stream), 0)
  {
  }

  lemma StartSpends(k12: Hash, slot: ManagedSlot, failures: nat, e: SlotEvent)
    requires Spent(slot, failures) && Started(k12, slot, e)
    ensures Spent(StepSlot(k12, slot, e).slot, 0)
  {
    StepKeepsShape(k12, slot, e);
    hide SlotOk;
  }

  lemma {:induction false} RunSpends(k12: Hash, h: Trace, events: seq<SlotEvent>)
    requires Spent(h.slot, h.failures)
    ensures var n := RunSlot(k12, h, events); Spent(n.slot, n.failures)
    decreases |events|
  {
    if events != [] {
      StepSpends(k12, h, events[0]);
      RunSpends(k12, Next(k12, h, events[0]), events[1..]);
    }
  }

  /** Over every run: each chain reports at most one financial failure, across expiry, a status
      freeze, a missed continuation and a failed terminal reveal; a live chain none yet. The
      dispatcher itself never reports one. */
  lemma ChainFailsAtMostOnce(k12: Hash, stream: nat, events: seq<SlotEvent>)
    requires stream < STREAM_COUNT
    ensures var h := RunSlot(k12, Begin(stream), events);
      && h.failures <= 1
      && (h.slot.state.Live() ==> h.failures == 0)
      && forall tick :: DispatchCalls(h.slot, tick).marks == []
  {
    RunSpends(k12, Begin(stream), events);
    var h := RunSlot(k12, Begin(stream), events);
    forall tick: nat ensures DispatchCalls(h.slot, tick).marks == [] { DispatchSpends(h.slot, h.failures, tick); }
  }

  // ---------------------------------------------------------------- failures of an epoch

  /** Without a chain nothing is reported. */
  lemma NoChainNoMarks(k12: Hash, slot: ManagedSlot, e: SlotEvent)
    requires SlotOk(slot) && slot.chain.None?
    ensures var o := StepSlot(k12, slot, e); o.marks == [] && (o.slot.chain.Some? ==> Started(k12, slot, e))
  {
  }

  /** Each chain start but the latest accounts for at most one failure, the latest for those
      counted since. */
  ghost predicate Accounted(h: Trace) {
    if h.starts == 0 then h.slot.chain.None? && h.failures == 0 && Failures(h.marks) == 0
    else Failures(h.marks) + 1 <= h.starts + h.failures
  }

  lemma StepAccounts(k12: Hash, h: Trace, e: SlotEvent)
    requires Spent(h.slot, h.failures) && Accounted(h)
    ensures Accounted(Next(k12, h, e))
  {
    if !e.EpochReset? {
      var o := StepSlot(k12, h.slot, e);
      FailuresAppend(h.marks, o.marks);
      SpentIsOk(h.slot, h.failures);
      if h.slot.chain.None? { NoChainNoMarks(k12, h.slot, e); }
      if Started(k12, h.slot, e) { assert o.marks == []; }
      hide StepSlot, NewlySigned, NewlySent, AcceptedBy, NextStreak;
    }
  }

  lemma {:induction false} RunAccounts(k12: Hash, h: Trace, events: seq<SlotEvent>)
    requires Spent(h.slot, h.failures) && Accounted(h)
    ensures var n := RunSlot(k12, h, events); Spent(n.slot, n.failures) && Accounted(n)
    decreases |events|
  {
    if events != [] {
      StepSpends(k12, h, events[0]);
      StepAccounts(k12, h, events[0]);
      RunAccounts(k12, Next(k12, h, events[0]), events[1..]);
    }
  }

  function FailedTargets(marks: seq<Mark>): set<nat> { set m | m in marks && m.Failure? :: m.target }

  lemma {:induction false} FailedTargetsBound(marks: seq<Mark>)
    ensures |FailedTargets(marks)| <= Failures(marks)
  {
    if marks == [] {
      assert FailedTargets(marks) == {};
    } else {
      FailedTargetsBound(marks[1..]);
      assert forall m :: m in marks <==> m == marks[0] || m in marks[1..];
      assert FailedTargets(marks) == FailedTargets(marks[1..]) + (if marks[0].Failure? then {marks[0].target} else {});
    }
  }

  /** Over every run: at most as many targets are reported as failed in an epoch as chains were
      started in it. */
  lemma EpochFailuresAreBounded(k12: Hash, stream: nat, events: seq<SlotEvent>)
    requires stream < STREAM_COUNT
    ensures var h := RunSlot(k12, Begin(stream), events); |FailedTargets(h.marks)| <= Failures(h.marks) <= h.starts
  {
    RunAccounts(k12, Begin(stream), events);
    FailedTargetsBound(RunSlot(k12, Begin(stream), events).marks);
  }

  // ---------------------------------------------------------------- what a mark names

  /** A failure names a target of the chain or the one right after its tail; a success names an
      accepted reveal among the planned calls. */
  ghost predicate MarkOk(slot: ManagedSlot, m: Mark) {
    && slot.chain.Some?
    && match m
       case Failure(t) => slot.chain.value.first <= t <= slot.chain.value.last + STREAM_COUNT
       case Success(t) => exists i :: 0 <= i < |CallsOf(slot)| && CallsOf(slot)[i].target == t && CallsOf(slot)[i].kind.RevealCommit?
  }

  lemma {:induction false} AcceptedMarkIs(calls: seq<PlannedCall>, polls: nat -> Poll, n: nat, m: Mark)
    requires n <= |calls| && m in AcceptedMarks(calls, polls, n)
    ensures m.Success? && exists i :: 0 <= i < n && calls[i].target == m.target && calls[i].kind.RevealCommit?
                                      && NewlyAccepted(calls[i], polls(i))
  {
    if m in AcceptedMarks(calls, polls, n - 1) { AcceptedMarkIs(calls, polls, n - 1, m); }
  }

  lemma {:induction false} FailedMarkIs(calls: seq<PlannedCall>, polls: nat -> Poll, shutdown: bool, n: nat, m: Mark)
    requires n <= |calls| && m in FailedMarks(calls, polls, shutdown, n)
    ensures m.Failure? && exists i :: 0 <= i < n && calls[i].target == m.target && NewlyFailed(calls[i], polls(i), shutdown)
  {
    if m in FailedMarks(calls, polls, shutdown, n - 1) { FailedMarkIs(calls, polls, shutdown, n - 1, m); }
  }

  lemma {:induction false} ExpiredNormalIs(calls: seq<PlannedCall>, first: nat, tick: nat)
    ensures var t := FirstExpiredNormal(calls, first, tick);
      t.Some? ==> exists i :: 0 <= i < |calls| && Expires(calls[i], first, tick) && calls[i].target == t.value
  {
    if calls != [] && !(Expires(calls[0], first, tick) && calls[0].kind.RevealCommit?) {
      ExpiredNormalIs(calls[1..], first, tick);
    } else if calls != [] {
      assert Expires(calls[0], first, tick);
    }
  }

  lemma {:induction false} AttemptedTerminalIs(calls: seq<PlannedCall>, first: nat, tick: nat)
    ensures var t := AttemptedTerminal(calls, first, tick);
      t.Some? ==> exists i :: 0 <= i < |calls| && Expires(calls[i], first, tick) && calls[i].target == t.value
  {
    if calls != [] {
      AttemptedTerminalIs(calls[..|calls| - 1], first, tick);
      assert Expires(calls[|calls| - 1], first, tick) ==> exists i :: 0 <= i < |calls| && Expires(calls[i], first, tick);
    }
  }

  lemma ExpireMarks(slot: ManagedSlot, tick: nat, m: Mark)
    requires SlotOk(slot) && m in ExpireCalls(slot, tick).marks
    ensures MarkOk(slot, m) && m.Failure?
  {
    ExpiredNormalIs(CallsOf(slot), slot.chain.value.first, tick);
    AttemptedTerminalIs(CallsOf(slot), slot.chain.value.first, tick);
  }

  lemma PollMarks(slot: ManagedSlot, polls: nat -> Poll, m: Mark)
    requires SlotOk(slot) && m in HarvestBroadcasts(slot, polls).marks
    ensures MarkOk(slot, m)
  {
    var calls, shutdown := slot.chain.value.calls, ShutdownDrain(slot.state);
    if m in AcceptedMarks(calls, polls, |calls|) {
      AcceptedMarkIs(calls, polls, |calls|, m);
      var i :| 0 <= i < |calls| && calls[i].target == m.target && calls[i].kind.RevealCommit? && NewlyAccepted(calls[i], polls(i));
      assert CallsOf(slot)[i].kind.RevealCommit?;
    } else {
      FailedMarkIs(calls, polls, shutdown, |calls|, m);
      var i :| 0 <= i < |calls| && calls[i].target == m.target && NewlyFailed(calls[i], polls(i), shutdown);
    }
  }

  lemma EvidenceMarks(slot: ManagedSlot, e: Evidence, requested: nat, m: Mark)
    requires SlotOk(slot) && slot.state.Live() && m in ObserveEvidence(slot, e, requested).marks
    ensures MarkOk(slot, m) && m.Failure?
  {
  }

  lemma StatusMarks(slot: ManagedSlot, requested: nat, observed: Option<nat>, m: Mark)
    requires SlotOk(slot) && m in ApplyStatus(slot, requested, observed).marks
    ensures MarkOk(slot, m) && m.Failure?
  {
    var active := slot.(state := Active);
    var e: Evidence := if observed.Some? then Foreign(observed.value) else Absent;
    if m in ObserveEvidence(slot, e, requested).marks {
      EvidenceMarks(slot, e, requested, m);
    } else if observed.Some? {
      var cleared := active.(chain := Some(slot.chain.value.(confirmed := observed, suspicion := None)));
      if m in ObserveEvidence(active, Lag(observed.value + STREAM_COUNT), requested).marks {
        EvidenceMarks(active, Lag(observed.value + STREAM_COUNT), requested, m);
      } else {
        EvidenceMarks(cleared, Lag(observed.value + STREAM_COUNT), requested, m);
      }
    }
    hide ObserveEvidence;
  }

  /** Every mark of a step names a target of the chain it touches: a success one of its planned
      reveals, a failure a target of the current chain or the continuation right after it. */
  lemma MarksNameTheChain(k12: Hash, h: Trace, e: SlotEvent, m: Mark)
    requires Spent(h.slot, h.failures) && m in StepSlot(k12, h.slot, e).marks
    ensures MarkOk(h.slot, m) && (m.Success? ==> e.Polled?)
  {
    hide Spent, HarvestBroadcasts, ApplyStatus, EnterDrain, StartIfReady, ExpireCalls, DispatchCalls, MarkOk;
    assert SlotOk(h.slot) by { SpentIsOk(h.slot, h.failures); }
    match e
    case Polled(polls) => PollMarks(h.slot, polls, m);
    case StatusSeen(requested, observed) => StatusMarks(h.slot, requested, observed, m);
    case ExtendAsked(tick, draws) =>
      if m in ExpireCalls(h.slot, tick).marks { ExpireMarks(h.slot, tick, m); } else { MissedMark(h.slot, m); }
    case ExpiryDue(tick) => ExpireMarks(h.slot, tick, m);
    case DispatchDue(tick) => DispatchSpends(h.slot, h.failures, tick);
    case _ =>
  }

  lemma SpentIsOk(slot: ManagedSlot, failures: nat)
    requires Spent(slot, failures)
    ensures SlotOk(slot)
  {
  }

  lemma MissedMark(slot: ManagedSlot, m: Mark)
    requires SlotOk(slot) && slot.chain.Some? && m == Failure(slot.chain.value.last + STREAM_COUNT)
    ensures MarkOk(slot, m)
  {
  }
}
