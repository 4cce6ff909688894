/** Financial failures, exactly: which target each step reports as failed, told from what was
    signed, sent, accepted and observed. */
module SlotFailures {
  import opened Basics
  import opened SlotRules
  import opened SlotRuns
  import opened SlotShape
  import opened SlotLinks
  import opened SlotSends
  import opened SlotLog
  import opened SlotFreeze
  import opened SlotFreshness
  import opened SlotMarks
  import opened SlotLives

  // ---------------------------------------------------------------- calls of the chain

  /** A call of the current chain that has not failed before and is passed unaccepted. */
  ghost predicate Overdue(l: Life, s: Signed, tick: nat) {
    Passed(l.h, s, tick) && l.h.chainFirst <= s.tx.target && s.tx.target !in l.failed
  }

  ghost predicate AnyOverdue(l: Life, tick: nat) { exists s :: s in l.h.signed && Overdue(l, s, tick) }

  ghost predicate OverdueReveal(l: Life, target: nat, tick: nat) {
    exists s :: s in l.h.signed && Overdue(l, s, tick) && s.kind.RevealCommit? && s.tx.target == target
  }

  /** The least target of a reveal that is overdue. */
  ghost predicate OldestReveal(l: Life, target: nat, tick: nat) {
    OverdueReveal(l, target, tick) && forall t: nat :: OverdueReveal(l, t, tick) ==> target <= t
  }

  /** While a chain is live or drains, none of its calls but a terminal one has failed. */
  ghost predicate Hopeful(l: Life) {
    l.h.slot.state.Live() || l.h.slot.state.Draining? ==>
      forall s :: s in l.h.signed && l.h.chainFirst <= s.tx.target && s.tx.target in l.failed && s.tx.target !in l.h.accepted ==>
        l.h.slot.state.Draining? && s.tx.target == l.h.slot.state.terminalTarget
  }

  /** The calls that an expiry finds are the overdue ones. */
  lemma ExpiresIs(k12: Hash, l: Life, i: nat, tick: nat)
    requires Known(k12, l) && l.h.slot.chain.Some? && i < |CallsOf(l.h.slot)|
    ensures var c := CallsOf(l.h.slot)[i];
      && SignedOf(c) in l.h.signed && c.tx.target == c.target
      && (Expires(c, l.h.slot.chain.value.first, tick) <==> Overdue(l, SignedOf(c), tick))
      && l.h.slot.chain.value.first == l.h.chainFirst
  {
    KnownFacts(k12, l);
    PlannedIsSigned(l.h.signed, CallsOf(l.h.slot), l.h.slot.stream, i);
    assert CallKnown(l, CallsOf(l.h.slot)[i]);
    hide Known, LogOk, SignedOk, OnlySigned, CallsSigned, AcceptedOk, StillPlanned, SlotOk, SentTo, CallsKnown;
  }

  /** What is overdue is still planned. */
  lemma OverdueIsPlanned(k12: Hash, l: Life, s: Signed, tick: nat) returns (i: nat)
    requires Known(k12, l) && l.h.slot.chain.Some? && Overdue(l, s, tick)
    ensures i < |CallsOf(l.h.slot)| && SignedOf(CallsOf(l.h.slot)[i]) == s && CallsOf(l.h.slot)[i].target == s.tx.target
    ensures Expires(CallsOf(l.h.slot)[i], l.h.slot.chain.value.first, tick)
  {
    KnownFacts(k12, l);
    assert s in CallSet(CallsOf(l.h.slot));
    i :| 0 <= i < |CallsOf(l.h.slot)| && s == SignedOf(CallsOf(l.h.slot)[i]);
    ExpiresIs(k12, l, i, tick);
    hide Known, LogOk, SignedOk, OnlySigned, CallsSigned, AcceptedOk, StillPlanned, SlotOk;
  }

  lemma AnyExpiresIs(k12: Hash, l: Life, tick: nat)
    requires Known(k12, l) && l.h.slot.chain.Some?
    ensures AnyExpires(CallsOf(l.h.slot), l.h.slot.chain.value.first, tick) <==> AnyOverdue(l, tick)
  {
    var calls, first := CallsOf(l.h.slot), l.h.slot.chain.value.first;
    hide Known, Expires, Overdue;
    if AnyExpires(calls, first, tick) {
      var i :| 0 <= i < |calls| && Expires(calls[i], first, tick);
      ExpiresIs(k12, l, i, tick);
    }
    if AnyOverdue(l, tick) {
      var s :| s in l.h.signed && Overdue(l, s, tick);
      var i := OverdueIsPlanned(k12, l, s, tick);
    }
  }

  /** An expired planned reveal of this target. */
  ghost predicate Finds(calls: seq<PlannedCall>, first: nat, tick: nat, target: nat) {
    exists i :: 0 <= i < |calls| && Expires(calls[i], first, tick) && calls[i].kind.RevealCommit? && calls[i].target == target
  }

  lemma {:induction false} FirstIsLeast(calls: seq<PlannedCall>, first: nat, tick: nat, target: nat)
    requires Ascending(calls)
    ensures FirstExpiredNormal(calls, first, tick) == Some(target) <==>
      Finds(calls, first, tick, target) && forall t: nat :: Finds(calls, first, tick, t) ==> target <= t
  {
    if calls != [] {
      var c, rest := calls[0], calls[1..];
      FirstIsLeast(rest, first, tick, target);
      if Expires(c, first, tick) && c.kind.RevealCommit? {
        assert Finds(calls, first, tick, c.target);
        forall t: nat | Finds(calls, first, tick, t) ensures c.target <= t {}
      } else {
        forall t: nat ensures Finds(calls, first, tick, t) <==> Finds(rest, first, tick, t) {
          if Finds(calls, first, tick, t) {
            var i :| 0 <= i < |calls| && Expires(calls[i], first, tick) && calls[i].kind.RevealCommit? && calls[i].target == t;
            assert rest[i - 1] == calls[i];
          }
          if Finds(rest, first, tick, t) {
            var i :| 0 <= i < |rest| && Expires(rest[i], first, tick) && rest[i].kind.RevealCommit? && rest[i].target == t;
            assert calls[i + 1] == rest[i];
          }
        }
      }
    }
  }

  lemma FindsIs(k12: Hash, l: Life, tick: nat, target: nat)
    requires Known(k12, l) && l.h.slot.chain.Some?
    ensures Finds(CallsOf(l.h.slot), l.h.slot.chain.value.first, tick, target) <==> OverdueReveal(l, target, tick)
  {
    var calls, first := CallsOf(l.h.slot), l.h.slot.chain.value.first;
    hide Known, Expires, Overdue;
    if Finds(calls, first, tick, target) {
      var i :| 0 <= i < |calls| && Expires(calls[i], first, tick) && calls[i].kind.RevealCommit? && calls[i].target == target;
      ExpiresIs(k12, l, i, tick);
    }
    if OverdueReveal(l, target, tick) {
      var s :| s in l.h.signed && Overdue(l, s, tick) && s.kind.RevealCommit? && s.tx.target == target;
      var i := OverdueIsPlanned(k12, l, s, tick);
    }
  }

  lemma FirstIsOldest(k12: Hash, l: Life, tick: nat, target: nat)
    requires Known(k12, l) && l.h.slot.chain.Some?
    ensures FirstExpiredNormal(CallsOf(l.h.slot), l.h.slot.chain.value.first, tick) == Some(target) <==> OldestReveal(l, target, tick)
  {
    KnownFacts(k12, l);
    assert Ascending(CallsOf(l.h.slot));
    hide Known, LogOk, SignedOk, OnlySigned, CallsSigned, AcceptedOk, StillPlanned, SlotOk, Finds, OverdueReveal;
    FirstIsLeast(CallsOf(l.h.slot), l.h.slot.chain.value.first, tick, target);
    forall t: nat ensures Finds(CallsOf(l.h.slot), l.h.slot.chain.value.first, tick, t) <==> OverdueReveal(l, t, tick) {
      FindsIs(k12, l, tick, t);
    }
  }

  /** Some reveal is overdue, so one is the oldest. */
  lemma FirstIsSome(k12: Hash, l: Life, tick: nat)
    requires Known(k12, l) && l.h.slot.chain.Some?
    ensures FirstExpiredNormal(CallsOf(l.h.slot), l.h.slot.chain.value.first, tick).Some? <==>
      exists t: nat :: OverdueReveal(l, t, tick)
  {
    hide Known, OverdueReveal;
    var calls, first := CallsOf(l.h.slot), l.h.slot.chain.value.first;
    var o := FirstExpiredNormal(calls, first, tick);
    if o.Some? { FirstIsOldest(k12, l, tick, o.value); }
    if t: nat :| OverdueReveal(l, t, tick) {
      FindsIs(k12, l, tick, t);
      SomeIsFound(calls, first, tick, t);
    }
  }

  lemma {:induction false} SomeIsFound(calls: seq<PlannedCall>, first: nat, tick: nat, target: nat)
    requires Finds(calls, first, tick, target)
    ensures FirstExpiredNormal(calls, first, tick).Some?
  {
    var i :| 0 <= i < |calls| && Expires(calls[i], first, tick) && calls[i].kind.RevealCommit? && calls[i].target == target;
    if i > 0 {
      assert calls[1..][i - 1] == calls[i];
      SomeIsFound(calls[1..], first, tick, target);
    }
  }

  /** The terminal call that an expiry finds tried: sent, but neither accepted nor failed. */
  lemma AttemptedIs(k12: Hash, l: Life, tick: nat, target: nat)
    requires Known(k12, l) && l.h.slot.state.Draining?
    ensures l.h.slot.chain.Some?
    ensures AttemptedTerminal(CallsOf(l.h.slot), l.h.slot.chain.value.first, tick) == Some(target) <==>
      && target == l.h.slot.state.terminalTarget <= tick
      && SentTo(l.h, target) && target !in l.h.accepted && target !in l.failed
  {
    KnownFacts(k12, l);
    var calls, first := CallsOf(l.h.slot), l.h.slot.chain.value.first;
    var k := |calls| - 1;
    assert CallKnown(l, calls[k]);
    assert l.running != {} ==> forall t :: t in l.running ==> SentTo(l.h, t);
    TerminalIs(l.h.slot, k);
    var head := calls[..k];
    forall i | 0 <= i < |head| ensures !head[i].kind.TerminalReveal? {
      assert calls[i].target < calls[k].target;
    }
    NoTerminal(head, first, tick);
    hide Known, LogOk, SignedOk, OnlySigned, CallsSigned, AcceptedOk, StillPlanned, SentTo, CallsKnown, Grounded;
  }

  lemma {:induction false} NoTerminal(calls: seq<PlannedCall>, first: nat, tick: nat)
    requires forall i :: 0 <= i < |calls| ==> !calls[i].kind.TerminalReveal?
    ensures AttemptedTerminal(calls, first, tick).None?
  {
    if calls != [] { NoTerminal(calls[..|calls| - 1], first, tick); }
  }

  // ---------------------------------------------------------------- what each step reports

  /** An expiry of a live chain reports its oldest overdue reveal. A drain reports that too, or
      else its terminal call if that was sent. */
  ghost predicate ExpiryFails(l: Life, tick: nat, target: nat) {
    if l.h.slot.state.Live() then OldestReveal(l, target, tick)
    else if l.h.slot.state.Draining? then
      if exists t: nat :: OverdueReveal(l, t, tick) then OldestReveal(l, target, tick)
      else
        && target == l.h.slot.state.terminalTarget <= tick
        && SentTo(l.h, target) && target !in l.h.accepted && target !in l.failed
    else false
  }

  /** A continuation passed before it was planned is reported unless a planned call is overdue. */
  ghost predicate ExtensionFails(l: Life, tick: nat, target: nat) {
    && l.h.slot.state.Live() && l.h.signed != []
    && var next := LastTarget(l.h.signed) + STREAM_COUNT;
      && next <= tick && next <= U32_MAX
      && if AnyOverdue(l, tick) then OldestReveal(l, target, tick) else target == next
  }

  /** The third of three observations that say the same: an absence fails the target after the
      last acknowledged one, if the chain signed it; a lag fails the missing one; an update tick
      off the chain fails none. */
  ghost predicate FreezeFails(l: Life, n: Trace, target: nat) {
    && l.h.slot.state.Live() && l.h.signed != [] && |n.streak| == STATUS_CONFIRMATIONS_REQUIRED
    && match n.streak[|n.streak| - 1].evidence
       case Absent =>
         l.acknowledged.Some? && target == l.acknowledged.value + STREAM_COUNT && l.h.chainFirst < target <= LastTarget(l.h.signed)
       case Lag(missing) => target == missing
       case Foreign(_) => false
  }

  /** The target that a step reports as failed. */
  ghost predicate FailsNow(k12: Hash, l: Life, e: SlotEvent, target: nat) {
    match e
    case ExpiryDue(tick) => ExpiryFails(l, tick, target)
    case ExtendAsked(tick, _) => ExtensionFails(l, tick, target)
    case Polled(polls) => TerminalFails(l, polls, target)
    case StatusSeen(_, _) => FreezeFails(l, Next(k12, l.h, e), target)
    case _ => false
  }

  lemma ExpiryReports(k12: Hash, l: Life, tick: nat, target: nat)
    requires Known(k12, l)
    ensures Failure(target) in ExpireCalls(l.h.slot, tick).marks <==> ExpiryFails(l, tick, target)
  {
    hide Known, OldestReveal, OverdueReveal, AnyExpires, FirstExpiredNormal, AttemptedTerminal, Overdue, Passed;
    assert SlotOk(l.h.slot) by { KnownFacts(k12, l); }
    assert l.h.slot.state.Live() || l.h.slot.state.Draining? ==> l.h.slot.chain.Some?;
    hide SlotOk;
    if l.h.slot.chain.Some? {
      AnyExpiresIs(k12, l, tick);
      FirstIsOldest(k12, l, tick, target);
      FirstIsSome(k12, l, tick);
      if l.h.slot.state.Draining? { AttemptedIs(k12, l, tick, target); DrainOverdue(k12, l, tick); }
      RevealIsOverdue(l, tick);
    }
  }

  /** An overdue reveal is an overdue call, and so is an unaccepted terminal call. */
  lemma RevealIsOverdue(l: Life, tick: nat)
    ensures (exists t: nat :: OverdueReveal(l, t, tick)) ==> AnyOverdue(l, tick)
    ensures forall t: nat :: OldestReveal(l, t, tick) ==> OverdueReveal(l, t, tick)
  {
  }

  lemma DrainOverdue(k12: Hash, l: Life, tick: nat)
    requires Known(k12, l) && l.h.slot.state.Draining?
    ensures var t := l.h.slot.state.terminalTarget;
      t <= tick && t !in l.h.accepted && t !in l.failed ==> AnyOverdue(l, tick)
  {
    KnownFacts(k12, l);
    var s := l.h.signed[|l.h.signed| - 1];
    var f: nat :| HeadAt(l.h.signed, l.h.chainFirst, f);
    SignedLast(k12, l.h.signed, l.h.slot.stream, f);
    assert s in l.h.signed && s.tx.target == l.h.slot.state.terminalTarget;
    hide Known, LogOk, SignedOk, OnlySigned, CallsSigned, AcceptedOk, StillPlanned, SlotOk, CallsKnown;
  }

  lemma ExtensionReports(k12: Hash, l: Life, tick: nat, draws: nat -> Option<Bits>, target: nat)
    requires Known(k12, l)
    ensures Failure(target) in StepSlot(k12, l.h.slot, ExtendAsked(tick, draws)).marks <==> ExtensionFails(l, tick, target)
  {
    hide Known, OldestReveal, OverdueReveal, AnyExpires, FirstExpiredNormal, AnyOverdue, ExtendTo;
    LiveTail(k12, l);
    if l.h.slot.state.Live() && Missed(l.h.slot, tick) {
      AnyExpiresIs(k12, l, tick);
      FirstIsOldest(k12, l, tick, target);
    }
  }

  lemma LiveTail(k12: Hash, l: Life)
    requires Known(k12, l)
    ensures l.h.slot.state.Live() ==>
      l.h.slot.chain.Some? && l.h.signed != [] && LastTarget(l.h.signed) == l.h.slot.chain.value.last
      && l.h.chainFirst == l.h.slot.chain.value.first
  {
    KnownFacts(k12, l);
    hide Known, LogOk, SignedOk, OnlySigned, CallsSigned, AcceptedOk, StillPlanned, CallsKnown;
  }

  lemma {:induction false} FailedMarkHas(calls: seq<PlannedCall>, polls: nat -> Poll, shutdown: bool, n: nat, i: nat)
    requires i < n <= |calls| && NewlyFailed(calls[i], polls(i), shutdown)
    ensures Failure(calls[i].target) in FailedMarks(calls, polls, shutdown, n)
  {
    if i < n - 1 { FailedMarkHas(calls, polls, shutdown, n - 1, i); }
  }

  lemma PollReportsFailure(k12: Hash, l: Life, polls: nat -> Poll, target: nat)
    requires Known(k12, l)
    ensures Failure(target) in HarvestBroadcasts(l.h.slot, polls).marks <==> TerminalFails(l, polls, target)
  {
    var calls, shutdown := CallsOf(l.h.slot), ShutdownDrain(l.h.slot.state);
    assert SlotOk(l.h.slot) && CallsKnown(l) by { KnownFacts(k12, l); }
    if Failure(target) in HarvestBroadcasts(l.h.slot, polls).marks {
      if Failure(target) in AcceptedMarks(calls, polls, |calls|) { AcceptedMarkIs(calls, polls, |calls|, Failure(target)); }
      FailedMarkIs(calls, polls, shutdown, |calls|, Failure(target));
      var i :| 0 <= i < |calls| && calls[i].target == target && NewlyFailed(calls[i], polls(i), shutdown);
      assert CallKnown(l, calls[i]);
      TerminalIs(l.h.slot, i);
      AnsweredIs(l.h.slot, polls, i, false);
    }
    if TerminalFails(l, polls, target) {
      var i :| 0 <= i < |calls| && calls[i].target == target && polls(i) == Done(false);
      assert CallKnown(l, calls[i]);
      assert l.h.slot.chain.Some?;
      TerminalIs(l.h.slot, i);
      FailedMarkHas(calls, polls, shutdown, |calls|, i);
    }
    hide Known, SlotOk, CallOk, SentTo, SentAgain, CallsKnown;
  }

  // ---------------------------------------------------------------- freezing

  /** What a confirmed suspicion reports. */
  function FreezeMarks(chain: Chain, streak: seq<Counted>): seq<Mark> {
    if |streak| == STATUS_CONFIRMATIONS_REQUIRED then FailureMark(FinancialFailureTarget(chain, streak[|streak| - 1].evidence))
    else []
  }

  lemma EvidenceReports(slot: ManagedSlot, streak: seq<Counted>, e: Evidence, requested: nat)
    requires slot.chain.Some? && Mirrors(slot.chain.value.suspicion, streak) && |streak| < STATUS_CONFIRMATIONS_REQUIRED
    ensures ObserveEvidence(slot, e, requested).marks == FreezeMarks(slot.chain.value, Count(streak, e, requested))
  {
  }

  lemma StatusReports(slot: ManagedSlot, streak: seq<Counted>, requested: nat, observed: Option<nat>)
    requires SlotOk(slot) && slot.state.Live() && Mirrors(slot.chain.value.suspicion, streak) && |streak| < STATUS_CONFIRMATIONS_REQUIRED
    ensures ApplyStatus(slot, requested, observed).marks
         == FreezeMarks(slot.chain.value, CountSignal(streak, SignalOf(slot, streak, requested, observed), requested))
  {
    var chain := slot.chain.value;
    assert chain.last <= U32_MAX;
    if observed.Some? { OwnsIs(chain, observed.value); }
    if observed.Some? && chain.Owns(observed.value) {
      WatermarkReports(slot.(state := Active), streak, observed.value, requested);
      hide SlotOk, ApplyWatermark, OnChain;
    } else {
      hide Chain.Owns, SlotOk, ApplyWatermark, OnChain;
      EvidenceReports(slot, streak, if observed.Some? then Foreign(observed.value) else Absent, requested);
      hide ObserveEvidence, Mirrors;
    }
  }

  lemma WatermarkReports(slot: ManagedSlot, streak: seq<Counted>, t: nat, requested: nat)
    requires slot.chain.Some? && slot.state.Live() && Mirrors(slot.chain.value.suspicion, streak)
    requires |streak| < STATUS_CONFIRMATIONS_REQUIRED && slot.chain.value.Owns(t) && slot.chain.value.last <= U32_MAX
    ensures ApplyWatermark(slot, t, requested).marks
         == FreezeMarks(slot.chain.value, CountSignal(streak, SignalOf(slot, streak, requested, Some(t)), requested))
  {
    var chain := slot.chain.value;
    var cleared := slot.(chain := Some(chain.(confirmed := Some(t), suspicion := None)));
    DueIs(chain, t, requested);
    OwnsIs(chain, t);
    EvidenceReports(cleared, [], Lag(t + STREAM_COUNT), requested);
    EvidenceReports(slot, streak, Lag(t + STREAM_COUNT), requested);
    hide Chain.Owns, OnChain, ObserveEvidence, FinancialFailureTarget, Chain.LatestTargetBefore;
  }

  // ---------------------------------------------------------------- the acknowledged target

  /** A chain's watermark is the highest update tick of its own that was observed while it was
      live, and it is active from the first such observation on. */
  ghost predicate Acknowledging(l: Life) {
    && (l.h.slot.chain.Some? ==> l.h.slot.chain.value.confirmed == l.acknowledged)
    && (l.h.slot.state.Live() ==> (l.h.slot.state.Active? <==> l.acknowledged.Some?))
  }

  lemma EvidenceKeepsMark(slot: ManagedSlot, e: Evidence, requested: nat)
    ensures var n := ObserveEvidence(slot, e, requested).slot;
      && (n.chain.Some? ==> slot.chain.Some? && n.chain.value.confirmed == slot.chain.value.confirmed)
      && (n.state.Live() ==> n.state == slot.state)
  {
    hide FinancialFailureTarget, Agrees;
  }

  lemma StatusAcknowledgesNext(slot: ManagedSlot, requested: nat, observed: Option<nat>)
    requires slot.state.Live() && slot.chain.Some?
    ensures var n := ApplyStatus(slot, requested, observed).slot;
      var chain := slot.chain.value;
      var own := observed.Some? && chain.Owns(observed.value);
      && (n.chain.Some? ==>
            n.chain.value.confirmed ==
              if !own then chain.confirmed
              else Some(if chain.confirmed.Some? then Max(chain.confirmed.value, observed.value) else observed.value))
      && (n.state.Live() ==> (n.state.Active? <==> own || slot.state.Active?))
  {
    var e: Evidence := if observed.Some? then Foreign(observed.value) else Absent;
    EvidenceKeepsMark(slot, e, requested);
    if observed.Some? {
      var active := slot.(state := Active);
      EvidenceKeepsMark(active, Lag(observed.value + STREAM_COUNT), requested);
      EvidenceKeepsMark(active.(chain := Some(slot.chain.value.(confirmed := observed, suspicion := None))),
                        Lag(observed.value + STREAM_COUNT), requested);
    }
    hide ObserveEvidence, Chain.Owns, Chain.LatestTargetBefore;
  }

  lemma OtherKeepsMark(k12: Hash, slot: ManagedSlot, e: SlotEvent)
    requires SlotOk(slot) && !e.EpochReset? && !Started(k12, slot, e) && (e.StatusSeen? ==> !slot.state.Live())
    ensures var n := StepSlot(k12, slot, e).slot;
      && (n.chain.Some? ==> slot.chain.Some? && n.chain.value.confirmed == slot.chain.value.confirmed)
      && (n.state.Live() ==> n.state == slot.state)
  {
    if e.ExtendAsked? && slot.state.Live() && !Missed(slot, e.tick) && CheckedAdd(e.tick, SEND_LEAD_TICKS).Some? {
      ExtendToSteady(k12, slot.chain.value, e.tick + SEND_LEAD_TICKS, e.draws, 0);
    }
    hide ChainOk;
  }

  lemma StepAcknowledges(k12: Hash, l: Life, e: SlotEvent)
    requires Known(k12, l) && Acknowledging(l)
    ensures Acknowledging(NextLife(k12, l, e))
  {
    assert Links(k12, l.h) && SlotOk(l.h.slot) by { KnownFacts(k12, l); }
    LiveTail(k12, l);
    hide Known, Links, SlotOk, Chain.Owns, ApplyStatus;
    if !e.EpochReset? && !Started(k12, l.h.slot, e) {
      if e.StatusSeen? && l.h.slot.state.Live() {
        StatusAcknowledgesNext(l.h.slot, e.requested, e.observed);
        if e.observed.Some? { OwnedIsSigned(k12, l.h, e.observed.value); }
      } else {
        OtherKeepsMark(k12, l.h.slot, e);
        hide StepSlot;
      }
    }
  }

  // ---------------------------------------------------------------- hope

  /** The chain that lives or drains after a step was live or drained before, or has just begun. */
  lemma StillHopes(k12: Hash, slot: ManagedSlot, e: SlotEvent)
    requires SlotOk(slot) && !e.EpochReset? && !Started(k12, slot, e)
    ensures var n := StepSlot(k12, slot, e).slot;
      && (n.state.Live() ==> slot.state.Live())
      && (n.state.Draining? ==> slot.state.Live() || slot.state == n.state)
      && (n.state.Live() || n.state.Draining? ==> n.chain.Some? && slot.chain.Some?)
      && (e.ExpiryDue? && (n.state.Live() || n.state.Draining?) ==> !AnyExpires(CallsOf(slot), slot.chain.value.first, e.tick))
  {
    StepKeepsShape(k12, slot, e);
    if e.StatusSeen? {
      StatusFails(slot, e.requested, e.observed);
      StatusIsPlain(slot, e.requested, e.observed);
      hide ApplyStatus;
    } else {
      OtherIsSteady(k12, slot, e);
    }
    hide ChainOk;
  }

  lemma StartIsLater(k12: Hash, h: Trace, e: SlotEvent)
    requires Links(k12, h) && Started(k12, h.slot, e)
    ensures h.signed != [] ==> LastTarget(h.signed) < Next(k12, h, e).chainFirst
  {
    StartTargetFits(h.slot, e.tick);
  }

  lemma PassedIsOverdue(l: Life, s: Signed, tick: nat)
    requires s in l.h.signed && l.h.chainFirst <= s.tx.target && s.tx.target !in l.failed
    requires s.tx.target in NextFailed(l, ExpiryDue(tick))
    ensures AnyOverdue(l, tick)
  {
    var r :| r in l.h.signed && Passed(l.h, r, tick) && r.tx.target == s.tx.target;
    assert Overdue(l, s, tick);
  }

  /** What fails in a step that a chain outlives is the terminal call of a shutdown drain. */
  lemma NewlyFailedIs(k12: Hash, l: Life, e: SlotEvent, s: Signed)
    requires Known(k12, l) && !e.EpochReset? && !Started(k12, l.h.slot, e)
    requires var n := NextLife(k12, l, e);
      && (n.h.slot.state.Live() || n.h.slot.state.Draining?)
      && s in l.h.signed && l.h.chainFirst <= s.tx.target && s.tx.target in n.failed && s.tx.target !in n.h.accepted
      && s.tx.target !in l.failed
    ensures l.h.slot.state.Draining? && s.tx.target == l.h.slot.state.terminalTarget
  {
    KnownFacts(k12, l);
    StillHopes(k12, l.h.slot, e);
    hide Known, StepSlot, LogOk, SignedOk, OnlySigned, CallsSigned, AcceptedOk, StillPlanned, CallsKnown, Grounded, SlotOk, Links;
    if e.ExpiryDue? {
      AnyExpiresIs(k12, l, e.tick);
      PassedIsOverdue(l, s, e.tick);
      hide AnyExpires;
    }
  }

  lemma StepHopes(k12: Hash, l: Life, e: SlotEvent)
    requires Known(k12, l) && Hopeful(l)
    ensures Hopeful(NextLife(k12, l, e))
  {
    var n := NextLife(k12, l, e);
    if !e.EpochReset? && (n.h.slot.state.Live() || n.h.slot.state.Draining?) {
      KnownFacts(k12, l);
      StepLinks(k12, l.h, e);
      forall s | s in n.h.signed && n.h.chainFirst <= s.tx.target && s.tx.target in n.failed && s.tx.target !in n.h.accepted
        ensures n.h.slot.state.Draining? && s.tx.target == n.h.slot.state.terminalTarget
      {
        hide Known, StepSlot, LogOk, OnlySigned, CallsSigned, AcceptedOk, StillPlanned, CallsKnown, SlotOk;
        if Started(k12, l.h.slot, e) {
          assert n.failed == l.failed;
          StartIsLater(k12, l.h, e);
          NewTarget(k12, l, s.tx.target);
        } else {
          StillHopes(k12, l.h.slot, e);
          if s !in l.h.signed { NewIsNotFailed(k12, l, e, s); }
          if s.tx.target !in l.failed { NewlyFailedIs(k12, l, e, s); }
        }
      }
    }
  }

  /** A call signed in this step has not failed. */
  lemma NewIsNotFailed(k12: Hash, l: Life, e: SlotEvent, s: Signed)
    requires Known(k12, l) && !e.EpochReset?
    requires var n := NextLife(k12, l, e); s in n.h.signed && s.tx.target in n.failed
    ensures s in l.h.signed
  {
    var n := NextLife(k12, l, e);
    KnownFacts(k12, l);
    StaysGrounded(k12, l, e);
    StepLinks(k12, l.h, e);
    assert forall r :: r in l.h.signed ==> r in n.h.signed;
    hide StepSlot, LogOk, OnlySigned, CallsSigned, AcceptedOk, StillPlanned, CallsKnown, SlotOk, SignedOk;
    var r :| r in l.h.signed && r.tx.target == s.tx.target;
    SignedOnce(k12, n.h.signed, n.h.slot.stream, s, r);
  }

  // ---------------------------------------------------------------- all runs

  /** All that a stream's history is known to satisfy. */
  ghost predicate Told(k12: Hash, l: Life) {
    Known(k12, l) && Watched(l.h) && Hopeful(l) && Acknowledging(l)
  }

  lemma BeginTells(k12: Hash, stream: nat)
    requires stream < STREAM_COUNT
    ensures Told(k12, NewLife(stream))
  {
    BeginLogs(k12, stream);
  }

  lemma StepTells(k12: Hash, l: Life, e: SlotEvent)
    requires Told(k12, l)
    ensures Told(k12, NextLife(k12, l, e))
  {
    StepKnows(k12, l, e);
    StepWatched(k12, l.h, e);
    StepHopes(k12, l, e);
    StepAcknowledges(k12, l, e);
    assert NextLife(k12, l, e).h == Next(k12, l.h, e);
    hide Known, Watched, Hopeful, Acknowledging, NextLife;
  }

  lemma {:induction false} RunTells(k12: Hash, l: Life, events: seq<SlotEvent>)
    requires Told(k12, l)
    ensures Told(k12, RunLife(k12, l, events))
    decreases |events|
  {
    if events != [] {
      StepTells(k12, l, events[0]);
      RunTells(k12, NextLife(k12, l, events[0]), events[1..]);
    }
  }

  lemma LivedIsTold(k12: Hash, stream: nat, l: Life)
    requires Lived(k12, stream, l)
    ensures Told(k12, l)
  {
    var events :| RunLife(k12, NewLife(stream), events) == l;
    BeginTells(k12, stream);
    RunTells(k12, NewLife(stream), events);
  }

  lemma FreezeReports(k12: Hash, l: Life, requested: nat, observed: Option<nat>, target: nat)
    requires Told(k12, l)
    ensures Failure(target) in ApplyStatus(l.h.slot, requested, observed).marks
       <==> FreezeFails(l, Next(k12, l.h, StatusSeen(requested, observed)), target)
  {
    LiveTail(k12, l);
    assert SlotOk(l.h.slot) by { KnownFacts(k12, l); }
    hide Known, Hopeful, ApplyStatus, SignalOf, CountSignal, Mirrors, Rises, Justified, WatermarkOk, ChainOk;
    if l.h.slot.state.Live() {
      var n := Next(k12, l.h, StatusSeen(requested, observed));
      StatusReports(l.h.slot, l.h.streak, requested, observed);
      FrozenLag(k12, l, requested, observed);
      assert n.streak == CountSignal(l.h.streak, SignalOf(l.h.slot, l.h.streak, requested, observed), requested);
      ShortStreak(l.h, requested, observed);
    } else {
      IdleReportsNone(l.h.slot, requested, observed);
    }
  }

  lemma ShortStreak(h: Trace, requested: nat, observed: Option<nat>)
    requires Watched(h) && h.slot.state.Live()
    ensures |CountSignal(h.streak, SignalOf(h.slot, h.streak, requested, observed), requested)| <= STATUS_CONFIRMATIONS_REQUIRED
  {
    hide SignalOf;
  }

  lemma IdleReportsNone(slot: ManagedSlot, requested: nat, observed: Option<nat>)
    requires !slot.state.Live()
    ensures ApplyStatus(slot, requested, observed).marks == []
  {
  }

  /** A lag that freezes the chain is past its first target and planned. */
  lemma FrozenLag(k12: Hash, l: Life, requested: nat, observed: Option<nat>)
    requires Told(k12, l) && l.h.slot.state.Live() && l.h.slot.chain.Some?
    ensures var chain := l.h.slot.chain.value;
      var streak := CountSignal(l.h.streak, SignalOf(l.h.slot, l.h.streak, requested, observed), requested);
      |streak| == STATUS_CONFIRMATIONS_REQUIRED && streak[|streak| - 1].evidence.Lag? ==>
        chain.first < streak[|streak| - 1].evidence.missing <= chain.last
  {
    hide Known;
  }

  /** Over every run, each step reports exactly this target as failed, and no other: an expiry the
      least target among the chain's unaccepted reveals it has passed (a drain, where there is
      none, its terminal call if that was sent); a continuation passed before it was planned, if
      no call is overdue; the terminal call of a shutdown drain whose task failed; the target that
      a confirmed absence or lag misses. */
  lemma FailuresAreExact(k12: Hash, stream: nat, l: Life, e: SlotEvent, target: nat)
    requires Lived(k12, stream, l)
    ensures Failure(target) in StepSlot(k12, l.h.slot, e).marks <==> FailsNow(k12, l, e, target)
  {
    LivedIsTold(k12, stream, l);
    assert Known(k12, l);
    match e
    case Polled(polls) => PollReportsFailure(k12, l, polls, target);
    case StatusSeen(requested, observed) => FreezeReports(k12, l, requested, observed, target);
    case ExtendAsked(tick, draws) => ExtensionReports(k12, l, tick, draws, target);
    case ExpiryDue(tick) => ExpiryReports(k12, l, tick, target);
    case DispatchDue(tick) => DispatchReportsNone(k12, l, tick);
    case _ =>
    hide Told, Known, HarvestBroadcasts, ApplyStatus, ExpireCalls, DispatchCalls, ExtendChain, TerminalFails, FreezeFails,
         ExtensionFails, ExpiryFails;
  }

  lemma DispatchReportsNone(k12: Hash, l: Life, tick: nat)
    requires Known(k12, l)
    ensures DispatchCalls(l.h.slot, tick).marks == []
  {
    KnownFacts(k12, l);
    if l.h.slot.chain.Some? {
      var calls, x := CallsOf(l.h.slot), ContextOf(l.h.slot, tick);
      forall i | 0 <= i < |calls| ensures !Decide(calls[i], x).GiveUp? { NoGiveUpHere(l.h, tick, i); }
      NoGiveUp(calls, x);
    }
    hide Known, SlotOk, Decide;
  }

  /** A reveal of the current chain that this tick passes without an acceptance. */
  ghost predicate PassedReveal(h: Trace, target: nat, tick: nat) {
    exists s :: s in h.signed && s.kind.RevealCommit? && s.tx.target == target
      && h.chainFirst <= target <= tick && target !in h.accepted
  }

  /** No reveal with a lesser target is passed. */
  ghost predicate FirstPassed(h: Trace, target: nat, tick: nat) {
    forall t: nat :: PassedReveal(h, t, tick) ==> target <= t
  }

  /** Over every run: an expiry at a tick reports a target of a live chain as failed if and only if
      it is the least target of a reveal signed for this chain that the tick has reached and the
      backend has not accepted. The chain is lost if and only if the tick has reached any call
      signed for it that was not accepted. */
  lemma ExpiryOfALiveChain(k12: Hash, stream: nat, l: Life, tick: nat, target: nat)
    requires Lived(k12, stream, l) && l.h.slot.state.Live()
    ensures var o := StepSlot(k12, l.h.slot, ExpiryDue(tick));
      && (Failure(target) in o.marks <==>
            PassedReveal(l.h, target, tick) && FirstPassed(l.h, target, tick))
      && (o.slot.state.Live() <==>
            forall s :: s in l.h.signed && l.h.chainFirst <= s.tx.target <= tick ==> s.tx.target in l.h.accepted)
  {
    LivedIsTold(k12, stream, l);
    hide Told, Lived, OldestReveal, PassedReveal, FirstPassed, StepSlot;
    FailuresAreExact(k12, stream, l, ExpiryDue(tick), target);
    assert Hopeful(l) by { TellsHope(k12, l); }
    LiveOldest(l, target, tick);
    hide Hopeful;
    ExpirySurvives(k12, l, tick);
  }

  lemma TellsHope(k12: Hash, l: Life)
    requires Told(k12, l)
    ensures Hopeful(l)
  {
  }

  lemma ExpirySurvives(k12: Hash, l: Life, tick: nat)
    requires Told(k12, l) && l.h.slot.state.Live()
    ensures StepSlot(k12, l.h.slot, ExpiryDue(tick)).slot.state.Live() <==>
      forall s :: s in l.h.signed && l.h.chainFirst <= s.tx.target <= tick ==> s.tx.target in l.h.accepted
  {
    hide Known, AnyExpires, AnyOverdue, StepSlot;
    LiveTail(k12, l);
    AnyExpiresIs(k12, l, tick);
    LiveOverdue(l, tick);
    ExpiryLoses(k12, l.h.slot, tick);
  }

  lemma LiveOldest(l: Life, target: nat, tick: nat)
    requires Hopeful(l) && l.h.slot.state.Live()
    ensures OldestReveal(l, target, tick) <==> PassedReveal(l.h, target, tick) && FirstPassed(l.h, target, tick)
  {
    forall t: nat ensures OverdueReveal(l, t, tick) <==> PassedReveal(l.h, t, tick) { LivePassed(l, t, tick); }
    hide OverdueReveal, PassedReveal;
  }

  lemma ExpiryLoses(k12: Hash, slot: ManagedSlot, tick: nat)
    requires slot.state.Live() && slot.chain.Some?
    ensures StepSlot(k12, slot, ExpiryDue(tick)).slot.state.Live() <==> !AnyExpires(CallsOf(slot), slot.chain.value.first, tick)
  {
    hide AnyExpires;
  }

  lemma LiveOverdue(l: Life, tick: nat)
    requires Hopeful(l) && l.h.slot.state.Live()
    ensures AnyOverdue(l, tick) <==> exists s :: s in l.h.signed && l.h.chainFirst <= s.tx.target <= tick && s.tx.target !in l.h.accepted
  {
    if s :| s in l.h.signed && l.h.chainFirst <= s.tx.target <= tick && s.tx.target !in l.h.accepted { assert Overdue(l, s, tick); }
  }

  lemma LivePassed(l: Life, target: nat, tick: nat)
    requires Hopeful(l) && l.h.slot.state.Live()
    ensures OverdueReveal(l, target, tick) <==> PassedReveal(l.h, target, tick)
  {
    if PassedReveal(l.h, target, tick) {
      var s :| s in l.h.signed && s.kind.RevealCommit? && s.tx.target == target && s.tx.target !in l.h.accepted;
      assert Overdue(l, s, tick);
    }
  }

  /** Over every run: a chain's watermark is the highest of its own targets that was observed as
      update tick while it was live, and a live chain is active, no longer starting at its first
      target, if and only if there was such an observation. */
  lemma AcknowledgementIsExact(k12: Hash, stream: nat, l: Life)
    requires Lived(k12, stream, l)
    ensures l.h.slot.chain.Some? ==> l.h.slot.chain.value.confirmed == l.acknowledged
    ensures l.h.slot.state.Live() ==> l.h.slot.state == if l.acknowledged.Some? then Active else Starting(l.h.chainFirst)
  {
    LivedIsTold(k12, stream, l);
    KnownFacts(k12, l);
    hide Known, LogOk, SignedOk, OnlySigned, CallsSigned, AcceptedOk, StillPlanned, CallsKnown;
  }
}
