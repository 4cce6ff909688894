/** Successes over all runs: exactly the accepted reveals of an epoch are reported as such. */
module SlotOutcomes {
  import opened Basics
  import opened SlotRules
  import opened SlotRuns
  import opened SlotShape
  import opened SlotLinks
  import opened SlotSends
  import opened SlotLog
  import opened SlotMarks

  /** A reveal that was signed in this epoch and accepted by the backend. */
  ghost predicate RevealAccepted(h: Trace, target: nat) {
    target in h.accepted && exists s :: s in h.signed && s.kind.RevealCommit? && s.tx.target == target
  }

  ghost predicate Reported(h: Trace) {
    forall t: nat :: Success(t) in h.marks <==> RevealAccepted(h, t)
  }

  lemma {:induction false} AcceptedMarkHas(calls: seq<PlannedCall>, polls: nat -> Poll, n: nat, i: nat)
    requires i < n <= |calls| && NewlyAccepted(calls[i], polls(i)) && calls[i].kind.RevealCommit?
    ensures Success(calls[i].target) in AcceptedMarks(calls, polls, n)
  {
    if i < n - 1 { AcceptedMarkHas(calls, polls, n - 1, i); }
  }

  /** Signing more adds no accepted reveal: what was accepted had been signed, and once only. */
  lemma SigningAddsNone(k12: Hash, h: Trace, n: Trace, target: nat)
    requires Links(k12, n) && OnlySigned(h.signed, h.accepted) && n.accepted == h.accepted
    requires forall s :: s in h.signed ==> s in n.signed
    ensures RevealAccepted(n, target) <==> RevealAccepted(h, target)
  {
    if RevealAccepted(n, target) {
      var s :| s in n.signed && s.kind.RevealCommit? && s.tx.target == target;
      var r :| r in h.signed && r.tx.target == target;
      SignedOnce(k12, n.signed, n.slot.stream, s, r);
    }
  }

  lemma PollReports(k12: Hash, h: Trace, polls: nat -> Poll, target: nat)
    requires Deliveries(k12, h)
    ensures var n := Next(k12, h, Polled(polls));
      RevealAccepted(n, target) <==> RevealAccepted(h, target) || Success(target) in StepSlot(k12, h.slot, Polled(polls)).marks
  {
    var e := Polled(polls);
    var n := Next(k12, h, e);
    var calls := CallsOf(h.slot);
    assert n.signed == h.signed;
    var marks := StepSlot(k12, h.slot, e).marks;
    if RevealAccepted(n, target) && target !in h.accepted {
      var i :| 0 <= i < |calls| && NewlyAccepted(calls[i], polls(i)) && calls[i].target == target;
      var s :| s in h.signed && s.kind.RevealCommit? && s.tx.target == target;
      assert SignedOf(calls[i]) in CallSet(calls) && CallOk(calls[i], h.slot.stream);
      SignedOnce(k12, h.signed, h.slot.stream, s, SignedOf(calls[i]));
      AcceptedMarkHas(calls, polls, |calls|, i);
    }
    if Success(target) in marks {
      var shutdown := ShutdownDrain(h.slot.state);
      if Success(target) in FailedMarks(calls, polls, shutdown, |calls|) {
        FailedMarkIs(calls, polls, shutdown, |calls|, Success(target));
      }
      AcceptedMarkIs(calls, polls, |calls|, Success(target));
      var i :| 0 <= i < |calls| && calls[i].target == target && calls[i].kind.RevealCommit? && NewlyAccepted(calls[i], polls(i));
      assert SignedOf(calls[i]) in CallSet(calls) && CallOk(calls[i], h.slot.stream);
      assert target in AcceptedBy(h.slot, e);
    }
    hide SignedOk, EndsOk, HeadOk, StillPlanned, TerminalGated, AcceptedOk, OnlySigned, ChainAccepted;
  }

  lemma OtherReports(k12: Hash, h: Trace, e: SlotEvent, target: nat)
    requires Deliveries(k12, h) && Spent(h.slot, h.failures) && !e.Polled? && !e.EpochReset?
    ensures RevealAccepted(Next(k12, h, e), target) <==> RevealAccepted(h, target)
    ensures Success(target) !in StepSlot(k12, h.slot, e).marks
  {
    var n := Next(k12, h, e);
    StepLinks(k12, h, e);
    assert n.accepted == h.accepted;
    hide StepSlot, Links, RevealAccepted, OnlySigned;
    SigningAddsNone(k12, h, n, target);
    if Success(target) in StepSlot(k12, h.slot, e).marks { MarksNameTheChain(k12, h, e, Success(target)); }
  }

  lemma StepReports(k12: Hash, h: Trace, e: SlotEvent)
    requires Deliveries(k12, h) && Spent(h.slot, h.failures) && Reported(h)
    ensures Reported(Next(k12, h, e))
  {
    var n := Next(k12, h, e);
    if e.EpochReset? {
      assert n.marks == [] && n.accepted == {};
    } else {
      assert n.marks == h.marks + StepSlot(k12, h.slot, e).marks;
      forall t: nat ensures Success(t) in n.marks <==> RevealAccepted(n, t) {
        assert Success(t) in h.marks <==> RevealAccepted(h, t);
        if e.Polled? { PollReports(k12, h, e.polls, t); } else { OtherReports(k12, h, e, t); }
      }
    }
    hide Deliveries, Spent, StepSlot, RevealAccepted;
  }

  lemma {:induction false} RunReports(k12: Hash, h: Trace, events: seq<SlotEvent>)
    requires Deliveries(k12, h) && Spent(h.slot, h.failures) && Reported(h)
    ensures Reported(RunSlot(k12, h, events))
    decreases |events|
  {
    if events != [] {
      StepDelivers(k12, h, events[0]);
      StepSpends(k12, h, events[0]);
      StepReports(k12, h, events[0]);
      hide Deliveries, Spent, Reported, Next;
      RunReports(k12, Next(k12, h, events[0]), events[1..]);
    }
  }

  /** Over every run: a success is reported for exactly the reveals of the epoch that the backend
      accepted, for no first commit, terminal reveal or unsigned target. */
  lemma SuccessesAreAcceptedReveals(k12: Hash, stream: nat, events: seq<SlotEvent>, target: nat)
    requires stream < STREAM_COUNT
    ensures var h := RunSlot(k12, Begin(stream), events); Success(target) in h.marks <==> RevealAccepted(h, target)
  {
    BeginLogs(k12, stream);
    RunReports(k12, Begin(stream), events);
    assert Reported(RunSlot(k12, Begin(stream), events));
  }
}
