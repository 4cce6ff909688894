/** The broadcast log over all runs. */
module SlotLog {
  import opened Basics
  import opened SlotRules
  import opened SlotRuns
  import opened SlotShape
  import opened SlotLinks
  import opened SlotSends

  ghost predicate Logged(k12: Hash, h: Trace) {
    && Deliveries(k12, h)
    && LogOk(h.signed, h.sent)
    && AgainOnce(h.sent) && AgainMarked(CallsOf(h.slot), h.sent)
    && TerminalOnce(h.sent) && TerminalFresh(h.slot, h.sent)
  }

  // ---------------------------------------------------------------- what one dispatch sends

  predicate Goes(c: PlannedCall, x: Context) { Decide(c, x).Send? || Decide(c, x).SendAgain? }

  lemma {:induction false} SentByIs(h: Trace, calls: seq<PlannedCall>, x: Context, n: nat, e: Sent)
    requires n <= |calls|
    ensures e in SentBy(h, calls, x, n) <==> exists i :: 0 <= i < n && Goes(calls[i], x) && e == SentOf(h, calls[i], x)
  {
    if n > 0 { SentByIs(h, calls, x, n - 1, e); }
  }

  ghost predicate Rising(s: seq<Sent>) {
    forall a, b :: 0 <= a < b < |s| ==> s[a].call.tx.target < s[b].call.tx.target
  }

  lemma {:induction false} SentByAscends(h: Trace, calls: seq<PlannedCall>, x: Context, n: nat, stream: nat)
    requires n <= |calls| && CallsOk(calls, stream)
    ensures Rising(SentBy(h, calls, x, n))
    ensures forall e :: e in SentBy(h, calls, x, n) ==> n > 0 && e.call.tx.target <= calls[n - 1].target
  {
    if n > 0 {
      var r, s := SentBy(h, calls, x, n - 1), SentBy(h, calls, x, n);
      SentByAscends(h, calls, x, n - 1, stream);
      assert CallOk(calls[n - 1], stream);
      if n > 1 { assert calls[n - 2].target < calls[n - 1].target; }
      forall a, b | 0 <= a < b < |s| ensures s[a].call.tx.target < s[b].call.tx.target {
        assert s[a] == r[a] && r[a] in r;
        assert s[b] == if b < |r| then r[b] else SentOf(h, calls[n - 1], x);
      }
    }
  }

  lemma SendFits(k12: Hash, h: Trace, tick: nat, i: nat)
    requires Deliveries(k12, h) && h.slot.chain.Some? && i < |CallsOf(h.slot)|
    requires Goes(CallsOf(h.slot)[i], ContextOf(h.slot, tick))
    ensures var e := SentOf(h, CallsOf(h.slot)[i], ContextOf(h.slot, tick)); SendOk(e) && e.call in h.signed
  {
    var calls, x := CallsOf(h.slot), ContextOf(h.slot, tick);
    var c := calls[i];
    assert CallOk(c, h.slot.stream);
    assert SignedOf(c) in CallSet(calls);
    assert c.state.Accepted? <==> c.target in h.accepted;
    if c.kind.TerminalReveal? {
      assert h.slot.state.Draining? && c.target == h.slot.state.terminalTarget;
      GateMeansChainAccepted(k12, h);
    }
  }

  lemma DispatchLogOk(k12: Hash, h: Trace, tick: nat)
    requires Deliveries(k12, h) && LogOk(h.signed, h.sent)
    ensures LogOk(h.signed, h.sent + NewlySent(h, DispatchDue(tick)))
  {
    if h.slot.chain.Some? {
      var calls, x := CallsOf(h.slot), ContextOf(h.slot, tick);
      forall e | e in NewlySent(h, DispatchDue(tick)) ensures SendOk(e) && e.call in h.signed {
        SentByIs(h, calls, x, |calls|, e);
        var i :| 0 <= i < |calls| && Goes(calls[i], x) && e == SentOf(h, calls[i], x);
        SendFits(k12, h, tick, i);
      }
    }
  }

  lemma NewAgainIsFirst(h: Trace, tick: nat, e: Sent, d: Sent)
    requires SlotOk(h.slot) && h.slot.chain.Some? && AgainMarked(CallsOf(h.slot), h.sent)
    requires e in NewlySent(h, DispatchDue(tick)) && e.again && d in h.sent && d.again
    ensures d.call.tx.target != e.call.tx.target
  {
    var calls, x := CallsOf(h.slot), ContextOf(h.slot, tick);
    SentByIs(h, calls, x, |calls|, e);
    var i :| 0 <= i < |calls| && Goes(calls[i], x) && e == SentOf(h, calls[i], x);
    assert CallOk(calls[i], h.slot.stream);
  }

  lemma AgainJoin(s: seq<Sent>, m: seq<Sent>)
    requires AgainOnce(s) && Rising(m)
    requires forall d, e :: d in s && e in m && d.again && e.again ==> d.call.tx.target != e.call.tx.target
    ensures AgainOnce(s + m)
  {
    var all := s + m;
    forall i, j | 0 <= i < j < |all| && all[i].again && all[j].again
      ensures all[i].call.tx.target != all[j].call.tx.target
    {
      assert all[i] == if i < |s| then s[i] else m[i - |s|];
      assert all[j] == if j < |s| then s[j] else m[j - |s|];
    }
  }

  lemma DispatchAgainOnce(h: Trace, tick: nat)
    requires SlotOk(h.slot) && AgainOnce(h.sent) && AgainMarked(CallsOf(h.slot), h.sent)
    ensures AgainOnce(h.sent + NewlySent(h, DispatchDue(tick)))
  {
    var m := NewlySent(h, DispatchDue(tick));
    if h.slot.chain.Some? {
      SentByAscends(h, CallsOf(h.slot), ContextOf(h.slot, tick), |CallsOf(h.slot)|, h.slot.stream);
      forall d, e | d in h.sent && e in m && d.again && e.again ensures d.call.tx.target != e.call.tx.target {
        NewAgainIsFirst(h, tick, e, d);
      }
    }
    AgainJoin(h.sent, m);
  }

  lemma DispatchAgainMarked(h: Trace, tick: nat)
    requires SlotOk(h.slot) && AgainMarked(CallsOf(h.slot), h.sent)
    ensures AgainMarked(CallsOf(DispatchCalls(h.slot, tick).slot), h.sent + NewlySent(h, DispatchDue(tick)))
  {
    if h.slot.chain.Some? {
      var calls, x := CallsOf(h.slot), ContextOf(h.slot, tick);
      var n := DispatchEach(calls, x);
      var m := NewlySent(h, DispatchDue(tick));
      forall i, e | 0 <= i < |n| && e in h.sent + m && e.again && e.call.tx.target == n[i].target
        ensures n[i].redundantAttempted
      {
        if e in m {
          SentByIs(h, calls, x, |calls|, e);
          var j :| 0 <= j < |calls| && Goes(calls[j], x) && e == SentOf(h, calls[j], x);
          assert CallOk(calls[j], h.slot.stream);
          assert i == j;
        } else {
          assert calls[i].redundantAttempted;
        }
      }
    }
  }

  lemma TerminalJoin(s: seq<Sent>, m: seq<Sent>)
    requires TerminalOnce(s) && Rising(m)
    requires forall d, e :: d in m && e in m && ShutdownTerminal(d) && ShutdownTerminal(e) ==> d.call.tx.target == e.call.tx.target
    requires forall d, e :: d in s && e in m && ShutdownTerminal(d) ==> !ShutdownTerminal(e)
    ensures TerminalOnce(s + m)
  {
    var all := s + m;
    forall i, j | 0 <= i < j < |all| && ShutdownTerminal(all[i]) ensures !ShutdownTerminal(all[j]) {
      assert all[i] == if i < |s| then s[i] else m[i - |s|];
      assert all[j] == if j < |s| then s[j] else m[j - |s|];
      if |s| <= i { assert m[i - |s|] in m && m[j - |s|] in m; }
    }
  }

  /** A terminal call sent in a shutdown drain is the last planned call, sent when ready. */
  lemma NewTerminal(k12: Hash, h: Trace, tick: nat, e: Sent)
    requires SlotOk(h.slot) && TerminalFresh(h.slot, h.sent) && h.slot.chain.Some?
    requires e in NewlySent(h, DispatchDue(tick)) && ShutdownTerminal(e)
    ensures ShutdownDrain(h.slot.state) && e.call.tx.target == h.slot.state.terminalTarget
    ensures var c := CallsOf(h.slot)[|CallsOf(h.slot)| - 1];
      c.state.Ready? && !Dispatched(c, ContextOf(h.slot, tick)).state.Ready?
  {
    var calls, x := CallsOf(h.slot), ContextOf(h.slot, tick);
    SentByIs(h, calls, x, |calls|, e);
    var i :| 0 <= i < |calls| && Goes(calls[i], x) && e == SentOf(h, calls[i], x);
    assert CallOk(calls[i], h.slot.stream) && CallOk(calls[|calls| - 1], h.slot.stream);
    assert i == |calls| - 1;
  }

  lemma DispatchTerminal(k12: Hash, h: Trace, tick: nat)
    requires SlotOk(h.slot) && TerminalOnce(h.sent) && TerminalFresh(h.slot, h.sent)
    ensures var sent := h.sent + NewlySent(h, DispatchDue(tick));
      TerminalOnce(sent) && TerminalFresh(DispatchCalls(h.slot, tick).slot, sent)
  {
    var m := NewlySent(h, DispatchDue(tick));
    if h.slot.chain.Some? {
      SentByAscends(h, CallsOf(h.slot), ContextOf(h.slot, tick), |CallsOf(h.slot)|, h.slot.stream);
      forall e | e in m && ShutdownTerminal(e)
        ensures ShutdownDrain(h.slot.state) && e.call.tx.target == h.slot.state.terminalTarget
        ensures CallsOf(h.slot)[|CallsOf(h.slot)| - 1].state.Ready?
        ensures !Dispatched(CallsOf(h.slot)[|CallsOf(h.slot)| - 1], ContextOf(h.slot, tick)).state.Ready?
      {
        NewTerminal(k12, h, tick, e);
      }
    }
    TerminalJoin(h.sent, m);
  }

  lemma DispatchLogs(k12: Hash, h: Trace, tick: nat)
    requires Logged(k12, h)
    ensures Logged(k12, Next(k12, h, DispatchDue(tick)))
  {
    var n := Next(k12, h, DispatchDue(tick));
    StepDelivers(k12, h, DispatchDue(tick));
    assert n.signed == h.signed;
    DispatchLogOk(k12, h, tick);
    DispatchAgainOnce(h, tick);
    DispatchAgainMarked(h, tick);
    DispatchTerminal(k12, h, tick);
  }

  // ---------------------------------------------------------------- steps that send nothing

  /** The calls are updated in place, dropped, or followed by newly signed ones; a call keeps
      its redundant mark. */
  ghost predicate Unsent(a: seq<PlannedCall>, b: seq<PlannedCall>, sent: seq<Sent>) {
    forall i :: 0 <= i < |b| ==>
      (exists j :: 0 <= j < |a| && a[j].target == b[i].target && (a[j].redundantAttempted ==> b[i].redundantAttempted))
      || (forall e :: e in sent ==> e.call.tx.target != b[i].target)
  }

  lemma MarksStay(a: seq<PlannedCall>, b: seq<PlannedCall>, sent: seq<Sent>)
    requires AgainMarked(a, sent) && Unsent(a, b, sent)
    ensures AgainMarked(b, sent)
  {
  }

  lemma NoTerminalSigned(k12: Hash, h: Trace, e: Sent)
    requires Links(k12, h) && LogOk(h.signed, h.sent) && e in h.sent
    requires !h.slot.state.Draining? && !h.slot.state.Drained?
    ensures !e.call.kind.TerminalReveal?
  {
    var i :| 0 <= i < |h.signed| && h.signed[i] == e.call;
    if i < |h.signed| - 1 { assert Linked(k12, h.signed[i], h.signed[i + 1]); }
  }

  lemma SentBound(k12: Hash, h: Trace, e: Sent)
    requires Links(k12, h) && LogOk(h.signed, h.sent) && e in h.sent
    ensures h.signed != [] && e.call.tx.target <= LastTarget(h.signed)
  {
    SignedBound(k12, h.signed, h.slot.stream, e.call);
  }

  lemma EachUnsent(a: seq<PlannedCall>, b: seq<PlannedCall>, sent: seq<Sent>)
    requires |a| == |b|
    requires forall i :: 0 <= i < |a| ==> a[i].target == b[i].target && a[i].redundantAttempted == b[i].redundantAttempted
    ensures Unsent(a, b, sent)
  {
  }

  lemma SubsetUnsent(a: seq<PlannedCall>, b: seq<PlannedCall>, sent: seq<Sent>)
    requires forall i :: 0 <= i < |b| ==> b[i] in a
    ensures Unsent(a, b, sent)
  {
    forall i | 0 <= i < |b|
      ensures exists j :: 0 <= j < |a| && a[j].target == b[i].target && (a[j].redundantAttempted ==> b[i].redundantAttempted)
    {
      var j :| 0 <= j < |a| && a[j] == b[i];
    }
  }

  lemma PruneUnsent(slot: ManagedSlot, tick: nat, sent: seq<Sent>)
    ensures Unsent(CallsOf(slot), CallsOf(PruneCalls(slot, tick)), sent)
  {
    var a, b := CallsOf(slot), CallsOf(PruneCalls(slot, tick));
    forall i | 0 <= i < |b| ensures b[i] in a {
      if slot.chain.Some? && !slot.state.Draining? { RetainIn(a, slot.chain.value.first, tick, b[i]); }
    }
    SubsetUnsent(a, b, sent);
  }

  lemma ExpireUnsent(slot: ManagedSlot, tick: nat, sent: seq<Sent>)
    ensures Unsent(CallsOf(slot), CallsOf(ExpireCalls(slot, tick).slot), sent)
  {
    if ExpireCalls(slot, tick).slot.chain.Some? {
      EachUnsent(CallsOf(slot), ExpireEach(CallsOf(slot), tick), sent);
    }
  }

  lemma PollUnsent(slot: ManagedSlot, polls: nat -> Poll, sent: seq<Sent>)
    ensures Unsent(CallsOf(slot), CallsOf(HarvestBroadcasts(slot, polls).slot), sent)
  {
    if slot.chain.Some? {
      EachUnsent(CallsOf(slot), HarvestEach(CallsOf(slot), polls, ShutdownDrain(slot.state)), sent);
    }
  }

  lemma OtherStepUnsent(k12: Hash, h: Trace, e: SlotEvent)
    requires SlotOk(h.slot) && (e.Polled? || e.ExpiryDue? || e.StatusSeen? || e.DrainChecked? || e.RestartChecked? || e.Pruned?)
    ensures Unsent(CallsOf(h.slot), CallsOf(StepSlot(k12, h.slot, e).slot), h.sent)
  {
    hide SlotOk, HarvestBroadcasts, ExpireCalls, ApplyStatus, PruneCalls, Unsent;
    match e
    case Polled(polls) => PollUnsent(h.slot, polls, h.sent);
    case ExpiryDue(tick) => ExpireUnsent(h.slot, tick, h.sent);
    case StatusSeen(requested, observed) =>
      StatusIsPlain(h.slot, requested, observed);
      SubsetUnsent(CallsOf(h.slot), CallsOf(StepSlot(k12, h.slot, e).slot), h.sent);
    case DrainChecked => SubsetUnsent(CallsOf(h.slot), CallsOf(StepSlot(k12, h.slot, e).slot), h.sent);
    case RestartChecked(tick) => SubsetUnsent(CallsOf(h.slot), CallsOf(StepSlot(k12, h.slot, e).slot), h.sent);
    case Pruned(tick) => PruneUnsent(h.slot, tick, h.sent);
  }

  ghost predicate TailOf(a: seq<PlannedCall>, b: seq<PlannedCall>, from: nat) {
    |a| <= |b| && b[..|a|] == a && forall i :: |a| <= i < |b| ==> from < b[i].target
  }

  lemma TailUnsent(k12: Hash, h: Trace, b: seq<PlannedCall>)
    requires Links(k12, h) && LogOk(h.signed, h.sent)
    requires h.signed == [] || TailOf(CallsOf(h.slot), b, LastTarget(h.signed))
    ensures Unsent(CallsOf(h.slot), b, h.sent)
  {
    var a := CallsOf(h.slot);
    forall i | 0 <= i < |b|
      ensures (exists j :: 0 <= j < |a| && a[j].target == b[i].target && (a[j].redundantAttempted ==> b[i].redundantAttempted))
           || (forall e :: e in h.sent ==> e.call.tx.target != b[i].target)
    {
      if h.signed != [] && i < |a| {
        assert b[i] == b[..|a|][i] == a[i];
      } else {
        forall e | e in h.sent ensures e.call.tx.target != b[i].target { SentBound(k12, h, e); }
      }
    }
  }

  lemma {:induction false} ExtendTail(k12: Hash, chain: Chain, horizon: nat, draws: nat -> Option<Bits>, n: nat)
    ensures TailOf(chain.calls, ExtendTo(k12, chain, horizon, draws, n).calls, chain.last)
    decreases horizon - chain.last
  {
    if CanExtend(chain, horizon) && draws(n).Some? {
      var next := Continue(k12, chain, draws(n).value);
      ExtendTail(k12, next, horizon, draws, n + 1);
      var x := ExtendTo(k12, next, horizon, draws, n + 1).calls;
      assert x[..|chain.calls|] == x[..|next.calls|][..|chain.calls|];
      assert x[|chain.calls|] == x[..|next.calls|][|chain.calls|];
    }
  }

  lemma PlanningUnsent(k12: Hash, h: Trace, e: SlotEvent)
    requires Links(k12, h) && LogOk(h.signed, h.sent) && (e.StartAsked? || e.ExtendAsked? || e.DrainAsked?)
    ensures Unsent(CallsOf(h.slot), CallsOf(StepSlot(k12, h.slot, e).slot), h.sent)
  {
    var a, b := CallsOf(h.slot), CallsOf(StepSlot(k12, h.slot, e).slot);
    match e
    case StartAsked(tick, preimage) =>
      if Started(k12, h.slot, e) {
        StartTargetFits(h.slot, tick);
        TailUnsent(k12, h, b);
      }
    case ExtendAsked(tick, draws) =>
      if h.slot.state.Live() && !Missed(h.slot, tick) && CheckedAdd(tick, SEND_LEAD_TICKS).Some? {
        ExtendTail(k12, h.slot.chain.value, tick + SEND_LEAD_TICKS, draws, 0);
        TailUnsent(k12, h, b);
      } else {
        ExpireKeeps(h.slot, tick);
      }
    case DrainAsked(reason) =>
      if h.slot.state.Live() && CheckedAdd(h.slot.chain.value.last, STREAM_COUNT).Some? {
        TailUnsent(k12, h, b);
      }
  }

  // ---------------------------------------------------------------- the terminal call of a shutdown drain

  lemma PollFresh(slot: ManagedSlot, polls: nat -> Poll, sent: seq<Sent>)
    requires SlotOk(slot) && TerminalFresh(slot, sent)
    ensures TerminalFresh(HarvestBroadcasts(slot, polls).slot, sent)
  {
    if slot.state.Draining? {
      var calls := CallsOf(slot);
      assert CallOk(calls[|calls| - 1], slot.stream);
    }
  }

  lemma DrainFresh(k12: Hash, h: Trace, reason: DrainReason)
    requires Links(k12, h) && LogOk(h.signed, h.sent) && TerminalFresh(h.slot, h.sent)
    ensures TerminalFresh(StepSlot(k12, h.slot, DrainAsked(reason)).slot, h.sent)
  {
    if h.slot.state.Live() {
      forall e | e in h.sent ensures !ShutdownTerminal(e) { NoTerminalSigned(k12, h, e); }
    }
  }

  lemma OtherFresh(k12: Hash, h: Trace, e: SlotEvent)
    requires SlotOk(h.slot) && TerminalFresh(h.slot, h.sent)
    requires !e.EpochReset? && !e.Polled? && !e.DrainAsked? && !e.DispatchDue?
    ensures TerminalFresh(StepSlot(k12, h.slot, e).slot, h.sent)
  {
    if e.StatusSeen? {
      StatusIsPlain(h.slot, e.requested, e.observed);
      hide ApplyStatus;
    }
  }

  lemma StepFresh(k12: Hash, h: Trace, e: SlotEvent)
    requires Links(k12, h) && LogOk(h.signed, h.sent) && TerminalFresh(h.slot, h.sent)
    requires !e.EpochReset? && !e.DispatchDue?
    ensures TerminalFresh(StepSlot(k12, h.slot, e).slot, h.sent)
  {
    match e
    case Polled(polls) => PollFresh(h.slot, polls, h.sent);
    case DrainAsked(reason) => DrainFresh(k12, h, reason);
    case _ => OtherFresh(k12, h, e);
  }

  // ---------------------------------------------------------------- all steps, all runs

  lemma OtherLogs(k12: Hash, h: Trace, e: SlotEvent)
    requires Logged(k12, h) && !e.DispatchDue? && !e.EpochReset?
    ensures Logged(k12, Next(k12, h, e))
  {
    hide StepSlot, Deliveries, TerminalFresh, Unsent, AgainMarked, SendOk, AgainOnce, TerminalOnce, Links;
    var n := Next(k12, h, e);
    StepDelivers(k12, h, e);
    assert Links(k12, h) && SlotOk(h.slot) by { DeliveriesLink(k12, h); }
    StepFresh(k12, h, e);
    if e.StartAsked? || e.ExtendAsked? || e.DrainAsked? {
      PlanningUnsent(k12, h, e);
    } else {
      OtherStepUnsent(k12, h, e);
    }
    MarksStay(CallsOf(h.slot), CallsOf(n.slot), h.sent);
    assert n.sent == h.sent;
  }

  lemma DeliveriesLink(k12: Hash, h: Trace)
    requires Deliveries(k12, h)
    ensures Links(k12, h) && SlotOk(h.slot)
  {
  }

  lemma StepLogs(k12: Hash, h: Trace, e: SlotEvent)
    requires Logged(k12, h)
    ensures Logged(k12, Next(k12, h, e))
  {
    if e.DispatchDue? {
      StepDelivers(k12, h, e);
      DispatchLogs(k12, h, e.tick);
    } else if e.EpochReset? {
      StepDelivers(k12, h, e);
    } else {
      OtherLogs(k12, h, e);
      hide Logged, Next;
    }
  }

  lemma {:induction false} RunLogs(k12: Hash, h: Trace, events: seq<SlotEvent>)
    requires Logged(k12, h)
    ensures Logged(k12, RunSlot(k12, h, events))
    decreases |events|
  {
    if events != [] {
      StepLogs(k12, h, events[0]);
      RunLogs(k12, Next(k12, h, events[0]), events[1..]);
    }
  }

  lemma BeginLogs(k12: Hash, stream: nat)
    requires stream < STREAM_COUNT
    ensures Logged(k12, Begin(stream))
  {
    BeginLinks(k12, stream);
  }

  /** Over every run: each broadcast lies in its window, finds no task of its call running and
      carries signed bytes, the same for every broadcast of a target. A broadcast is redundant
      exactly when the call was already accepted; that happens at most once per call, 3 or 4
      ticks ahead (3 for a reveal), for the current chain only and never for a terminal call.
      A terminal reveal goes out only after its whole chain was accepted, and only once in a
      shutdown drain. */
  lemma BroadcastLogIsSafe(k12: Hash, stream: nat, events: seq<SlotEvent>)
    requires stream < STREAM_COUNT
    ensures var h := RunSlot(k12, Begin(stream), events);
      && (forall e :: e in h.sent ==> SendOk(e) && e.call in h.signed)
      && (forall d, e :: d in h.sent && e in h.sent && d.call.tx.target == e.call.tx.target ==> d.call == e.call)
      && AgainOnce(h.sent) && TerminalOnce(h.sent)
  {
    BeginLogs(k12, stream);
    RunLogs(k12, Begin(stream), events);
    var h := RunSlot(k12, Begin(stream), events);
    forall d, e | d in h.sent && e in h.sent && d.call.tx.target == e.call.tx.target ensures d.call == e.call {
      SignedOnce(k12, h.signed, h.slot.stream, d.call, e.call);
    }
  }

  lemma SignedOnce(k12: Hash, signed: seq<Signed>, stream: nat, a: Signed, b: Signed)
    requires SignedOk(k12, signed, stream) && a in signed && b in signed && a.tx.target == b.tx.target
    ensures a == b
  {
    var i :| 0 <= i < |signed| && signed[i] == a;
    var j :| 0 <= j < |signed| && signed[j] == b;
    if i < j { TargetsAscend(k12, signed, stream, i, j); }
    if j < i { TargetsAscend(k12, signed, stream, j, i); }
  }

  /** A drain that ends accepted had every call of its chain accepted, the terminal reveal
      included, whatever became of calls kept from older chains. */
  lemma AcceptedDrainIsComplete(k12: Hash, stream: nat, events: seq<SlotEvent>)
    requires stream < STREAM_COUNT
    ensures var h := RunSlot(k12, Begin(stream), events);
      h.slot.state == Drained(DrainAccepted) ==>
        && h.signed != [] && h.signed[|h.signed| - 1].kind.TerminalReveal?
        && forall s :: s in h.signed && h.chainFirst <= s.tx.target ==> s.tx.target in h.accepted
  {
    BeginLogs(k12, stream);
    RunLogs(k12, Begin(stream), events);
    var h := RunSlot(k12, Begin(stream), events);
    if h.slot.state == Drained(DrainAccepted) {
      forall s | s in h.signed && h.chainFirst <= s.tx.target ensures s.tx.target in h.accepted {
        SignedBound(k12, h.signed, h.slot.stream, s);
      }
    }
  }

  // ---------------------------------------------------------------- completeness

  /** The call is due for its first delivery, or for another try. */
  ghost predicate MayGo(h: Trace, c: PlannedCall) {
    && (c.state.Ready? || c.state.Retry?)
    && (c.kind.TerminalReveal? ==> ChainAccepted(h.signed, h.accepted, h.chainFirst, c.target))
  }

  /** The accepted call is due for its redundant delivery. */
  ghost predicate MayGoAgain(h: Trace, c: PlannedCall, tick: nat) {
    && h.slot.state.Live() && h.chainFirst <= c.target && c.target in h.accepted && !c.kind.TerminalReveal?
    && !c.redundantAttempted && 3 <= c.target - tick <= (if c.kind.FirstCommit? then 4 else 3)
  }

  /** The dispatcher's decision in terms of the history. */
  lemma DecidesByHistory(k12: Hash, h: Trace, tick: nat, i: nat)
    requires Logged(k12, h) && h.slot.chain.Some? && i < |CallsOf(h.slot)|
    ensures var c := CallsOf(h.slot)[i];
      Goes(c, ContextOf(h.slot, tick)) <==>
        1 <= c.target - tick <= (if c.kind.FirstCommit? then 6 else 4) && (MayGo(h, c) || MayGoAgain(h, c, tick))
  {
    var calls := CallsOf(h.slot);
    var c := calls[i];
    assert CallOk(c, h.slot.stream);
    assert c.state.Accepted? <==> c.target in h.accepted;
    if c.kind.TerminalReveal? {
      GateMeansChainAccepted(k12, h);
    }
    hide SignedOk, EndsOk, CallsSigned, HeadOk, StillPlanned, OnlySigned, ChainAccepted, PrerequisitesAccepted, LogOk, AgainMarked;
  }

  /** A dispatch logs a send of exactly the planned calls that go. */
  lemma SentExactly(h: Trace, tick: nat, i: nat)
    requires SlotOk(h.slot) && h.slot.chain.Some? && i < |CallsOf(h.slot)|
    ensures var c := CallsOf(h.slot)[i];
      (exists e :: e in NewlySent(h, DispatchDue(tick)) && e.call == SignedOf(c)) <==> Goes(c, ContextOf(h.slot, tick))
  {
    var calls, x := CallsOf(h.slot), ContextOf(h.slot, tick);
    if e :| e in NewlySent(h, DispatchDue(tick)) && e.call == SignedOf(calls[i]) {
      SentByIs(h, calls, x, |calls|, e);
      var j :| 0 <= j < |calls| && Goes(calls[j], x) && e == SentOf(h, calls[j], x);
      assert CallOk(calls[i], h.slot.stream) && CallOk(calls[j], h.slot.stream);
      assert i == j;
    }
    if Goes(calls[i], x) { SentByIs(h, calls, x, |calls|, SentOf(h, calls[i], x)); }
  }
}
