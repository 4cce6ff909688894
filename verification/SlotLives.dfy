/** What became of every signed call, read off the history alone: which tasks run, what was
    accepted and what was passed. Each planned call is in exactly the state its history gives. */
module SlotLives {
  import opened Basics
  import opened SlotRules
  import opened SlotRuns
  import opened SlotShape
  import opened SlotLinks
  import opened SlotSends
  import opened SlotLog
  import opened SlotFreeze
  import opened SlotFreshness
  import opened SlotMarks

  /** A stream's history with the targets whose task runs, the targets that failed, the highest
      update tick that a live chain was acknowledged at, and, for a slot that waits to be absent,
      the first answer that counts and the bound it began with. */
  datatype Life = Life(h: Trace, running: set<nat>, failed: set<nat>, acknowledged: Option<nat>, from: nat, bound: nat)

  function NewLife(stream: nat): Life { Life(Begin(stream), {}, {}, None, 0, 0) }

  ghost predicate SentTo(h: Trace, target: nat) { exists e :: e in h.sent && e.call.tx.target == target }

  ghost predicate SentAgain(h: Trace, target: nat) { exists e :: e in h.sent && e.again && e.call.tx.target == target }

  /** The current chain signed a call for this target. */
  ghost predicate ChainSigned(h: Trace, target: nat) {
    h.chainFirst <= target && exists s :: s in h.signed && s.tx.target == target
  }

  /** The poll found the task of this target's planned call finished, well or not. */
  ghost predicate Answered(slot: ManagedSlot, polls: nat -> Poll, target: nat, ok: bool) {
    exists i :: 0 <= i < |CallsOf(slot)| && CallsOf(slot)[i].target == target && polls(i) == Done(ok)
  }

  /** A signed call whose target this tick has reached without an acceptance. */
  ghost predicate Passed(h: Trace, s: Signed, tick: nat) {
    s in h.signed && s.tx.target <= tick && s.tx.target !in h.accepted
  }

  /** The failing task of a shutdown drain's terminal call. */
  ghost predicate TerminalFails(l: Life, polls: nat -> Poll, target: nat) {
    && l.h.slot.state.Draining? && l.h.slot.state.reason.Shutdown? && target == l.h.slot.state.terminalTarget
    && target in l.running && target !in l.h.accepted && Answered(l.h.slot, polls, target, false)
  }

  ghost function NextRunning(l: Life, e: SlotEvent): set<nat> {
    match e
    case EpochReset => {}
    case DispatchDue(_) => l.running + set x | x in NewlySent(l.h, e) :: x.call.tx.target
    case Polled(polls) =>
      set t | t in l.running && !Answered(l.h.slot, polls, t, true) && !Answered(l.h.slot, polls, t, false)
    case ExpiryDue(tick) => set t | t in l.running && tick < t
    case _ => l.running
  }

  ghost function NextFailed(l: Life, e: SlotEvent): set<nat> {
    match e
    case EpochReset => {}
    case Polled(polls) => l.failed + set t | t in l.running && TerminalFails(l, polls, t)
    case ExpiryDue(tick) => l.failed + set s | s in l.h.signed && Passed(l.h, s, tick) :: s.tx.target
    case _ => l.failed
  }

  ghost function NextAcknowledged(k12: Hash, l: Life, e: SlotEvent): Option<nat> {
    if e.EpochReset? || Started(k12, l.h.slot, e) then None
    else if e.StatusSeen? && e.observed.Some? && l.h.slot.state.Live() && ChainSigned(l.h, e.observed.value) then
      Some(if l.acknowledged.Some? then Max(l.acknowledged.value, e.observed.value) else e.observed.value)
    else l.acknowledged
  }

  /** The wait that a lost or frozen chain begins: after a loss at a tick, absence must be seen
      from the next tick on; a freeze by absence counts its own last answer; a freeze by a wrong
      update tick asks for a later one. */
  ghost function NextWait(h: Trace, n: Trace, from: nat, bound: nat, e: SlotEvent): (nat, nat) {
    match e
    case EpochReset => (0, 0)
    case ExpiryDue(tick) => if h.slot.state.Live() && !n.slot.state.Live() then (|n.seen|, SaturatingAdd(tick, 1)) else (from, bound)
    case ExtendAsked(tick, _) =>
      if h.slot.state.Live() && !n.slot.state.Live() then (|n.seen|, SaturatingAdd(tick, 1)) else (from, bound)
    case StatusSeen(requested, _) =>
      if !h.slot.state.Live() || n.slot.state.Live() || n.streak == [] then (from, bound)
      else if n.streak[|n.streak| - 1].evidence.Absent? then (|h.seen|, requested)
      else (|n.seen|, SaturatingAdd(requested, 1))
    case _ => (from, bound)
  }

  ghost function NextLife(k12: Hash, l: Life, e: SlotEvent): Life {
    var n := Next(k12, l.h, e);
    var wait := NextWait(l.h, n, l.from, l.bound, e);
    Life(n, NextRunning(l, e), NextFailed(l, e), NextAcknowledged(k12, l, e), wait.0, wait.1)
  }

  ghost function RunLife(k12: Hash, l: Life, events: seq<SlotEvent>): Life
    decreases |events|
  {
    if events == [] then l else RunLife(k12, NextLife(k12, l, events[0]), events[1..])
  }

  /** Some run of the stream leads here. */
  ghost predicate Lived(k12: Hash, stream: nat, l: Life) {
    stream < STREAM_COUNT && exists events :: RunLife(k12, NewLife(stream), events) == l
  }

  lemma {:induction false} LifeIsRun(k12: Hash, l: Life, events: seq<SlotEvent>)
    ensures RunLife(k12, l, events).h == RunSlot(k12, l.h, events)
    decreases |events|
  {
    if events != [] { LifeIsRun(k12, NextLife(k12, l, events[0]), events[1..]); }
  }

  // ---------------------------------------------------------------- the state of a call

  /** What the history makes of a signed target. */
  ghost function StateBy(l: Life, target: nat): BroadcastState {
    if target in l.h.accepted then Accepted
    else if target in l.failed then Failed
    else if target in l.running then Broadcasting
    else if SentTo(l.h, target) then Retry
    else Ready
  }

  ghost predicate CallKnown(l: Life, c: PlannedCall) {
    && c.state == StateBy(l, c.target)
    && (c.inFlight <==> c.target in l.running)
    && (c.redundantAttempted <==> SentAgain(l.h, c.target))
  }

  ghost predicate CallsKnown(l: Life) {
    forall i :: 0 <= i < |CallsOf(l.h.slot)| ==> CallKnown(l, CallsOf(l.h.slot)[i])
  }

  /** Only what was sent runs, and only what was signed fails. */
  ghost predicate Grounded(l: Life) {
    && (forall t :: t in l.running ==> SentTo(l.h, t))
    && (forall t :: t in l.failed ==> exists s :: s in l.h.signed && s.tx.target == t)
  }

  ghost predicate Known(k12: Hash, l: Life) {
    Logged(k12, l.h) && CallsKnown(l) && Grounded(l)
  }

  lemma KnownFacts(k12: Hash, l: Life)
    requires Known(k12, l)
    ensures SlotOk(l.h.slot) && Links(k12, l.h) && CallsKnown(l) && Grounded(l) && LogOk(l.h.signed, l.h.sent)
    ensures SignedOk(k12, l.h.signed, l.h.slot.stream) && OnlySigned(l.h.signed, l.h.accepted)
    ensures CallsSigned(l.h.signed, CallsOf(l.h.slot)) && AcceptedOk(CallsOf(l.h.slot), l.h.accepted)
    ensures l.h.slot.chain.Some? ==> StillPlanned(l.h.signed, CallsOf(l.h.slot), l.h.accepted, l.h.chainFirst)
    ensures TerminalFresh(l.h.slot, l.h.sent)
  {
  }

  lemma PlannedIsSigned(signed: seq<Signed>, calls: seq<PlannedCall>, stream: nat, i: nat)
    requires CallsSigned(signed, calls) && CallsOk(calls, stream) && i < |calls|
    ensures SignedOf(calls[i]) in signed && calls[i].tx.target == calls[i].target
  {
    assert SignedOf(calls[i]) in CallSet(calls) && CallOk(calls[i], stream);
  }

  /** A target after everything signed so far is new to every part of the history. */
  lemma NewTarget(k12: Hash, l: Life, target: nat)
    requires Known(k12, l) && (l.h.signed != [] ==> LastTarget(l.h.signed) < target)
    ensures target !in l.h.accepted && target !in l.running && target !in l.failed
    ensures !SentTo(l.h, target) && !SentAgain(l.h, target)
  {
    KnownFacts(k12, l);
    hide Known, Links, CallsKnown, SlotOk;
    if target in l.h.accepted {
      var s :| s in l.h.signed && s.tx.target == target;
      SignedBound(k12, l.h.signed, l.h.slot.stream, s);
    }
    if target in l.failed {
      var s :| s in l.h.signed && s.tx.target == target;
      SignedBound(k12, l.h.signed, l.h.slot.stream, s);
    }
    if SentTo(l.h, target) {
      var e :| e in l.h.sent && e.call.tx.target == target;
      SignedBound(k12, l.h.signed, l.h.slot.stream, e.call);
    }
  }

  // ---------------------------------------------------------------- steps that leave calls alone

  predicate Unused(c: PlannedCall) { c.state.Ready? && !c.inFlight && !c.redundantAttempted }

  /** Each call was there before, or is new and later than everything signed. */
  ghost predicate Kept(h: Trace, b: seq<PlannedCall>) {
    forall i :: 0 <= i < |b| ==>
      b[i] in CallsOf(h.slot) || (Unused(b[i]) && (h.signed != [] ==> LastTarget(h.signed) < b[i].target))
  }

  lemma {:induction false} ExtendKept(k12: Hash, chain: Chain, horizon: nat, draws: nat -> Option<Bits>, n: nat)
    ensures forall c :: c in ExtendTo(k12, chain, horizon, draws, n).calls ==>
      c in chain.calls || (Unused(c) && chain.last < c.target)
    decreases horizon - chain.last
  {
    if CanExtend(chain, horizon) && draws(n).Some? { ExtendKept(k12, Continue(k12, chain, draws(n).value), horizon, draws, n + 1); }
  }

  lemma PlanningKept(k12: Hash, h: Trace, e: SlotEvent)
    requires Links(k12, h) && (e.StartAsked? || e.ExtendAsked? || e.DrainAsked?)
    ensures Kept(h, CallsOf(StepSlot(k12, h.slot, e).slot))
  {
    match e
    case StartAsked(tick, preimage) =>
      if Started(k12, h.slot, e) { StartTargetFits(h.slot, tick); }
    case ExtendAsked(tick, draws) =>
      if h.slot.state.Live() && !Missed(h.slot, tick) && CheckedAdd(tick, SEND_LEAD_TICKS).Some? {
        ExtendKept(k12, h.slot.chain.value, tick + SEND_LEAD_TICKS, draws, 0);
      } else {
        ExpireKeeps(h.slot, tick);
      }
    case DrainAsked(reason) =>
  }

  lemma OtherKept(k12: Hash, h: Trace, e: SlotEvent)
    requires SlotOk(h.slot) && (e.StatusSeen? || e.DrainChecked? || e.RestartChecked? || e.Pruned?)
    ensures Kept(h, CallsOf(StepSlot(k12, h.slot, e).slot))
  {
    hide SlotOk, ApplyStatus, Retain;
    var a, b := CallsOf(h.slot), CallsOf(StepSlot(k12, h.slot, e).slot);
    match e
    case StatusSeen(requested, observed) => StatusIsPlain(h.slot, requested, observed);
    case Pruned(tick) =>
      forall i | 0 <= i < |b| ensures b[i] in a {
        if h.slot.chain.Some? && !h.slot.state.Draining? { RetainIn(a, h.slot.chain.value.first, tick, b[i]); }
      }
    case _ =>
  }

  lemma KeptKnown(k12: Hash, l: Life, n: Life)
    requires Known(k12, l) && Kept(l.h, CallsOf(n.h.slot))
    requires n.h.accepted == l.h.accepted && n.h.sent == l.h.sent && n.running == l.running && n.failed == l.failed
    ensures CallsKnown(n)
  {
    KnownFacts(k12, l);
    var b := CallsOf(n.h.slot);
    hide SlotOk, Links, LogOk, SignedOk, OnlySigned, CallsSigned, AcceptedOk, StillPlanned;
    forall i | 0 <= i < |b| ensures CallKnown(n, b[i]) {
      if b[i] !in CallsOf(l.h.slot) { NewTarget(k12, l, b[i].target); }
    }
  }

  // ---------------------------------------------------------------- polling

  lemma AnsweredIs(slot: ManagedSlot, polls: nat -> Poll, i: nat, ok: bool)
    requires SlotOk(slot) && i < |CallsOf(slot)|
    ensures Answered(slot, polls, CallsOf(slot)[i].target, ok) <==> polls(i) == Done(ok)
  {
    if Answered(slot, polls, CallsOf(slot)[i].target, ok) {
      var j :| 0 <= j < |CallsOf(slot)| && CallsOf(slot)[j].target == CallsOf(slot)[i].target && polls(j) == Done(ok);
      assert i == j;
    }
  }

  lemma NewlyIs(slot: ManagedSlot, polls: nat -> Poll, i: nat)
    requires SlotOk(slot) && i < |CallsOf(slot)|
    ensures CallsOf(slot)[i].target in AcceptedBy(slot, Polled(polls)) <==> NewlyAccepted(CallsOf(slot)[i], polls(i))
  {
    var calls := CallsOf(slot);
    if calls[i].target in AcceptedBy(slot, Polled(polls)) {
      var j :| 0 <= j < |calls| && NewlyAccepted(calls[j], polls(j)) && calls[j].target == calls[i].target;
      assert i == j;
    }
  }

  lemma TerminalIs(slot: ManagedSlot, i: nat)
    requires SlotOk(slot) && i < |CallsOf(slot)| && slot.chain.Some?
    ensures CallsOf(slot)[i].kind.TerminalReveal? <==> slot.state.Draining? && CallsOf(slot)[i].target == slot.state.terminalTarget
    ensures CallOk(CallsOf(slot)[i], slot.stream)
  {
  }

  /** What a poll changes in the history of one planned call. */
  lemma PollFacts(k12: Hash, l: Life, polls: nat -> Poll, i: nat)
    requires SlotOk(l.h.slot) && l.h.slot.chain.Some? && i < |CallsOf(l.h.slot)|
    ensures var n := NextLife(k12, l, Polled(polls));
      var c := CallsOf(l.h.slot)[i];
      && (c.target in n.running <==> c.target in l.running && polls(i).Pending?)
      && (c.target in n.failed <==>
            c.target in l.failed
            || (c.target in l.running && c.target !in l.h.accepted && polls(i) == Done(false)
                && ShutdownDrain(l.h.slot.state) && c.kind.TerminalReveal?))
      && (c.target in n.h.accepted <==> c.target in l.h.accepted || NewlyAccepted(c, polls(i)))
      && n.h.sent == l.h.sent && CallOk(c, l.h.slot.stream)
  {
    var n := NextLife(k12, l, Polled(polls));
    AnsweredIs(l.h.slot, polls, i, true);
    AnsweredIs(l.h.slot, polls, i, false);
    NewlyIs(l.h.slot, polls, i);
    TerminalIs(l.h.slot, i);
    assert n.h.sent == l.h.sent && n.h.accepted == l.h.accepted + AcceptedBy(l.h.slot, Polled(polls));
    hide SlotOk, CallOk, Answered, AcceptedBy, Next;
  }

  lemma PollKnows(k12: Hash, l: Life, polls: nat -> Poll, i: nat)
    requires Known(k12, l) && l.h.slot.chain.Some? && i < |CallsOf(l.h.slot)|
    ensures CallKnown(NextLife(k12, l, Polled(polls)),
                      HarvestCall(CallsOf(l.h.slot)[i], polls(i), ShutdownDrain(l.h.slot.state)))
  {
    var n := NextLife(k12, l, Polled(polls));
    KnownFacts(k12, l);
    PollFacts(k12, l, polls, i);
    assert CallKnown(l, CallsOf(l.h.slot)[i]);
    assert SentTo(n.h, CallsOf(l.h.slot)[i].target) <==> SentTo(l.h, CallsOf(l.h.slot)[i].target);
    assert SentAgain(n.h, CallsOf(l.h.slot)[i].target) <==> SentAgain(l.h, CallsOf(l.h.slot)[i].target);
    hide Known, Links, SlotOk, LogOk, SignedOk, OnlySigned, CallsSigned, AcceptedOk, StillPlanned, CallsKnown, SentTo, SentAgain, NextLife;
  }

  // ---------------------------------------------------------------- expiry

  /** What an expiry changes in the history of one planned call. */
  lemma ExpiryFacts(k12: Hash, l: Life, tick: nat, i: nat)
    requires CallsOk(CallsOf(l.h.slot), l.h.slot.stream) && CallsSigned(l.h.signed, CallsOf(l.h.slot)) && i < |CallsOf(l.h.slot)|
    ensures var n := NextLife(k12, l, ExpiryDue(tick));
      var t := CallsOf(l.h.slot)[i].target;
      && (t in n.running <==> t in l.running && tick < t)
      && (t in n.failed <==> t in l.failed || (t <= tick && t !in l.h.accepted))
      && n.h.sent == l.h.sent && n.h.accepted == l.h.accepted
  {
    var n := NextLife(k12, l, ExpiryDue(tick));
    var c := CallsOf(l.h.slot)[i];
    PlannedIsSigned(l.h.signed, CallsOf(l.h.slot), l.h.slot.stream, i);
    assert n.h.sent == l.h.sent && n.h.accepted == l.h.accepted;
    if c.target <= tick && c.target !in l.h.accepted { assert Passed(l.h, SignedOf(c), tick); }
    hide CallsOk, CallsSigned, Next;
  }

  lemma ExpiryKnows(k12: Hash, l: Life, tick: nat, i: nat)
    requires Known(k12, l) && l.h.slot.chain.Some? && i < |CallsOf(l.h.slot)|
    ensures CallKnown(NextLife(k12, l, ExpiryDue(tick)), ExpireCall(CallsOf(l.h.slot)[i], tick))
  {
    var n := NextLife(k12, l, ExpiryDue(tick));
    var c := CallsOf(l.h.slot)[i];
    KnownFacts(k12, l);
    ExpiryFacts(k12, l, tick, i);
    assert CallKnown(l, c);
    assert SentTo(n.h, c.target) <==> SentTo(l.h, c.target);
    assert SentAgain(n.h, c.target) <==> SentAgain(l.h, c.target);
    hide Known, Links, SlotOk, LogOk, SignedOk, OnlySigned, CallsSigned, AcceptedOk, StillPlanned, CallsKnown, SentTo, SentAgain, NextLife;
  }

  // ---------------------------------------------------------------- dispatch

  lemma NewSentIs(h: Trace, tick: nat, i: nat, e: Sent)
    requires SlotOk(h.slot) && h.slot.chain.Some? && i < |CallsOf(h.slot)|
    requires e in NewlySent(h, DispatchDue(tick)) && e.call.tx.target == CallsOf(h.slot)[i].target
    ensures Goes(CallsOf(h.slot)[i], ContextOf(h.slot, tick)) && e == SentOf(h, CallsOf(h.slot)[i], ContextOf(h.slot, tick))
  {
    var calls, x := CallsOf(h.slot), ContextOf(h.slot, tick);
    SentByIs(h, calls, x, |calls|, e);
    var j :| 0 <= j < |calls| && Goes(calls[j], x) && e == SentOf(h, calls[j], x);
    assert CallOk(calls[i], h.slot.stream) && CallOk(calls[j], h.slot.stream);
    assert i == j;
  }

  lemma NewSentHas(h: Trace, tick: nat, i: nat)
    requires SlotOk(h.slot) && h.slot.chain.Some? && i < |CallsOf(h.slot)|
    requires Goes(CallsOf(h.slot)[i], ContextOf(h.slot, tick))
    ensures var e := SentOf(h, CallsOf(h.slot)[i], ContextOf(h.slot, tick));
      e in NewlySent(h, DispatchDue(tick)) && e.call.tx.target == CallsOf(h.slot)[i].target
  {
    var calls, x := CallsOf(h.slot), ContextOf(h.slot, tick);
    SentByIs(h, calls, x, |calls|, SentOf(h, calls[i], x));
    assert CallOk(calls[i], h.slot.stream);
  }

  /** A call of this target goes out in this dispatch, for the first time or again. */
  ghost predicate SentNow(h: Trace, tick: nat, target: nat) {
    exists e :: e in NewlySent(h, DispatchDue(tick)) && e.call.tx.target == target
  }

  ghost predicate AgainNow(h: Trace, tick: nat, target: nat) {
    exists e :: e in NewlySent(h, DispatchDue(tick)) && e.again && e.call.tx.target == target
  }

  lemma SentNowIs(h: Trace, tick: nat, i: nat)
    requires SlotOk(h.slot) && h.slot.chain.Some? && i < |CallsOf(h.slot)|
    ensures var c, x := CallsOf(h.slot)[i], ContextOf(h.slot, tick);
      && (SentNow(h, tick, c.target) <==> Goes(c, x))
      && (AgainNow(h, tick, c.target) <==> Decide(c, x).SendAgain?)
  {
    var c, x := CallsOf(h.slot)[i], ContextOf(h.slot, tick);
    hide NewlySent, Decide;
    if SentNow(h, tick, c.target) {
      var e :| e in NewlySent(h, DispatchDue(tick)) && e.call.tx.target == c.target;
      NewSentIs(h, tick, i, e);
    }
    if AgainNow(h, tick, c.target) {
      var e :| e in NewlySent(h, DispatchDue(tick)) && e.again && e.call.tx.target == c.target;
      NewSentIs(h, tick, i, e);
    }
    if Goes(c, x) { NewSentHas(h, tick, i); }
  }

  lemma SentGrows(k12: Hash, h: Trace, tick: nat, target: nat)
    ensures var n := Next(k12, h, DispatchDue(tick));
      && (SentTo(n, target) <==> SentTo(h, target) || SentNow(h, tick, target))
      && (SentAgain(n, target) <==> SentAgain(h, target) || AgainNow(h, tick, target))
  {
    var n := Next(k12, h, DispatchDue(tick));
    assert n.sent == h.sent + NewlySent(h, DispatchDue(tick));
    hide NewlySent, Next;
  }

  /** What a dispatch changes in the history of one planned call. */
  lemma DispatchFacts(k12: Hash, l: Life, tick: nat, i: nat)
    requires SlotOk(l.h.slot) && l.h.slot.chain.Some? && i < |CallsOf(l.h.slot)|
    ensures var n := NextLife(k12, l, DispatchDue(tick));
      var c, x := CallsOf(l.h.slot)[i], ContextOf(l.h.slot, tick);
      && (c.target in n.running <==> c.target in l.running || Goes(c, x))
      && n.failed == l.failed && n.h.accepted == l.h.accepted
      && (SentTo(n.h, c.target) <==> SentTo(l.h, c.target) || Goes(c, x))
      && (SentAgain(n.h, c.target) <==> SentAgain(l.h, c.target) || Decide(c, x).SendAgain?)
      && CallOk(c, l.h.slot.stream)
  {
    var n := NextLife(k12, l, DispatchDue(tick));
    var c := CallsOf(l.h.slot)[i];
    SentNowIs(l.h, tick, i);
    SentGrows(k12, l.h, tick, c.target);
    TerminalIs(l.h.slot, i);
    assert c.target in n.running <==> c.target in l.running || SentNow(l.h, tick, c.target);
    assert n.h.accepted == l.h.accepted;
    hide SlotOk, CallOk, SentTo, SentAgain, SentNow, AgainNow, Goes, Decide, NewlySent;
  }

  lemma DispatchKnows(k12: Hash, l: Life, tick: nat, i: nat)
    requires Known(k12, l) && l.h.slot.chain.Some? && i < |CallsOf(l.h.slot)|
    ensures CallKnown(NextLife(k12, l, DispatchDue(tick)), Dispatched(CallsOf(l.h.slot)[i], ContextOf(l.h.slot, tick)))
  {
    assert SlotOk(l.h.slot) && TerminalFresh(l.h.slot, l.h.sent) && CallsKnown(l) by { KnownFacts(k12, l); }
    hide Known, SlotOk, TerminalFresh, SentTo, SentAgain, NextLife, PrerequisitesAccepted, RedundantDue, ContextOf;
    DispatchFacts(k12, l, tick, i);
    NoGiveUpHere(l.h, tick, i);
    assert CallKnown(l, CallsOf(l.h.slot)[i]);
    RedundantIsFirst(CallsOf(l.h.slot)[i], ContextOf(l.h.slot, tick));
    hide CallsKnown;
  }

  lemma RedundantIsFirst(c: PlannedCall, x: Context)
    ensures Decide(c, x).SendAgain? ==> c.state.Accepted? && !c.redundantAttempted
    ensures Decide(c, x).Send? ==> c.state.Ready? || c.state.Retry?
  {
  }

  lemma NoGiveUpHere(h: Trace, tick: nat, i: nat)
    requires SlotOk(h.slot) && TerminalFresh(h.slot, h.sent) && h.slot.chain.Some? && i < |CallsOf(h.slot)|
    ensures !Decide(CallsOf(h.slot)[i], ContextOf(h.slot, tick)).GiveUp?
  {
    TerminalIs(h.slot, i);
    if h.slot.state.Draining? && i < |CallsOf(h.slot)| - 1 {
      assert CallsOf(h.slot)[i].target < CallsOf(h.slot)[|CallsOf(h.slot)| - 1].target;
    }
  }

  // ---------------------------------------------------------------- all steps, all runs

  lemma StaysGrounded(k12: Hash, l: Life, e: SlotEvent)
    requires Known(k12, l)
    ensures Grounded(NextLife(k12, l, e))
  {
    var n := NextLife(k12, l, e);
    KnownFacts(k12, l);
    if !e.EpochReset? {
      assert forall x :: x in l.h.sent ==> x in n.h.sent;
      assert forall s :: s in l.h.signed ==> s in n.h.signed;
      forall t | t in n.running ensures SentTo(n.h, t) {
        if t in l.running {
          assert SentTo(l.h, t);
        } else {
          var x :| x in NewlySent(l.h, e) && x.call.tx.target == t;
          assert x in n.h.sent;
        }
      }
      forall t | t in n.failed ensures exists s :: s in n.h.signed && s.tx.target == t {
        if t !in l.failed && e.Polled? {
          var x :| x in l.h.sent && x.call.tx.target == t;
          assert x.call in n.h.signed;
        }
      }
    }
    hide Known, Links, SlotOk, SignedOk, OnlySigned, CallsSigned, AcceptedOk, StillPlanned, StepSlot, CallsKnown;
  }

  lemma StepKnows(k12: Hash, l: Life, e: SlotEvent)
    requires Known(k12, l)
    ensures Known(k12, NextLife(k12, l, e))
  {
    var n := NextLife(k12, l, e);
    StepLogs(k12, l.h, e);
    StaysGrounded(k12, l, e);
    CallsStayKnown(k12, l, e);
    hide Logged, Grounded, CallsKnown, NextLife;
  }

  lemma CallsStayKnown(k12: Hash, l: Life, e: SlotEvent)
    requires Known(k12, l)
    ensures CallsKnown(NextLife(k12, l, e))
  {
    var n := NextLife(k12, l, e);
    KnownFacts(k12, l);
    var a, b := CallsOf(l.h.slot), CallsOf(n.h.slot);
    match e
    case EpochReset =>
    case Polled(polls) =>
      forall i | 0 <= i < |b| ensures CallKnown(n, b[i]) { PollKnows(k12, l, polls, i); }
    case ExpiryDue(tick) =>
      forall i | 0 <= i < |b| ensures CallKnown(n, b[i]) { ExpiredCalls(l.h.slot, tick, i); ExpiryKnows(k12, l, tick, i); }
    case DispatchDue(tick) =>
      forall i | 0 <= i < |b| ensures CallKnown(n, b[i]) { DispatchKnows(k12, l, tick, i); }
    case _ =>
      if e.StartAsked? || e.ExtendAsked? || e.DrainAsked? { PlanningKept(k12, l.h, e); } else { OtherKept(k12, l.h, e); }
      KeptKnown(k12, l, n);
    hide Known, CallKnown, Links, SlotOk, LogOk, SignedOk, OnlySigned, CallsSigned, AcceptedOk, StillPlanned, Kept, Grounded;
  }

  lemma ExpiredCalls(slot: ManagedSlot, tick: nat, i: nat)
    requires i < |CallsOf(ExpireCalls(slot, tick).slot)|
    ensures i < |CallsOf(slot)| && slot.chain.Some? && CallsOf(ExpireCalls(slot, tick).slot)[i] == ExpireCall(CallsOf(slot)[i], tick)
  {
  }

  lemma {:induction false} RunKnows(k12: Hash, l: Life, events: seq<SlotEvent>)
    requires Known(k12, l)
    ensures Known(k12, RunLife(k12, l, events))
    decreases |events|
  {
    if events != [] {
      StepKnows(k12, l, events[0]);
      RunKnows(k12, NextLife(k12, l, events[0]), events[1..]);
    }
  }

  lemma LivedIsKnown(k12: Hash, stream: nat, l: Life)
    requires Lived(k12, stream, l)
    ensures Known(k12, l)
  {
    var events :| RunLife(k12, NewLife(stream), events) == l;
    BeginLogs(k12, stream);
    RunKnows(k12, NewLife(stream), events);
  }

  /** Over every run, each planned call is in exactly the state its history gives: accepted by
      the backend; failed where an expiry passed it unaccepted or its shutdown terminal task
      failed; under way while its task runs; to be retried after a task failed; ready if never
      sent. A task is running exactly until it is polled as finished or its target is passed, and
      a call counts as sent twice exactly if it was. */
  lemma CallsAreTheirHistory(k12: Hash, stream: nat, l: Life, i: nat)
    requires Lived(k12, stream, l) && i < |CallsOf(l.h.slot)|
    ensures var c := CallsOf(l.h.slot)[i];
      && (c.state.Accepted? <==> c.target in l.h.accepted)
      && (c.state.Failed? <==> c.target in l.failed && c.target !in l.h.accepted)
      && (c.state.Broadcasting? <==> c.target in l.running && c.target !in l.h.accepted + l.failed)
      && (c.state.Ready? <==> !SentTo(l.h, c.target) && c.target !in l.h.accepted + l.failed)
      && (c.inFlight <==> c.target in l.running)
      && (c.redundantAttempted <==> SentAgain(l.h, c.target))
  {
    LivedIsKnown(k12, stream, l);
    KnownFacts(k12, l);
    assert CallKnown(l, CallsOf(l.h.slot)[i]);
    hide Known, Links, SlotOk, LogOk, SignedOk, OnlySigned, CallsSigned, AcceptedOk, StillPlanned, SentAgain;
  }
}
