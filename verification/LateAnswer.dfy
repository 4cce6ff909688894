/** A run of cycles in which the engine suspects a chain although every signed call was executed
    and the answer is truthful. The cycle at tick 8 signs the calls for ticks 9 and 12 and makes
    a query; the answer shows tick 16, one tick after the contract evicted the slot, and the next
    cycle applies it. */
module LateAnswer {
  import opened Basics
  import R = RandomRules
  import W = RandomWorld
  import Monitor
  import opened Delivery
  import opened Snapshots
  import opened ChainDelivery
  import opened SlotRules
  import opened SlotRuns
  import opened SlotShape
  import opened SlotLinks
  import opened SlotProgress
  import opened EpochPhases
  import opened Cycles
  import opened JointRuns
  import opened NoFalseSuspicion
  import opened CycleRuns

  // ---------------------------------------------------------------- the contract's part

  function Ticks(n: nat): (events: seq<W.Event>)
    ensures |events| == n && forall e :: e in events ==> e == W.TickEnded
  {
    seq(n, _ => W.TickEnded)
  }

  /** Time passes on the contract, up to the next signed target. */
  ghost predicate Passed(j: Joint, n: Joint, ticks: nat)
    requires JointOk(j) && JointOk(n)
  {
    && n.h == j.h && n.seen == j.seen && |n.past| == |j.past| + ticks
    && Now(n).w.tick == Now(j).w.tick + ticks && Now(n).done == Now(j).done
    && |Now(n).w.c.streams[j.h.slot.stream]| <= |Now(j).w.c.streams[j.h.slot.stream]|
  }

  lemma OneTickPasses(k12: Hash, p: Provider, j: Joint)
    requires JointOk(j)
    ensures Allowed(p, j, ContractMoves(W.TickEnded)) && Passed(j, Moved(k12, p, j, ContractMoves(W.TickEnded)), 1)
  {
    hide W.StreamOk, R.EndTick;
  }

  lemma {:induction false} TimePasses(k12: Hash, p: Provider, j: Joint, ticks: nat)
    requires JointOk(j) && forall i :: Now(j).done <= i < |j.h.signed| ==> Now(j).w.tick + ticks <= j.h.signed[i].tx.target
    ensures JointRun(k12, p, j, Happens(Ticks(ticks))) && Passed(j, JointEnd(k12, p, j, Happens(Ticks(ticks))), ticks)
    decreases ticks
  {
    if ticks > 0 {
      OneTickPasses(k12, p, j);
      var n := Moved(k12, p, j, ContractMoves(W.TickEnded));
      TimePasses(k12, p, n, ticks - 1);
      assert Happens(Ticks(ticks))[1..] == Happens(Ticks(ticks - 1));
    }
    hide Moved, Allowed, JointOk;
  }

  /** The stream as the contract has executed so many calls, with room for a first one. */
  ghost predicate Stands(j: Joint, h: Trace, moments: nat, tick: nat, done: nat) {
    && JointOk(j) && j.h == h && j.seen == 0 && |j.past| == moments && Now(j).w.tick == tick && Now(j).done == done
    && (done == 0 ==> |Now(j).w.c.streams[h.slot.stream]| == 0)
  }

  function CallEvent(p: Provider, s: Signed): W.Event { W.CallMade(CallOf(p, s.tx)) }

  lemma CallHappens(k12: Hash, p: Provider, j: Joint, h: Trace, moments: nat, done: nat)
    requires p.tier < R.TIER_COUNT && done < |h.signed| && Stands(j, h, moments, h.signed[done].tx.target, done)
    requires h.slot.stream == h.signed[done].tx.target % 3 && (h.signed[done].kind.FirstCommit? ==> done == 0)
    requires forall i :: done < i < |h.signed| ==> h.signed[done].tx.target <= h.signed[i].tx.target
    ensures JointRun(k12, p, j, Happens([CallEvent(p, h.signed[done])]))
    ensures Stands(JointEnd(k12, p, j, Happens([CallEvent(p, h.signed[done])])), h, moments + 1, h.signed[done].tx.target, done + 1)
  {
    hide W.WorldOk;
    W.TierOfPow10(p.tier);
    var call := ContractMoves(CallEvent(p, h.signed[done]));
    assert h.signed[done] in h.signed;
    assert Happens([CallEvent(p, h.signed[done])]) == [call];
    assert Allowed(p, j, call);
    RunsOne(k12, p, j, call);
  }

  lemma WaitFor(k12: Hash, p: Provider, j: Joint, h: Trace, moments: nat, tick: nat, done: nat, ticks: nat)
    requires Stands(j, h, moments, tick, done) && forall i :: done <= i < |h.signed| ==> tick + ticks <= h.signed[i].tx.target
    ensures JointRun(k12, p, j, Happens(Ticks(ticks)))
    ensures Stands(JointEnd(k12, p, j, Happens(Ticks(ticks))), h, moments + ticks, tick + ticks, done)
  {
    hide W.WorldOk;
    TimePasses(k12, p, j, ticks);
  }

  lemma HappensJoin(a: seq<W.Event>, b: seq<W.Event>)
    ensures Happens(a + b) == Happens(a) + Happens(b)
  {
  }

  /** Ticks up to the next call, the call, and so many ticks after it. */
  function UntilCall(p: Provider, s: Signed, before: nat, after: nat): seq<W.Event> {
    Ticks(before) + [CallEvent(p, s)] + Ticks(after)
  }

  lemma CallIsAwaited(k12: Hash, p: Provider, j: Joint, h: Trace, moments: nat, tick: nat, done: nat, before: nat, after: nat)
    requires p.tier < R.TIER_COUNT && done < |h.signed| && Stands(j, h, moments, tick, done)
    requires h.signed[done].tx.target == tick + before && h.slot.stream == h.signed[done].tx.target % 3
    requires h.signed[done].kind.FirstCommit? ==> done == 0
    requires forall i :: done < i < |h.signed| ==> tick + before + after <= h.signed[i].tx.target
    ensures JointRun(k12, p, j, Happens(UntilCall(p, h.signed[done], before, after)))
    ensures Stands(JointEnd(k12, p, j, Happens(UntilCall(p, h.signed[done], before, after))), h,
                   moments + before + 1 + after, tick + before + after, done + 1)
  {
    hide Stands, Happens, Ticks, CallEvent, JointRun, JointEnd, JointOk;
    var a, b, c := Ticks(before), [CallEvent(p, h.signed[done])], Ticks(after);
    HappensJoin(a, b);
    HappensJoin(a + b, c);
    StandsOk(j, h, moments, tick, done);
    WaitFor(k12, p, j, h, moments, tick, done, before);
    var m := JointEnd(k12, p, j, Happens(a));
    StandsOk(m, h, moments + before, tick + before, done);
    CallHappens(k12, p, m, h, moments + before, done);
    RunSplits(k12, p, j, Happens(a), Happens(b));
    var n := JointEnd(k12, p, m, Happens(b));
    StandsOk(n, h, moments + before + 1, tick + before, done + 1);
    WaitFor(k12, p, n, h, moments + before + 1, tick + before, done + 1, after);
    RunSplits(k12, p, j, Happens(a) + Happens(b), Happens(c));
  }

  lemma StandsOk(j: Joint, h: Trace, moments: nat, tick: nat, done: nat)
    requires Stands(j, h, moments, tick, done)
    ensures JointOk(j) && j.h == h
  {
  }

  // ---------------------------------------------------------------- the engine's part

  lemma {:induction false} SignedGrows(k12: Hash, h: Trace, events: seq<SlotEvent>)
    requires forall e :: e in events ==> !e.EpochReset?
    ensures h.signed <= RunSlot(k12, h, events).signed
    decreases |events|
  {
    hide StepSlot, NewlySigned, NewlySent, NextStreak, AcceptedBy, Started;
    if events != [] {
      assert events[0] in events && forall e :: e in events[1..] ==> e in events;
      SignedGrows(k12, Next(k12, h, events[0]), events[1..]);
    }
  }

  predicate Internal(e: SlotEvent) { !e.EpochReset? && !e.StatusSeen? }

  /** The engine works on its own; what it signs lies ahead of the contract. */
  lemma {:induction false} EngineRuns(k12: Hash, p: Provider, j: Joint, events: seq<SlotEvent>, k: nat)
    requires JointOk(j) && forall e :: e in events ==> Internal(e) && DrawsNonZero(e)
    requires var signed := RunSlot(k12, j.h, events).signed;
      forall i :: Now(j).done <= i < |signed| ==> Now(j).w.tick <= signed[i].tx.target
    ensures JointRun(k12, p, j, MovesOf(events, k))
    ensures JointEnd(k12, p, j, MovesOf(events, k)) == j.(h := RunSlot(k12, j.h, events))
    decreases |events|
  {
    hide Next, W.WorldOk, DrawsNonZero;
    if events != [] {
      assert events[0] in events && forall e :: e in events[1..] ==> e in events;
      assert MovesOf(events, k)[1..] == MovesOf(events[1..], k) && MovesOf(events, k)[0] == EngineMoves(events[0]);
      var n := Moved(k12, p, j, EngineMoves(events[0]));
      NextKeepsStream(k12, j.h, events[0]);
      SignedGrows(k12, n.h, events[1..]);
      var last := RunSlot(k12, j.h, events).signed;
      assert Internal(events[0]);
      assert n.h == Next(k12, j.h, events[0]);
      assert n.past == j.past;
      assert RunSlot(k12, n.h, events[1..]) == RunSlot(k12, j.h, events);
      assert forall i :: Now(n).done <= i < |last| ==> Now(n).w.tick <= last[i].tx.target;
      EngineRuns(k12, p, n, events[1..], k);
    }
  }

  lemma RunStep(k12: Hash, h: Trace, e: SlotEvent, rest: seq<SlotEvent>)
    ensures RunSlot(k12, h, [e] + rest) == RunSlot(k12, Next(k12, h, e), rest)
  {
    hide Next;
    assert ([e] + rest)[0] == e && ([e] + rest)[1..] == rest;
  }

  /** The steps of a planning cycle after it observed, one by one. */
  function PlanAndServe(tick: nat, start: Bits, draws: nat -> Option<Bits>): seq<SlotEvent> {
    [StartAsked(tick, start), ExtendAsked(tick, draws)] + Service(tick)
  }

  /** A slot and what was signed for it. */
  datatype View = View(slot: ManagedSlot, signed: seq<Signed>)

  function Of(h: Trace): View { View(h.slot, h.signed) }

  function ViewStep(k12: Hash, v: View, e: SlotEvent): View {
    var n := StepSlot(k12, v.slot, e).slot;
    View(n, v.signed + NewlySigned(v.slot, n, e))
  }

  lemma NextView(k12: Hash, h: Trace, e: SlotEvent)
    requires !e.EpochReset?
    ensures Of(Next(k12, h, e)) == ViewStep(k12, Of(h), e)
  {
    hide StepSlot, NewlySigned, NewlySent, NextStreak, AcceptedBy, Started;
  }

  function ViewRun(k12: Hash, v: View, events: seq<SlotEvent>): View
    decreases |events|
  {
    if events == [] then v else ViewRun(k12, ViewStep(k12, v, events[0]), events[1..])
  }

  lemma {:induction false} RunView(k12: Hash, h: Trace, events: seq<SlotEvent>)
    requires forall e :: e in events ==> !e.EpochReset?
    ensures Of(RunSlot(k12, h, events)) == ViewRun(k12, Of(h), events)
    decreases |events|
  {
    hide Next, ViewStep;
    if events != [] {
      assert events[0] in events && forall e :: e in events[1..] ==> e in events;
      NextView(k12, h, events[0]);
      RunView(k12, Next(k12, h, events[0]), events[1..]);
    }
  }

  lemma SevenSteps(k12: Hash, v: View, tick: nat, start: Bits, draws: nat -> Option<Bits>)
    ensures ViewRun(k12, v, PlanAndServe(tick, start, draws)) ==
      var a := ViewStep(k12, ViewStep(k12, v, StartAsked(tick, start)), ExtendAsked(tick, draws));
      var b := ViewStep(k12, ViewStep(k12, a, ExpiryDue(tick)), DispatchDue(tick));
      ViewStep(k12, ViewStep(k12, ViewStep(k12, b, DrainChecked), RestartChecked(tick)), Pruned(tick))
  {
    hide ViewStep;
    var e := PlanAndServe(tick, start, draws);
    assert e == [StartAsked(tick, start), ExtendAsked(tick, draws), ExpiryDue(tick), DispatchDue(tick), DrainChecked,
                 RestartChecked(tick), Pruned(tick)];
    var v1 := ViewStep(k12, v, e[0]);
    var v2 := ViewStep(k12, v1, e[1]);
    var v3 := ViewStep(k12, v2, e[2]);
    var v4 := ViewStep(k12, v3, e[3]);
    var v5 := ViewStep(k12, v4, e[4]);
    var v6 := ViewStep(k12, v5, e[5]);
    assert e[1..][1..] == e[2..] && e[2..][1..] == e[3..] && e[3..][1..] == e[4..];
    assert e[4..][1..] == e[5..] && e[5..][1..] == e[6..] && e[6..][1..] == [];
    assert ViewRun(k12, v, e) == ViewRun(k12, v2, e[2..]) == ViewRun(k12, v4, e[4..]) == ViewRun(k12, v6, e[6..]);
  }

  // ---------------------------------------------------------------- the slot, cycle by cycle

  /** The three preimages drawn: for the start and for two continuations. */
  datatype Drawn = Drawn(a: Bits, b: Bits, d: Bits)
  {
    predicate NonZero() { a != ZERO_BITS && b != ZERO_BITS && d != ZERO_BITS }
    function Draw(n: nat): Option<Bits> { Some(if n == 0 then b else d) }
    function Draws(): nat -> Option<Bits> { (n: nat) => Draw(n) }
  }

  function First(k12: Hash, x: Drawn): SignedTx { SignedTx(6, ZERO_BITS, k12(x.a)) }

  function Second(k12: Hash, x: Drawn): SignedTx { SignedTx(9, x.a, k12(x.b)) }

  function Third(k12: Hash, x: Drawn): SignedTx { SignedTx(12, x.b, k12(x.d)) }

  function AllSigned(k12: Hash, x: Drawn): seq<Signed> {
    [Signed(First(k12, x), FirstCommit), Signed(Second(k12, x), RevealCommit), Signed(Third(k12, x), RevealCommit)]
  }

  function Sending(tx: SignedTx, kind: CallKind): PlannedCall { PlannedCall(tx.target, tx, kind, Broadcasting, true, false) }

  /** Nothing to do yet; an absent slot was seen or not. */
  function Idle(observed: bool): View { View(ManagedSlot(0, Waiting(0, observed), None, 0), []) }

  /** The chain was started and its first commit is on its way. */
  function Begun(k12: Hash, x: Drawn): View {
    View(ManagedSlot(0, Starting(6), Some(Chain(6, 6, None, None, x.a, [Sending(First(k12, x), FirstCommit)])), 0),
         AllSigned(k12, x)[..1])
  }

  /** The first commit was sent, the two continuations are on their way. */
  function Extended(k12: Hash, x: Drawn): View {
    var calls := [Sending(Second(k12, x), RevealCommit), Sending(Third(k12, x), RevealCommit)];
    View(ManagedSlot(0, Starting(6), Some(Chain(6, 12, None, None, x.d, calls)), 0), AllSigned(k12, x))
  }

  /** A slot without a chain that may not start is left alone. */
  /** A waiting slot without a chain is served by leaving it alone. */
  lemma IdleIsServed(k12: Hash, v: View, tick: nat)
    requires v.slot.chain.None? && v.slot.state.Waiting?
    ensures ViewStep(k12, v, ExpiryDue(tick)) == v == ViewStep(k12, v, DispatchDue(tick))
    ensures ViewStep(k12, v, DrainChecked) == v == ViewStep(k12, v, RestartChecked(tick)) && ViewStep(k12, v, Pruned(tick)) == v
  {
  }

  lemma IdlePlansNothing(k12: Hash, v: View, tick: nat, x: Drawn)
    requires v.slot.chain.None? && v.slot.state.Waiting? && !v.slot.state.absenceObserved
    ensures ViewStep(k12, v, StartAsked(tick, x.a)) == v == ViewStep(k12, v, ExtendAsked(tick, x.Draws()))
  {
  }

  lemma IdleCycle(k12: Hash, v: View, tick: nat, x: Drawn)
    requires v.slot.chain.None? && v.slot.state.Waiting? && !v.slot.state.absenceObserved
    ensures ViewRun(k12, v, PlanAndServe(tick, x.a, x.Draws())) == v
  {
    hide ViewStep;
    SevenSteps(k12, v, tick, x.a, x.Draws());
    IdlePlansNothing(k12, v, tick, x);
    IdleIsServed(k12, v, tick);
  }

  /** The chain as it starts. */
  function Opened(k12: Hash, x: Drawn): ManagedSlot {
    ManagedSlot(0, Starting(6), Some(Chain(6, 6, None, None, x.a, [Plan(6, ZERO_BITS, k12(x.a), FirstCommit)])), 0)
  }

  lemma StartsForSix(k12: Hash, x: Drawn)
    ensures ViewStep(k12, Idle(true), StartAsked(0, x.a)) == View(Opened(k12, x), AllSigned(k12, x)[..1])
  {
    var c := Plan(6, ZERO_BITS, k12(x.a), FirstCommit);
    assert StartTarget(Idle(true).slot, 0) == Some(6);
    SignedFromOne([], c);
    assert [] + [c] == [c];
  }

  lemma OpenedIsServed(k12: Hash, x: Drawn)
    ensures var v := View(Opened(k12, x), AllSigned(k12, x)[..1]);
      && ViewStep(k12, v, ExtendAsked(0, x.Draws())) == v == ViewStep(k12, v, ExpiryDue(0))
      && ViewStep(k12, v, DispatchDue(0)) == Begun(k12, x)
      && ViewStep(k12, Begun(k12, x), Pruned(0)) == Begun(k12, x)
  {
    var c := Plan(6, ZERO_BITS, k12(x.a), FirstCommit);
    var sent := Sending(First(k12, x), FirstCommit);
    assert SignedFrom([c], 1) == [];
    assert ExpireEach([c], 0) == [c];
    assert DispatchEach([c], ContextOf(Opened(k12, x), 0)) == [sent];
    assert [sent][1..] == [] && Retain([sent], 6, 0) == [sent];
  }

  lemma BeginningCycle(k12: Hash, x: Drawn)
    ensures ViewRun(k12, Idle(true), PlanAndServe(0, x.a, x.Draws())) == Begun(k12, x)
  {
    hide ViewStep, Opened, AllSigned;
    SevenSteps(k12, Idle(true), 0, x.a, x.Draws());
    StartsForSix(k12, x);
    OpenedIsServed(k12, x);
    LiveFinishesNothing(k12, Begun(k12, x), 0);
  }

  function Taken1(k12: Hash, x: Drawn): PlannedCall { Sending(First(k12, x), FirstCommit).(state := Accepted, inFlight := false) }

  /** The first commit was accepted. */
  function Begun2(k12: Hash, x: Drawn): View {
    View(ManagedSlot(0, Starting(6), Some(Chain(6, 6, None, None, x.a, [Taken1(k12, x)])), 0), AllSigned(k12, x)[..1])
  }

  function AllDone(n: nat): Poll { Done(true) }

  lemma FirstIsAccepted(k12: Hash, x: Drawn)
    ensures ViewStep(k12, Begun(k12, x), Polled(AllDone)) == Begun2(k12, x)
  {
    var c := Sending(First(k12, x), FirstCommit);
    assert HarvestEach([c], AllDone, false) == [Taken1(k12, x)];
  }

  /** The chain with its two continuations planned. */
  function Planned(k12: Hash, x: Drawn): Chain {
    Chain(6, 12, None, None, x.d, [Taken1(k12, x), Plan(9, x.a, k12(x.b), RevealCommit), Plan(12, x.b, k12(x.d), RevealCommit)])
  }

  lemma ExtendsTwice(k12: Hash, x: Drawn)
    ensures ViewStep(k12, Begun2(k12, x), ExtendAsked(8, x.Draws())) ==
      View(Ready(k12, x), AllSigned(k12, x))
  {
    var v := Begun2(k12, x);
    var zero := v.slot.chain.value;
    var one := Continue(k12, zero, x.b);
    var two := Continue(k12, one, x.d);
    assert two == Planned(k12, x);
    assert x.Draws()(0) == Some(x.b) && x.Draws()(1) == Some(x.d);
    assert ExtendTo(k12, zero, 14, x.Draws(), 0) == ExtendTo(k12, one, 14, x.Draws(), 1) == ExtendTo(k12, two, 14, x.Draws(), 2) == two;
    var calls := two.calls;
    assert SignedFrom(calls, 3) == [] && SignedFrom(calls, 2) == [SignedOf(calls[2])];
    assert SignedFrom(calls, 1) == [SignedOf(calls[1]), SignedOf(calls[2])];
    hide ExtendTo;
  }

  function Ready(k12: Hash, x: Drawn): ManagedSlot { ManagedSlot(0, Starting(6), Some(Planned(k12, x)), 0) }

  function Sent2(k12: Hash, x: Drawn): seq<PlannedCall> {
    [Sending(Second(k12, x), RevealCommit), Sending(Third(k12, x), RevealCommit)]
  }

  function SentSlot(k12: Hash, x: Drawn): ManagedSlot {
    Ready(k12, x).(chain := Some(Planned(k12, x).(calls := [Taken1(k12, x)] + Sent2(k12, x))))
  }

  lemma NothingExpires(k12: Hash, x: Drawn)
    ensures ViewStep(k12, View(Ready(k12, x), AllSigned(k12, x)), ExpiryDue(8)) == View(Ready(k12, x), AllSigned(k12, x))
  {
    var calls := Planned(k12, x).calls;
    assert ExpireEach(calls, 8) == calls;
    assert !AnyExpires(calls, 6, 8);
  }

  lemma SendsTwo(k12: Hash, x: Drawn)
    ensures ViewStep(k12, View(Ready(k12, x), AllSigned(k12, x)), DispatchDue(8)) == View(SentSlot(k12, x), AllSigned(k12, x))
  {
    assert DispatchEach(Planned(k12, x).calls, ContextOf(Ready(k12, x), 8)) == [Taken1(k12, x)] + Sent2(k12, x);
  }

  lemma RetainsOne(c: PlannedCall, rest: seq<PlannedCall>, first: nat, tick: nat)
    ensures Retain([c] + rest, first, tick) == (if Retained(c, first, tick) then [c] else []) + Retain(rest, first, tick)
  {
    assert ([c] + rest)[0] == c && ([c] + rest)[1..] == rest;
  }

  lemma DropsOne(k12: Hash, x: Drawn)
    ensures ViewStep(k12, View(SentSlot(k12, x), AllSigned(k12, x)), Pruned(8)) == Extended(k12, x)
  {
    var second, third := Sending(Second(k12, x), RevealCommit), Sending(Third(k12, x), RevealCommit);
    RetainsOne(Taken1(k12, x), [second, third], 6, 8);
    RetainsOne(second, [third], 6, 8);
    RetainsOne(third, [], 6, 8);
    assert [second] + [third] == [second, third] && [third] + [] == [third];
    assert Retain([Taken1(k12, x)] + Sent2(k12, x), 6, 8) == Sent2(k12, x);
    hide Retain;
  }

  /** A live slot has nothing to finish. */
  lemma LiveFinishesNothing(k12: Hash, v: View, tick: nat)
    requires v.slot.state.Live()
    ensures ViewStep(k12, v, DrainChecked) == v == ViewStep(k12, v, RestartChecked(tick))
    ensures forall start :: ViewStep(k12, v, StartAsked(tick, start)) == v
  {
    assert SignedFrom(CallsOf(v.slot), |CallsOf(v.slot)|) == [];
  }

  lemma ExtendingCycle(k12: Hash, x: Drawn)
    ensures ViewRun(k12, Begun2(k12, x), PlanAndServe(8, x.a, x.Draws())) == Extended(k12, x)
  {
    hide ViewStep, Planned, AllSigned, Extended, Taken1, Sent2;
    SevenSteps(k12, Begun2(k12, x), 8, x.a, x.Draws());
    LiveFinishesNothing(k12, Begun2(k12, x), 8);
    ExtendsTwice(k12, x);
    NothingExpires(k12, x);
    SendsTwo(k12, x);
    LiveFinishesNothing(k12, View(SentSlot(k12, x), AllSigned(k12, x)), 8);
    DropsOne(k12, x);
  }

  /** The chain is over: the slot waits. */
  function Over(k12: Hash, x: Drawn): View { View(ManagedSlot(0, Waiting(17, false), None, 15), AllSigned(k12, x)) }

  function Taken2(k12: Hash, x: Drawn): seq<PlannedCall> {
    [Sending(Second(k12, x), RevealCommit).(state := Accepted, inFlight := false),
     Sending(Third(k12, x), RevealCommit).(state := Accepted, inFlight := false)]
  }

  function Extended2(k12: Hash, x: Drawn, doubt: Option<Suspicion>): View {
    View(ManagedSlot(0, Starting(6), Some(Chain(6, 12, None, doubt, x.d, Taken2(k12, x))), 0), AllSigned(k12, x))
  }

  lemma ContinuationsAreAccepted(k12: Hash, x: Drawn)
    ensures ViewStep(k12, Extended(k12, x), Polled(AllDone)) == Extended2(k12, x, None)
  {
    assert HarvestEach(CallsOf(Extended(k12, x).slot), AllDone, false) == Taken2(k12, x);
  }

  lemma AbsenceIsCounted(k12: Hash, x: Drawn)
    ensures ViewStep(k12, Extended2(k12, x, None), StatusSeen(8, None)) == Extended2(k12, x, Some(NewSuspicion(Absent, 8)))
  {
  }

  lemma LosesTheChain(k12: Hash, x: Drawn)
    ensures ViewStep(k12, Extended2(k12, x, Some(NewSuspicion(Absent, 8))), ExtendAsked(16, x.Draws())) == Over(k12, x)
  {
    var v := Extended2(k12, x, Some(NewSuspicion(Absent, 8)));
    assert ExpireEach(CallsOf(v.slot), 16) == CallsOf(v.slot);
    assert !AnyExpires(CallsOf(v.slot), 6, 16);
    assert ExpireCalls(v.slot, 16).slot == v.slot;
    assert SignedFrom([], 2) == [];
  }

  lemma LosingCycle(k12: Hash, x: Drawn)
    ensures ViewRun(k12, Extended2(k12, x, Some(NewSuspicion(Absent, 8))), PlanAndServe(16, x.a, x.Draws())) == Over(k12, x)
  {
    hide ViewStep, Taken2, AllSigned;
    var v := Extended2(k12, x, Some(NewSuspicion(Absent, 8)));
    SevenSteps(k12, v, 16, x.a, x.Draws());
    LiveFinishesNothing(k12, v, 16);
    LosesTheChain(k12, x);
    IdleIsServed(k12, Over(k12, x), 16);
  }

  // ---------------------------------------------------------------- turn by turn

  /** A cycle of epoch 1 that plans; all broadcasts that were running have succeeded. */
  function Input(tick: nat, now: nat, status: StatusPoll, x: Drawn): CycleInput {
    CycleInput(TickInfo(1, tick, 0), false, (_: nat) => now, status, (_: nat) => AllDone, (_: nat) => x.a, (_: nat) => true,
               (_: nat) => x.Draws(), false, Monitor.CheckPending)
  }

  function Whole(c: CycleInput, k: nat): Turn { Cycled(c, k, true, (_: nat) => 0) }

  function InPlanning(query: Option<StatusQuery>, nextAt: nat): Watch { Watch(Some(Planning(1)), query, nextAt) }

  lemma PlansAtOnce(phase: Option<EpochPhase>, tick: nat)
    requires phase.None? || phase == Some(Planning(1))
    ensures NextPhase(phase, TickInfo(1, tick, 0), 0, false) == Planning(1)
  {
  }

  /** Everything such a cycle does to the slot of stream 0. */
  lemma WholeEvents(g: Setup, s: Side, tick: nat, now: nat, status: StatusPoll, x: Drawn, k: nat)
    requires g.resumeDelay == 0 && StreamOf(s) == 0 && (s.w.phase.None? || s.w.phase == Some(Planning(1)))
    ensures Worked(g, s, Whole(Input(tick, now, status, x), k)) == PlanAndServe(tick, x.a, x.Draws())
    ensures PhaseIn(g, s, Input(tick, now, status, x)) == Planning(1)
  {
    PlansAtOnce(s.w.phase, tick);
    hide NextPhase;
  }

  lemma WorkIsInternal(tick: nat, x: Drawn)
    requires x.NonZero()
    ensures forall e :: e in PlanAndServe(tick, x.a, x.Draws()) ==> Internal(e) && DrawsNonZero(e)
    ensures Internal(Polled(AllDone)) && DrawsNonZero(Polled(AllDone))
  {
    assert forall n: nat :: x.Draws()(n) != Some(ZERO_BITS);
  }

  /** A slot that is live or may not start plans well when the wallet signs. */
  lemma LiveOrIdlePlansWell(k12: Hash, slot: ManagedSlot, tick: nat, now: nat, status: StatusPoll, x: Drawn)
    requires tick + SEND_LEAD_TICKS <= U32_MAX
    requires slot.state.Live() || slot == Idle(false).slot || slot == Idle(true).slot
    ensures PlansWell(k12, slot, 0, Planning(1), Input(tick, now, status, x))
  {
    var c := Input(tick, now, status, x);
    var n := if StartIfReady(k12, slot, tick, x.a).Some? then StartIfReady(k12, slot, tick, x.a).value else slot;
    if n.state.Live() && n.chain.Some? && !Missed(n, tick) {
      ExtendSigns(k12, n.chain.value, tick + SEND_LEAD_TICKS, x.Draws(), 0);
    }
    hide ExtendTo, LoseMissed;
  }

  /** What the turn leaves when it goes as its events say. */
  ghost predicate Goes(g: Setup, s: Side, t: Turn, n: Joint)
    requires JointOk(s.j)
  {
    TurnOk(g, s, t) && TurnEnd(g, s, t).j == n
  }

  /** A cycle without an answer, in the middle of the epoch. */
  lemma WorkingTurn(g: Setup, s: Side, tick: nat, now: nat, x: Drawn, v: View, n: View)
    requires JointOk(s.j) && g.resumeDelay == 0 && StreamOf(s) == 0 && s.w.phase == Some(Planning(1)) && x.NonZero()
    requires s.tick <= tick && Of(s.j.h) == v && ViewStep(g.k12, v, Polled(AllDone)).slot.state.Live() && tick + SEND_LEAD_TICKS <= U32_MAX
    requires n == ViewRun(g.k12, ViewStep(g.k12, v, Polled(AllDone)), PlanAndServe(tick, x.a, x.Draws()))
    requires forall i :: Now(s.j).done <= i < |n.signed| ==> Now(s.j).w.tick <= n.signed[i].tx.target
    ensures var t := Whole(Input(tick, now, StatusPending, x), 0);
      exists h :: Of(h) == n && Goes(g, s, t, s.j.(h := h))
  {
    var c := Input(tick, now, StatusPending, x);
    var t := Whole(c, 0);
    var polled, work := [Polled(AllDone)], PlanAndServe(tick, x.a, x.Draws());
    WholeEvents(g, s, tick, now, StatusPending, x, 0);
    WorkIsInternal(tick, x);
    assert Seen(g, s, c) == polled;
    MovesJoin(polled, work, 0);
    RunJoins(g.k12, s.j.h, polled, work);
    RunView(g.k12, s.j.h, polled);
    RunView(g.k12, RunSlot(g.k12, s.j.h, polled), work);
    assert ViewRun(g.k12, v, polled) == ViewStep(g.k12, v, Polled(AllDone)) by { assert polled[1..] == []; }
    hide JointOk, JointRun, JointEnd, MovesOf, RunSlot, ViewRun, ViewStep, PlanAndServe, NextPhase, PlansWell, Input, Seen, Internal, DrawsNonZero;
    EngineRuns(g.k12, g.p, s.j, polled + work, 0);
    LiveOrIdlePlansWell(g.k12, RunSlot(g.k12, s.j.h, polled).slot, tick, now, StatusPending, x);
    assert Goes(g, s, t, s.j.(h := RunSlot(g.k12, s.j.h, polled + work)));
  }

  lemma FirstEvents(g: Setup, w: W.World, x: Drawn)
    requires W.WorldOk(w) && g.resumeDelay == 0
    ensures Seen(g, Start(0, w, 0), Input(0, 0, StatusPending, x)) == [EpochReset] + [Polled(AllDone)]
    ensures AnsweredBy(Watch(None, None, 0), Input(0, 0, StatusPending, x)).None?
    ensures Input(0, 0, StatusPending, x).info == TickInfo(1, 0, 0)
    ensures ViewRun(g.k12, Idle(false), [Polled(AllDone)] + PlanAndServe(0, x.a, x.Draws())) == Idle(false)
  {
    IdleCycle(g.k12, Idle(false), 0, x);
    assert ViewStep(g.k12, Idle(false), Polled(AllDone)) == Idle(false);
    hide PlanAndServe, ViewStep;
    var events := [Polled(AllDone)] + PlanAndServe(0, x.a, x.Draws());
    assert events[0] == Polled(AllDone) && events[1..] == PlanAndServe(0, x.a, x.Draws());
  }

  lemma FirstMoves(events: seq<SlotEvent>, work: seq<SlotEvent>, k: nat)
    ensures MovesOf([EpochReset] + events, k) + MovesOf(work, k) == [EngineMoves(EpochReset)] + MovesOf(events + work, k)
  {
  }

  /** The first cycle begins the epoch and finds nothing to do. */
  lemma FirstTurn(g: Setup, w: W.World, x: Drawn)
    requires W.WorldOk(w) && g.resumeDelay == 0 && x.NonZero()
    ensures exists h :: Of(h) == Idle(false) && Goes(g, Start(0, w, 0), Whole(Input(0, 0, StatusPending, x), 0), Opening(0, w).(h := h))
  {
    hide JointRun, JointEnd, MovesOf, RunSlot, ViewRun, ViewStep, PlanAndServe, NextPhase, PlansWell, Input, Seen, Internal,
         W.WorldOk;
    var s := Start(0, w, 0);
    var t := Whole(Input(0, 0, StatusPending, x), 0);
    var polled, work := [Polled(AllDone)], PlanAndServe(0, x.a, x.Draws());
    FirstEvents(g, w, x);
    WholeEvents(g, s, 0, 0, StatusPending, x, 0);
    WorkIsInternal(0, x);
    WorkStaysInternal(g.k12, Begin(0), 0, x);
    FirstMoves(polled, work, 0);
    RunView(g.k12, Begin(0), polled + work);
    SeenFirst(g.k12, polled[0]);
    assert Moved(g.k12, g.p, s.j, EngineMoves(EpochReset)) == s.j;
    RunsOne(g.k12, g.p, s.j, EngineMoves(EpochReset));
    EngineRuns(g.k12, g.p, s.j, polled + work, 0);
    RunSplits(g.k12, g.p, s.j, [EngineMoves(EpochReset)], MovesOf(polled + work, 0));
    LiveOrIdlePlansWell(g.k12, Idle(false).slot, 0, 0, StatusPending, x);
    assert Goes(g, s, t, s.j.(h := RunSlot(g.k12, s.j.h, polled + work)));
  }

  lemma SeenFirst(k12: Hash, e: SlotEvent)
    requires e == Polled(AllDone)
    ensures RunSlot(k12, Begin(0), [EpochReset] + [e]).slot == Idle(false).slot
  {
    TwoEvents(k12, Begin(0), EpochReset, e);
  }

  /** The answer that shows nothing, after the tasks were polled. */
  function Observing(v: View, k12: Hash, r: nat): View {
    ViewStep(k12, ViewStep(k12, v, Polled(AllDone)), StatusSeen(r, None))
  }

  function SeenAt(r: nat): seq<SlotEvent> { [Polled(AllDone)] + [StatusSeen(r, None)] }

  lemma AnswerMoves(k12: Hash, p: Provider, j: Joint, k: nat, r: nat)
    requires JointOk(j) && j.h.slot.stream == 0 && j.seen <= k < |j.past| && r <= j.past[k].w.tick <= U32_MAX
    requires Shown(j.past[k].w, p, 0) == None
    requires var signed := Next(k12, j.h, StatusSeen(r, None)).signed;
      forall i :: Now(j).done <= i < |signed| ==> Now(j).w.tick <= signed[i].tx.target
    ensures var n := j.(h := Next(k12, j.h, StatusSeen(r, None)), seen := k);
      JointRun(k12, p, j, [Answered(r, k)]) && JointEnd(k12, p, j, [Answered(r, k)]) == n
  {
    hide W.WorldOk, Next, Shown;
    RunsOne(k12, p, j, Answered(r, k));
  }

  lemma PolledMoves(k12: Hash, p: Provider, j: Joint, k: nat)
    requires JointOk(j)
    requires var signed := Next(k12, j.h, Polled(AllDone)).signed;
      forall i :: Now(j).done <= i < |signed| ==> Now(j).w.tick <= signed[i].tx.target
    ensures var n := j.(h := Next(k12, j.h, Polled(AllDone)));
      && JointRun(k12, p, j, [EngineMoves(Polled(AllDone))]) && JointEnd(k12, p, j, [EngineMoves(Polled(AllDone))]) == n
      && n.h.slot.stream == j.h.slot.stream
  {
    NextKeepsStream(k12, j.h, Polled(AllDone));
    hide W.WorldOk, Next;
    RunsOne(k12, p, j, EngineMoves(Polled(AllDone)));
  }

  lemma Observes(k12: Hash, p: Provider, j: Joint, k: nat, r: nat, last: seq<Signed>)
    requires JointOk(j) && j.h.slot.stream == 0 && j.seen <= k < |j.past| && r <= j.past[k].w.tick <= U32_MAX
    requires Shown(j.past[k].w, p, 0) == None && RunSlot(k12, j.h, SeenAt(r)).signed <= last
    requires forall i :: Now(j).done <= i < |last| ==> Now(j).w.tick <= last[i].tx.target
    ensures JointRun(k12, p, j, MovesOf(SeenAt(r), k))
    ensures JointEnd(k12, p, j, MovesOf(SeenAt(r), k)) == j.(h := RunSlot(k12, j.h, SeenAt(r)), seen := k)
  {
    hide JointRun, JointEnd, RunSlot, W.StreamOk, Next, Shown;
    var h1 := Next(k12, j.h, Polled(AllDone));
    TwoEvents(k12, j.h, Polled(AllDone), StatusSeen(r, None));
    NextSigns(k12, h1, StatusSeen(r, None));
    PolledMoves(k12, p, j, k);
    AnswerMoves(k12, p, j.(h := h1), k, r);
    assert MovesOf(SeenAt(r), k) == [EngineMoves(Polled(AllDone))] + [Answered(r, k)];
    RunSplits(k12, p, j, [EngineMoves(Polled(AllDone))], [Answered(r, k)]);
  }

  lemma AnswerIsSeen(g: Setup, s: Side, tick: nat, now: nat, status: StatusPoll, x: Drawn, r: nat, k: nat)
    requires JointOk(s.j) && StreamOf(s) == 0 && s.w.phase == Some(Planning(1)) && s.w.query == Some(StatusQuery(1, r))
    requires k < |s.j.past| && s.j.past[k].w.tick <= U32_MAX && Shown(s.j.past[k].w, g.p, 0) == None
    requires status == StatusAnswer(Reported(s.j.past[k].w, g.p))
    ensures var c := Input(tick, now, status, x);
      && Seen(g, s, c) == SeenAt(r) && AnsweredBy(s.w, c) == Some(Snapshot(1, r, status.slots)) && c.info == TickInfo(1, tick, 0)
  {
    AnswerIsApplied(g, s, Whole(Input(tick, now, status, x), k));
    hide Reported;
  }

  /** A cycle that applies an answer showing nothing. */
  lemma AnsweredTurn(g: Setup, s: Side, tick: nat, now: nat, x: Drawn, k: nat, r: nat, v: View, v2: View, n: View)
    requires JointOk(s.j) && g.resumeDelay == 0 && StreamOf(s) == 0 && s.w.phase == Some(Planning(1)) && x.NonZero()
    requires s.w.query == Some(StatusQuery(1, r)) && s.j.seen <= k < |s.j.past| && r <= s.j.past[k].w.tick <= U32_MAX
    requires Shown(s.j.past[k].w, g.p, 0) == None && s.tick <= tick && tick + SEND_LEAD_TICKS <= U32_MAX && Of(s.j.h) == v
    requires v2 == Observing(v, g.k12, r) && (v2.slot.state.Live() || v2.slot == Idle(true).slot)
    requires n == ViewRun(g.k12, v2, PlanAndServe(tick, x.a, x.Draws()))
    requires forall i :: Now(s.j).done <= i < |n.signed| ==> Now(s.j).w.tick <= n.signed[i].tx.target
    ensures var t := Whole(Input(tick, now, StatusAnswer(Reported(s.j.past[k].w, g.p)), x), k);
      exists h :: Of(h) == n && Goes(g, s, t, s.j.(h := h, seen := k))
        && (Suspects(v2.slot) ==> EverSuspects(g.k12, g.p, s.j, TurnMoves(g, s, t)))
  {
    hide JointRun, JointEnd, RunSlot, ViewRun, ViewStep, PlanAndServe, NextPhase, PlansWell, Input, Seen, Internal, DrawsNonZero,
         W.StreamOk, Next, Shown, Reported, Suspects, MovesOf, SeenAt, Observing;
    var status := StatusAnswer(Reported(s.j.past[k].w, g.p));
    var c := Input(tick, now, status, x);
    var t := Whole(c, k);
    var seen, work := SeenAt(r), PlanAndServe(tick, x.a, x.Draws());
    AnswerIsSeen(g, s, tick, now, status, x, r, k);
    WholeEvents(g, s, tick, now, status, x, k);
    WorkIsInternal(tick, x);
    var h2 := RunSlot(g.k12, s.j.h, seen);
    SeenView(g.k12, s.j.h, r);
    WorkStaysInternal(g.k12, h2, tick, x);
    RunView(g.k12, h2, work);
    Observes(g.k12, g.p, s.j, k, r, n.signed);
    var j2 := s.j.(h := h2, seen := k);
    EngineRuns(g.k12, g.p, j2, work, k);
    RunSplits(g.k12, g.p, s.j, MovesOf(seen, k), MovesOf(work, k));
    LiveOrIdlePlansWell(g.k12, v2.slot, tick, now, status, x);
    assert Goes(g, s, t, j2.(h := RunSlot(g.k12, h2, work)));
  }

  lemma WorkStaysInternal(k12: Hash, h: Trace, tick: nat, x: Drawn)
    ensures h.signed <= RunSlot(k12, h, PlanAndServe(tick, x.a, x.Draws())).signed
    ensures forall e :: e in PlanAndServe(tick, x.a, x.Draws()) ==> !e.EpochReset?
  {
    SignedGrows(k12, h, PlanAndServe(tick, x.a, x.Draws()));
  }

  lemma SeenView(k12: Hash, h: Trace, r: nat)
    ensures Of(RunSlot(k12, h, SeenAt(r))) == Observing(Of(h), k12, r)
  {
    var polled, seen := Polled(AllDone), StatusSeen(r, None);
    TwoEvents(k12, h, polled, seen);
    NextView(k12, h, polled);
    NextView(k12, Next(k12, h, polled), seen);
    hide Next, ViewStep;
  }

  lemma NextSigns(k12: Hash, h: Trace, e: SlotEvent)
    requires !e.EpochReset?
    ensures h.signed <= Next(k12, h, e).signed
  {
    hide StepSlot, NewlySigned, NewlySent, NextStreak, AcceptedBy, Started;
  }

  lemma TwoEvents(k12: Hash, h: Trace, d: SlotEvent, e: SlotEvent)
    ensures RunSlot(k12, h, [d]) == Next(k12, h, d) && RunSlot(k12, h, [d] + [e]) == Next(k12, Next(k12, h, d), e)
  {
    RunStep(k12, h, d, [e]);
    RunStep(k12, h, d, []);
    RunStep(k12, Next(k12, h, d), e, []);
    assert [d] + [] == [d] && [e] + [] == [e];
    hide Next;
  }

  // ---------------------------------------------------------------- the run

  function NewWorld(fee: nat): W.World { W.World(R.Fresh(fee), 0) }

  lemma NewWorldIsOk(fee: nat)
    ensures W.WorldOk(NewWorld(fee))
  {
  }

  /** From here a run leads to a suspicion although every answer shows at most so many ticks more
      than its query was requested at. */
  ghost predicate Leads(g: Setup, s: Side, margin: nat)
    requires JointOk(s.j)
  {
    exists turns :: CycleRun(g, s, turns) && AllPrompt(g, s, turns, margin) && SuspectsEver(g, s, turns)
  }

  lemma LeadsBack(g: Setup, s: Side, t: Turn, margin: nat)
    requires JointOk(s.j) && TurnOk(g, s, t) && Prompt(s, t, margin) && Leads(g, TurnEnd(g, s, t), margin)
    ensures Leads(g, s, margin)
  {
    hide TurnOk, Prompt, TurnEnd, JointOk;
    var n := TurnEnd(g, s, t);
    var rest :| CycleRun(g, n, rest) && AllPrompt(g, n, rest, margin) && SuspectsEver(g, n, rest);
    var turns := [t] + rest;
    assert turns[0] == t && turns[1..] == rest;
    assert CycleRun(g, s, turns) && AllPrompt(g, s, turns, margin) && SuspectsEver(g, s, turns);
  }

  lemma LeadsNow(g: Setup, s: Side, t: Turn, margin: nat)
    requires JointOk(s.j) && TurnOk(g, s, t) && Prompt(s, t, margin) && EverSuspects(g.k12, g.p, s.j, TurnMoves(g, s, t))
    ensures Leads(g, s, margin)
  {
    hide TurnOk, Prompt, TurnEnd, JointOk, EverSuspects;
    var turns := [t];
    assert turns[0] == t && turns[1..] == [];
    assert CycleRun(g, TurnEnd(g, s, t), []) && AllPrompt(g, TurnEnd(g, s, t), [], margin);
    assert CycleRun(g, s, turns);
    assert CycleRun(g, s, turns) && AllPrompt(g, s, turns, margin) && SuspectsEver(g, s, turns);
  }

  /** The configuration of the example. */
  ghost predicate Suits(g: Setup, x: Drawn) {
    g.resumeDelay == 0 && g.p.tier < R.TIER_COUNT && DigestsNonZero(g.k12) && x.NonZero()
  }

  /** Where the run stands: query, tick of the latest cycle, slot, moments, tick and executed calls
      of the contract. */
  ghost predicate At(g: Setup, s: Side, w: Watch, tick: nat, v: View, moments: nat, now: nat, done: nat) {
    && JointOk(s.j) && s.w == w && s.tick == tick && Of(s.j.h) == v && StreamOf(s) == 0
    && Stands(s.j, s.j.h, moments, now, done) && Trusted(g.k12, g.p, s.j) && QueryAhead(s)
  }

  /** A turn that goes well ends where it should. */
  lemma Arrives(g: Setup, s: Side, t: Turn, n: Joint, w: Watch, tick: nat, v: View, moments: nat, now: nat, done: nat)
    requires JointOk(s.j) && Goes(g, s, t, n) && Trusted(g.k12, g.p, s.j) && QueryAhead(s) && DigestsNonZero(g.k12)
    requires Prompt(s, t, ANSWER_MARGIN) && TurnEnd(g, s, t).w == w && TurnEnd(g, s, t).tick == tick
    requires Of(n.h) == v && v.slot.stream == 0 && Stands(n, n.h, moments, now, done)
    ensures At(g, TurnEnd(g, s, t), w, tick, v, moments, now, done)
  {
    hide Trusted, QueryAhead, Prompt, TurnOk, Stands, JointOk;
    TurnIsTrusted(g, s, t);
  }

  lemma SeventhTurn(g: Setup, s: Side, x: Drawn)
    requires Suits(g, x) && At(g, s, InPlanning(Some(StatusQuery(1, 8)), 1500), 8, Extended(g.k12, x), 20, 16, 3)
    ensures Leads(g, s, ANSWER_MARGIN + 1)
  {
    var m := s.j.past[19];
    assert Shown(m.w, g.p, 0) == None by { SlotIsGone(g, s.j); }
    ContinuationsAreAccepted(g.k12, x);
    AbsenceIsCounted(g.k12, x);
    LosingCycle(g.k12, x);
    hide Trusted, QueryAhead, W.StreamOk, Shown, Reported, TurnOk, EverSuspects, ViewRun, ViewStep, TurnMoves, DigestsNonZero;
    AnsweredTurn(g, s, 16, 1000, x, 19, 8, Extended(g.k12, x), Extended2(g.k12, x, Some(NewSuspicion(Absent, 8))), Over(g.k12, x));
    LeadsNow(g, s, Whole(Input(16, 1000, StatusAnswer(Reported(m.w, g.p)), x), 19), ANSWER_MARGIN + 1);
  }

  lemma SlotIsGone(g: Setup, j: Joint)
    requires Trusted(g.k12, g.p, j) && j.h.slot.state.Live() && j.h.slot.chain.Some? && j.h.slot.stream == 0
    requires j.seen <= 19 < |j.past| && j.h.slot.chain.value.last + STREAM_COUNT < j.past[19].w.tick <= U32_MAX
    ensures Shown(j.past[19].w, g.p, 0) == None
  {
    AlongShows(g.k12, g.p, j, 19);
    hide Along, Shown;
  }

  /** The contract executes call `done`, so many ticks from now, and goes on for a while. */
  lemma ContractTurn(g: Setup, s: Side, w: Watch, tick: nat, v: View, moments: nat, now: nat, done: nat, before: nat, after: nat)
    requires g.p.tier < R.TIER_COUNT && DigestsNonZero(g.k12) && At(g, s, w, tick, v, moments, now, done) && done < |v.signed|
    requires v.signed[done].tx.target == now + before && (now + before) % 3 == 0
    requires v.signed[done].kind.FirstCommit? ==> done == 0
    requires forall i :: done < i < |v.signed| ==> now + before + after <= v.signed[i].tx.target
    ensures var t := Outside(UntilCall(g.p, v.signed[done], before, after));
      TurnOk(g, s, t) && At(g, TurnEnd(g, s, t), w, tick, v, moments + before + 1 + after, now + before + after, done + 1)
  {
    hide Trusted, QueryAhead, Stands, UntilCall, JointRun, JointEnd, Happens;
    var t := Outside(UntilCall(g.p, v.signed[done], before, after));
    CallIsAwaited(g.k12, g.p, s.j, s.j.h, moments, now, done, before, after);
    var n := JointEnd(g.k12, g.p, s.j, TurnMoves(g, s, t));
    StandsOk(n, s.j.h, moments + before + 1 + after, now + before + after, done + 1);
    assert Goes(g, s, t, n);
    Arrives(g, s, t, n, w, tick, v, moments + before + 1 + after, now + before + after, done + 1);
  }

  lemma SixthTurn(g: Setup, s: Side, x: Drawn)
    requires Suits(g, x) && At(g, s, InPlanning(Some(StatusQuery(1, 8)), 1500), 8, Extended(g.k12, x), 12, 9, 2)
    ensures Leads(g, s, ANSWER_MARGIN + 1)
  {
    var v := Extended(g.k12, x);
    ContractTurn(g, s, InPlanning(Some(StatusQuery(1, 8)), 1500), 8, v, 12, 9, 2, 3, 4);
    hide At, TurnOk, TurnEnd, JointOk, Leads;
    var t := Outside(UntilCall(g.p, v.signed[2], 3, 4));
    SeventhTurn(g, TurnEnd(g, s, t), x);
    LeadsBack(g, s, t, ANSWER_MARGIN + 1);
  }

  lemma FifthTurn(g: Setup, s: Side, x: Drawn)
    requires Suits(g, x) && At(g, s, InPlanning(Some(StatusQuery(1, 8)), 1500), 8, Extended(g.k12, x), 10, 8, 1)
    ensures Leads(g, s, ANSWER_MARGIN + 1)
  {
    var v := Extended(g.k12, x);
    ContractTurn(g, s, InPlanning(Some(StatusQuery(1, 8)), 1500), 8, v, 10, 8, 1, 1, 0);
    hide At, TurnOk, TurnEnd, JointOk, Leads;
    var t := Outside(UntilCall(g.p, v.signed[1], 1, 0));
    SixthTurn(g, TurnEnd(g, s, t), x);
    LeadsBack(g, s, t, ANSWER_MARGIN + 1);
  }

  /** What such a cycle makes of the status query. */
  lemma QueryAfter(query: Option<StatusQuery>, nextAt: nat, tick: nat, now: nat, status: StatusPoll, x: Drawn)
    requires status.StatusPending? ==> query.None?
    ensures WatchAfter(InPlanning(query, nextAt), 0, Input(tick, now, status, x), true) ==
      if nextAt <= now then InPlanning(Some(StatusQuery(1, tick)), now + 500) else InPlanning(None, nextAt)
    ensures status.StatusPending? ==> AnsweredBy(InPlanning(query, nextAt), Input(tick, now, status, x)).None?
  {
  }

  lemma FourthTurn(g: Setup, s: Side, x: Drawn)
    requires Suits(g, x) && At(g, s, InPlanning(None, 500), 0, Begun(g.k12, x), 10, 8, 1)
    ensures Leads(g, s, ANSWER_MARGIN + 1)
  {
    FirstIsAccepted(g.k12, x);
    ExtendingCycle(g.k12, x);
    QueryAfter(None, 500, 8, 1000, StatusPending, x);
    hide Trusted, QueryAhead, W.StreamOk, TurnOk, ViewRun, ViewStep, TurnMoves, DigestsNonZero;
    WorkingTurn(g, s, 8, 1000, x, Begun(g.k12, x), Extended(g.k12, x));
    var t := Whole(Input(8, 1000, StatusPending, x), 0);
    var h :| Of(h) == Extended(g.k12, x) && Goes(g, s, t, s.j.(h := h));
    Arrives(g, s, t, s.j.(h := h), InPlanning(Some(StatusQuery(1, 8)), 1500), 8, Extended(g.k12, x), 10, 8, 1);
    hide At, TurnEnd, Leads;
    FifthTurn(g, TurnEnd(g, s, t), x);
    LeadsBack(g, s, t, ANSWER_MARGIN + 1);
  }

  lemma ThirdTurn(g: Setup, s: Side, x: Drawn)
    requires Suits(g, x) && At(g, s, InPlanning(None, 500), 0, Begun(g.k12, x), 1, 0, 0)
    ensures Leads(g, s, ANSWER_MARGIN + 1)
  {
    var v := Begun(g.k12, x);
    ContractTurn(g, s, InPlanning(None, 500), 0, v, 1, 0, 0, 6, 2);
    hide At, TurnOk, TurnEnd, JointOk, Leads;
    var t := Outside(UntilCall(g.p, v.signed[0], 6, 2));
    FourthTurn(g, TurnEnd(g, s, t), x);
    LeadsBack(g, s, t, ANSWER_MARGIN + 1);
  }

  lemma EmptyShowsNothing(m: Moment, p: Provider)
    requires W.WorldOk(m.w) && m.w.tick <= U32_MAX && |m.w.c.streams[0]| == 0
    ensures Shown(m.w, p, 0) == None
  {
    AbsentShowsNothing(m.w, p, 0);
    hide Shown;
  }

  /** The second cycle learns that the slot is absent and starts the chain. */
  lemma SecondArrives(g: Setup, s: Side, x: Drawn)
    requires Suits(g, x) && At(g, s, InPlanning(Some(StatusQuery(1, 0)), 500), 0, Idle(false), 1, 0, 0)
    ensures W.WorldOk(s.j.past[0].w) && s.j.past[0].w.tick == 0
    ensures var t := Whole(Input(0, 0, StatusAnswer(Reported(s.j.past[0].w, g.p)), x), 0);
      TurnOk(g, s, t) && At(g, TurnEnd(g, s, t), InPlanning(None, 500), 0, Begun(g.k12, x), 1, 0, 0)
  {
    hide Trusted, QueryAhead, W.StreamOk, TurnOk, ViewRun, ViewStep, TurnMoves, DigestsNonZero, Shown, Reported, Suspects, Observing;
    var m := s.j.past[0];
    var status := StatusAnswer(Reported(m.w, g.p));
    EmptyShowsNothing(m, g.p);
    BeginningCycle(g.k12, x);
    AbsenceIsSeen(g.k12);
    QueryAfter(Some(StatusQuery(1, 0)), 500, 0, 0, status, x);
    AnsweredTurn(g, s, 0, 0, x, 0, 0, Idle(false), Idle(true), Begun(g.k12, x));
    var t := Whole(Input(0, 0, status, x), 0);
    var h :| Of(h) == Begun(g.k12, x) && Goes(g, s, t, s.j.(h := h, seen := 0));
    Arrives(g, s, t, s.j.(h := h, seen := 0), InPlanning(None, 500), 0, Begun(g.k12, x), 1, 0, 0);
  }

  lemma SecondTurn(g: Setup, s: Side, x: Drawn)
    requires Suits(g, x) && At(g, s, InPlanning(Some(StatusQuery(1, 0)), 500), 0, Idle(false), 1, 0, 0)
    ensures Leads(g, s, ANSWER_MARGIN + 1)
  {
    SecondArrives(g, s, x);
    hide Trusted, QueryAhead, Stands, TurnOk, TurnEnd, Leads, Reported;
    var t := Whole(Input(0, 0, StatusAnswer(Reported(s.j.past[0].w, g.p)), x), 0);
    ThirdTurn(g, TurnEnd(g, s, t), x);
    LeadsBack(g, s, t, ANSWER_MARGIN + 1);
  }

  lemma AbsenceIsSeen(k12: Hash)
    ensures Observing(Idle(false), k12, 0) == Idle(true)
  {
  }

  /** With an answer that shows just one tick more than allowed, eight after its request, the
      engine can suspect a chain all of whose signed calls were executed: this run does. */
  lemma LateAnswerExample(g: Setup, x: Drawn, fee: nat)
    requires Suits(g, x)
    ensures W.WorldOk(NewWorld(fee))
    ensures exists turns ::
      && FromStart(g, 0, NewWorld(fee), 0, turns)
      && AllPrompt(g, Start(0, NewWorld(fee), 0), turns, ANSWER_MARGIN + 1)
      && SuspectsEver(g, Start(0, NewWorld(fee), 0), turns)
  {
    NewWorldIsOk(fee);
    var w := NewWorld(fee);
    var s := Start(0, w, 0);
    OpeningIsTrusted(g.k12, g.p, 0, w);
    hide Trusted, W.WorldOk, TurnOk, TurnMoves, DigestsNonZero;
    FirstTurn(g, w, x);
    var t := Whole(Input(0, 0, StatusPending, x), 0);
    var h :| Of(h) == Idle(false) && Goes(g, s, t, Opening(0, w).(h := h));
    Arrives(g, s, t, Opening(0, w).(h := h), InPlanning(Some(StatusQuery(1, 0)), 500), 0, Idle(false), 1, 0, 0);
    hide At, TurnEnd;
    SecondTurn(g, TurnEnd(g, s, t), x);
    LeadsBack(g, s, t, ANSWER_MARGIN + 1);
    var turns :| CycleRun(g, s, turns) && AllPrompt(g, s, turns, ANSWER_MARGIN + 1) && SuspectsEver(g, s, turns);
    assert FromStart(g, 0, w, 0, turns);
  }
}
