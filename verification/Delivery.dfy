/** End-to-end delivery: a chain the engine signs is accepted call by call by the contract,
    and the provider gets back everything it attached. */
module Delivery {
  import opened Basics
  import opened RandomRules
  import opened RandomRounds
  import opened RandomWorld
  import SlotRules

  /** The contract's key of one managed slot. */
  datatype Provider = Provider(id: Id, tier: nat)

  predicate Has(x: Slot, p: Provider) { x.HasKey(p.id, p.tier) }

  /** What executing signed bytes asks the contract to do. */
  function CallOf(p: Provider, tx: SlotRules.SignedTx): Call { Call(p.id, false, Pow10(p.tier), tx.preimage, tx.commit) }

  predicate Own(p: Provider, e: Event) {
    e.CallMade? && e.call.invocator == p.id && TierOf(e.call.amount) == Some(p.tier)
  }

  /** Everything else that happens from the tick of one call to the tick of the next: before
      and after the call in its tick, and in the two ticks of the other streams. */
  datatype Around = Around(before: seq<Event>, after: seq<Event>, next: seq<Event>, overnext: seq<Event>)

  ghost predicate NoneOwn(p: Provider, events: seq<Event>) { forall e :: e in events ==> !Own(p, e) }

  ghost predicate OnlyAgain(p: Provider, call: Call, events: seq<Event>) {
    forall e :: e in events && Own(p, e) ==> e == CallMade(call)
  }

  /** Other callers do as they please; the call itself may be executed again in its tick. */
  ghost predicate AroundOk(p: Provider, call: Call, v: Around) {
    && WithinTick(v.before) && WithinTick(v.after) && WithinTick(v.next) && WithinTick(v.overnext)
    && NoneOwn(p, v.before) && OnlyAgain(p, call, v.after)
  }

  /** The tick of the call, and the two ticks of the other streams after it. */
  function TickOfCall(call: Call, v: Around): seq<Event> { v.before + [CallMade(call)] + v.after + [TickEnded] }

  function OtherTicks(v: Around): seq<Event> { v.next + [TickEnded] + (v.overnext + [TickEnded]) }

  function Round(call: Call, v: Around): seq<Event> { TickOfCall(call, v) + OtherTicks(v) }

  // ---------------------------------------------------------------- one stream, one call

  ghost predicate AbsentKey(s: seq<Slot>, p: Provider) { forall x :: x in s ==> !Has(x, p) }

  lemma FindsNothing(s: seq<Slot>, p: Provider)
    requires AbsentKey(s, p)
    ensures Find(s, p.id, p.tier) == |s|
  {
    assert forall i :: 0 <= i < |s| ==> s[i] in s;
  }

  lemma OtherCallKeeps(k12: Hash, s: seq<Slot>, tick: nat, call: Call, p: Provider)
    requires !Own(p, CallMade(call))
    ensures forall x :: Has(x, p) ==> (x in s <==> x in Settle(k12, s, tick, call))
  {
    var n := Settle(k12, s, tick, call);
    var at := match Judge(k12, s, call) case Recommitted(i) => i case Left(i) => i case _ => |s|;
    forall x | Has(x, p) ensures x in s <==> x in n {
      if x in s {
        var i :| 0 <= i < |s| && s[i] == x;
        assert n[i] == x;
      }
      if x in n {
        var i :| 0 <= i < |n| && n[i] == x;
        assert i < |s| && s[i] == x;
      }
    }
  }

  ghost predicate SameFor(p: Provider, a: seq<Slot>, b: seq<Slot>) {
    forall x :: Has(x, p) ==> (x in a <==> x in b)
  }

  lemma {:induction false} OthersKeep(k12: Hash, w: World, events: seq<Event>, p: Provider)
    requires WorldOk(w) && WithinTick(events) && NoneOwn(p, events)
    ensures var n := Run(k12, w, events);
      n.tick == w.tick && SameFor(p, w.c.streams[w.tick % 3], n.c.streams[w.tick % 3])
    decreases |events|
  {
    if events != [] {
      assert events[0] in events && forall e :: e in events[1..] ==> e in events;
      StepKeepsWorld(k12, w, events[0]);
      if events[0].CallMade? { OtherCallKeeps(k12, w.c.streams[w.tick % 3], w.tick, events[0].call, p); }
      OthersKeep(k12, Step(k12, w, events[0]), events[1..], p);
    }
  }

  /** The slot right after an accepted call of this tick. */
  ghost predicate Taken(s: seq<Slot>, p: Provider, commit: Id, tick: nat) {
    exists x :: x in s && Has(x, p) && x.flagged && x.commit == commit && x.lastUpdate == tick
                && (commit == ZERO_ID ==> x.revealed)
  }

  /** The slot between its ticks. */
  ghost predicate Held(s: seq<Slot>, p: Provider, commit: Id, tick: nat) {
    exists x :: x in s && Has(x, p) && !x.flagged && x.preimage == ZERO_BITS && x.commit == commit
                && x.locked == Pow10(p.tier) && x.lastUpdate == tick
  }

  lemma FirstCommitIsAccepted(k12: Hash, s: seq<Slot>, tick: nat, p: Provider, tx: SlotRules.SignedTx)
    requires p.tier < TIER_COUNT && AbsentKey(s, p) && |s| < STREAM_CAPACITY
    requires tx.preimage == ZERO_BITS && tx.commit != ZERO_ID
    ensures Judge(k12, s, CallOf(p, tx)) == Enrolled && CallEffects(k12, s, CallOf(p, tx)) == []
    ensures Taken(Settle(k12, s, tick, CallOf(p, tx)), p, tx.commit, tick)
  {
    TierOfPow10(p.tier);
    FindsNothing(s, p);
    var n := Settle(k12, s, tick, CallOf(p, tx));
    assert n[|s|] in n;
  }

  lemma RevealIsAccepted(k12: Hash, s: seq<Slot>, tick: nat, p: Provider, tx: SlotRules.SignedTx, commit: Id, last: nat)
    requires p.tier < TIER_COUNT && UniqueKeys(s) && Held(s, p, commit, last)
    requires tx.preimage != ZERO_BITS && k12(tx.preimage) == commit
    ensures !Judge(k12, s, CallOf(p, tx)).Rejected? && !Judge(k12, s, CallOf(p, tx)).Enrolled?
    ensures Paid(CallEffects(k12, s, CallOf(p, tx)), Some(p.id)) ==
      Pow10(p.tier) + if tx.commit == ZERO_ID then Pow10(p.tier) else 0
    ensures Taken(Settle(k12, s, tick, CallOf(p, tx)), p, tx.commit, tick)
  {
    TierOfPow10(p.tier);
    var x :| x in s && Has(x, p) && !x.flagged && x.preimage == ZERO_BITS && x.commit == commit
             && x.locked == Pow10(p.tier) && x.lastUpdate == last;
    var i :| 0 <= i < |s| && s[i] == x;
    var j := Find(s, p.id, p.tier);
    KeyAtOnePlace(s, i, j);
    var n := Settle(k12, s, tick, CallOf(p, tx));
    assert n[i] in n;
    PayBackPays(p.id, x.locked, Some(p.id));
    EffectsAppend(PayBack(p.id, x.locked), [Transfer(p.id, Pow10(p.tier))], Some(p.id));
  }

  // ---------------------------------------------------------------- the tick of a call

  lemma {:induction false} RunJoin(k12: Hash, w: World, a: seq<Event>, b: seq<Event>)
    requires WorldOk(w)
    ensures Run(k12, w, a + b) == Run(k12, Run(k12, w, a), b)
    decreases |a|
  {
    if a == [] {
      assert a + b == b;
    } else {
      assert (a + b)[1..] == a[1..] + b;
      StepKeepsWorld(k12, w, a[0]);
      RunJoin(k12, Step(k12, w, a[0]), a[1..], b);
    }
  }

  lemma RunOne(k12: Hash, w: World, e: Event)
    requires WorldOk(w)
    ensures WorldOk(Step(k12, w, e)) && Run(k12, w, [e]) == Step(k12, w, e)
  {
    StepKeepsWorld(k12, w, e);
    assert Run(k12, Step(k12, w, e), []) == Step(k12, w, e);
  }

  lemma TakenIsFlagged(s: seq<Slot>, p: Provider, commit: Id, tick: nat)
    requires Taken(s, p, commit, tick)
    ensures FlaggedKey(s, p.id, p.tier)
  {
    var x :| x in s && Has(x, p) && x.flagged;
    var i :| 0 <= i < |s| && s[i] == x;
    assert s[i].HasKey(p.id, p.tier) && s[i].flagged;
  }

  /** Repeating the call, or anything others do, leaves the taken slot as it is. */
  lemma {:induction false} RestKeepsTaken(k12: Hash, w: World, events: seq<Event>, p: Provider, call: Call, commit: Id)
    requires WorldOk(w) && WithinTick(events) && OnlyAgain(p, call, events)
    requires Taken(w.c.streams[w.tick % 3], p, commit, w.tick)
    ensures var n := Run(k12, w, events); n.tick == w.tick && Taken(n.c.streams[w.tick % 3], p, commit, w.tick)
    decreases |events|
  {
    if events != [] {
      assert events[0] in events && forall e :: e in events[1..] ==> e in events;
      StepKeepsWorld(k12, w, events[0]);
      var n := Step(k12, w, events[0]);
      var s := w.c.streams[w.tick % 3];
      if events[0].CallMade? {
        if Own(p, events[0]) {
          TakenIsFlagged(s, p, commit, w.tick);
          assert StreamOk(s, w.tick % 3, w.tick);
          FlaggedKeyRejects(k12, s, events[0].call, p.tier);
        } else {
          OtherCallKeeps(k12, s, w.tick, events[0].call, p);
        }
      }
      RestKeepsTaken(k12, n, events[1..], p, call, commit);
    }
  }

  /** A call fits the stream: the first of an absent key, or the opening of its commit. */
  ghost predicate Fits(k12: Hash, s: seq<Slot>, p: Provider, tx: SlotRules.SignedTx) {
    || (AbsentKey(s, p) && tx.preimage == ZERO_BITS && tx.commit != ZERO_ID)
    || (tx.preimage != ZERO_BITS && exists last: nat :: Held(s, p, k12(tx.preimage), last))
  }

  lemma FitsStays(k12: Hash, a: seq<Slot>, b: seq<Slot>, p: Provider, tx: SlotRules.SignedTx)
    requires SameFor(p, a, b) && Fits(k12, a, p, tx)
    ensures Fits(k12, b, p, tx)
  {
    if tx.preimage == ZERO_BITS {
      forall x | x in b ensures !Has(x, p) { assert Has(x, p) ==> x in a; }
    } else {
      var last: nat :| Held(a, p, k12(tx.preimage), last);
      assert Held(b, p, k12(tx.preimage), last);
    }
  }

  /** The world in the tick of a call, when the call is executed and when the tick is about to end. */
  function AtCall(k12: Hash, w: World, v: Around): World
    requires WorldOk(w)
  {
    Run(k12, w, v.before)
  }

  function AtTickEnd(k12: Hash, w: World, call: Call, v: Around): World
    requires WorldOk(w)
  {
    Run(k12, w, v.before + [CallMade(call)] + v.after)
  }

  /** The call is accepted when it comes, whatever came before it, and holds until the tick ends. */
  lemma CallIsTaken(k12: Hash, w: World, p: Provider, tx: SlotRules.SignedTx, v: Around)
    requires WorldOk(w) && p.tier < TIER_COUNT && AroundOk(p, CallOf(p, tx), v)
    requires Fits(k12, w.c.streams[w.tick % 3], p, tx)
    requires tx.preimage == ZERO_BITS ==> |AtCall(k12, w, v).c.streams[w.tick % 3]| < STREAM_CAPACITY
    ensures !Judge(k12, AtCall(k12, w, v).c.streams[w.tick % 3], CallOf(p, tx)).Rejected?
    ensures var n := AtTickEnd(k12, w, CallOf(p, tx), v); n.tick == w.tick && Taken(n.c.streams[w.tick % 3], p, tx.commit, w.tick)
  {
    var call := CallOf(p, tx);
    var m := AtCall(k12, w, v);
    var s := m.c.streams[w.tick % 3];
    OthersKeep(k12, w, v.before, p);
    FitsStays(k12, w.c.streams[w.tick % 3], s, p, tx);
    RunJoin(k12, w, v.before, [CallMade(call)]);
    RunJoin(k12, w, v.before + [CallMade(call)], v.after);
    RunOne(k12, m, CallMade(call));
    assert StreamOk(s, w.tick % 3, w.tick);
    CallIsAccepted(k12, s, w.tick, p, tx);
    RestKeepsTaken(k12, Step(k12, m, CallMade(call)), v.after, p, call, tx.commit);
  }

  lemma CallIsAccepted(k12: Hash, s: seq<Slot>, tick: nat, p: Provider, tx: SlotRules.SignedTx)
    requires p.tier < TIER_COUNT && UniqueKeys(s) && Fits(k12, s, p, tx) && (tx.preimage == ZERO_BITS ==> |s| < STREAM_CAPACITY)
    ensures !Judge(k12, s, CallOf(p, tx)).Rejected?
    ensures Taken(Settle(k12, s, tick, CallOf(p, tx)), p, tx.commit, tick)
    ensures Paid(CallEffects(k12, s, CallOf(p, tx)), Some(p.id)) ==
      (if tx.preimage == ZERO_BITS then 0 else Pow10(p.tier)) + (if tx.commit == ZERO_ID then Pow10(p.tier) else 0)
  {
    if tx.preimage == ZERO_BITS {
      FirstCommitIsAccepted(k12, s, tick, p, tx);
    } else {
      var last: nat :| Held(s, p, k12(tx.preimage), last);
      RevealIsAccepted(k12, s, tick, p, tx, k12(tx.preimage), last);
    }
  }

  // ---------------------------------------------------------------- the end of the tick

  /** What END_TICK leaves of the slot: the new commit, or nothing after a terminal call. */
  ghost predicate LeftBehind(s: seq<Slot>, p: Provider, commit: Id, tick: nat) {
    if commit == ZERO_ID then AbsentKey(s, p) else Held(s, p, commit, tick)
  }

  lemma KeptHas(s: seq<Slot>, k: nat)
    requires k < |s| && s[k].flagged
    ensures s[k].(flagged := false) in Kept(s)
  {
    if k > 0 {
      KeptHas(s[1..], k - 1);
    }
  }

  lemma RemainsOf(s: seq<Slot>, k: nat) returns (y: Slot)
    requires k < |s| && s[k].flagged && s[k].commit != ZERO_ID
    ensures y in Remaining(s)
    ensures y.provider == s[k].provider && y.tier == s[k].tier && y.commit == s[k].commit && y.lastUpdate == s[k].lastUpdate
  {
    var c := ClearContributions(s);
    if AnyReveal(s) {
      y := Survivor(c, k);
      SurvivorIn(c, 0, k);
    } else {
      y := c[k].(flagged := false);
      KeptHas(c, k);
    }
    hide Survivors;
  }

  lemma TakenSurvives(s: seq<Slot>, p: Provider, commit: Id, tick: nat)
    requires StreamOk(s, tick % 3, tick) && TiersOk(s) && Taken(s, p, commit, tick) && commit != ZERO_ID
    ensures Held(EndTick(s).slots, p, commit, tick)
  {
    var x :| x in s && Has(x, p) && x.flagged && x.commit == commit && x.lastUpdate == tick;
    var k :| 0 <= k < |s| && s[k] == x;
    hide StreamOk, Remaining, EndTick;
    var y := RemainsOf(s, k);
    EndTickFilters(s);
    assert y in multiset(Remaining(s));
    assert y in EndTick(s).slots;
    EndTickLeavesFresh(s, tick, y);
  }

  lemma LeaverIsGone(s: seq<Slot>, p: Provider, tick: nat)
    requires StreamOk(s, tick % 3, tick) && TiersOk(s) && Taken(s, p, ZERO_ID, tick)
    ensures AbsentKey(EndTick(s).slots, p)
  {
    var x :| x in s && Has(x, p) && x.flagged && x.commit == ZERO_ID && x.revealed;
    var i :| 0 <= i < |s| && s[i] == x;
    var c := ClearContributions(s);
    EndTickFilters(s);
    forall y | y in EndTick(s).slots ensures !Has(y, p) {
      assert y in multiset(EndTick(s).slots);
      assert y in Remaining(s);
      SurvivorsAre(c, 0, y);
      var k: nat :| k < |c| && Stays(c[k]) && y == Survivor(c, k);
      if Has(y, p) { KeyAtOnePlace(s, i, k); }
    }
  }

  lemma TickSettles(k12: Hash, w: World, p: Provider, commit: Id)
    requires WorldOk(w) && Taken(w.c.streams[w.tick % 3], p, commit, w.tick)
    ensures var n := Run(k12, w, [TickEnded]);
      n.tick == w.tick + 1 && LeftBehind(n.c.streams[w.tick % 3], p, commit, w.tick)
  {
    RunOne(k12, w, TickEnded);
    var s := w.c.streams[w.tick % 3];
    assert StreamOk(s, w.tick % 3, w.tick);
    TierBound(s, w.tick % 3, w.tick);
    if commit == ZERO_ID { LeaverIsGone(s, p, w.tick); } else { TakenSurvives(s, p, commit, w.tick); }
  }

  // ---------------------------------------------------------------- the ticks of the other streams

  lemma OtherTickKeeps(k12: Hash, w: World, events: seq<Event>, stream: nat)
    requires WorldOk(w) && WithinTick(events) && stream < 3 && stream != w.tick % 3
    ensures var n := Run(k12, w, events + [TickEnded]);
      n.tick == w.tick + 1 && n.c.streams[stream] == w.c.streams[stream]
  {
    OtherStreamsStand(k12, w, events, stream);
    RunJoin(k12, w, events, [TickEnded]);
    RunOne(k12, Run(k12, w, events), TickEnded);
  }

  lemma OtherTicksPass(k12: Hash, w: World, v: Around, stream: nat)
    requires WorldOk(w) && WithinTick(v.next) && WithinTick(v.overnext) && w.tick % 3 == (stream + 1) % 3 && stream < 3
    ensures var n := Run(k12, w, OtherTicks(v)); n.tick == w.tick + 2 && n.c.streams[stream] == w.c.streams[stream]
  {
    OtherTickKeeps(k12, w, v.next, stream);
    var f := Run(k12, w, v.next + [TickEnded]);
    OtherTickKeeps(k12, f, v.overnext, stream);
    RunJoin(k12, w, v.next + [TickEnded], v.overnext + [TickEnded]);
  }

  /** The tick of a call: it is accepted when it comes, holds until the tick ends (so it is no
      no-show), and END_TICK leaves its commit, or nothing after a terminal call. */
  lemma TickDelivers(k12: Hash, w: World, p: Provider, tx: SlotRules.SignedTx, v: Around)
    requires WorldOk(w) && p.tier < TIER_COUNT && AroundOk(p, CallOf(p, tx), v)
    requires Fits(k12, w.c.streams[w.tick % 3], p, tx)
    requires tx.preimage == ZERO_BITS ==> |AtCall(k12, w, v).c.streams[w.tick % 3]| < STREAM_CAPACITY
    ensures !Judge(k12, AtCall(k12, w, v).c.streams[w.tick % 3], CallOf(p, tx)).Rejected?
    ensures FlaggedKey(AtTickEnd(k12, w, CallOf(p, tx), v).c.streams[w.tick % 3], p.id, p.tier)
    ensures var e := Run(k12, w, TickOfCall(CallOf(p, tx), v));
      e.tick == w.tick + 1 && LeftBehind(e.c.streams[w.tick % 3], p, tx.commit, w.tick)
  {
    var call := CallOf(p, tx);
    CallIsTaken(k12, w, p, tx, v);
    var t := AtTickEnd(k12, w, call, v);
    TakenIsFlagged(t.c.streams[w.tick % 3], p, tx.commit, w.tick);
    RunJoin(k12, w, v.before + [CallMade(call)] + v.after, [TickEnded]);
    TickSettles(k12, t, p, tx.commit);
  }

  /** One round of the stream: what END_TICK settled stays until the stream's next tick. */
  lemma RoundDelivers(k12: Hash, w: World, p: Provider, tx: SlotRules.SignedTx, v: Around)
    requires WorldOk(w) && p.tier < TIER_COUNT && AroundOk(p, CallOf(p, tx), v)
    requires Fits(k12, w.c.streams[w.tick % 3], p, tx)
    requires tx.preimage == ZERO_BITS ==> |AtCall(k12, w, v).c.streams[w.tick % 3]| < STREAM_CAPACITY
    ensures var n := Run(k12, w, Round(CallOf(p, tx), v));
      n.tick == w.tick + 3 && LeftBehind(n.c.streams[w.tick % 3], p, tx.commit, w.tick)
  {
    hide LeftBehind, Fits, TickOfCall, OtherTicks, Run, WorldOk, AtCall;
    var call := CallOf(p, tx);
    TickDelivers(k12, w, p, tx, v);
    RunJoin(k12, w, TickOfCall(call, v), OtherTicks(v));
    NextStream(w.tick);
    OtherTicksPass(k12, Run(k12, w, TickOfCall(call, v)), v, w.tick % 3);
  }

  lemma NextStream(tick: nat)
    ensures (tick + 1) % 3 == (tick % 3 + 1) % 3
  {
  }

  // ---------------------------------------------------------------- the money of the key

  /** What the key's own calls attached and what they got paid back, in ticks of its stream. */
  datatype Purse = Purse(attached: nat, returned: nat)

  function OwnMoved(k12: Hash, w: World, e: Event, p: Provider, stream: nat): Purse
    requires w.c.Ok()
  {
    if w.tick % 3 == stream && Own(p, e) then Purse(e.call.amount, Paid(Effects(k12, w, e), Some(p.id))) else Purse(0, 0)
  }

  function OwnMoney(k12: Hash, w: World, events: seq<Event>, p: Provider, stream: nat): Purse
    requires WorldOk(w)
    decreases |events|
  {
    if events == [] then Purse(0, 0)
    else
      StepKeepsWorld(k12, w, events[0]);
      var now, rest := OwnMoved(k12, w, events[0], p, stream), OwnMoney(k12, Step(k12, w, events[0]), events[1..], p, stream);
      Purse(now.attached + rest.attached, now.returned + rest.returned)
  }

  lemma {:induction false} MoneyJoin(k12: Hash, w: World, a: seq<Event>, b: seq<Event>, p: Provider, stream: nat)
    requires WorldOk(w)
    ensures var x, y := OwnMoney(k12, w, a, p, stream), OwnMoney(k12, Run(k12, w, a), b, p, stream);
      OwnMoney(k12, w, a + b, p, stream) == Purse(x.attached + y.attached, x.returned + y.returned)
    decreases |a|
  {
    if a == [] {
      assert a + b == b;
    } else {
      assert (a + b)[1..] == a[1..] + b;
      StepKeepsWorld(k12, w, a[0]);
      MoneyJoin(k12, Step(k12, w, a[0]), a[1..], b, p, stream);
    }
  }

  lemma {:induction false} OthersMoveNothing(k12: Hash, w: World, events: seq<Event>, p: Provider, stream: nat)
    requires WorldOk(w) && WithinTick(events) && (NoneOwn(p, events) || w.tick % 3 != stream)
    ensures OwnMoney(k12, w, events, p, stream) == Purse(0, 0) && Run(k12, w, events).tick == w.tick
    decreases |events|
  {
    if events != [] {
      assert events[0] in events && forall e :: e in events[1..] ==> e in events;
      StepKeepsWorld(k12, w, events[0]);
      OthersMoveNothing(k12, Step(k12, w, events[0]), events[1..], p, stream);
    }
  }

  /** Repeated calls are refunded in full. */
  lemma {:induction false} RepeatsAreRefunded(k12: Hash, w: World, events: seq<Event>, p: Provider, call: Call, commit: Id)
    requires WorldOk(w) && WithinTick(events) && OnlyAgain(p, call, events)
    requires Taken(w.c.streams[w.tick % 3], p, commit, w.tick)
    ensures var m := OwnMoney(k12, w, events, p, w.tick % 3); m.attached == m.returned
    decreases |events|
  {
    if events != [] {
      assert events[0] in events && forall e :: e in events[1..] ==> e in events;
      StepKeepsWorld(k12, w, events[0]);
      RestKeepsTaken(k12, w, [events[0]], p, call, commit);
      RunOne(k12, w, events[0]);
      if Own(p, events[0]) {
        TakenIsFlagged(w.c.streams[w.tick % 3], p, commit, w.tick);
        assert StreamOk(w.c.streams[w.tick % 3], w.tick % 3, w.tick);
        FlaggedKeyRejects(k12, w.c.streams[w.tick % 3], events[0].call, p.tier);
        PayBackPays(p.id, events[0].call.amount, Some(p.id));
      }
      RepeatsAreRefunded(k12, Step(k12, w, events[0]), events[1..], p, call, commit);
    }
  }

  lemma TickEndMovesNothing(k12: Hash, w: World, p: Provider, stream: nat)
    requires WorldOk(w)
    ensures OwnMoney(k12, w, [TickEnded], p, stream) == Purse(0, 0)
  {
    StepKeepsWorld(k12, w, TickEnded);
    assert [TickEnded][1..] == [];
  }

  lemma OtherTicksMoveNothing(k12: Hash, w: World, v: Around, p: Provider, stream: nat)
    requires WorldOk(w) && WithinTick(v.next) && WithinTick(v.overnext) && w.tick % 3 == (stream + 1) % 3 && stream < 3
    ensures OwnMoney(k12, w, OtherTicks(v), p, stream) == Purse(0, 0)
  {
    OtherTickMovesNothing(k12, w, v.next, p, stream);
    OtherTickKeeps(k12, w, v.next, stream);
    OtherTickMovesNothing(k12, Run(k12, w, v.next + [TickEnded]), v.overnext, p, stream);
    MoneyJoin(k12, w, v.next + [TickEnded], v.overnext + [TickEnded], p, stream);
  }

  lemma OtherTickMovesNothing(k12: Hash, w: World, events: seq<Event>, p: Provider, stream: nat)
    requires WorldOk(w) && WithinTick(events) && w.tick % 3 != stream
    ensures OwnMoney(k12, w, events + [TickEnded], p, stream) == Purse(0, 0)
  {
    OthersMoveNothing(k12, w, events, p, stream);
    MoneyJoin(k12, w, events, [TickEnded], p, stream);
    TickEndMovesNothing(k12, Run(k12, w, events), p, stream);
  }

  /** A round locks one stake with a first commit, keeps it with a re-commit and frees it with
      a terminal reveal; everything else attached comes back in the round. */
  lemma RoundMoney(k12: Hash, w: World, p: Provider, tx: SlotRules.SignedTx, v: Around)
    requires WorldOk(w) && p.tier < TIER_COUNT && AroundOk(p, CallOf(p, tx), v)
    requires Fits(k12, w.c.streams[w.tick % 3], p, tx)
    requires tx.preimage == ZERO_BITS ==> |AtCall(k12, w, v).c.streams[w.tick % 3]| < STREAM_CAPACITY
    ensures var m := OwnMoney(k12, w, Round(CallOf(p, tx), v), p, w.tick % 3);
      m.attached + (if tx.preimage == ZERO_BITS then 0 else Pow10(p.tier)) ==
        m.returned + (if tx.commit == ZERO_ID then 0 else Pow10(p.tier))
  {
    hide LeftBehind, Fits, TickOfCall, OtherTicks, Run, WorldOk, AtCall, OwnMoney;
    var call := CallOf(p, tx);
    var stream := w.tick % 3;
    NextStream(w.tick);
    TickDelivers(k12, w, p, tx, v);
    TickMoney(k12, w, p, tx, v);
    MoneyJoin(k12, w, TickOfCall(call, v), OtherTicks(v), p, stream);
    OtherTicksMoveNothing(k12, Run(k12, w, TickOfCall(call, v)), v, p, stream);
  }

  lemma TickMoney(k12: Hash, w: World, p: Provider, tx: SlotRules.SignedTx, v: Around)
    requires WorldOk(w) && p.tier < TIER_COUNT && AroundOk(p, CallOf(p, tx), v)
    requires Fits(k12, w.c.streams[w.tick % 3], p, tx)
    requires tx.preimage == ZERO_BITS ==> |AtCall(k12, w, v).c.streams[w.tick % 3]| < STREAM_CAPACITY
    ensures var m := OwnMoney(k12, w, TickOfCall(CallOf(p, tx), v), p, w.tick % 3);
      m.attached + (if tx.preimage == ZERO_BITS then 0 else Pow10(p.tier)) ==
        m.returned + (if tx.commit == ZERO_ID then 0 else Pow10(p.tier))
  {
    var call := CallOf(p, tx);
    var stream := w.tick % 3;
    var m := AtCall(k12, w, v);
    OthersKeep(k12, w, v.before, p);
    OthersMoveNothing(k12, w, v.before, p, stream);
    CallMoney(k12, m, p, tx, w);
    RunOne(k12, m, CallMade(call));
    var n := Step(k12, m, CallMade(call));
    RepeatsAreRefunded(k12, n, v.after, p, call, tx.commit);
    MoneyJoin(k12, w, v.before, [CallMade(call)], p, stream);
    RunJoin(k12, w, v.before, [CallMade(call)]);
    MoneyJoin(k12, w, v.before + [CallMade(call)], v.after, p, stream);
    MoneyJoin(k12, w, v.before + [CallMade(call)] + v.after, [TickEnded], p, stream);
    TickEndMovesNothing(k12, AtTickEnd(k12, w, call, v), p, stream);
  }

  /** The call by itself. */
  lemma CallMoney(k12: Hash, m: World, p: Provider, tx: SlotRules.SignedTx, w: World)
    requires WorldOk(m) && p.tier < TIER_COUNT && m.tick == w.tick && w.c.Ok()
    requires SameFor(p, w.c.streams[w.tick % 3], m.c.streams[m.tick % 3]) && Fits(k12, w.c.streams[w.tick % 3], p, tx)
    requires tx.preimage == ZERO_BITS ==> |m.c.streams[m.tick % 3]| < STREAM_CAPACITY
    ensures WorldOk(Step(k12, m, CallMade(CallOf(p, tx))))
    ensures Taken(Step(k12, m, CallMade(CallOf(p, tx))).c.streams[m.tick % 3], p, tx.commit, m.tick)
    ensures OwnMoney(k12, m, [CallMade(CallOf(p, tx))], p, m.tick % 3) ==
      Purse(Pow10(p.tier),
            (if tx.preimage == ZERO_BITS then 0 else Pow10(p.tier)) + (if tx.commit == ZERO_ID then Pow10(p.tier) else 0))
  {
    var call := CallOf(p, tx);
    var s := m.c.streams[m.tick % 3];
    FitsStays(k12, w.c.streams[w.tick % 3], s, p, tx);
    assert StreamOk(s, m.tick % 3, m.tick);
    CallIsAccepted(k12, s, m.tick, p, tx);
    TierOfPow10(p.tier);
    StepKeepsWorld(k12, m, CallMade(call));
    assert [CallMade(call)][1..] == [];
  }
}
