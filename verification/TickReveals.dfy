/** What a tick leaves of the calls it accepted: over every run each reveal that END_TICK mixes is
    the one that was sent, so the entropy of a tier is decided by the accepted calls alone. */
module TickReveals {
  import opened Basics
  import opened RandomRules
  import opened RandomRounds
  import opened RandomWorld

  /** The contract, the stream of the current tick as the tick began, and the calls accepted in it. */
  datatype History = History(w: World, start: seq<Slot>, calls: seq<Call>)

  function Current(w: World): seq<Slot>
    requires w.c.Ok()
  {
    w.c.streams[w.tick % 3]
  }

  function Opens(w: World): History
    requires w.c.Ok()
  {
    History(w, Current(w), [])
  }

  function Next(k12: Hash, h: History, e: Event): History
    requires h.w.c.Ok()
  {
    var n := Step(k12, h.w, e);
    match e
    case CallMade(call) => History(n, h.start, if Judge(k12, Current(h.w), call).Rejected? then h.calls else h.calls + [call])
    case PurchaseMade(_) => History(n, h.start, h.calls)
    case TickEnded => Opens(n)
  }

  function After(k12: Hash, h: History, events: seq<Event>): (n: History)
    requires WorldOk(h.w)
    ensures WorldOk(n.w)
    decreases |events|
  {
    if events == [] then h
    else
      StepKeepsWorld(k12, h.w, events[0]);
      After(k12, Next(k12, h, events[0]), events[1..])
  }

  // ---------------------------------------------------------------- calls and slots

  /** The call is of this provider and tier. */
  predicate OfKey(call: Call, p: Id, t: nat) { call.invocator == p && TierOf(call.amount) == Some(t) }

  ghost predicate Called(calls: seq<Call>, p: Id, t: nat) { exists c :: c in calls && OfKey(c, p, t) }

  /** The slot holds what the call sent: the preimage it revealed and the commit it made. */
  predicate Holds(x: Slot, call: Call) {
    OfKey(call, x.provider, x.tier) && x.preimage == call.preimage && x.commit == call.commit
  }

  ghost predicate Told(s: seq<Slot>, calls: seq<Call>) {
    && (forall x :: x in s ==> (x.flagged <==> Called(calls, x.provider, x.tier)))
    && (forall x :: x in s && x.flagged ==> exists c :: c in calls && Holds(x, c))
    && (forall c :: c in calls ==> exists x :: x in s && Holds(x, c))
  }

  ghost predicate OncePerKey(calls: seq<Call>) {
    forall i, j :: 0 <= i < j < |calls| ==>
      !(calls[i].invocator == calls[j].invocator && TierOf(calls[i].amount) == TierOf(calls[j].amount))
  }

  /** Who has not called is still there as the tick began. */
  ghost predicate Unmoved(s: seq<Slot>, start: seq<Slot>, calls: seq<Call>) {
    && (forall x :: x in s && !x.flagged ==> x in start)
    && (forall x :: x in start && !Called(calls, x.provider, x.tier) ==> x in s)
  }

  /** Bit k is set in so many of the preimages that the calls revealed for tier t. */
  function CallBits(calls: seq<Call>, t: nat, k: nat): nat
    requires k < 4096
  {
    if calls == [] then 0
    else
      var c := calls[|calls| - 1];
      CallBits(calls[..|calls| - 1], t, k) + if TierOf(c.amount) == Some(t) && c.preimage[k] then 1 else 0
  }

  ghost predicate SameBits(s: seq<Slot>, calls: seq<Call>) {
    forall t: nat, k: nat :: k < 4096 ==> Total(s, RevealsBit(t, k)) == CallBits(calls, t, k)
  }

  ghost predicate TickOk(s: seq<Slot>, start: seq<Slot>, calls: seq<Call>) {
    Told(s, calls) && OncePerKey(calls) && Unmoved(s, start, calls) && SameBits(s, calls)
  }

  ghost predicate Unflagged(s: seq<Slot>) { forall x :: x in s ==> !x.flagged }

  ghost predicate HistoryOk(h: History) {
    && WorldOk(h.w) && TickOk(Current(h.w), h.start, h.calls)
    && forall s: nat :: s < 3 && s != h.w.tick % 3 ==> Unflagged(h.w.c.streams[s])
  }

  // ---------------------------------------------------------------- an accepted call

  lemma CallBitsGrow(calls: seq<Call>, c: Call, t: nat, k: nat)
    requires k < 4096
    ensures CallBits(calls + [c], t, k) == CallBits(calls, t, k) + if TierOf(c.amount) == Some(t) && c.preimage[k] then 1 else 0
  {
    assert (calls + [c])[..|calls|] == calls;
  }

  /** Where an accepted call is written, and what stands there afterwards. */
  lemma WrittenAt(k12: Hash, s: seq<Slot>, stream: nat, tick: nat, call: Call) returns (i: nat, x: Slot)
    requires StreamOk(s, stream, tick) && !Judge(k12, s, call).Rejected?
    ensures i <= |s| && Settle(k12, s, tick, call) == if i < |s| then s[i := x] else s + [x]
    ensures Holds(x, call) && x.flagged && (x.revealed <==> x.preimage != ZERO_BITS)
    ensures i < |s| ==> s[i].HasKey(x.provider, x.tier) && !s[i].flagged && !s[i].revealed
    ensures i == |s| ==> forall y :: y in s ==> !y.HasKey(x.provider, x.tier)
  {
    var n := Settle(k12, s, tick, call);
    var v := Judge(k12, s, call);
    i := if v.Recommitted? || v.Left? then v.at else |s|;
    x := n[i];
    if i < |s| { assert SlotRoundOk(s[i], stream, tick); }
    if i == |s| {
      forall y | y in s ensures !y.HasKey(x.provider, x.tier) {
        var j :| 0 <= j < |s| && s[j] == y;
      }
    }
  }

  lemma WriteKeepsBits(s: seq<Slot>, n: seq<Slot>, i: nat, x: Slot, calls: seq<Call>, call: Call)
    requires SameBits(s, calls) && i <= |s| && n == if i < |s| then s[i := x] else s + [x]
    requires Holds(x, call) && (x.revealed <==> x.preimage != ZERO_BITS) && (i < |s| ==> !s[i].revealed)
    ensures SameBits(n, calls + [call])
  {
    forall t: nat, k: nat | k < 4096 ensures Total(n, RevealsBit(t, k)) == CallBits(calls + [call], t, k) {
      CallBitsGrow(calls, call, t, k);
      assert !ZERO_BITS[k];
      if i < |s| { TotalAt(s, i, x, RevealsBit(t, k)); } else { TotalAppend(s, [x], RevealsBit(t, k)); }
    }
  }

  lemma WriteKeepsTold(s: seq<Slot>, n: seq<Slot>, start: seq<Slot>, i: nat, x: Slot, calls: seq<Call>, call: Call)
    requires Told(s, calls) && OncePerKey(calls) && Unmoved(s, start, calls) && UniqueKeys(s)
    requires i <= |s| && n == if i < |s| then s[i := x] else s + [x]
    requires Holds(x, call) && x.flagged
    requires i < |s| ==> s[i].HasKey(x.provider, x.tier) && !s[i].flagged
    requires i == |s| ==> forall y :: y in s ==> !y.HasKey(x.provider, x.tier)
    ensures Told(n, calls + [call]) && OncePerKey(calls + [call]) && Unmoved(n, start, calls + [call])
  {
    var more := calls + [call];
    assert forall c :: c in more <==> c in calls || c == call;
    forall y ensures y in n <==> y == x || (y in s && !y.HasKey(x.provider, x.tier)) { WrittenElsewhere(s, n, i, x, y); }
    assert forall p: Id, t: nat :: Called(more, p, t) <==> Called(calls, p, t) || OfKey(call, p, t);
    NotCalledYet(s, i, x, calls);
    forall j | 0 <= j < |calls| ensures !OfKey(calls[j], x.provider, x.tier) { assert calls[j] in calls; }
    forall c | c in more ensures exists y :: y in n && Holds(y, c) {
      if c in calls {
        var y :| y in s && Holds(y, c);
        assert y in n;
      }
    }
    forall y | y in n && y.flagged ensures exists c :: c in more && Holds(y, c) {
      if y in s {
        var c :| c in calls && Holds(y, c);
        assert c in more;
      }
    }
    hide UniqueKeys;
  }

  lemma WrittenElsewhere(s: seq<Slot>, n: seq<Slot>, i: nat, x: Slot, y: Slot)
    requires UniqueKeys(s) && i <= |s| && n == if i < |s| then s[i := x] else s + [x]
    requires i < |s| ==> s[i].HasKey(x.provider, x.tier)
    requires i == |s| ==> forall z :: z in s ==> !z.HasKey(x.provider, x.tier)
    ensures y in n <==> y == x || (y in s && !y.HasKey(x.provider, x.tier))
  {
    assert n[i] == x;
    if y in s && !y.HasKey(x.provider, x.tier) {
      var j :| 0 <= j < |s| && s[j] == y;
      assert n[j] == y;
    }
    if y in n && y != x {
      var j :| 0 <= j < |n| && n[j] == y;
      if i < |s| && y.HasKey(x.provider, x.tier) { KeyAtOnePlace(s, i, j); }
    }
  }

  lemma NotCalledYet(s: seq<Slot>, i: nat, x: Slot, calls: seq<Call>)
    requires Told(s, calls) && i <= |s|
    requires i < |s| ==> s[i].HasKey(x.provider, x.tier) && !s[i].flagged
    requires i == |s| ==> forall y :: y in s ==> !y.HasKey(x.provider, x.tier)
    ensures !Called(calls, x.provider, x.tier)
  {
    if i < |s| {
      assert s[i] in s;
    } else {
      forall c | c in calls ensures !OfKey(c, x.provider, x.tier) {
        var y :| y in s && Holds(y, c);
      }
    }
  }

  // ---------------------------------------------------------------- every step, every run

  lemma NothingTold(s: seq<Slot>, stream: nat, tick: nat)
    requires StreamOk(s, stream, tick) && Unflagged(s)
    ensures TickOk(s, s, [])
  {
    forall t: nat, k: nat | k < 4096 ensures Total(s, RevealsBit(t, k)) == 0 { NothingRevealed(s, stream, tick, t, k); }
  }

  lemma {:induction false} NothingRevealed(s: seq<Slot>, stream: nat, tick: nat, t: nat, k: nat)
    requires (forall x :: x in s ==> SlotRoundOk(x, stream, tick)) && Unflagged(s) && k < 4096
    ensures Total(s, RevealsBit(t, k)) == 0
  {
    if s != [] {
      assert s[0] in s && forall x :: x in s[1..] ==> x in s;
      NothingRevealed(s[1..], stream, tick, t, k);
    }
  }

  lemma CallStep(k12: Hash, h: History, call: Call)
    requires HistoryOk(h)
    ensures HistoryOk(Next(k12, h, CallMade(call)))
  {
    var s := Current(h.w);
    StepKeepsWorld(k12, h.w, CallMade(call));
    assert StreamOk(s, h.w.tick % 3, h.w.tick);
    hide StreamOk, Settle;
    if !Judge(k12, s, call).Rejected? {
      var i, x := WrittenAt(k12, s, h.w.tick % 3, h.w.tick, call);
      var n := Settle(k12, s, h.w.tick, call);
      assert UniqueKeys(s) by { KeysAreUnique(s, h.w.tick % 3, h.w.tick); }
      WriteKeepsBits(s, n, i, x, h.calls, call);
      WriteKeepsTold(s, n, h.start, i, x, h.calls, call);
    } else {
      assert Settle(k12, s, h.w.tick, call) == s by { RejectedStands(k12, s, h.w.tick, call); }
    }
    hide TickOk;
  }

  lemma KeysAreUnique(s: seq<Slot>, stream: nat, tick: nat)
    requires StreamOk(s, stream, tick)
    ensures UniqueKeys(s)
  {
  }

  lemma RejectedStands(k12: Hash, s: seq<Slot>, tick: nat, call: Call)
    requires Judge(k12, s, call).Rejected?
    ensures Settle(k12, s, tick, call) == s
  {
  }

  /** A tick's end leaves its stream with all flags clear, and the other streams as they were. */
  lemma EndedTick(k12: Hash, w: World)
    requires WorldOk(w)
    ensures var n := Step(k12, w, TickEnded);
      && WorldOk(n) && n.tick == w.tick + 1 && Unflagged(n.c.streams[w.tick % 3])
      && forall s: nat :: s < 3 && s != w.tick % 3 ==> n.c.streams[s] == w.c.streams[s]
  {
    TickEndClearsTheStream(k12, w);
    StepKeepsWorld(k12, w, TickEnded);
    hide EndTick, StreamOk;
  }

  lemma CurrentIsOk(w: World)
    requires WorldOk(w)
    ensures StreamOk(Current(w), w.tick % 3, w.tick)
  {
  }

  ghost predicate AllUnflagged(w: World)
    requires w.c.Ok()
  {
    forall s: nat :: s < 3 ==> Unflagged(w.c.streams[s])
  }

  lemma OpensOk(w: World)
    requires WorldOk(w) && AllUnflagged(w)
    ensures HistoryOk(Opens(w))
  {
    CurrentIsOk(w);
    hide StreamOk, TickOk, Unflagged;
    NothingTold(Current(w), w.tick % 3, w.tick);
  }

  lemma TickStep(k12: Hash, h: History)
    requires HistoryOk(h)
    ensures HistoryOk(Next(k12, h, TickEnded))
  {
    HistoryIsOk(h);
    EndedTick(k12, h.w);
    var n := Step(k12, h.w, TickEnded);
    assert AllUnflagged(n) by {
      hide WorldOk, Step, Unflagged, TickOk;
    }
    hide HistoryOk, WorldOk, AllUnflagged, Step;
    OpensOk(n);
  }

  lemma StepKeepsHistory(k12: Hash, h: History, e: Event)
    requires HistoryOk(h)
    ensures HistoryOk(Next(k12, h, e))
  {
    match e
    case CallMade(call) => CallStep(k12, h, call);
    case TickEnded => TickStep(k12, h);
    case PurchaseMade(_) => StepKeepsWorld(k12, h.w, e);
  }

  lemma {:induction false} RunKeepsHistory(k12: Hash, h: History, events: seq<Event>)
    requires HistoryOk(h)
    ensures HistoryOk(After(k12, h, events))
    decreases |events|
  {
    hide HistoryOk, Next;
    if events != [] {
      assert WorldOk(h.w) by { HistoryIsOk(h); }
      StepKeepsHistory(k12, h, events[0]);
      StepKeepsWorld(k12, h.w, events[0]);
      RunKeepsHistory(k12, Next(k12, h, events[0]), events[1..]);
    }
  }

  lemma HistoryIsOk(h: History)
    requires HistoryOk(h)
    ensures WorldOk(h.w)
  {
  }

  // ---------------------------------------------------------------- what the tick was told

  /** The contract as deployed, at any tick. */
  function Deployed(fee: nat, tick: nat): World { World(Fresh(fee), tick) }

  lemma DeployedIsOk(fee: nat, tick: nat)
    ensures WorldOk(Deployed(fee, tick)) && HistoryOk(Opens(Deployed(fee, tick)))
  {
    var w := Deployed(fee, tick);
    assert forall s: nat :: s < 3 ==> w.c.streams[s] == [];
    NothingTold([], tick % 3, tick);
  }

  /** Over every run: a slot that revealed in this tick holds the preimage and the commit of the
      one accepted call of its key in the tick; every accepted call is held by a slot of its key;
      and who was enrolled and made none stands as the tick began. */
  lemma RevealsAreTheCalls(k12: Hash, fee: nat, tick: nat, events: seq<Event>, x: Slot)
    ensures WorldOk(Deployed(fee, tick))
    ensures var h := After(k12, Opens(Deployed(fee, tick)), events);
      && OncePerKey(h.calls)
      && (x in Current(h.w) && x.revealed ==> exists c :: c in h.calls && Holds(x, c) && c.preimage != ZERO_BITS)
      && (x in Current(h.w) ==> (x.flagged <==> Called(h.calls, x.provider, x.tier)))
      && (forall c :: c in h.calls ==> exists y :: y in Current(h.w) && Holds(y, c))
      && (x in h.start && !Called(h.calls, x.provider, x.tier) ==> x in Current(h.w))
  {
    DeployedIsOk(fee, tick);
    RunKeepsHistory(k12, Opens(Deployed(fee, tick)), events);
    var h := After(k12, Opens(Deployed(fee, tick)), events);
    if x in Current(h.w) { assert SlotRoundOk(x, h.w.tick % 3, h.w.tick) by { assert StreamOk(Current(h.w), h.w.tick % 3, h.w.tick); } }
    hide StreamOk, After;
  }

  lemma CallOfSlot(h: History, x: Slot) returns (c: Call)
    requires HistoryOk(h) && x in Current(h.w) && x.flagged
    ensures c in h.calls && Holds(x, c)
  {
    c :| c in h.calls && Holds(x, c);
  }

  lemma SlotOfCall(h: History, c: Call) returns (x: Slot)
    requires HistoryOk(h) && c in h.calls
    ensures x in Current(h.w) && Holds(x, c) && x.flagged
  {
    x :| x in Current(h.w) && Holds(x, c);
    assert Called(h.calls, x.provider, x.tier);
  }

  /** A provider of the tier that was enrolled when the tick began made no accepted call. */
  ghost predicate Missing(h: History, t: nat) {
    exists x :: x in h.start && x.tier == t && !Called(h.calls, x.provider, t)
  }

  lemma MissingIsNoShow(h: History, t: nat)
    requires HistoryOk(h)
    ensures Missing(h, t) <==> NoShow(Current(h.w), t)
  {
    var s := Current(h.w);
    if Missing(h, t) {
      var x :| x in h.start && x.tier == t && !Called(h.calls, x.provider, t);
      var i :| 0 <= i < |s| && s[i] == x;
      assert s[i].tier == t && !s[i].flagged;
    }
    if NoShow(s, t) {
      var i :| 0 <= i < |s| && s[i].tier == t && !s[i].flagged;
      assert s[i] in h.start && !Called(h.calls, s[i].provider, t);
    }
    hide WorldOk, SameBits;
  }

  /** Over every run, bit by bit: END_TICK publishes for tier t, at the tier's place of the stream
      of the tick, the parity of that bit over the preimages of the calls accepted for the tier in
      this tick, or nothing when an enrolled provider of the tier did not call. */
  lemma EntropyIsTheCalls(k12: Hash, fee: nat, tick: nat, events: seq<Event>, t: nat, k: nat)
    requires t < TIER_COUNT && k < 4096
    ensures WorldOk(Deployed(fee, tick))
    ensures var h := After(k12, Opens(Deployed(fee, tick)), events);
      var n := Step(k12, h.w, TickEnded).c;
      |n.entropy| == 32 && (n.entropy[h.w.tick % 3 * 10 + t][k] <==> !Missing(h, t) && CallBits(h.calls, t, k) % 2 == 1)
  {
    DeployedIsOk(fee, tick);
    RunKeepsHistory(k12, Opens(Deployed(fee, tick)), events);
    var h := After(k12, Opens(Deployed(fee, tick)), events);
    hide After, Missing, NoShow, EndTick, Told, OncePerKey, Unmoved, StreamOk;
    MissingIsNoShow(h, t);
    EndTickParity(Current(h.w), t, k);
    assert Total(Current(h.w), RevealsBit(t, k)) == CallBits(h.calls, t, k);
  }
}
