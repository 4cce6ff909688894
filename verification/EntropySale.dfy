/** BuyEntropy: when a sale happens, what it charges and what it hands over, in terms of the
    slots as they stood at the end of the tick whose entropy is sold. */
module EntropySale {
  import opened Basics
  import opened RandomRules
  import opened RandomRounds
  import opened RandomWorld
  import T = TickReveals

  /** The 32-bit offset +2 names the stream of tick - 1, except where tick + 2 wraps around. */
  lemma SaleStreamIsPreviousStream(tick: nat)
    requires 1 <= tick <= U32_MAX
    ensures SaleStream(tick) == (tick - 1) % 3 <==> tick + 2 <= U32_MAX
  {
  }

  /** The trustee revealed for this tier and stays enrolled. */
  ghost predicate RevealedAndStays(s: seq<Slot>, trustee: Id, tier: nat) {
    exists i :: 0 <= i < |s| && s[i].HasKey(trustee, tier) && s[i].revealed && s[i].commit != ZERO_ID
  }

  /** Whoever vouches after END_TICK revealed in that tick. */
  lemma VouchedRevealed(s: seq<Slot>, stream: nat, tick: nat, x: Slot, trustee: Id, tier: nat)
    requires StreamOk(s, stream, tick) && TiersOk(s) && AnyReveal(s)
    requires x in EndTick(s).slots && Vouches(x, trustee, tier)
    ensures RevealedAndStays(s, trustee, tier)
  {
    var c := ClearContributions(s);
    EndTickFilters(s);
    assert x in multiset(EndTick(s).slots);
    SurvivorsAre(c, 0, x);
    var k: nat :| k < |c| && Stays(c[k]) && x == Survivor(c, k);
    assert s[k].HasKey(trustee, tier) && s[k].revealed && s[k].commit != ZERO_ID;
    hide EndTick, StreamOk;
  }

  /** A provider that revealed for a tier without a no-show, and stays, vouches afterwards. */
  lemma RevealedVouches(s: seq<Slot>, stream: nat, tick: nat, trustee: Id, tier: nat, k: nat)
    requires StreamOk(s, stream, tick) && TiersOk(s) && AnyReveal(s) && !NoShow(s, tier)
    requires k < |s| && s[k].HasKey(trustee, tier) && s[k].revealed && s[k].commit != ZERO_ID
    ensures exists x :: x in EndTick(s).slots && Vouches(x, trustee, tier)
  {
    var c := ClearContributions(s);
    EndTickFilters(s);
    ClearedReferences(s);
    assert SlotRoundOk(s[k], stream, tick);
    SurvivorIn(c, 0, k);
    assert !NoShowFrom(c, k + 1, tier);
    assert Vouches(Survivor(c, k), trustee, tier);
    assert Survivor(c, k) in multiset(EndTick(s).slots);
    hide EndTick, StreamOk;
  }

  /** In a reveal tick without a no-show of the tier, the contribution marks of that tier are
      exactly the reveals of the providers that stay. For a tier with a no-show they may be
      stale, but then there is no entropy to sell. */
  lemma ContributionsAreReveals(s: seq<Slot>, stream: nat, tick: nat, trustee: Id, tier: nat)
    requires StreamOk(s, stream, tick) && TiersOk(s) && AnyReveal(s) && !NoShow(s, tier)
    ensures (exists i :: 0 <= i < |EndTick(s).slots| && Vouches(EndTick(s).slots[i], trustee, tier))
       <==> RevealedAndStays(s, trustee, tier)
  {
    hide EndTick, StreamOk, RevealedAndStays, Vouches, NoShow, AnyReveal;
    var n := EndTick(s).slots;
    if i :| 0 <= i < |n| && Vouches(n[i], trustee, tier) {
      VouchedRevealed(s, stream, tick, n[i], trustee, tier);
    }
    if RevealedAndStays(s, trustee, tier) {
      var k: nat := Revealer(s, trustee, tier);
      RevealedVouches(s, stream, tick, trustee, tier, k);
      var x :| x in n && Vouches(x, trustee, tier);
      var i :| 0 <= i < |n| && n[i] == x;
    }
  }

  ghost function Revealer(s: seq<Slot>, trustee: Id, tier: nat): (k: nat)
    requires RevealedAndStays(s, trustee, tier)
    ensures k < |s| && s[k].HasKey(trustee, tier) && s[k].revealed && s[k].commit != ZERO_ID
  {
    var k :| 0 <= k < |s| && s[k].HasKey(trustee, tier) && s[k].revealed && s[k].commit != ZERO_ID;
    k
  }

  /** What the sale conditions mean for a tick that follows directly on one in which the stream
      stood as s. */
  ghost predicate Deliverable(s: seq<Slot>, p: Purchase, fee: nat) {
    && p.tier <= 9 && 1 <= p.bits <= 4096 && p.bits * fee <= p.amount
    && !NoShow(s, p.tier) && (exists k: nat :: k < 4096 && OddReveals(s, p.tier, k))
    && (p.trustee == ZERO_ID || RevealedAndStays(s, p.trustee, p.tier))
  }

  /** The tick whose END_TICK a purchase in tick T reads: the previous one, but the one before it
      in the last two ticks, where the contract's 32-bit addition wraps. */
  function SoldTick(tick: nat): int { if tick + 2 <= U32_MAX then tick - 1 else tick - 2 }

  lemma SaleStreamIsSoldStream(tick: nat)
    requires 1 <= tick <= U32_MAX
    ensures SoldTick(tick) >= 0 && SaleStream(tick) == SoldTick(tick) % 3
  {
    SaleStreamIsPreviousStream(tick);
  }

  ghost predicate Stands(a: World, b: World, stream: nat)
    requires WorldOk(a) && WorldOk(b) && stream < 3
  {
    && b.c.streams[stream] == a.c.streams[stream] && b.c.bitFee == a.c.bitFee
    && b.c.entropy[stream * 10..stream * 10 + 10] == a.c.entropy[stream * 10..stream * 10 + 10]
  }

  lemma OtherTickStands(k12: Hash, w: World, e: Event, stream: nat)
    requires WorldOk(w) && stream < 3 && stream != w.tick % 3
    ensures WorldOk(Step(k12, w, e)) && Stands(w, Step(k12, w, e), stream)
  {
    StepKeepsWorld(k12, w, e);
    var n := Step(k12, w, e);
    assert forall t :: stream * 10 <= t < stream * 10 + 10 ==> n.c.entropy[t] == w.c.entropy[t];
    hide EndTick, Settle, StreamOk;
  }

  /** What END_TICK left in a stream stands until that stream's next tick begins. */
  lemma {:induction false} SoldStands(k12: Hash, w: World, events: seq<Event>, sold: nat)
    requires WorldOk(w) && sold < w.tick && Run(k12, w, events).tick < sold + 3
    ensures w.tick <= Run(k12, w, events).tick && Stands(w, Run(k12, w, events), sold % 3)
    decreases |events|
  {
    hide Stands, StreamOk, Step;
    if events == [] {
      assert Stands(w, w, sold % 3) by { StandsItself(w, sold % 3); }
    } else {
      StepTick(k12, w, events[0]);
      var n := Step(k12, w, events[0]);
      RunTick(k12, n, events[1..]);
      assert w.tick % 3 != sold % 3 by { NotYet(w.tick, sold); }
      OtherTickStands(k12, w, events[0], sold % 3);
      SoldStands(k12, n, events[1..], sold);
      StandsOn(w, n, Run(k12, w, events), sold % 3);
    }
  }

  lemma StandsItself(w: World, stream: nat)
    requires WorldOk(w) && stream < 3
    ensures Stands(w, w, stream)
  {
  }

  lemma StandsOn(a: World, b: World, c: World, stream: nat)
    requires WorldOk(a) && WorldOk(b) && WorldOk(c) && stream < 3 && Stands(a, b, stream) && Stands(b, c, stream)
    ensures Stands(a, c, stream)
  {
  }

  lemma NotYet(tick: nat, sold: nat)
    requires sold < tick < sold + 3
    ensures tick % 3 != sold % 3
  {
  }

  lemma StepTick(k12: Hash, w: World, e: Event)
    requires WorldOk(w)
    ensures WorldOk(Step(k12, w, e)) && w.tick <= Step(k12, w, e).tick
  {
    StepKeepsWorld(k12, w, e);
  }

  lemma {:induction false} RunTick(k12: Hash, w: World, events: seq<Event>)
    requires WorldOk(w)
    ensures w.tick <= Run(k12, w, events).tick
    decreases |events|
  {
    if events != [] {
      StepTick(k12, w, events[0]);
      RunTick(k12, Step(k12, w, events[0]), events[1..]);
    }
  }

  /** The purchase costs bits times fee, and an output bit is set if and only if it is among those
      asked for and one of these. */
  ghost predicate Sells(k12: Hash, w: World, p: Purchase, fee: nat, bits: iset<nat>)
    requires w.c.Ok()
  {
    var out := PurchaseOutput(w.c, w.tick, p);
    && Step(k12, w, PurchaseMade(p)).c == w.c.(earned := w.c.earned + p.bits * fee)
    && p.bits * fee <= p.amount && Effects(k12, w, PurchaseMade(p)) == PayBack(p.invocator, p.amount - p.bits * fee)
    && forall i: nat :: i < 4096 ==> (out[i] <==> i < p.bits && i in bits)
  }

  /** The purchase changes nothing and is refunded in full, without a bit of output. */
  ghost predicate Refuses(k12: Hash, w: World, p: Purchase)
    requires w.c.Ok()
  {
    var out := PurchaseOutput(w.c, w.tick, p);
    && Step(k12, w, PurchaseMade(p)).c == w.c && Effects(k12, w, PurchaseMade(p)) == [Transfer(p.invocator, p.amount)]
    && forall i: nat :: i < 4096 ==> !out[i]
  }

  /** The bits that an odd number of the tier's reveals have set. */
  ghost function OddBits(s: seq<Slot>, t: nat): iset<nat> { iset k: nat | k < 4096 && OddReveals(s, t, k) }

  /** A purchase in any 32-bit tick T, after any run from the end of tick `SoldTick(T)` on, succeeds
      exactly when that tick left the asked tier without a no-show and with some bit set in an odd
      number of its reveals, and the trustee (if one is named) is among those who revealed and
      stayed. It then costs bits times fee, and each of the bits asked for is that parity, the
      others are not set; otherwise everything is refunded. */
  lemma SaleOfTheSoldTick(k12: Hash, v: World, events: seq<Event>, p: Purchase)
    requires WorldOk(v)
    ensures WorldOk(Step(k12, v, TickEnded))
    ensures
      var s := v.c.streams[v.tick % 3];
      var w := Run(k12, Step(k12, v, TickEnded), events);
      w.tick <= U32_MAX && SoldTick(w.tick) == v.tick ==>
        if Deliverable(s, p, v.c.bitFee) then Sells(k12, w, p, v.c.bitFee, OddBits(s, p.tier)) else Refuses(k12, w, p)
  {
    StepKeepsWorld(k12, v, TickEnded);
    var u := Step(k12, v, TickEnded);
    var w := Run(k12, u, events);
    if w.tick <= U32_MAX && SoldTick(w.tick) == v.tick {
      SaleStreamIsSoldStream(w.tick);
      SoldStands(k12, u, events, v.tick);
      SaleReadsTheStream(k12, v, w, p);
    }
    hide WorldOk, Stands, Deliverable, Sells, Refuses, FinishTick, Run, SaleStream;
  }

  /** The sold value, bit by bit, and when it is zero. */
  lemma SoldIsOdd(s: seq<Slot>, t: nat)
    requires TiersOk(s) && t < TIER_COUNT
    ensures forall k: nat :: k < 4096 ==> (EndTick(s).entropy[t][k] <==> !NoShow(s, t) && OddReveals(s, t, k))
    ensures EndTick(s).entropy[t] != ZERO_BITS <==> !NoShow(s, t) && exists k: nat :: k < 4096 && OddReveals(s, t, k)
    ensures (exists k: nat :: k < 4096 && OddReveals(s, t, k)) ==> AnyReveal(s)
  {
    hide EndTick, NoShow;
    forall k: nat | k < 4096
      ensures EndTick(s).entropy[t][k] <==> !NoShow(s, t) && OddReveals(s, t, k)
      ensures OddReveals(s, t, k) ==> AnyReveal(s)
    {
      EndTickParity(s, t, k);
      if !AnyReveal(s) { NoRevealNoBits(s, t, k); }
    }
    BitsDiffer(EndTick(s).entropy[t]);
  }

  lemma BitsDiffer(b: Bits)
    ensures b != ZERO_BITS <==> exists k: nat :: k < 4096 && b[k]
  {
    if forall k: nat :: k < 4096 ==> !b[k] { assert b == ZERO_BITS; }
  }

  lemma SaleReadsTheStream(k12: Hash, v: World, w: World, p: Purchase)
    requires WorldOk(v) && WorldOk(w) && WorldOk(Step(k12, v, TickEnded)) && SaleStream(w.tick) == v.tick % 3
    requires Stands(Step(k12, v, TickEnded), w, v.tick % 3)
    ensures
      var s := v.c.streams[v.tick % 3];
      if Deliverable(s, p, v.c.bitFee) then Sells(k12, w, p, v.c.bitFee, OddBits(s, p.tier)) else Refuses(k12, w, p)
  {
    var at := v.tick % 3;
    var s := v.c.streams[at];
    if p.tier <= 9 {
      EndTickEntropy(s, p.tier);
      var sold := EndTick(s).entropy[p.tier];
      assert w.c.entropy[at * 10 + p.tier] == w.c.entropy[at * 10..at * 10 + 10][p.tier] == sold;
      SoldIsOdd(s, p.tier);
      if AnyReveal(s) && !NoShow(s, p.tier) {
        ContributionsAreReveals(s, at, v.tick, p.trustee, p.tier);
      }
    }
    hide StreamOk, EndTick, SaleStream;
  }

  // ---------------------------------------------------------------- in terms of the calls

  /** What the sale conditions mean for a tick that accepted these calls. */
  ghost predicate CallsDeliver(h: T.History, p: Purchase, fee: nat) {
    && p.tier <= 9 && 1 <= p.bits <= 4096 && p.bits * fee <= p.amount
    && !T.Missing(h, p.tier) && (exists k: nat :: k < 4096 && T.CallBits(h.calls, p.tier, k) % 2 == 1)
    && (p.trustee == ZERO_ID ||
        exists c :: c in h.calls && T.OfKey(c, p.trustee, p.tier) && c.preimage != ZERO_BITS && c.commit != ZERO_ID)
  }

  lemma DeliversTheCalls(h: T.History, p: Purchase, fee: nat)
    requires T.HistoryOk(h)
    ensures Deliverable(T.Current(h.w), p, fee) <==> CallsDeliver(h, p, fee)
  {
    var s := T.Current(h.w);
    assert StreamOk(s, h.w.tick % 3, h.w.tick);
    T.MissingIsNoShow(h, p.tier);
    TrusteeCalled(h, p.trustee, p.tier);
    forall k: nat | k < 4096 ensures OddReveals(s, p.tier, k) <==> T.CallBits(h.calls, p.tier, k) % 2 == 1 {
    }
    hide T.Missing, NoShow, StreamOk, RevealedAndStays;
  }

  lemma TrusteeCalled(h: T.History, trustee: Id, tier: nat)
    requires T.HistoryOk(h)
    ensures RevealedAndStays(T.Current(h.w), trustee, tier) <==>
      exists c :: c in h.calls && T.OfKey(c, trustee, tier) && c.preimage != ZERO_BITS && c.commit != ZERO_ID
  {
    hide T.TickOk, UniqueKeys;
    var s := T.Current(h.w);
    assert StreamOk(s, h.w.tick % 3, h.w.tick);
    if RevealedAndStays(s, trustee, tier) {
      var i :| 0 <= i < |s| && s[i].HasKey(trustee, tier) && s[i].revealed && s[i].commit != ZERO_ID;
      assert s[i] in s && SlotRoundOk(s[i], h.w.tick % 3, h.w.tick);
      var c := T.CallOfSlot(h, s[i]);
    }
    if c :| c in h.calls && T.OfKey(c, trustee, tier) && c.preimage != ZERO_BITS && c.commit != ZERO_ID {
      var x := T.SlotOfCall(h, c);
      var i :| 0 <= i < |s| && s[i] == x;
      assert SlotRoundOk(x, h.w.tick % 3, h.w.tick);
      assert s[i].HasKey(trustee, tier) && s[i].revealed && s[i].commit != ZERO_ID;
    }
  }

  /** The bits that an odd number of the preimages accepted for the tier have set. */
  ghost function OddCallBits(h: T.History, t: nat): iset<nat> { iset k: nat | k < 4096 && T.CallBits(h.calls, t, k) % 2 == 1 }

  lemma OddIsOdd(h: T.History, t: nat)
    requires T.HistoryOk(h)
    ensures OddBits(T.Current(h.w), t) == OddCallBits(h, t)
  {
    hide T.Told, T.OncePerKey, T.Unmoved, WorldOk;
  }

  lemma SaleOfTheHistory(k12: Hash, h: T.History, events: seq<Event>, p: Purchase)
    requires T.HistoryOk(h)
    ensures WorldOk(h.w) && WorldOk(Step(k12, h.w, TickEnded))
    ensures
      var w := Run(k12, Step(k12, h.w, TickEnded), events);
      w.tick <= U32_MAX && SoldTick(w.tick) == h.w.tick ==>
        if CallsDeliver(h, p, h.w.c.bitFee) then Sells(k12, w, p, h.w.c.bitFee, OddCallBits(h, p.tier)) else Refuses(k12, w, p)
  {
    T.HistoryIsOk(h);
    DeliversTheCalls(h, p, h.w.c.bitFee);
    OddIsOdd(h, p.tier);
    hide T.HistoryOk, WorldOk, Deliverable, CallsDeliver, Run, Step, Sells, Refuses, OddBits, OddCallBits;
    SaleOfTheSoldTick(k12, h.w, events, p);
  }

  /** Over every run of the deployed contract: a purchase buys the parity of the preimages that the
      accepted calls of the sold tick revealed for the tier, bit by bit up to the number of bits
      asked for. It succeeds exactly when every provider enrolled in the tier called, some bit is
      odd and the trustee's call was a reveal that stays. */
  lemma SaleOfTheCalls(k12: Hash, fee: nat, tick: nat, past: seq<Event>, events: seq<Event>, p: Purchase)
    ensures WorldOk(T.Deployed(fee, tick))
    ensures
      var h := T.After(k12, T.Opens(T.Deployed(fee, tick)), past);
      && WorldOk(Step(k12, h.w, TickEnded))
      && var w := Run(k12, Step(k12, h.w, TickEnded), events);
      w.tick <= U32_MAX && SoldTick(w.tick) == h.w.tick ==>
        if CallsDeliver(h, p, h.w.c.bitFee) then Sells(k12, w, p, h.w.c.bitFee, OddCallBits(h, p.tier)) else Refuses(k12, w, p)
  {
    T.DeployedIsOk(fee, tick);
    T.RunKeepsHistory(k12, T.Opens(T.Deployed(fee, tick)), past);
    hide T.After, T.HistoryOk, CallsDeliver, Run, Step, Sells, Refuses, OddCallBits;
    SaleOfTheHistory(k12, T.After(k12, T.Opens(T.Deployed(fee, tick)), past), events, p);
  }
}
