/** Runs of the contract: any calls and purchases in any order, ticks ended one after another.
    The round invariant and the conservation of money hold in every reachable state. */
module RandomWorld {
  import opened Basics
  import opened RandomRules
  import opened RandomRounds

  datatype World = World(c: Contract, tick: nat)

  datatype Event =
    | CallMade(call: Call)
    | PurchaseMade(purchase: Purchase)
    | TickEnded

  function Step(k12: Hash, w: World, e: Event): (n: World)
    requires w.c.Ok()
  {
    match e
    case CallMade(call) => World(RevealAndCommit(k12, w.c, w.tick, call), w.tick)
    case PurchaseMade(p) => World(BuyEntropy(w.c, w.tick, p), w.tick)
    case TickEnded => World(FinishTick(w.c, w.tick), w.tick + 1)
  }

  function Effects(k12: Hash, w: World, e: Event): seq<Effect>
    requires w.c.Ok()
  {
    match e
    case CallMade(call) => CallEffects(k12, w.c.streams[w.tick % 3], call)
    case PurchaseMade(p) => PurchaseEffects(w.c, w.tick, p)
    case TickEnded => TickEffects(w.c, w.tick)
  }

  // ---------------------------------------------------------------- the round invariant

  /** One slot of a stream, seen during tick `tick`. */
  ghost predicate SlotRoundOk(x: Slot, stream: nat, tick: nat) {
    && x.tier < TIER_COUNT
    && (x.commit != ZERO_ID ==> x.locked == Pow10(x.tier))
    && (x.commit == ZERO_ID ==> x.locked == 0 && x.flagged && x.revealed)
    && (x.revealed ==> x.flagged)
    && (x.revealed <==> x.preimage != ZERO_BITS)
    && x.lastUpdate % 3 == stream && x.lastUpdate <= tick
    && (x.flagged ==> x.lastUpdate == tick)
  }

  ghost predicate UniqueKeys(s: seq<Slot>) {
    forall p: Id, t: nat :: Keys(s, p, t) <= 1
  }

  ghost predicate StreamOk(s: seq<Slot>, stream: nat, tick: nat) {
    && |s| <= STREAM_CAPACITY
    && (forall x :: x in s ==> SlotRoundOk(x, stream, tick))
    && UniqueKeys(s)
  }

  ghost predicate WorldOk(w: World) {
    && w.c.Ok()
    && forall s: nat :: s < 3 ==> StreamOk(w.c.streams[s], s, w.tick)
  }

  // ---------------------------------------------------------------- keys

  lemma TotalAt(s: seq<Slot>, i: nat, x: Slot, f: Slot -> nat)
    requires i < |s|
    ensures Total(s[i := x], f) + f(s[i]) == Total(s, f) + f(x)
  {
    assert s == s[..i] + [s[i]] + s[i + 1..];
    assert s[i := x] == s[..i] + [x] + s[i + 1..];
    TotalAppend(s[..i] + [s[i]], s[i + 1..], f);
    TotalAppend(s[..i], [s[i]], f);
    TotalAppend(s[..i] + [x], s[i + 1..], f);
    TotalAppend(s[..i], [x], f);
  }

  lemma NoKey(s: seq<Slot>, p: Id, t: nat)
    requires Find(s, p, t) == |s|
    ensures Keys(s, p, t) == 0
  {
    if s != [] {
      NoKey(s[1..], p, t);
    }
  }

  lemma HasKeyCounts(s: seq<Slot>, i: nat, p: Id, t: nat)
    requires i < |s| && s[i].HasKey(p, t)
    ensures Keys(s, p, t) >= 1
  {
    if i > 0 {
      HasKeyCounts(s[1..], i - 1, p, t);
    }
  }

  lemma TwoKeysCount(s: seq<Slot>, i: nat, j: nat, p: Id, t: nat)
    requires i < j < |s| && s[i].HasKey(p, t) && s[j].HasKey(p, t)
    ensures Keys(s, p, t) >= 2
  {
    if i == 0 {
      HasKeyCounts(s[1..], j - 1, p, t);
    } else {
      TwoKeysCount(s[1..], i - 1, j - 1, p, t);
    }
  }

  /** Within a stream a (provider, tier) pair stands at one position only. */
  lemma KeyAtOnePlace(s: seq<Slot>, i: nat, j: nat)
    requires UniqueKeys(s) && i < |s| && j < |s| && s[j].HasKey(s[i].provider, s[i].tier)
    ensures i == j
  {
    var p, t := s[i].provider, s[i].tier;
    assert Keys(s, p, t) <= 1;
    if i < j { TwoKeysCount(s, i, j, p, t); }
    if j < i { TwoKeysCount(s, j, i, p, t); }
  }

  // ---------------------------------------------------------------- RevealAndCommit

  lemma TierAmounts(amount: nat)
    ensures TierOf(amount).Some? ==> TierOf(amount).value < TIER_COUNT && amount == Pow10(TierOf(amount).value)
  {
    assert Pow10(3) == 1000;
    assert Pow10(6) == 1000000;
    assert Pow10(9) == 1000000000;
  }

  lemma TierOfPow10(t: nat)
    requires t < TIER_COUNT
    ensures TierOf(Pow10(t)) == Some(t)
  {
    assert Pow10(3) == 1000;
    assert Pow10(6) == 1000000;
    assert Pow10(9) == 1000000000;
  }

  lemma ReplaceKeepsKeys(s: seq<Slot>, i: nat, x: Slot)
    requires UniqueKeys(s) && i < |s| && x.HasKey(s[i].provider, s[i].tier)
    ensures UniqueKeys(s[i := x])
  {
    var n := s[i := x];
    forall p: Id, t: nat ensures Keys(n, p, t) <= 1 {
      TotalAt(s, i, x, OneIfKey(p, t));
      assert Keys(s, p, t) <= 1;
    }
  }

  lemma EnrollKeepsKeys(s: seq<Slot>, x: Slot)
    requires UniqueKeys(s) && Find(s, x.provider, x.tier) == |s|
    ensures UniqueKeys(s + [x])
  {
    NoKey(s, x.provider, x.tier);
    forall p: Id, t: nat ensures Keys(s + [x], p, t) <= 1 {
      TotalAppend(s, [x], OneIfKey(p, t));
      assert Keys(s, p, t) <= 1;
    }
  }

  lemma SettleKeepsStream(k12: Hash, s: seq<Slot>, tick: nat, call: Call)
    requires StreamOk(s, tick % 3, tick)
    ensures StreamOk(Settle(k12, s, tick, call), tick % 3, tick)
  {
    TierAmounts(call.amount);
    var n := Settle(k12, s, tick, call);
    match Judge(k12, s, call)
    case Rejected =>
    case Enrolled =>
      EnrollKeepsKeys(s, n[|s|]);
    case Recommitted(i) =>
      ReplaceKeepsKeys(s, i, n[i]);
    case Left(i) =>
      ReplaceKeepsKeys(s, i, n[i]);
  }

  // ---------------------------------------------------------------- END_TICK

  lemma SurvivorsAre(s: seq<Slot>, i: nat, x: Slot)
    requires i <= |s| && x in Survivors(s, i)
    ensures exists k: nat :: i <= k < |s| && Stays(s[k]) && x == Survivor(s, k)
    decreases |s| - i
  {
    if x !in Survivors(s, i + 1) {
      assert x == Survivor(s, i);
    } else {
      SurvivorsAre(s, i + 1, x);
    }
  }

  lemma {:induction false} SurvivorIn(s: seq<Slot>, i: nat, k: nat)
    requires i <= k < |s| && Stays(s[k])
    ensures Survivor(s, k) in Survivors(s, i)
    decreases k - i
  {
    if i < k { SurvivorIn(s, i + 1, k); }
  }

  lemma KeptAre(s: seq<Slot>, x: Slot)
    requires x in Kept(s)
    ensures exists k: nat :: k < |s| && s[k].flagged && x == s[k].(flagged := false)
  {
    if x in Kept(s[1..]) {
      KeptAre(s[1..], x);
      var k: nat :| k < |s[1..]| && s[1..][k].flagged && x == s[1..][k].(flagged := false);
      assert s[k + 1] == s[1..][k];
    } else {
      assert x == s[0].(flagged := false);
    }
  }

  /** Everything END_TICK at T leaves in the stream was updated at T and is cleared for the next round. */
  ghost predicate Cleared(x: Slot, tick: nat) {
    && !x.flagged && !x.revealed && x.preimage == ZERO_BITS
    && x.commit != ZERO_ID && x.locked == Pow10(x.tier) && x.tier < TIER_COUNT
    && x.lastUpdate == tick
  }

  lemma EndTickLeavesFresh(s: seq<Slot>, tick: nat, x: Slot)
    requires StreamOk(s, tick % 3, tick) && TiersOk(s) && x in EndTick(s).slots
    ensures Cleared(x, tick)
  {
    EndTickFilters(s);
    assert x in multiset(EndTick(s).slots);
    assert x in Remaining(s);
    var c := ClearContributions(s);
    if AnyReveal(s) {
      SurvivorsAre(c, 0, x);
      var k: nat :| k < |c| && Stays(c[k]) && x == Survivor(c, k);
      assert SlotRoundOk(s[k], tick % 3, tick);
    } else {
      KeptAre(c, x);
      var k: nat :| k < |c| && c[k].flagged && x == c[k].(flagged := false);
      assert SlotRoundOk(s[k], tick % 3, tick);
      assert !s[k].revealed;
    }
  }

  lemma {:induction false} SurvivorTotals(s: seq<Slot>, i: nat, f: Slot -> nat, g: Slot -> nat)
    requires i <= |s|
    requires forall k: nat :: i <= k < |s| && Stays(s[k]) ==> f(Survivor(s, k)) == f(s[k]) && g(s[k]) == 0
    requires forall k: nat :: i <= k < |s| && !Stays(s[k]) ==> f(s[k]) == g(s[k])
    ensures Total(Survivors(s, i), f) + Total(s[i..], g) == Total(s[i..], f)
    decreases |s| - i
  {
    if i < |s| {
      SurvivorTotals(s, i + 1, f, g);
      assert s[i..][1..] == s[i + 1..];
      TotalAppend(if Stays(s[i]) then [Survivor(s, i)] else [], Survivors(s, i + 1), f);
    }
  }

  lemma {:induction false} KeptTotals(s: seq<Slot>, f: Slot -> nat, g: Slot -> nat)
    requires forall x :: x in s && x.flagged ==> f(x.(flagged := false)) == f(x) && g(x) == 0
    requires forall x :: x in s && !x.flagged ==> f(x) == g(x)
    ensures Total(Kept(s), f) + Total(s, g) == Total(s, f)
  {
    if s != [] {
      KeptTotals(s[1..], f, g);
      TotalAppend(if s[0].flagged then [s[0].(flagged := false)] else [], Kept(s[1..]), f);
    }
  }

  predicate Remains(revealTick: bool, x: Slot) { x.flagged && (revealTick ==> x.commit != ZERO_ID) }

  function OneIfKeyGone(p: Id, t: nat, revealTick: bool): Slot -> nat {
    (x: Slot) => if x.HasKey(p, t) && !Remains(revealTick, x) then 1 else 0
  }

  lemma EndTickKeys(s: seq<Slot>, p: Id, t: nat)
    requires TiersOk(s)
    ensures Keys(EndTick(s).slots, p, t) <= Keys(s, p, t)
  {
    var c := ClearContributions(s);
    EndTickFilters(s);
    TotalOrderFree(EndTick(s).slots, Remaining(s), OneIfKey(p, t));
    ClearedTotal(s, OneIfKey(p, t));
    if AnyReveal(s) {
      SurvivorTotals(c, 0, OneIfKey(p, t), OneIfKeyGone(p, t, true));
      assert c[0..] == c;
    } else {
      KeptTotals(c, OneIfKey(p, t), OneIfKeyGone(p, t, false));
    }
  }

  lemma EndTickKeepsStream(s: seq<Slot>, tick: nat)
    requires StreamOk(s, tick % 3, tick) && TiersOk(s)
    ensures StreamOk(EndTick(s).slots, tick % 3, tick + 1)
  {
    var n := EndTick(s).slots;
    forall x | x in n ensures SlotRoundOk(x, tick % 3, tick + 1) {
      EndTickLeavesFresh(s, tick, x);
    }
    forall p: Id, t: nat ensures Keys(n, p, t) <= 1 {
      EndTickKeys(s, p, t);
      assert Keys(s, p, t) <= 1;
    }
  }

  lemma TierBound(s: seq<Slot>, stream: nat, tick: nat)
    requires StreamOk(s, stream, tick)
    ensures TiersOk(s)
  {
    forall i | 0 <= i < |s| ensures s[i].tier < TIER_COUNT { assert SlotRoundOk(s[i], stream, tick); }
  }

  // ---------------------------------------------------------------- every step, every run

  lemma StepKeepsWorld(k12: Hash, w: World, e: Event)
    requires WorldOk(w)
    ensures WorldOk(Step(k12, w, e))
  {
    var at := w.tick % 3;
    var n := Step(k12, w, e);
    assert StreamOk(w.c.streams[at], at, w.tick);
    match e
    case CallMade(call) =>
      SettleKeepsStream(k12, w.c.streams[at], w.tick, call);
      TierBound(n.c.streams[at], at, w.tick);
    case PurchaseMade(p) =>
    case TickEnded =>
      EndTickKeepsStream(w.c.streams[at], w.tick);
      TierBound(n.c.streams[at], at, w.tick + 1);
      forall s: nat | s < 3 ensures StreamOk(n.c.streams[s], s, n.tick) {
        if s != at {
          OtherStreamAges(w.c.streams[s], s, w.tick);
        }
      }
  }

  lemma OtherStreamAges(s: seq<Slot>, stream: nat, tick: nat)
    requires StreamOk(s, stream, tick) && stream != tick % 3
    ensures StreamOk(s, stream, tick + 1)
  {
    forall x | x in s ensures SlotRoundOk(x, stream, tick + 1) {
      assert SlotRoundOk(x, stream, tick);
    }
  }

  function Run(k12: Hash, w: World, events: seq<Event>): (n: World)
    requires WorldOk(w)
    ensures WorldOk(n)
    decreases |events|
  {
    if events == [] then w
    else
      StepKeepsWorld(k12, w, events[0]);
      Run(k12, Step(k12, w, events[0]), events[1..])
  }

  // ---------------------------------------------------------------- conservation

  /** Money that moved, for one account or (None) for all of them. */
  datatype Tally = Tally(received: nat, paid: nat, burnt: nat, sold: nat)

  function Plus(a: Tally, b: Tally): Tally {
    Tally(a.received + b.received, a.paid + b.paid, a.burnt + b.burnt, a.sold + b.sold)
  }

  function AmountFrom(who: Account, p: Id, amount: nat): nat { if Counts(who, p) then amount else 0 }

  /** What no-shows lose at the end of this tick: nothing unless somebody else revealed. */
  function Forfeit(c: Contract, tick: nat, who: Account): nat
    requires c.Ok()
  {
    var s := c.streams[tick % 3];
    if AnyReveal(s) then NoShowLocked(s, who) else 0
  }

  function Moved(k12: Hash, w: World, e: Event, who: Account): Tally
    requires w.c.Ok()
  {
    var paid := Paid(Effects(k12, w, e), who);
    match e
    case CallMade(call) => Tally(AmountFrom(who, call.invocator, call.amount), paid, 0, 0)
    case PurchaseMade(p) =>
      Tally(AmountFrom(who, p.invocator, p.amount), paid, 0,
            if Sells(w.c, w.tick, p) then AmountFrom(who, p.invocator, Cost(w.c, p)) else 0)
    case TickEnded => Tally(0, paid, Forfeit(w.c, w.tick, who), 0)
  }

  function Ledger(k12: Hash, w: World, events: seq<Event>, who: Account): Tally
    requires WorldOk(w)
    decreases |events|
  {
    if events == [] then Tally(0, 0, 0, 0)
    else
      StepKeepsWorld(k12, w, events[0]);
      Plus(Moved(k12, w, events[0], who), Ledger(k12, Step(k12, w, events[0]), events[1..], who))
  }

  function AllLocked(c: Contract, who: Account): nat
    requires c.Ok()
  {
    Locked(c.streams[0], who) + Locked(c.streams[1], who) + Locked(c.streams[2], who)
  }

  lemma PayBackPays(to: Id, amount: nat, who: Account)
    ensures Paid(PayBack(to, amount), who) == AmountFrom(who, to, amount) == Paid([Transfer(to, amount)], who)
  {
  }

  lemma SettleBalances(k12: Hash, s: seq<Slot>, tick: nat, call: Call, who: Account)
    ensures Locked(Settle(k12, s, tick, call), who) + Paid(CallEffects(k12, s, call), who)
         == Locked(s, who) + AmountFrom(who, call.invocator, call.amount)
  {
    var n := Settle(k12, s, tick, call);
    PayBackPays(call.invocator, call.amount, who);
    match Judge(k12, s, call)
    case Rejected =>
    case Enrolled =>
      TotalAppend(s, [n[|s|]], LockedOf(who));
    case Recommitted(i) =>
      TotalAt(s, i, n[i], LockedOf(who));
      PayBackPays(call.invocator, s[i].locked, who);
    case Left(i) =>
      TotalAt(s, i, n[i], LockedOf(who));
      PayBackPays(call.invocator, s[i].locked, who);
      EffectsAppend(PayBack(call.invocator, s[i].locked), [Transfer(call.invocator, call.amount)], who);
  }

  lemma {:induction false} RefundsPay(s: seq<Slot>, i: nat, who: Account)
    requires i <= |s|
    ensures Paid(Refunds(s, i), who) == NoShowLocked(s[..i], who)
  {
    if i > 0 {
      RefundsPay(s, i - 1, who);
      assert s[..i] == s[..i - 1] + [s[i - 1]];
      TotalAppend(s[..i - 1], [s[i - 1]], NoShowLockedOf(who));
      EffectsAppend(if s[i - 1].flagged then [] else PayBack(s[i - 1].provider, s[i - 1].locked), Refunds(s, i - 1), who);
    }
  }

  /** In an empty tick each account gets back exactly what its no-shows had locked. */
  lemma EmptyTickPaysBack(s: seq<Slot>, who: Account)
    requires TiersOk(s) && !AnyReveal(s)
    ensures Paid(EndTick(s).effects, who) == NoShowLocked(s, who)
  {
    EmptyTickRefunds(s);
    RefundsPay(s, |s|, who);
    assert s[..|s|] == s;
  }

  lemma PaidByNobody(effects: seq<Effect>, who: Account)
    requires Paid(effects, None) == 0
    ensures Paid(effects, who) == 0
  {
  }

  lemma LeaversLockNothing(s: seq<Slot>, stream: nat, tick: nat, c: seq<Slot>)
    requires StreamOk(s, stream, tick) && c == ClearContributions(s)
    ensures forall x :: x in c && x.flagged && x.commit == ZERO_ID ==> x.locked == 0
  {
    forall x | x in c ensures x.flagged && x.commit == ZERO_ID ==> x.locked == 0 {
      var i :| 0 <= i < |c| && c[i] == x;
      assert SlotRoundOk(s[i], stream, tick);
    }
  }

  lemma RemainingBalances(s: seq<Slot>, stream: nat, tick: nat, who: Account)
    requires StreamOk(s, stream, tick)
    ensures Locked(Remaining(s), who) + NoShowLocked(s, who) == Locked(s, who)
  {
    var c := ClearContributions(s);
    LeaversLockNothing(s, stream, tick, c);
    ClearedTotal(s, LockedOf(who));
    ClearedTotal(s, NoShowLockedOf(who));
    if AnyReveal(s) {
      SurvivorTotals(c, 0, LockedOf(who), NoShowLockedOf(who));
      assert c[0..] == c;
    } else {
      KeptTotals(c, LockedOf(who), NoShowLockedOf(who));
    }
  }

  /** What leaves the locked sums at END_TICK is exactly what is paid back or forfeited. */
  lemma EndTickBalances(s: seq<Slot>, stream: nat, tick: nat, who: Account)
    requires StreamOk(s, stream, tick) && TiersOk(s)
    ensures Locked(EndTick(s).slots, who) + Paid(EndTick(s).effects, who)
          + (if AnyReveal(s) then NoShowLocked(s, who) else 0) == Locked(s, who)
  {
    EndTickFilters(s);
    TotalOrderFree(EndTick(s).slots, Remaining(s), LockedOf(who));
    RemainingBalances(s, stream, tick, who);
    if AnyReveal(s) {
      RevealTickPaysNothing(s);
      PaidByNobody(EndTick(s).effects, who);
    } else {
      EmptyTickPaysBack(s, who);
    }
  }

  lemma ReplaceStream(c: Contract, at: nat, s: seq<Slot>, who: Account)
    requires c.Ok() && at < 3 && |s| <= STREAM_CAPACITY && TiersOk(s)
    ensures c.(streams := c.streams[at := s]).Ok()
    ensures AllLocked(c.(streams := c.streams[at := s]), who) + Locked(c.streams[at], who)
         == AllLocked(c, who) + Locked(s, who)
  {
  }

  lemma StepBalances(k12: Hash, w: World, e: Event, who: Account)
    requires WorldOk(w)
    ensures WorldOk(Step(k12, w, e))
    ensures var m := Moved(k12, w, e, who);
      AllLocked(Step(k12, w, e).c, who) + m.paid + m.burnt + m.sold == AllLocked(w.c, who) + m.received
  {
    StepKeepsWorld(k12, w, e);
    var at := w.tick % 3;
    var s := w.c.streams[at];
    match e
    case CallMade(call) =>
      SettleBalances(k12, s, w.tick, call, who);
      ReplaceStream(w.c, at, Settle(k12, s, w.tick, call), who);
    case PurchaseMade(p) =>
      PayBackPays(p.invocator, p.amount, who);
      if Sells(w.c, w.tick, p) { PayBackPays(p.invocator, p.amount - Cost(w.c, p), who); }
    case TickEnded =>
      EndTickBalances(s, at, w.tick, who);
      ReplaceStream(w.c, at, EndTick(s).slots, who);
  }

  lemma StepTotals(k12: Hash, w: World, e: Event)
    requires WorldOk(w)
    ensures var m := Moved(k12, w, e, None); var n := Step(k12, w, e).c;
      n.earned == w.c.earned + m.sold && n.burned == w.c.burned + m.burnt
  {
    if e.TickEnded? { EndTickBurns(w.c.streams[w.tick % 3]); }
  }

  /** Over every run, and for every account by itself: what came in and was not paid out,
      burned as a no-show or charged for entropy is exactly what is still locked. */
  lemma {:induction false} MoneyIsConserved(k12: Hash, w: World, events: seq<Event>, who: Account)
    requires WorldOk(w)
    ensures var m := Ledger(k12, w, events, who);
      AllLocked(Run(k12, w, events).c, who) + m.paid + m.burnt + m.sold == AllLocked(w.c, who) + m.received
    decreases |events|
  {
    if events != [] {
      StepBalances(k12, w, events[0], who);
      MoneyIsConserved(k12, Step(k12, w, events[0]), events[1..], who);
    }
  }

  /** The contract's own counters: `earnedAmount` collects the fees, `burnedAmount` grows by
      exactly the stakes of no-shows in ticks in which somebody revealed. */
  lemma {:induction false} CountersAgree(k12: Hash, w: World, events: seq<Event>)
    requires WorldOk(w)
    ensures var m := Ledger(k12, w, events, None); var n := Run(k12, w, events).c;
      n.earned == w.c.earned + m.sold && n.burned == w.c.burned + m.burnt
    decreases |events|
  {
    if events != [] {
      StepTotals(k12, w, events[0]);
      StepKeepsWorld(k12, w, events[0]);
      CountersAgree(k12, Step(k12, w, events[0]), events[1..]);
    }
  }

  // ---------------------------------------------------------------- one accepted call per tick

  ghost predicate FlaggedKey(s: seq<Slot>, p: Id, t: nat) {
    exists i :: 0 <= i < |s| && s[i].HasKey(p, t) && s[i].flagged
  }

  lemma FlaggedKeyRejects(k12: Hash, s: seq<Slot>, call: Call, t: nat)
    requires UniqueKeys(s) && FlaggedKey(s, call.invocator, t) && TierOf(call.amount) == Some(t)
    ensures Judge(k12, s, call) == Rejected
  {
    var i :| 0 <= i < |s| && s[i].HasKey(call.invocator, t) && s[i].flagged;
    var j := Find(s, call.invocator, t);
    KeyAtOnePlace(s, i, j);
  }

  lemma SettleKeepsFlag(k12: Hash, s: seq<Slot>, tick: nat, call: Call, p: Id, t: nat)
    requires FlaggedKey(s, p, t)
    ensures FlaggedKey(Settle(k12, s, tick, call), p, t)
  {
    var i :| 0 <= i < |s| && s[i].HasKey(p, t) && s[i].flagged;
    var n := Settle(k12, s, tick, call);
    assert n[i].HasKey(p, t) && n[i].flagged;
  }

  lemma AcceptedSetsFlag(k12: Hash, s: seq<Slot>, tick: nat, call: Call)
    requires Judge(k12, s, call) != Rejected
    ensures FlaggedKey(Settle(k12, s, tick, call), call.invocator, TierOf(call.amount).value)
  {
    var n := Settle(k12, s, tick, call);
    var at := match Judge(k12, s, call) case Recommitted(i) => i case Left(i) => i case _ => |s|;
    assert n[at].HasKey(call.invocator, TierOf(call.amount).value) && n[at].flagged;
  }

  ghost predicate WithinTick(events: seq<Event>) {
    forall e :: e in events ==> !e.TickEnded?
  }

  lemma {:induction false} RunKeepsFlag(k12: Hash, w: World, events: seq<Event>, p: Id, t: nat)
    requires WorldOk(w) && WithinTick(events) && FlaggedKey(w.c.streams[w.tick % 3], p, t)
    ensures Run(k12, w, events).tick == w.tick
    ensures FlaggedKey(Run(k12, w, events).c.streams[w.tick % 3], p, t)
    decreases |events|
  {
    if events != [] {
      StepKeepsWorld(k12, w, events[0]);
      if events[0].CallMade? {
        SettleKeepsFlag(k12, w.c.streams[w.tick % 3], w.tick, events[0].call, p, t);
      }
      RunKeepsFlag(k12, Step(k12, w, events[0]), events[1..], p, t);
    }
  }

  /** Once a call was accepted, any further call of the same provider and tier in that tick (an
      identical one in particular) changes nothing and gets its amount back, whatever happened
      in between. */
  lemma OneAcceptedCallPerTick(k12: Hash, w: World, first: Call, between: seq<Event>, again: Call)
    requires WorldOk(w) && WithinTick(between)
    requires Judge(k12, w.c.streams[w.tick % 3], first) != Rejected
    requires again.invocator == first.invocator && again.amount == first.amount
    ensures WorldOk(Step(k12, w, CallMade(first)))
    ensures var n := Run(k12, Step(k12, w, CallMade(first)), between);
      && Step(k12, n, CallMade(again)) == n
      && Effects(k12, n, CallMade(again)) == [Transfer(again.invocator, again.amount)]
  {
    StepKeepsWorld(k12, w, CallMade(first));
    var at := w.tick % 3;
    AcceptedSetsFlag(k12, w.c.streams[at], w.tick, first);
    var v := Step(k12, w, CallMade(first));
    var t := TierOf(first.amount).value;
    RunKeepsFlag(k12, v, between, first.invocator, t);
    var n := Run(k12, v, between);
    assert StreamOk(n.c.streams[at], at, n.tick);
    FlaggedKeyRejects(k12, n.c.streams[at], again, t);
    assert n.c.streams[at := n.c.streams[at]] == n.c.streams;
  }

  /** Within a tick only the stream of that tick changes. */
  lemma {:induction false} OtherStreamsStand(k12: Hash, w: World, events: seq<Event>, stream: nat)
    requires WorldOk(w) && WithinTick(events) && stream < 3 && stream != w.tick % 3
    ensures var n := Run(k12, w, events);
      n.tick == w.tick && n.c.streams[stream] == w.c.streams[stream] && n.c.entropy == w.c.entropy && n.c.bitFee == w.c.bitFee
    decreases |events|
  {
    if events != [] {
      StepKeepsWorld(k12, w, events[0]);
      OtherStreamsStand(k12, Step(k12, w, events[0]), events[1..], stream);
    }
  }

  /** After END_TICK at T the whole stream of T is cleared and carries T as its update tick. */
  lemma TickEndClearsTheStream(k12: Hash, w: World)
    requires WorldOk(w)
    ensures WorldOk(Step(k12, w, TickEnded))
    ensures forall x :: x in Step(k12, w, TickEnded).c.streams[w.tick % 3] ==> Cleared(x, w.tick)
  {
    StepKeepsWorld(k12, w, TickEnded);
    var s := w.c.streams[w.tick % 3];
    assert StreamOk(s, w.tick % 3, w.tick);
    forall x | x in EndTick(s).slots ensures Cleared(x, w.tick) {
      EndTickLeavesFresh(s, w.tick, x);
    }
  }

  // ---------------------------------------------------------------- which calls are accepted

  /** A first commit: the key is not enrolled and the stream has room. */
  ghost predicate MayEnroll(s: seq<Slot>, call: Call, t: nat) {
    && call.preimage == ZERO_BITS && call.commit != ZERO_ID && |s| < STREAM_CAPACITY
    && forall x :: x in s ==> !x.HasKey(call.invocator, t)
  }

  /** A reveal: it opens the commit of the key's slot, which has not been updated in this tick. */
  ghost predicate MayReveal(k12: Hash, s: seq<Slot>, call: Call, t: nat) {
    && call.preimage != ZERO_BITS
    && exists x :: x in s && x.HasKey(call.invocator, t) && !x.flagged && k12(call.preimage) == x.commit
  }

  /** A call is accepted exactly when a user attaches a tier's stake and the call is a first
      commit or a reveal of that key, whatever position the slot stands at. */
  lemma AcceptedExactly(k12: Hash, s: seq<Slot>, stream: nat, tick: nat, call: Call)
    requires StreamOk(s, stream, tick)
    ensures !Judge(k12, s, call).Rejected? <==>
      && !call.isContract && TierOf(call.amount).Some?
      && (MayEnroll(s, call, TierOf(call.amount).value) || MayReveal(k12, s, call, TierOf(call.amount).value))
  {
    if !call.isContract && TierOf(call.amount).Some? {
      var t := TierOf(call.amount).value;
      var i := Find(s, call.invocator, t);
      if i < |s| {
        assert s[i] in s && SlotRoundOk(s[i], stream, tick);
        forall x | x in s && x.HasKey(call.invocator, t) ensures x == s[i] {
          var j :| 0 <= j < |s| && s[j] == x;
          KeyAtOnePlace(s, i, j);
        }
      } else {
        forall x | x in s ensures !x.HasKey(call.invocator, t) {
          var j :| 0 <= j < |s| && s[j] == x;
        }
      }
    }
  }
}
