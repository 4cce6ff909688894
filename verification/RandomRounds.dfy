/** What END_TICK means, independently of its walk: which slots survive, what entropy each
    tier gets, and what is burned or paid back. */
module RandomRounds {
  import opened Basics
  import opened RandomRules

  // ---------------------------------------------------------------- reference definitions

  /** A no-show of tier t among the slots from position i on. */
  ghost predicate NoShowFrom(s: seq<Slot>, i: nat, t: nat) {
    exists j :: i <= j < |s| && s[j].tier == t && !s[j].flagged
  }

  ghost predicate NoShow(s: seq<Slot>, t: nat) { NoShowFrom(s, 0, t) }

  predicate Stays(slot: Slot) { slot.flagged && slot.commit != ZERO_ID }

  /** Slot i after a reveal tick. Its contribution mark records that its reveal was mixed in,
      which later discovered no-shows do not take back. */
  ghost function Survivor(s: seq<Slot>, i: nat): Slot
    requires i < |s|
  {
    Settled(s[i], s[i].revealed && !NoShowFrom(s, i + 1, s[i].tier))
  }

  ghost function Survivors(s: seq<Slot>, i: nat): seq<Slot>
    requires i <= |s|
    decreases |s| - i
  {
    if i == |s| then []
    else (if Stays(s[i]) then [Survivor(s, i)] else []) + Survivors(s, i + 1)
  }

  /** The flagged slots, unflagged: what an empty tick keeps. */
  function Kept(s: seq<Slot>): seq<Slot> {
    if s == [] then []
    else (if s[0].flagged then [s[0].(flagged := false)] else []) + Kept(s[1..])
  }

  /** XOR of the reveals recorded for tier t. */
  function XorOfReveals(s: seq<Slot>, t: nat): Bits {
    if s == [] then ZERO_BITS
    else if s[0].revealed && s[0].tier == t then Xor(s[0].preimage, XorOfReveals(s[1..], t))
    else XorOfReveals(s[1..], t)
  }

  /** Whose money is counted: one account's, or everybody's. */
  type Account = Option<Id>

  predicate Counts(who: Account, p: Id) { who.None? || who.value == p }

  function Total(s: seq<Slot>, f: Slot -> nat): nat {
    if s == [] then 0 else f(s[0]) + Total(s[1..], f)
  }

  function LockedOf(who: Account): Slot -> nat {
    (x: Slot) => if Counts(who, x.provider) then x.locked else 0
  }

  function NoShowLockedOf(who: Account): Slot -> nat {
    (x: Slot) => if !x.flagged && Counts(who, x.provider) then x.locked else 0
  }

  function OneIfKey(p: Id, t: nat): Slot -> nat {
    (x: Slot) => if x.HasKey(p, t) then 1 else 0
  }

  function Locked(s: seq<Slot>, who: Account): nat { Total(s, LockedOf(who)) }

  function NoShowLocked(s: seq<Slot>, who: Account): nat { Total(s, NoShowLockedOf(who)) }

  /** How many slots carry this key. */
  function Keys(s: seq<Slot>, p: Id, t: nat): nat { Total(s, OneIfKey(p, t)) }

  function Paid(effects: seq<Effect>, who: Account): nat {
    if effects == [] then 0
    else (if effects[0].Transfer? && Counts(who, effects[0].to) then effects[0].amount else 0) + Paid(effects[1..], who)
  }

  function BurnTotal(effects: seq<Effect>): nat {
    if effects == [] then 0
    else (if effects[0].Burn? then effects[0].amount else 0) + BurnTotal(effects[1..])
  }

  // ---------------------------------------------------------------- swap-delete

  lemma SwapDeleteTail(s: seq<Slot>, k: nat)
    requires k < |s|
    ensures SwapDelete(s, k)[..k] == s[..k]
    ensures multiset(SwapDelete(s, k)[k..]) == multiset(s[k + 1..])
  {
    var d := SwapDelete(s, k);
    if k == |s| - 1 {
      assert d[k..] == [] == s[k + 1..];
    } else {
      var last := s[|s| - 1];
      assert d[k..] == [last] + s[k + 1..|s| - 1];
      assert s[k + 1..] == s[k + 1..|s| - 1] + [last];
    }
  }

  lemma BitOfOr(m: bv16, j: nat, k: nat)
    requires j < TIER_COUNT && k < TIER_COUNT
    ensures (m | TierBit(k)) & TierBit(j) != 0 <==> j == k || m & TierBit(j) != 0
  {
  }

  lemma MarkMarks(m: bv16, j: nat, k: nat)
    requires j < TIER_COUNT && k < TIER_COUNT
    ensures Marked(Mark(m, k), j) <==> j == k || Marked(m, j)
  {
    BitOfOr(m, j, k);
  }

  lemma EffectsAppend(a: seq<Effect>, b: seq<Effect>, who: Account)
    ensures Paid(a + b, who) == Paid(a, who) + Paid(b, who)
    ensures BurnTotal(a + b) == BurnTotal(a) + BurnTotal(b)
  {
    if a == [] {
      assert a + b == b;
    } else {
      assert (a + b)[1..] == a[1..] + b;
    }
  }

  lemma BurnAppended(effects: seq<Effect>, amount: nat)
    ensures BurnTotal(effects + BurnOff(amount)) == BurnTotal(effects) + amount
    ensures Paid(effects + BurnOff(amount), None) == Paid(effects, None)
  {
    EffectsAppend(effects, BurnOff(amount), None);
  }

  // ---------------------------------------------------------------- the reveal-tick walk

  ghost predicate PoisonFrom(s: seq<Slot>, i: nat, mask: bv16) {
    forall t: nat :: t < TIER_COUNT ==> (Marked(mask, t) <==> NoShowFrom(s, i, t))
  }

  ghost predicate EntropyFrom(s: seq<Slot>, i: nat, entropy: seq<Bits>) {
    && i <= |s| && |entropy| == TIER_COUNT
    && forall t: nat :: t < TIER_COUNT && !NoShowFrom(s, i, t) ==> entropy[t] == XorOfReveals(s[i..], t)
  }

  ghost predicate SlotsFrom(s: seq<Slot>, i: nat, slots: seq<Slot>) {
    && i <= |s| && i <= |slots|
    && slots[..i] == s[..i]
    && multiset(slots[i..]) == multiset(Survivors(s, i))
  }

  /** The walk has visited the positions from i on: the rest is untouched, and everything
      visited is accounted for by the reference definitions. */
  ghost predicate Visited(s: seq<Slot>, i: nat, r: Round) {
    && TiersOk(s) && r.Ok()
    && SlotsFrom(s, i, r.slots)
    && PoisonFrom(s, i, r.poisoned)
    && EntropyFrom(s, i, r.entropy)
    && r.burned == NoShowLocked(s[i..], None)
    && BurnTotal(r.effects) == r.burned && Paid(r.effects, None) == 0
  }

  lemma NoShowStep(s: seq<Slot>, k: nat, t: nat)
    requires k < |s|
    ensures NoShowFrom(s, k, t) <==> NoShowFrom(s, k + 1, t) || (s[k].tier == t && !s[k].flagged)
  {
  }

  lemma PoisonStep(s: seq<Slot>, k: nat, mask: bv16)
    requires k < |s| && TiersOk(s) && PoisonFrom(s, k + 1, mask)
    ensures PoisonFrom(s, k, if s[k].flagged then mask else Mark(mask, s[k].tier))
  {
    var next := if s[k].flagged then mask else Mark(mask, s[k].tier);
    forall t: nat | t < TIER_COUNT ensures Marked(next, t) <==> NoShowFrom(s, k, t) {
      MarkMarks(mask, t, s[k].tier);
      NoShowStep(s, k, t);
    }
  }

  /** As SlotsFrom(s, k + 1, slots), whatever stands at position k. */
  ghost predicate SlotsAround(s: seq<Slot>, k: nat, slots: seq<Slot>) {
    && k < |s| && k < |slots|
    && slots[..k] == s[..k]
    && multiset(slots[k + 1..]) == multiset(Survivors(s, k + 1))
  }

  lemma SlotsOpen(s: seq<Slot>, k: nat, slots: seq<Slot>, x: Slot)
    requires k < |s| && SlotsFrom(s, k + 1, slots)
    ensures slots[k] == s[k]
    ensures SlotsAround(s, k, slots) && SlotsAround(s, k, slots[k := x])
  {
    assert slots[k] == slots[..k + 1][k] == s[..k + 1][k];
    assert slots[k := x][..k] == slots[..k] == slots[..k + 1][..k] == s[..k];
    assert slots[k := x][k + 1..] == slots[k + 1..];
  }

  lemma SlotsStepKeep(s: seq<Slot>, k: nat, slots: seq<Slot>)
    requires SlotsAround(s, k, slots) && Stays(s[k]) && slots[k] == Survivor(s, k)
    ensures SlotsFrom(s, k, slots)
  {
    assert slots[k..] == [slots[k]] + slots[k + 1..];
  }

  lemma SlotsStepDrop(s: seq<Slot>, k: nat, slots: seq<Slot>)
    requires SlotsAround(s, k, slots) && !Stays(s[k])
    ensures SlotsFrom(s, k, SwapDelete(slots, k))
  {
    SwapDeleteTail(slots, k);
  }

  lemma TailStep(s: seq<Slot>, k: nat)
    requires k < |s|
    ensures NoShowLocked(s[k..], None) == (if s[k].flagged then 0 else s[k].locked) + NoShowLocked(s[k + 1..], None)
  {
    assert s[k..][1..] == s[k + 1..];
  }

  lemma EntropyStepMix(s: seq<Slot>, k: nat, entropy: seq<Bits>)
    requires k < |s| && TiersOk(s) && EntropyFrom(s, k + 1, entropy)
    requires s[k].revealed && s[k].flagged && !NoShowFrom(s, k + 1, s[k].tier)
    ensures EntropyFrom(s, k, entropy[s[k].tier := Xor(entropy[s[k].tier], s[k].preimage)])
  {
    var next := entropy[s[k].tier := Xor(entropy[s[k].tier], s[k].preimage)];
    assert s[k..][1..] == s[k + 1..];
    forall t: nat | t < TIER_COUNT && !NoShowFrom(s, k, t) ensures next[t] == XorOfReveals(s[k..], t) {
      NoShowStep(s, k, t);
      XorCommutes(s[k].preimage, entropy[t]);
    }
  }

  lemma EntropyStepSkip(s: seq<Slot>, k: nat, entropy: seq<Bits>)
    requires k < |s| && EntropyFrom(s, k + 1, entropy)
    requires !s[k].flagged || !s[k].revealed || NoShowFrom(s, k + 1, s[k].tier)
    ensures EntropyFrom(s, k, entropy)
  {
    assert s[k..][1..] == s[k + 1..];
    forall t: nat | t < TIER_COUNT && !NoShowFrom(s, k, t) ensures entropy[t] == XorOfReveals(s[k..], t) {
      NoShowStep(s, k, t);
      NoShowStep(s, k, s[k].tier);
    }
  }

  lemma VisitFlagged(s: seq<Slot>, k: nat, r: Round)
    requires k < |s| && Visited(s, k + 1, r) && s[k].flagged
    ensures Visited(s, k, Visit(r, k))
  {
    SlotsOpen(s, k, r.slots, Survivor(s, k));
    var mixed := Mixes(r, s[k]);
    PoisonStep(s, k, r.poisoned);
    if mixed { EntropyStepMix(s, k, r.entropy); } else { EntropyStepSkip(s, k, r.entropy); }
    assert Settled(s[k], mixed) == Survivor(s, k);
    if Stays(s[k]) {
      SlotsStepKeep(s, k, r.slots[k := Survivor(s, k)]);
    } else {
      SlotsStepDrop(s, k, r.slots[k := Survivor(s, k)]);
    }
    TailStep(s, k);
  }

  lemma VisitNoShow(s: seq<Slot>, k: nat, r: Round)
    requires k < |s| && Visited(s, k + 1, r) && !s[k].flagged
    ensures Visited(s, k, Visit(r, k))
  {
    SlotsOpen(s, k, r.slots, s[k]);
    PoisonStep(s, k, r.poisoned);
    EntropyStepSkip(s, k, r.entropy);
    SlotsStepDrop(s, k, r.slots);
    BurnAppended(r.effects, s[k].locked);
    TailStep(s, k);
  }

  lemma VisitKeeps(s: seq<Slot>, k: nat, r: Round)
    requires k < |s| && Visited(s, k + 1, r)
    ensures Visited(s, k, Visit(r, k))
  {
    if s[k].flagged { VisitFlagged(s, k, r); } else { VisitNoShow(s, k, r); }
  }

  lemma {:induction false} WalkKeeps(s: seq<Slot>, i: nat, r: Round)
    requires Visited(s, i, r)
    ensures Visited(s, 0, RevealWalk(r, i))
    decreases i
  {
    if i > 0 {
      VisitKeeps(s, i - 1, r);
      WalkKeeps(s, i - 1, Visit(r, i - 1));
    }
  }

  // ---------------------------------------------------------------- the empty-tick walk

  ghost predicate KeptFrom(s: seq<Slot>, i: nat, q: seq<Slot>) {
    && i <= |s| && i <= |q|
    && q[..i] == s[..i]
    && multiset(q[i..]) == multiset(Kept(s[i..]))
  }

  lemma KeptOpen(s: seq<Slot>, k: nat, q: seq<Slot>)
    requires k < |s| && KeptFrom(s, k + 1, q)
    ensures q[k] == s[k]
  {
    assert q[k] == q[..k + 1][k] == s[..k + 1][k];
  }

  lemma KeptStepKeep(s: seq<Slot>, k: nat, q: seq<Slot>)
    requires k < |s| && KeptFrom(s, k + 1, q) && s[k].flagged
    ensures KeptFrom(s, k, q[k := s[k].(flagged := false)])
  {
    var next := q[k := s[k].(flagged := false)];
    assert next[..k] == q[..k + 1][..k] == s[..k];
    assert next[k..] == [s[k].(flagged := false)] + q[k + 1..];
    assert s[k..][1..] == s[k + 1..];
    assert Kept(s[k..]) == [s[k].(flagged := false)] + Kept(s[k + 1..]);
  }

  lemma KeptStepDrop(s: seq<Slot>, k: nat, q: seq<Slot>)
    requires k < |s| && KeptFrom(s, k + 1, q) && !s[k].flagged
    ensures KeptFrom(s, k, SwapDelete(q, k))
  {
    SwapDeleteTail(q, k);
    assert q[..k] == q[..k + 1][..k] == s[..k];
    assert s[k..][1..] == s[k + 1..];
    assert Kept(s[k..]) == Kept(s[k + 1..]);
  }

  /** What an empty tick pays back, in the order of the walk. */
  function Refunds(s: seq<Slot>, i: nat): seq<Effect>
    requires i <= |s|
  {
    if i == 0 then []
    else (if s[i - 1].flagged then [] else PayBack(s[i - 1].provider, s[i - 1].locked)) + Refunds(s, i - 1)
  }

  lemma {:induction false} QuietKeeps(s: seq<Slot>, q: seq<Slot>, i: nat)
    requires KeptFrom(s, i, q)
    ensures multiset(QuietWalk(q, i)) == multiset(Kept(s))
    ensures QuietEffects(q, i) == Refunds(s, i)
    decreases i
  {
    if i == 0 {
      assert q[0..] == q && s[0..] == s;
    } else {
      var k := i - 1;
      KeptOpen(s, k, q);
      if q[k].flagged {
        KeptStepKeep(s, k, q);
        QuietKeeps(s, q[k := s[k].(flagged := false)], k);
      } else {
        KeptStepDrop(s, k, q);
        QuietKeeps(s, SwapDelete(q, k), k);
      }
    }
  }

  // ---------------------------------------------------------------- END_TICK as a whole

  /** The slots an END_TICK leaves behind. */
  ghost function Remaining(s: seq<Slot>): seq<Slot> {
    var c := ClearContributions(s);
    if AnyReveal(s) then Survivors(c, 0) else Kept(c)
  }

  lemma ClearedReferences(s: seq<Slot>)
    ensures var c := ClearContributions(s);
      && (AnyReveal(c) <==> AnyReveal(s))
      && (forall t: nat :: NoShow(c, t) <==> NoShow(s, t))
      && (forall t: nat :: XorOfReveals(c, t) == XorOfReveals(s, t))
      && NoShowLocked(c, None) == NoShowLocked(s, None)
      && Refunds(c, |c|) == Refunds(s, |s|)
  {
    var c := ClearContributions(s);
    assert AnyReveal(c) <==> AnyReveal(s) by {
      if AnyReveal(s) { var i :| 0 <= i < |s| && s[i].revealed; assert c[i].revealed; }
    }
    forall t: nat ensures NoShow(c, t) <==> NoShow(s, t) {
      if NoShow(s, t) { var j :| 0 <= j < |s| && s[j].tier == t && !s[j].flagged; assert c[j].tier == t; }
    }
    forall t: nat ensures XorOfReveals(c, t) == XorOfReveals(s, t) { ClearedXor(s, t); }
    ClearedTotal(s, NoShowLockedOf(None));
    ClearedRefunds(s, |s|);
  }

  lemma ClearedXor(s: seq<Slot>, t: nat)
    ensures XorOfReveals(ClearContributions(s), t) == XorOfReveals(s, t)
  {
    if s != [] {
      assert ClearContributions(s)[1..] == ClearContributions(s[1..]);
    }
  }

  lemma ClearedTotal(s: seq<Slot>, f: Slot -> nat)
    requires forall x: Slot :: f(x.(contributed := false)) == f(x)
    ensures Total(ClearContributions(s), f) == Total(s, f)
  {
    if s != [] {
      assert ClearContributions(s)[1..] == ClearContributions(s[1..]);
    }
  }

  lemma ClearedRefunds(s: seq<Slot>, i: nat)
    requires i <= |s|
    ensures Refunds(ClearContributions(s), i) == Refunds(s, i)
  {
  }

  /** END_TICK keeps exactly the slots the reference filter keeps, as full records. */
  lemma EndTickFilters(s: seq<Slot>)
    requires TiersOk(s)
    ensures multiset(EndTick(s).slots) == multiset(Remaining(s))
  {
    ClearedReferences(s);
    WalkEnds(s);
  }

  /** In a tick with a reveal, a tier's entropy is zero after a no-show and otherwise the XOR
      of everything revealed for it; in a tick without one all entropies are zero. */
  lemma EndTickEntropy(s: seq<Slot>, t: nat)
    requires TiersOk(s) && t < TIER_COUNT
    ensures EndTick(s).entropy[t] ==
      if AnyReveal(s) && !NoShow(s, t) then XorOfReveals(s, t) else ZERO_BITS
  {
    ClearedReferences(s);
    WalkEnds(s);
  }

  /** One for a slot that revealed for tier t a preimage with bit k set. */
  function RevealsBit(t: nat, k: nat): Slot -> nat
    requires k < 4096
  {
    (x: Slot) => if x.revealed && x.tier == t && x.preimage[k] then 1 else 0
  }

  /** Bit k is set in an odd number of the reveals for tier t. */
  predicate OddReveals(s: seq<Slot>, t: nat, k: nat)
    requires k < 4096
  {
    Total(s, RevealsBit(t, k)) % 2 == 1
  }

  lemma {:induction false} XorParity(s: seq<Slot>, t: nat, k: nat)
    requires k < 4096
    ensures XorOfReveals(s, t)[k] <==> OddReveals(s, t, k)
  {
    if s != [] { XorParity(s[1..], t, k); }
  }

  lemma {:induction false} NoRevealNoBits(s: seq<Slot>, t: nat, k: nat)
    requires k < 4096 && !AnyReveal(s)
    ensures !OddReveals(s, t, k)
  {
    XorParity(s, t, k);
    if s != [] {
      assert !s[0].revealed;
      assert forall i :: 0 <= i < |s[1..]| ==> s[1..][i] == s[i + 1];
      NoRevealNoBits(s[1..], t, k);
    }
  }

  /** Bit by bit: a bit of a tier's entropy is set exactly when the tier had no no-show and an odd
      number of its reveals have that bit set. */
  lemma EndTickParity(s: seq<Slot>, t: nat, k: nat)
    requires TiersOk(s) && t < TIER_COUNT && k < 4096
    ensures EndTick(s).entropy[t][k] <==> !NoShow(s, t) && OddReveals(s, t, k)
  {
    hide EndTick, NoShow;
    EndTickEntropy(s, t);
    XorParity(s, t, k);
    if !AnyReveal(s) { NoRevealNoBits(s, t, k); }
  }

  /** No-shows are burned, and counted, exactly when somebody revealed. */
  lemma EndTickBurns(s: seq<Slot>)
    requires TiersOk(s)
    ensures EndTick(s).burned == if AnyReveal(s) then NoShowLocked(s, None) else 0
    ensures BurnTotal(EndTick(s).effects) == EndTick(s).burned
  {
    ClearedReferences(s);
    WalkEnds(s);
    RefundsBurnNothing(s, |s|);
  }

  /** When somebody revealed, nothing is paid out. */
  lemma RevealTickPaysNothing(s: seq<Slot>)
    requires TiersOk(s) && AnyReveal(s)
    ensures Paid(EndTick(s).effects, None) == 0
  {
    ClearedReferences(s);
    WalkEnds(s);
  }

  /** When nobody revealed, exactly the no-shows are refunded. */
  lemma EmptyTickRefunds(s: seq<Slot>)
    requires TiersOk(s) && !AnyReveal(s)
    ensures EndTick(s).effects == Refunds(s, |s|)
  {
    ClearedReferences(s);
    ClearedRefunds(s, |s|);
    WalkEnds(s);
  }

  lemma RefundsBurnNothing(s: seq<Slot>, i: nat)
    requires i <= |s|
    ensures BurnTotal(Refunds(s, i)) == 0
  {
    if i > 0 {
      RefundsBurnNothing(s, i - 1);
      EffectsAppend(if s[i - 1].flagged then [] else PayBack(s[i - 1].provider, s[i - 1].locked), Refunds(s, i - 1), None);
    }
  }

  lemma WalkEnds(s: seq<Slot>)
    requires TiersOk(s)
    ensures var c := ClearContributions(s);
      && (AnyReveal(c) ==> Visited(c, 0, RevealWalk(Round(c, ZeroTiers(), 0, 0, []), |c|)) && c[0..] == c)
      && (!AnyReveal(c) ==> multiset(QuietWalk(c, |c|)) == multiset(Kept(c)) && QuietEffects(c, |c|) == Refunds(c, |c|))
  {
    var c := ClearContributions(s);
    assert c[..|c|] == c && c[|c|..] == [] && c[0..] == c;
    if AnyReveal(c) {
      WalkKeeps(c, |c|, Round(c, ZeroTiers(), 0, 0, []));
    } else {
      QuietKeeps(c, c, |c|);
    }
  }

  // ---------------------------------------------------------------- order does not matter

  lemma TotalAppend(a: seq<Slot>, b: seq<Slot>, f: Slot -> nat)
    ensures Total(a + b, f) == Total(a, f) + Total(b, f)
  {
    if a == [] {
      assert a + b == b;
    } else {
      assert (a + b)[1..] == a[1..] + b;
    }
  }

  lemma XorAppend(a: seq<Slot>, b: seq<Slot>, t: nat)
    ensures XorOfReveals(a + b, t) == Xor(XorOfReveals(a, t), XorOfReveals(b, t))
  {
    if a == [] {
      assert a + b == b;
      XorZero(XorOfReveals(b, t));
    } else {
      assert (a + b)[1..] == a[1..] + b;
      XorAssociates(a[0].preimage, XorOfReveals(a[1..], t), XorOfReveals(b, t));
    }
  }

  lemma SamePieces(a: seq<Slot>, b: seq<Slot>) returns (j: nat)
    requires a != [] && multiset(a) == multiset(b)
    ensures j < |b| && b[j] == a[0]
    ensures b == b[..j] + [a[0]] + b[j + 1..]
    ensures multiset(a[1..]) == multiset(b[..j] + b[j + 1..])
  {
    assert a[0] in multiset(a);
    j :| 0 <= j < |b| && b[j] == a[0];
    assert a == [a[0]] + a[1..];
    assert b == b[..j] + [a[0]] + b[j + 1..];
    assert multiset(b) == multiset(b[..j]) + multiset{a[0]} + multiset(b[j + 1..]);
    assert multiset(a) == multiset{a[0]} + multiset(a[1..]);
    assert multiset(a[1..]) == multiset(a) - multiset{a[0]};
    assert multiset(b[..j] + b[j + 1..]) == multiset(b) - multiset{a[0]};
  }

  lemma {:induction false} TotalOrderFree(a: seq<Slot>, b: seq<Slot>, f: Slot -> nat)
    requires multiset(a) == multiset(b)
    ensures Total(a, f) == Total(b, f)
    decreases |a|
  {
    if a == [] {
      assert |multiset(b)| == 0;
    } else {
      var j := SamePieces(a, b);
      TotalOrderFree(a[1..], b[..j] + b[j + 1..], f);
      TotalAppend(b[..j], b[j + 1..], f);
      TotalAppend(b[..j] + [a[0]], b[j + 1..], f);
      TotalAppend(b[..j], [a[0]], f);
    }
  }

  /** The XOR of the reveals depends only on which records there are, not on their order. */
  lemma {:induction false} XorOrderFree(a: seq<Slot>, b: seq<Slot>, t: nat)
    requires multiset(a) == multiset(b)
    ensures XorOfReveals(a, t) == XorOfReveals(b, t)
    decreases |a|
  {
    if a == [] {
      assert |multiset(b)| == 0;
    } else {
      var j := SamePieces(a, b);
      XorOrderFree(a[1..], b[..j] + b[j + 1..], t);
      XorAppend(b[..j], b[j + 1..], t);
      XorMove(b[..j], a[0], b[j + 1..], t);
      assert [a[0]] + a[1..] == a;
      XorAppend([a[0]], a[1..], t);
    }
  }

  lemma XorMove(a: seq<Slot>, x: Slot, b: seq<Slot>, t: nat)
    ensures XorOfReveals(a + [x] + b, t) == Xor(XorOfReveals([x], t), Xor(XorOfReveals(a, t), XorOfReveals(b, t)))
  {
    var u, v, w := XorOfReveals(a, t), XorOfReveals([x], t), XorOfReveals(b, t);
    XorAppend(a + [x], b, t);
    XorAppend(a, [x], t);
    XorCommutes(u, v);
    XorAssociates(v, u, w);
  }
}
