/** The Random contract's round machine on values: what one procedure call and one
    END_TICK do to the slots of a stream, in the order in which the contract does it. */
module RandomRules {
  import opened Basics

  const STREAM_CAPACITY: nat := 1365
  const MAX_PROVIDERS: nat := 4096
  const TIER_COUNT: nat := 10

  /** One position of the contract's nine parallel per-provider arrays. */
  datatype Slot = Slot(provider: Id, tier: nat, commit: Id, preimage: Bits, locked: nat,
                       flagged: bool, revealed: bool, contributed: bool, lastUpdate: nat)
  {
    predicate HasKey(p: Id, t: nat) { provider == p && tier == t }
  }

  const EMPTY_SLOT := Slot(ZERO_ID, 0, ZERO_ID, ZERO_BITS, 0, false, false, false, 0)

  /** What the contract asks the framework to do with money. */
  datatype Effect = Transfer(to: Id, amount: nat) | Burn(amount: nat)

  function Pow10(t: nat): nat { if t == 0 then 1 else 10 * Pow10(t - 1) }

  /** The `switch` over the attached amount. */
  function TierOf(amount: nat): (t: Option<nat>)
    ensures t.Some? ==> t.value < TIER_COUNT
  {
    if amount == 1 then Some(0)
    else if amount == 10 then Some(1)
    else if amount == 100 then Some(2)
    else if amount == 1000 then Some(3)
    else if amount == 10000 then Some(4)
    else if amount == 100000 then Some(5)
    else if amount == 1000000 then Some(6)
    else if amount == 10000000 then Some(7)
    else if amount == 100000000 then Some(8)
    else if amount == 1000000000 then Some(9)
    else None
  }

  // ---------------------------------------------------------------- RevealAndCommit

  datatype Call = Call(invocator: Id, isContract: bool, amount: nat, preimage: Bits, commit: Id)

  datatype Verdict =
    | Rejected
    | Enrolled
    | Recommitted(at: nat)
    | Left(at: nat)

  /** Position of the first slot with this key, or the population when there is none. */
  function Find(s: seq<Slot>, p: Id, t: nat): (i: nat)
    ensures i <= |s|
    ensures i < |s| ==> s[i].HasKey(p, t)
    ensures forall j :: 0 <= j < i ==> !s[j].HasKey(p, t)
  {
    if s == [] then 0
    else if s[0].HasKey(p, t) then 0
    else 1 + Find(s[1..], p, t)
  }

  /** A reveal is taken only from an enrolled, not yet updated slot whose commit it opens. */
  predicate Opens(k12: Hash, slot: Slot, preimage: Bits) {
    slot.preimage == ZERO_BITS && k12(preimage) == slot.commit && !slot.flagged
  }

  /** The branches of the procedure once the tier is known and the search has stopped at i. */
  function JudgeAt(k12: Hash, s: seq<Slot>, call: Call, i: nat): (v: Verdict)
    requires i <= |s|
    ensures v.Recommitted? || v.Left? ==> v.at == i < |s|
  {
    if call.commit == ZERO_ID then
      if call.preimage == ZERO_BITS || i == |s| || !Opens(k12, s[i], call.preimage) then Rejected
      else Left(i)
    else if call.preimage != ZERO_BITS then
      if i == |s| || !Opens(k12, s[i], call.preimage) then Rejected else Recommitted(i)
    else if i < |s| || |s| == STREAM_CAPACITY then Rejected
    else Enrolled
  }

  function Judge(k12: Hash, s: seq<Slot>, call: Call): (v: Verdict)
    ensures v.Recommitted? || v.Left? ==> v.at < |s|
    ensures !v.Rejected? ==> TierOf(call.amount).Some?
  {
    if call.isContract || TierOf(call.amount).None? then Rejected
    else JudgeAt(k12, s, call, Find(s, call.invocator, TierOf(call.amount).value))
  }

  function Settle(k12: Hash, s: seq<Slot>, tick: nat, call: Call): seq<Slot> {
    match Judge(k12, s, call)
    case Rejected => s
    case Enrolled =>
      s + [Slot(call.invocator, TierOf(call.amount).value, call.commit, ZERO_BITS, call.amount,
                true, false, false, tick)]
    case Recommitted(i) =>
      s[i := s[i].(preimage := call.preimage, commit := call.commit, locked := call.amount,
                   flagged := true, revealed := true, lastUpdate := tick)]
    case Left(i) =>
      s[i := s[i].(preimage := call.preimage, commit := ZERO_ID, locked := 0,
                   flagged := true, revealed := true, lastUpdate := tick)]
  }

  function PayBack(to: Id, amount: nat): seq<Effect> {
    if amount > 0 then [Transfer(to, amount)] else []
  }

  function CallEffects(k12: Hash, s: seq<Slot>, call: Call): seq<Effect> {
    match Judge(k12, s, call)
    case Rejected => [Transfer(call.invocator, call.amount)]
    case Enrolled => []
    case Recommitted(i) => PayBack(call.invocator, s[i].locked)
    case Left(i) => PayBack(call.invocator, s[i].locked) + [Transfer(call.invocator, call.amount)]
  }

  // ---------------------------------------------------------------- END_TICK

  predicate TiersOk(s: seq<Slot>) { forall i :: 0 <= i < |s| ==> s[i].tier < TIER_COUNT }

  /** Move the last slot into position k and drop the last position. */
  function SwapDelete(s: seq<Slot>, k: nat): (d: seq<Slot>)
    requires k < |s|
    ensures |d| == |s| - 1
  {
    s[k := s[|s| - 1]][..|s| - 1]
  }

  function ClearContributions(s: seq<Slot>): (c: seq<Slot>)
    ensures |c| == |s|
    ensures forall i :: 0 <= i < |s| ==> c[i] == s[i].(contributed := false)
  {
    seq(|s|, i requires 0 <= i < |s| => s[i].(contributed := false))
  }

  predicate AnyReveal(s: seq<Slot>) { exists i :: 0 <= i < |s| && s[i].revealed }

  /** The empty-tick walk over positions i-1 .. 0. */
  function QuietWalk(s: seq<Slot>, i: nat): (slots: seq<Slot>)
    requires i <= |s|
    ensures |slots| <= |s|
    ensures TiersOk(s) ==> TiersOk(slots)
    decreases i
  {
    if i == 0 then s
    else if s[i - 1].flagged then QuietWalk(s[i - 1 := s[i - 1].(flagged := false)], i - 1)
    else QuietWalk(SwapDelete(s, i - 1), i - 1)
  }

  function QuietEffects(s: seq<Slot>, i: nat): seq<Effect>
    requires i <= |s|
    decreases i
  {
    if i == 0 then []
    else if s[i - 1].flagged then QuietEffects(s[i - 1 := s[i - 1].(flagged := false)], i - 1)
    else PayBack(s[i - 1].provider, s[i - 1].locked) + QuietEffects(SwapDelete(s, i - 1), i - 1)
  }

  function TierBit(t: nat): bv16
    requires t < 16
  {
    (1 as bv16) << t
  }

  predicate Marked(mask: bv16, t: nat)
    requires t < 16
  {
    mask & TierBit(t) != 0
  }

  function Mark(mask: bv16, t: nat): bv16
    requires t < 16
  {
    mask | TierBit(t)
  }

  /** The locals of the reveal-tick walk. */
  datatype Round = Round(slots: seq<Slot>, entropy: seq<Bits>, poisoned: bv16, burned: nat, effects: seq<Effect>)
  {
    predicate Ok() { TiersOk(slots) && |entropy| == TIER_COUNT }
  }

  function BurnOff(amount: nat): seq<Effect> {
    if amount > 0 then [Burn(amount)] else []
  }

  predicate Mixes(r: Round, slot: Slot)
    requires slot.tier < TIER_COUNT
  {
    slot.revealed && !Marked(r.poisoned, slot.tier)
  }

  /** A slot that took part, as the walk leaves it. */
  function Settled(slot: Slot, mixed: bool): Slot {
    slot.(flagged := false, revealed := false, contributed := if mixed then true else slot.contributed,
          preimage := if slot.revealed then ZERO_BITS else slot.preimage)
  }

  function Visit(r: Round, k: nat): (v: Round)
    requires r.Ok() && k < |r.slots|
    ensures v.Ok() && |r.slots| - 1 <= |v.slots| <= |r.slots|
  {
    var slot := r.slots[k];
    if slot.flagged then
      var mixed := Mixes(r, slot);
      var entropy :=
        if mixed then r.entropy[slot.tier := Xor(r.entropy[slot.tier], slot.preimage)] else r.entropy;
      var slots := r.slots[k := Settled(slot, mixed)];
      Round(if slot.commit == ZERO_ID then SwapDelete(slots, k) else slots, entropy, r.poisoned,
            r.burned, r.effects)
    else
      Round(SwapDelete(r.slots, k), r.entropy, Mark(r.poisoned, slot.tier),
            r.burned + slot.locked, r.effects + BurnOff(slot.locked))
  }

  function RevealWalk(r: Round, i: nat): (w: Round)
    requires r.Ok() && i <= |r.slots|
    ensures w.Ok() && |w.slots| <= |r.slots|
    decreases i
  {
    if i == 0 then r else RevealWalk(Visit(r, i - 1), i - 1)
  }

  function ZeroTiers(): seq<Bits> { seq(TIER_COUNT, (_: int) => ZERO_BITS) }

  function DropPoisoned(entropy: seq<Bits>, poisoned: bv16): (e: seq<Bits>)
    requires |entropy| == TIER_COUNT
    ensures |e| == TIER_COUNT
  {
    seq(TIER_COUNT, t requires 0 <= t < TIER_COUNT =>
      if Marked(poisoned, t) then ZERO_BITS else entropy[t])
  }

  datatype TickEnd = TickEnd(slots: seq<Slot>, entropy: seq<Bits>, burned: nat, effects: seq<Effect>)

  /** END_TICK on the stream of the tick. */
  function EndTick(s: seq<Slot>): (e: TickEnd)
    requires TiersOk(s)
    ensures |e.entropy| == TIER_COUNT && |e.slots| <= |s| && TiersOk(e.slots)
  {
    var c := ClearContributions(s);
    if AnyReveal(c) then
      var w := RevealWalk(Round(c, ZeroTiers(), 0, 0, []), |c|);
      TickEnd(w.slots, DropPoisoned(w.entropy, w.poisoned), w.burned, w.effects)
    else
      TickEnd(QuietWalk(c, |c|), ZeroTiers(), 0, QuietEffects(c, |c|))
  }

  // ---------------------------------------------------------------- the whole contract

  datatype Contract = Contract(earned: nat, burned: nat, bitFee: nat, streams: seq<seq<Slot>>, entropy: seq<Bits>)
  {
    predicate Ok() {
      && |streams| == 3 && |entropy| == 32
      && forall s :: 0 <= s < 3 ==> |streams[s]| <= STREAM_CAPACITY && TiersOk(streams[s])
    }
  }

  /** The contract as deployed. */
  function Fresh(bitFee: nat): (c: Contract)
    ensures c.Ok()
  {
    Contract(0, 0, bitFee, [[], [], []], seq(32, (_: int) => ZERO_BITS))
  }

  function RevealAndCommit(k12: Hash, c: Contract, tick: nat, call: Call): (n: Contract)
    requires c.Ok()
    ensures n.Ok()
  {
    c.(streams := c.streams[tick % 3 := Settle(k12, c.streams[tick % 3], tick, call)])
  }

  /** END_TICK: the stream of the tick is settled and its ten tier entropies are rewritten. */
  function FinishTick(c: Contract, tick: nat): (n: Contract)
    requires c.Ok()
    ensures n.Ok()
  {
    var e := EndTick(c.streams[tick % 3]);
    var at := tick % 3 * 10;
    Contract(c.earned, c.burned + e.burned, c.bitFee, c.streams[tick % 3 := e.slots],
             c.entropy[..at] + e.entropy + c.entropy[at + 10..])
  }

  function TickEffects(c: Contract, tick: nat): seq<Effect>
    requires c.Ok()
  {
    EndTick(c.streams[tick % 3]).effects
  }

  // ---------------------------------------------------------------- BuyEntropy

  datatype Purchase = Purchase(invocator: Id, amount: nat, tier: nat, bits: nat, trustee: Id)

  /** The stream finalized last, as the contract computes it in 32-bit arithmetic. */
  function SaleStream(tick: nat): (s: nat)
    ensures s < 3
  {
    (tick + 2) % 0x1_0000_0000 % 3
  }

  predicate Vouches(slot: Slot, trustee: Id, tier: nat) {
    slot.provider == trustee && slot.tier == tier && slot.contributed
  }

  predicate TrusteeOk(s: seq<Slot>, trustee: Id, tier: nat) {
    trustee == ZERO_ID || exists i :: 0 <= i < |s| && Vouches(s[i], trustee, tier)
  }

  function Cost(c: Contract, p: Purchase): nat { p.bits * c.bitFee }

  predicate Sells(c: Contract, tick: nat, p: Purchase)
    requires c.Ok()
  {
    && p.tier <= 9 && 1 <= p.bits <= 4096 && Cost(c, p) <= p.amount
    && c.entropy[SaleStream(tick) * 10 + p.tier] != ZERO_BITS
    && TrusteeOk(c.streams[SaleStream(tick)], p.trustee, p.tier)
  }

  function BuyEntropy(c: Contract, tick: nat, p: Purchase): Contract
    requires c.Ok()
  {
    if Sells(c, tick, p) then c.(earned := c.earned + Cost(c, p)) else c
  }

  function PurchaseEffects(c: Contract, tick: nat, p: Purchase): seq<Effect>
    requires c.Ok()
  {
    if Sells(c, tick, p) then PayBack(p.invocator, p.amount - Cost(c, p))
    else [Transfer(p.invocator, p.amount)]
  }

  /** The first n bits, followed by zeroes. */
  function FirstBits(b: Bits, n: nat): Bits {
    seq(4096, i requires 0 <= i < 4096 => i < n && b[i])
  }

  function PurchaseOutput(c: Contract, tick: nat, p: Purchase): Bits
    requires c.Ok()
  {
    if Sells(c, tick, p) then FirstBits(c.entropy[SaleStream(tick) * 10 + p.tier], p.bits) else ZERO_BITS
  }
}
