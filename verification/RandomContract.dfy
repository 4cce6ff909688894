/** The contract in its own form: nine parallel arrays updated in place, search loops, and
    END_TICK's back-to-front swap-delete walk. Every procedure is proved to do to the arrays
    what RandomRules says it does to the slots. */
module RandomContract {
  import opened Basics
  import opened RandomRules
  import opened ProviderStatus

  // ---------------------------------------------------------------- streams as stretches of the arrays

  function Cut(v: seq<Slot>, n: nat, s: nat): (c: seq<Slot>)
    requires |v| == MAX_PROVIDERS && s < 3 && n <= STREAM_CAPACITY
    ensures |c| == n
  {
    v[s * STREAM_CAPACITY..s * STREAM_CAPACITY + n]
  }

  ghost predicate Vacant(v: seq<Slot>, n: nat, s: nat)
    requires |v| == MAX_PROVIDERS && s < 3
  {
    forall k :: s * STREAM_CAPACITY + n <= k < (s + 1) * STREAM_CAPACITY ==> v[k] == EMPTY_SLOT
  }

  lemma CutPut(v: seq<Slot>, n: nat, s: nat, i: nat, x: Slot)
    requires |v| == MAX_PROVIDERS && s < 3 && i < n <= STREAM_CAPACITY && Vacant(v, n, s)
    ensures var w := v[s * STREAM_CAPACITY + i := x];
      && Cut(w, n, s) == Cut(v, n, s)[i := x] && Vacant(w, n, s)
      && forall r: nat, m: nat :: r < 3 && r != s && m <= STREAM_CAPACITY ==>
           Cut(w, m, r) == Cut(v, m, r) && (Vacant(v, m, r) ==> Vacant(w, m, r))
  {
  }

  lemma CutPush(v: seq<Slot>, n: nat, s: nat, x: Slot)
    requires |v| == MAX_PROVIDERS && s < 3 && n < STREAM_CAPACITY && Vacant(v, n, s)
    ensures var w := v[s * STREAM_CAPACITY + n := x];
      && Cut(w, n + 1, s) == Cut(v, n, s) + [x] && Vacant(w, n + 1, s)
      && forall r: nat, m: nat :: r < 3 && r != s && m <= STREAM_CAPACITY ==>
           Cut(w, m, r) == Cut(v, m, r) && (Vacant(v, m, r) ==> Vacant(w, m, r))
  {
  }

  lemma CutPop(v: seq<Slot>, n: nat, s: nat)
    requires |v| == MAX_PROVIDERS && s < 3 && 0 < n <= STREAM_CAPACITY && Vacant(v, n, s)
    ensures var w := v[s * STREAM_CAPACITY + n - 1 := EMPTY_SLOT];
      && Cut(w, n - 1, s) == Cut(v, n, s)[..n - 1] && Vacant(w, n - 1, s)
      && forall r: nat, m: nat :: r < 3 && r != s && m <= STREAM_CAPACITY ==>
           Cut(w, m, r) == Cut(v, m, r) && (Vacant(v, m, r) ==> Vacant(w, m, r))
  {
  }

  lemma CutEvict(v: seq<Slot>, n: nat, s: nat, i: nat)
    requires |v| == MAX_PROVIDERS && s < 3 && i < n <= STREAM_CAPACITY && Vacant(v, n, s)
    ensures var last := s * STREAM_CAPACITY + n - 1;
      var w := v[s * STREAM_CAPACITY + i := v[last]][last := EMPTY_SLOT];
      && Cut(w, n - 1, s) == SwapDelete(Cut(v, n, s), i) && Vacant(w, n - 1, s)
      && forall r: nat, m: nat :: r < 3 && r != s && m <= STREAM_CAPACITY ==>
           Cut(w, m, r) == Cut(v, m, r) && (Vacant(v, m, r) ==> Vacant(w, m, r))
  {
    CutPut(v, n, s, i, v[s * STREAM_CAPACITY + n - 1]);
    CutPop(v[s * STREAM_CAPACITY + i := v[s * STREAM_CAPACITY + n - 1]], n, s);
  }

  class Random {
    const k12: Hash
    var earnedAmount: nat
    var burnedAmount: nat
    var bitFee: nat
    const populations: array<nat>
    const providers: array<Id>
    const collateralTiers: array<nat>
    const commits: array<Id>
    const preimages: array<Bits>
    const revealOrCommitFlags: array<bool>
    const entropy: array<Bits>
    const lockedCollateralAmounts: array<nat>
    const revealedThisTickFlags: array<bool>
    const contributedToEntropyFlags: array<bool>
    const lastUpdateTick: array<nat>

    ghost const Records: set<object> :=
      {providers, collateralTiers, commits, preimages, revealOrCommitFlags, lockedCollateralAmounts,
       revealedThisTickFlags, contributedToEntropyFlags, lastUpdateTick}

    /** The lengths, and no two arrays are the same object. */
    ghost predicate Shape() {
      && populations.Length == 4 && entropy.Length == 32
      && providers.Length == collateralTiers.Length == commits.Length == preimages.Length == MAX_PROVIDERS
      && revealOrCommitFlags.Length == lockedCollateralAmounts.Length == revealedThisTickFlags.Length == MAX_PROVIDERS
      && contributedToEntropyFlags.Length == lastUpdateTick.Length == MAX_PROVIDERS
      && providers != collateralTiers && providers != commits && providers != lockedCollateralAmounts
      && providers != lastUpdateTick && providers != populations
      && collateralTiers != commits && collateralTiers != lockedCollateralAmounts
      && collateralTiers != lastUpdateTick && collateralTiers != populations
      && commits != lockedCollateralAmounts && commits != lastUpdateTick && commits != populations
      && lockedCollateralAmounts != lastUpdateTick && lockedCollateralAmounts != populations
      && lastUpdateTick != populations
      && revealOrCommitFlags != revealedThisTickFlags && revealOrCommitFlags != contributedToEntropyFlags
      && revealedThisTickFlags != contributedToEntropyFlags
      && preimages != entropy
      && this !in Records && populations !in Records && entropy !in Records
    }

    ghost function SlotAt(k: nat): Slot
      requires Shape() && k < MAX_PROVIDERS
      reads Records
    {
      Slot(providers[k], collateralTiers[k], commits[k], preimages[k], lockedCollateralAmounts[k],
           revealOrCommitFlags[k], revealedThisTickFlags[k], contributedToEntropyFlags[k], lastUpdateTick[k])
    }

    /** All positions of the nine arrays, as records. */
    ghost function View(): (v: seq<Slot>)
      requires Shape()
      reads Records
      ensures |v| == MAX_PROVIDERS
    {
      seq(MAX_PROVIDERS, k requires 0 <= k < MAX_PROVIDERS reads Records => SlotAt(k))
    }

    /** Populations fit, and every vacated position is zero in all nine arrays. */
    ghost predicate Packed()
      reads populations, Records
    {
      && Shape()
      && forall s: nat :: s < 3 ==> populations[s] <= STREAM_CAPACITY && Vacant(View(), populations[s], s)
    }

    ghost function Stream(s: nat): seq<Slot>
      requires Packed() && s < 3
      reads populations, Records
    {
      Cut(View(), populations[s], s)
    }

    ghost predicate Valid()
      reads populations, Records
    {
      && Packed()
      && forall s: nat :: s < 3 ==> TiersOk(Stream(s))
    }

    ghost function Abs(): (c: Contract)
      requires Valid()
      reads this, populations, Records, entropy
      ensures c.Ok()
    {
      Contract(earnedAmount, burnedAmount, bitFee, [Stream(0), Stream(1), Stream(2)], entropy[..])
    }

    // -------------------------------------------------------------- records

    method CopyRecord(from: nat, to: nat)
      requires Shape() && from < MAX_PROVIDERS && to < MAX_PROVIDERS
      modifies Records
      ensures View() == old(View()[to := View()[from]])
    {
      providers[to] := providers[from];
      collateralTiers[to] := collateralTiers[from];
      commits[to] := commits[from];
      preimages[to] := preimages[from];
      lockedCollateralAmounts[to] := lockedCollateralAmounts[from];
      revealOrCommitFlags[to] := revealOrCommitFlags[from];
      revealedThisTickFlags[to] := revealedThisTickFlags[from];
      contributedToEntropyFlags[to] := contributedToEntropyFlags[from];
      lastUpdateTick[to] := lastUpdateTick[from];
      assert SlotAt(to) == old(SlotAt(from));
      assert forall k: nat :: k < MAX_PROVIDERS && k != to ==> SlotAt(k) == old(SlotAt(k));
    }

    method ZeroRecord(k: nat)
      requires Shape() && k < MAX_PROVIDERS
      modifies Records
      ensures View() == old(View()[k := EMPTY_SLOT])
    {
      providers[k] := ZERO_ID;
      collateralTiers[k] := 0;
      commits[k] := ZERO_ID;
      preimages[k] := ZERO_BITS;
      lockedCollateralAmounts[k] := 0;
      revealOrCommitFlags[k] := false;
      revealedThisTickFlags[k] := false;
      contributedToEntropyFlags[k] := false;
      lastUpdateTick[k] := 0;
      assert SlotAt(k) == EMPTY_SLOT;
      assert forall j: nat :: j < MAX_PROVIDERS && j != k ==> SlotAt(j) == old(SlotAt(j));
    }

    method SwapOut(index: nat, lastIndex: nat)
      requires Shape() && index < MAX_PROVIDERS && lastIndex < MAX_PROVIDERS
      modifies Records
      ensures View() == old(View())[index := old(View())[lastIndex]][lastIndex := EMPTY_SLOT]
    {
      hide View, SlotAt;
      ghost var v := View();
      if index != lastIndex {
        CopyRecord(lastIndex, index);
      }
      assert View() == v[index := v[lastIndex]];
      ZeroRecord(lastIndex);
    }

    /** Move the last record of the stream into position i, zero the last one, shrink. */
    method Evict(stream: nat, i: nat)
      requires Packed() && stream < 3 && i < populations[stream]
      modifies Records, populations
      ensures Packed()
      ensures Stream(stream) == SwapDelete(old(Stream(stream)), i)
      ensures forall s: nat :: s < 3 && s != stream ==> Stream(s) == old(Stream(s))
    {
      ghost var v, n := View(), populations[stream];
      SwapOut(stream * STREAM_CAPACITY + i, stream * STREAM_CAPACITY + populations[stream] - 1);
      ghost var w := View();
      populations[stream] := populations[stream] - 1;
      assert View() == w;
      hide View, SlotAt;
      CutEvict(v, n, stream, i);
    }

    // -------------------------------------------------------------- RevealAndCommit

    /** The search loop of every branch: the first slot with this key, or the population. */
    method Search(stream: nat, p: Id, tier: nat) returns (i: nat)
      requires Packed() && stream < 3
      ensures i == Find(Stream(stream), p, tier)
    {
      i := 0;
      while i < populations[stream]
        invariant i <= populations[stream]
        invariant forall j :: 0 <= j < i ==> !Stream(stream)[j].HasKey(p, tier)
      {
        var k := stream * STREAM_CAPACITY + i;
        assert Stream(stream)[i] == SlotAt(k);
        if p == providers[k] && tier == collateralTiers[k] {
          return;
        }
        i := i + 1;
      }
    }

    /** Record an accepted reveal, with the next commit and the stake that now backs it. */
    method RecordReveal(stream: nat, i: nat, preimage: Bits, commit: Id, locked: nat, tick: nat)
      requires Packed() && stream < 3 && i < populations[stream]
      modifies Records
      ensures Packed()
      ensures Stream(stream) == old(Stream(stream)[i := Stream(stream)[i].(preimage := preimage, commit := commit,
                locked := locked, flagged := true, revealed := true, lastUpdate := tick)])
      ensures forall s: nat :: s < 3 && s != stream ==> Stream(s) == old(Stream(s))
    {
      var index := stream * STREAM_CAPACITY + i;
      ghost var v := View();
      ghost var slot := Stream(stream)[i].(preimage := preimage, commit := commit, locked := locked,
                                           flagged := true, revealed := true, lastUpdate := tick);
      preimages[index] := preimage;
      lockedCollateralAmounts[index] := locked;
      commits[index] := commit;
      revealOrCommitFlags[index] := true;
      revealedThisTickFlags[index] := true;
      lastUpdateTick[index] := tick;
      assert View() == v[index := slot];
      CutPut(v, populations[stream], stream, i, slot);
    }

    /** Write a first commit; the contribution mark is not touched. */
    method WriteFirstCommit(index: nat, call: Call, tier: nat, tick: nat)
      requires Shape() && index < MAX_PROVIDERS && !SlotAt(index).contributed
      modifies Records
      ensures View() == old(View())[index :=
                Slot(call.invocator, tier, call.commit, ZERO_BITS, call.amount, true, false, false, tick)]
    {
      providers[index] := call.invocator;
      collateralTiers[index] := tier;
      commits[index] := call.commit;
      preimages[index] := ZERO_BITS;
      lockedCollateralAmounts[index] := call.amount;
      revealOrCommitFlags[index] := true;
      revealedThisTickFlags[index] := false;
      lastUpdateTick[index] := tick;
      assert forall j: nat :: j < MAX_PROVIDERS && j != index ==> SlotAt(j) == old(SlotAt(j));
    }

    method Enroll(stream: nat, call: Call, tier: nat, tick: nat)
      requires Packed() && stream < 3 && populations[stream] < STREAM_CAPACITY
      modifies Records, populations
      ensures Packed()
      ensures Stream(stream) == old(Stream(stream)) +
                [Slot(call.invocator, tier, call.commit, ZERO_BITS, call.amount, true, false, false, tick)]
      ensures forall s: nat :: s < 3 && s != stream ==> Stream(s) == old(Stream(s))
    {
      var i := populations[stream];
      var index := stream * STREAM_CAPACITY + i;
      ghost var v := View();
      assert SlotAt(index) == v[index] == EMPTY_SLOT;
      WriteFirstCommit(index, call, tier, tick);
      ghost var w := View();
      CutPush(v, i, stream, w[index]);
      populations[stream] := i + 1;
      assert View() == w;
    }

    /** The checks of the procedure, in its order. */
    method Decide(stream: nat, call: Call) returns (v: Verdict)
      requires Packed() && stream < 3
      ensures v == Judge(k12, Stream(stream), call)
    {
      if call.isContract || TierOf(call.amount).None? {
        return Rejected;
      }
      var i := Search(stream, call.invocator, TierOf(call.amount).value);
      var index := stream * STREAM_CAPACITY + i;
      assert i < populations[stream] ==> Stream(stream)[i] == SlotAt(index);
      if call.commit == ZERO_ID {
        if call.preimage == ZERO_BITS || i == populations[stream] || preimages[index] != ZERO_BITS
           || k12(call.preimage) != commits[index] || revealOrCommitFlags[index] {
          return Rejected;
        }
        return Left(i);
      }
      if call.preimage != ZERO_BITS {
        if i == populations[stream] || preimages[index] != ZERO_BITS
           || k12(call.preimage) != commits[index] || revealOrCommitFlags[index] {
          return Rejected;
        }
        return Recommitted(i);
      }
      if i < populations[stream] || i == STREAM_CAPACITY {
        return Rejected;
      }
      return Enrolled;
    }

    method SettleCall(stream: nat, tick: nat, call: Call) returns (effects: seq<Effect>)
      requires Packed() && stream < 3
      modifies Records, populations
      ensures Packed()
      ensures Stream(stream) == Settle(k12, old(Stream(stream)), tick, call)
      ensures forall s: nat :: s < 3 && s != stream ==> Stream(s) == old(Stream(s))
      ensures effects == CallEffects(k12, old(Stream(stream)), call)
    {
      var v := Decide(stream, call);
      match v
      case Rejected =>
        effects := [Transfer(call.invocator, call.amount)];
      case Enrolled =>
        effects := [];
        Enroll(stream, call, TierOf(call.amount).value, tick);
      case Recommitted(i) =>
        effects := PayBackStake(stream, i, call.invocator);
        RecordReveal(stream, i, call.preimage, call.commit, call.amount, tick);
      case Left(i) =>
        effects := PayBackStake(stream, i, call.invocator);
        effects := effects + [Transfer(call.invocator, call.amount)];
        RecordReveal(stream, i, call.preimage, ZERO_ID, 0, tick);
    }

    method PayBackStake(stream: nat, i: nat, to: Id) returns (effects: seq<Effect>)
      requires Packed() && stream < 3 && i < populations[stream]
      ensures effects == PayBack(to, Stream(stream)[i].locked)
    {
      assert Stream(stream)[i] == SlotAt(stream * STREAM_CAPACITY + i);
      effects := PayBack(to, lockedCollateralAmounts[stream * STREAM_CAPACITY + i]);
    }

    method RevealAndCommit(tick: nat, call: Call) returns (effects: seq<Effect>)
      requires Valid()
      modifies Records, populations
      ensures Valid()
      ensures Abs() == RandomRules.RevealAndCommit(k12, old(Abs()), tick, call)
      ensures effects == CallEffects(k12, old(Stream(tick % 3)), call)
    {
      ghost var c := Abs();
      effects := SettleCall(tick % 3, tick, call);
      AbsFrom(RandomRules.RevealAndCommit(k12, c, tick, call));
    }

    /** The arrays show the contract c as soon as its streams and its entropies match. */
    lemma AbsFrom(c: Contract)
      requires Packed() && c.Ok()
      requires Stream(0) == c.streams[0] && Stream(1) == c.streams[1] && Stream(2) == c.streams[2]
      requires c.earned == earnedAmount && c.burned == burnedAmount && c.bitFee == bitFee && c.entropy == entropy[..]
      ensures Valid() && Abs() == c
    {
    }

    // -------------------------------------------------------------- END_TICK

    ghost function Tiers(stream: nat): (t: seq<Bits>)
      requires Shape() && stream < 3
      reads entropy
      ensures |t| == TIER_COUNT
    {
      entropy[stream * 10..stream * 10 + 10]
    }

    /** Only the ten entropies of this stream differ from e. */
    ghost predicate OthersKept(stream: nat, e: seq<Bits>)
      requires Shape() && stream < 3 && |e| == 32
      reads entropy
    {
      entropy[..stream * 10] == e[..stream * 10] && entropy[stream * 10 + 10..] == e[stream * 10 + 10..]
    }

    method ZeroEntropy(stream: nat)
      requires Shape() && stream < 3
      modifies entropy
      ensures Tiers(stream) == ZeroTiers() && OthersKept(stream, old(entropy[..]))
    {
      var i := 0;
      while i < 10
        invariant i <= 10
        invariant forall k :: stream * 10 <= k < stream * 10 + i ==> entropy[k] == ZERO_BITS
        invariant OthersKept(stream, old(entropy[..]))
      {
        entropy[stream * 10 + i] := ZERO_BITS;
        i := i + 1;
      }
    }

    method ClearContributed(stream: nat)
      requires Packed() && stream < 3
      modifies contributedToEntropyFlags
      ensures Packed()
      ensures Stream(stream) == ClearContributions(old(Stream(stream)))
      ensures forall s: nat :: s < 3 && s != stream ==> Stream(s) == old(Stream(s))
    {
      var i := 0;
      var base := stream * STREAM_CAPACITY;
      while i < populations[stream]
        invariant i <= populations[stream]
        invariant forall k :: base <= k < base + i ==> !contributedToEntropyFlags[k]
        invariant forall k :: 0 <= k < MAX_PROVIDERS && !(base <= k < base + i) ==>
          contributedToEntropyFlags[k] == old(contributedToEntropyFlags[k])
      {
        contributedToEntropyFlags[base + i] := false;
        i := i + 1;
      }
      assert forall k: nat :: k < MAX_PROVIDERS && !(base <= k < base + i) ==> View()[k] == old(View())[k];
      assert forall k: nat :: base <= k < base + i ==> View()[k] == old(View())[k].(contributed := false);
      forall s: nat | s < 3 && s != stream ensures Stream(s) == old(Stream(s)) && Vacant(View(), populations[s], s) {
        assert Stream(s) == old(Stream(s));
      }
    }

    method SeesReveal(stream: nat) returns (yes: bool)
      requires Packed() && stream < 3
      ensures yes == AnyReveal(Stream(stream))
    {
      var i := 0;
      while i < populations[stream]
        invariant i <= populations[stream]
        invariant forall j :: 0 <= j < i ==> !Stream(stream)[j].revealed
      {
        assert Stream(stream)[i] == SlotAt(stream * STREAM_CAPACITY + i);
        if revealedThisTickFlags[stream * STREAM_CAPACITY + i] {
          return true;
        }
        i := i + 1;
      }
      return false;
    }

    method QuietVisit(stream: nat, i: nat) returns (paid: seq<Effect>)
      requires Packed() && stream < 3 && i < populations[stream]
      modifies Records, populations
      ensures Packed()
      ensures i <= |Stream(stream)|
      ensures QuietWalk(Stream(stream), i) == QuietWalk(old(Stream(stream)), i + 1)
      ensures paid + QuietEffects(Stream(stream), i) == QuietEffects(old(Stream(stream)), i + 1)
      ensures forall s: nat :: s < 3 && s != stream ==> Stream(s) == old(Stream(s))
    {
      var index := stream * STREAM_CAPACITY + i;
      assert Stream(stream)[i] == SlotAt(index);
      if revealOrCommitFlags[index] {
        ghost var v := View();
        ghost var slot := Stream(stream)[i].(flagged := false);
        revealOrCommitFlags[index] := false;
        assert View() == v[index := slot];
        CutPut(v, populations[stream], stream, i, slot);
        paid := [];
      } else {
        paid := PayBack(providers[index], lockedCollateralAmounts[index]);
        Evict(stream, i);
      }
    }

    method QuietTick(stream: nat) returns (effects: seq<Effect>)
      requires Packed() && stream < 3
      modifies Records, populations
      ensures Packed()
      ensures Stream(stream) == QuietWalk(old(Stream(stream)), |old(Stream(stream))|)
      ensures effects == QuietEffects(old(Stream(stream)), |old(Stream(stream))|)
      ensures forall s: nat :: s < 3 && s != stream ==> Stream(s) == old(Stream(s))
    {
      hide Vacant, Cut, View, SlotAt;
      var i := populations[stream];
      ghost var start, n := Stream(stream), i as nat;
      effects := [];
      while i > 0
        invariant Packed() && i <= populations[stream]
        invariant QuietWalk(Stream(stream), i) == QuietWalk(start, n)
        invariant effects + QuietEffects(Stream(stream), i) == QuietEffects(start, n)
        invariant forall s: nat :: s < 3 && s != stream ==> Stream(s) == old(Stream(s))
      {
        i := i - 1;
        var paid := QuietVisit(stream, i);
        effects := effects + paid;
      }
    }

    /** The bit loop: XOR a reveal into an entropy value, position by position. */
    method XorInto(entropyOfTier: Bits, preimage: Bits) returns (mixed: Bits)
      ensures mixed == Xor(entropyOfTier, preimage)
      ensures forall k :: 0 <= k < 4096 ==> (mixed[k] <==> entropyOfTier[k] != preimage[k])
    {
      mixed := entropyOfTier;
      var j := 0;
      while j < 4096
        invariant 0 <= j <= 4096
        invariant forall k :: 0 <= k < j ==> mixed[k] == (entropyOfTier[k] != preimage[k])
        invariant forall k :: j <= k < 4096 ==> mixed[k] == entropyOfTier[k]
      {
        mixed := mixed[j := mixed[j] != preimage[j]];
        j := j + 1;
      }
    }

    /** The walk's locals and the stream they belong to, as one value. */
    ghost function Now(stream: nat, poisoned: bv16, burned: nat, effects: seq<Effect>): (r: Round)
      requires Packed() && stream < 3
      reads populations, Records, entropy
    {
      Round(Stream(stream), Tiers(stream), poisoned, burned, effects)
    }

    /** Mix a participant's reveal in unless its tier is poisoned, and clear the slot. */
    method SettleParticipant(stream: nat, i: nat, poisoned: bv16)
      requires Packed() && stream < 3 && i < populations[stream] && TiersOk(Stream(stream))
      modifies Records, entropy
      ensures Packed()
      ensures var slot := old(Stream(stream)[i]); var mixed := slot.revealed && !Marked(poisoned, slot.tier);
        && Stream(stream) == old(Stream(stream))[i := Settled(slot, mixed)]
        && Tiers(stream) == (if mixed then old(Tiers(stream))[slot.tier := Xor(old(Tiers(stream))[slot.tier], slot.preimage)]
                             else old(Tiers(stream)))
      ensures OthersKept(stream, old(entropy[..]))
      ensures forall s: nat :: s < 3 && s != stream ==> Stream(s) == old(Stream(s))
    {
      var index := stream * STREAM_CAPACITY + i;
      ghost var v := View();
      ghost var slot := Stream(stream)[i];
      assert slot == SlotAt(index);
      var tier := collateralTiers[index];
      ghost var mixed := slot.revealed && !Marked(poisoned, tier);
      if revealedThisTickFlags[index] {
        if !Marked(poisoned, tier) {
          var mix := XorInto(entropy[stream * 10 + tier], preimages[index]);
          entropy[stream * 10 + tier] := mix;
          contributedToEntropyFlags[index] := true;
        }
        preimages[index] := ZERO_BITS;
      }
      revealOrCommitFlags[index] := false;
      revealedThisTickFlags[index] := false;
      assert View() == v[index := Settled(slot, mixed)];
      CutPut(v, populations[stream], stream, i, Settled(slot, mixed));
    }

    method VisitParticipant(stream: nat, i: nat, poisoned: bv16)
      requires Packed() && stream < 3 && i < populations[stream] && TiersOk(Stream(stream))
      requires Stream(stream)[i].flagged
      modifies Records, populations, entropy
      ensures Packed() && i <= |Stream(stream)|
      ensures var v := Visit(old(Now(stream, poisoned, 0, [])), i); Stream(stream) == v.slots && Tiers(stream) == v.entropy
      ensures OthersKept(stream, old(entropy[..]))
      ensures forall s: nat :: s < 3 && s != stream ==> Stream(s) == old(Stream(s))
    {
      assert Stream(stream)[i] == SlotAt(stream * STREAM_CAPACITY + i);
      var leaves := commits[stream * STREAM_CAPACITY + i] == ZERO_ID;
      hide Vacant, Cut, View, SlotAt;
      SettleParticipant(stream, i, poisoned);
      if leaves {
        Evict(stream, i);
      }
    }

    method VisitNoShow(stream: nat, i: nat, poisoned: bv16, effects: seq<Effect>)
      returns (poisoned': bv16, effects': seq<Effect>, lockedAmount: nat)
      requires Packed() && stream < 3 && i < populations[stream] && TiersOk(Stream(stream))
      requires !Stream(stream)[i].flagged
      modifies this`burnedAmount, Records, populations
      ensures Packed() && i <= |Stream(stream)|
      ensures poisoned' == Mark(poisoned, old(Stream(stream)[i].tier))
      ensures lockedAmount == old(Stream(stream)[i].locked) && effects' == effects + BurnOff(lockedAmount)
      ensures Stream(stream) == SwapDelete(old(Stream(stream)), i)
      ensures burnedAmount == old(burnedAmount) + lockedAmount
      ensures forall s: nat :: s < 3 && s != stream ==> Stream(s) == old(Stream(s))
    {
      var index := stream * STREAM_CAPACITY + i;
      assert Stream(stream)[i] == SlotAt(index);
      lockedAmount := lockedCollateralAmounts[index];
      effects' := effects;
      if lockedAmount > 0 {
        effects' := effects + [Burn(lockedAmount)];
        burnedAmount := burnedAmount + lockedAmount;
      }
      poisoned' := Mark(poisoned, collateralTiers[index]);
      hide Vacant, Cut, View, SlotAt;
      Evict(stream, i);
    }

    method RevealVisit(stream: nat, i: nat, poisoned: bv16, effects: seq<Effect>, ghost burned: nat)
      returns (poisoned': bv16, effects': seq<Effect>, ghost burned': nat)
      requires Packed() && stream < 3 && i < populations[stream] && TiersOk(Stream(stream))
      modifies this`burnedAmount, Records, populations, entropy
      ensures Packed() && i <= |Stream(stream)| && TiersOk(Stream(stream))
      ensures RevealWalk(Now(stream, poisoned', burned', effects'), i)
           == RevealWalk(old(Now(stream, poisoned, burned, effects)), i + 1)
      ensures burnedAmount - burned' == old(burnedAmount) - burned
      ensures OthersKept(stream, old(entropy[..]))
      ensures forall s: nat :: s < 3 && s != stream ==> Stream(s) == old(Stream(s))
    {
      ghost var r := Now(stream, poisoned, burned, effects);
      assert Stream(stream)[i] == SlotAt(stream * STREAM_CAPACITY + i);
      poisoned', effects', burned' := poisoned, effects, burned;
      var flagged := revealOrCommitFlags[stream * STREAM_CAPACITY + i];
      hide Vacant, Cut, View, SlotAt;
      if flagged {
        VisitParticipant(stream, i, poisoned);
      } else {
        var lockedAmount;
        poisoned', effects', lockedAmount := VisitNoShow(stream, i, poisoned, effects);
        burned' := burned + lockedAmount;
      }
      assert Now(stream, poisoned', burned', effects') == Visit(r, i);
    }

    method ZeroPoisoned(stream: nat, poisoned: bv16)
      requires Shape() && stream < 3
      modifies entropy
      ensures Tiers(stream) == DropPoisoned(old(Tiers(stream)), poisoned) && OthersKept(stream, old(entropy[..]))
    {
      var t := 0;
      while t < 10
        invariant 0 <= t <= 10
        invariant forall k :: stream * 10 <= k < stream * 10 + t ==>
          entropy[k] == if Marked(poisoned, k - stream * 10) then ZERO_BITS else old(entropy[k])
        invariant forall k :: stream * 10 + t <= k < stream * 10 + 10 ==> entropy[k] == old(entropy[k])
        invariant OthersKept(stream, old(entropy[..]))
      {
        if Marked(poisoned, t) {
          entropy[stream * 10 + t] := ZERO_BITS;
        }
        t := t + 1;
      }
      assert forall t: nat :: t < 10 ==> Tiers(stream)[t] == entropy[stream * 10 + t];
    }

    /** The back-to-front walk of a tick with reveals. */
    method RevealTick(stream: nat) returns (effects: seq<Effect>, ghost walked: Round)
      requires Packed() && stream < 3 && TiersOk(Stream(stream))
      modifies this`burnedAmount, Records, populations, entropy
      ensures Packed()
      ensures walked == RevealWalk(old(Now(stream, 0, 0, [])), |old(Stream(stream))|)
      ensures Stream(stream) == walked.slots && effects == walked.effects
      ensures Tiers(stream) == DropPoisoned(walked.entropy, walked.poisoned)
      ensures burnedAmount == old(burnedAmount) + walked.burned
      ensures OthersKept(stream, old(entropy[..]))
      ensures forall s: nat :: s < 3 && s != stream ==> Stream(s) == old(Stream(s))
    {
      hide Vacant, Cut, View, SlotAt;
      var i: nat := populations[stream];
      ghost var start, n := Now(stream, 0, 0, []), i as nat;
      var poisoned: bv16 := 0;
      ghost var burned: nat := 0;
      effects := [];
      while i > 0
        invariant Packed() && i <= |Stream(stream)| && TiersOk(Stream(stream))
        invariant RevealWalk(Now(stream, poisoned, burned, effects), i) == RevealWalk(start, n)
        invariant burnedAmount - burned == old(burnedAmount)
        invariant OthersKept(stream, old(entropy[..]))
        invariant forall s: nat :: s < 3 && s != stream ==> Stream(s) == old(Stream(s))
      {
        i := i - 1;
        poisoned, effects, burned := RevealVisit(stream, i, poisoned, effects, burned);
      }
      walked := Now(stream, poisoned, burned, effects);
      ZeroPoisoned(stream, poisoned);
    }

    method SettleStream(stream: nat) returns (effects: seq<Effect>)
      requires Packed() && stream < 3 && TiersOk(Stream(stream))
      modifies this`burnedAmount, Records, populations, entropy
      ensures Packed()
      ensures var e := RandomRules.EndTick(old(Stream(stream)));
        && Stream(stream) == e.slots && Tiers(stream) == e.entropy && effects == e.effects
        && burnedAmount == old(burnedAmount) + e.burned
      ensures OthersKept(stream, old(entropy[..]))
      ensures forall s: nat :: s < 3 && s != stream ==> Stream(s) == old(Stream(s))
    {
      hide Vacant, Cut, View, SlotAt;
      ZeroEntropy(stream);
      ClearContributed(stream);
      var anyReveal := SeesReveal(stream);
      if anyReveal {
        ghost var walked;
        effects, walked := RevealTick(stream);
      } else {
        effects := QuietTick(stream);
      }
    }

    method EndTick(tick: nat) returns (effects: seq<Effect>)
      requires Valid()
      modifies this`burnedAmount, Records, populations, entropy
      ensures Valid()
      ensures Abs() == FinishTick(old(Abs()), tick)
      ensures effects == TickEffects(old(Abs()), tick)
    {
      hide Vacant, Cut, View, SlotAt, RandomRules.EndTick;
      ghost var c := Abs();
      effects := SettleStream(tick % 3);
      EntropyParts(c.entropy, entropy[..], tick % 3, RandomRules.EndTick(c.streams[tick % 3]).entropy);
      AbsFrom(FinishTick(c, tick));
    }

    lemma EntropyParts(before: seq<Bits>, after: seq<Bits>, stream: nat, tiers: seq<Bits>)
      requires |before| == |after| == 32 && stream < 3 && |tiers| == 10
      requires after[..stream * 10] == before[..stream * 10]
      requires after[stream * 10 + 10..] == before[stream * 10 + 10..]
      requires after[stream * 10..stream * 10 + 10] == tiers
      ensures after == before[..stream * 10] + tiers + before[stream * 10 + 10..]
    {
      assert after == after[..stream * 10] + after[stream * 10..stream * 10 + 10] + after[stream * 10 + 10..];
    }

    // -------------------------------------------------------------- BuyEntropy

    /** The trustee search of BuyEntropy. */
    method Vouched(stream: nat, trustee: Id, tier: nat) returns (yes: bool)
      requires Packed() && stream < 3
      ensures yes == TrusteeOk(Stream(stream), trustee, tier)
    {
      yes := trustee == ZERO_ID;
      if !yes {
        var i := 0;
        while i < populations[stream]
          invariant i <= populations[stream]
          invariant forall j :: 0 <= j < i ==> !Vouches(Stream(stream)[j], trustee, tier)
        {
          var index := stream * STREAM_CAPACITY + i;
          assert Stream(stream)[i] == SlotAt(index);
          if trustee == providers[index] && tier == collateralTiers[index] && contributedToEntropyFlags[index] {
            assert Vouches(Stream(stream)[i], trustee, tier);
            return true;
          }
          i := i + 1;
        }
      }
    }

    method CopyBits(source: Bits, n: nat) returns (output: Bits)
      requires n <= 4096
      ensures output == FirstBits(source, n)
      ensures forall k :: 0 <= k < 4096 ==> (output[k] <==> k < n && source[k])
    {
      output := ZERO_BITS;
      var i := 0;
      while i < n
        invariant 0 <= i <= n
        invariant forall k :: 0 <= k < 4096 ==> output[k] == (k < i && source[k])
      {
        output := output[i := source[i]];
        i := i + 1;
      }
    }

    method BuyEntropy(tick: nat, p: Purchase) returns (effects: seq<Effect>, output: Bits)
      requires Valid()
      modifies this`earnedAmount
      ensures Valid()
      ensures Abs() == RandomRules.BuyEntropy(old(Abs()), tick, p)
      ensures effects == PurchaseEffects(old(Abs()), tick, p)
      ensures output == PurchaseOutput(old(Abs()), tick, p)
    {
      hide Vacant, Cut, View, SlotAt;
      effects := [Transfer(p.invocator, p.amount)];
      output := ZERO_BITS;
      var entropyCost := p.bits * bitFee;
      if p.tier <= 9 && 1 <= p.bits <= 4096 && p.amount >= entropyCost {
        var stream := SaleStream(tick);
        var value := entropy[stream * 10 + p.tier];
        var trusteeOk := Vouched(stream, p.trustee, p.tier);
        if value != ZERO_BITS && trusteeOk {
          earnedAmount := earnedAmount + entropyCost;
          effects := PayBack(p.invocator, p.amount - entropyCost);
          output := CopyBits(value, p.bits);
        }
      }
    }

    // -------------------------------------------------------------- GetProviderStatus

    lemma StreamAt(s: nat, i: nat)
      requires Packed() && s < 3 && i < populations[s]
      ensures |Stream(s)| == populations[s] && s * STREAM_CAPACITY + i < MAX_PROVIDERS
      ensures Stream(s)[i] == SlotAt(s * STREAM_CAPACITY + i)
    {
      hide Vacant;
    }

    method ScanStream(s: nat, p: Id, before: Report, ghost list: seq<Entry>) returns (output: Report)
      requires Packed() && s < 3 && before == ReportOf(list)
      ensures output == ReportOf(list + Holdings(Stream(s), s, |Stream(s)|, p))
    {
      hide ReportOf, View, Stream, Vacant, Add, SlotAt;
      output := before;
      var i: nat := 0;
      ghost var all := Stream(s);
      assert |all| == populations[s] by { StreamLength(s); }
      assert list + Holdings(all, s, 0, p) == list;
      while i < populations[s]
        invariant i <= |all|
        invariant output == ReportOf(list + Holdings(all, s, i, p))
      {
        var index := s * STREAM_CAPACITY + i;
        StreamAt(s, i);
        ghost var now := list + Holdings(all, s, i, p);
        var e := EntryAt(index, s);
        assert e == EntryOf(all[i], s) && (providers[index] == p <==> all[i].provider == p) by { FieldsAt(index, s); }
        HoldingsNext(list, all, s, i, p);
        if providers[index] == p {
          ReportGrows(now, e);
          output := Add(output, e);
        }
        i := i + 1;
      }
    }

    static lemma HoldingsNext(list: seq<Entry>, all: seq<Slot>, s: nat, i: nat, p: Id)
      requires i < |all|
      ensures var now := list + Holdings(all, s, i, p);
        list + Holdings(all, s, i + 1, p) == if all[i].provider == p then now + [EntryOf(all[i], s)] else now
    {
    }

    lemma StreamLength(s: nat)
      requires Packed() && s < 3
      ensures |Stream(s)| == populations[s]
    {
    }

    /** The entry reported for a position. */
    function EntryAt(index: nat, s: nat): Entry
      requires Shape() && index < MAX_PROVIDERS
      reads Records
    {
      Entry(s, collateralTiers[index], lockedCollateralAmounts[index], contributedToEntropyFlags[index], lastUpdateTick[index])
    }

    lemma FieldsAt(index: nat, s: nat)
      requires Shape() && index < MAX_PROVIDERS
      ensures EntryAt(index, s) == EntryOf(SlotAt(index), s) && providers[index] == SlotAt(index).provider
    {
    }

    method GetProviderStatus(p: Id) returns (output: Report)
      requires Valid()
      ensures output == ReportOf(AllHoldings(Abs(), p))
    {
      hide Vacant, Cut, View, SlotAt, ReportOf;
      ghost var list: seq<Entry> := [];
      output := Report(0, seq(32, _ => 0), seq(32, _ => 0), seq(32, _ => 0), seq(32, _ => 0), seq(32, _ => 0));
      EmptyReport(output);
      var s: nat := 0;
      while s < 3
        invariant s <= 3 && list == HoldingsUpTo(Abs(), s, p)
        invariant output == ReportOf(list)
      {
        output := ScanStream(s, p, output, list);
        list := list + Holdings(Stream(s), s, |Stream(s)|, p);
        s := s + 1;
      }
    }

    lemma EmptyReport(r: Report)
      requires r == Report(0, seq(32, _ => 0), seq(32, _ => 0), seq(32, _ => 0), seq(32, _ => 0), seq(32, _ => 0))
      ensures r == ReportOf([])
    {
      assert r.streams == ReportOf([]).streams;
    }

    lemma AllZero()
      requires Shape() && earnedAmount == burnedAmount == 0
      requires forall s :: 0 <= s < 4 ==> populations[s] == 0
      requires forall t :: 0 <= t < 32 ==> entropy[t] == ZERO_BITS
      requires forall k: nat :: k < MAX_PROVIDERS ==> SlotAt(k) == EMPTY_SLOT
      ensures Valid() && Abs() == Fresh(bitFee)
    {
      assert forall k: nat :: k < MAX_PROVIDERS ==> View()[k] == EMPTY_SLOT;
      assert Stream(0) == [] && Stream(1) == [] && Stream(2) == [];
    }

    constructor (k12: Hash, bitFee: nat)
      ensures Valid() && Abs() == Fresh(bitFee)
      ensures this.k12 == k12 && fresh(Records) && fresh(populations) && fresh(entropy)
    {
      hide View, Vacant, Cut, Stream, Packed, Valid, Abs, RandomRules.Fresh;
      this.k12 := k12;
      this.bitFee := bitFee;
      earnedAmount, burnedAmount := 0, 0;
      populations := new nat[4](_ => 0);
      entropy := new Bits[32](_ => ZERO_BITS);
      providers := new Id[MAX_PROVIDERS](_ => ZERO_ID);
      collateralTiers := new nat[MAX_PROVIDERS](_ => 0);
      commits := new Id[MAX_PROVIDERS](_ => ZERO_ID);
      preimages := new Bits[MAX_PROVIDERS](_ => ZERO_BITS);
      revealOrCommitFlags := new bool[MAX_PROVIDERS](_ => false);
      lockedCollateralAmounts := new nat[MAX_PROVIDERS](_ => 0);
      revealedThisTickFlags := new bool[MAX_PROVIDERS](_ => false);
      contributedToEntropyFlags := new bool[MAX_PROVIDERS](_ => false);
      lastUpdateTick := new nat[MAX_PROVIDERS](_ => 0);
      new;
      AllZero();
    }
  }
}
