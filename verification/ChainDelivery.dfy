/** The two machines together: every chain the engine signs, in any run, is delivered by the
    contract call by call when each call executes in its target tick. */
module ChainDelivery {
  import opened Basics
  import R = RandomRules
  import W = RandomWorld
  import opened Delivery
  import opened SlotRules
  import opened SlotRuns
  import opened SlotShape
  import opened SlotLinks
  import opened SlotFreeze

  // ---------------------------------------------------------------- a chain on the contract

  /** Signed bytes of one chain in order: three ticks apart, the first without a reveal, each
      later one opening the commit before it, and only the last one possibly terminal. */
  ghost predicate WellLinked(k12: Hash, txs: seq<SignedTx>, first: nat) {
    && txs != [] && txs[0].preimage == ZERO_BITS && txs[0].commit != ZERO_ID
    && (forall i :: 0 <= i < |txs| ==> txs[i].target == first + STREAM_COUNT * i)
    && (forall i :: 0 < i < |txs| ==> txs[i].preimage != ZERO_BITS && k12(txs[i].preimage) == txs[i - 1].commit)
    && (forall i :: 0 <= i < |txs| - 1 ==> txs[i].commit != ZERO_ID)
  }

  /** What happens on the contract in the first n rounds of the chain. */
  function Rounds(p: Provider, txs: seq<SignedTx>, vs: seq<Around>, n: nat): seq<W.Event>
    requires n <= |txs| == |vs|
  {
    if n == 0 then [] else Rounds(p, txs, vs, n - 1) + Round(CallOf(p, txs[n - 1]), vs[n - 1])
  }

  function After(k12: Hash, w: W.World, p: Provider, txs: seq<SignedTx>, vs: seq<Around>, n: nat): W.World
    requires W.WorldOk(w) && n <= |txs| == |vs|
  {
    W.Run(k12, w, Rounds(p, txs, vs, n))
  }

  /** The slot is absent at the first target, the stream has room when the first commit comes,
      and apart from repetitions only others call. */
  ghost predicate MayBegin(k12: Hash, w: W.World, p: Provider, txs: seq<SignedTx>, vs: seq<Around>) {
    && W.WorldOk(w) && p.tier < R.TIER_COUNT && |vs| == |txs| && txs != [] && w.tick == txs[0].target
    && AbsentKey(w.c.streams[w.tick % 3], p)
    && |AtCall(k12, w, vs[0]).c.streams[w.tick % 3]| < R.STREAM_CAPACITY
    && forall i :: 0 <= i < |txs| ==> AroundOk(p, CallOf(p, txs[i]), vs[i])
  }

  ghost predicate Reached(k12: Hash, w: W.World, p: Provider, txs: seq<SignedTx>, vs: seq<Around>, n: nat)
    requires W.WorldOk(w) && n <= |txs| == |vs|
  {
    var x := After(k12, w, p, txs, vs, n);
    var m := OwnMoney(k12, w, Rounds(p, txs, vs, n), p, w.tick % 3);
    && x.tick == w.tick + 3 * n
    && (if n == 0 then AbsentKey(x.c.streams[w.tick % 3], p)
        else LeftBehind(x.c.streams[w.tick % 3], p, txs[n - 1].commit, txs[n - 1].target))
    && m.attached == m.returned + (if n == 0 || txs[n - 1].commit == ZERO_ID then 0 else R.Pow10(p.tier))
  }

  lemma ReachedFits(k12: Hash, w: W.World, p: Provider, txs: seq<SignedTx>, vs: seq<Around>, n: nat)
    requires MayBegin(k12, w, p, txs, vs) && WellLinked(k12, txs, w.tick) && n < |txs| && Reached(k12, w, p, txs, vs, n)
    ensures var x := After(k12, w, p, txs, vs, n);
      && x.tick % 3 == w.tick % 3 && x.tick == txs[n].target
      && Fits(k12, x.c.streams[w.tick % 3], p, txs[n])
      && (txs[n].preimage == ZERO_BITS ==> |AtCall(k12, x, vs[n]).c.streams[w.tick % 3]| < R.STREAM_CAPACITY)
  {
    if n > 0 {
      assert txs[n - 1].commit != ZERO_ID;
      assert Held(After(k12, w, p, txs, vs, n).c.streams[w.tick % 3], p, k12(txs[n].preimage), txs[n - 1].target);
    }
    hide Held, AbsentKey, AtCall;
  }

  lemma {:induction false} ChainReaches(k12: Hash, w: W.World, p: Provider, txs: seq<SignedTx>, vs: seq<Around>, n: nat)
    requires MayBegin(k12, w, p, txs, vs) && WellLinked(k12, txs, w.tick) && n <= |txs|
    ensures Reached(k12, w, p, txs, vs, n)
  {
    if n > 0 {
      ChainReaches(k12, w, p, txs, vs, n - 1);
      ReachedFits(k12, w, p, txs, vs, n - 1);
      var x := After(k12, w, p, txs, vs, n - 1);
      var tx, v := txs[n - 1], vs[n - 1];
      RoundDelivers(k12, x, p, tx, v);
      RoundMoney(k12, x, p, tx, v);
      RunJoin(k12, w, Rounds(p, txs, vs, n - 1), Round(CallOf(p, tx), v));
      MoneyJoin(k12, w, Rounds(p, txs, vs, n - 1), Round(CallOf(p, tx), v), p, w.tick % 3);
      assert n > 1 ==> txs[n - 2].commit != ZERO_ID;
      hide LeftBehind, AbsentKey, AtCall, Fits, Round, OwnMoney, W.Run;
    }
  }

  /** Call i of a chain in its tick: accepted, no no-show when the tick ends, and settled by
      END_TICK to exactly its commit with its target as update tick (or gone when terminal). */
  ghost predicate Delivered(k12: Hash, x: W.World, p: Provider, tx: SignedTx, v: Around)
    requires W.WorldOk(x)
  {
    var stream := x.tick % 3;
    && x.tick == tx.target
    && !R.Judge(k12, AtCall(k12, x, v).c.streams[stream], CallOf(p, tx)).Rejected?
    && W.FlaggedKey(AtTickEnd(k12, x, CallOf(p, tx), v).c.streams[stream], p.id, p.tier)
    && LeftBehind(W.Run(k12, x, TickOfCall(CallOf(p, tx), v)).c.streams[stream], p, tx.commit, tx.target)
  }

  lemma ChainIsDelivered(k12: Hash, w: W.World, p: Provider, txs: seq<SignedTx>, vs: seq<Around>, i: nat)
    requires MayBegin(k12, w, p, txs, vs) && WellLinked(k12, txs, w.tick) && i < |txs|
    ensures Delivered(k12, After(k12, w, p, txs, vs, i), p, txs[i], vs[i])
  {
    ChainReaches(k12, w, p, txs, vs, i);
    ReachedFits(k12, w, p, txs, vs, i);
    TickDelivers(k12, After(k12, w, p, txs, vs, i), p, txs[i], vs[i]);
    hide LeftBehind, AtCall, Fits, TickOfCall, W.Run, R.Judge, AtTickEnd;
  }

  // ---------------------------------------------------------------- what the engine signs

  /** Digests are never the zero id, and no drawn preimage is all zeroes. */
  ghost predicate DigestsNonZero(k12: Hash) { forall b: Bits :: k12(b) != ZERO_ID }

  ghost predicate DrawsNonZero(e: SlotEvent) {
    && (e.StartAsked? ==> e.preimage != ZERO_BITS)
    && (e.ExtendAsked? ==> forall n: nat :: e.draws(n) != Some(ZERO_BITS))
  }

  ghost predicate SealedEntry(s: Signed) {
    && (s.kind.TerminalReveal? || s.tx.commit != ZERO_ID)
    && (s.kind.FirstCommit? || s.tx.preimage != ZERO_BITS)
  }

  ghost predicate Sealed(h: Trace) {
    && (forall s :: s in h.signed ==> SealedEntry(s))
    && (h.slot.chain.Some? ==> h.slot.chain.value.preimage != ZERO_BITS)
  }

  lemma {:induction false} ExtendToSeals(k12: Hash, chain: Chain, horizon: nat, draws: nat -> Option<Bits>, n: nat)
    requires DigestsNonZero(k12) && (forall i: nat :: draws(i) != Some(ZERO_BITS)) && chain.preimage != ZERO_BITS
    ensures var x := ExtendTo(k12, chain, horizon, draws, n);
      && x.preimage != ZERO_BITS && |chain.calls| <= |x.calls| && x.calls[..|chain.calls|] == chain.calls
      && forall s :: s in SignedFrom(x.calls, |chain.calls|) ==> SealedEntry(s)
    decreases horizon - chain.last
  {
    if CanExtend(chain, horizon) && draws(n).Some? {
      var next := Continue(k12, chain, draws(n).value);
      var x := ExtendTo(k12, next, horizon, draws, n + 1);
      ExtendToSeals(k12, next, horizon, draws, n + 1);
      assert x.calls[|chain.calls|] == x.calls[..|next.calls|][|chain.calls|] == next.calls[|chain.calls|];
      assert x.calls[..|chain.calls|] == x.calls[..|next.calls|][..|chain.calls|];
    }
  }

  lemma StepSeals(k12: Hash, h: Trace, e: SlotEvent)
    requires SlotOk(h.slot) && Sealed(h) && DigestsNonZero(k12) && DrawsNonZero(e)
    ensures Sealed(Next(k12, h, e))
  {
    var n := Next(k12, h, e);
    if e.EpochReset? {
    } else if Started(k12, h.slot, e) {
      SignedFromOne(CallsOf(h.slot), n.slot.chain.value.calls[|CallsOf(h.slot)|]);
    } else if e.ExtendAsked? && h.slot.state.Live() && !Missed(h.slot, e.tick) && CheckedAdd(e.tick, SEND_LEAD_TICKS).Some? {
      ExtendToSeals(k12, h.slot.chain.value, e.tick + SEND_LEAD_TICKS, e.draws, 0);
    } else if e.ExtendAsked? {
      MissedIsQuiet(k12, h.slot, e.tick, e.draws);
    } else if e.DrainAsked? {
      if n.slot.chain.Some? && CallsOf(n.slot) != CallsOf(h.slot) {
        SignedFromOne(CallsOf(h.slot), n.slot.chain.value.calls[|CallsOf(h.slot)|]);
      }
    } else if !e.StartAsked? {
      OtherKeepsPreimage(k12, h.slot, e);
    }
  }

  lemma OtherKeepsPreimage(k12: Hash, slot: ManagedSlot, e: SlotEvent)
    requires SlotOk(slot) && !e.EpochReset? && !e.StartAsked? && !e.ExtendAsked? && !e.DrainAsked?
    ensures var n := StepSlot(k12, slot, e).slot;
      n.chain.Some? ==> slot.chain.Some? && n.chain.value.preimage == slot.chain.value.preimage
  {
    OtherStepIsQuiet(k12, slot, e);
    hide StepSlot, CallSet, SlotOk;
  }

  lemma {:induction false} RunSeals(k12: Hash, h: Trace, events: seq<SlotEvent>)
    requires SlotOk(h.slot) && Sealed(h) && DigestsNonZero(k12) && forall e :: e in events ==> DrawsNonZero(e)
    ensures Sealed(RunSlot(k12, h, events))
    decreases |events|
  {
    if events != [] {
      assert events[0] in events && forall e :: e in events[1..] ==> e in events;
      StepKeepsShape(k12, h.slot, events[0]);
      StepSeals(k12, h, events[0]);
      RunSeals(k12, Next(k12, h, events[0]), events[1..]);
    }
  }

  function TxsOf(signed: seq<Signed>): (txs: seq<SignedTx>)
    ensures |txs| == |signed| && forall i :: 0 <= i < |txs| ==> txs[i] == signed[i].tx
  {
    seq(|signed|, i requires 0 <= i < |signed| => signed[i].tx)
  }

  /** The calls signed from a first commit up to the next one. */
  ghost predicate OneChain(signed: seq<Signed>, f: nat, g: nat) {
    && f < g <= |signed| && signed[f].kind.FirstCommit?
    && forall i :: f < i < g ==> !signed[i].kind.FirstCommit?
  }

  lemma {:induction false} ChainSteps(k12: Hash, signed: seq<Signed>, stream: nat, f: nat, g: nat, i: nat)
    requires SignedOk(k12, signed, stream) && OneChain(signed, f, g) && f <= i < g
    ensures signed[i].tx.target == signed[f].tx.target + STREAM_COUNT * (i - f)
    decreases i
  {
    if f < i {
      ChainSteps(k12, signed, stream, f, g, i - 1);
      assert Linked(k12, signed[i - 1], signed[i]);
    }
  }

  lemma SignedChainIsLinked(k12: Hash, signed: seq<Signed>, stream: nat, f: nat, g: nat)
    requires SignedOk(k12, signed, stream) && OneChain(signed, f, g) && forall s :: s in signed ==> SealedEntry(s)
    ensures WellLinked(k12, TxsOf(signed[f..g]), signed[f].tx.target)
  {
    var txs := TxsOf(signed[f..g]);
    forall i | 0 <= i < |txs| ensures txs[i].target == signed[f].tx.target + STREAM_COUNT * i {
      ChainSteps(k12, signed, stream, f, g, f + i);
    }
    forall i | 0 < i < |txs| ensures txs[i].preimage != ZERO_BITS && k12(txs[i].preimage) == txs[i - 1].commit {
      assert Linked(k12, signed[f + i - 1], signed[f + i]) && SealedEntry(signed[f + i]);
    }
    forall i | 0 <= i < |txs| - 1 ensures txs[i].commit != ZERO_ID {
      assert Linked(k12, signed[f + i], signed[f + i + 1]) && SealedEntry(signed[f + i]);
    }
    assert SealedEntry(signed[f]) && EntryOk(signed[f], stream);
  }

  /** Some run that draws no zero preimage leads here. */
  ghost predicate Runs(k12: Hash, stream: nat, h: Trace) {
    && stream < STREAM_COUNT && DigestsNonZero(k12)
    && exists events :: RunSlot(k12, Begin(stream), events) == h && forall e :: e in events ==> DrawsNonZero(e)
  }

  /** What a run signs as one chain is well linked, on the stream's residue. */
  lemma RunChainIsLinked(k12: Hash, stream: nat, h: Trace, f: nat, g: nat)
    requires Runs(k12, stream, h) && OneChain(h.signed, f, g)
    ensures WellLinked(k12, TxsOf(h.signed[f..g]), h.signed[f].tx.target) && h.signed[f].tx.target % STREAM_COUNT == stream
    ensures h.signed[g - 1].kind.TerminalReveal? ==> h.signed[g - 1].tx.commit == ZERO_ID
  {
    var events :| RunSlot(k12, Begin(stream), events) == h && forall e :: e in events ==> DrawsNonZero(e);
    BeginLinks(k12, stream);
    RunLinks(k12, Begin(stream), events);
    RunKeepsStream(k12, Begin(stream), events);
    RunSeals(k12, Begin(stream), events);
    SignedChainIsLinked(k12, h.signed, stream, f, g);
    assert EntryOk(h.signed[f], stream) && EntryOk(h.signed[g - 1], stream);
  }

  /** For every engine run, every chain in its history and every call of it: if the slot is
      absent and there is room at the chain's first target, and each call executes in its target
      tick (others interleaved at will, repetitions included), then the call is accepted, is no
      no-show, and leaves exactly its commit with its target as update tick. */
  lemma EngineCallIsDelivered(k12: Hash, stream: nat, h: Trace, f: nat, g: nat, w: W.World, p: Provider, vs: seq<Around>, i: nat)
    requires Runs(k12, stream, h) && OneChain(h.signed, f, g) && f + i < g
    requires MayBegin(k12, w, p, TxsOf(h.signed[f..g]), vs)
    ensures var txs := TxsOf(h.signed[f..g]);
      w.tick % 3 == stream && Delivered(k12, After(k12, w, p, txs, vs, i), p, txs[i], vs[i])
  {
    hide Delivered, WellLinked, W.WorldOk, AbsentKey, AtCall, AroundOk, DigestsNonZero, DrawsNonZero;
    RunChainIsLinked(k12, stream, h, f, g);
    assert h.signed[f..g][0] == h.signed[f];
    ChainIsDelivered(k12, w, p, TxsOf(h.signed[f..g]), vs, i);
  }

  /** Once its terminal reveal has executed, the slot is gone and the provider got back every
      unit that the chain's calls attached. */
  lemma EngineChainIsRepaid(k12: Hash, stream: nat, h: Trace, f: nat, g: nat, w: W.World, p: Provider, vs: seq<Around>)
    requires Runs(k12, stream, h) && OneChain(h.signed, f, g) && h.signed[g - 1].kind.TerminalReveal?
    requires MayBegin(k12, w, p, TxsOf(h.signed[f..g]), vs)
    ensures var txs := TxsOf(h.signed[f..g]);
      var m := OwnMoney(k12, w, Rounds(p, txs, vs, |txs|), p, stream);
      AbsentKey(After(k12, w, p, txs, vs, |txs|).c.streams[stream], p) && m.attached == m.returned
  {
    hide WellLinked, W.WorldOk, AbsentKey, AtCall, AroundOk, DigestsNonZero, DrawsNonZero, OwnMoney;
    RunChainIsLinked(k12, stream, h, f, g);
    var txs := TxsOf(h.signed[f..g]);
    assert h.signed[f..g][0] == h.signed[f] && h.signed[f..g][g - f - 1] == h.signed[g - 1];
    ChainReaches(k12, w, p, txs, vs, |txs|);
  }
}
