/** The slot of one key on the contract, event by event: taken in the tick of a call, held until
    the stream's next tick, and evicted there unless the next call comes. */
module KeySlots {
  import opened Basics
  import opened RandomRules
  import opened RandomRounds
  import opened RandomWorld
  import opened Delivery
  import SlotRules

  /** How the slot must look while `tx` is the latest of the key's calls that was executed. */
  ghost predicate SlotIs(tx: SlotRules.SignedTx, w: World, p: Provider, stream: nat)
    requires w.c.Ok() && stream < 3
  {
    var s := w.c.streams[stream];
    && tx.target <= w.tick
    && if w.tick == tx.target then Taken(s, p, tx.commit, tx.target)
       else if w.tick <= tx.target + 3 then LeftBehind(s, p, tx.commit, tx.target)
       else AbsentKey(s, p)
  }

  /** END_TICK removes the key unless it was updated in this tick. */
  lemma UnflaggedIsEvicted(s: seq<Slot>, p: Provider)
    requires TiersOk(s) && forall x :: x in s && Has(x, p) ==> !x.flagged
    ensures AbsentKey(EndTick(s).slots, p)
  {
    var c := ClearContributions(s);
    EndTickFilters(s);
    forall y | y in EndTick(s).slots ensures !Has(y, p) {
      assert y in multiset(EndTick(s).slots);
      assert y in Remaining(s);
      if AnyReveal(s) {
        SurvivorsAre(c, 0, y);
        var k: nat :| k < |c| && Stays(c[k]) && y == Survivor(c, k);
        assert s[k] in s;
      } else {
        KeptAre(c, y);
        var k: nat :| k < |c| && c[k].flagged && y == c[k].(flagged := false);
        assert s[k] in s;
      }
    }
  }

  lemma HeldIsEvicted(s: seq<Slot>, p: Provider, commit: Id, tick: nat)
    requires TiersOk(s) && UniqueKeys(s) && Held(s, p, commit, tick)
    ensures AbsentKey(EndTick(s).slots, p)
  {
    var x :| x in s && Has(x, p) && !x.flagged && x.commit == commit && x.lastUpdate == tick;
    var i :| 0 <= i < |s| && s[i] == x;
    forall y | y in s && Has(y, p) ensures !y.flagged {
      var j :| 0 <= j < |s| && s[j] == y;
      KeyAtOnePlace(s, i, j);
    }
    UnflaggedIsEvicted(s, p);
  }

  /** An absent key stays absent as long as it makes no call in a tick of the stream. */
  lemma AbsentStays(k12: Hash, w: World, e: Event, p: Provider, stream: nat)
    requires WorldOk(w) && stream < 3 && AbsentKey(w.c.streams[stream], p) && (w.tick % 3 == stream ==> !Own(p, e))
    ensures AbsentKey(Step(k12, w, e).c.streams[stream], p)
  {
    if w.tick % 3 == stream {
      var s := w.c.streams[stream];
      if e.TickEnded? { UnflaggedIsEvicted(s, p); }
      if e.CallMade? { OtherCallKeeps(k12, s, w.tick, e.call, p); }
    }
  }

  /** Nothing but the key's next call, or time, changes what the slot must look like. */
  lemma SlotStays(k12: Hash, w: World, e: Event, p: Provider, tx: SlotRules.SignedTx, stream: nat)
    requires WorldOk(w) && stream == tx.target % 3 && SlotIs(tx, w, p, stream)
    requires w.tick % 3 == stream && Own(p, e) ==> w.tick == tx.target
    ensures WorldOk(Step(k12, w, e)) && SlotIs(tx, Step(k12, w, e), p, stream)
  {
    StepKeepsWorld(k12, w, e);
    if w.tick % 3 == stream {
      assert StreamOk(w.c.streams[stream], stream, w.tick);
      hide LeftBehind, Taken, Held, AbsentKey, EndTick, Settle, StreamOk;
      if e.TickEnded? { TickPasses(k12, w, p, tx, stream); }
      if e.CallMade? { CallPasses(k12, w, e.call, p, tx, stream); }
    }
  }

  lemma TickPasses(k12: Hash, w: World, p: Provider, tx: SlotRules.SignedTx, stream: nat)
    requires WorldOk(w) && stream == tx.target % 3 == w.tick % 3 && SlotIs(tx, w, p, stream)
    ensures WorldOk(Step(k12, w, TickEnded)) && SlotIs(tx, Step(k12, w, TickEnded), p, stream)
  {
    var s := w.c.streams[stream];
    assert StreamOk(s, stream, w.tick);
    StepKeepsWorld(k12, w, TickEnded);
    if w.tick == tx.target {
      TickSettles(k12, w, p, tx.commit);
      RunOne(k12, w, TickEnded);
    } else if w.tick <= tx.target + 3 && tx.commit != ZERO_ID {
      HeldIsEvicted(s, p, tx.commit, tx.target);
    } else {
      UnflaggedIsEvicted(s, p);
    }
    hide Taken, Held, EndTick;
  }

  lemma CallPasses(k12: Hash, w: World, call: Call, p: Provider, tx: SlotRules.SignedTx, stream: nat)
    requires WorldOk(w) && stream == tx.target % 3 == w.tick % 3 && SlotIs(tx, w, p, stream)
    requires Own(p, CallMade(call)) ==> w.tick == tx.target
    ensures SlotIs(tx, Step(k12, w, CallMade(call)), p, stream)
  {
    var s := w.c.streams[stream];
    assert StreamOk(s, stream, w.tick);
    if Own(p, CallMade(call)) {
      TakenIsFlagged(s, p, tx.commit, tx.target);
      FlaggedKeyRejects(k12, s, call, p.tier);
    } else {
      OtherCallKeeps(k12, s, w.tick, call, p);
    }
  }

  /** The next call, in its tick, is accepted and takes the slot. */
  lemma CallTakes(k12: Hash, w: World, p: Provider, tx: SlotRules.SignedTx)
    requires WorldOk(w) && p.tier < TIER_COUNT && w.tick == tx.target && Fits(k12, w.c.streams[w.tick % 3], p, tx)
    requires tx.preimage == ZERO_BITS ==> |w.c.streams[w.tick % 3]| < STREAM_CAPACITY
    ensures var n := Step(k12, w, CallMade(CallOf(p, tx))); n.c.Ok() && SlotIs(tx, n, p, w.tick % 3)
  {
    assert StreamOk(w.c.streams[w.tick % 3], w.tick % 3, w.tick);
    CallIsAccepted(k12, w.c.streams[w.tick % 3], w.tick, p, tx);
    hide Settle, Fits, Taken;
  }
}
