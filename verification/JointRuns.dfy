/** The engine's stream and the contract side by side. Every move belongs to one of them; a status
    answer is what the contract's report shows at some moment. The contract executes the calls
    the engine signed, each in its target tick, and otherwise does whatever others make it do. */
module JointRuns {
  import opened Basics
  import R = RandomRules
  import W = RandomWorld
  import opened Delivery
  import opened KeySlots
  import opened Snapshots
  import opened ChainDelivery
  import opened SlotRules
  import opened SlotRuns
  import opened SlotShape
  import opened SlotLinks
  import opened SlotFreeze

  // ---------------------------------------------------------------- the machine

  /** The contract at one moment, and how many of the epoch's signed calls it has executed. */
  datatype Moment = Moment(w: W.World, done: nat)

  /** The engine's stream, every moment of the contract since the epoch began, and the moment the
      latest status answer shows. */
  datatype Joint = Joint(h: Trace, past: seq<Moment>, seen: nat)

  datatype Move =
    | EngineMoves(e: SlotEvent)
    | ContractMoves(c: W.Event)
    | Answered(requested: nat, k: nat)

  ghost predicate JointOk(j: Joint) {
    && j.h.slot.stream < STREAM_COUNT && j.seen < |j.past|
    && forall i :: 0 <= i < |j.past| ==> W.WorldOk(j.past[i].w)
  }

  function Now(j: Joint): Moment
    requires j.seen < |j.past|
  {
    j.past[|j.past| - 1]
  }

  function Opening(stream: nat, w: W.World): Joint { Joint(Begin(stream), [Moment(w, 0)], 0) }

  /** The provider calls in a tick of this stream. */
  predicate OwnHere(p: Provider, j: Joint, c: W.Event)
    requires JointOk(j)
  {
    Own(p, c) && Now(j).w.tick % 3 == j.h.slot.stream
  }

  /** The next signed call is executed. */
  predicate Executes(p: Provider, j: Joint, c: W.Event)
    requires JointOk(j)
  {
    OwnHere(p, j, c) && Now(j).done < |j.h.signed| && j.h.signed[Now(j).done].tx.target == Now(j).w.tick
  }

  /** The provider calls in a tick of this stream only with the bytes signed for that tick. */
  ghost predicate OwnIsSigned(p: Provider, j: Joint, c: W.Event)
    requires JointOk(j)
  {
    OwnHere(p, j, c) ==>
      exists s :: s in j.h.signed && s.tx.target == Now(j).w.tick && c == W.CallMade(CallOf(p, s.tx))
  }

  /** A first commit finds a free place. */
  predicate HasRoom(p: Provider, j: Joint, c: W.Event)
    requires JointOk(j)
  {
    Executes(p, j, c) && j.h.signed[Now(j).done].kind.FirstCommit? ==>
      |Now(j).w.c.streams[j.h.slot.stream]| < R.STREAM_CAPACITY
  }

  /** An answer shows a moment as new as its request and as the answer before. */
  ghost predicate Allowed(p: Provider, j: Joint, m: Move)
    requires JointOk(j)
  {
    match m
    case EngineMoves(e) => !e.StatusSeen? && DrawsNonZero(e)
    case ContractMoves(c) => OwnIsSigned(p, j, c) && HasRoom(p, j, c)
    case Answered(requested, k) => j.seen <= k < |j.past| && requested <= j.past[k].w.tick <= U32_MAX
  }

  ghost function Moved(k12: Hash, p: Provider, j: Joint, m: Move): (n: Joint)
    requires JointOk(j) && Allowed(p, j, m)
    ensures JointOk(n)
  {
    match m
    case EngineMoves(e) =>
      StepKeepsStream(k12, j.h.slot, e);
      if e.EpochReset? then Joint(Next(k12, j.h, e), [Moment(Now(j).w, 0)], 0) else j.(h := Next(k12, j.h, e))
    case ContractMoves(c) =>
      W.StepKeepsWorld(k12, Now(j).w, c);
      j.(past := j.past + [Moment(W.Step(k12, Now(j).w, c), Now(j).done + if Executes(p, j, c) then 1 else 0)])
    case Answered(requested, k) =>
      var e := StatusSeen(requested, Shown(j.past[k].w, p, j.h.slot.stream));
      StepKeepsStream(k12, j.h.slot, e);
      j.(h := Next(k12, j.h, e), seen := k)
  }

  /** Every signed call whose tick is over was executed. */
  ghost predicate Punctual(j: Joint)
    requires JointOk(j)
  {
    forall i :: Now(j).done <= i < |j.h.signed| ==> Now(j).w.tick <= j.h.signed[i].tx.target
  }

  /** Every move is allowed and no signed call is missed. */
  ghost predicate JointRun(k12: Hash, p: Provider, j: Joint, moves: seq<Move>)
    requires JointOk(j)
    decreases |moves|
  {
    moves != [] ==>
      && Allowed(p, j, moves[0]) && Punctual(Moved(k12, p, j, moves[0]))
      && JointRun(k12, p, Moved(k12, p, j, moves[0]), moves[1..])
  }

  ghost function JointEnd(k12: Hash, p: Provider, j: Joint, moves: seq<Move>): (n: Joint)
    requires JointOk(j) && JointRun(k12, p, j, moves)
    ensures JointOk(n)
    decreases |moves|
  {
    if moves == [] then j else JointEnd(k12, p, Moved(k12, p, j, moves[0]), moves[1..])
  }

  function ContractEvents(moves: seq<Move>): seq<W.Event> {
    if moves == [] then []
    else (if moves[0].ContractMoves? then [moves[0].c] else []) + ContractEvents(moves[1..])
  }

  lemma NextIsReachable(k12: Hash, stream: nat, h: Trace, e: SlotEvent)
    requires Reachable(k12, stream, h)
    ensures Reachable(k12, stream, Next(k12, h, e))
  {
    var events :| RunSlot(k12, Begin(stream), events) == h;
    RunAppend(k12, Begin(stream), events, e);
    hide RunSlot, Next;
  }

  lemma MoveIsAStep(k12: Hash, p: Provider, stream: nat, j: Joint, m: Move)
    requires JointOk(j) && Allowed(p, j, m) && Reachable(k12, stream, j.h)
    ensures var n := Moved(k12, p, j, m);
      && Reachable(k12, stream, n.h)
      && Now(n).w == if m.ContractMoves? then W.Step(k12, Now(j).w, m.c) else Now(j).w
  {
    hide Reachable, Next, W.Step, Shown, W.StreamOk, Executes, OwnIsSigned, HasRoom, DrawsNonZero;
    match m
    case EngineMoves(e) => NextIsReachable(k12, stream, j.h, e);
    case ContractMoves(c) =>
    case Answered(requested, k) => NextIsReachable(k12, stream, j.h, StatusSeen(requested, Shown(j.past[k].w, p, j.h.slot.stream)));
  }

  /** Each side of a joint run is a run of its own machine, so what holds over those runs holds
      here too. */
  lemma {:induction false} SidesAreRuns(k12: Hash, p: Provider, stream: nat, j: Joint, moves: seq<Move>)
    requires JointOk(j) && JointRun(k12, p, j, moves) && Reachable(k12, stream, j.h)
    ensures var n := JointEnd(k12, p, j, moves);
      Reachable(k12, stream, n.h) && W.WorldOk(Now(j).w) && Now(n).w == W.Run(k12, Now(j).w, ContractEvents(moves))
    decreases |moves|
  {
    hide Moved, Allowed, Punctual, Reachable, W.Step, W.StreamOk;
    if moves != [] {
      MoveIsAStep(k12, p, stream, j, moves[0]);
      SidesAreRuns(k12, p, stream, Moved(k12, p, j, moves[0]), moves[1..]);
      if moves[0].ContractMoves? {
        var events := ContractEvents(moves);
        assert events[0] == moves[0].c && events[1..] == ContractEvents(moves[1..]);
      } else {
        assert ContractEvents(moves) == ContractEvents(moves[1..]);
      }
    }
  }

  // ---------------------------------------------------------------- the invariant

  /** After the last executed call the slot is as it must be, and no call before it is missing. */
  ghost predicate MomentOk(signed: seq<Signed>, m: Moment, p: Provider, stream: nat, cleared: bool)
    requires m.w.c.Ok() && stream < 3
  {
    && m.done <= |signed|
    && (forall i :: m.done <= i < |signed| ==> m.w.tick <= signed[i].tx.target)
    && if m.done > 0 then SlotIs(signed[m.done - 1].tx, m.w, p, stream)
       else cleared ==> AbsentKey(m.w.c.streams[stream], p)
  }

  /** Before the first chain the slot was seen absent. */
  predicate ClearedOnce(h: Trace) { h.signed != [] || (h.slot.state.Waiting? && h.slot.state.absenceObserved) }

  ghost predicate MomentsOk(j: Joint, p: Provider)
    requires JointOk(j)
  {
    forall i :: 0 <= i < |j.past| ==>
      MomentOk(j.h.signed, j.past[i], p, j.h.slot.stream, j.seen <= i && ClearedOnce(j.h))
  }

  predicate Before(a: Moment, b: Moment) { a.w.tick <= b.w.tick && a.done <= b.done }

  /** While no further call is executed an absent key stays absent. */
  ghost predicate GoneStays(a: Moment, b: Moment, p: Provider, stream: nat)
    requires a.w.c.Ok() && b.w.c.Ok() && stream < 3
  {
    a.done == b.done && AbsentKey(a.w.c.streams[stream], p) ==> AbsentKey(b.w.c.streams[stream], p)
  }

  ghost predicate Ordered(j: Joint, p: Provider)
    requires JointOk(j)
  {
    forall a, b :: 0 <= a <= b < |j.past| ==>
      Before(j.past[a], j.past[b]) && GoneStays(j.past[a], j.past[b], p, j.h.slot.stream)
  }

  /** A chain begins only when the one before has been evicted. */
  ghost predicate Gaps(signed: seq<Signed>) {
    forall i :: 0 < i < |signed| && signed[i].kind.FirstCommit? ==> signed[i - 1].tx.target + 3 < signed[i].tx.target
  }

  ghost predicate HistoryOk(k12: Hash, h: Trace) {
    && Links(k12, h) && Onward(h) && Sealed(h) && Gaps(h.signed)
    && (h.signed != [] ==> HeadOk(h.signed, h.chainFirst))
  }

  /** The moment shown last lies after the eviction of every earlier chain, and a wait ends only
      with an answer from after the lost chain. */
  ghost predicate SeenLate(h: Trace, tick: nat) {
    && !h.slot.state.Restarting?
    && (h.slot.state.Waiting? && h.signed != [] ==>
          && h.chainFirst < h.slot.state.absenceAfter
          && (h.slot.state.absenceObserved ==> LastTarget(h.signed) + 3 < tick))
    && (h.slot.state.Live() ==>
          forall f: nat :: HeadAt(h.signed, h.chainFirst, f) && f > 0 ==> h.signed[f - 1].tx.target + 3 < tick)
  }

  ghost predicate Along(k12: Hash, p: Provider, j: Joint) {
    && JointOk(j) && p.tier < R.TIER_COUNT && HistoryOk(k12, j.h)
    && MomentsOk(j, p) && Ordered(j, p) && SeenLate(j.h, j.past[j.seen].w.tick)
  }

  // ---------------------------------------------------------------- moves of the contract

  /** The next call fits the slot as it is in the call's tick. */
  lemma NextFits(k12: Hash, h: Trace, m: Moment, p: Provider)
    requires HistoryOk(k12, h) && m.w.c.Ok() && MomentOk(h.signed, m, p, h.slot.stream, true)
    requires m.done < |h.signed| && h.signed[m.done].tx.target == m.w.tick
    ensures h.slot.stream == m.w.tick % 3 && Fits(k12, m.w.c.streams[m.w.tick % 3], p, h.signed[m.done].tx)
    ensures h.signed[m.done].tx.preimage == ZERO_BITS ==> h.signed[m.done].kind.FirstCommit?
  {
    var s := h.signed[m.done];
    assert EntryOk(s, h.slot.stream) && SealedEntry(s);
    if m.done > 0 {
      var e := h.signed[m.done - 1];
      assert Linked(k12, e, s) && SealedEntry(e) && e in h.signed;
    }
    hide Taken, Held, AbsentKey, HeadOk, EndsOk, CallsSigned, SlotOk;
  }

  /** An own call is the next signed one, or repeats the latest. */
  lemma OwnIsNextOrAgain(k12: Hash, p: Provider, j: Joint, c: W.Event, cleared: bool)
    requires JointOk(j) && SignedOk(k12, j.h.signed, j.h.slot.stream)
    requires MomentOk(j.h.signed, Now(j), p, j.h.slot.stream, cleared)
    requires OwnIsSigned(p, j, c) && OwnHere(p, j, c)
    ensures var m := Now(j);
      if Executes(p, j, c) then c == W.CallMade(CallOf(p, j.h.signed[m.done].tx))
      else m.done > 0 && j.h.signed[m.done - 1].tx.target == m.w.tick
  {
    hide Taken, LeftBehind, AbsentKey, W.StreamOk, CallOf, Own, SignedOk;
    var m, signed := Now(j), j.h.signed;
    var s :| s in signed && s.tx.target == m.w.tick && c == W.CallMade(CallOf(p, s.tx));
    var i :| 0 <= i < |signed| && signed[i] == s;
    if m.done < i { TargetsAscend(k12, signed, j.h.slot.stream, m.done, i); }
    if i < m.done < |signed| { TargetsAscend(k12, signed, j.h.slot.stream, i, m.done); }
    if i < m.done - 1 { TargetsAscend(k12, signed, j.h.slot.stream, i, m.done - 1); }
  }

  lemma ContractMoment(k12: Hash, p: Provider, j: Joint, c: W.Event)
    requires JointOk(j) && p.tier < R.TIER_COUNT && HistoryOk(k12, j.h)
    requires MomentOk(j.h.signed, Now(j), p, j.h.slot.stream, ClearedOnce(j.h))
    requires Allowed(p, j, ContractMoves(c)) && Punctual(Moved(k12, p, j, ContractMoves(c)))
    ensures var n := Moved(k12, p, j, ContractMoves(c));
      MomentOk(n.h.signed, Now(n), p, n.h.slot.stream, ClearedOnce(n.h))
  {
    hide HistoryOk, SlotIs, AbsentKey, Fits, W.StreamOk, Own, CallOf, Linked;
    var m, stream, signed := Now(j), j.h.slot.stream, j.h.signed;
    assert SignedOk(k12, signed, stream) by { HistoryIsSigned(k12, j.h); }
    if OwnHere(p, j, c) { OwnIsNextOrAgain(k12, p, j, c, ClearedOnce(j.h)); }
    if Executes(p, j, c) {
      NextFits(k12, j.h, m, p);
      CallTakes(k12, m.w, p, signed[m.done].tx);
    } else if m.done > 0 {
      assert EntryOk(signed[m.done - 1], stream);
      SlotStays(k12, m.w, c, p, signed[m.done - 1].tx, stream);
    } else if ClearedOnce(j.h) {
      AbsentStays(k12, m.w, c, p, stream);
    }
  }

  lemma HistoryIsSigned(k12: Hash, h: Trace)
    requires HistoryOk(k12, h)
    ensures SignedOk(k12, h.signed, h.slot.stream)
  {
  }

  lemma ContractGone(k12: Hash, p: Provider, j: Joint, c: W.Event)
    requires JointOk(j) && HistoryOk(k12, j.h)
    requires MomentOk(j.h.signed, Now(j), p, j.h.slot.stream, ClearedOnce(j.h)) && Allowed(p, j, ContractMoves(c))
    ensures var n := Moved(k12, p, j, ContractMoves(c));
      Before(Now(j), Now(n)) && GoneStays(Now(j), Now(n), p, j.h.slot.stream)
  {
    hide HistoryOk, W.StreamOk, Own, CallOf, Linked;
    HistoryIsSigned(k12, j.h);
    if OwnHere(p, j, c) {
      OwnIsNextOrAgain(k12, p, j, c, ClearedOnce(j.h));
    } else if AbsentKey(Now(j).w.c.streams[j.h.slot.stream], p) {
      AbsentStays(k12, Now(j).w, c, p, j.h.slot.stream);
    }
  }

  lemma ContractAlong(k12: Hash, p: Provider, j: Joint, c: W.Event)
    requires Along(k12, p, j) && Allowed(p, j, ContractMoves(c)) && Punctual(Moved(k12, p, j, ContractMoves(c)))
    ensures Along(k12, p, Moved(k12, p, j, ContractMoves(c)))
  {
    var n := Moved(k12, p, j, ContractMoves(c));
    assert MomentOk(j.h.signed, Now(j), p, j.h.slot.stream, ClearedOnce(j.h));
    ContractMoment(k12, p, j, c);
    ContractGone(k12, p, j, c);
    hide HistoryOk, MomentOk, SeenLate, W.WorldOk, AbsentKey, W.Step, Executes, OwnIsSigned, HasRoom;
    forall a, b | 0 <= a <= b < |n.past|
      ensures Before(n.past[a], n.past[b]) && GoneStays(n.past[a], n.past[b], p, n.h.slot.stream)
    {
      if b == |n.past| - 1 && a < b {
        assert Before(j.past[a], Now(j)) && GoneStays(j.past[a], Now(j), p, n.h.slot.stream);
      }
    }
  }

  // ---------------------------------------------------------------- moves of the engine

  /** Only a start signs a first commit, and only the one call. */
  lemma Growth(k12: Hash, h: Trace, e: SlotEvent)
    requires HistoryOk(k12, h) && !e.EpochReset? && !e.StatusSeen?
    ensures var n := Next(k12, h, e);
      && h.signed <= n.signed
      && (if Started(k12, h.slot, e) then
            |n.signed| == |h.signed| + 1 && n.signed[|h.signed|].kind.FirstCommit? && n.signed[|h.signed|].tx.target == n.chainFirst
          else
            && n.chainFirst == h.chainFirst && (h.signed == [] ==> n.signed == [])
            && forall i :: |h.signed| <= i < |n.signed| ==> !n.signed[i].kind.FirstCommit?)
  {
    var n := Next(k12, h, e);
    StepLinks(k12, h, e);
    if Started(k12, h.slot, e) {
      SignedFromOne(CallsOf(h.slot), n.slot.chain.value.calls[|CallsOf(h.slot)|]);
    } else {
      OtherIsSteady(k12, h.slot, e);
      hide StepSlot, Sealed, SlotOk, CallSet, Gaps, EndsOk, Linked, EntryOk;
      if n.signed != h.signed { NothingElseBegins(k12, h, n); }
    }
  }

  lemma NothingElseBegins(k12: Hash, h: Trace, n: Trace)
    requires Links(k12, n) && n.slot.chain.Some? && n.chainFirst == h.chainFirst && h.signed <= n.signed
    requires h.signed != [] && h.chainFirst <= LastTarget(h.signed)
    ensures forall i :: |h.signed| <= i < |n.signed| ==> !n.signed[i].kind.FirstCommit?
  {
    var f: nat :| HeadAt(n.signed, n.chainFirst, f);
    var l := |h.signed| - 1;
    assert n.signed[l] == h.signed[l];
    if f > l { TargetsAscend(k12, n.signed, n.slot.stream, l, f); }
  }

  lemma EngineHistory(k12: Hash, h: Trace, e: SlotEvent)
    requires HistoryOk(k12, h) && !e.EpochReset? && !e.StatusSeen? && DigestsNonZero(k12) && DrawsNonZero(e)
    requires Started(k12, h.slot, e) && h.signed != [] ==> LastTarget(h.signed) + 3 < Next(k12, h, e).chainFirst
    ensures HistoryOk(k12, Next(k12, h, e))
  {
    var n := Next(k12, h, e);
    Growth(k12, h, e);
    StepLinks(k12, h, e);
    StepOnward(k12, h, e);
    StepSeals(k12, h, e);
    hide Next, Started, Links, Onward, Sealed;
    forall i | 0 < i < |n.signed| && n.signed[i].kind.FirstCommit? ensures n.signed[i - 1].tx.target + 3 < n.signed[i].tx.target {
      if i < |h.signed| { assert n.signed[i] == h.signed[i] && n.signed[i - 1] == h.signed[i - 1]; }
    }
    HeadStands(k12, h, n);
  }

  lemma HeadStands(k12: Hash, h: Trace, n: Trace)
    requires h.signed <= n.signed && (h.signed != [] ==> HeadOk(h.signed, h.chainFirst))
    requires (n.chainFirst == h.chainFirst && (h.signed == [] ==> n.signed == [])
              && forall i :: |h.signed| <= i < |n.signed| ==> !n.signed[i].kind.FirstCommit?)
             || (|n.signed| == |h.signed| + 1 && n.signed[|h.signed|].kind.FirstCommit?
                 && n.signed[|h.signed|].tx.target == n.chainFirst)
    ensures n.signed != [] ==> HeadOk(n.signed, n.chainFirst)
  {
    if |n.signed| == |h.signed| + 1 && n.signed[|h.signed|].kind.FirstCommit? {
      assert HeadAt(n.signed, n.chainFirst, |h.signed|);
    } else if h.signed != [] {
      var f: nat :| HeadAt(h.signed, h.chainFirst, f);
      assert HeadAt(n.signed, n.chainFirst, f);
    }
  }

  /** Without answers a slot that is not frozen stays so, keeps waiting as it did, or begins to
      wait for an answer from after its chain's first target. */
  lemma WaitsOn(k12: Hash, slot: ManagedSlot, e: SlotEvent)
    requires SlotOk(slot) && !e.EpochReset? && !e.StatusSeen? && !Started(k12, slot, e) && !slot.state.Restarting?
    ensures var s := StepSlot(k12, slot, e).slot.state;
      && !s.Restarting? && (s.Live() ==> slot.state.Live())
      && (s.Waiting? ==>
            || s == slot.state
            || (slot.state.Live() && !s.absenceObserved && slot.chain.value.first < s.absenceAfter))
  {
    OtherIsSteady(k12, slot, e);
    if slot.state.Live() { LossIsLater(k12, slot, e); }
    hide ChainOk, ExtendTo;
  }

  lemma LossIsLater(k12: Hash, slot: ManagedSlot, e: SlotEvent)
    requires SlotOk(slot) && !e.EpochReset? && !e.StatusSeen? && slot.state.Live()
    ensures var s := StepSlot(k12, slot, e).slot.state;
      s.Waiting? ==> !s.absenceObserved && slot.chain.value.first < s.absenceAfter
  {
    hide CallsOk, TailShape;
  }

  lemma StartSeenLate(k12: Hash, h: Trace, e: SlotEvent, tick: nat)
    requires HistoryOk(k12, h) && SeenLate(h, tick) && Started(k12, h.slot, e)
    ensures SeenLate(Next(k12, h, e), tick)
  {
    var n := Next(k12, h, e);
    Growth(k12, h, e);
    assert n.slot.state.Starting?;
    hide StepSlot, Next, StartTarget, HistoryOk;
    forall f: nat | HeadAt(n.signed, n.chainFirst, f) && f > 0 ensures n.signed[f - 1].tx.target + 3 < tick {
      assert f == |h.signed| && n.signed[f - 1] == h.signed[f - 1];
    }
  }

  lemma OtherSeenLate(k12: Hash, h: Trace, e: SlotEvent, tick: nat)
    requires HistoryOk(k12, h) && SeenLate(h, tick) && !e.EpochReset? && !e.StatusSeen? && !Started(k12, h.slot, e)
    ensures SeenLate(Next(k12, h, e), tick)
  {
    var n := Next(k12, h, e);
    Growth(k12, h, e);
    WaitsOn(k12, h.slot, e);
    if h.slot.state.Live() { LiveFirst(k12, h); }
    if n.slot.state.Waiting? { NothingSignedByWaiting(k12, h, e); }
    hide StepSlot, StartTarget, HistoryOk, NewlySigned, NewlySent, NextStreak, AcceptedBy;
    forall f: nat | n.slot.state.Live() && HeadAt(n.signed, n.chainFirst, f) && f > 0
      ensures n.signed[f - 1].tx.target + 3 < tick
    {
      assert f < |h.signed| && HeadAt(h.signed, h.chainFirst, f);
    }
  }

  lemma NothingSignedByWaiting(k12: Hash, h: Trace, e: SlotEvent)
    requires SlotOk(h.slot) && !e.EpochReset? && Next(k12, h, e).slot.state.Waiting?
    ensures Next(k12, h, e).signed == h.signed
  {
    StepKeepsShape(k12, h.slot, e);
    hide StepSlot;
  }

  lemma EngineSeenLate(k12: Hash, h: Trace, e: SlotEvent, tick: nat)
    requires HistoryOk(k12, h) && SeenLate(h, tick) && !e.EpochReset? && !e.StatusSeen?
    ensures SeenLate(Next(k12, h, e), tick)
  {
    hide HistoryOk, SeenLate, Next, StepSlot;
    if Started(k12, h.slot, e) { StartSeenLate(k12, h, e, tick); } else { OtherSeenLate(k12, h, e, tick); }
  }

  lemma GrowthKeepsMoment(signed: seq<Signed>, more: seq<Signed>, m: Moment, now: Moment, p: Provider, stream: nat, a: bool, b: bool)
    requires stream < 3 && m.w.c.Ok() && MomentOk(signed, m, p, stream, a) && (b ==> a)
    requires signed <= more && Before(m, now) && now.done <= |signed|
    requires forall i :: now.done <= i < |more| ==> now.w.tick <= more[i].tx.target
    ensures MomentOk(more, m, p, stream, b)
  {
  }

  lemma GrowthKeepsMoments(p: Provider, j: Joint, n: Joint)
    requires JointOk(j) && JointOk(n) && n.past == j.past && n.seen == j.seen && n.h.slot.stream == j.h.slot.stream
    requires MomentsOk(j, p) && Ordered(j, p) && Punctual(n)
    requires j.h.signed <= n.h.signed && (ClearedOnce(n.h) ==> ClearedOnce(j.h))
    ensures MomentsOk(n, p) && Ordered(n, p)
  {
    hide MomentOk, W.StreamOk, GoneStays, ClearedOnce, SlotShape.SlotOk;
    var now := Now(j);
    assert MomentOk(j.h.signed, now, p, j.h.slot.stream, j.seen <= |j.past| - 1 && ClearedOnce(j.h));
    assert now.done <= |j.h.signed| by { DoneIsSigned(j.h.signed, now, p, j.h.slot.stream, j.seen <= |j.past| - 1 && ClearedOnce(j.h)); }
    forall i | 0 <= i < |n.past|
      ensures MomentOk(n.h.signed, n.past[i], p, n.h.slot.stream, n.seen <= i && ClearedOnce(n.h))
    {
      assert Before(j.past[i], now);
      GrowthKeepsMoment(j.h.signed, n.h.signed, j.past[i], now, p, j.h.slot.stream, j.seen <= i && ClearedOnce(j.h),
                   n.seen <= i && ClearedOnce(n.h));
    }
    assert forall a, b :: 0 <= a <= b < |j.past| ==>
      Before(j.past[a], j.past[b]) && GoneStays(j.past[a], j.past[b], p, j.h.slot.stream);
  }

  lemma DoneIsSigned(signed: seq<Signed>, m: Moment, p: Provider, stream: nat, cleared: bool)
    requires stream < 3 && m.w.c.Ok() && MomentOk(signed, m, p, stream, cleared)
    ensures m.done <= |signed|
  {
  }

  /** A new chain's first target comes after the eviction of the chain before. */
  lemma StartsAfterTheLast(k12: Hash, p: Provider, j: Joint, e: SlotEvent)
    requires Along(k12, p, j) && !e.EpochReset? && Allowed(p, j, EngineMoves(e)) && Started(k12, j.h.slot, e)
    requires Punctual(Moved(k12, p, j, EngineMoves(e))) && j.h.signed != []
    ensures LastTarget(j.h.signed) + 3 < Next(k12, j.h, e).chainFirst
  {
    Growth(k12, j.h, e);
    StartsAbsent(k12, j.h, e);
    assert Before(j.past[j.seen], Now(j)) && MomentOk(j.h.signed, Now(j), p, j.h.slot.stream, ClearedOnce(j.h));
    hide HistoryOk, Next, Started, W.StreamOk, DrawsNonZero, SlotIs, AbsentKey;
  }

  lemma EngineAlong(k12: Hash, p: Provider, j: Joint, e: SlotEvent)
    requires Along(k12, p, j) && DigestsNonZero(k12) && !e.EpochReset?
    requires Allowed(p, j, EngineMoves(e)) && Punctual(Moved(k12, p, j, EngineMoves(e)))
    ensures Along(k12, p, Moved(k12, p, j, EngineMoves(e)))
  {
    var n := Moved(k12, p, j, EngineMoves(e));
    Growth(k12, j.h, e);
    EngineSeenLate(k12, j.h, e, j.past[j.seen].w.tick);
    StartsAbsent(k12, j.h, e);
    if Started(k12, j.h.slot, e) && j.h.signed != [] { StartsAfterTheLast(k12, p, j, e); }
    EngineHistory(k12, j.h, e);
    hide MomentsOk, Ordered, W.StreamOk, Next, Started, HistoryOk, DrawsNonZero, SeenLate, ClearedOnce;
    GrowthKeepsMoments(p, j, n);
  }

  lemma StartsAbsent(k12: Hash, h: Trace, e: SlotEvent)
    requires HistoryOk(k12, h) && !h.slot.state.Restarting? && !e.EpochReset? && !e.StatusSeen?
    ensures Started(k12, h.slot, e) ==> h.slot.state.Waiting? && h.slot.state.absenceObserved
    ensures ClearedOnce(Next(k12, h, e)) ==> ClearedOnce(h)
    ensures Next(k12, h, e).slot.stream == h.slot.stream
  {
    Growth(k12, h, e);
    StepKeepsStream(k12, h.slot, e);
    if !Started(k12, h.slot, e) { WaitsOn(k12, h.slot, e); }
    hide StepSlot, Links, Sealed, Onward, Gaps, HeadOk;
  }

  /** A new epoch forgets what was signed; the contract stays as it is. */
  lemma BeginsAlong(k12: Hash, p: Provider, stream: nat, w: W.World)
    requires stream < STREAM_COUNT && p.tier < R.TIER_COUNT && W.WorldOk(w)
    ensures Along(k12, p, Opening(stream, w))
  {
    BeginLinks(k12, stream);
    hide W.WorldOk;
  }

  // ---------------------------------------------------------------- what a snapshot shows

  /** The tick a moment's answer speaks for: a call executed in the current tick counts. */
  function AsOf(signed: seq<Signed>, m: Moment): nat {
    if 0 < m.done <= |signed| && signed[m.done - 1].tx.target == m.w.tick then m.w.tick + 1 else m.w.tick
  }

  lemma LatestInside(chain: Chain, target: nat, asOf: nat)
    requires chain.Owns(target) && target < asOf <= target + STREAM_COUNT
    ensures chain.LatestTargetBefore(asOf) == Some(target)
  {
  }

  lemma LatestIsOwned(chain: Chain, asOf: nat)
    ensures var t := chain.LatestTargetBefore(asOf);
      && (t.Some? ==> chain.Owns(t.value) && t.value < asOf)
      && (t.None? <==> asOf <= chain.first || chain.last < chain.first)
  {
  }

  /** Call i of the live chain: its target is owned and its commit is a real one. */
  lemma LiveCall(k12: Hash, h: Trace, f: nat, i: nat)
    requires HistoryOk(k12, h) && h.slot.state.Live() && HeadAt(h.signed, h.chainFirst, f) && f <= i < |h.signed|
    ensures var chain := h.slot.chain.value;
      && chain.Owns(h.signed[i].tx.target) && h.signed[i].tx.commit != ZERO_ID
      && (i + 1 < |h.signed| ==> h.signed[i + 1].tx.target == h.signed[i].tx.target + STREAM_COUNT)
      && (i + 1 == |h.signed| ==> h.signed[i].tx.target == chain.last)
  {
    ChainIsEveryThird(k12, h.signed, h.slot.stream, h.chainFirst, f, i);
    SignedLast(k12, h.signed, h.slot.stream, i);
    assert SealedEntry(h.signed[i]);
    if i + 1 < |h.signed| { assert Linked(k12, h.signed[i], h.signed[i + 1]); }
    hide ChainOk, CallSet, Gaps, HeadOk;
  }

  /** What one moment shows of the live chain that begins at `f`. */
  lemma MomentShows(k12: Hash, h: Trace, m: Moment, p: Provider, f: nat)
    requires HistoryOk(k12, h) && h.slot.state.Live() && HeadAt(h.signed, h.chainFirst, f)
    requires W.WorldOk(m.w) && m.w.tick <= U32_MAX && MomentOk(h.signed, m, p, h.slot.stream, true)
    requires f > 0 ==> h.signed[f - 1].tx.target + 3 < m.w.tick
    ensures var chain := h.slot.chain.value;
      Shown(m.w, p, h.slot.stream) ==
        if chain.last + STREAM_COUNT < m.w.tick then None else chain.LatestTargetBefore(AsOf(h.signed, m))
  {
    hide W.StreamOk, HistoryOk, Shown, Taken, Held, AbsentKey, SealedEntry, SlotOk;
    LiveFirst(k12, h);
    var chain := h.slot.chain.value;
    LiveCall(k12, h, f, |h.signed| - 1);
    LatestIsOwned(chain, m.w.tick);
    AbsentShowsNothing(m.w, p, h.slot.stream);
    if m.done > f {
      var tx := h.signed[m.done - 1].tx;
      LiveCall(k12, h, f, m.done - 1);
      if m.w.tick <= tx.target + 3 {
        HeldShowsItsTick(m.w, p, h.slot.stream, tx.commit, tx.target);
        LatestInside(chain, tx.target, AsOf(h.signed, m));
      }
    }
  }

  lemma AlongShows(k12: Hash, p: Provider, j: Joint, k: nat)
    requires Along(k12, p, j) && j.h.slot.state.Live() && j.seen <= k < |j.past| && j.past[k].w.tick <= U32_MAX
    ensures var chain := j.h.slot.chain.value;
      Shown(j.past[k].w, p, j.h.slot.stream) ==
        if chain.last + STREAM_COUNT < j.past[k].w.tick then None else chain.LatestTargetBefore(AsOf(j.h.signed, j.past[k]))
  {
    hide W.StreamOk, Shown, SlotIs, AbsentKey;
    LiveFirst(k12, j.h);
    assert MomentOk(j.h.signed, j.past[k], p, j.h.slot.stream, true) && Before(j.past[j.seen], j.past[k]);
    var f: nat :| HeadAt(j.h.signed, j.h.chainFirst, f);
    hide HistoryOk, MomentsOk, Ordered, MomentOk;
    MomentShows(k12, j.h, j.past[k], p, f);
  }

  lemma LiveFirst(k12: Hash, h: Trace)
    requires HistoryOk(k12, h) && h.slot.state.Live()
    ensures h.slot.stream < 3 && h.slot.chain.Some? && h.slot.chain.value.first == h.chainFirst && h.signed != []
  {
  }

  /** While the slot waits after a lost chain, an answer from after its first target shows nothing
      only when the whole chain is over. */
  lemma NothingMeansOver(k12: Hash, p: Provider, j: Joint, k: nat)
    requires Along(k12, p, j) && j.h.slot.state.Waiting? && j.h.signed != [] && j.seen <= k < |j.past|
    requires j.h.chainFirst < j.past[k].w.tick && AbsentKey(j.past[k].w.c.streams[j.h.slot.stream], p)
    ensures LastTarget(j.h.signed) + 3 < j.past[k].w.tick
  {
    var h, m := j.h, j.past[k];
    assert MomentOk(h.signed, m, p, h.slot.stream, true);
    var f: nat :| HeadAt(h.signed, h.chainFirst, f);
    if 0 < f { TargetsAscend(k12, h.signed, h.slot.stream, 0, f); }
    if m.done < f { TargetsAscend(k12, h.signed, h.slot.stream, m.done, f); }
    assert m.done > f;
    WaitingCall(k12, h, f, m.done - 1);
    hide W.StreamOk, Sealed, Onward, Gaps, HeadOk, Links, Ordered, MomentsOk;
  }

  lemma WaitingCall(k12: Hash, h: Trace, f: nat, i: nat)
    requires HistoryOk(k12, h) && h.slot.state.Waiting? && HeadAt(h.signed, h.chainFirst, f) && f <= i < |h.signed|
    ensures h.signed[i].tx.commit != ZERO_ID
    ensures i + 1 < |h.signed| ==> h.signed[i + 1].tx.target == h.signed[i].tx.target + STREAM_COUNT
  {
    assert SealedEntry(h.signed[i]);
    if i + 1 < |h.signed| { assert Linked(k12, h.signed[i], h.signed[i + 1]); }
    hide ChainOk, CallSet, Gaps, HeadOk;
  }
}
