/** How a slot moves from state to state, exactly: when a chain ends and how, what a drain comes to,
    which calls stay planned, and which a dispatch sends. */
module SlotEnds {
  import opened Basics
  import opened SlotRules
  import opened SlotRuns
  import opened SlotShape
  import opened SlotLinks
  import opened SlotSends
  import opened SlotLog
  import opened SlotFreeze
  import opened SlotFreshness
  import opened SlotMarks
  import opened SlotLives
  import opened SlotFailures
  import opened SlotWaits

  // ---------------------------------------------------------------- a live chain

  /** A call of the current chain that the tick has reached was not accepted. */
  ghost predicate Unaccepted(h: Trace, tick: nat) {
    exists s :: s in h.signed && h.chainFirst <= s.tx.target <= tick && s.tx.target !in h.accepted
  }

  /** The chain is dropped: the slot waits from the next tick on, or is given up where no 32-bit
      tick is left after its tail. */
  predicate Lost(tail: nat, tick: nat, s: SlotState) {
    s == if tail + 3 <= U32_MAX then Waiting(SaturatingAdd(tick, 1), false) else Drained(DrainFailed)
  }

  ghost predicate LiveGoesTo(h: Trace, n: Trace, e: SlotEvent, s: SlotState)
    requires h.signed != []
  {
    var next := LastTarget(h.signed) + 3;
    match e
    case ExpiryDue(tick) => if Unaccepted(h, tick) then Lost(LastTarget(h.signed), tick, s) else s == h.slot.state
    case ExtendAsked(tick, _) => if next <= tick && next <= U32_MAX then Lost(LastTarget(h.signed), tick, s) else s == h.slot.state
    case DrainAsked(reason) => if next <= U32_MAX then s == Draining(reason, next) else s == h.slot.state
    case StatusSeen(_, _) => if |n.streak| < 3 then s.Live() else if next <= U32_MAX then s.Restarting? else s == Drained(DrainFailed)
    case _ => s == h.slot.state
  }

  lemma LiveUnaccepted(k12: Hash, l: Life, tick: nat)
    requires Told(k12, l) && l.h.slot.state.Live()
    ensures l.h.slot.chain.Some?
    ensures AnyExpires(CallsOf(l.h.slot), l.h.slot.chain.value.first, tick) <==> Unaccepted(l.h, tick)
  {
    LiveTail(k12, l);
    AnyExpiresIs(k12, l, tick);
    hide Known, AnyExpires;
    if Unaccepted(l.h, tick) {
      var s :| s in l.h.signed && l.h.chainFirst <= s.tx.target <= tick && s.tx.target !in l.h.accepted;
      assert Overdue(l, s, tick);
    }
  }

  lemma LiveStatus(k12: Hash, l: Life, requested: nat, observed: Option<nat>)
    requires Told(k12, l) && l.h.slot.state.Live() && l.h.signed != []
    ensures var e := StatusSeen(requested, observed); LiveGoesTo(l.h, Next(k12, l.h, e), e, StepSlot(k12, l.h.slot, e).slot.state)
  {
    LiveTail(k12, l);
    assert SlotOk(l.h.slot) by { KnownFacts(k12, l); }
    StatusWatched(l.h.slot, l.h.streak, requested, observed);
    hide Told, SlotOk, ApplyStatus, SignalOf, CountSignal, Mirrors, Rises, WatermarkOk;
  }

  lemma LiveExpiry(k12: Hash, l: Life, tick: nat)
    requires Told(k12, l) && l.h.slot.state.Live() && l.h.signed != []
    ensures var e := ExpiryDue(tick); LiveGoesTo(l.h, Next(k12, l.h, e), e, StepSlot(k12, l.h.slot, e).slot.state)
  {
    LiveTail(k12, l);
    LiveUnaccepted(k12, l, tick);
    hide Told, AnyExpires, Unaccepted, FirstExpiredNormal;
  }

  lemma LiveOther(k12: Hash, l: Life, e: SlotEvent)
    requires Told(k12, l) && l.h.slot.state.Live() && l.h.signed != []
    requires !e.EpochReset? && !e.StatusSeen? && !e.ExpiryDue?
    ensures LiveGoesTo(l.h, Next(k12, l.h, e), e, StepSlot(k12, l.h.slot, e).slot.state)
  {
    hide Known, Watched, Hopeful, Acknowledging, StepSlot, Next, Unaccepted, Lost;
    LiveTail(k12, l);
    hide Told;
    if e.ExtendAsked? { LiveExtend(l.h.slot, e.tick, e.draws, k12); } else { LivePlain(k12, l.h.slot, e); }
  }

  lemma LiveExtend(slot: ManagedSlot, tick: nat, draws: nat -> Option<Bits>, k12: Hash)
    requires slot.state.Live() && slot.chain.Some?
    ensures var s := StepSlot(k12, slot, ExtendAsked(tick, draws)).slot.state;
      var next := slot.chain.value.last + 3;
      if next <= tick && next <= U32_MAX then Lost(slot.chain.value.last, tick, s) else s == slot.state
  {
    hide AnyExpires, FirstExpiredNormal, ExtendTo, ExpireEach;
  }

  lemma LivePlain(k12: Hash, slot: ManagedSlot, e: SlotEvent)
    requires slot.state.Live() && slot.chain.Some?
    requires !e.EpochReset? && !e.StatusSeen? && !e.ExpiryDue? && !e.ExtendAsked?
    ensures var s := StepSlot(k12, slot, e).slot.state;
      var next := slot.chain.value.last + 3;
      if e.DrainAsked? && next <= U32_MAX then s == Draining(e.reason, next) else s == slot.state
  {
    hide HarvestEach, DispatchEach, Retain;
  }

  lemma LiveMoves(k12: Hash, l: Life, e: SlotEvent)
    requires Told(k12, l) && l.h.slot.state.Live() && !e.EpochReset?
    ensures l.h.signed != [] && LiveGoesTo(l.h, Next(k12, l.h, e), e, StepSlot(k12, l.h.slot, e).slot.state)
  {
    LiveTail(k12, l);
    hide Told, LiveGoesTo, Next, StepSlot;
    match e
    case StatusSeen(requested, observed) => LiveStatus(k12, l, requested, observed);
    case ExpiryDue(tick) => LiveExpiry(k12, l, tick);
    case _ => LiveOther(k12, l, e);
  }

  // ---------------------------------------------------------------- drains and waits

  ghost predicate DrainGoesTo(l: Life, e: SlotEvent, s: SlotState)
    requires l.h.slot.state.Draining?
  {
    var terminal := l.h.slot.state.terminalTarget;
    match e
    case ExpiryDue(tick) => s == if AnyOverdue(l, tick) then Drained(DrainFailed) else l.h.slot.state
    case DrainChecked =>
      s == if terminal in l.h.accepted then Drained(DrainAccepted)
           else if terminal in l.failed then Drained(DrainFailed) else l.h.slot.state
    case _ => s == l.h.slot.state
  }

  lemma DrainMoves(k12: Hash, l: Life, e: SlotEvent)
    requires Told(k12, l) && l.h.slot.state.Draining? && !e.EpochReset?
    ensures DrainGoesTo(l, e, StepSlot(k12, l.h.slot, e).slot.state)
    ensures l.h.signed != [] && l.h.slot.state.terminalTarget == LastTarget(l.h.signed)
  {
    assert SlotOk(l.h.slot) && Links(k12, l.h) && CallsKnown(l) by { KnownFacts(k12, l); }
    hide Told, Known, LogOk, SignedOk, CallsSigned, HeadOk, AnyExpires, AnyOverdue, SentTo, SentAgain, TerminalState, FirstExpiredNormal,
         AttemptedTerminal;
    var calls := CallsOf(l.h.slot);
    TerminalIsLast(calls, l.h.slot.chain.value.last, l.h.slot.state);
    assert CallKnown(l, calls[|calls| - 1]);
    if e.ExpiryDue? { AnyExpiresIs(k12, l, e.tick); }
  }

  /** The state of a slot that waits or freezes; `after` is the wait as the history gives it. */
  ghost predicate IdleGoesTo(l: Life, e: SlotEvent, bound: nat, absent: bool, s: SlotState)
    requires Idle(l.h.slot.state)
  {
    match l.h.slot.state
    case Waiting(_, _) =>
      if e.DrainAsked? then s == Drained(NothingToDrain)
      else if e.StartAsked? && s.Starting? then Free(l) && FirstFree(l.h, e.tick, s.firstTarget)
      else s == Waiting(bound, absent) && (e.StartAsked? ==> !(Free(l) && exists t: nat :: FirstFree(l.h, e.tick, t)))
    case Restarting(_, _, _, drain) =>
      var tail := if l.h.signed != [] then LastTarget(l.h.signed) else 0;
      if e.DrainAsked? then
        s == Restarting(tail, bound, absent, Some(if e.reason.Shutdown? || drain == Some(Shutdown) then Shutdown else EpochEnd))
      else if e.RestartChecked? && tail <= e.tick then
        s == if drain.Some? then Drained(NothingToDrain) else Waiting(bound, absent)
      else if e.StartAsked? && s.Starting? then Free(l) && FirstFree(l.h, e.tick, s.firstTarget)
      else s == Restarting(tail, bound, absent, drain) && (e.StartAsked? ==> !(Free(l) && exists t: nat :: FirstFree(l.h, e.tick, t)))
  }

  lemma IdleStarts(k12: Hash, l: Life, tick: nat, preimage: Bits)
    requires Told(k12, l) && Waits(l) && Idle(l.h.slot.state)
    ensures var s := StepSlot(k12, l.h.slot, StartAsked(tick, preimage)).slot.state;
      if s.Starting? then Free(l) && FirstFree(l.h, tick, s.firstTarget)
      else s == l.h.slot.state && !(Free(l) && exists t: nat :: FirstFree(l.h, tick, t))
  {
    assert Links(k12, l.h) by { KnownFacts(k12, l); }
    hide Told, FirstFree, SeenAbsent, Links;
    assert Free(l) <==> MayStart(l.h.slot.state);
    if StartTarget(l.h.slot, tick).Some? { StartTargetIs(k12, l.h, tick, StartTarget(l.h.slot, tick).value); }
    if u: nat :| FirstFree(l.h, tick, u) { StartTargetIs(k12, l.h, tick, u); }
  }

  lemma IdleMoves(k12: Hash, l: Life, e: SlotEvent)
    requires Told(k12, l) && Waits(l) && Idle(l.h.slot.state) && !e.EpochReset?
    requires var n := NextLife(k12, l, e); Waits(n)
    ensures var n := NextLife(k12, l, e); IdleGoesTo(l, e, BoundOf(n), SeenAbsent(n), n.h.slot.state)
  {
    var n := NextLife(k12, l, e);
    assert SlotOk(l.h.slot) && Links(k12, l.h) by { KnownFacts(k12, l); }
    assert l.h.slot.state.Restarting? ==> l.h.signed != [] && l.h.slot.state.frozenTail == LastTarget(l.h.signed) by {
      if l.h.slot.state.Restarting? { IdleTail(k12, l.h); }
    }
    if e.StartAsked? {
      IdleStarts(k12, l, e.tick, e.preimage);
    } else if !e.DrainAsked? {
      IdleStays(k12, l.h.slot, e);
    }
    IdleStep(k12, l.h.slot, e);
    hide Told, FirstFree, SeenAbsent, BoundOf, Links, SlotOk, StepSlot, Free, FreeTarget;
  }

  lemma IdleStep(k12: Hash, slot: ManagedSlot, e: SlotEvent)
    requires SlotOk(slot) && Idle(slot.state) && !e.EpochReset?
    ensures var s := StepSlot(k12, slot, e).slot.state;
      && (e.DrainAsked? && slot.state.Waiting? ==> s == Drained(NothingToDrain))
      && (e.DrainAsked? && slot.state.Restarting? ==>
            s == slot.state.(drainReason := Some(if e.reason.Shutdown? || slot.state.drainReason == Some(Shutdown) then Shutdown else EpochEnd)))
      && (e.RestartChecked? && slot.state.Restarting? && slot.state.frozenTail <= e.tick ==>
            if slot.state.drainReason.Some? then s == Drained(NothingToDrain) else s.Waiting?)
  {
    hide ChainOk;
  }

  lemma IdleTail(k12: Hash, h: Trace)
    requires Links(k12, h) && h.slot.state.Restarting?
    ensures h.signed != [] && h.slot.state.frozenTail == LastTarget(h.signed)
  {
  }

  /** A wait or a freeze keeps its kind, its tail and its drain request where nothing ends it. */
  lemma IdleStays(k12: Hash, slot: ManagedSlot, e: SlotEvent)
    requires SlotOk(slot) && Idle(slot.state) && !e.EpochReset? && !e.DrainAsked? && !e.StartAsked?
    ensures var s := StepSlot(k12, slot, e).slot.state;
      && (slot.state.Waiting? ==> s.Waiting?)
      && (slot.state.Restarting? && !(e.RestartChecked? && slot.state.frozenTail <= e.tick) ==>
            s.Restarting? && s.frozenTail == slot.state.frozenTail && s.drainReason == slot.state.drainReason)
  {
    hide ChainOk;
  }

  /** Where a step takes the slot's state, told from the history before it. */
  ghost predicate GoesTo(k12: Hash, l: Life, e: SlotEvent) {
    var n := NextLife(k12, l, e);
    match l.h.slot.state
    case Waiting(_, _) => IdleGoesTo(l, e, BoundOf(n), SeenAbsent(n), n.h.slot.state)
    case Restarting(_, _, _, _) => IdleGoesTo(l, e, BoundOf(n), SeenAbsent(n), n.h.slot.state)
    case Draining(_, terminal) => l.h.signed != [] && terminal == LastTarget(l.h.signed) && DrainGoesTo(l, e, n.h.slot.state)
    case Drained(_) => n.h.slot == l.h.slot
    case _ => l.h.signed != [] && LiveGoesTo(l.h, n.h, e, n.h.slot.state)
  }

  /** Over every run and for every step short of an epoch change. A live chain is lost by an expiry
      if and only if it passes an unaccepted call of the chain, and by an extension if and only if
      the next continuation was passed; it freezes by an answer if and only if that is the third
      to say the same; a drain request sets the reason asked for and the terminal target. A drain
      fails if and only if an expiry passes an unaccepted call that has not failed before or the
      terminal task failed, and succeeds if and only if the terminal call was accepted. A frozen
      chain is released from its tail on, to nothing where a drain was asked for, in which
      shutdown prevails; a waiting slot has nothing to drain. Nothing else moves a state. */
  lemma StatesAreExact(k12: Hash, stream: nat, l: Life, e: SlotEvent)
    requires Lived(k12, stream, l) && !e.EpochReset?
    ensures GoesTo(k12, l, e)
  {
    LivedWaits(k12, stream, l);
    StepWaits(k12, l, e);
    assert SlotOk(l.h.slot) by { KnownFacts(k12, l); }
    match l.h.slot.state
    case Waiting(_, _) => IdleMoves(k12, l, e);
    case Restarting(_, _, _, _) => IdleMoves(k12, l, e);
    case Draining(_, _) => DrainMoves(k12, l, e);
    case Drained(_) => DrainedStays(k12, l.h.slot, e);
    case _ => LiveMoves(k12, l, e);
    assert NextLife(k12, l, e).h.slot == StepSlot(k12, l.h.slot, e).slot;
    hide Told, SlotOk, StepSlot, IdleGoesTo, LiveGoesTo, DrainGoesTo;
  }

  // ---------------------------------------------------------------- the planned calls

  /** A call that pruning at this tick drops: of an older chain and reached, or of the current one,
      passed and accepted. */
  ghost predicate Prunes(h: Trace, s: Signed, tick: nat) {
    if s.tx.target < h.chainFirst then s.tx.target <= tick else s.tx.target < tick && s.tx.target in h.accepted
  }

  lemma RetainedIs(k12: Hash, l: Life, tick: nat, i: nat)
    requires Known(k12, l) && l.h.slot.chain.Some? && i < |CallsOf(l.h.slot)|
    ensures Retained(CallsOf(l.h.slot)[i], l.h.slot.chain.value.first, tick) <==> !Prunes(l.h, SignedOf(CallsOf(l.h.slot)[i]), tick)
  {
    KnownFacts(k12, l);
    PlannedIsSigned(l.h.signed, CallsOf(l.h.slot), l.h.slot.stream, i);
    assert CallKnown(l, CallsOf(l.h.slot)[i]);
    hide Known, SlotOk, CallsKnown, LogOk, SignedOk, OnlySigned, CallsSigned, AcceptedOk, StillPlanned, SentTo, SentAgain;
  }

  lemma PruneIs(k12: Hash, l: Life, tick: nat, s: Signed)
    requires Known(k12, l) && l.h.slot.chain.Some? && !l.h.slot.state.Draining?
    ensures s in CallSet(CallsOf(PruneCalls(l.h.slot, tick))) <==> s in CallSet(CallsOf(l.h.slot)) && !Prunes(l.h, s, tick)
  {
    hide Known, Retained, Prunes;
    var chain := l.h.slot.chain.value;
    var a, b := chain.calls, Retain(chain.calls, chain.first, tick);
    if s in CallSet(a) && !Prunes(l.h, s, tick) {
      var i :| 0 <= i < |a| && s == SignedOf(a[i]);
      RetainedIs(k12, l, tick, i);
      RetainHas(a, chain.first, tick, a[i]);
      var j :| 0 <= j < |b| && b[j] == a[i];
    }
    if s in CallSet(b) {
      var j :| 0 <= j < |b| && s == SignedOf(b[j]);
      RetainIn(a, chain.first, tick, b[j]);
      var i :| 0 <= i < |a| && a[i] == b[j];
      RetainedIs(k12, l, tick, i);
    }
  }

  /** Signing appends to the calls. */
  lemma PlanningGrows(k12: Hash, h: Trace, e: SlotEvent)
    requires Links(k12, h) && (e.StartAsked? || e.ExtendAsked? || e.DrainAsked?)
    ensures var n := StepSlot(k12, h.slot, e).slot;
      n.chain.Some? ==> |CallsOf(h.slot)| <= |CallsOf(n)| && CallsOf(n)[..|CallsOf(h.slot)|] == CallsOf(h.slot)
  {
    match e
    case StartAsked(tick, preimage) =>
    case ExtendAsked(tick, draws) =>
      if h.slot.state.Live() && !Missed(h.slot, tick) && CheckedAdd(tick, SEND_LEAD_TICKS).Some? {
        ExtendSigns(k12, h.slot.chain.value, tick + SEND_LEAD_TICKS, draws, 0);
      } else {
        ExpireKeeps(h.slot, tick);
      }
    case DrainAsked(reason) =>
    hide ExtendTo, SignedFrom, SignedOk, HeadOk, CallsSigned, CallsOk;
  }

  lemma {:induction false} SignedFromIs(calls: seq<PlannedCall>, n: nat, s: Signed)
    ensures s in SignedFrom(calls, n) <==> exists i :: n <= i < |calls| && s == SignedOf(calls[i])
    decreases |calls| - n
  {
    if n < |calls| {
      SignedFromIs(calls, n + 1, s);
      assert s in SignedFrom(calls, n) <==> s == SignedOf(calls[n]) || s in SignedFrom(calls, n + 1);
    }
    hide SignedFrom, SignedOf;
  }

  lemma GrownSet(a: seq<PlannedCall>, b: seq<PlannedCall>, s: Signed)
    requires |a| <= |b| && b[..|a|] == a
    ensures s in CallSet(b) <==> s in CallSet(a) || s in SignedFrom(b, |a|)
  {
    SignedFromIs(b, |a|, s);
    assert forall i :: 0 <= i < |a| ==> b[i] == b[..|a|][i] == a[i];
  }

  /** Over every run: as long as a chain is managed, exactly the calls signed stay planned, until
      pruning drops those of an older chain that are reached and those of the current one that
      are passed and accepted; a draining slot drops none. */
  lemma PlannedCallsAreExact(k12: Hash, stream: nat, l: Life, e: SlotEvent, s: Signed)
    requires Lived(k12, stream, l) && !e.EpochReset?
    ensures var n := Next(k12, l.h, e);
      n.slot.chain.Some? ==>
        (s in CallSet(CallsOf(n.slot)) <==>
          || s in NewlySigned(l.h.slot, n.slot, e)
          || (s in CallSet(CallsOf(l.h.slot)) && (e.Pruned? && !n.slot.state.Draining? ==> !Prunes(l.h, s, e.tick))))
  {
    LivedIsTold(k12, stream, l);
    KnownFacts(k12, l);
    var n := StepSlot(k12, l.h.slot, e).slot;
    hide Told, Known, SlotOk, CallsKnown, LogOk, SignedOk, OnlySigned, CallsSigned, AcceptedOk, StillPlanned, Links, Prunes, CallSet;
    if n.chain.Some? {
      if e.StartAsked? || e.ExtendAsked? || e.DrainAsked? {
        PlanningGrows(k12, l.h, e);
        GrownSet(CallsOf(l.h.slot), CallsOf(n), s);
      } else if e.Pruned? {
        if l.h.slot.chain.Some? && !l.h.slot.state.Draining? { PruneIs(k12, l, e.tick, s); }
      } else {
        OthersKeepCalls(k12, l.h.slot, e);
      }
    }
  }

  lemma OthersKeepCalls(k12: Hash, slot: ManagedSlot, e: SlotEvent)
    requires SlotOk(slot) && !e.EpochReset? && !e.StartAsked? && !e.ExtendAsked? && !e.DrainAsked? && !e.Pruned?
    ensures var n := StepSlot(k12, slot, e).slot; n.chain.Some? ==> CallSet(CallsOf(n)) == CallSet(CallsOf(slot))
  {
    var n := StepSlot(k12, slot, e).slot;
    match e
    case Polled(polls) =>
      if slot.chain.Some? {
        HarvestEachOk(CallsOf(slot), slot.stream, polls, ShutdownDrain(slot.state));
        SameCallSet(CallsOf(slot), HarvestEach(CallsOf(slot), polls, ShutdownDrain(slot.state)));
      }
    case ExpiryDue(tick) =>
      if n.chain.Some? {
        ExpireEachOk(CallsOf(slot), slot.stream, tick);
        SameCallSet(CallsOf(slot), ExpireEach(CallsOf(slot), tick));
      }
    case DispatchDue(tick) =>
      if slot.chain.Some? {
        DispatchEachOk(CallsOf(slot), slot.stream, ContextOf(slot, tick));
        SameCallSet(CallsOf(slot), DispatchEach(CallsOf(slot), ContextOf(slot, tick)));
      }
    case StatusSeen(requested, observed) => StatusIsPlain(slot, requested, observed);
    case _ =>
    hide CallSet, ApplyStatus, HarvestEach, ExpireEach, DispatchEach, SameCalls, ContextOf;
  }

  // ---------------------------------------------------------------- dispatch

  /** The call waits for its first delivery or for another try: it was neither accepted nor failed,
      no task of it runs, and a terminal call has its whole chain accepted before it. */
  ghost predicate FirstDue(l: Life, s: Signed) {
    && s.tx.target !in l.h.accepted && s.tx.target !in l.failed && s.tx.target !in l.running
    && (s.kind.TerminalReveal? ==> ChainAccepted(l.h.signed, l.h.accepted, l.h.chainFirst, s.tx.target))
  }

  /** The accepted call of a live chain is due for its one redundant delivery. */
  ghost predicate AgainDue(l: Life, s: Signed, tick: nat) {
    && l.h.slot.state.Live() && l.h.chainFirst <= s.tx.target && s.tx.target in l.h.accepted && !s.kind.TerminalReveal?
    && !SentAgain(l.h, s.tx.target) && 3 <= s.tx.target - tick <= (if s.kind.FirstCommit? then 4 else 3)
  }

  /** Over every run: a dispatch sends a call if and only if it is planned, at most six ticks ahead
      (four if it opens a commit), and due for its first delivery, another try or its redundant
      delivery. None is forgotten, and none is given up. */
  lemma DispatchIsComplete(k12: Hash, stream: nat, l: Life, tick: nat, s: Signed)
    requires Lived(k12, stream, l)
    ensures (exists e :: e in NewlySent(l.h, DispatchDue(tick)) && e.call == s) <==>
      && s in CallSet(CallsOf(l.h.slot)) && 1 <= s.tx.target - tick <= (if s.kind.FirstCommit? then 6 else 4)
      && (FirstDue(l, s) || AgainDue(l, s, tick))
  {
    LivedIsTold(k12, stream, l);
    assert Known(k12, l);
    hide Told, Known, FirstDue, AgainDue, CallSet;
    var calls := CallsOf(l.h.slot);
    assert s in CallSet(calls) <==> exists i :: 0 <= i < |calls| && s == SignedOf(calls[i]) by { SetOfCalls(calls, s); }
    if e :| e in NewlySent(l.h, DispatchDue(tick)) && e.call == s {
      SentByIs(l.h, calls, ContextOf(l.h.slot, tick), |calls|, e);
      var i :| 0 <= i < |calls| && e == SentOf(l.h, calls[i], ContextOf(l.h.slot, tick));
      DuePlanned(k12, l, tick, i);
    }
    hide NewlySent;
    if s in CallSet(calls) {
      var i :| 0 <= i < |calls| && s == SignedOf(calls[i]);
      DuePlanned(k12, l, tick, i);
    }
  }

  lemma SetOfCalls(calls: seq<PlannedCall>, s: Signed)
    ensures s in CallSet(calls) <==> exists i :: 0 <= i < |calls| && s == SignedOf(calls[i])
  {
  }

  lemma DuePlanned(k12: Hash, l: Life, tick: nat, i: nat)
    requires Known(k12, l) && i < |CallsOf(l.h.slot)|
    ensures l.h.slot.chain.Some?
    ensures var s := SignedOf(CallsOf(l.h.slot)[i]);
      (exists e :: e in NewlySent(l.h, DispatchDue(tick)) && e.call == s) <==>
        && 1 <= s.tx.target - tick <= (if s.kind.FirstCommit? then 6 else 4)
        && (FirstDue(l, s) || AgainDue(l, s, tick))
  {
    KnownFacts(k12, l);
    var c := CallsOf(l.h.slot)[i];
    assert CallKnown(l, c);
    assert CallOk(c, l.h.slot.stream);
    SentExactly(l.h, tick, i);
    DecidesByHistory(k12, l.h, tick, i);
    hide Known, SlotOk, CallsKnown, LogOk, SignedOk, OnlySigned, CallsSigned, AcceptedOk, StillPlanned, Links, Goes, SentTo, SentAgain,
         ChainAccepted, NewlySent;
  }
}
