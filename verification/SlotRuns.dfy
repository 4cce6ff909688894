/** Runs of one stream: any sequence of engine steps with any ticks, any task results and any
    status answers, together with the history that the safety statements talk about. */
module SlotRuns {
  import opened Basics
  import opened SlotRules

  datatype SlotEvent =
    | EpochReset
    | Polled(polls: nat -> Poll)
    | StatusSeen(requested: nat, observed: Option<nat>)
    | DrainAsked(reason: DrainReason)
    | StartAsked(tick: nat, preimage: Bits)
    | ExtendAsked(tick: nat, draws: nat -> Option<Bits>)
    | ExpiryDue(tick: nat)
    | DispatchDue(tick: nat)
    | DrainChecked
    | RestartChecked(tick: nat)
    | Pruned(tick: nat)

  /** One step; an error return leaves the slot unchanged. */
  function StepSlot(k12: Hash, slot: ManagedSlot, e: SlotEvent): Outcome {
    match e
    case EpochReset => Outcome(FreshSlot(slot.stream), [])
    case Polled(polls) => HarvestBroadcasts(slot, polls)
    case StatusSeen(requested, observed) => ApplyStatus(slot, requested, observed)
    case DrainAsked(reason) =>
      Outcome(if EnterDrain(slot, reason).Some? then EnterDrain(slot, reason).value else slot, [])
    case StartAsked(tick, preimage) =>
      Outcome(if StartIfReady(k12, slot, tick, preimage).Some? then StartIfReady(k12, slot, tick, preimage).value
              else slot, [])
    case ExtendAsked(tick, draws) =>
      if ExtendChain(k12, slot, tick, draws).Some? then ExtendChain(k12, slot, tick, draws).value
      else Outcome(slot, [])
    case ExpiryDue(tick) => ExpireCalls(slot, tick)
    case DispatchDue(tick) => DispatchCalls(slot, tick)
    case DrainChecked => Outcome(FinishDrain(slot), [])
    case RestartChecked(tick) => Outcome(FinishStatusRestart(slot, tick), [])
    case Pruned(tick) => Outcome(PruneCalls(slot, tick), [])
  }

  // ---------------------------------------------------------------- history

  datatype Signed = Signed(tx: SignedTx, kind: CallKind)

  /** One broadcast: the bytes, when, whether it is the redundant one, and what held just before
      it: a task of this call was still running, the backend had accepted the call, every earlier
      call of its chain had been accepted, and the kind of drain. */
  datatype Sent = Sent(call: Signed, tick: nat, again: bool, first: nat, wasBusy: bool, wasAccepted: bool,
                       prerequisitesMet: bool, inShutdown: bool)

  datatype Observation = Observation(requested: nat, observed: Option<nat>)

  datatype Counted = Counted(evidence: Evidence, requested: nat)

  /** The slot and what happened to it since the epoch began; `failures` counts those reported
      since the latest chain start, `marks` are all reported outcomes, `starts` all chain starts. */
  datatype Trace = Trace(slot: ManagedSlot, signed: seq<Signed>, sent: seq<Sent>, accepted: set<nat>,
                         chainFirst: nat, failures: nat, seen: seq<Observation>, streak: seq<Counted>,
                         marks: seq<Mark>, starts: nat)

  function CallsOf(slot: ManagedSlot): seq<PlannedCall> {
    if slot.chain.Some? then slot.chain.value.calls else []
  }

  function SignedOf(c: PlannedCall): Signed { Signed(c.tx, c.kind) }

  function SignedFrom(calls: seq<PlannedCall>, n: nat): seq<Signed>
    decreases |calls| - n
  {
    if |calls| <= n then [] else [SignedOf(calls[n])] + SignedFrom(calls, n + 1)
  }

  /** Calls that a planning step appended. */
  function NewlySigned(before: ManagedSlot, after: ManagedSlot, e: SlotEvent): seq<Signed> {
    if e.StartAsked? || e.ExtendAsked? || e.DrainAsked? then SignedFrom(CallsOf(after), |CallsOf(before)|) else []
  }

  predicate Started(k12: Hash, slot: ManagedSlot, e: SlotEvent) {
    e.StartAsked? && MayStart(slot.state) && StartTarget(slot, e.tick).Some?
  }

  ghost predicate ChainAccepted(signed: seq<Signed>, accepted: set<nat>, first: nat, before: nat) {
    forall s :: s in signed && first <= s.tx.target < before ==> s.tx.target in accepted
  }

  ghost function SentOf(h: Trace, c: PlannedCall, x: Context): Sent {
    Sent(SignedOf(c), x.tick, Decide(c, x).SendAgain?, x.first, c.inFlight, c.target in h.accepted,
         ChainAccepted(h.signed, h.accepted, h.chainFirst, c.target), x.shutdownDrain)
  }

  ghost function SentBy(h: Trace, calls: seq<PlannedCall>, x: Context, n: nat): seq<Sent>
    requires n <= |calls|
  {
    if n == 0 then []
    else
      SentBy(h, calls, x, n - 1) +
      (if Decide(calls[n - 1], x).Send? || Decide(calls[n - 1], x).SendAgain? then [SentOf(h, calls[n - 1], x)] else [])
  }

  ghost function NewlySent(h: Trace, e: SlotEvent): seq<Sent> {
    if e.DispatchDue? && h.slot.chain.Some? then
      SentBy(h, CallsOf(h.slot), ContextOf(h.slot, e.tick), |CallsOf(h.slot)|)
    else []
  }

  function AcceptedBy(slot: ManagedSlot, e: SlotEvent): set<nat> {
    if e.Polled? then
      set i | 0 <= i < |CallsOf(slot)| && NewlyAccepted(CallsOf(slot)[i], e.polls(i)) :: CallsOf(slot)[i].target
    else {}
  }

  function Failures(marks: seq<Mark>): nat {
    if marks == [] then 0 else (if marks[0].Failure? then 1 else 0) + Failures(marks[1..])
  }

  // ---------------------------------------------------------------- counted status evidence

  /** What a status observation says about a live chain. */
  datatype Signal = Silent | Clearing | Evident(evidence: Evidence) | ClearingThen(evidence: Evidence)

  /** A target of the chain: on its residue, from its first to its last. */
  predicate OnChain(chain: Chain, target: nat) {
    chain.first <= target <= chain.last && target % STREAM_COUNT == chain.first % STREAM_COUNT
  }

  /** The next target after the acknowledged one is a lag if it is planned and was due. */
  function LagAfter(chain: Chain, acknowledged: nat, requested: nat): Option<Evidence> {
    var missing := acknowledged + STREAM_COUNT;
    if missing <= chain.last && missing < requested then Some(Lag(missing)) else None
  }

  function SignalOf(slot: ManagedSlot, streak: seq<Counted>, requested: nat, observed: Option<nat>): Signal {
    if !slot.state.Live() || slot.chain.None? then Silent
    else
      var chain := slot.chain.value;
      if observed.Some? && OnChain(chain, observed.value) then
        var t := observed.value;
        var lag := LagAfter(chain, t, requested);
        if chain.confirmed.Some? && t < chain.confirmed.value then Silent
        else if chain.confirmed != Some(t) then if lag.Some? then ClearingThen(lag.value) else Clearing
        else if streak != [] && requested <= streak[|streak| - 1].requested then Silent
        else if lag.Some? then Evident(lag.value)
        else Clearing
      else if slot.state.Starting? && requested <= slot.state.firstTarget then Silent
      else Evident(if observed.Some? then Foreign(observed.value) else Absent)
  }

  /** Evidence that says the same again: two absences, update ticks off the chain that do not
      fall, or the same missing target. */
  predicate Repeats(a: Evidence, b: Evidence) {
    || (a == Absent && b == Absent)
    || (a.Foreign? && b.Foreign? && a.lastUpdate <= b.lastUpdate)
    || (a.Lag? && a == b)
  }

  /** The reference count: request ticks strictly increase, each piece of evidence repeats
      the one before; anything else starts again at one. */
  function Count(streak: seq<Counted>, e: Evidence, requested: nat): seq<Counted> {
    if streak == [] then [Counted(e, requested)]
    else
      var latest := streak[|streak| - 1];
      if requested <= latest.requested then streak
      else if Repeats(latest.evidence, e) then streak + [Counted(e, requested)]
      else [Counted(e, requested)]
  }

  function CountSignal(streak: seq<Counted>, signal: Signal, requested: nat): seq<Counted> {
    match signal
    case Silent => streak
    case Clearing => []
    case Evident(e) => Count(streak, e, requested)
    case ClearingThen(e) => Count([], e, requested)
  }

  function NextStreak(k12: Hash, h: Trace, e: SlotEvent): seq<Counted> {
    if Started(k12, h.slot, e) then []
    else if e.StatusSeen? then
      CountSignal(h.streak, SignalOf(h.slot, h.streak, e.requested, e.observed), e.requested)
    else h.streak
  }

  // ---------------------------------------------------------------- runs

  function Begin(stream: nat): Trace { Trace(FreshSlot(stream), [], [], {}, 0, 0, [], [], [], 0) }

  ghost function Next(k12: Hash, h: Trace, e: SlotEvent): Trace {
    if e.EpochReset? then Begin(h.slot.stream)
    else
      var o := StepSlot(k12, h.slot, e);
      var started := Started(k12, h.slot, e);
      Trace(o.slot,
            h.signed + NewlySigned(h.slot, o.slot, e),
            h.sent + NewlySent(h, e),
            h.accepted + AcceptedBy(h.slot, e),
            if started && o.slot.chain.Some? then o.slot.chain.value.first else h.chainFirst,
            if started then 0 else h.failures + Failures(o.marks),
            if e.StatusSeen? then h.seen + [Observation(e.requested, e.observed)] else h.seen,
            NextStreak(k12, h, e),
            h.marks + o.marks,
            if started then h.starts + 1 else h.starts)
  }

  ghost function RunSlot(k12: Hash, h: Trace, events: seq<SlotEvent>): Trace
    decreases |events|
  {
    if events == [] then h else RunSlot(k12, Next(k12, h, events[0]), events[1..])
  }

  lemma {:induction false} RunAppend(k12: Hash, h: Trace, events: seq<SlotEvent>, e: SlotEvent)
    ensures RunSlot(k12, h, events + [e]) == Next(k12, RunSlot(k12, h, events), e)
    decreases |events|
  {
    if events == [] {
      assert events + [e] == [e] && [e][1..] == [];
    } else {
      assert (events + [e])[1..] == events[1..] + [e];
      RunAppend(k12, Next(k12, h, events[0]), events[1..], e);
    }
  }

  /** Some run of the stream leads here. */
  ghost predicate Reachable(k12: Hash, stream: nat, h: Trace) {
    stream < STREAM_COUNT && exists events :: RunSlot(k12, Begin(stream), events) == h
  }
}
