/** One stream of the provider engine on values: the slot, its chain of signed calls, and what
    each engine method does to them. Marks go to the delivery counters. */
module SlotRules {
  import opened Basics

  const STREAM_COUNT: nat := 3
  const SEND_LEAD_TICKS: nat := 6
  const REVEAL_SEND_LEAD_TICKS: nat := 4
  const REDUNDANT_SEND_LEAD_TICKS: nat := 4
  const TICK_DATA_PUBLICATION_LEAD_TICKS: nat := 2
  const STATUS_CONFIRMATIONS_REQUIRED: nat := 3

  // ---------------------------------------------------------------- data

  datatype CallKind = FirstCommit | RevealCommit | TerminalReveal

  datatype BroadcastState = Ready | Broadcasting | Retry | Accepted | Failed

  /** Immutable signed bytes: the target tick and the procedure input they carry. */
  datatype SignedTx = SignedTx(target: nat, preimage: Bits, commit: Id)

  datatype PlannedCall = PlannedCall(target: nat, tx: SignedTx, kind: CallKind, state: BroadcastState,
                                     inFlight: bool, redundantAttempted: bool)

  datatype Evidence = Absent | Foreign(lastUpdate: nat) | Lag(missing: nat)

  datatype Suspicion = Suspicion(evidence: Evidence, confirmations: nat, firstRequested: nat, lastRequested: nat)

  datatype Chain = Chain(first: nat, last: nat, confirmed: Option<nat>, suspicion: Option<Suspicion>,
                         preimage: Bits, calls: seq<PlannedCall>)
  {
    predicate Owns(target: nat) {
      first <= target <= last && (target - first) % STREAM_COUNT == 0
    }

    function LatestTargetBefore(tick: nat): Option<nat> {
      if tick == 0 || Min(tick - 1, last) < first then None
      else Some(first + (Min(tick - 1, last) - first) / STREAM_COUNT * STREAM_COUNT)
    }
  }

  datatype DrainReason = EpochEnd | Shutdown

  datatype DrainOutcome = NothingToDrain | DrainAccepted | DrainFailed

  datatype SlotState =
    | Waiting(absenceAfter: nat, absenceObserved: bool)
    | Starting(firstTarget: nat)
    | Active
    | Restarting(frozenTail: nat, absenceAfter: nat, absenceObserved: bool, drainReason: Option<DrainReason>)
    | Draining(reason: DrainReason, terminalTarget: nat)
    | Drained(outcome: DrainOutcome)
  {
    predicate Live() { Starting? || Active? }
  }

  datatype ManagedSlot = ManagedSlot(stream: nat, state: SlotState, chain: Option<Chain>, restartAt: nat)

  /** A financial target reported to the delivery counters: accepted, or failed. */
  datatype Mark = Success(target: nat) | Failure(target: nat)

  datatype Outcome = Outcome(slot: ManagedSlot, marks: seq<Mark>)

  function FreshSlot(stream: nat): ManagedSlot { ManagedSlot(stream, Waiting(0, false), None, 0) }

  function NextStreamTick(from: nat, stream: nat): Option<nat> {
    CheckedAdd(from, (stream + STREAM_COUNT - from % STREAM_COUNT) % STREAM_COUNT)
  }

  // ---------------------------------------------------------------- status evidence

  predicate Agrees(a: Evidence, b: Evidence) {
    match a
    case Absent => b.Absent?
    case Foreign(previous) => b.Foreign? && previous <= b.lastUpdate
    case Lag(previous) => b.Lag? && previous == b.missing
  }

  function NewSuspicion(e: Evidence, requested: nat): Suspicion { Suspicion(e, 1, requested, requested) }

  function Observe(s: Suspicion, e: Evidence, requested: nat): Suspicion {
    if requested <= s.lastRequested then s
    else if !Agrees(s.evidence, e) then NewSuspicion(e, requested)
    else Suspicion(e, Min(s.confirmations + 1, STATUS_CONFIRMATIONS_REQUIRED), s.firstRequested, requested)
  }

  function FinancialFailureTarget(chain: Chain, e: Evidence): Option<nat> {
    var target := match e
      case Absent => if chain.confirmed.None? then None else CheckedAdd(chain.confirmed.value, STREAM_COUNT)
      case Lag(missing) => Some(missing)
      case Foreign(_) => None;
    if target.Some? && chain.first < target.value <= chain.last then target else None
  }

  function BeginStatusRestart(slot: ManagedSlot, absenceAfter: nat, absenceObserved: bool): ManagedSlot {
    if slot.chain.None? then slot
    else
      var tail := slot.chain.value.last;
      if CheckedAdd(tail, STREAM_COUNT).None? then
        ManagedSlot(slot.stream, Drained(DrainFailed), None, U32_MAX)
      else
        ManagedSlot(slot.stream, Restarting(tail, absenceAfter, absenceObserved, None), slot.chain, tail + STREAM_COUNT)
  }

  function LoseChain(slot: ManagedSlot, absenceAfter: nat, absenceObserved: bool): ManagedSlot {
    var tail := if slot.chain.Some? then slot.chain.value.last else slot.restartAt;
    if CheckedAdd(tail, STREAM_COUNT).None? then
      ManagedSlot(slot.stream, Drained(DrainFailed), None, U32_MAX)
    else
      ManagedSlot(slot.stream, Waiting(absenceAfter, absenceObserved), None, tail + STREAM_COUNT)
  }

  /** What a suspicion confirmed by its last observation makes of the slot. */
  function Freeze(slot: ManagedSlot, s: Suspicion): Outcome
    requires slot.chain.Some?
  {
    var failed := FinancialFailureTarget(slot.chain.value, s.evidence);
    Outcome(if s.evidence.Absent? then BeginStatusRestart(slot, s.lastRequested, true)
            else BeginStatusRestart(slot, SaturatingAdd(s.lastRequested, 1), false),
            if failed.Some? then [Failure(failed.value)] else [])
  }

  function ObserveEvidence(slot: ManagedSlot, e: Evidence, requested: nat): Outcome {
    if slot.chain.None? then Outcome(slot, [])
    else
      var chain := slot.chain.value;
      if chain.suspicion.Some? && requested <= chain.suspicion.value.lastRequested then Outcome(slot, [])
      else
        var s := if chain.suspicion.None? then NewSuspicion(e, requested)
                 else Observe(chain.suspicion.value, e, requested);
        var n := slot.(chain := Some(chain.(suspicion := Some(s))));
        if s.confirmations < STATUS_CONFIRMATIONS_REQUIRED then Outcome(n, []) else Freeze(n, s)
  }

  /** An owned update tick moves the watermark; a due target beyond it is evidence of a lag. */
  function ApplyWatermark(slot: ManagedSlot, confirmed: nat, requested: nat): Outcome {
    if slot.chain.None? then Outcome(slot, [])
    else
      var chain := slot.chain.value;
      if chain.confirmed.Some? && confirmed < chain.confirmed.value then Outcome(slot, [])
      else
        var advanced := chain.confirmed != Some(confirmed);
        if !advanced && chain.suspicion.Some? && requested <= chain.suspicion.value.lastRequested then Outcome(slot, [])
        else
          var cleared := slot.(chain := Some(chain.(confirmed := Some(confirmed), suspicion := None)));
          var due := chain.LatestTargetBefore(requested);
          if due.None? || due.value <= confirmed then Outcome(cleared, [])
          else
            var kept := if advanced then cleared else slot;
            if CheckedAdd(confirmed, STREAM_COUNT).None? then Outcome(kept, [])
            else ObserveEvidence(kept, Lag(confirmed + STREAM_COUNT), requested)
  }

  predicate ChainOwns(slot: ManagedSlot, target: nat) { slot.chain.Some? && slot.chain.value.Owns(target) }

  /** One status observation; `observed` is the slot's last update tick, or None when absent. */
  function ApplyStatus(slot: ManagedSlot, requested: nat, observed: Option<nat>): Outcome {
    match slot.state
    case Waiting(after, _) =>
      Outcome(if observed.Some? then slot.(state := Waiting(Max(after, SaturatingAdd(requested, 1)), false))
              else if requested >= after then slot.(state := Waiting(after, true)) else slot, [])
    case Starting(first) =>
      if observed.Some? && ChainOwns(slot, observed.value) then
        ApplyWatermark(slot.(state := Active), observed.value, requested)
      else if requested > first then
        ObserveEvidence(slot, if observed.Some? then Foreign(observed.value) else Absent, requested)
      else Outcome(slot, [])
    case Active =>
      if observed.Some? && ChainOwns(slot, observed.value) then ApplyWatermark(slot, observed.value, requested)
      else ObserveEvidence(slot, if observed.Some? then Foreign(observed.value) else Absent, requested)
    case Restarting(tail, after, _, drain) =>
      Outcome(if observed.Some? then
                slot.(state := Restarting(tail, Max(after, SaturatingAdd(requested, 1)), false, drain))
              else if requested >= after then slot.(state := Restarting(tail, after, true, drain))
              else slot, [])
    case Draining(_, _) => Outcome(slot, [])
    case Drained(_) => Outcome(slot, [])
  }

  // ---------------------------------------------------------------- planning

  function Plan(target: nat, preimage: Bits, commit: Id, kind: CallKind): PlannedCall {
    PlannedCall(target, SignedTx(target, preimage, commit), kind, Ready, false, false)
  }

  predicate MayStart(state: SlotState) {
    (state.Waiting? && state.absenceObserved) || (state.Restarting? && state.absenceObserved && state.drainReason.None?)
  }

  /** The target of a fresh chain, unless it does not fit 32 bits. */
  function StartTarget(slot: ManagedSlot, tick: nat): Option<nat> {
    if CheckedAdd(tick, SEND_LEAD_TICKS).None? then None
    else NextStreamTick(Max(tick + SEND_LEAD_TICKS, slot.restartAt), slot.stream)
  }

  function StartChain(k12: Hash, slot: ManagedSlot, target: nat, preimage: Bits): ManagedSlot {
    var calls := if slot.chain.Some? then slot.chain.value.calls else [];
    ManagedSlot(slot.stream, Starting(target),
                Some(Chain(target, target, None, None, preimage,
                           calls + [Plan(target, ZERO_BITS, k12(preimage), FirstCommit)])),
                slot.restartAt)
  }

  /** None is the error return, which leaves the slot as it was. */
  function StartIfReady(k12: Hash, slot: ManagedSlot, tick: nat, preimage: Bits): Option<ManagedSlot> {
    if !MayStart(slot.state) then Some(slot)
    else if StartTarget(slot, tick).None? then None
    else Some(StartChain(k12, slot, StartTarget(slot, tick).value, preimage))
  }

  predicate CanExtend(chain: Chain, horizon: nat) {
    CheckedAdd(chain.last, STREAM_COUNT).Some? && chain.last + STREAM_COUNT <= horizon
  }

  /** One planned continuation: it opens the outstanding commit and makes a new one. */
  function Continue(k12: Hash, chain: Chain, preimage: Bits): Chain {
    chain.(last := chain.last + STREAM_COUNT, preimage := preimage,
           calls := chain.calls + [Plan(chain.last + STREAM_COUNT, chain.preimage, k12(preimage), RevealCommit)])
  }

  /** The planning loop; `draws` supplies the random preimages, from the n-th on, or none where
      the wallet fails to sign the call, which ends the loop. */
  function ExtendTo(k12: Hash, chain: Chain, horizon: nat, draws: nat -> Option<Bits>, n: nat): Chain
    decreases horizon - chain.last
  {
    if CanExtend(chain, horizon) && draws(n).Some? then ExtendTo(k12, Continue(k12, chain, draws(n).value), horizon, draws, n + 1)
    else chain
  }

  predicate Missed(slot: ManagedSlot, tick: nat) {
    slot.chain.Some? && CheckedAdd(slot.chain.value.last, STREAM_COUNT).Some?
    && slot.chain.value.last + STREAM_COUNT <= tick
  }

  /** A required continuation was passed before it was planned. */
  function LoseMissed(slot: ManagedSlot, tick: nat): Outcome
    requires slot.chain.Some?
  {
    var e := ExpireCalls(slot, tick);
    if e.slot.state.Live() then
      Outcome(LoseChain(e.slot, SaturatingAdd(tick, 1), false),
              e.marks + [Failure(slot.chain.value.last + STREAM_COUNT)])
    else e
  }

  function ExtendChain(k12: Hash, slot: ManagedSlot, tick: nat, draws: nat -> Option<Bits>): Option<Outcome> {
    if !slot.state.Live() then Some(Outcome(slot, []))
    else if Missed(slot, tick) then Some(LoseMissed(slot, tick))
    else if CheckedAdd(tick, SEND_LEAD_TICKS).None? then None
    else if slot.chain.None? then Some(Outcome(slot, []))
    else Some(Outcome(slot.(chain := Some(ExtendTo(k12, slot.chain.value, tick + SEND_LEAD_TICKS, draws, 0))), []))
  }

  // ---------------------------------------------------------------- drain

  function MergeReason(prior: Option<DrainReason>, reason: DrainReason): DrainReason {
    if reason.Shutdown? || prior == Some(Shutdown) then Shutdown else EpochEnd
  }

  function EnterDrain(slot: ManagedSlot, reason: DrainReason): Option<ManagedSlot> {
    match slot.state
    case Draining(_, _) => Some(slot)
    case Drained(_) => Some(slot)
    case Waiting(_, _) => Some(slot.(state := Drained(NothingToDrain)))
    case Restarting(tail, after, observed, prior) =>
      Some(slot.(state := Restarting(tail, after, observed, Some(MergeReason(prior, reason)))))
    case _ =>
      if slot.chain.None? || CheckedAdd(slot.chain.value.last, STREAM_COUNT).None? then None
      else
        var chain := slot.chain.value;
        var target := chain.last + STREAM_COUNT;
        Some(slot.(state := Draining(reason, target),
                   chain := Some(chain.(calls := chain.calls + [Plan(target, chain.preimage, ZERO_ID, TerminalReveal)]))))
  }

  // ---------------------------------------------------------------- expiry

  predicate Final(s: BroadcastState) { s.Accepted? || s.Failed? }

  function ExpireCall(c: PlannedCall, tick: nat): PlannedCall {
    if tick < c.target then c
    else c.(inFlight := false, state := if Final(c.state) then c.state else Failed)
  }

  function ExpireEach(calls: seq<PlannedCall>, tick: nat): (n: seq<PlannedCall>)
    ensures |n| == |calls|
  {
    seq(|calls|, i requires 0 <= i < |calls| => ExpireCall(calls[i], tick))
  }

  /** A call of the current chain that fails by this expiry. */
  predicate Expires(c: PlannedCall, first: nat, tick: nat) {
    c.target <= tick && !Final(c.state) && first <= c.target
  }

  predicate AnyExpires(calls: seq<PlannedCall>, first: nat, tick: nat) {
    exists i :: 0 <= i < |calls| && Expires(calls[i], first, tick)
  }

  function FirstExpiredNormal(calls: seq<PlannedCall>, first: nat, tick: nat): Option<nat> {
    if calls == [] then None
    else if Expires(calls[0], first, tick) && calls[0].kind.RevealCommit? then Some(calls[0].target)
    else FirstExpiredNormal(calls[1..], first, tick)
  }

  function AttemptedTerminal(calls: seq<PlannedCall>, first: nat, tick: nat): Option<nat> {
    if calls == [] then None
    else
      var c := calls[|calls| - 1];
      if Expires(c, first, tick) && c.kind.TerminalReveal? && (c.state.Broadcasting? || c.state.Retry?) then Some(c.target)
      else AttemptedTerminal(calls[..|calls| - 1], first, tick)
  }

  function CompleteDrain(slot: ManagedSlot, outcome: DrainOutcome): ManagedSlot {
    slot.(state := Drained(outcome), chain := None)
  }

  function FailureMark(target: Option<nat>): seq<Mark> {
    if target.Some? then [Failure(target.value)] else []
  }

  function ExpireCalls(slot: ManagedSlot, tick: nat): Outcome {
    if slot.chain.None? then Outcome(slot, [])
    else
      var chain := slot.chain.value;
      var n := slot.(chain := Some(chain.(calls := ExpireEach(chain.calls, tick))));
      if !AnyExpires(chain.calls, chain.first, tick) then Outcome(n, [])
      else
        var normal := FirstExpiredNormal(chain.calls, chain.first, tick);
        if slot.state.Live() then
          Outcome(LoseChain(n, SaturatingAdd(tick, 1), false), FailureMark(normal))
        else if slot.state.Draining? then
          Outcome(CompleteDrain(n, DrainFailed),
                  FailureMark(if normal.Some? then normal else AttemptedTerminal(chain.calls, chain.first, tick)))
        else Outcome(n, [])
  }

  // ---------------------------------------------------------------- dispatch

  function Lead(kind: CallKind): nat {
    if kind.FirstCommit? then SEND_LEAD_TICKS else REVEAL_SEND_LEAD_TICKS
  }

  /** What the dispatcher looks at beside the call itself. */
  datatype Context = Context(tick: nat, first: nat, redundantAllowed: bool, terminalReady: bool, shutdownDrain: bool)

  datatype Action = Skip | GiveUp | Send | SendAgain

  predicate RedundantDue(c: PlannedCall, x: Context) {
    && x.redundantAllowed && x.first <= c.target && c.state.Accepted? && !c.kind.TerminalReveal?
    && !c.redundantAttempted
    && TICK_DATA_PUBLICATION_LEAD_TICKS < c.target - x.tick
    && c.target - x.tick <= (if c.kind.FirstCommit? then REDUNDANT_SEND_LEAD_TICKS else 3)
  }

  function Decide(c: PlannedCall, x: Context): Action {
    if c.target <= x.tick || SaturatingAdd(x.tick, Lead(c.kind)) < c.target then Skip
    else if c.kind.TerminalReveal? && !x.terminalReady then Skip
    else if RedundantDue(c, x) then SendAgain
    else if !(c.state.Ready? || c.state.Retry?) then Skip
    else if c.kind.TerminalReveal? && x.shutdownDrain && c.state.Retry? then GiveUp
    else Send
  }

  function Dispatched(c: PlannedCall, x: Context): PlannedCall {
    match Decide(c, x)
    case Skip => c
    case GiveUp => c.(state := Failed)
    case Send => c.(state := Broadcasting, inFlight := true)
    case SendAgain => c.(inFlight := true, redundantAttempted := true)
  }

  function DispatchEach(calls: seq<PlannedCall>, x: Context): (n: seq<PlannedCall>)
    ensures |n| == |calls|
  {
    seq(|calls|, i requires 0 <= i < |calls| => Dispatched(calls[i], x))
  }

  predicate PrerequisitesAccepted(calls: seq<PlannedCall>, first: nat, terminal: nat) {
    forall i :: 0 <= i < |calls| ==>
      calls[i].target < first || calls[i].kind.TerminalReveal? || terminal < calls[i].target || calls[i].state.Accepted?
  }

  function ContextOf(slot: ManagedSlot, tick: nat): Context
    requires slot.chain.Some?
  {
    var chain := slot.chain.value;
    Context(tick, chain.first, slot.state.Live(),
            slot.state.Draining? ==> PrerequisitesAccepted(chain.calls, chain.first, slot.state.terminalTarget),
            slot.state.Draining? && slot.state.reason.Shutdown?)
  }

  function LastGivenUp(calls: seq<PlannedCall>, x: Context): Option<nat> {
    if calls == [] then None
    else if Decide(calls[|calls| - 1], x).GiveUp? then Some(calls[|calls| - 1].target)
    else LastGivenUp(calls[..|calls| - 1], x)
  }

  function DispatchCalls(slot: ManagedSlot, tick: nat): Outcome {
    if slot.chain.None? then Outcome(slot, [])
    else
      var chain := slot.chain.value;
      var x := ContextOf(slot, tick);
      Outcome(slot.(chain := Some(chain.(calls := DispatchEach(chain.calls, x)))),
              FailureMark(LastGivenUp(chain.calls, x)))
  }

  // ---------------------------------------------------------------- harvesting broadcasts

  /** What polling a broadcast task shows. */
  datatype Poll = Pending | Done(ok: bool)

  function HarvestCall(c: PlannedCall, poll: Poll, shutdownDrain: bool): PlannedCall {
    if !c.inFlight || poll.Pending? then c
    else if c.state.Accepted? then c.(inFlight := false)
    else if poll.ok then c.(inFlight := false, state := Accepted)
    else if shutdownDrain && c.kind.TerminalReveal? then c.(inFlight := false, state := Failed)
    else c.(inFlight := false, state := Retry)
  }

  function HarvestEach(calls: seq<PlannedCall>, polls: nat -> Poll, shutdownDrain: bool): (n: seq<PlannedCall>)
    ensures |n| == |calls|
    ensures forall i :: 0 <= i < |n| ==> n[i] == HarvestCall(calls[i], polls(i), shutdownDrain)
  {
    seq(|calls|, i requires 0 <= i < |calls| => HarvestCall(calls[i], polls(i), shutdownDrain))
  }

  predicate NewlyAccepted(c: PlannedCall, poll: Poll) {
    c.inFlight && poll.Done? && poll.ok && !c.state.Accepted?
  }

  predicate NewlyFailed(c: PlannedCall, poll: Poll, shutdownDrain: bool) {
    c.inFlight && poll.Done? && !poll.ok && !c.state.Accepted? && shutdownDrain && c.kind.TerminalReveal?
  }

  function AcceptedMarks(calls: seq<PlannedCall>, polls: nat -> Poll, n: nat): seq<Mark>
    requires n <= |calls|
  {
    if n == 0 then []
    else
      AcceptedMarks(calls, polls, n - 1) +
      (if NewlyAccepted(calls[n - 1], polls(n - 1)) && calls[n - 1].kind.RevealCommit?
       then [Success(calls[n - 1].target)] else [])
  }

  function FailedMarks(calls: seq<PlannedCall>, polls: nat -> Poll, shutdownDrain: bool, n: nat): seq<Mark>
    requires n <= |calls|
  {
    if n == 0 then []
    else
      FailedMarks(calls, polls, shutdownDrain, n - 1) +
      (if NewlyFailed(calls[n - 1], polls(n - 1), shutdownDrain) then [Failure(calls[n - 1].target)] else [])
  }

  predicate ShutdownDrain(state: SlotState) { state.Draining? && state.reason.Shutdown? }

  function HarvestBroadcasts(slot: ManagedSlot, polls: nat -> Poll): Outcome {
    if slot.chain.None? then Outcome(slot, [])
    else
      var chain := slot.chain.value;
      var shutdown := ShutdownDrain(slot.state);
      Outcome(slot.(chain := Some(chain.(calls := HarvestEach(chain.calls, polls, shutdown)))),
              AcceptedMarks(chain.calls, polls, |chain.calls|) + FailedMarks(chain.calls, polls, shutdown, |chain.calls|))
  }

  // ---------------------------------------------------------------- finishing and pruning

  function TerminalState(calls: seq<PlannedCall>): Option<BroadcastState> {
    if calls == [] then None
    else if calls[0].kind.TerminalReveal? then Some(calls[0].state)
    else TerminalState(calls[1..])
  }

  function FinishDrain(slot: ManagedSlot): ManagedSlot {
    if !slot.state.Draining? || slot.chain.None? then slot
    else
      match TerminalState(slot.chain.value.calls)
      case Some(Accepted) => CompleteDrain(slot, DrainAccepted)
      case Some(Failed) => CompleteDrain(slot, DrainFailed)
      case _ => slot
  }

  function FinishStatusRestart(slot: ManagedSlot, tick: nat): ManagedSlot {
    if !slot.state.Restarting? || tick < slot.state.frozenTail then slot
    else
      slot.(chain := None,
            state := if slot.state.drainReason.Some? then Drained(NothingToDrain)
                     else Waiting(slot.state.absenceAfter, slot.state.absenceObserved))
  }

  predicate Retained(c: PlannedCall, first: nat, tick: nat) {
    if c.target < first then tick < c.target else tick <= c.target || !c.state.Accepted?
  }

  function Retain(calls: seq<PlannedCall>, first: nat, tick: nat): seq<PlannedCall> {
    if calls == [] then []
    else (if Retained(calls[0], first, tick) then [calls[0]] else []) + Retain(calls[1..], first, tick)
  }

  function PruneCalls(slot: ManagedSlot, tick: nat): ManagedSlot {
    if slot.state.Draining? || slot.chain.None? then slot
    else
      var chain := slot.chain.value;
      slot.(chain := Some(chain.(calls := Retain(chain.calls, chain.first, tick))))
  }
}
