/** What one engine cycle does, to one slot and to the status query, as functions of what it
    finds. `ProviderEngine.Cycle` is proved to do this; the runs of cycles are built from it. */
module Cycles {
  import opened Basics
  import opened SlotRules
  import opened SlotRuns
  import opened SlotProgress
  import opened EpochPhases
  import Monitor
  import ProviderStatus

  /** Times are in milliseconds. */
  const STATUS_QUERY_INTERVAL: nat := 500

  /** What one cycle finds: the tick, its successive readings of the clock, the answers of the
      running tasks, the random preimages it may draw and whether the wallet signs. */
  datatype CycleInput = CycleInput(info: TickInfo, stopWindow: bool, clock: nat -> nat, status: StatusPoll,
                                   polls: nat -> nat -> Poll, starts: nat -> Bits, signs: nat -> bool,
                                   draws: nat -> nat -> Option<Bits>, shuttingDown: bool, checkPoll: Monitor.CheckPoll)

  datatype StatusQuery = StatusQuery(epoch: nat, requested: nat)

  /** What polling the status query shows. */
  datatype StatusPoll = StatusPending | StatusAnswer(slots: seq<ProviderStatus.ProviderSlot>) | StatusError

  datatype Snapshot = Snapshot(epoch: nat, requested: nat, slots: seq<ProviderStatus.ProviderSlot>)

  /** The phase, the running status query, and when the next one may be made. */
  datatype Watch = Watch(phase: Option<EpochPhase>, query: Option<StatusQuery>, nextAt: nat)

  // ---------------------------------------------------------------- one slot

  /** The slot's last update tick in a snapshot. */
  function ObservedIn(tier: nat, i: nat, list: seq<ProviderStatus.ProviderSlot>): Option<nat> {
    var found := ProviderStatus.SlotFor(list, ProviderStatus.SlotKey(i, tier));
    if found.Some? then Some(found.value.lastUpdate) else None
  }

  /** The snapshot a cycle applies: an answered query of the same epoch. */
  function AnsweredBy(w: Watch, c: CycleInput): Option<Snapshot> {
    if !NewEpoch(w.phase, c.info) && w.query.Some? && c.status.StatusAnswer?
    then Some(Snapshot(w.query.value.epoch, w.query.value.requested, c.status.slots)) else None
  }

  function ResetPart(phase: Option<EpochPhase>, info: TickInfo): seq<SlotEvent> {
    if NewEpoch(phase, info) then [EpochReset] else []
  }

  function StatusPart(tier: nat, i: nat, o: Option<Snapshot>): seq<SlotEvent> {
    if o.Some? then [StatusSeen(o.value.requested, ObservedIn(tier, i, o.value.slots))] else []
  }

  function PlanPart(i: nat, phase: EpochPhase, c: CycleInput): seq<SlotEvent> {
    if c.shuttingDown then [DrainAsked(Shutdown)]
    else if phase.Closing? then [DrainAsked(EpochEnd)]
    else if phase.Planning? then [StartAsked(c.info.tick, c.starts(i)), ExtendAsked(c.info.tick, c.draws(i))]
    else []
  }

  /** What a cycle does before it drains or plans. */
  function ObserveEvents(tier: nat, i: nat, w: Watch, c: CycleInput): seq<SlotEvent> {
    ResetPart(w.phase, c.info) + [Polled(c.polls(i))] + StatusPart(tier, i, AnsweredBy(w, c))
  }

  /** Everything one completed cycle does to slot `i`, in order. */
  function CycleEvents(tier: nat, resumeDelay: nat, i: nat, w: Watch, c: CycleInput): seq<SlotEvent> {
    ObserveEvents(tier, i, w, c) + PlanPart(i, NextPhase(w.phase, c.info, resumeDelay, c.stopWindow), c) + Service(c.info.tick)
  }

  /** The loop that signs continuations stops short of its horizon, where the wallet fails. */
  predicate SigningStopped(k12: Hash, slot: ManagedSlot, tick: nat, draws: nat -> Option<Bits>) {
    && slot.state.Live() && !Missed(slot, tick) && CheckedAdd(tick, SEND_LEAD_TICKS).Some? && slot.chain.Some?
    && CanExtend(ExtendTo(k12, slot.chain.value, tick + SEND_LEAD_TICKS, draws, 0), tick + SEND_LEAD_TICKS)
  }

  /** Starting and extending slot `i` both end without an error. */
  predicate PlansFully(k12: Hash, slot: ManagedSlot, i: nat, c: CycleInput) {
    && StartIfReady(k12, slot, c.info.tick, c.starts(i)).Some? && (c.signs(i) || !MayStart(slot.state))
    && var n := StartIfReady(k12, slot, c.info.tick, c.starts(i)).value;
       ExtendChain(k12, n, c.info.tick, c.draws(i)).Some? && !SigningStopped(k12, n, c.info.tick, c.draws(i))
  }

  /** The drain request of slot `i` is accepted and its terminal call, if one is due, signed. */
  predicate DrainsFully(slot: ManagedSlot, i: nat, reason: DrainReason, signs: nat -> bool) {
    EnterDrain(slot, reason).Some? && (signs(i) || !slot.state.Live())
  }

  /** What must go well for slot `i` in a cycle that completes. */
  predicate PlansWell(k12: Hash, slot: ManagedSlot, i: nat, phase: EpochPhase, c: CycleInput) {
    if c.shuttingDown || phase.Closing? then DrainsFully(slot, i, if c.shuttingDown then Shutdown else EpochEnd, c.signs)
    else phase.Planning? ==> PlansFully(k12, slot, i, c)
  }

  /** What a cycle adds to the steps of slot `i`: all of it, or after a failure anywhere at least
      the observation and at most the planning. */
  ghost predicate CycleDid(before: seq<SlotEvent>, after: seq<SlotEvent>, tier: nat, resumeDelay: nat, i: nat, w: Watch,
                           c: CycleInput, ok: bool)
  {
    var seen := before + ObserveEvents(tier, i, w, c);
    if ok then after == before + CycleEvents(tier, resumeDelay, i, w, c)
    else seen <= after <= seen + PlanPart(i, NextPhase(w.phase, c.info, resumeDelay, c.stopWindow), c)
  }

  predicate ClosingNow(phase: Option<EpochPhase>, resumeDelay: nat, c: CycleInput) {
    c.shuttingDown || NextPhase(phase, c.info, resumeDelay, c.stopWindow).Closing?
  }

  // ---------------------------------------------------------------- the status query

  /** The query that is still running after a cycle polled it: none after an epoch change or any
      result. */
  function KeptQuery(w: Watch, c: CycleInput): Option<StatusQuery> {
    if NewEpoch(w.phase, c.info) || !c.status.StatusPending? then None else w.query
  }

  function KeptAt(w: Watch, c: CycleInput): nat { if NewEpoch(w.phase, c.info) then c.clock(1) else w.nextAt }

  predicate Asks(w: Watch, c: CycleInput) { KeptQuery(w, c).None? && KeptAt(w, c) <= c.clock(3) }

  /** A completed cycle makes a new query, for its own tick, when none runs and it is time. */
  function WatchAfter(w: Watch, resumeDelay: nat, c: CycleInput, ok: bool): Watch {
    var phase := Some(NextPhase(w.phase, c.info, resumeDelay, c.stopWindow));
    if ok && Asks(w, c) then Watch(phase, Some(StatusQuery(c.info.epoch, c.info.tick)), c.clock(4) + STATUS_QUERY_INTERVAL)
    else Watch(phase, KeptQuery(w, c), KeptAt(w, c))
  }

  // ---------------------------------------------------------------- pacing of the queries

  /** A cycle that took place, completed or not; the clock does not go back within it. */
  datatype CycleRecord = CycleRecord(c: CycleInput, ok: bool)

  predicate ClockOk(c: CycleInput) { c.clock(3) <= c.clock(4) }

  /** The times at which the queries of the current epoch were made. */
  function AskedAfter(w: Watch, asked: seq<nat>, d: CycleRecord): seq<nat> {
    (if w.phase.None? || w.phase.value.epoch != d.c.info.epoch then [] else asked)
    + (if WatchAfter(w, 0, d.c, d.ok).query.Some? && KeptQuery(w, d.c).None? then [d.c.clock(4)] else [])
  }

  function WatchRun(w: Watch, resumeDelay: nat, cycles: seq<CycleRecord>): Watch {
    if cycles == [] then w
    else
      var last := cycles[|cycles| - 1];
      WatchAfter(WatchRun(w, resumeDelay, cycles[..|cycles| - 1]), resumeDelay, last.c, last.ok)
  }

  function AskedRun(w: Watch, resumeDelay: nat, cycles: seq<CycleRecord>): seq<nat> {
    if cycles == [] then []
    else
      var before := cycles[..|cycles| - 1];
      AskedAfter(WatchRun(w, resumeDelay, before), AskedRun(w, resumeDelay, before), cycles[|cycles| - 1])
  }

  ghost predicate Spaced(asked: seq<nat>) { forall i :: 0 < i < |asked| ==> asked[i - 1] + 500 <= asked[i] }

  /** The latest query sets when the next one may be made, and the running one is of this epoch. */
  ghost predicate QueryOk(w: Watch, asked: seq<nat>) {
    && Spaced(asked) && (asked != [] ==> w.phase.Some? && w.nextAt == asked[|asked| - 1] + 500)
    && (w.query.Some? ==> w.phase.Some? && w.query.value.epoch == w.phase.value.epoch)
  }

  /** The query that runs after a cycle: the old one if it is of this epoch and still pending, or a
      new one for the cycle's tick, made by a completed cycle when it is time. */
  ghost predicate QueryNext(w: Watch, d: CycleRecord, n: Watch) {
    var same := w.phase.Some? && w.phase.value.epoch == d.c.info.epoch;
    if same && w.query.Some? && d.c.status.StatusPending? then n.query == w.query
    else
      n.query == if d.ok && (if same then w.nextAt else d.c.clock(1)) <= d.c.clock(3)
                 then Some(StatusQuery(d.c.info.epoch, d.c.info.tick)) else None
  }

  lemma QueryStep(w: Watch, resumeDelay: nat, asked: seq<nat>, d: CycleRecord)
    requires QueryOk(w, asked) && ClockOk(d.c)
    ensures var n := WatchAfter(w, resumeDelay, d.c, d.ok); QueryOk(n, AskedAfter(w, asked, d)) && QueryNext(w, d, n)
  {
    PhaseKeepsEpoch(w.phase, d.c, resumeDelay);
    hide NextPhase;
  }

  lemma PhaseKeepsEpoch(phase: Option<EpochPhase>, c: CycleInput, resumeDelay: nat)
    ensures NextPhase(phase, c.info, resumeDelay, c.stopWindow).epoch == c.info.epoch
  {
  }

  /** Over every run of cycles from a start without a phase: within an epoch two status queries are
      made at least 500 milliseconds apart. The running one is of this epoch; a completed cycle
      makes one, for its own tick, if and only if none is left running and, after the epoch's
      first, 500 milliseconds have passed; a failed one makes none. */
  lemma {:induction false} QueriesArePaced(w: Watch, resumeDelay: nat, cycles: seq<CycleRecord>)
    requires w.phase.None? && w.query.None? && forall d :: d in cycles ==> ClockOk(d.c)
    ensures QueryOk(WatchRun(w, resumeDelay, cycles), AskedRun(w, resumeDelay, cycles))
    ensures cycles != [] ==>
      QueryNext(WatchRun(w, resumeDelay, cycles[..|cycles| - 1]), cycles[|cycles| - 1], WatchRun(w, resumeDelay, cycles))
  {
    if cycles != [] {
      var before, d := cycles[..|cycles| - 1], cycles[|cycles| - 1];
      assert d in cycles && forall x :: x in before ==> x in cycles;
      QueriesArePaced(w, resumeDelay, before);
      QueryStep(WatchRun(w, resumeDelay, before), resumeDelay, AskedRun(w, resumeDelay, before), d);
      hide QueryOk, QueryNext, WatchAfter, AskedAfter;
    }
  }
}
