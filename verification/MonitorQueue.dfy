/** The check queue in terms of what was reported and observed since the last reset: which targets
    it holds, how far its watermark lies, when targets may be checked, and how checks are paced. */
module MonitorQueue {
  import opened Basics
  import opened SlotRules
  import opened Monitor
  import opened MonitorRuns

  datatype FailedCheck = FailedCheck(target: nat, at: nat)

  /** The monitor's history, and since the last reset the highest tick it saw, the checks that
      failed, the times at which checks were started, and when the first one was allowed. */
  datatype Queue = Queue(h: History, top: nat, failed: seq<FailedCheck>, starts: seq<nat>, openAt: nat)

  function TickOf(e: MonitorEvent): nat { if e.Expiry? || e.Ensure? then e.tick else 0 }

  function FailedBy(m: Monitor, e: MonitorEvent): seq<FailedCheck> {
    if e.Harvest? && e.poll.CheckError? && m.active.Some? then [FailedCheck(m.active.value.target, e.now)] else []
  }

  function StartedBy(m: Monitor, n: Monitor, e: MonitorEvent): seq<nat> {
    if e.Ensure? && n.active.Some? && n.active != m.active then [e.now] else []
  }

  ghost function NextQueue(q: Queue, e: MonitorEvent, pace: Pace): Queue {
    var n := NextMonitor(q.h, e, pace);
    if e.Reset? then Queue(n, 0, [], [], e.checkAt)
    else Queue(n, Max(q.top, TickOf(e)), q.failed + FailedBy(q.h.m, e), q.starts + StartedBy(q.h.m, n.m, e), q.openAt)
  }

  ghost function RunQueue(q: Queue, events: seq<MonitorEvent>, pace: Pace): Queue
    decreases |events|
  {
    if events == [] then q else RunQueue(NextQueue(q, events[0], pace), events[1..], pace)
  }

  function NewQueue(now: nat): Queue { Queue(NewHistory(now), 0, [], [], now) }

  lemma {:induction false} QueueIsRun(q: Queue, events: seq<MonitorEvent>, pace: Pace)
    ensures RunQueue(q, events, pace).h == RunMonitor(q.h, events, pace)
    decreases |events|
  {
    hide NextMonitor;
    if events != [] { QueueIsRun(NextQueue(q, events[0], pace), events[1..], pace); }
  }

  // ---------------------------------------------------------------- which targets are held

  predicate Reported(marks: seq<Mark>, t: nat) { Success(t) in marks || Failure(t) in marks }

  /** A target is queued or checked exactly when it was reported and lies at or above the watermark. */
  ghost predicate HoldsReports(m: Monitor, marks: seq<Mark>) {
    forall t: nat :: (t in m.queued || t in m.checked) <==> Reported(marks, t) && m.oldest <= t
  }

  lemma ReportHolds(m: Monitor, marks: seq<Mark>, mark: Mark)
    requires HoldsReports(m, marks)
    ensures HoldsReports(Report(m, mark), marks + [mark])
  {
    forall t: nat
      ensures (t in Report(m, mark).queued || t in Report(m, mark).checked) <==>
        Reported(marks + [mark], t) && Report(m, mark).oldest <= t
    {
      assert (t in m.queued || t in m.checked) <==> Reported(marks, t) && m.oldest <= t;
      assert Reported(marks + [mark], t) <==> Reported(marks, t) || t == mark.target;
    }
  }

  lemma {:induction false} ReportAllHolds(m: Monitor, past: seq<Mark>, marks: seq<Mark>)
    requires HoldsReports(m, past)
    ensures HoldsReports(ReportAll(m, marks), past + marks)
    decreases |marks|
  {
    if marks == [] {
      assert past + marks == past;
    } else {
      ReportHolds(m, past, marks[0]);
      ReportAllHolds(Report(m, marks[0]), past + [marks[0]], marks[1..]);
      assert past + marks == past + [marks[0]] + marks[1..];
    }
  }

  lemma ExpiryHolds(m: Monitor, marks: seq<Mark>, tick: nat, pace: Pace, now: nat)
    requires HoldsReports(m, marks)
    ensures HoldsReports(ExpireChecks(m, tick, pace, now), marks)
  {
    forall t: nat
      ensures var n := ExpireChecks(m, tick, pace, now);
        (t in n.queued || t in n.checked) <==> Reported(marks, t) && n.oldest <= t
    {
      assert (t in m.queued || t in m.checked) <==> Reported(marks, t) && m.oldest <= t;
    }
  }

  /** The same targets are held. */
  predicate SameHeld(a: Monitor, b: Monitor) { b.queued + b.checked == a.queued + a.checked && b.oldest == a.oldest }

  lemma SameHolds(a: Monitor, b: Monitor, marks: seq<Mark>)
    requires HoldsReports(a, marks) && SameHeld(a, b)
    ensures HoldsReports(b, marks)
  {
    forall t: nat ensures (t in b.queued || t in b.checked) <==> Reported(marks, t) && b.oldest <= t {
      assert (t in b.queued + b.checked) <==> (t in a.queued + a.checked);
      assert (t in a.queued || t in a.checked) <==> Reported(marks, t) && a.oldest <= t;
    }
  }

  lemma HarvestHolds(m: Monitor, poll: CheckPoll, now: nat)
    requires QueueOk(m)
    ensures SameHeld(m, HarvestCheck(m, poll, now))
  {
    if m.active.Some? { assert m.active.value.target in ActiveTargets(m.active); }
  }

  lemma EnsureHolds(m: Monitor, tick: nat, pace: Pace, before: nat, now: nat)
    requires QueueOk(m)
    ensures SameHeld(ExpireChecks(m, tick, pace, before), EnsureCheck(m, tick, pace, before, now))
  {
    var e := ExpireChecks(m, tick, pace, before);
    ExpiryQueues(m, tick, pace, before);
    hide ExpireChecks;
    assert EligibleOf(e.pending, tick, pace.delayTicks) <= e.queued;
  }

  // ---------------------------------------------------------------- the watermark

  /** The watermark for the highest tick seen so far. */
  function WatermarkAt(top: nat, pace: Pace): nat { SaturatingSub(top, SaturatingAdd(pace.delayTicks, 32)) }

  // ---------------------------------------------------------------- when a target may be checked

  /** Whatever left the waiting list had been reached, with the configured delay, by some tick. */
  ghost predicate LateEnough(m: Monitor, top: nat, pace: Pace) {
    forall t: nat :: (t in m.queued || t in m.checked) && t !in m.pending ==> SaturatingAdd(t, pace.delayTicks) <= top
  }

  lemma EnsureLateEnough(m: Monitor, top: nat, tick: nat, pace: Pace, before: nat, now: nat)
    requires QueueOk(m) && LateEnough(m, top, pace)
    ensures LateEnough(EnsureCheck(m, tick, pace, before, now), Max(top, tick), pace)
  {
    var e := ExpireChecks(m, tick, pace, before);
    EnsureHolds(m, tick, pace, before, now);
    assert LateEnough(e, Max(top, tick), pace);
    hide ExpireChecks;
    var n := EnsureCheck(m, tick, pace, before, now);
    EnsureMoves(m, tick, pace, before, now);
    forall t: nat | (t in n.queued || t in n.checked) && t !in n.pending
      ensures SaturatingAdd(t, pace.delayTicks) <= Max(top, tick)
    {
      assert t in n.queued + n.checked;
      assert t in e.queued || t in e.checked;
    }
  }

  /** What an unhindered check moves: exactly the waiting targets reached by this tick. */
  lemma EnsureMoves(m: Monitor, tick: nat, pace: Pace, before: nat, now: nat)
    ensures var e := ExpireChecks(m, tick, pace, before);
      var n := EnsureCheck(m, tick, pace, before, now);
      forall t: nat :: t in n.pending <==>
        t in e.pending && (e.active.Some? || now < e.nextCheckAt || tick < SaturatingAdd(t, pace.delayTicks))
  {
    hide ExpireChecks;
  }

  // ---------------------------------------------------------------- failed checks

  function FailCount(failed: seq<FailedCheck>, t: nat): nat {
    if failed == [] then 0
    else FailCount(failed[..|failed| - 1], t) + if failed[|failed| - 1].target == t then 1 else 0
  }

  /** When the latest check of this target failed. */
  function LastFailure(failed: seq<FailedCheck>, t: nat): nat {
    if failed == [] then 0
    else if failed[|failed| - 1].target == t then failed[|failed| - 1].at
    else LastFailure(failed[..|failed| - 1], t)
  }

  /** Milliseconds to wait after that many failures. */
  function Pause(failures: nat): nat {
    if failures <= 1 then 1000 else if failures == 2 then 2000 else if failures == 3 then 4000
    else if failures == 4 then 8000 else if failures == 5 then 16000 else 30000
  }

  lemma PauseIsDelay(failures: nat)
    ensures RetryDelay(failures) == Pause(failures + 1) && RetryDelay(Min(failures, U32_MAX)) == Pause(failures + 1)
  {
    assert Power(1) == 2 && Power(2) == 4 && Power(3) == 8 && Power(4) == 16 && Power(5) == 32;
  }

  /** Every target remembers how often its check failed; after a failure it waits for the pause. */
  ghost predicate RetriesKept(m: Monitor, failed: seq<FailedCheck>) {
    && (forall t: nat :: t in m.pending ==> FailCount(failed, t) == 0)
    && (forall k :: k in m.ready ==>
          var n := FailCount(failed, k.target);
          m.ready[k] == Min(n, U32_MAX) && (n > 0 ==> k.at == LastFailure(failed, k.target) + Pause(n)))
    && (m.active.Some? ==> m.active.value.failures == Min(FailCount(failed, m.active.value.target), U32_MAX))
  }

  ghost predicate OnlyReported(failed: seq<FailedCheck>, marks: seq<Mark>) {
    forall t: nat :: FailCount(failed, t) > 0 ==> Reported(marks, t)
  }

  lemma FailCountGrows(failed: seq<FailedCheck>, f: FailedCheck, t: nat)
    ensures FailCount(failed + [f], t) == FailCount(failed, t) + if f.target == t then 1 else 0
    ensures LastFailure(failed + [f], t) == if f.target == t then f.at else LastFailure(failed, t)
  {
    assert (failed + [f])[..|failed|] == failed;
  }

  lemma ActiveIsApart(m: Monitor)
    requires QueueOk(m) && m.active.Some?
    ensures m.active.value.target !in m.pending && forall k :: k in m.ready ==> k.target != m.active.value.target
  {
    assert m.active.value.target in ActiveTargets(m.active);
    assert forall k :: k in m.ready ==> k.target in ReadyTargets(m.ready);
  }

  lemma HarvestRetries(m: Monitor, failed: seq<FailedCheck>, poll: CheckPoll, now: nat)
    requires QueueOk(m) && RetriesKept(m, failed)
    ensures RetriesKept(HarvestCheck(m, poll, now), failed + FailedBy(m, Harvest(poll, now)))
  {
    var n := HarvestCheck(m, poll, now);
    if m.active.Some? && poll.CheckError? {
      var c := m.active.value;
      var f := FailedCheck(c.target, now);
      ActiveIsApart(m);
      PauseIsDelay(FailCount(failed, c.target));
      hide FailCount, LastFailure, RetryDelay, Pause, QueueOk;
      forall t: nat
        ensures FailCount(failed + [f], t) == FailCount(failed, t) + if c.target == t then 1 else 0
        ensures LastFailure(failed + [f], t) == if c.target == t then now else LastFailure(failed, t)
      {
        FailCountGrows(failed, f, t);
      }
    } else {
      assert failed + [] == failed;
    }
  }

  lemma {:induction false} ReportAllRetries(m: Monitor, past: seq<Mark>, marks: seq<Mark>, failed: seq<FailedCheck>)
    requires HoldsReports(m, past) && RetriesKept(m, failed) && OnlyReported(failed, past)
    ensures RetriesKept(ReportAll(m, marks), failed)
    decreases |marks|
  {
    if marks != [] {
      var n := Report(m, marks[0]);
      ReportHolds(m, past, marks[0]);
      forall t: nat | t in n.pending ensures FailCount(failed, t) == 0 {
        if t !in m.pending {
          assert t == marks[0].target && t !in m.queued && t !in m.checked && m.oldest <= t;
          assert !Reported(past, t);
        }
      }
      assert OnlyReported(failed, past + [marks[0]]);
      hide HoldsReports;
      ReportAllRetries(n, past + [marks[0]], marks[1..], failed);
    }
  }

  lemma ExpiryRetries(m: Monitor, failed: seq<FailedCheck>, tick: nat, pace: Pace, now: nat)
    requires RetriesKept(m, failed)
    ensures RetriesKept(ExpireChecks(m, tick, pace, now), failed)
  {
    hide FailCount, LastFailure, Pause;
  }

  lemma PromoteRetries(m: Monitor, failed: seq<FailedCheck>, tick: nat, delayTicks: nat, now: nat)
    requires RetriesKept(m, failed)
    ensures RetriesKept(Promote(m, tick, delayTicks, now), failed)
  {
    var p := Promote(m, tick, delayTicks, now);
    var moved := EligibleOf(m.pending, tick, delayTicks);
    forall k | k in p.ready
      ensures var n := FailCount(failed, k.target);
        p.ready[k] == Min(n, U32_MAX) && (n > 0 ==> k.at == LastFailure(failed, k.target) + Pause(n))
    {
      if k in KeysAt(moved, now) {
        assert k.target in m.pending;
      } else {
        assert k in m.ready && p.ready[k] == m.ready[k];
      }
    }
    hide FailCount, LastFailure, Pause;
  }

  lemma StartRetries(p: Monitor, failed: seq<FailedCheck>, pace: Pace, now: nat)
    requires RetriesKept(p, failed)
    ensures RetriesKept(StartNewest(p, pace, now), failed)
  {
    hide FailCount, LastFailure, Pause;
  }

  lemma EnsureRetries(m: Monitor, failed: seq<FailedCheck>, tick: nat, pace: Pace, before: nat, now: nat)
    requires RetriesKept(m, failed)
    ensures RetriesKept(EnsureCheck(m, tick, pace, before, now), failed)
  {
    hide RetriesKept, ExpireChecks, Promote, StartNewest;
    var e := ExpireChecks(m, tick, pace, before);
    ExpiryRetries(m, failed, tick, pace, before);
    PromoteRetries(e, failed, tick, pace.delayTicks, now);
    StartRetries(Promote(e, tick, pace.delayTicks, now), failed, pace, now);
  }

  // ---------------------------------------------------------------- pacing

  /** The next check is allowed one interval after the latest start, or when the reset allowed it;
      so were all checks that started. */
  ghost predicate Paced(m: Monitor, starts: seq<nat>, openAt: nat, pace: Pace) {
    && m.nextCheckAt == (if starts == [] then openAt else starts[|starts| - 1] + pace.interval)
    && (starts != [] ==> openAt <= starts[0])
    && forall i :: 0 < i < |starts| ==> starts[i - 1] + pace.interval <= starts[i]
  }

  /** A check starts exactly when the next one is allowed, and shifts that time. */
  lemma EnsureStarts(m: Monitor, tick: nat, pace: Pace, before: nat, now: nat)
    requires QueueOk(m)
    ensures var n := EnsureCheck(m, tick, pace, before, now);
      if StartedBy(m, n, Ensure(tick, before, now)) == [] then n.nextCheckAt == m.nextCheckAt
      else n.nextCheckAt == now + pace.interval && m.nextCheckAt <= now && StartedBy(m, n, Ensure(tick, before, now)) == [now]
  {
    hide QueueOk, ExpireChecks, Promote, StartNewest;
    var e := ExpireChecks(m, tick, pace, before);
    ExpiryDrops(m, tick, pace, before);
    if e.active.None? && e.nextCheckAt <= now {
      var p := Promote(e, tick, pace.delayTicks, now);
      PromoteStands(e, tick, pace.delayTicks, now);
      StartStarts(p, pace, now);
      ExpiryQueues(m, tick, pace, before);
      EnsureQueues(m, tick, pace, before, now);
      ActiveIsAbove(EnsureCheck(m, tick, pace, before, now));
    }
  }

  lemma ExpiryDrops(m: Monitor, tick: nat, pace: Pace, now: nat)
    ensures var e := ExpireChecks(m, tick, pace, now);
      e.nextCheckAt == m.nextCheckAt && (e.active == m.active || (e.active.None? && m.active.Some? && m.active.value.target < e.oldest))
  {
  }

  lemma PromoteStands(m: Monitor, tick: nat, delayTicks: nat, now: nat)
    ensures var p := Promote(m, tick, delayTicks, now); p.active == m.active && p.oldest == m.oldest && p.nextCheckAt == m.nextCheckAt
  {
  }

  lemma StartStarts(p: Monitor, pace: Pace, now: nat)
    requires p.active.None?
    ensures var n := StartNewest(p, pace, now);
      n.oldest == p.oldest && n.nextCheckAt == if n.active.Some? then now + pace.interval else p.nextCheckAt
  {
  }

  lemma ActiveIsAbove(m: Monitor)
    requires QueueOk(m)
    ensures m.active.Some? ==> m.oldest <= m.active.value.target
  {
    if m.active.Some? { assert m.active.value.target in ActiveTargets(m.active); }
    hide ReadyTargets, OneKeyEach;
  }

  lemma EnsurePaced(m: Monitor, starts: seq<nat>, openAt: nat, tick: nat, pace: Pace, before: nat, now: nat)
    requires QueueOk(m) && Paced(m, starts, openAt, pace)
    ensures var n := EnsureCheck(m, tick, pace, before, now);
      Paced(n, starts + StartedBy(m, n, Ensure(tick, before, now)), openAt, pace)
  {
    hide QueueOk, EnsureCheck;
    EnsureStarts(m, tick, pace, before, now);
    assert starts + [] == starts;
  }

  // ---------------------------------------------------------------- every step, every run

  ghost predicate QueueKept(q: Queue, pace: Pace) {
    && MonitorOk(q.h) && HoldsReports(q.h.m, q.h.marks)
    && q.h.m.oldest == WatermarkAt(q.top, pace) && LateEnough(q.h.m, q.top, pace)
    && RetriesKept(q.h.m, q.failed) && OnlyReported(q.failed, q.h.marks)
    && Paced(q.h.m, q.starts, q.openAt, pace)
  }

  lemma MarkedStep(q: Queue, marks: seq<Mark>, pace: Pace)
    requires QueueKept(q, pace)
    ensures QueueKept(NextQueue(q, Marked(marks), pace), pace)
  {
    hide MonitorOk, ReportAll, RetriesKept, HoldsReports;
    StepMonitorKeeps(q.h, Marked(marks), pace);
    ReportAllHolds(q.h.m, q.h.marks, marks);
    ReportAllRetries(q.h.m, q.h.marks, marks, q.failed);
    ReportAllStands(q.h.m, marks);
    assert q.failed + [] == q.failed && q.starts + [] == q.starts;
    assert OnlyReported(q.failed, q.h.marks + marks);
    assert LateEnough(ReportAll(q.h.m, marks), q.top, pace) by { MarkedLateEnough(q.h.m, marks, q.top, pace); }
    hide LateEnough, OnlyReported, Paced;
  }

  lemma MarkedLateEnough(m: Monitor, marks: seq<Mark>, top: nat, pace: Pace)
    requires LateEnough(m, top, pace)
    ensures LateEnough(ReportAll(m, marks), top, pace)
  {
    ReportAllStands(m, marks);
    var n := ReportAll(m, marks);
    hide ReportAll;
    forall t: nat | (t in n.queued || t in n.checked) && t !in n.pending ensures SaturatingAdd(t, pace.delayTicks) <= top {
      assert t in n.queued ==> t in n.queued - n.pending;
    }
  }

  lemma {:induction false} ReportAllStands(m: Monitor, marks: seq<Mark>)
    ensures var n := ReportAll(m, marks);
      && n.oldest == m.oldest && n.nextCheckAt == m.nextCheckAt && n.active == m.active && n.checked == m.checked && n.ready == m.ready
      && n.queued - n.pending <= m.queued - m.pending && m.pending <= n.pending
    decreases |marks|
  {
    if marks != [] { ReportAllStands(Report(m, marks[0]), marks[1..]); }
  }

  lemma ExpiryMoves(m: Monitor, top: nat, tick: nat, pace: Pace, now: nat)
    requires m.oldest == WatermarkAt(top, pace) && LateEnough(m, top, pace)
    ensures var n := ExpireChecks(m, tick, pace, now);
      n.oldest == WatermarkAt(Max(top, tick), pace) && LateEnough(n, Max(top, tick), pace) && n.nextCheckAt == m.nextCheckAt
  {
  }

  lemma ExpiryStep(q: Queue, tick: nat, now: nat, pace: Pace)
    requires QueueKept(q, pace)
    ensures QueueKept(NextQueue(q, Expiry(tick, now), pace), pace)
  {
    hide MonitorOk, RetriesKept, HoldsReports, LateEnough, OnlyReported, ExpireChecks, WatermarkAt;
    StepMonitorKeeps(q.h, Expiry(tick, now), pace);
    ExpiryMoves(q.h.m, q.top, tick, pace, now);
    ExpiryHolds(q.h.m, q.h.marks, tick, pace, now);
    ExpiryRetries(q.h.m, q.failed, tick, pace, now);
    assert q.h.marks + [] == q.h.marks && q.failed + [] == q.failed && q.starts + [] == q.starts;
  }

  lemma HarvestStep(q: Queue, poll: CheckPoll, now: nat, pace: Pace)
    requires QueueKept(q, pace)
    ensures QueueKept(NextQueue(q, Harvest(poll, now), pace), pace)
  {
    hide RetriesKept, HoldsReports, LateEnough, OnlyReported, HarvestCheck, WatermarkAt, QueueOk, CountersOk, Remembered;
    StepMonitorKeeps(q.h, Harvest(poll, now), pace);
    HarvestHolds(q.h.m, poll, now);
    SameHolds(q.h.m, HarvestCheck(q.h.m, poll, now), q.h.marks);
    HarvestRetries(q.h.m, q.failed, poll, now);
    HarvestLateEnough(q, poll, now, pace);
    HarvestReported(q, poll, now);
    assert q.h.marks + [] == q.h.marks && q.starts + [] == q.starts;
  }

  lemma HarvestLateEnough(q: Queue, poll: CheckPoll, now: nat, pace: Pace)
    requires MonitorOk(q.h) && LateEnough(q.h.m, q.top, pace)
    ensures LateEnough(HarvestCheck(q.h.m, poll, now), q.top, pace)
    ensures HarvestCheck(q.h.m, poll, now).nextCheckAt == q.h.m.nextCheckAt
  {
    HarvestHolds(q.h.m, poll, now);
    var n := HarvestCheck(q.h.m, poll, now);
    forall t: nat | (t in n.queued || t in n.checked) && t !in n.pending ensures SaturatingAdd(t, pace.delayTicks) <= q.top {
      assert t in n.queued + n.checked;
    }
  }

  lemma HarvestReported(q: Queue, poll: CheckPoll, now: nat)
    requires MonitorOk(q.h) && HoldsReports(q.h.m, q.h.marks) && OnlyReported(q.failed, q.h.marks)
    ensures OnlyReported(q.failed + FailedBy(q.h.m, Harvest(poll, now)), q.h.marks)
  {
    if q.h.m.active.Some? && poll.CheckError? {
      var t := q.h.m.active.value.target;
      assert t in ActiveTargets(q.h.m.active);
      forall u: nat ensures FailCount(q.failed + [FailedCheck(t, now)], u) > 0 ==> Reported(q.h.marks, u) {
        FailCountGrows(q.failed, FailedCheck(t, now), u);
      }
    } else {
      assert q.failed + [] == q.failed;
    }
  }

  lemma EnsureStep(q: Queue, tick: nat, before: nat, now: nat, pace: Pace)
    requires QueueKept(q, pace)
    ensures QueueKept(NextQueue(q, Ensure(tick, before, now), pace), pace)
  {
    hide RetriesKept, HoldsReports, LateEnough, OnlyReported, ExpireChecks, EnsureCheck, Paced, WatermarkAt, QueueOk, CountersOk, Remembered;
    StepMonitorKeeps(q.h, Ensure(tick, before, now), pace);
    ExpiryMoves(q.h.m, q.top, tick, pace, before);
    ExpiryHolds(q.h.m, q.h.marks, tick, pace, before);
    EnsureHolds(q.h.m, tick, pace, before, now);
    SameHolds(ExpireChecks(q.h.m, tick, pace, before), EnsureCheck(q.h.m, tick, pace, before, now), q.h.marks);
    EnsureRetries(q.h.m, q.failed, tick, pace, before, now);
    EnsureLateEnough(q.h.m, q.top, tick, pace, before, now);
    EnsurePaced(q.h.m, q.starts, q.openAt, tick, pace, before, now);
    assert q.h.marks + [] == q.h.marks && q.failed + [] == q.failed;
  }

  lemma NothingHeld(q: Queue, pace: Pace)
    requires MonitorOk(q.h) && q.h.m.queued == {} == q.h.m.checked && q.h.m.pending == {} && q.h.m.ready == map[]
    requires q.h.m.active.None? && q.h.m.oldest == 0 == q.top && q.h.marks == [] && q.failed == [] && q.starts == []
    requires q.h.m.nextCheckAt == q.openAt
    ensures QueueKept(q, pace)
  {
    hide MonitorOk;
  }

  lemma StepKeepsQueue(q: Queue, e: MonitorEvent, pace: Pace)
    requires QueueKept(q, pace)
    ensures QueueKept(NextQueue(q, e, pace), pace)
  {
    match e
    case Reset(checkAt, logAt) =>
      StepMonitorKeeps(q.h, e, pace);
      NothingHeld(NextQueue(q, e, pace), pace);
    case Marked(marks) => MarkedStep(q, marks, pace);
    case Expiry(tick, now) => ExpiryStep(q, tick, now, pace);
    case Harvest(poll, now) => HarvestStep(q, poll, now, pace);
    case Ensure(tick, before, now) => EnsureStep(q, tick, before, now, pace);
  }

  lemma {:induction false} RunKeepsQueue(q: Queue, events: seq<MonitorEvent>, pace: Pace)
    requires QueueKept(q, pace)
    ensures QueueKept(RunQueue(q, events, pace), pace)
    decreases |events|
  {
    hide QueueKept, NextQueue;
    if events != [] {
      StepKeepsQueue(q, events[0], pace);
      RunKeepsQueue(NextQueue(q, events[0], pace), events[1..], pace);
    }
  }

  lemma NewIsKept(now: nat, pace: Pace)
    ensures QueueKept(NewQueue(now), pace)
  {
    NewIsOk(now);
    NothingHeld(NewQueue(now), pace);
  }

  /** Over every run: a target is queued or checked exactly when it was reported since the last
      reset and lies at or above the watermark; and a target reported for the first time at or
      above it waits among the pending checks. */
  lemma ReportsAreQueued(now: nat, events: seq<MonitorEvent>, pace: Pace, mark: Mark)
    ensures var q := RunQueue(NewQueue(now), events, pace);
      var t := mark.target;
      var n := NextMonitor(q.h, Marked([mark]), pace).m;
      && (forall u: nat :: (u in q.h.m.queued || u in q.h.m.checked) <==> Reported(q.h.marks, u) && q.h.m.oldest <= u)
      && (!Reported(q.h.marks, t) && q.h.m.oldest <= t ==> t in n.pending && t in n.queued)
  {
    NewIsKept(now, pace);
    RunKeepsQueue(NewQueue(now), events, pace);
    var q := RunQueue(NewQueue(now), events, pace);
    assert ReportAll(q.h.m, [mark]) == ReportAll(Report(q.h.m, mark), []) == Report(q.h.m, mark);
    assert HoldsReports(q.h.m, q.h.marks);
    hide MonitorOk, RetriesKept, LateEnough, Paced, RunQueue;
  }

  /** Over every run: the watermark lies the window of 32 ticks and the configured delay behind the
      highest tick seen since the last reset, and no target is checked before its own tick and
      the delay have passed. */
  lemma WatermarkIsExact(now: nat, events: seq<MonitorEvent>, pace: Pace, t: nat)
    ensures var q := RunQueue(NewQueue(now), events, pace);
      && q.h.m.oldest == SaturatingSub(q.top, SaturatingAdd(pace.delayTicks, 32))
      && (t in ReadyTargets(q.h.m.ready) + ActiveTargets(q.h.m.active) + q.h.m.checked ==> SaturatingAdd(t, pace.delayTicks) <= q.top)
  {
    NewIsKept(now, pace);
    RunKeepsQueue(NewQueue(now), events, pace);
    hide RetriesKept, Paced, RunQueue, HoldsReports, ReadyTargets, ActiveTargets, Remembered, CountersOk;
  }

  /** Over every run: each ready or running check knows how often it failed since the last reset,
      and one that failed waits from its latest failure for 1, 2, 4, 8, 16 and then always 30
      seconds. */
  lemma RetriesAreExact(now: nat, events: seq<MonitorEvent>, pace: Pace)
    ensures var q := RunQueue(NewQueue(now), events, pace);
      && (forall k :: k in q.h.m.ready ==>
            var n := FailCount(q.failed, k.target);
            q.h.m.ready[k] == Min(n, U32_MAX) && (n > 0 ==> k.at == LastFailure(q.failed, k.target) + Pause(n)))
      && (q.h.m.active.Some? ==> q.h.m.active.value.failures == Min(FailCount(q.failed, q.h.m.active.value.target), U32_MAX))
  {
    NewIsKept(now, pace);
    RunKeepsQueue(NewQueue(now), events, pace);
    hide Paced, RunQueue, HoldsReports, FailCount, LastFailure, Pause, MonitorOk;
  }

  /** Over every run: two checks start at least the configured interval apart, none before the
      reset allowed it, and the next one is allowed exactly then. */
  lemma ChecksArePaced(now: nat, events: seq<MonitorEvent>, pace: Pace)
    ensures var q := RunQueue(NewQueue(now), events, pace);
      && q.h.m.nextCheckAt == (if q.starts == [] then q.openAt else q.starts[|q.starts| - 1] + pace.interval)
      && (q.starts != [] ==> q.openAt <= q.starts[0])
      && forall i :: 0 < i < |q.starts| ==> q.starts[i - 1] + pace.interval <= q.starts[i]
  {
    NewIsKept(now, pace);
    RunKeepsQueue(NewQueue(now), events, pace);
    hide RunQueue, HoldsReports, RetriesKept, MonitorOk;
  }
}
