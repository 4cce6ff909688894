/** The counters and the check queue over all runs. */
module MonitorRuns {
  import opened Basics
  import opened SlotRules
  import opened Monitor

  datatype MonitorEvent =
    | Reset(checkAt: nat, logAt: nat)
    | Marked(marks: seq<Mark>)
    | Expiry(tick: nat, now: nat)
    | Harvest(poll: CheckPoll, now: nat)
    | Ensure(tick: nat, before: nat, now: nat)

  ghost function StepMonitor(m: Monitor, e: MonitorEvent, pace: Pace): Monitor {
    match e
    case Reset(checkAt, logAt) => ResetMonitor(m, checkAt, logAt)
    case Marked(marks) => ReportAll(m, marks)
    case Expiry(tick, now) => ExpireChecks(m, tick, pace, now)
    case Harvest(poll, now) => HarvestCheck(m, poll, now)
    case Ensure(tick, before, now) => EnsureCheck(m, tick, pace, before, now)
  }

  /** The monitor, the counters at the last reset, and since then the checks completed, the
      outcomes reported and the targets found empty. */
  datatype History = History(m: Monitor, base: SendStats, completed: seq<nat>, marks: seq<Mark>, empties: set<nat>)

  function Completed(m: Monitor, e: MonitorEvent): seq<nat> {
    if e.Harvest? && e.poll.CheckDone? && m.active.Some? then [m.active.value.target] else []
  }

  function FoundEmpty(m: Monitor, e: MonitorEvent): set<nat> {
    if e.Harvest? && e.poll.CheckDone? && !e.poll.hasTransactions && m.active.Some? then {m.active.value.target} else {}
  }

  ghost function NextMonitor(h: History, e: MonitorEvent, pace: Pace): History {
    var n := StepMonitor(h.m, e, pace);
    if e.Reset? then History(n, h.m.stats, [], [], {})
    else
      History(n, h.base, h.completed + Completed(h.m, e), h.marks + (if e.Marked? then e.marks else []),
              h.empties + FoundEmpty(h.m, e))
  }

  ghost function RunMonitor(h: History, events: seq<MonitorEvent>, pace: Pace): History
    decreases |events|
  {
    if events == [] then h else RunMonitor(NextMonitor(h, events[0], pace), events[1..], pace)
  }

  function NewHistory(now: nat): History { History(NewMonitor(now), SendStats(0, 0, 0), [], [], {}) }

  // ---------------------------------------------------------------- counters

  function Mapped(outcomes: map<nat, SendOutcome>, o: SendOutcome): set<nat> {
    set t | t in outcomes && outcomes[t] == o
  }

  /** Each counter is its value at the last reset plus the number of targets with that outcome. */
  predicate CountersAdd(m: Monitor, base: SendStats) {
    && m.stats.ok == base.ok + |Mapped(m.outcomes, OkSend)|
    && m.stats.failed == base.failed + |Mapped(m.outcomes, FailedSend)|
    && m.stats.empty == base.empty + |Mapped(m.outcomes, EmptyTick)|
  }

  /** No counter has reached its 64-bit limit, whatever the targets' outcomes become. */
  predicate BelowLimit(m: Monitor, base: SendStats) {
    base.ok + base.failed + base.empty + |m.outcomes| <= U64_MAX
  }

  predicate CountersOk(m: Monitor, base: SendStats) { BelowLimit(m, base) ==> CountersAdd(m, base) }

  lemma MappedFits(outcomes: map<nat, SendOutcome>, o: SendOutcome)
    ensures |Mapped(outcomes, o)| <= |outcomes|
  {
    assert Mapped(outcomes, o) <= outcomes.Keys;
    Smaller(Mapped(outcomes, o), outcomes.Keys);
  }

  lemma {:induction false} Smaller<T>(a: set<T>, b: set<T>)
    requires a <= b
    ensures |a| <= |b|
    decreases |a|
  {
    if a != {} {
      var x :| x in a;
      Smaller(a - {x}, b - {x});
    }
  }

  lemma MappedAfter(outcomes: map<nat, SendOutcome>, target: nat, next: SendOutcome, o: SendOutcome)
    requires target in outcomes ==> outcomes[target] != next
    ensures |Mapped(outcomes[target := next], o)| ==
      |Mapped(outcomes, o)| + (if o == next then 1 else 0)
        - (if target in outcomes && outcomes[target] == o then 1 else 0)
    ensures target in outcomes && outcomes[target] == o ==> |Mapped(outcomes, o)| > 0
  {
    var a, b := Mapped(outcomes, o), Mapped(outcomes[target := next], o);
    if o == next {
      assert b == a + {target};
    } else if target in outcomes && outcomes[target] == o {
      assert b == a - {target} && target in a;
    } else {
      assert b == a;
    }
  }

  lemma RecordCounts(m: Monitor, base: SendStats, target: nat, next: SendOutcome)
    requires CountersOk(m, base)
    ensures CountersOk(Record(m, target, next), base)
  {
    var n := Record(m, target, next);
    if n != m && BelowLimit(n, base) {
      OutcomesGrow(m.outcomes, target, next);
      RecordAdds(m, base, target, next);
      hide CountersAdd;
    }
  }

  lemma OutcomesGrow(outcomes: map<nat, SendOutcome>, target: nat, next: SendOutcome)
    ensures |outcomes| <= |outcomes[target := next]|
  {
    assert outcomes[target := next].Keys == outcomes.Keys + {target};
    Smaller(outcomes.Keys, outcomes[target := next].Keys);
  }

  lemma RecordAdds(m: Monitor, base: SendStats, target: nat, next: SendOutcome)
    requires CountersAdd(m, base) && Allowed(OutcomeOf(m, target), next)
    requires BelowLimit(Record(m, target, next), base)
    ensures CountersAdd(Record(m, target, next), base)
  {
    var n := m.outcomes[target := next];
    MappedAfter(m.outcomes, target, next, OkSend);
    MappedAfter(m.outcomes, target, next, FailedSend);
    MappedAfter(m.outcomes, target, next, EmptyTick);
    MappedFits(n, OkSend);
    MappedFits(n, FailedSend);
    MappedFits(n, EmptyTick);
    hide Mapped;
  }

  function Rank(o: Option<SendOutcome>): nat {
    match o
    case None => 0
    case Some(OkSend) => 1
    case Some(FailedSend) => 2
    case Some(EmptyTick) => 3
  }

  /** Recording keeps the worse of the two outcomes and touches no other target. */
  lemma RecordKeepsWorst(m: Monitor, target: nat, next: SendOutcome, other: nat)
    ensures var n := Record(m, target, next);
      && Rank(OutcomeOf(n, target)) == Max(Rank(OutcomeOf(m, target)), Rank(Some(next)))
      && (other != target ==> OutcomeOf(n, other) == OutcomeOf(m, other))
  {
  }

  // ---------------------------------------------------------------- the queue

  function ReadyTargets(ready: map<ReadyKey, nat>): set<nat> { set k | k in ready :: k.target }

  function ActiveTargets(active: Option<Check>): set<nat> { if active.Some? then {active.value.target} else {} }

  predicate OneKeyEach(ready: map<ReadyKey, nat>) {
    forall j, k :: j in ready && k in ready && j.target == k.target ==> j == k
  }

  predicate NoneBelow(s: set<nat>, oldest: nat) { forall t :: t in s ==> oldest <= t }

  /** The queue splits into three parts and holds no checked target. */
  predicate Splits(queued: set<nat>, waiting: set<nat>, ready: set<nat>, active: set<nat>, checked: set<nat>) {
    && queued == waiting + ready + active
    && waiting !! ready && waiting !! active && ready !! active && queued !! checked
  }

  /** Every queued target waits, is ready or is being checked, and only one of these; no queued
      target was checked before; nothing lies below the watermark. */
  predicate QueueOk(m: Monitor) {
    && Splits(m.queued, m.pending, ReadyTargets(m.ready), ActiveTargets(m.active), m.checked)
    && OneKeyEach(m.ready) && NoneBelow(m.queued, m.oldest) && NoneBelow(m.checked, m.oldest)
  }

  lemma RecordQueues(m: Monitor, target: nat, next: SendOutcome)
    requires QueueOk(m)
    ensures var n := Record(m, target, next); QueueOk(n) && n.oldest == m.oldest && n.checked == m.checked
  {
  }

  lemma QueueKeeps(m: Monitor, target: nat)
    requires QueueOk(m)
    ensures var n := QueueCheck(m, target);
      && QueueOk(n) && n.oldest == m.oldest && n.checked == m.checked && n.stats == m.stats && n.outcomes == m.outcomes
  {
  }

  lemma ReadyAbove(ready: map<ReadyKey, nat>, oldest: nat)
    requires OneKeyEach(ready)
    ensures OneKeyEach(ReadyFrom(ready, oldest)) && ReadyTargets(ReadyFrom(ready, oldest)) == From(ReadyTargets(ready), oldest)
  {
    var n := ReadyFrom(ready, oldest);
    forall t | t in ReadyTargets(n) ensures t in From(ReadyTargets(ready), oldest) {
      var k :| k in n && k.target == t;
      assert k in ready;
    }
    forall t | t in From(ReadyTargets(ready), oldest) ensures t in ReadyTargets(n) {
      var k :| k in ready && k.target == t;
      assert k in n;
    }
  }

  lemma SplitsFrom(queued: set<nat>, waiting: set<nat>, ready: set<nat>, active: set<nat>, checked: set<nat>, oldest: nat)
    requires Splits(queued, waiting, ready, active, checked)
    ensures Splits(From(queued, oldest), From(waiting, oldest), From(ready, oldest), From(active, oldest), From(checked, oldest))
    ensures NoneBelow(From(queued, oldest), oldest) && NoneBelow(From(checked, oldest), oldest)
  {
  }

  lemma ExpiryQueues(m: Monitor, tick: nat, pace: Pace, now: nat)
    requires QueueOk(m)
    ensures var n := ExpireChecks(m, tick, pace, now);
      && QueueOk(n) && m.oldest <= n.oldest && n.checked == From(m.checked, n.oldest)
  {
    var n := ExpireChecks(m, tick, pace, now);
    var oldest := OldestAt(m, tick, pace.delayTicks);
    ReadyAbove(m.ready, oldest);
    assert ActiveTargets(n.active) == From(ActiveTargets(m.active), oldest);
    SplitsFrom(m.queued, m.pending, ReadyTargets(m.ready), ActiveTargets(m.active), m.checked, oldest);
    hide ReadyTargets, ReadyFrom, OneKeyEach, Splits, NoneBelow, From, ActiveTargets;
  }

  lemma HarvestQueues(m: Monitor, poll: CheckPoll, now: nat)
    requires QueueOk(m)
    ensures var n := HarvestCheck(m, poll, now); QueueOk(n) && n.oldest == m.oldest && m.checked <= n.checked
    ensures m.active.Some? && poll.CheckDone? ==>
      m.active.value.target !in m.checked && m.active.value.target in HarvestCheck(m, poll, now).checked
  {
    if m.active.Some? && poll.CheckError? {
      var n := HarvestCheck(m, poll, now);
      var key := ReadyKey(now + RetryDelay(m.active.value.failures), m.active.value.target);
      assert n.ready.Keys == m.ready.Keys + {key};
      assert ReadyTargets(n.ready) == ReadyTargets(m.ready) + {key.target} by {
        forall t | t in ReadyTargets(m.ready) + {key.target} ensures t in ReadyTargets(n.ready) {
          if t == key.target {
            assert key in n.ready;
          } else {
            var k :| k in m.ready && k.target == t;
            assert k in n.ready;
          }
        }
      }
      assert forall k :: k in m.ready ==> k.target in ReadyTargets(m.ready);
    }
  }

  lemma PromoteQueues(m: Monitor, tick: nat, delayTicks: nat, now: nat)
    requires QueueOk(m) && m.active.None?
    ensures var p := Promote(m, tick, delayTicks, now);
      QueueOk(p) && p.oldest == m.oldest && p.checked == m.checked && p.queued == m.queued
  {
    var p := Promote(m, tick, delayTicks, now);
    var moved := EligibleOf(m.pending, tick, delayTicks);
    assert forall t :: t in moved ==> ReadyKey(now, t) in p.ready;
    assert forall k :: k in m.ready ==> k in p.ready && k.target in ReadyTargets(m.ready);
    assert forall k :: k in p.ready ==> k in m.ready || (k.target in moved && k.at == now);
    assert ReadyTargets(p.ready) == ReadyTargets(m.ready) + moved by {
      forall t | t in ReadyTargets(m.ready) + moved ensures t in ReadyTargets(p.ready) {
        if t in moved {
          assert ReadyKey(now, t).target == t;
        } else {
          var k :| k in m.ready && k.target == t;
        }
      }
    }
  }

  lemma TakeQueues(p: Monitor, key: ReadyKey, nextCheckAt: nat)
    requires QueueOk(p) && p.active.None? && key in p.ready
    ensures QueueOk(p.(ready := p.ready - {key}, active := Some(Check(key.target, p.ready[key])), nextCheckAt := nextCheckAt))
  {
    var rest := p.ready - {key};
    assert forall k :: k in p.ready ==> k == key || k in rest;
    assert key.target !in ReadyTargets(rest);
    assert ReadyTargets(p.ready) == ReadyTargets(rest) + {key.target} by {
      forall t | t in ReadyTargets(p.ready) ensures t in ReadyTargets(rest) + {key.target} {
        var k :| k in p.ready && k.target == t;
      }
      assert key.target in ReadyTargets(p.ready);
      forall t | t in ReadyTargets(rest) ensures t in ReadyTargets(p.ready) {
        var k :| k in rest && k.target == t;
        assert k in p.ready;
      }
    }
  }

  function DueTargets(ready: map<ReadyKey, nat>, now: nat): set<nat> { set k | k in ready && k.at <= now :: k.target }

  lemma StartQueues(p: Monitor, pace: Pace, now: nat)
    requires QueueOk(p) && p.active.None?
    ensures var n := StartNewest(p, pace, now);
      QueueOk(n) && n.oldest == p.oldest && n.checked == p.checked
  {
    if AnyDue(p.ready, now) {
      TakeQueues(p, NewestOf(p.ready, now), now + pace.interval);
      hide QueueOk;
    }
  }

  lemma EnsureQueues(m: Monitor, tick: nat, pace: Pace, before: nat, now: nat)
    requires QueueOk(m)
    ensures var n := EnsureCheck(m, tick, pace, before, now);
      && QueueOk(n) && m.oldest <= n.oldest && n.checked == From(m.checked, n.oldest)
  {
    hide QueueOk, ExpireChecks, Promote, StartNewest;
    var e := ExpireChecks(m, tick, pace, before);
    ExpiryQueues(m, tick, pace, before);
    if e.active.None? && e.nextCheckAt <= now {
      PromoteQueues(e, tick, pace.delayTicks, now);
      PromoteActive(e, tick, pace.delayTicks, now);
      StartQueues(Promote(e, tick, pace.delayTicks, now), pace, now);
    }
  }

  lemma PromoteActive(m: Monitor, tick: nat, delayTicks: nat, now: nat)
    ensures Promote(m, tick, delayTicks, now).active == m.active
  {
  }

  /** Checks that may run now: ready ones whose time has come, and waiting targets that are
      far enough behind the current tick. */
  function Candidates(m: Monitor, tick: nat, delayTicks: nat, now: nat): set<nat> {
    DueTargets(m.ready, now) + EligibleOf(m.pending, tick, delayTicks)
  }

  lemma PromoteOffers(m: Monitor, tick: nat, delayTicks: nat, now: nat)
    ensures var p := Promote(m, tick, delayTicks, now);
      && DueTargets(p.ready, now) == Candidates(m, tick, delayTicks, now)
      && p.pending == m.pending - EligibleOf(m.pending, tick, delayTicks)
  {
    var p := Promote(m, tick, delayTicks, now);
    var moved := EligibleOf(m.pending, tick, delayTicks);
    assert forall t :: t in moved ==> ReadyKey(now, t) in p.ready && ReadyKey(now, t).target == t;
    assert forall k :: k in m.ready ==> k in p.ready;
    assert forall k :: k in p.ready ==> k in m.ready || (k.target in moved && k.at == now);
  }

  lemma StartsTheNewest(p: Monitor, pace: Pace, now: nat)
    requires p.active.None?
    ensures var n := StartNewest(p, pace, now);
      && n.queued == p.queued && n.pending == p.pending
      && (n.active.Some? <==> DueTargets(p.ready, now) != {})
      && (n.active.Some? ==>
            n.active.value.target in DueTargets(p.ready, now)
            && forall t :: t in DueTargets(p.ready, now) ==> t <= n.active.value.target)
  {
    if AnyDue(p.ready, now) { assert NewestOf(p.ready, now).target in DueTargets(p.ready, now); }
  }

  /** Unless a check runs already or the pause is not over, promotion moves exactly the eligible
      waiting targets, and a check is started exactly when there is a candidate: the newest. */
  lemma EnsureStartsTheNewest(m: Monitor, tick: nat, pace: Pace, before: nat, now: nat)
    ensures var e := ExpireChecks(m, tick, pace, before);
      var n := EnsureCheck(m, tick, pace, before, now);
      var c := Candidates(e, tick, pace.delayTicks, now);
      if e.active.Some? || now < e.nextCheckAt then n == e
      else
        && n.pending == e.pending - EligibleOf(e.pending, tick, pace.delayTicks)
        && (n.active.Some? <==> c != {})
        && (n.active.Some? ==> n.active.value.target in c && forall t :: t in c ==> t <= n.active.value.target)
  {
    hide ExpireChecks, Promote, DueTargets, StartNewest, Candidates, EligibleOf;
    var e := ExpireChecks(m, tick, pace, before);
    if e.active.None? && e.nextCheckAt <= now {
      PromoteActive(e, tick, pace.delayTicks, now);
      PromoteOffers(e, tick, pace.delayTicks, now);
      StartsTheNewest(Promote(e, tick, pace.delayTicks, now), pace, now);
    }
  }

  // ---------------------------------------------------------------- all runs

  ghost predicate MonitorOk(h: History) {
    QueueOk(h.m) && CountersOk(h.m, h.base) && Remembered(h.completed, h.m.checked, h.m.oldest)
  }

  /** No target's outcome improves. */
  ghost predicate NoBetter(a: Monitor, b: Monitor) {
    forall t: nat :: Rank(OutcomeOf(a, t)) <= Rank(OutcomeOf(b, t))
  }

  lemma SameCounters(a: Monitor, b: Monitor, base: SendStats)
    requires CountersOk(a, base) && b.stats == a.stats && b.outcomes == a.outcomes
    ensures CountersOk(b, base)
  {
  }

  lemma RecordWorsens(m: Monitor, target: nat, next: SendOutcome)
    ensures NoBetter(m, Record(m, target, next))
  {
    forall t: nat ensures Rank(OutcomeOf(m, t)) <= Rank(OutcomeOf(Record(m, target, next), t)) {
      RecordKeepsWorst(m, target, next, t);
    }
  }

  lemma WorsensOn(a: Monitor, b: Monitor, c: Monitor)
    requires NoBetter(a, b) && c.outcomes == b.outcomes
    ensures NoBetter(a, c)
  {
    forall t: nat ensures Rank(OutcomeOf(a, t)) <= Rank(OutcomeOf(c, t)) {
      assert Rank(OutcomeOf(a, t)) <= Rank(OutcomeOf(b, t));
    }
  }

  lemma ReportKeeps(m: Monitor, base: SendStats, mark: Mark)
    requires QueueOk(m) && CountersOk(m, base)
    ensures var n := Report(m, mark);
      && QueueOk(n) && CountersOk(n, base) && n.oldest == m.oldest && n.checked == m.checked && NoBetter(m, n)
  {
    hide QueueOk, CountersOk, Record, QueueCheck, NoBetter;
    var o := if mark.Success? then OkSend else FailedSend;
    var r := Record(m, mark.target, o);
    RecordQueues(m, mark.target, o);
    RecordCounts(m, base, mark.target, o);
    RecordWorsens(m, mark.target, o);
    QueueKeeps(r, mark.target);
    SameCounters(r, QueueCheck(r, mark.target), base);
    WorsensOn(m, r, QueueCheck(r, mark.target));
  }

  lemma {:induction false} ReportAllKeeps(m: Monitor, base: SendStats, marks: seq<Mark>)
    requires QueueOk(m) && CountersOk(m, base)
    ensures var n := ReportAll(m, marks);
      && QueueOk(n) && CountersOk(n, base) && n.oldest == m.oldest && n.checked == m.checked && NoBetter(m, n)
    decreases |marks|
  {
    if marks != [] {
      ReportKeeps(m, base, marks[0]);
      ReportAllKeeps(Report(m, marks[0]), base, marks[1..]);
      hide QueueOk, CountersOk, Report;
    }
  }

  lemma HarvestCounts(m: Monitor, base: SendStats, poll: CheckPoll, now: nat)
    requires CountersOk(m, base)
    ensures var n := HarvestCheck(m, poll, now); CountersOk(n, base) && NoBetter(m, n)
  {
    hide CountersOk, Record, NoBetter;
    var n := HarvestCheck(m, poll, now);
    assert NoBetter(m, m) by { SameIsNoBetter(m); }
    if m.active.Some? && poll.CheckDone? && !poll.hasTransactions {
      var t := m.active.value.target;
      var cleared := m.(active := None, queued := m.queued - {t}, checked := m.checked + {t});
      SameCounters(m, cleared, base);
      RecordCounts(cleared, base, t, EmptyTick);
      RecordWorsens(cleared, t, EmptyTick);
      SameOutcomes(m, cleared, n);
    } else {
      SameCounters(m, n, base);
      WorsensOn(m, m, n);
    }
  }

  lemma SameIsNoBetter(m: Monitor)
    ensures NoBetter(m, m)
  {
  }

  lemma SameOutcomes(a: Monitor, b: Monitor, c: Monitor)
    requires NoBetter(b, c) && a.outcomes == b.outcomes
    ensures NoBetter(a, c)
  {
    forall t: nat ensures Rank(OutcomeOf(a, t)) <= Rank(OutcomeOf(c, t)) {
      assert Rank(OutcomeOf(b, t)) <= Rank(OutcomeOf(c, t));
    }
  }

  /** Completed checks stay remembered while their targets stay above the watermark. */
  ghost predicate Remembered(completed: seq<nat>, checked: set<nat>, oldest: nat) {
    && (forall i, j :: 0 <= i < j < |completed| ==> completed[i] != completed[j])
    && forall t :: t in completed ==> t in checked || t < oldest
  }

  lemma RememberMore(completed: seq<nat>, checked: set<nat>, oldest: nat, target: nat)
    requires Remembered(completed, checked, oldest) && target !in checked && oldest <= target
    ensures Remembered(completed + [target], checked + {target}, oldest)
  {
  }

  lemma RunningIsUnchecked(m: Monitor)
    requires QueueOk(m) && m.active.Some?
    ensures m.active.value.target !in m.checked && m.oldest <= m.active.value.target
  {
    assert m.active.value.target in ActiveTargets(m.active);
    hide ReadyTargets, OneKeyEach;
  }

  lemma DoneIsChecked(m: Monitor, poll: CheckPoll, now: nat)
    requires m.active.Some? && poll.CheckDone?
    ensures var n := HarvestCheck(m, poll, now); n.checked == m.checked + {m.active.value.target} && n.oldest == m.oldest
  {
  }

  lemma StepRemembers(h: History, e: MonitorEvent, pace: Pace)
    requires QueueOk(h.m) && Remembered(h.completed, h.m.checked, h.m.oldest)
    requires var n := StepMonitor(h.m, e, pace);
      && h.m.oldest <= n.oldest
      && forall t :: t in h.m.checked && n.oldest <= t ==> t in n.checked
    ensures var n := NextMonitor(h, e, pace); Remembered(n.completed, n.m.checked, n.m.oldest)
  {
    hide QueueOk;
    if e.Harvest? && e.poll.CheckDone? && h.m.active.Some? {
      RunningIsUnchecked(h.m);
      DoneIsChecked(h.m, e.poll, e.now);
      RememberMore(h.completed, h.m.checked, h.m.oldest, h.m.active.value.target);
      hide HarvestCheck, Remembered;
    } else if !e.Reset? {
      assert NextMonitor(h, e, pace).completed == h.completed;
      hide StepMonitor;
    }
  }

  lemma StepMonitorKeeps(h: History, e: MonitorEvent, pace: Pace)
    requires MonitorOk(h)
    ensures MonitorOk(NextMonitor(h, e, pace))
    ensures !e.Reset? ==> h.m.oldest <= NextMonitor(h, e, pace).m.oldest && NoBetter(h.m, NextMonitor(h, e, pace).m)
  {
    var n := StepMonitor(h.m, e, pace);
    hide QueueOk, CountersOk, Remembered, NoBetter, HarvestCheck, ExpireChecks, EnsureCheck, ReportAll;
    if e.Reset? {
      ResetIsOk(h.m, e.checkAt, e.logAt);
    } else {
      SameIsNoBetter(h.m);
      match e {
        case Marked(marks) => ReportAllKeeps(h.m, h.base, marks);
        case Expiry(tick, now) =>
          ExpiryQueues(h.m, tick, pace, now);
          ExpiryCountsNothing(h.m, tick, pace, now);
          SameCounters(h.m, n, h.base);
          WorsensOn(h.m, h.m, n);
        case Harvest(poll, now) =>
          HarvestQueues(h.m, poll, now);
          HarvestCounts(h.m, h.base, poll, now);
        case Ensure(tick, before, now) =>
          EnsureQueues(h.m, tick, pace, before, now);
          EnsureCountsNothing(h.m, tick, pace, before, now);
          SameCounters(h.m, n, h.base);
          WorsensOn(h.m, h.m, n);
      }
      StepRemembers(h, e, pace);
    }
  }

  lemma ResetIsOk(m: Monitor, checkAt: nat, logAt: nat)
    ensures var n := ResetMonitor(m, checkAt, logAt);
      QueueOk(n) && CountersOk(n, n.stats) && Remembered([], n.checked, n.oldest)
  {
    assert Mapped(map[], OkSend) == Mapped(map[], FailedSend) == Mapped(map[], EmptyTick) == {};
  }

  lemma ExpiryCountsNothing(m: Monitor, tick: nat, pace: Pace, now: nat)
    ensures var n := ExpireChecks(m, tick, pace, now); n.stats == m.stats && n.outcomes == m.outcomes
  {
  }

  lemma EnsureCountsNothing(m: Monitor, tick: nat, pace: Pace, before: nat, now: nat)
    ensures var n := EnsureCheck(m, tick, pace, before, now); n.stats == m.stats && n.outcomes == m.outcomes
  {
  }

  lemma {:induction false} RunMonitorKeeps(h: History, events: seq<MonitorEvent>, pace: Pace)
    requires MonitorOk(h)
    ensures MonitorOk(RunMonitor(h, events, pace))
    decreases |events|
  {
    if events != [] {
      StepMonitorKeeps(h, events[0], pace);
      RunMonitorKeeps(NextMonitor(h, events[0], pace), events[1..], pace);
    }
  }

  lemma NewIsOk(now: nat)
    ensures MonitorOk(NewHistory(now))
  {
    assert Mapped(map[], OkSend) == Mapped(map[], FailedSend) == Mapped(map[], EmptyTick) == {};
  }

  /** Over every run: each counter is its value at the last epoch reset plus the number of
      targets with that outcome, as long as no counter could have reached 64 bits. */
  lemma CountersAreExact(now: nat, events: seq<MonitorEvent>, pace: Pace)
    ensures var h := RunMonitor(NewHistory(now), events, pace); BelowLimit(h.m, h.base) ==> CountersAdd(h.m, h.base)
  {
    NewIsOk(now);
    RunMonitorKeeps(NewHistory(now), events, pace);
  }

  /** Over every run: the queue is the disjoint union of waiting, ready and running checks, no
      target is checked twice in an epoch, and nothing queued or checked lies below the
      watermark. */
  lemma NoTargetIsCheckedTwice(now: nat, events: seq<MonitorEvent>, pace: Pace)
    ensures var h := RunMonitor(NewHistory(now), events, pace);
      && QueueOk(h.m)
      && forall i, j :: 0 <= i < j < |h.completed| ==> h.completed[i] != h.completed[j]
  {
    NewIsOk(now);
    RunMonitorKeeps(NewHistory(now), events, pace);
  }

  lemma {:induction false} RunOnlyWorsens(h: History, events: seq<MonitorEvent>, pace: Pace)
    requires MonitorOk(h) && forall e :: e in events ==> !e.Reset?
    ensures var n := RunMonitor(h, events, pace); NoBetter(h.m, n.m) && h.m.oldest <= n.m.oldest
    decreases |events|
  {
    if events != [] {
      assert events[0] in events && forall e :: e in events[1..] ==> e in events;
      StepMonitorKeeps(h, events[0], pace);
      RunOnlyWorsens(NextMonitor(h, events[0], pace), events[1..], pace);
    }
  }

  /** Within an epoch, from any reachable state on, no outcome improves and the watermark does
      not fall. */
  lemma OutcomesOnlyWorsen(now: nat, past: seq<MonitorEvent>, events: seq<MonitorEvent>, pace: Pace, target: nat)
    requires forall e :: e in events ==> !e.Reset?
    ensures var h := RunMonitor(NewHistory(now), past, pace);
      var n := RunMonitor(h, events, pace);
      Rank(OutcomeOf(h.m, target)) <= Rank(OutcomeOf(n.m, target)) && h.m.oldest <= n.m.oldest
  {
    NewIsOk(now);
    RunMonitorKeeps(NewHistory(now), past, pace);
    RunOnlyWorsens(RunMonitor(NewHistory(now), past, pace), events, pace);
  }

  // ---------------------------------------------------------------- outcomes and reports

  /** What a target's outcome must be, given what was reported and found since the last reset. */
  function OutcomeBy(marks: seq<Mark>, empties: set<nat>, target: nat): Option<SendOutcome> {
    if target in empties then Some(EmptyTick)
    else if Failure(target) in marks then Some(FailedSend)
    else if Success(target) in marks then Some(OkSend)
    else None
  }

  ghost predicate OutcomesBy(m: Monitor, marks: seq<Mark>, empties: set<nat>) {
    forall t: nat :: OutcomeOf(m, t) == OutcomeBy(marks, empties, t)
  }

  lemma ReportOutcomes(m: Monitor, marks: seq<Mark>, empties: set<nat>, mark: Mark)
    requires OutcomesBy(m, marks, empties)
    ensures OutcomesBy(Report(m, mark), marks + [mark], empties)
  {
    forall t: nat ensures OutcomeOf(Report(m, mark), t) == OutcomeBy(marks + [mark], empties, t) {
      assert OutcomeOf(m, t) == OutcomeBy(marks, empties, t);
    }
  }

  lemma {:induction false} ReportAllOutcomes(m: Monitor, past: seq<Mark>, empties: set<nat>, marks: seq<Mark>)
    requires OutcomesBy(m, past, empties)
    ensures OutcomesBy(ReportAll(m, marks), past + marks, empties)
    decreases |marks|
  {
    if marks == [] {
      assert past + marks == past;
    } else {
      ReportOutcomes(m, past, empties, marks[0]);
      ReportAllOutcomes(Report(m, marks[0]), past + [marks[0]], empties, marks[1..]);
      assert past + marks == past + [marks[0]] + marks[1..];
    }
  }

  lemma SameOutcomesBy(a: Monitor, b: Monitor, marks: seq<Mark>, empties: set<nat>)
    requires OutcomesBy(a, marks, empties) && b.outcomes == a.outcomes
    ensures OutcomesBy(b, marks, empties)
  {
    forall t: nat ensures OutcomeOf(b, t) == OutcomeBy(marks, empties, t) { assert OutcomeOf(a, t) == OutcomeBy(marks, empties, t); }
  }

  lemma HarvestOutcomes(m: Monitor, marks: seq<Mark>, empties: set<nat>, poll: CheckPoll, now: nat)
    requires OutcomesBy(m, marks, empties)
    ensures OutcomesBy(HarvestCheck(m, poll, now), marks, empties + FoundEmpty(m, Harvest(poll, now)))
  {
    var n, more := HarvestCheck(m, poll, now), empties + FoundEmpty(m, Harvest(poll, now));
    forall t: nat ensures OutcomeOf(n, t) == OutcomeBy(marks, more, t) {
      assert OutcomeOf(m, t) == OutcomeBy(marks, empties, t);
    }
  }

  lemma StepOutcomes(h: History, e: MonitorEvent, pace: Pace)
    requires OutcomesBy(h.m, h.marks, h.empties)
    ensures var n := NextMonitor(h, e, pace); OutcomesBy(n.m, n.marks, n.empties)
  {
    var n := NextMonitor(h, e, pace);
    assert h.marks + [] == h.marks && h.empties + {} == h.empties;
    hide OutcomesBy, ReportAll, ExpireChecks, EnsureCheck, HarvestCheck;
    match e
    case Reset(_, _) => NoOutcomes(n.m);
    case Marked(marks) => ReportAllOutcomes(h.m, h.marks, h.empties, marks);
    case Expiry(tick, now) =>
      ExpiryCountsNothing(h.m, tick, pace, now);
      SameOutcomesBy(h.m, n.m, h.marks, h.empties);
    case Harvest(poll, now) => HarvestOutcomes(h.m, h.marks, h.empties, poll, now);
    case Ensure(tick, before, now) =>
      EnsureCountsNothing(h.m, tick, pace, before, now);
      SameOutcomesBy(h.m, n.m, h.marks, h.empties);
  }

  lemma NoOutcomes(m: Monitor)
    requires m.outcomes == map[]
    ensures OutcomesBy(m, [], {})
  {
  }

  lemma {:induction false} RunOutcomes(h: History, events: seq<MonitorEvent>, pace: Pace)
    requires OutcomesBy(h.m, h.marks, h.empties)
    ensures var n := RunMonitor(h, events, pace); OutcomesBy(n.m, n.marks, n.empties)
    decreases |events|
  {
    if events != [] {
      StepOutcomes(h, events[0], pace);
      RunOutcomes(NextMonitor(h, events[0], pace), events[1..], pace);
    }
  }

  /** Over every run: a target's outcome is empty if a check found it so, otherwise failed if a
      failure was reported for it, otherwise ok if a success was, since the last reset. */
  lemma OutcomesComeFromReports(now: nat, events: seq<MonitorEvent>, pace: Pace, target: nat)
    ensures var h := RunMonitor(NewHistory(now), events, pace);
      OutcomeOf(h.m, target) == OutcomeBy(h.marks, h.empties, target)
  {
    NoOutcomes(NewMonitor(now));
    RunOutcomes(NewHistory(now), events, pace);
    assert OutcomesBy(RunMonitor(NewHistory(now), events, pace).m, RunMonitor(NewHistory(now), events, pace).marks,
                      RunMonitor(NewHistory(now), events, pace).empties);
  }
}
