/** Delivery counters and the queue of target ticks whose data is still to be checked. */
module Monitor {
  import opened Basics
  import opened SlotRules

  const TICK_CHECK_WINDOW: nat := 32
  /** Times are in milliseconds. */
  const MONITOR_LOG_INTERVAL: nat := 60_000
  const U64_MAX: nat := 0xffff_ffff_ffff_ffff

  datatype SendOutcome = OkSend | FailedSend | EmptyTick

  datatype SendStats = SendStats(ok: nat, failed: nat, empty: nat)

  /** When a ready check may be tried, and for which target. */
  datatype ReadyKey = ReadyKey(at: nat, target: nat)

  datatype Check = Check(target: nat, failures: nat)

  datatype Monitor = Monitor(stats: SendStats, outcomes: map<nat, SendOutcome>, pending: set<nat>, ready: map<ReadyKey, nat>,
                             queued: set<nat>, checked: set<nat>, active: Option<Check>, nextCheckAt: nat, oldest: nat,
                             expired: nat, nextLogAt: nat)

  /** Configuration: ticks to wait before a check, and the pause between two checks. */
  datatype Pace = Pace(delayTicks: nat, interval: nat)

  // ---------------------------------------------------------------- counters

  function Increment(s: SendStats, o: SendOutcome): SendStats {
    match o
    case OkSend => s.(ok := Min(s.ok + 1, U64_MAX))
    case FailedSend => s.(failed := Min(s.failed + 1, U64_MAX))
    case EmptyTick => s.(empty := Min(s.empty + 1, U64_MAX))
  }

  function Decrement(s: SendStats, o: SendOutcome): SendStats {
    match o
    case OkSend => s.(ok := SaturatingSub(s.ok, 1))
    case FailedSend => s.(failed := SaturatingSub(s.failed, 1))
    case EmptyTick => s.(empty := SaturatingSub(s.empty, 1))
  }

  predicate Allowed(previous: Option<SendOutcome>, next: SendOutcome) {
    match previous
    case None => true
    case Some(OkSend) => next != OkSend
    case Some(FailedSend) => next == EmptyTick
    case Some(EmptyTick) => false
  }

  function OutcomeOf(m: Monitor, target: nat): Option<SendOutcome> {
    if target in m.outcomes then Some(m.outcomes[target]) else None
  }

  function Record(m: Monitor, target: nat, next: SendOutcome): Monitor {
    var previous := OutcomeOf(m, target);
    if !Allowed(previous, next) then m
    else
      var s := if previous.Some? then Decrement(m.stats, previous.value) else m.stats;
      m.(stats := Increment(s, next), outcomes := m.outcomes[target := next])
  }

  // ---------------------------------------------------------------- queue

  function QueueCheck(m: Monitor, target: nat): Monitor {
    if m.oldest <= target && target !in m.checked && target !in m.queued then
      m.(queued := m.queued + {target}, pending := m.pending + {target})
    else m
  }

  function Report(m: Monitor, mark: Mark): Monitor {
    QueueCheck(Record(m, mark.target, if mark.Success? then OkSend else FailedSend), mark.target)
  }

  function ReportAll(m: Monitor, marks: seq<Mark>): Monitor
    decreases |marks|
  {
    if marks == [] then m else ReportAll(Report(m, marks[0]), marks[1..])
  }

  function From(s: set<nat>, oldest: nat): set<nat> { set t | t in s && oldest <= t }

  function ReadyFrom(r: map<ReadyKey, nat>, oldest: nat): map<ReadyKey, nat> {
    map k | k in r && oldest <= k.target :: r[k]
  }

  function OldestAt(m: Monitor, tick: nat, delayTicks: nat): nat {
    Max(SaturatingSub(tick, SaturatingAdd(delayTicks, TICK_CHECK_WINDOW)), m.oldest)
  }

  function ExpireChecks(m: Monitor, tick: nat, pace: Pace, now: nat): Monitor {
    var oldest := OldestAt(m, tick, pace.delayTicks);
    var expired := Min(m.expired + |m.queued - From(m.queued, oldest)|, U64_MAX);
    var logs := expired != 0 && m.nextLogAt <= now;
    m.(oldest := oldest, pending := From(m.pending, oldest), ready := ReadyFrom(m.ready, oldest),
       queued := From(m.queued, oldest), checked := From(m.checked, oldest),
       active := if m.active.Some? && m.active.value.target < oldest then None else m.active,
       expired := if logs then 0 else expired, nextLogAt := if logs then now + MONITOR_LOG_INTERVAL else m.nextLogAt)
  }

  /** What polling the running check shows. */
  datatype CheckPoll = CheckPending | CheckDone(hasTransactions: bool) | CheckError

  function Power(n: nat): nat { if n == 0 then 1 else 2 * Power(n - 1) }

  /** Retry pause after so many failures, in milliseconds. */
  function RetryDelay(failures: nat): nat { 1000 * Min(Power(Min(failures, 5)), 30) }

  function HarvestCheck(m: Monitor, poll: CheckPoll, now: nat): Monitor {
    if m.active.None? || poll.CheckPending? then m
    else
      var c := m.active.value;
      if poll.CheckDone? then
        var n := m.(active := None, queued := m.queued - {c.target}, checked := m.checked + {c.target});
        if poll.hasTransactions then n else Record(n, c.target, EmptyTick)
      else
        m.(active := None,
           ready := m.ready[ReadyKey(now + RetryDelay(c.failures), c.target) := SaturatingAdd(c.failures, 1)])
  }

  /** The target tick and the configured delay have passed. */
  predicate Eligible(target: nat, tick: nat, delayTicks: nat) { SaturatingAdd(target, delayTicks) <= tick }

  function EligibleOf(pending: set<nat>, tick: nat, delayTicks: nat): set<nat> {
    set t | t in pending && Eligible(t, tick, delayTicks)
  }

  function KeysAt(targets: set<nat>, now: nat): set<ReadyKey> { set t | t in targets :: ReadyKey(now, t) }

  function AllReady(ready: map<ReadyKey, nat>, targets: set<nat>, now: nat): map<ReadyKey, nat> {
    ready + map k | k in KeysAt(targets, now) :: 0
  }

  function Promote(m: Monitor, tick: nat, delayTicks: nat, now: nat): Monitor {
    var moved := EligibleOf(m.pending, tick, delayTicks);
    m.(pending := m.pending - moved, queued := m.queued + moved, ready := AllReady(m.ready, moved, now))
  }

  /** The choice among ready checks whose time has come: the newest target, and for one target
      the latest time. */
  predicate Newest(ready: map<ReadyKey, nat>, now: nat, key: ReadyKey) {
    && key in ready && key.at <= now
    && forall k :: k in ready && k.at <= now ==> k.target < key.target || (k.target == key.target && k.at <= key.at)
  }

  ghost predicate AnyDue(ready: map<ReadyKey, nat>, now: nat) { exists k :: k in ready && k.at <= now }

  lemma {:induction false} NewestExists(ready: map<ReadyKey, nat>, now: nat)
    requires AnyDue(ready, now)
    ensures exists key :: Newest(ready, now, key)
    decreases |ready|
  {
    var k :| k in ready && k.at <= now;
    var rest := map x | x in ready && x != k :: ready[x];
    assert ready.Keys == rest.Keys + {k};
    assert |rest.Keys| < |ready.Keys|;
    if AnyDue(rest, now) {
      NewestExists(rest, now);
      var b :| Newest(rest, now, b);
      assert Newest(ready, now, if b.target < k.target || (b.target == k.target && b.at <= k.at) then k else b);
    } else {
      assert forall x :: x in ready && x.at <= now ==> x in rest || x == k;
      assert Newest(ready, now, k);
    }
  }

  ghost function NewestOf(ready: map<ReadyKey, nat>, now: nat): (key: ReadyKey)
    requires AnyDue(ready, now)
    ensures Newest(ready, now, key)
  {
    NewestExists(ready, now);
    var key :| Newest(ready, now, key);
    key
  }

  ghost function StartNewest(m: Monitor, pace: Pace, now: nat): Monitor {
    if !AnyDue(m.ready, now) then m
    else
      var key := NewestOf(m.ready, now);
      m.(ready := m.ready - {key}, active := Some(Check(key.target, m.ready[key])), nextCheckAt := now + pace.interval)
  }

  /** Old checks are dropped first, by an earlier reading of the clock. */
  ghost function EnsureCheck(m: Monitor, tick: nat, pace: Pace, before: nat, now: nat): Monitor {
    var e := ExpireChecks(m, tick, pace, before);
    if e.active.Some? || now < e.nextCheckAt then e
    else StartNewest(Promote(e, tick, pace.delayTicks, now), pace, now)
  }

  function ResetMonitor(m: Monitor, checkAt: nat, logAt: nat): Monitor {
    Monitor(m.stats, map[], {}, map[], {}, {}, None, checkAt, 0, 0, logAt)
  }

  function NewMonitor(now: nat): Monitor {
    Monitor(SendStats(0, 0, 0), map[], {}, map[], {}, {}, None, now, 0, 0, now)
  }
}
