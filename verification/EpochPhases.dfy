/** The engine's view of the current epoch: warm-up, planning, and draining before its end. */
module EpochPhases {
  import opened Basics

  datatype TickInfo = TickInfo(epoch: nat, tick: nat, initialTick: nat)

  datatype EpochPhase = Warmup(epoch: nat, readyTick: nat) | Planning(epoch: nat) | Closing(epoch: nat)

  predicate NewEpoch(phase: Option<EpochPhase>, info: TickInfo) { phase.None? || phase.value.epoch != info.epoch }

  /** One tick observation; `stopWindow` is the wall-clock test for the end of the epoch. */
  function NextPhase(phase: Option<EpochPhase>, info: TickInfo, resumeDelay: nat, stopWindow: bool): EpochPhase {
    var entered := if NewEpoch(phase, info) then Warmup(info.epoch, SaturatingAdd(info.initialTick, resumeDelay)) else phase.value;
    var warmed := if entered.Warmup? && entered.readyTick <= info.tick then Planning(entered.epoch) else entered;
    if warmed.Planning? && stopWindow then Closing(warmed.epoch) else warmed
  }

  /** What one cycle observes. */
  datatype Observed = Observed(info: TickInfo, stopWindow: bool)

  /** The phase after a series of cycles. */
  function PhaseAfter(phase: Option<EpochPhase>, seen: seq<Observed>, resumeDelay: nat): Option<EpochPhase> {
    if seen == [] then phase
    else
      var last := seen[|seen| - 1];
      Some(NextPhase(PhaseAfter(phase, seen[..|seen| - 1], resumeDelay), last.info, resumeDelay, last.stopWindow))
  }

  predicate OneEpoch(seen: seq<Observed>) { forall i :: 0 <= i < |seen| ==> seen[i].info.epoch == seen[0].info.epoch }

  predicate Reached(seen: seq<Observed>, tick: nat) { exists i :: 0 <= i < |seen| && tick <= seen[i].info.tick }

  /** A cycle found the stop window when the warm-up had ended, in it or before. */
  predicate Stopped(seen: seq<Observed>, ready: nat) {
    exists i :: 0 <= i < |seen| && seen[i].stopWindow && Reached(seen[..i + 1], ready)
  }

  /** Over every run of cycles within an epoch, whatever came before it and however the tick
      moved: the engine warms up until some cycle has seen the ready tick fixed by the first one,
      drains from the first cycle on that is warm and finds the stop window, and plans in
      between. */
  lemma {:induction false} PhaseIsDecided(phase: Option<EpochPhase>, seen: seq<Observed>, resumeDelay: nat)
    requires seen != [] && OneEpoch(seen) && NewEpoch(phase, seen[0].info)
    ensures var n := PhaseAfter(phase, seen, resumeDelay);
      var ready := SaturatingAdd(seen[0].info.initialTick, resumeDelay);
      && n.Some? && n.value.epoch == seen[0].info.epoch
      && (n.value.Warmup? <==> !Reached(seen, ready))
      && (n.value.Closing? <==> Stopped(seen, ready))
      && (n.value.Warmup? ==> n.value.readyTick == ready)
  {
    hide Reached, Stopped;
    var ready := SaturatingAdd(seen[0].info.initialTick, resumeDelay);
    var k := |seen| - 1;
    var before, last := seen[..k], seen[k];
    assert seen == before + [last];
    ReachedMore(before, last, ready);
    StoppedMore(before, last, ready);
    if before == [] {
      NothingSeen(ready);
      PhaseSteps(phase, last, resumeDelay, ready, false, false);
    } else {
      PhaseIsDecided(phase, before, resumeDelay);
      if Stopped(before, ready) { StoppedReached(before, ready); }
      PhaseSteps(PhaseAfter(phase, before, resumeDelay), last, resumeDelay, ready, Reached(before, ready), Stopped(before, ready));
    }
  }

  lemma NothingSeen(ready: nat)
    ensures !Reached([], ready) && !Stopped([], ready)
  {
  }

  /** One more cycle of the same epoch. */
  lemma PhaseSteps(phase: Option<EpochPhase>, o: Observed, resumeDelay: nat, ready: nat, reached: bool, stopped: bool)
    requires if NewEpoch(phase, o.info) then !reached && !stopped && ready == SaturatingAdd(o.info.initialTick, resumeDelay)
             else (phase.value.Warmup? <==> !reached) && (phase.value.Closing? <==> stopped)
                  && (phase.value.Warmup? ==> phase.value.readyTick == ready) && (stopped ==> reached)
    ensures var n := NextPhase(phase, o.info, resumeDelay, o.stopWindow);
      && n.epoch == o.info.epoch
      && (n.Warmup? <==> !(reached || ready <= o.info.tick))
      && (n.Closing? <==> stopped || (o.stopWindow && (reached || ready <= o.info.tick)))
      && (n.Warmup? ==> n.readyTick == ready)
  {
  }

  lemma ReachedMore(seen: seq<Observed>, o: Observed, tick: nat)
    ensures Reached(seen + [o], tick) <==> Reached(seen, tick) || tick <= o.info.tick
  {
    var n := seen + [o];
    assert n[|seen|] == o;
    if Reached(seen, tick) {
      var i :| 0 <= i < |seen| && tick <= seen[i].info.tick;
      assert n[i] == seen[i];
    }
  }

  lemma StoppedMore(seen: seq<Observed>, o: Observed, ready: nat)
    ensures Stopped(seen + [o], ready) <==> Stopped(seen, ready) || (o.stopWindow && Reached(seen + [o], ready))
  {
    var n := seen + [o];
    assert n[|seen|] == o && n[..|seen| + 1] == n;
    forall i | 0 <= i < |seen| ensures n[i] == seen[i] && n[..i + 1] == seen[..i + 1] {
    }
    if Stopped(seen, ready) {
      var i :| 0 <= i < |seen| && seen[i].stopWindow && Reached(seen[..i + 1], ready);
      assert n[i].stopWindow && Reached(n[..i + 1], ready);
    }
  }

  lemma StoppedReached(seen: seq<Observed>, ready: nat)
    requires Stopped(seen, ready)
    ensures Reached(seen, ready)
  {
    var i :| 0 <= i < |seen| && seen[i].stopWindow && Reached(seen[..i + 1], ready);
    var j :| 0 <= j < i + 1 && ready <= seen[..i + 1][j].info.tick;
    assert seen[j] == seen[..i + 1][j];
  }
}
