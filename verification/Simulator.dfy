/** The simulator as its program runs it: one record per UE, changed in place, and the shared queue,
    counters and lists, changed in place. Every method is tied to the function that specifies it, so
    whatever is proved of `Run` holds of `Simulation.RunEvents`. */
module Simulator {
  import opened ChoTypes
  import opened Agenda
  import opened Channel
  import opened Protocol
  import opened ProtocolFacts
  import opened SystemModel
  import SnrHistory
  import Topsis

  class Simulation {
    const env: Env
    const ues: array<Ue>
    var now: real
    var queue: seq<Timed<Act>>
    var stats: Statistics
    var handovers: nat
    var cancels: nat
    var predictions: seq<Tagged<Prediction>>
    var validations: seq<Tagged<Validation>>
    var followups: seq<Tagged<Followup>>
    var lines: seq<Tagged<Line>>
    var rows: seq<Tagged<Row>>

    /** The state as a value. */
    ghost function Snapshot(): Sys
      reads this, ues
    {
      Sys(now, ues[..], queue, stats, handovers, cancels, predictions, validations, followups, lines, rows)
    }

    constructor (env: Env, population: seq<Ue>)
      ensures this.env == env && fresh(ues) && ues.Length == |population|
      ensures Snapshot() == Start(population)
    {
      this.env := env;
      ues := new Ue[|population|](i requires 0 <= i < |population| => population[i]);
      now := 0.0;
      queue := [Timed(0.0, Tick)];
      stats := NO_STATISTICS;
      handovers, cancels := 0, 0;
      predictions, validations, followups, lines, rows := [], [], [], [], [];
      new;
      assert ues[..] == population;
    }

    // ----- the event queue -----

    /** Put an event behind every event that is not later. */
    method Enqueue(e: Timed<Act>)
      modifies this`queue
      ensures queue == Insert(old(queue), e)
    {
      var k := 0;
      while k < |queue| && queue[k].time <= e.time
        invariant 0 <= k <= |queue|
        invariant forall i :: 0 <= i < k ==> queue[i].time <= e.time
      {
        k := k + 1;
      }
      InsertPosition(queue, e, k);
      queue := queue[..k] + [e] + queue[k..];
    }

    method ScheduleJob(i: nat, time: real, job: Job)
      modifies this`queue
      ensures queue == Schedule(old(queue), i, [Timed(time, job)])
    {
      Enqueue(Timed(time, Own(i, job)));
      ScheduleOne(old(queue), i, Timed(time, job));
    }

    // ----- the channel -----

    /** UpdateSatelliteState */
    method UpdateSatelliteState(cell: Cell, t: real, i: nat) returns (m: Metrics)
      requires i < ues.Length
      modifies ues
      ensures m == SampleCell(env, old(ues[i]), cell, t).1
      ensures ues[..] == old(ues[..])[i := SampleCell(env, old(ues[i]), cell, t).0]
    {
      var discreteTime := (t + 0.000001).Floor as real;
      if cell in ues[i].cache && ues[i].cache[cell].time == discreteTime {
        return ues[i].cache[cell].metrics;
      }
      m := UNSEEN;
      if cell !in env.satellites || t < env.firstTime(cell) || t > env.lastTime(cell) {
        return;
      }
      m := m.(distance := env.distance(ues[i].profile, cell, t));
      if m.distance < 1.0 {
        return;
      }
      m := m.(elevation := env.elevation(ues[i].profile, cell, t));
      m := m.(snr := env.snr(ues[i].profile, cell, t, ues[i].draws));
      ues[i] := ues[i].(draws := ues[i].draws + 1);
      ues[i] := ues[i].(cache := ues[i].cache[cell := CacheEntry(t, m)]);
      if env.cfg.strategy == TdCho {
        var samples := if cell in ues[i].history then ues[i].history[cell] else [];
        samples := SnrHistory.UpdateHistory(samples, env.cfg.trendWindow, Sample(t, m.snr));
        ues[i] := ues[i].(history := ues[i].history[cell := samples]);
      }
    }

    /** Step 1 of the tick: every satellite for every UE. */
    method UpdateCaches()
      modifies ues
      ensures ues[..] == RefreshAll(env, old(ues[..]), now)
    {
      for i := 0 to ues.Length
        invariant forall j :: 0 <= j < i ==> ues[j] == Refresh(env, old(ues[..])[j], now, |env.satellites|)
        invariant forall j :: i <= j < ues.Length ==> ues[j] == old(ues[..])[j]
      {
        for k := 0 to |env.satellites|
          invariant ues[i] == Refresh(env, old(ues[..])[i], now, k)
          invariant forall j :: 0 <= j < i ==> ues[j] == Refresh(env, old(ues[..])[j], now, |env.satellites|)
          invariant forall j :: i < j < ues.Length ==> ues[j] == old(ues[..])[j]
        {
          ghost var before := ues[..];
          var _ := UpdateSatelliteState(env.satellites[k], now, i);
          assert forall j :: 0 <= j < ues.Length && j != i ==> ues[..][j] == before[j];
          assert ues[..][i] == SampleCell(env, before[i], env.satellites[k], now).0;
        }
      }
    }

    /** SelectBestSatellite for a UE without a satellite. */
    method SelectBestSatellite(i: nat) returns (best: Cell)
      requires i < ues.Length
      ensures best == FirstServing(env, ues[i].cache, now)
    {
      var cache := ues[i].cache;
      var found: Option<Cell> := None;
      var bound := if env.cfg.strategy == Distance then OUT_OF_REACH else NEVER_CHOSEN;
      for k := 0 to |env.satellites|
        invariant found == BestEligible(env, cache, now, k)
        invariant bound == if found.None? then (if env.cfg.strategy == Distance then OUT_OF_REACH else NEVER_CHOSEN)
                           else if env.cfg.strategy == Distance then cache[found.value].metrics.distance
                           else cache[found.value].metrics.snr
      {
        var cell := env.satellites[k];
        if !Eligible(env, cache, cell, now) {
          continue;
        }
        var m := cache[cell].metrics;
        if env.cfg.strategy == Distance {
          if m.distance < bound {
            found := Some(cell);
            bound := m.distance;
          }
        } else if m.snr > bound {
          found := Some(cell);
          bound := m.snr;
        }
      }
      if found.Some? && ClearlyBetterThanNothing(env.cfg, cache[found.value].metrics) {
        return found.value;
      }
      return NO_CELL;
    }

    /** ApplyUeErrorModelImmediately */
    method ApplyErrorModel(i: nat)
      requires i < ues.Length
      modifies ues
      ensures ues[..] == old(ues[..])[i := old(ues[i]).(errorRate := AppliedRate(env, old(ues[i])))]
    {
      var ue := ues[i];
      if ue.serving == NO_CELL || ue.serving !in ue.cache {
        return;
      }
      var per := env.errorRate(ue.cache[ue.serving].metrics.snr);
      if ue.interruption {
        per := 1.0;
      }
      ues[i] := ues[i].(errorRate := per);
    }

    /** Step 2 of the tick. */
    method UpdateChannelState()
      modifies ues
      ensures ues[..] == ApplyChannels(env, old(ues[..]), now)
    {
      for i := 0 to ues.Length
        invariant forall j :: 0 <= j < i ==> ues[j] == ApplyChannel(env, old(ues[..])[j], now)
        invariant forall j :: i <= j < ues.Length ==> ues[j] == old(ues[..])[j]
      {
        if ues[i].serving == NO_CELL {
          var best := SelectBestSatellite(i);
          if best != NO_CELL {
            ues[i] := ues[i].(serving := best);
            ues[i] := ues[i].(meas := ues[i].meas.(serving := best));
          }
        }
        ghost var before := ues[..];
        ApplyErrorModel(i);
        assert forall j :: 0 <= j < ues.Length && j != i ==> ues[..][j] == before[j];
        assert ues[..][i] == before[i].(errorRate := AppliedRate(env, before[i]));
      }
    }

    /** VerifyPendingMeasurements */
    method VerifyPendingMeasurements()
      modifies this`validations
      ensures validations == KeepFor(old(validations), None, ValidationPending(now))
    {
      validations := EraseRecords(validations, None, ValidationPending(now));
    }

    /** VerifyPendingServingSnrFollowups */
    method VerifyPendingServingSnrFollowups()
      modifies this`followups
      ensures followups == KeepFor(old(followups), None, FollowupPending(now))
    {
      followups := EraseRecords(followups, None, FollowupPending(now));
    }

    /** EvaluatePendingPrediction */
    method EvaluatePendingPrediction(i: nat, p: Prediction)
      modifies this`predictions
      ensures predictions == KeepFor(old(predictions), Some(i), NotSame(p))
    {
      predictions := EraseRecords(predictions, Some(i), NotSame(p));
    }

    // ----- measuring -----

    /** UE_PerformMeasurements */
    method PerformMeasurements(i: nat) returns (ms: seq<Measurement>)
      requires i < ues.Length
      ensures ms == Detected(env, ues[i].cache, now, |env.satellites|)
    {
      ms := [];
      for k := 0 to |env.satellites|
        invariant ms == Detected(env, ues[i].cache, now, k)
      {
        var cell := env.satellites[k];
        if !Visible(env, ues[i].cache, cell, now) {
          continue;
        }
        if ues[i].cache[cell].metrics.snr < MIN_DETECTABLE_SNR {
          continue;
        }
        ms := ms + [Measurement(cell, ues[i].cache[cell].metrics)];
      }
    }

    method FindServing(ms: seq<Measurement>, serving: Cell) returns (found: Option<Measurement>)
      ensures found == FindCell(ms, serving)
    {
      for k := 0 to |ms|
        invariant FindCell(ms, serving) == FindCell(ms[k..], serving)
      {
        if ms[k].cell == serving {
          return Some(ms[k]);
        }
        assert ms[k..][1..] == ms[k + 1..];
      }
      return None;
    }

    /** GetDistanceTrend */
    method GetDistanceTrend(i: nat, cell: Cell) returns (trend: real)
      requires i < ues.Length
      modifies ues
      ensures trend == DistanceTrend(env, old(ues[i]), cell, now).1
      ensures ues[..] == old(ues[..])[i := DistanceTrend(env, old(ues[i]), cell, now).0]
    {
      if now < env.cfg.measurementPeriod || cell !in ues[i].cache {
        return 0.0;
      }
      var current := ues[i].cache[cell].metrics.distance;
      var past := UpdateSatelliteState(cell, now - env.cfg.measurementPeriod, i);
      return current - past.distance;
    }

    /** GetSnrTrend */
    method GetSnrTrend(i: nat, cell: Cell) returns (trend: real)
      requires i < ues.Length
      ensures trend == SnrTrend(env, ues[i], cell)
    {
      if cell !in ues[i].history {
        return 0.0;
      }
      trend := SnrHistory.ComputeTrend(ues[i].history[cell], env.cfg.trendWindow);
    }

    /** The trend-aware scan of the neighbours. */
    method ScanNeighbours(i: nat, ms: seq<Measurement>) returns (best: Option<Measurement>)
      requires i < ues.Length
      modifies ues, this`validations
      ensures var scan := TrendScan(env, old(ues[i]), now, ms, |ms|);
              && best == scan.best && ues[..] == old(ues[..])[i := scan.ue]
              && validations == old(validations) + Tag(i, scan.validations)
    {
      hide DistanceTrend, Tag;
      best := None;
      var bestMetric := NO_SNR;
      ghost var start := ues[i];
      TagNone<Validation>(i);
      assert ues[..] == ues[..][i := start];
      for k := 0 to |ms|
        invariant ues[..] == old(ues[..])[i := TrendScan(env, start, now, ms, k).ue]
        invariant best == TrendScan(env, start, now, ms, k).best
        invariant bestMetric == TrendScan(env, start, now, ms, k).metric
        invariant validations == old(validations) + Tag(i, TrendScan(env, start, now, ms, k).validations)
      {
        var m := ms[k];
        ghost var scan := TrendScan(env, start, now, ms, k);
        ScanKeepsServing(env, start, now, ms, k);
        if m.cell == ues[i].meas.serving || m.metrics.snr < MIN_CANDIDATE_SNR {
          continue;
        }
        var trend := GetDistanceTrend(i, m.cell);
        var record := Validation(now, m.cell, trend, m.metrics.snr, now + VALIDATION_DELAY);
        validations := validations + [Tagged(i, record)];
        TagMore(i, scan.validations, record);
        var penalty := if trend > 0.0 then RECEDING_PENALTY else 0.0;
        var metric := m.metrics.snr - penalty;
        if metric > bestMetric {
          bestMetric := metric;
          best := Some(m);
        }
      }
    }

    /** The scan of the other strategies: the strongest or the nearest. */
    method PickNeighbour(i: nat, ms: seq<Measurement>) returns (best: Option<Measurement>)
      requires i < ues.Length
      ensures best == BestNeighbour(env.cfg, ms, ues[i].meas.serving, |ms|)
    {
      best := None;
      for k := 0 to |ms|
        invariant best == BestNeighbour(env.cfg, ms, ues[i].meas.serving, k)
      {
        if ms[k].cell == ues[i].meas.serving {
          continue;
        }
        if Beats(env.cfg, ms[k], best) {
          best := Some(ms[k]);
        }
      }
    }

    /** The TOPSIS choice among the neighbours. */
    method ChooseByTopsis(i: nat, ms: seq<Measurement>) returns (best: Option<Measurement>)
      requires i < ues.Length
      ensures var candidates := Neighbours(ms, ues[i].meas.serving, |ms|);
              best == if candidates == [] then None else Some(candidates[Topsis.Choice(env.root, MetricsOf(candidates))])
    {
      var candidates: seq<Measurement> := [];
      for k := 0 to |ms|
        invariant candidates == Neighbours(ms, ues[i].meas.serving, k)
      {
        if ms[k].cell == ues[i].meas.serving {
          continue;
        }
        candidates := candidates + [ms[k]];
      }
      var choice := Topsis.FindBestTarget(env.root, MetricsOf(candidates));
      best := if choice.None? then None else Some(candidates[choice.value]);
    }

    /** The survey of the trend-aware strategy. */
    method SurveyTrends(i: nat, ms: seq<Measurement>, s: Measurement) returns (best: Option<Measurement>, fired: bool)
      requires i < ues.Length
      modifies ues, this`validations, this`followups
      ensures var v := TrendSurvey(env, old(ues[i]), now, ms, s);
              && best == v.best && fired == v.fired && ues[..] == old(ues[..])[i := v.ue]
              && validations == old(validations) + Tag(i, v.validations)
              && followups == old(followups) + Tag(i, v.followups)
    {
      hide DistanceTrend, SnrTrend, TrendScan, Tag;
      ghost var start := ues[i];
      TagNone<Followup>(i);
      best := ScanNeighbours(i, ms);
      fired := false;
      ScanKeepsServing(env, start, now, ms, |ms|);
      if best.None? {
        return;
      }
      var serving := ues[i].meas.serving;
      var servingChange := GetDistanceTrend(i, serving);
      var _ := GetDistanceTrend(i, best.value.cell);
      var servingTrend := GetSnrTrend(i, serving);
      var margin := env.cfg.trendMargin;
      if servingTrend < -env.cfg.servingTrendThreshold {
        margin := margin - 2.0;
        var horizons := [1.0, 3.0, 5.0];
        for k := 0 to 3
          modifies this`followups
          invariant followups == old(followups) + Tag(i, FollowupsFor(now, s, servingTrend, servingChange)[..k])
        {
          ghost var all := FollowupsFor(now, s, servingTrend, servingChange);
          var record := Followup(now, s.cell, servingTrend, servingChange, s.metrics.snr, horizons[k], now + horizons[k]);
          followups := followups + [Tagged(i, record)];
          assert all[..k + 1] == all[..k] + [record];
          TagMore(i, all[..k], record);
        }
        assert FollowupsFor(now, s, servingTrend, servingChange)[..3] == FollowupsFor(now, s, servingTrend, servingChange);
      }
      if margin < 1.0 {
        margin := 1.0;
      }
      fired := best.value.metrics.snr > s.metrics.snr + margin;
    }

    /** The survey of any strategy. */
    method Survey(i: nat, ms: seq<Measurement>, s: Measurement) returns (best: Option<Measurement>, fired: bool)
      requires i < ues.Length
      modifies ues, this`validations, this`followups
      ensures var v := TakeSurvey(env, old(ues[i]), now, ms, s);
              && best == v.best && fired == v.fired
              && Snapshot() == Commit(old(Snapshot()), i, Surveyed(v))
    {
      if env.cfg.strategy == TdCho {
        best, fired := SurveyTrends(i, ms, s);
      } else {
        if env.cfg.strategy == Topsis {
          best := ChooseByTopsis(i, ms);
        } else {
          best := PickNeighbour(i, ms);
        }
        fired := best.Some? && PreparationMet(env.cfg, s, best.value);
        assert ues[..] == ues[..][i := ues[i]];
      }
    }

    /** The debug line and the scheduled look at the future of the decision. */
    method AnnounceDecision(i: nat, s: Measurement, best: Option<Measurement>, fired: bool)
      requires i < ues.Length
      modifies this`lines, this`predictions, this`queue
      ensures Snapshot() == Commit(old(Snapshot()), i, Announce(env, now, s, best, fired, Only(ues[i])))
    {
      assert ues[..] == ues[..][i := ues[i]];
      if env.cfg.strategy == Topsis || best.None? {
        return;
      }
      lines := lines + [Tagged(i, DebugLine(now, s.cell, best.value.cell, fired))];
      var p := Prediction(s.cell, best.value.cell, now, now + env.cfg.predictionDelay);
      predictions := predictions + [Tagged(i, p)];
      var delay := p.evalTime - now;
      if delay < 0.0 {
        delay := 0.0;
      }
      ScheduleJob(i, now + delay, PredictJob(p));
      assert [Timed(now + delay, PredictJob(p))] + [] == [Timed(now + delay, PredictJob(p))];
      TagOne(i, p);
      TagOne(i, DebugLine(now, s.cell, best.value.cell, fired));
    }

    /** The time-to-trigger decision, the context it leaves and the note of the occasion. */
    method UpdateTrigger(i: nat, s: Measurement, best: Option<Measurement>, fired: bool) returns (due: bool)
      requires i < ues.Length && (fired ==> best.Some?)
      modifies ues
      ensures var bestCell := if best.Some? then best.value.cell else NO_CELL;
              && due == Decide(env.cfg, old(ues[i]).meas, now, fired, bestCell).1
              && ues[..] == old(ues[..])[i := Noted(env, old(ues[i]), now, s, best, fired)]
    {
      due := false;
      var bestCell := if best.Some? then best.value.cell else NO_CELL;
      if env.cfg.strategy != Topsis {
        ues[i] := ues[i].(context := if fired then
          HoContext(true, s.metrics.snr, best.value.metrics.snr, now, s.cell, bestCell, TriggerName(env.cfg)) else NO_CONTEXT);
      }
      ues[i] := ues[i].(occasions := ues[i].occasions + [if fired then Fired(now, bestCell) else NotFired(now)]);
      var meas := ues[i].meas;
      if fired {
        if !meas.triggerActive {
          meas := meas.(triggerActive := true, triggerStart := now, candidate := bestCell);
        } else if bestCell != meas.candidate {
          meas := meas.(triggerStart := now, candidate := bestCell);
        } else if now - meas.triggerStart >= env.cfg.timeToTrigger {
          meas := meas.(reportsSent := meas.reportsSent + 1);
          meas := meas.(lastReportTime := now);
          meas := meas.(triggerActive := false);
          due := true;
        }
      } else {
        meas := meas.(triggerActive := false, triggerStart := NO_TIME, candidate := NO_CELL);
      }
      ues[i] := ues[i].(meas := meas);
    }

    /** CHO_TriggerProcedure */
    method TriggerProcedure(i: nat, r: Report)
      requires i < ues.Length
      modifies this`queue, this`stats, ues
      ensures Snapshot() == Commit(old(Snapshot()), i, Trigger(old(ues[i]), now, r))
    {
      assert ues[..] == ues[..][i := ues[i]];
      if ues[i].proc.phase != Idle {
        return;
      }
      var p := ues[i].proc.(phase := MeasReportUplink, source := r.serving, target := r.target);
      p := p.(startTime := now, phaseStart := now, failed := false);
      p := p.(servingSnrAtReport := r.servingSnr, targetSnrAtReport := r.targetSnr);
      var delay := UplinkDelay(ues[i].cache, r.serving) + RRC_PROCESSING;
      p := p.(uplinkDelay := delay, downlinkDelay := delay);
      ues[i] := ues[i].(proc := p);
      CountFor(i, ReportSent(now));
      ScheduleJob(i, now + delay, HopJob(ReportArrived, r.serving, r.target));
    }

    /** One increment, in the UE's statistics and in the global ones. */
    method CountFor(i: nat, b: Bump)
      requires i < ues.Length
      modifies this`stats, ues
      ensures stats == Count(old(stats), b)
      ensures ues[..] == old(ues[..])[i := old(ues[i]).(stats := Count(old(ues[i]).stats, b))]
    {
      ues[i] := ues[i].(stats := Count(ues[i].stats, b));
      stats := Count(stats, b);
    }

    /** UE_EvaluateAndReport for a UE that found its serving cell, and the report that may follow. */
    method EvaluateServing(i: nat, ms: seq<Measurement>, s: Measurement)
      requires i < ues.Length
      modifies this, ues
      ensures Snapshot() == Commit(old(Snapshot()), i, MeasureServing(env, old(ues[i]), now, ms, s)) && now == old(now)
    {
      hide TakeSurvey, Announce, Noted, Trigger, Decide, Commit;
      ghost var start, ue := Snapshot(), ues[i];
      SurveyFrame(env, ue, now, ms, s);
      ghost var v := TakeSurvey(env, ue, now, ms, s);
      var best, fired := Survey(i, ms, s);
      ghost var surveyed := Snapshot();
      CommitFields(start, i, Surveyed(v));
      AnnounceDecision(i, s, best, fired);
      ghost var announced := Snapshot();
      AnnounceIsQuiet(env, now, s, best, fired, Only(v.ue));
      CommitFields(surveyed, i, Announce(env, now, s, best, fired, Only(v.ue)));
      var due := UpdateTrigger(i, s, best, fired);
      JustUes(announced, i, ues[i]);
      OnlyCommits(Snapshot(), i);
      if due && best.Some? {
        TriggerProcedure(i, Report(s.cell, s.metrics.snr, best.value.cell, best.value.metrics.snr));
      }
      EvaluationCommits(env, start, i, ms, s);
    }

    /** The serving cell is not among the measurements: a report without target, or re-selection. */
    method LinkLost(i: nat)
      requires i < ues.Length
      modifies this`queue, this`stats, ues
      ensures Snapshot() == Commit(old(Snapshot()), i, LoseLink(env, old(ues[i]), now))
    {
      ghost var start, ue := Snapshot(), ues[i];
      if env.cfg.strategy != Topsis {
        ues[i] := ues[i].(context := NO_CONTEXT);
      }
      ues[i] := ues[i].(occasions := ues[i].occasions + [RadioLinkFailure(now)]);
      if env.cfg.strategy == Distance {
        ues[i] := ues[i].(serving := NO_CELL);
        ues[i] := ues[i].(meas := ues[i].meas.(serving := NO_CELL, triggerActive := false));
      } else {
        ghost var lost := ues[i];
        TriggerProcedure(i, Report(ues[i].meas.serving, NO_SNR, NO_CELL, NO_SNR));
        CommitOver(start, i, lost, Trigger(lost, now, Report(ue.meas.serving, NO_SNR, NO_CELL, NO_SNR)));
      }
    }

    /** UE_EvaluateAndReport */
    method EvaluateAndReport(i: nat)
      requires i < ues.Length
      modifies this, ues
      ensures Snapshot() == Commit(old(Snapshot()), i, Protocol.Measure(env, old(ues[i]), now)) && now == old(now)
    {
      if ues[i].meas.serving == NO_CELL {
        if env.cfg.strategy != Topsis {
          ues[i] := ues[i].(context := NO_CONTEXT);
        }
        assert ues[..] == old(ues[..])[i := ues[i]];
        return;
      }
      var ms := PerformMeasurements(i);
      var found := FindServing(ms, ues[i].meas.serving);
      match found {
        case None => LinkLost(i);
        case Some(s) => EvaluateServing(i, ms, s);
      }
    }

    // ----- executing -----

    /** CHO_Phase6_UeExecutes */
    method UeExecutes(i: nat, source: Cell, target: Cell)
      requires i < ues.Length
      modifies this`queue, this`stats, ues
      ensures Snapshot() == Commit(old(Snapshot()), i, Execute(env, old(ues[i]), now, source, target))
    {
      assert ues[..] == ues[..][i := ues[i]];
      if ues[i].proc.phase != Evaluating {
        return;
      }
      hide Count, AppliedRate, UplinkDelay;
      CountFor(i, ExecutionStarted);
      var ue := ues[i];
      var p := ue.proc.(phase := Executing, phaseStart := now, executionStart := now);
      p := p.(servingSnrAtExecution := CachedSnr(ue.cache, source, p.servingSnrAtExecution));
      p := p.(targetSnrAtExecution := CachedSnr(ue.cache, target, p.targetSnrAtExecution));
      ue := ue.(proc := p);
      ue := ue.(conf := ue.conf.(executionPending := true, executionTarget := target, executionTriggerTime := now));
      ue := ue.(interruption := true);
      ues[i] := ue;
      ApplyErrorModel(i);
      var cache := ues[i].cache;
      var rrcDelay := UplinkDelay(cache, source) + (RRC_PROCESSING + BEAM_SWITCH);
      var rachDelay := UplinkDelay(cache, target) * 4.0 + RACH_BASE;
      ScheduleJob(i, now + (rrcDelay + rachDelay), HopJob(ExecutionComplete, source, target));
      assert rrcDelay + rachDelay == ExecutionTime(cache, source, target);
    }

    /** CHO_CheckExecutionCondition */
    method CheckExecutionCondition(i: nat)
      requires i < ues.Length
      modifies this`queue, this`stats, ues
      ensures Snapshot() == Commit(old(Snapshot()), i, CheckExecution(env, old(ues[i]), now))
    {
      hide Execute, Expire, ConditionMet, Commit;
      ghost var start := Snapshot();
      OnlyCommits(start, i);
      if ues[i].proc.phase != Evaluating {
        return;
      }
      if now > ues[i].proc.configExpiry {
        ExpireConfiguration(i);
        return;
      }
      var source, target := ues[i].proc.source, ues[i].proc.target;
      if source !in ues[i].cache || target !in ues[i].cache {
        return;
      }
      var ue := ues[i];
      var met := ConditionMet(env.cfg, ue.cache, source, target);
      ue := ue.(checks := ue.checks + [Check(now, met)]);
      var execute := false;
      if !met {
        ue := ue.(proc := ue.proc.(tttActive := false, tttStart := NO_TIME));
      } else if !ue.proc.tttActive {
        ue := ue.(proc := ue.proc.(tttActive := true, tttStart := now));
      } else if now - ue.proc.tttStart >= ue.proc.timeToTrigger {
        ue := ue.(proc := ue.proc.(tttActive := false));
        execute := true;
      }
      ues[i] := ue;
      JustUes(start, i, ue);
      if execute {
        UeExecutes(i, source, target);
        CommitOver(start, i, ue, Execute(env, ue, now, source, target));
      }
    }

    /** The configuration has expired: back to the start. */
    method ExpireConfiguration(i: nat)
      requires i < ues.Length
      modifies this`stats, ues
      ensures Snapshot() == Commit(old(Snapshot()), i, Expire(env, old(ues[i])))
    {
      CountFor(i, ConfigExpired);
      var ue := ues[i];
      ue := ue.(proc := ue.proc.(phase := Idle));
      ue := ue.(conf := ue.conf.(configs := map[]));
      if env.cfg.strategy == TdCho {
        ue := ue.(context := NO_CONTEXT);
      }
      ues[i] := ue;
    }

    /** CheckHandover */
    method CheckHandover(i: nat)
      requires i < ues.Length
      modifies this, ues
      ensures Snapshot() == Commit(old(Snapshot()), i, Protocol.CheckHandover(env, old(ues[i]), now)) && now == old(now)
    {
      hide CheckExecution, Protocol.Measure;
      ghost var start := Snapshot();
      OnlyCommits(start, i);
      if ues[i].proc.phase != Idle {
        if ues[i].proc.phase == Evaluating {
          CheckExecutionCondition(i);
        }
        return;
      }
      if ues[i].serving == NO_CELL {
        return;
      }
      if ues[i].meas.serving == NO_CELL || ues[i].meas.serving != ues[i].serving {
        ues[i] := ues[i].(meas := ues[i].meas.(serving := ues[i].serving, lastTime := now,
                                               triggerActive := false, triggerStart := NO_TIME, candidate := NO_CELL));
      }
      if now - ues[i].meas.lastTime < MEASUREMENT_PERIOD {
        JustUes(start, i, ues[i]);
        return;
      }
      ues[i] := ues[i].(meas := ues[i].meas.(lastTime := now));
      ghost var synced := ues[i];
      EvaluateAndReport(i);
      CommitOver(start, i, synced, Protocol.Measure(env, synced, now));
    }

    // ----- the scheduled phases -----

    method AdvanceTo(i: nat, phase: Phase, delay: real, next: Hop, source: Cell, target: Cell)
      requires i < ues.Length
      modifies this`queue, ues
      ensures Snapshot() == Commit(old(Snapshot()), i, Advance(old(ues[i]), now, phase, delay, next, source, target))
    {
      ues[i] := ues[i].(proc := ues[i].proc.(phase := phase));
      ues[i] := ues[i].(proc := ues[i].proc.(phaseStart := now));
      ScheduleJob(i, now + delay, HopJob(next, source, target));
    }

    /** CHO_Phase1_ReportArrived */
    method Phase1ReportArrived(i: nat, source: Cell, target: Cell)
      requires i < ues.Length
      modifies this`queue, ues
      ensures Snapshot() == Commit(old(Snapshot()), i, HandleHop(env, old(ues[i]), now, ReportArrived, source, target))
    {
      OnlyCommits(Snapshot(), i);
      if ues[i].proc.phase != MeasReportUplink {
        return;
      }
      AdvanceTo(i, GnbDecision, DECISION_DELAY, SendXnRequest, source, target);
    }

    /** CHO_Phase2_SendXnRequest */
    method Phase2SendXnRequest(i: nat, source: Cell, target: Cell)
      requires i < ues.Length
      modifies this`queue, ues
      ensures Snapshot() == Commit(old(Snapshot()), i, HandleHop(env, old(ues[i]), now, SendXnRequest, source, target))
    {
      OnlyCommits(Snapshot(), i);
      if ues[i].proc.phase != GnbDecision {
        return;
      }
      AdvanceTo(i, Phase.XnRequest, env.islDelay(source, target, now) + XN_REQUEST_PROCESSING, Hop.XnResponse, source, target);
    }

    /** CHO_Phase3_XnResponse */
    method Phase3XnResponse(i: nat, source: Cell, target: Cell)
      requires i < ues.Length
      modifies this`queue, ues
      ensures Snapshot() == Commit(old(Snapshot()), i, HandleHop(env, old(ues[i]), now, Hop.XnResponse, source, target))
    {
      OnlyCommits(Snapshot(), i);
      if ues[i].proc.phase != Phase.XnRequest {
        return;
      }
      AdvanceTo(i, Phase.XnResponse, env.islDelay(target, source, now) + XN_RESPONSE_PROCESSING, SendRrcReconfig, source, target);
    }

    /** CHO_Phase4_SendRrcReconfig */
    method Phase4SendRrcReconfig(i: nat, source: Cell, target: Cell)
      requires i < ues.Length
      modifies this`queue, this`stats, ues
      ensures Snapshot() == Commit(old(Snapshot()), i, HandleHop(env, old(ues[i]), now, SendRrcReconfig, source, target))
    {
      OnlyCommits(Snapshot(), i);
      if ues[i].proc.phase != Phase.XnResponse {
        return;
      }
      CountFor(i, ConfigSent);
      AdvanceTo(i, RrcReconfigDownlink, ues[i].proc.downlinkDelay, UeStoresConfig, source, target);
    }

    /** CHO_Phase5_UeStoresConfig */
    method Phase5UeStoresConfig(i: nat, source: Cell, target: Cell)
      requires i < ues.Length
      modifies this`stats, ues
      ensures Snapshot() == Commit(old(Snapshot()), i, HandleHop(env, old(ues[i]), now, UeStoresConfig, source, target))
    {
      OnlyCommits(Snapshot(), i);
      if ues[i].proc.phase != RrcReconfigDownlink {
        return;
      }
      var config := ChoConfiguration(target, now, now + env.cfg.validity);
      ues[i] := ues[i].(conf := ues[i].conf.(configs := ues[i].conf.configs[target := config]));
      ues[i] := ues[i].(conf := ues[i].conf.(received := ues[i].conf.received + 1));
      CountFor(i, ConfigReceived);
      var p := ues[i].proc.(phase := Evaluating, phaseStart := now, configReceived := now, configExpiry := config.expiry);
      p := p.(tttActive := false, tttStart := NO_TIME, timeToTrigger := env.cfg.executionTtt);
      ues[i] := ues[i].(proc := p);
    }

    /** CHO_HandleFailure; only the SNR strategy prints a result for it. */
    method HandleFailure(i: nat)
      requires i < ues.Length
      modifies this, ues
      ensures Snapshot() == Commit(old(Snapshot()), i, Failed(env, old(ues[i]), now)) && now == old(now)
    {
      hide Count, Commit, Tag, Failed, Dropped;
      ghost var start := Snapshot();
      FailureCommits(env, start, i);
      CountFor(i, HandoverFailed);
      var p := ues[i].proc;
      if env.cfg.strategy == Snr {
        lines := lines + [Tagged(i, ResultLine(now, now - p.startTime, ""))];
      }
      rows := rows + [Tagged(i, Row(now, p.source, p.target, false))];
      DropProcedure(i);
      assert ues[..] == start.ues[i := ues[i]];
    }

    /** The UE is back at rest with the cell it had. */
    method DropProcedure(i: nat)
      requires i < ues.Length
      modifies ues
      ensures ues[..] == old(ues[..])[i := Dropped(env, old(ues[i]))]
    {
      var ue := ues[i];
      if env.cfg.strategy != Topsis {
        ue := ue.(context := NO_CONTEXT);
      }
      ue := ue.(hoFail := ue.hoFail + 1);
      ue := ue.(interruption := false);
      ue := ue.(conf := ue.conf.(configs := map[]));
      ue := ue.(proc := ue.proc.(phase := Idle, failed := true));
      ues[i] := ue;
    }

    /** The cancels of Phase 7: one for every other cell that holds a configuration. */
    method CancelOthers(configs: map<Cell, ChoConfiguration>, target: Cell)
      modifies this`cancels
      ensures cancels == old(cancels) + |configs.Keys - {target}|
    {
      var others := configs.Keys - {target};
      while others != {}
        invariant cancels + |others| == old(cancels) + |configs.Keys - {target}|
        decreases |others|
      {
        var cell :| cell in others;
        cancels := cancels + 1;
        others := others - {cell};
      }
    }

    /** The success branch of CHO_Phase7_ExecutionComplete. */
    method Succeed(i: nat, source: Cell, target: Cell)
      requires i < ues.Length
      modifies this, ues
      ensures Snapshot() == Commit(old(Snapshot()), i, Succeeded(env, old(ues[i]), now, source, target)) && now == old(now)
    {
      hide Count, AppliedRate, Commit, Tag, Switched, Complete, Succeeded, ContextMatches;
      ghost var start, ue := Snapshot(), ues[i];
      SucceedCommits(env, start, i, source, target);
      PrintSuccess(i, source, target);
      CancelOthers(ues[i].conf.configs, target);
      CountFor(i, HandoverDone(now - ues[i].proc.configReceived, now - ues[i].proc.executionStart));
      handovers := handovers + 1;
      SwitchServing(i, target);
      rows := rows + [Tagged(i, Row(now, source, target, true))];
      assert ues[..] == start.ues[i := ues[i]];
    }

    /** The UE is with its new cell and at rest. */
    method SwitchServing(i: nat, target: Cell)
      requires i < ues.Length
      modifies ues
      ensures ues[..] == old(ues[..])[i := Switched(env, old(ues[i]), target)]
    {
      hide AppliedRate;
      var ue := ues[i];
      ue := ue.(hoCount := ue.hoCount + 1);
      ue := ue.(serving := target);
      ue := ue.(meas := ue.meas.(serving := target, triggerActive := false, triggerStart := NO_TIME, candidate := NO_CELL));
      ue := ue.(conf := ue.conf.(executionPending := false, executionTarget := NO_CELL, configs := map[]));
      ue := ue.(interruption := false);
      if env.cfg.strategy != Topsis {
        ue := ue.(context := NO_CONTEXT);
      }
      ue := ue.(proc := ue.proc.(phase := Idle, failed := false));
      ues[i] := ue;
      ApplyErrorModel(i);
    }

    /** The result line, if the context is about this handover, and the completion line. */
    method PrintSuccess(i: nat, source: Cell, target: Cell)
      requires i < ues.Length
      modifies this`lines
      ensures lines == old(lines) + Tag(i, SuccessLines(env.cfg, ues[i], now, source, target))
    {
      hide Tag;
      var ue := ues[i];
      var printed: seq<Line> := [];
      if env.cfg.strategy != Topsis && ContextMatches(ue, source, target) {
        var result := ResultLine(now, now - ue.context.decisionTime, ue.context.trigger);
        lines := lines + [Tagged(i, result)];
        printed := [result];
        TagOne(i, result);
      } else {
        TagNone<Line>(i);
      }
      lines := lines + [Tagged(i, CompleteLine(source, target))];
      TagOne(i, CompleteLine(source, target));
      TagAppend(i, printed, [CompleteLine(source, target)]);
    }

    /** CHO_Phase7_ExecutionComplete */
    method Phase7ExecutionComplete(i: nat, source: Cell, target: Cell)
      requires i < ues.Length
      modifies this, ues
      ensures Snapshot() == Commit(old(Snapshot()), i, HandleHop(env, old(ues[i]), now, ExecutionComplete, source, target)) && now == old(now)
    {
      hide Complete, Fail, Failed, Succeeded, Joined, LinkViable;
      ghost var start, ue := Snapshot(), ues[i];
      OnlyCommits(start, i);
      if ues[i].proc.phase != Executing {
        return;
      }
      if env.cfg.strategy == Topsis || env.cfg.strategy == Distance {
        lines := lines + [Tagged(i, ExecutionLine(now))];
        TagOne(i, ExecutionLine(now));
      }
      ghost var printed := Only(ue).(lines := ExecutionLines(env.cfg, now));
      assert Snapshot() == Commit(start, i, printed);
      if !LinkViable(env.cfg, ues[i].cache, target) {
        FailJoins(env, ue, now);
        HandleFailure(i);
        CommitTwice(start, i, printed, Failed(env, ue, now));
        return;
      }
      SuccessJoins(env, ue, now, source, target);
      Succeed(i, source, target);
      CommitTwice(start, i, printed, Succeeded(env, ue, now, source, target));
    }

    // ----- the tick and the event loop -----

    /** CheckHandoverConditions */
    method CheckHandoverConditions()
      modifies this, ues
      ensures Snapshot() == HandleTick(env, old(Snapshot()))
    {
      hide Prepared, CheckHandovers, Insert;
      Prepare();
      CheckAllHandovers();
      Enqueue(Timed(now + TICK_PERIOD, Tick));
    }

    /** Step 3 of the tick. */
    method CheckAllHandovers()
      modifies this, ues
      ensures Snapshot() == CheckHandovers(env, old(Snapshot()), ues.Length) && now == old(now)
    {
      hide Commit, Protocol.CheckHandover;
      for i := 0 to ues.Length
        invariant Snapshot() == CheckHandovers(env, old(Snapshot()), i) && now == old(now)
      {
        CheckHandover(i);
      }
    }

    /** Steps 1 to 2.5 of the tick. */
    method Prepare()
      modifies this`validations, this`followups, ues
      ensures Snapshot() == Prepared(env, old(Snapshot()))
    {
      hide RefreshAll, ApplyChannels, KeepFor;
      UpdateCaches();
      UpdateChannelState();
      if env.cfg.strategy == TdCho {
        VerifyPendingMeasurements();
        VerifyPendingServingSnrFollowups();
      }
    }

    /** One event: taken off the queue, its handler called. */
    method HandleNextEvent()
      modifies this, ues
      ensures Snapshot() == Step(env, old(Snapshot()))
    {
      hide HandleTick, HandleHop, Commit, KeepFor;
      if queue == [] {
        return;
      }
      var e := queue[0];
      now := e.time;
      queue := queue[1..];
      match e.act {
        case Tick =>
          CheckHandoverConditions();
        case Own(i, PredictJob(p)) =>
          if i < ues.Length {
            EvaluatePendingPrediction(i, p);
          }
        case Own(i, HopJob(hop, source, target)) =>
          if i < ues.Length {
            match hop {
              case ReportArrived => Phase1ReportArrived(i, source, target);
              case SendXnRequest => Phase2SendXnRequest(i, source, target);
              case XnResponse => Phase3XnResponse(i, source, target);
              case SendRrcReconfig => Phase4SendRrcReconfig(i, source, target);
              case UeStoresConfig => Phase5UeStoresConfig(i, source, target);
              case ExecutionComplete => Phase7ExecutionComplete(i, source, target);
            }
          }
      }
    }

    /** The first `n` events of the simulation. */
    method RunEvents(n: nat)
      modifies this, ues
      ensures Snapshot() == Run(env, old(Snapshot()), n)
    {
      hide Step;
      for k := 0 to n
        invariant Snapshot() == Run(env, old(Snapshot()), k)
      {
        HandleNextEvent();
      }
    }
  }

  /** Erase, while scanning, the records of `who` (or of everyone) that fail `keep`. */
  method EraseRecords<T>(records: seq<Tagged<T>>, who: Option<nat>, keep: T -> bool) returns (r: seq<Tagged<T>>)
    ensures r == KeepFor(records, who, keep)
  {
    hide KeepFor;
    r := records;
    var k := 0;
    assert r[0..] == r && r[..0] == [];
    while k < |r|
      invariant 0 <= k <= |r|
      invariant KeepFor(records, who, keep) == r[..k] + KeepFor(r[k..], who, keep)
      decreases |r| - k
    {
      EraseStep(r, k, who, keep);
      if Concerns(who, r[k].ue) && !keep(r[k].rec) {
        r := r[..k] + r[k + 1..];
      } else {
        k := k + 1;
      }
    }
    KeepForNone(who, keep);
    assert r[k..] == [] && r[..k] == r;
  }

  lemma KeepForNone<T>(who: Option<nat>, p: T -> bool)
    ensures KeepFor([], who, p) == []
  {
  }

  lemma EraseStep<T>(s: seq<Tagged<T>>, k: nat, who: Option<nat>, keep: T -> bool)
    requires k < |s|
    ensures var erased := s[..k] + s[k + 1..];
            s[..k] + KeepFor(s[k..], who, keep) ==
            if Concerns(who, s[k].ue) && !keep(s[k].rec) then erased[..k] + KeepFor(erased[k..], who, keep)
            else s[..k + 1] + KeepFor(s[k + 1..], who, keep)
  {
    hide KeepFor;
    KeepForHead(s[k..], who, keep);
    assert s[k..][1..] == s[k + 1..];
    var erased := s[..k] + s[k + 1..];
    assert erased[..k] == s[..k] && erased[k..] == s[k + 1..];
    assert s[..k + 1] == s[..k] + [s[k]];
  }

  lemma TagOne<T>(i: nat, rec: T)
    ensures Tag(i, [rec]) == [Tagged(i, rec)]
  {
  }

  lemma TagNone<T>(i: nat)
    ensures Tag<T>(i, []) == []
  {
  }

  lemma TagMore<T>(i: nat, recs: seq<T>, rec: T)
    ensures Tag(i, recs + [rec]) == Tag(i, recs) + [Tagged(i, rec)]
  {
    if recs != [] {
      TagMore(i, recs[1..], rec);
      assert (recs + [rec])[1..] == recs[1..] + [rec];
    }
  }

  lemma ScanKeepsServing(env: Env, ue: Ue, t: real, ms: seq<Measurement>, k: nat)
    requires k <= |ms|
    ensures TrendScan(env, ue, t, ms, k).ue.meas == ue.meas
  {
    ScanFrame(env, ue, t, ms, k);
  }

  /** What a survey leaves behind. */
  function Surveyed(v: Survey): Outcome {
    Only(v.ue).(validations := v.validations, followups := v.followups)
  }

  /** The UE after the decision of an occasion. */
  function Noted(env: Env, ue: Ue, t: real, s: Measurement, best: Option<Measurement>, fired: bool): Ue {
    var bestCell := if best.Some? then best.value.cell else NO_CELL;
    ue.(meas := Decide(env.cfg, ue.meas, t, fired, bestCell).0,
        context := ContextAfter(env.cfg, ue, t, s, best, fired),
        occasions := ue.occasions + [if fired then Fired(t, bestCell) else NotFired(t)])
  }

  /** Two handlings of a UE, one after the other, as one. */
  function Joined(a: Outcome, b: Outcome): Outcome {
    Outcome(b.ue, b.bump, a.jobs + b.jobs, a.predictions + b.predictions, a.validations + b.validations,
            a.followups + b.followups, a.lines + b.lines, a.rows + b.rows, a.cancels + b.cancels)
  }

  lemma {:induction false} TagAppend<T>(i: nat, a: seq<T>, b: seq<T>)
    ensures Tag(i, a + b) == Tag(i, a) + Tag(i, b)
  {
    if a == [] {
      assert a + b == b;
    } else {
      TagAppend(i, a[1..], b);
      assert (a + b)[1..] == a[1..] + b;
    }
  }

  lemma {:induction false} ScheduleAppend(q: seq<Timed<Act>>, i: nat, a: seq<Timed<Job>>, b: seq<Timed<Job>>)
    ensures Schedule(q, i, a + b) == Schedule(Schedule(q, i, a), i, b)
    decreases a
  {
    hide Insert;
    if a == [] {
      assert a + b == b;
    } else {
      ScheduleAppend(Insert(q, Timed(a[0].time, Own(i, a[0].act))), i, a[1..], b);
      assert (a + b)[1..] == a[1..] + b;
    }
  }

  lemma CommitTwice(s: Sys, i: nat, a: Outcome, b: Outcome)
    requires i < |s.ues| && a.bump == NoBump
    ensures Commit(Commit(s, i, a), i, b) == Commit(s, i, Joined(a, b))
  {
    hide Tag, Schedule;
    TagAppend(i, a.predictions, b.predictions);
    TagAppend(i, a.validations, b.validations);
    TagAppend(i, a.followups, b.followups);
    TagAppend(i, a.lines, b.lines);
    TagAppend(i, a.rows, b.rows);
    ScheduleAppend(s.queue, i, a.jobs, b.jobs);
    assert s.ues[i := a.ue][i := b.ue] == s.ues[i := b.ue];
  }

  /** CHO_HandleFailure without the line printed before it. */
  function Failed(env: Env, ue: Ue, t: real): Outcome {
    Fail(env, ue, t).(lines := if env.cfg.strategy == Snr then [ResultLine(t, t - ue.proc.startTime, "")] else [])
  }

  /** A completion without the line printed before it. */
  function Succeeded(env: Env, ue: Ue, t: real, source: Cell, target: Cell): Outcome {
    Complete(env, ue, t, source, target).(lines := SuccessLines(env.cfg, ue, t, source, target))
  }

  function SuccessLines(cfg: Config, ue: Ue, t: real, source: Cell, target: Cell): seq<Line> {
    (if cfg.strategy != Topsis && ContextMatches(ue, source, target)
     then [ResultLine(t, t - ue.context.decisionTime, ue.context.trigger)] else [])
    + [CompleteLine(source, target)]
  }

  function Switched(env: Env, ue: Ue, target: Cell): Ue {
    var moved := ue.(
      hoCount := ue.hoCount + 1,
      serving := target,
      meas := ue.meas.(serving := target, triggerActive := false, triggerStart := NO_TIME, candidate := NO_CELL),
      conf := ue.conf.(executionPending := false, executionTarget := NO_CELL, configs := map[]),
      interruption := false,
      context := ClearContext(env.cfg, ue),
      proc := ue.proc.(phase := Idle, failed := false));
    moved.(errorRate := AppliedRate(env, moved))
  }

  lemma SwitchCompletes(env: Env, ue: Ue, t: real, source: Cell, target: Cell)
    ensures var done, o := HandoverDone(t - ue.proc.configReceived, t - ue.proc.executionStart), Succeeded(env, ue, t, source, target);
            && o == Outcome(Switched(env, ue.(stats := Count(ue.stats, done)), target), done, [], [], [], [],
                            SuccessLines(env.cfg, ue, t, source, target), [Row(t, source, target, true)],
                            |ue.conf.configs.Keys - {target}|)
  {
    hide Count;
  }

  lemma SucceedCommits(env: Env, s: Sys, i: nat, source: Cell, target: Cell)
    requires i < |s.ues|
    ensures var ue := s.ues[i];
            var done := HandoverDone(s.now - ue.proc.configReceived, s.now - ue.proc.executionStart);
            Commit(s, i, Succeeded(env, ue, s.now, source, target)) ==
            s.(ues := s.ues[i := Switched(env, ue.(stats := Count(ue.stats, done)), target)],
               stats := Count(s.stats, done), handovers := s.handovers + 1,
               cancels := s.cancels + |ue.conf.configs.Keys - {target}|,
               lines := s.lines + Tag(i, SuccessLines(env.cfg, ue, s.now, source, target)),
               rows := s.rows + [Tagged(i, Row(s.now, source, target, true))])
  {
    hide Commit, Tag, Succeeded, Switched, Count, SuccessLines;
    var ue := s.ues[i];
    var done := HandoverDone(s.now - ue.proc.configReceived, s.now - ue.proc.executionStart);
    SwitchCompletes(env, ue, s.now, source, target);
    CommitPlain(s, i, Switched(env, ue.(stats := Count(ue.stats, done)), target), done,
                SuccessLines(env.cfg, ue, s.now, source, target), [Row(s.now, source, target, true)],
                |ue.conf.configs.Keys - {target}|);
    TagOne(i, Row(s.now, source, target, true));
  }

  function Dropped(env: Env, ue: Ue): Ue {
    ue.(hoFail := ue.hoFail + 1,
        interruption := false,
        conf := ue.conf.(configs := map[]),
        context := ClearContext(env.cfg, ue),
        proc := ue.proc.(phase := Idle, failed := true))
  }

  lemma DropFails(env: Env, ue: Ue, t: real)
    ensures Failed(env, ue, t) ==
            Outcome(Dropped(env, ue.(stats := Count(ue.stats, HandoverFailed))), HandoverFailed, [], [], [], [],
                    if env.cfg.strategy == Snr then [ResultLine(t, t - ue.proc.startTime, "")] else [],
                    [Row(t, ue.proc.source, ue.proc.target, false)], 0)
  {
    hide Count;
  }

  lemma FailureCommits(env: Env, s: Sys, i: nat)
    requires i < |s.ues|
    ensures var ue := s.ues[i];
            Commit(s, i, Failed(env, ue, s.now)) ==
            s.(ues := s.ues[i := Dropped(env, ue.(stats := Count(ue.stats, HandoverFailed)))],
               stats := Count(s.stats, HandoverFailed),
               lines := if env.cfg.strategy == Snr
                        then s.lines + [Tagged(i, ResultLine(s.now, s.now - ue.proc.startTime, ""))] else s.lines,
               rows := s.rows + [Tagged(i, Row(s.now, ue.proc.source, ue.proc.target, false))])
  {
    hide Commit, Tag, Failed, Dropped, Count;
    var ue := s.ues[i];
    var lines := if env.cfg.strategy == Snr then [ResultLine(s.now, s.now - ue.proc.startTime, "")] else [];
    DropFails(env, ue, s.now);
    CommitPlain(s, i, Dropped(env, ue.(stats := Count(ue.stats, HandoverFailed))), HandoverFailed, lines,
                [Row(s.now, ue.proc.source, ue.proc.target, false)], 0);
    TagOne(i, Row(s.now, ue.proc.source, ue.proc.target, false));
    TagOne(i, ResultLine(s.now, s.now - ue.proc.startTime, ""));
    TagNone<Line>(i);
    assert s.lines + [] == s.lines;
  }

  lemma FailJoins(env: Env, ue: Ue, t: real)
    ensures Fail(env, ue, t) == Joined(Only(ue).(lines := ExecutionLines(env.cfg, t)), Failed(env, ue, t))
  {
    hide Count, ExecutionLines, ClearContext;
  }

  lemma SuccessJoins(env: Env, ue: Ue, t: real, source: Cell, target: Cell)
    ensures Complete(env, ue, t, source, target) ==
            Joined(Only(ue).(lines := ExecutionLines(env.cfg, t)), Succeeded(env, ue, t, source, target))
  {
    hide Count, AppliedRate, ExecutionLines, ClearContext, ContextMatches;
  }

  /** What is left of a commit when nothing is scheduled or noted for later. */
  lemma CommitPlain(s: Sys, i: nat, ue: Ue, bump: Bump, lines: seq<Line>, rows: seq<Row>, cancels: nat)
    requires i < |s.ues|
    ensures Commit(s, i, Outcome(ue, bump, [], [], [], [], lines, rows, cancels)) ==
            s.(ues := s.ues[i := ue], stats := Count(s.stats, bump),
               handovers := s.handovers + (if bump.HandoverDone? then 1 else 0), cancels := s.cancels + cancels,
               lines := s.lines + Tag(i, lines), rows := s.rows + Tag(i, rows))
  {
    hide Count;
  }

  /** Doing nothing is handling nothing. */
  lemma OnlyCommits(s: Sys, i: nat)
    requires i < |s.ues|
    ensures Commit(s, i, Only(s.ues[i])) == s
  {
    assert s.ues[i := s.ues[i]] == s.ues;
  }

  /** A handler's result stands, whatever the UE's record was changed to before. */
  lemma CommitOver(s: Sys, i: nat, ue: Ue, o: Outcome)
    requires i < |s.ues|
    ensures Commit(s.(ues := s.ues[i := ue]), i, o) == Commit(s, i, o)
  {
    assert s.ues[i := ue][i := o.ue] == s.ues[i := o.ue];
  }

  lemma CommitFields(s: Sys, i: nat, o: Outcome)
    requires i < |s.ues|
    ensures Commit(s, i, o).ues == s.ues[i := o.ue] && Commit(s, i, o).now == s.now
  {
  }

  lemma JustUes(s: Sys, i: nat, ue: Ue)
    requires i < |s.ues|
    ensures Commit(s, i, Only(ue)) == s.(ues := s.ues[i := ue])
  {
  }

  /** What one occasion does, in the order the program does it. */
  function TriggeredBy(env: Env, ue: Ue, t: real, s: Measurement, v: Survey): Outcome {
    var noted := Noted(env, v.ue, t, s, v.best, v.fired);
    var bestCell := if v.best.Some? then v.best.value.cell else NO_CELL;
    if Decide(env.cfg, v.ue.meas, t, v.fired, bestCell).1 && v.best.Some?
    then Trigger(noted, t, Report(s.cell, s.metrics.snr, bestCell, v.best.value.metrics.snr))
    else Only(noted)
  }

  lemma EvaluationJoins(env: Env, ue: Ue, t: real, ms: seq<Measurement>, s: Measurement)
    ensures var v := TakeSurvey(env, ue, t, ms, s);
            MeasureServing(env, ue, t, ms, s) ==
            Joined(Joined(Joined(Surveyed(v), Announce(env, t, s, v.best, v.fired, Only(v.ue))),
                          Only(Noted(env, v.ue, t, s, v.best, v.fired))),
                   TriggeredBy(env, ue, t, s, v))
  {
    hide TakeSurvey, Trigger, Decide, ContextAfter;
    var v := TakeSurvey(env, ue, t, ms, s);
    TriggerIsPlain(TriggeredBy(env, ue, t, s, v), env, ue, t, s, v);
  }

  lemma TriggerIsPlain(o: Outcome, env: Env, ue: Ue, t: real, s: Measurement, v: Survey)
    requires o == TriggeredBy(env, ue, t, s, v)
    ensures o == Only(o.ue).(bump := o.bump, jobs := o.jobs)
  {
    hide Noted, UplinkDelay, Count;
  }

  lemma EvaluationCommits(env: Env, s: Sys, i: nat, ms: seq<Measurement>, serving: Measurement)
    requires i < |s.ues|
    ensures var v := TakeSurvey(env, s.ues[i], s.now, ms, serving);
            var surveyed := Commit(s, i, Surveyed(v));
            var announced := Commit(surveyed, i, Announce(env, s.now, serving, v.best, v.fired, Only(v.ue)));
            var noted := Commit(announced, i, Only(Noted(env, v.ue, s.now, serving, v.best, v.fired)));
            Commit(s, i, MeasureServing(env, s.ues[i], s.now, ms, serving)) ==
            Commit(noted, i, TriggeredBy(env, s.ues[i], s.now, serving, v))
  {
    hide Commit, TakeSurvey, Announce, Noted, TriggeredBy, MeasureServing;
    var v := TakeSurvey(env, s.ues[i], s.now, ms, serving);
    var a, b, c := Surveyed(v), Announce(env, s.now, serving, v.best, v.fired, Only(v.ue)), Only(Noted(env, v.ue, s.now, serving, v.best, v.fired));
    EvaluationJoins(env, s.ues[i], s.now, ms, serving);
    AnnounceIsQuiet(env, s.now, serving, v.best, v.fired, Only(v.ue));
    CommitTwice(s, i, a, b);
    CommitTwice(s, i, Joined(a, b), c);
    CommitTwice(s, i, Joined(Joined(a, b), c), TriggeredBy(env, s.ues[i], s.now, serving, v));
  }

  lemma AnnounceIsQuiet(env: Env, t: real, s: Measurement, best: Option<Measurement>, fired: bool, o: Outcome)
    ensures Announce(env, t, s, best, fired, o).bump == o.bump && Announce(env, t, s, best, fired, o).ue == o.ue
  {
  }

  lemma KeepForHead<T>(s: seq<Tagged<T>>, who: Option<nat>, p: T -> bool)
    requires s != []
    ensures KeepFor(s, who, p) ==
            (if Concerns(who, s[0].ue) && !p(s[0].rec) then [] else [s[0]]) + KeepFor(s[1..], who, p)
  {
  }
}
