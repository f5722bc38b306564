/** Mutual exclusion needs every part of the discipline: without any one of them
    there is a run with two live drains. */
module CatchUpNecessity {
  import opened Wrappers
  import opened Drain
  import opened CatchUp
  import opened CatchUpSafety
  import opened CatchUpRecords

  ghost predicate OneDrain(s: State) {
    forall i: nat, j: nat :: LiveDrain(s, i) && LiveDrain(s, j) ==> i == j
  }

  const PLAIN := PostCatchUp(1, false)

  /** A POST that is not refused starts a worker, with nothing in between. */
  lemma Start(cfg: Config, steps: seq<Step>, r: nat, req: Request, ok: bool) returns (more: seq<Step>)
    requires Valid(cfg, Init(cfg), steps)
    requires var s := Exec(cfg, Init(cfg), steps);
      Enabled(cfg, s, Read(r, req, ok)) && !Refuses(req, Seen(s, ok), s.now)
    ensures Valid(cfg, Init(cfg), more)
    ensures var s, s' := Exec(cfg, Init(cfg), steps), Exec(cfg, Init(cfg), more);
      var rec := StartRecord(req, s.now);
      s' == s.(slot := Some(rec), log := s.log + [Started(|s.workers|, rec)], workers := s.workers + [Spawn(req, rec, s.now)])
  {
    var s := Exec(cfg, Init(cfg), steps);
    Then(cfg, Init(cfg), steps, Read(r, req, ok));
    var m1 := steps + [Read(r, req, ok)];
    Then(cfg, Init(cfg), m1, Decide(r));
    var m2 := m1 + [Decide(r)];
    Then(cfg, Init(cfg), m2, Publish(r, true));
    more := m2 + [Publish(r, true)];
    assert Exec(cfg, Init(cfg), more).locks == s.locks;
  }

  lemma TwoLive(s: State)
    requires |s.workers| >= 2
    requires var n := |s.workers|; LiveDrain(s, n - 1) && exists k: nat :: k < n - 1 && LiveDrain(s, k)
    ensures !OneDrain(s)
  {
    var n := |s.workers|;
    var k: nat :| k < n - 1 && LiveDrain(s, k);
    assert LiveDrain(s, n - 1) && LiveDrain(s, k);
  }

  /** One drain, started at time `at`. */
  lemma First(cfg: Config, maxBuilds: int, at: nat) returns (steps: seq<Step>)
    requires cfg.replicas >= 1 && cfg.leftover.None?
    ensures Valid(cfg, Init(cfg), steps)
    ensures var req, s := PostCatchUp(maxBuilds, false), Exec(cfg, Init(cfg), steps);
      var rec := StartRecord(req, at);
      s == Init(cfg).(now := at, slot := Some(rec), log := [Started(0, rec)], workers := [Spawn(req, rec, at)])
  {
    steps := Until(cfg, at);
    assert Enabled(cfg, Exec(cfg, Init(cfg), steps), Read(0, PostCatchUp(maxBuilds, false), true));
    steps := Start(cfg, steps, 0, PostCatchUp(maxBuilds, false), true);
  }

  /** Nothing happens until `at`. */
  lemma Until(cfg: Config, at: nat) returns (steps: seq<Step>)
    ensures Valid(cfg, Init(cfg), steps) && Exec(cfg, Init(cfg), steps) == Init(cfg).(now := at)
  {
    steps := [];
    if at > 0 {
      Then(cfg, Init(cfg), [], Tick(at));
      steps := [] + [Tick(at)];
    }
  }

  /** The last moment of a second: what starts now and what starts next have
      different job ids. */
  const EVE: nat := SECOND - 1

  /** Two drains of two different jobs have been started and have not booted yet. */
  predicate TwoBooting(s: State) {
    |s.workers| == 2 && Unbooted(s, 0) && Unbooted(s, 1) &&
    s.workers[0].start.jobId != s.workers[1].start.jobId && s.slot.Some? && s.slot.value.counts == ZERO
  }

  predicate Unbooted(s: State, k: nat) {
    k < |s.workers| && var w := s.workers[k];
    w.pc == Booting && !w.trigger && w.maxBuilds == 1 && w.beat <= s.now
  }

  lemma TwoBootingAreLive(s: State)
    requires TwoBooting(s)
    ensures !OneDrain(s)
  {
    assert LiveDrain(s, 0) && LiveDrain(s, 1);
  }

  /** One drain started at the end of a second, and time has passed into the next. */
  lemma AcrossSeconds(cfg: Config) returns (steps: seq<Step>)
    requires cfg.replicas >= 1 && cfg.leftover.None? && cfg.gap > 0
    ensures Valid(cfg, Init(cfg), steps)
    ensures var s, rec := Exec(cfg, Init(cfg), steps), StartRecord(PLAIN, EVE);
      s == Init(cfg).(now := SECOND, slot := Some(rec), log := [Started(0, rec)], workers := [Spawn(PLAIN, rec, EVE)])
  {
    steps := First(cfg, 1, EVE);
    Then(cfg, Init(cfg), steps, Tick(SECOND));
    steps := steps + [Tick(SECOND)];
  }

  /** A second POST that is not refused, in a later second. */
  lemma StartSecond(cfg: Config, steps: seq<Step>, force: bool, ok: bool) returns (more: seq<Step>)
    requires Valid(cfg, Init(cfg), steps)
    requires var s, req := Exec(cfg, Init(cfg), steps), PostCatchUp(1, force);
      |s.workers| == 1 && Unbooted(s, 0) && s.workers[0].start.jobId != StartRecord(req, s.now).jobId &&
      Enabled(cfg, s, Read(0, req, ok)) && !Refuses(req, Seen(s, ok), s.now)
    ensures Valid(cfg, Init(cfg), more) && TwoBooting(Exec(cfg, Init(cfg), more))
  {
    more := Start(cfg, steps, 0, PostCatchUp(1, force), ok);
  }

  lemma WithTwoReplicas(cfg: Config) returns (steps: seq<Step>)
    requires cfg.replicas >= 2 && cfg.leftover.None? && cfg.gap > 0
    ensures Valid(cfg, Init(cfg), steps) && TwoBooting(Exec(cfg, Init(cfg), steps))
  {
    var i := Init(cfg);
    steps := Until(cfg, EVE);
    Then(cfg, i, steps, Read(0, PLAIN, true));
    steps := steps + [Read(0, PLAIN, true)];
    Then(cfg, i, steps, Decide(0));
    steps := steps + [Decide(0)];
    Then(cfg, i, steps, Tick(SECOND));
    steps := steps + [Tick(SECOND)];
    assert Exec(cfg, i, steps).locks[1] == Free;
    steps := Start(cfg, steps, 1, PLAIN, true);
    Then(cfg, i, steps, Publish(0, true));
    steps := steps + [Publish(0, true)];
  }

  lemma WithFailingReads(cfg: Config) returns (steps: seq<Step>)
    requires cfg.replicas >= 1 && cfg.leftover.None? && cfg.gap > 0 && !cfg.reliable
    ensures Valid(cfg, Init(cfg), steps) && TwoBooting(Exec(cfg, Init(cfg), steps))
  {
    steps := AcrossSeconds(cfg);
    steps := StartSecond(cfg, steps, false, false);
  }

  lemma WithForce(cfg: Config) returns (steps: seq<Step>)
    requires cfg.replicas >= 1 && cfg.leftover.None? && cfg.gap > 0 && cfg.force
    ensures Valid(cfg, Init(cfg), steps) && TwoBooting(Exec(cfg, Init(cfg), steps))
  {
    steps := AcrossSeconds(cfg);
    steps := StartSecond(cfg, steps, true, true);
  }

  lemma WithReset(cfg: Config) returns (steps: seq<Step>)
    requires cfg.replicas >= 1 && cfg.leftover.None? && cfg.gap > 0 && cfg.flush
    ensures Valid(cfg, Init(cfg), steps) && TwoBooting(Exec(cfg, Init(cfg), steps))
  {
    steps := AcrossSeconds(cfg);
    Then(cfg, Init(cfg), steps, Flush);
    steps := StartSecond(cfg, steps + [Flush], false, true);
  }

  /** A trigger's record has no heartbeat, so a drain takes over at once; when the
      trigger job ends it reports `completed` over the drain's record, and the
      next POST starts a second drain. */
  lemma WithTriggers(cfg: Config) returns (steps: seq<Step>)
    requires cfg.replicas >= 1 && cfg.leftover.None? && cfg.triggers
    ensures Valid(cfg, Init(cfg), steps) && !OneDrain(Exec(cfg, Init(cfg), steps))
  {
    var i := Init(cfg);
    assert Enabled(cfg, i, Read(0, PostTrigger(""), true));
    steps := Start(cfg, [], 0, PostTrigger(""), true);
    Then(cfg, i, steps, Boot(0, true));
    steps := steps + [Boot(0, true)];
    Then(cfg, i, steps, Build(0, NO_CALL));
    steps := steps + [Build(0, NO_CALL)];
    steps := Start(cfg, steps, 0, PLAIN, true);
    Then(cfg, i, steps, Finish(0, 0, true));
    steps := steps + [Finish(0, 0, true)];
    assert LiveDrain(Exec(cfg, i, steps), 1);
    steps := Start(cfg, steps, 0, PLAIN, true);
    assert LiveDrain(Exec(cfg, i, steps), 1);
    TwoLive(Exec(cfg, i, steps));
  }

  /** A heartbeat that may grow older than the threshold looks like a zombie's. */
  lemma WithSlowBuilds(cfg: Config) returns (steps: seq<Step>)
    requires cfg.replicas >= 1 && cfg.leftover.None? && (!cfg.timely || cfg.gap > ZOMBIE_THRESHOLD)
    ensures Valid(cfg, Init(cfg), steps) && TwoBooting(Exec(cfg, Init(cfg), steps))
  {
    steps := First(cfg, 1, 0);
    var tick := Tick(ZOMBIE_THRESHOLD + 1);
    Then(cfg, Init(cfg), steps, tick);
    steps := StartSecond(cfg, steps + [tick], false, true);
  }

  // ---- a handler that decides late on what it read

  const LATE: nat := ZOMBIE_THRESHOLD + 1
  const BUSY := Call(Built(Stats(0, 0, 1, "", "")), false, false, 0, 0)

  /** One drain is building, its heartbeat current, while a handler sits on a
      reading of the slot from the time `cfg.gap`. */
  predicate Waiting(cfg: Config, s: State) {
    |s.workers| == 1 && |s.locks| >= 1 && s.locks[0].Deciding? && s.locks[0].req == PLAIN &&
    s.locks[0].readAt == cfg.gap && s.locks[0].seen == Some(StartRecord(PostCatchUp(LATE + 2, false), 0)) &&
    (forall r :: 0 < r < |s.locks| ==> s.locks[r].Free?) && cfg.gap <= s.now <= LATE &&
    var w := s.workers[0];
    w.pc == Building && !w.trigger && w.beat == s.now && w.maxBuilds == LATE + 2 &&
    w.start.jobId == CatchUpJob(0) && w.progress.rec.counts.builds <= s.now && w.progress.rec.counts.errors == 0 &&
    s.slot.Some? && s.slot.value.jobId == w.progress.rec.jobId
  }

  /** A drain that makes one build after another, none of them failing or idle. */
  predicate Busy(s: State, k: nat) {
    k < |s.workers| && s.slot.Some? && var w := s.workers[k];
    w.pc == Building && !w.trigger && w.beat <= s.now && w.progress.rec.counts.errors == 0 &&
    w.progress.rec.counts.builds + 1 < w.maxBuilds
  }

  predicate OthersKept(s: State, s': State, k: nat) {
    |s'.workers| == |s.workers| && forall l :: 0 <= l < |s.workers| && l != k ==> s'.workers[l] == s.workers[l]
  }

  /** The steps that take a building drain past its report. */
  lemma Reports(cfg: Config, steps: seq<Step>, k: nat, call: Call) returns (more: seq<Step>)
    requires Valid(cfg, Init(cfg), steps) && call.result.Built? && !Idle(call.result.stats)
    requires var s := Exec(cfg, Init(cfg), steps);
      At(s, k, Building) && !s.workers[k].trigger && s.workers[k].beat <= s.now
    ensures Valid(cfg, Init(cfg), more)
    ensures var s, s' := Exec(cfg, Init(cfg), steps), Exec(cfg, Init(cfg), more);
      OthersKept(s, s', k) &&
      s'.now == s.now && s'.locks == s.locks && |s'.log| == |s.log| + 1 && s'.slot == Some(s'.log[|s.log|].rec) &&
      s'.log[|s.log|].Wrote? && s'.log[|s.log|].writer == k &&
      var w, w', rec := s.workers[k], s'.workers[k], s'.log[|s.log|].rec;
      w' == w.(pc := AtHead, calls := w'.calls, pending := call, beat := s.now, progress := w'.progress) &&
      rec.jobId == w.progress.rec.jobId == w'.progress.rec.jobId &&
      rec.counts == w'.progress.rec.counts == Plus(w.progress.rec.counts, Share(call))
  {
    var i, s, now := Init(cfg), Exec(cfg, Init(cfg), steps), Exec(cfg, Init(cfg), steps).now;
    var w := s.workers[k];
    Then(cfg, i, steps, Build(k, call));
    more := steps + [Build(k, call)];
    Then(cfg, i, more, Report(k, now, true));
    more := more + [Report(k, now, true)];
    ReportsCall(w.(pending := call, pc := Reporting), now, cfg.hasScheduler);
  }

  lemma ReportsCall(w: Worker, stamp: Time, hasScheduler: bool)
    requires w.pending.result.Built? && !Idle(w.pending.result.stats)
    ensures var w', rec := Reported(w, stamp, hasScheduler), ReportRecord(w, stamp, hasScheduler);
      w' == w.(pc := AtHead, calls := w'.calls, beat := stamp, progress := w'.progress) &&
      rec.jobId == w.progress.rec.jobId == w'.progress.rec.jobId &&
      rec.counts == w'.progress.rec.counts == Plus(w.progress.rec.counts, Share(w.pending))
  {
    var c := ReportedCall(w, stamp);
    TurnCounts(w.progress, c, hasScheduler);
    AroundCounts(w.progress, c, hasScheduler);
    AroundShares(w.progress, c, hasScheduler);
  }

  /** Past its ownership check and its next heartbeat. */
  lemma BeatsAgain(cfg: Config, steps: seq<Step>, k: nat) returns (more: seq<Step>)
    requires Valid(cfg, Init(cfg), steps)
    requires var s := Exec(cfg, Init(cfg), steps);
      At(s, k, AtHead) && s.slot.Some? && var w := s.workers[k];
      w.beat <= s.now && w.progress.rec.counts.builds < w.maxBuilds && s.slot.value.jobId == w.progress.rec.jobId
    ensures Valid(cfg, Init(cfg), more)
    ensures var s, s' := Exec(cfg, Init(cfg), steps), Exec(cfg, Init(cfg), more); var w := s.workers[k];
      var rec := Stamp(w.progress, s.now).rec;
      s' == s.(workers := s.workers[k := w.(pc := Building, beat := s.now)], slot := Some(rec),
               log := s.log + [Wrote(k, |w.calls|, rec)])
  {
    var i, s := Init(cfg), Exec(cfg, Init(cfg), steps);
    Then(cfg, i, steps, Head(k, true));
    more := steps + [Head(k, true)];
    Then(cfg, i, more, Beat(k, s.now, true));
    more := more + [Beat(k, s.now, true)];
  }

  /** A whole round, from one build to the next. */
  lemma ReportAndBeat(cfg: Config, steps: seq<Step>, k: nat) returns (more: seq<Step>)
    requires Valid(cfg, Init(cfg), steps) && Busy(Exec(cfg, Init(cfg), steps), k)
    ensures Valid(cfg, Init(cfg), more)
    ensures var s, s' := Exec(cfg, Init(cfg), steps), Exec(cfg, Init(cfg), more);
      OthersKept(s, s', k) &&
      s'.now == s.now && s'.locks == s.locks && s'.slot.Some? && var w, w' := s.workers[k], s'.workers[k];
      w' == w.(calls := w'.calls, pending := BUSY, beat := s.now, progress := w'.progress) &&
      w'.progress.rec.jobId == w.progress.rec.jobId == s'.slot.value.jobId && s'.slot.value.counts == w'.progress.rec.counts &&
      w'.progress.rec.counts.errors == 0 && w'.progress.rec.counts.builds == w.progress.rec.counts.builds + 1
  {
    more := Reports(cfg, steps, k, BUSY);
    more := BeatsAgain(cfg, more, k);
  }

  /** The drain reports, passes its check and beats again at time `to`. */
  lemma Cycle(cfg: Config, steps: seq<Step>, to: Time) returns (more: seq<Step>)
    requires cfg.gap + cfg.latency >= LATE && Valid(cfg, Init(cfg), steps)
    requires var s := Exec(cfg, Init(cfg), steps); Waiting(cfg, s) && s.now < to <= LATE && to - s.now <= cfg.gap
    ensures Valid(cfg, Init(cfg), more)
    ensures var s' := Exec(cfg, Init(cfg), more); Waiting(cfg, s') && s'.now == to
  {
    assert Timely(cfg, Exec(cfg, Init(cfg), steps), to);
    Then(cfg, Init(cfg), steps, Tick(to));
    more := ReportAndBeat(cfg, steps + [Tick(to)], 0);
  }

  lemma {:induction false} Wait(cfg: Config, steps: seq<Step>) returns (more: seq<Step>)
    requires cfg.gap > 0 && cfg.gap + cfg.latency >= LATE && Valid(cfg, Init(cfg), steps)
    requires Waiting(cfg, Exec(cfg, Init(cfg), steps))
    ensures Valid(cfg, Init(cfg), more)
    ensures var s' := Exec(cfg, Init(cfg), more); Waiting(cfg, s') && s'.now == LATE
    decreases LATE - Exec(cfg, Init(cfg), steps).now
  {
    var now := Exec(cfg, Init(cfg), steps).now;
    if now == LATE {
      more := steps;
    } else {
      more := Cycle(cfg, steps, Min(now + cfg.gap, LATE));
      more := Wait(cfg, more);
    }
  }

  /** A drain started at time 0 beats at the time `cfg.gap`, just after a handler
      read the heartbeat of time 0. */
  lemma StartWaiting(cfg: Config) returns (steps: seq<Step>)
    requires cfg.replicas >= 1 && cfg.leftover.None? && cfg.timely && 0 < cfg.gap <= ZOMBIE_THRESHOLD
    ensures Valid(cfg, Init(cfg), steps) && Waiting(cfg, Exec(cfg, Init(cfg), steps))
  {
    var i := Init(cfg);
    steps := First(cfg, LATE + 2, 0);
    Then(cfg, i, steps, Boot(0, true));
    steps := steps + [Boot(0, true)];
    Then(cfg, i, steps, Head(0, true));
    steps := steps + [Head(0, true)];
    assert Timely(cfg, Exec(cfg, i, steps), cfg.gap);
    Then(cfg, i, steps, Tick(cfg.gap));
    steps := steps + [Tick(cfg.gap)];
    Then(cfg, i, steps, Read(0, PLAIN, true));
    steps := steps + [Read(0, PLAIN, true)];
    Then(cfg, i, steps, Beat(0, cfg.gap, true));
    steps := steps + [Beat(0, cfg.gap, true)];
  }

  /** A drain is building, a second one of another job has been started beside it. */
  predicate Overtaken(s: State) {
    |s.workers| == 2 && Busy(s, 0) && Unbooted(s, 1) && s.workers[0].start.jobId != s.workers[1].start.jobId
  }

  lemma WithSlowHandlers(cfg: Config) returns (steps: seq<Step>)
    requires cfg.replicas >= 1 && cfg.leftover.None? && cfg.timely
    requires 0 < cfg.gap <= ZOMBIE_THRESHOLD && cfg.gap + cfg.latency > ZOMBIE_THRESHOLD
    ensures Valid(cfg, Init(cfg), steps) && Overtaken(Exec(cfg, Init(cfg), steps))
  {
    var i := Init(cfg);
    steps := StartWaiting(cfg);
    steps := Wait(cfg, steps);
    Then(cfg, i, steps, Decide(0));
    steps := steps + [Decide(0)];
    Then(cfg, i, steps, Publish(0, true));
    steps := steps + [Publish(0, true)];
  }

  lemma OvertakenAreLive(s: State)
    requires Overtaken(s)
    ensures !OneDrain(s)
  {
    assert LiveDrain(s, 0) && LiveDrain(s, 1);
  }

  /** Without triggers, some run has two drains started beside each other unless the
      deployment is disciplined. */
  lemma TwoStarts(cfg: Config) returns (steps: seq<Step>)
    requires cfg.replicas >= 1 && cfg.leftover.None? && cfg.gap > 0 && !Disciplined(cfg) && !cfg.triggers
    ensures Valid(cfg, Init(cfg), steps)
    ensures TwoBooting(Exec(cfg, Init(cfg), steps)) || Overtaken(Exec(cfg, Init(cfg), steps))
  {
    if cfg.replicas >= 2 {
      steps := WithTwoReplicas(cfg);
    } else if !cfg.reliable {
      steps := WithFailingReads(cfg);
    } else if cfg.force {
      steps := WithForce(cfg);
    } else if cfg.flush {
      steps := WithReset(cfg);
    } else if !cfg.timely || cfg.gap > ZOMBIE_THRESHOLD {
      steps := WithSlowBuilds(cfg);
    } else {
      steps := WithSlowHandlers(cfg);
    }
  }

  /** Some run has two live drains, unless the deployment is disciplined. */
  lemma Undisciplined(cfg: Config) returns (steps: seq<Step>)
    requires cfg.replicas >= 1 && cfg.leftover.None? && cfg.gap > 0 && !Disciplined(cfg)
    ensures Valid(cfg, Init(cfg), steps) && !OneDrain(Exec(cfg, Init(cfg), steps))
  {
    if cfg.triggers {
      steps := WithTriggers(cfg);
    } else {
      steps := TwoStarts(cfg);
      if TwoBooting(Exec(cfg, Init(cfg), steps)) {
        TwoBootingAreLive(Exec(cfg, Init(cfg), steps));
      } else {
        OvertakenAreLive(Exec(cfg, Init(cfg), steps));
      }
    }
  }

  /** At most one drain is live in every reachable state exactly when the
      deployment is disciplined. */
  lemma SingleDrainIff(cfg: Config)
    requires cfg.replicas >= 1 && cfg.leftover.None? && cfg.gap > 0
    ensures Disciplined(cfg) <==>
      forall steps :: Valid(cfg, Init(cfg), steps) ==> OneDrain(Exec(cfg, Init(cfg), steps))
  {
    if Disciplined(cfg) {
      forall steps | Valid(cfg, Init(cfg), steps)
        ensures OneDrain(Exec(cfg, Init(cfg), steps))
      {
        SingleDrain(cfg, steps);
      }
    } else {
      var steps := Undisciplined(cfg);
    }
  }
}
