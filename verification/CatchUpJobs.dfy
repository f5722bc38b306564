/** The counters published under one job id.  One drain's never decrease, but a job is
    not a drain: its id is a second of the clock, and a worker takes its identity
    from the slot. */
module CatchUpJobs {
  import opened Wrappers
  import opened Drain
  import opened CatchUp
  import opened CatchUpSafety
  import opened CatchUpRecords
  import opened CatchUpLineage
  import opened CatchUpNecessity

  /** No record of a job counts less than an earlier one. */
  predicate JobsGrow(log: seq<Entry>) {
    forall i, j :: 0 <= i < j < |log| && log[i].rec.jobId == log[j].rec.jobId ==> CountersLe(log[i].rec, log[j].rec)
  }

  /** No two starts made the same job id. */
  predicate DistinctStarts(s: State) {
    forall k, l :: 0 <= k < l < |s.workers| ==> s.workers[k].start.jobId != s.workers[l].start.jobId
  }

  /** Every worker runs under the id of its own start. */
  predicate OwnIdentities(s: State) {
    forall k :: 0 <= k < |s.workers| && s.workers[k].origin.Some? ==> s.workers[k].base.jobId == s.workers[k].start.jobId
  }

  /** The job of an entry is that of its writer. */
  lemma EntryJob(cfg: Config, s: State, i: nat)
    requires Traced(cfg, s) && OwnIdentities(s) && i < |s.log|
    ensures s.log[i].writer < |s.workers| && s.log[i].rec.jobId == s.workers[s.log[i].writer].start.jobId
    ensures s.log[i].Started? ==> Fresh(s.log[i].rec)
  {
    assert EntryLinked(s, i);
    if s.log[i].Wrote? {
      PartCounts(s, Part(s.log[i].writer, s.log[i].made), s.log[i].rec);
    }
  }

  /** In any run: if no two starts made the same id and every worker runs under its
      own, no job's counters ever decrease. */
  lemma OwnJobsGrow(cfg: Config, s: State)
    requires Traced(cfg, s) && DistinctStarts(s) && OwnIdentities(s)
    ensures JobsGrow(s.log)
  {
    forall i, j | 0 <= i < j < |s.log| && s.log[i].rec.jobId == s.log[j].rec.jobId
      ensures CountersLe(s.log[i].rec, s.log[j].rec)
    {
      EntryJob(cfg, s, i);
      EntryJob(cfg, s, j);
      assert s.log[i].writer == s.log[j].writer;
      assert EntryLinked(s, j);
      if s.log[i].Wrote? {
        assert SameWriter(s.log[i], s.log[j]);
      }
    }
  }

  /** Where no two starts made the same id, a worker runs under the id of its own start
      exactly when the record it booted from goes back to that very start. */
  lemma OwnIdentityIff(cfg: Config, s: State, k: nat)
    requires Reachable(cfg, s) && DistinctStarts(s) && cfg.leftover.None?
    requires k < |s.workers| && s.workers[k].origin.Some?
    ensures var w := s.workers[k];
      Linked(s) && w.origin.value <= |s.log| &&
      (w.base.jobId == w.start.jobId <==> Root(cfg, s, w.origin.value) == Some(w.start))
  {
    StateTraced(cfg, s);
    var n := s.workers[k].origin.value;
    assert Source(cfg, s.log, n) == Some(s.workers[k].base);
    LineageCounts(cfg, s, n);
    RootIsAStart(cfg, s, n);
  }

  // ---- two drains that boot from one record

  /** The last two records are of one job, and the counts have gone back. */
  predicate GoesBack(log: seq<Entry>) {
    |log| >= 2 && var a, b := log[|log|-2].rec, log[|log|-1].rec;
    a.jobId == b.jobId && !CountersLe(a, b)
  }

  predicate BuildsGoBack(log: seq<Entry>) {
    |log| >= 2 && log[|log|-2].rec.counts.builds > log[|log|-1].rec.counts.builds
  }

  predicate SameStarts(s: State, s': State) {
    |s'.workers| == |s.workers| && forall k :: 0 <= k < |s.workers| ==> s'.workers[k].start == s.workers[k].start
  }

  /** A worker boots from the slot and passes its first check and heartbeat. */
  lemma Boots(cfg: Config, steps: seq<Step>, k: nat) returns (more: seq<Step>)
    requires Valid(cfg, Init(cfg), steps)
    requires var s := Exec(cfg, Init(cfg), steps); Unbooted(s, k) && s.slot.Some? && s.slot.value.counts == ZERO
    ensures Valid(cfg, Init(cfg), more)
    ensures var s, s' := Exec(cfg, Init(cfg), steps), Exec(cfg, Init(cfg), more);
      var w' := s.workers[k].(base := s.slot.value, origin := Some(|s.log|), progress := Begin(s.slot.value), pc := AtHead);
      s' == s.(workers := s.workers[k := w'])
  {
    Then(cfg, Init(cfg), steps, Boot(k, true));
    more := steps + [Boot(k, true)];
  }

  /** A started drain boots from an uncounted record and reports one build. */
  lemma FirstBuild(cfg: Config, steps: seq<Step>, k: nat, call: Call) returns (more: seq<Step>)
    requires Valid(cfg, Init(cfg), steps) && call.result.Built? && !Idle(call.result.stats)
    requires var s := Exec(cfg, Init(cfg), steps); Unbooted(s, k) && s.slot.Some? && s.slot.value.counts == ZERO
    ensures Valid(cfg, Init(cfg), more)
    ensures var s, s' := Exec(cfg, Init(cfg), steps), Exec(cfg, Init(cfg), more);
      OthersKept(s, s', k) &&
      s'.now == s.now && s'.locks == s.locks && s'.log != [] && s'.slot == Some(s'.log[|s'.log|-1].rec) &&
      var w, w', e := s.workers[k], s'.workers[k], s'.log[|s'.log|-1];
      w'.start == w.start && !w'.trigger && w'.pc == AtHead && w'.maxBuilds == 1 && w'.beat == s.now &&
      e.Wrote? && e.writer == k && w'.progress.rec.jobId == e.rec.jobId == s.slot.value.jobId &&
      w'.progress.rec.counts == e.rec.counts == Share(call)
  {
    var s := Exec(cfg, Init(cfg), steps);
    more := Boots(cfg, steps, k);
    more := BeatsAgain(cfg, more, k);
    more := Reports(cfg, more, k, call);
    PlusZero(s.slot.value.counts, Share(call));
  }

  /** A drain that has counted nothing beats over the report of another of its job. */
  lemma BeatsOver(cfg: Config, steps: seq<Step>) returns (more: seq<Step>)
    requires Valid(cfg, Init(cfg), steps)
    requires var s := Exec(cfg, Init(cfg), steps);
      |s.workers| == 2 && At(s, 1, AtHead) && s.log != [] && s.slot == Some(s.log[|s.log|-1].rec) && var w := s.workers[1];
      w.beat <= s.now && w.progress.rec.counts == ZERO && w.maxBuilds == 1 &&
      s.slot.value.jobId == w.progress.rec.jobId && s.slot.value.counts.builds == 1
    ensures Valid(cfg, Init(cfg), more)
    ensures var s, s' := Exec(cfg, Init(cfg), steps), Exec(cfg, Init(cfg), more);
      SameStarts(s, s') && GoesBack(s'.log) && BuildsGoBack(s'.log)
  {
    more := BeatsAgain(cfg, steps, 1);
  }

  /** Both boot from the same record; one reports a build, the other beats. */
  lemma SharedJobGoesBack(cfg: Config, steps: seq<Step>) returns (more: seq<Step>)
    requires Valid(cfg, Init(cfg), steps) && TwoBooting(Exec(cfg, Init(cfg), steps))
    ensures Valid(cfg, Init(cfg), more)
    ensures var s, s' := Exec(cfg, Init(cfg), steps), Exec(cfg, Init(cfg), more);
      SameStarts(s, s') && GoesBack(s'.log) && BuildsGoBack(s'.log)
  {
    more := Boots(cfg, steps, 1);
    more := FirstBuild(cfg, more, 0, BUSY);
    more := BeatsOver(cfg, more);
  }

  /** A forced restart is enough, even in a later second. */
  lemma JobCountersMayDecrease(cfg: Config) returns (steps: seq<Step>)
    requires cfg.replicas >= 1 && cfg.leftover.None? && cfg.gap > 0 && cfg.force
    ensures Valid(cfg, Init(cfg), steps)
    ensures var s := Exec(cfg, Init(cfg), steps); DistinctStarts(s) && GoesBack(s.log) && BuildsGoBack(s.log)
  {
    steps := WithForce(cfg);
    steps := SharedJobGoesBack(cfg, steps);
  }

  /** A drain that runs under an older job takes the slot from a new one, which boots
      from it, and then both report: the new one at its end what it booted with. */
  lemma OvertakenGoesBack(cfg: Config, steps: seq<Step>) returns (more: seq<Step>)
    requires Valid(cfg, Init(cfg), steps) && Overtaken(Exec(cfg, Init(cfg), steps))
    ensures Valid(cfg, Init(cfg), more)
    ensures var s, s' := Exec(cfg, Init(cfg), steps), Exec(cfg, Init(cfg), more);
      SameStarts(s, s') && GoesBack(s'.log)
  {
    more := ReportAndBeat(cfg, steps, 0);
    more := BootsSpent(cfg, more, 1);
    more := Reports(cfg, more, 0, BUSY);
    more := Ends(cfg, more, 1);
  }

  /** A drain out of its loop completes. */
  lemma Ends(cfg: Config, steps: seq<Step>, k: nat) returns (more: seq<Step>)
    requires Valid(cfg, Init(cfg), steps)
    requires var s := Exec(cfg, Init(cfg), steps);
      At(s, k, Closing) && !s.workers[k].trigger && s.workers[k].beat <= s.now
    ensures Valid(cfg, Init(cfg), more)
    ensures var s, s' := Exec(cfg, Init(cfg), steps), Exec(cfg, Init(cfg), more);
      |s'.log| == |s.log| + 1 && var e, r := s'.log[|s.log|], s.workers[k].progress.rec;
      s' == s.(workers := s.workers[k := s.workers[k].(pc := Gone)], slot := Some(e.rec), log := s.log + [e]) &&
      e.rec.status == Completed && e.rec.jobId == r.jobId && e.rec.counts == r.counts
  {
    var s := Exec(cfg, Init(cfg), steps);
    CloseKeepsCounts(s.workers[k], s.now);
    Then(cfg, Init(cfg), steps, Finish(k, s.now, true));
    more := steps + [Finish(k, s.now, true)];
  }

  lemma CloseKeepsCounts(w: Worker, stamp: Time)
    requires !w.trigger
    ensures var rec := FinalRecord(w, stamp);
      rec.status == Completed && rec.jobId == w.progress.rec.jobId && rec.counts == w.progress.rec.counts
  {
  }

  /** A worker whose budget is spent by what it boots from goes to its end at once. */
  lemma BootsSpent(cfg: Config, steps: seq<Step>, k: nat) returns (more: seq<Step>)
    requires Valid(cfg, Init(cfg), steps)
    requires var s := Exec(cfg, Init(cfg), steps);
      Unbooted(s, k) && s.slot.Some? && s.slot.value.counts.builds >= 1
    ensures Valid(cfg, Init(cfg), more)
    ensures var s, s' := Exec(cfg, Init(cfg), steps), Exec(cfg, Init(cfg), more);
      var w' := s.workers[k].(base := s.slot.value, origin := Some(|s.log|), progress := Begin(s.slot.value), pc := Closing);
      s' == s.(workers := s.workers[k := w'])
  {
    Then(cfg, Init(cfg), steps, Boot(k, true));
    more := steps + [Boot(k, true)];
    Then(cfg, Init(cfg), more, Head(k, true));
    more := more + [Head(k, true)];
  }

  // ---- a trigger that boots from a drain's record

  const RICH := Call(Built(Stats(5, 0, 2, "", "")), false, false, 0, 0)
  const POOR := Call(Built(Stats(3, 0, 0, "", "")), false, false, 0, 0)

  /** The last record is a trigger's: under a drain's job, with its own documents and
      the drain's pulls. */
  predicate Mixed(s: State) {
    |s.log| >= 2 && var a, e := s.log[|s.log|-2], s.log[|s.log|-1];
    a.Wrote? && a.writer < |s.workers| && !s.workers[a.writer].trigger &&
    e.Wrote? && e.writer < |s.workers| && s.workers[e.writer].trigger &&
    e.rec.jobId == a.rec.jobId == s.workers[a.writer].start.jobId != s.workers[e.writer].start.jobId &&
    a.rec.counts == Counts(1, 5, 2, 0, 0) && e.rec.counts == Counts(1, 3, 2, 0, 0)
  }

  /** In every deployment with triggers, however reliable and quick: a drain takes over
      from a trigger at once, and the trigger boots from the drain's record. */
  lemma TriggerMixesJobs(cfg: Config) returns (steps: seq<Step>)
    requires cfg.replicas >= 1 && cfg.leftover.None? && cfg.triggers
    ensures Valid(cfg, Init(cfg), steps)
    ensures var s := Exec(cfg, Init(cfg), steps); Mixed(s) && DistinctStarts(s) && GoesBack(s.log)
  {
    steps := BesideATrigger(cfg);
    steps := FirstBuild(cfg, steps, 1, RICH);
    steps := TriggerEnds(cfg, steps, POOR);
  }

  lemma BesideATrigger(cfg: Config) returns (steps: seq<Step>)
    requires cfg.replicas >= 1 && cfg.leftover.None? && cfg.triggers
    ensures Valid(cfg, Init(cfg), steps)
    ensures var s := Exec(cfg, Init(cfg), steps);
      |s.workers| == 2 && TriggerUnbooted(s) && s.workers[0].start.jobId.TriggerJob? && Unbooted(s, 1) &&
      s.workers[1].start.jobId.CatchUpJob? && s.slot == Some(s.workers[1].start) && s.slot.value.counts == ZERO
  {
    assert Enabled(cfg, Init(cfg), Read(0, PostTrigger(""), true));
    steps := Start(cfg, [], 0, PostTrigger(""), true);
    steps := Start(cfg, steps, 0, PLAIN, true);
  }

  predicate TriggerUnbooted(s: State) {
    s.workers != [] && var w := s.workers[0]; w.trigger && w.pc == Booting && w.beat <= s.now
  }

  /** A trigger boots from the slot, makes its call and writes its record. */
  lemma TriggerEnds(cfg: Config, steps: seq<Step>, call: Call) returns (more: seq<Step>)
    requires Valid(cfg, Init(cfg), steps)
    requires var s := Exec(cfg, Init(cfg), steps); TriggerUnbooted(s) && s.slot.Some?
    ensures Valid(cfg, Init(cfg), more)
    ensures var s, s' := Exec(cfg, Init(cfg), steps), Exec(cfg, Init(cfg), more);
      s'.log == s.log + [Wrote(0, |s.workers[0].calls|, TriggerRecord(s.slot.value, call.result))] &&
      OthersKept(s, s', 0) &&
      s'.workers[0].trigger && s'.workers[0].start == s.workers[0].start
  {
    var i, now := Init(cfg), Exec(cfg, Init(cfg), steps).now;
    Then(cfg, i, steps, Boot(0, true));
    more := steps + [Boot(0, true)];
    Then(cfg, i, more, Build(0, call));
    more := more + [Build(0, call)];
    Then(cfg, i, more, Finish(0, now, true));
    more := more + [Finish(0, now, true)];
  }

  // ---- two starts in one second

  /** In every deployment, disciplined or not: a drain ends within the second it was
      started in, the next start makes the same id, and the counts are zero again. */
  lemma SameSecondGoesBack(cfg: Config) returns (steps: seq<Step>)
    requires cfg.replicas >= 1 && cfg.leftover.None?
    ensures Valid(cfg, Init(cfg), steps)
    ensures var s := Exec(cfg, Init(cfg), steps);
      GoesBack(s.log) && |s.workers| == 2 && s.workers[0].start.jobId == s.workers[1].start.jobId && !Live(s.workers[0])
  {
    steps := First(cfg, 1, 0);
    steps := FirstBuild(cfg, steps, 0, BUSY);
    steps := EndsSpent(cfg, steps);
    steps := Start(cfg, steps, 0, PLAIN, true);
  }

  /** A drain at its check with its budget spent completes. */
  lemma EndsSpent(cfg: Config, steps: seq<Step>) returns (more: seq<Step>)
    requires Valid(cfg, Init(cfg), steps)
    requires var s := Exec(cfg, Init(cfg), steps);
      |s.workers| == 1 && var w := s.workers[0];
      w.pc == AtHead && !w.trigger && w.beat <= s.now && w.progress.rec.counts.builds >= w.maxBuilds
    ensures Valid(cfg, Init(cfg), more)
    ensures var s, s' := Exec(cfg, Init(cfg), steps), Exec(cfg, Init(cfg), more);
      s'.now == s.now && s'.locks == s.locks && |s'.workers| == 1 && s'.workers[0].start == s.workers[0].start &&
      !Live(s'.workers[0]) && s'.log != [] && s'.slot == Some(s'.log[|s'.log|-1].rec) &&
      var rec, r := s'.slot.value, s.workers[0].progress.rec;
      rec.status == Completed && rec.jobId == r.jobId && rec.counts == r.counts
  {
    Then(cfg, Init(cfg), steps, Head(0, true));
    more := Ends(cfg, steps + [Head(0, true)], 0);
  }

  // ---- when a job's counters never decrease

  lemma DisciplinedJobsGrow(cfg: Config, steps: seq<Step>)
    requires Disciplined(cfg) && Valid(cfg, Init(cfg), steps) && DistinctStarts(Exec(cfg, Init(cfg), steps))
    ensures JobsGrow(Exec(cfg, Init(cfg), steps).log)
  {
    ReachableTraced(cfg, steps);
    ReachableOwnBases(cfg, steps);
    OwnJobsGrow(cfg, Exec(cfg, Init(cfg), steps));
  }

  lemma JobsGoBack(cfg: Config) returns (steps: seq<Step>)
    requires cfg.replicas >= 1 && cfg.leftover.None? && cfg.gap > 0 && !Disciplined(cfg)
    ensures Valid(cfg, Init(cfg), steps)
    ensures var s := Exec(cfg, Init(cfg), steps); DistinctStarts(s) && GoesBack(s.log)
  {
    if cfg.triggers {
      steps := TriggerMixesJobs(cfg);
    } else {
      steps := TwoStarts(cfg);
      if TwoBooting(Exec(cfg, Init(cfg), steps)) {
        steps := SharedJobGoesBack(cfg, steps);
      } else {
        steps := OvertakenGoesBack(cfg, steps);
      }
    }
  }

  /** In every run in which no two starts make the same id, the counters published
      under a job never decrease: exactly when the deployment is disciplined. */
  lemma JobsGrowIff(cfg: Config)
    requires cfg.replicas >= 1 && cfg.leftover.None? && cfg.gap > 0
    ensures Disciplined(cfg) <==>
      forall steps :: Valid(cfg, Init(cfg), steps) && DistinctStarts(Exec(cfg, Init(cfg), steps)) ==>
        JobsGrow(Exec(cfg, Init(cfg), steps).log)
  {
    if Disciplined(cfg) {
      forall steps | Valid(cfg, Init(cfg), steps) && DistinctStarts(Exec(cfg, Init(cfg), steps))
        ensures JobsGrow(Exec(cfg, Init(cfg), steps).log)
      {
        DisciplinedJobsGrow(cfg, steps);
      }
    } else {
      var steps := JobsGoBack(cfg);
      assert !JobsGrow(Exec(cfg, Init(cfg), steps).log);
    }
  }
}
