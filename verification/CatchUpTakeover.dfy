/** When a forced restart stands.  The ownership check guards only the head of the
    loop, so a displaced worker past it still writes its own record over the slot. */
module CatchUpTakeover {
  import opened Wrappers
  import opened Drain
  import opened CatchUp
  import opened CatchUpRecords

  /** A displaced worker that will meet its ownership check before it writes. */
  predicate Harmless(w: Worker) {
    w.pc == AtHead && w.progress.rec.counts.builds < w.maxBuilds
  }

  predicate SlotOf(s: State, job: JobId) {
    s.slot.Some? && s.slot.value.jobId == job
  }

  predicate Obeys(w: Worker, job: JobId) {
    Live(w) && w.pc != Booting ==> w.progress.rec.jobId == job || Harmless(w)
  }

  predicate TakenOver(s: State, job: JobId) {
    SlotOf(s, job) && forall k :: 0 <= k < |s.workers| ==> Obeys(s.workers[k], job)
  }

  /** No start is published and the store is not emptied. */
  predicate NoStart(steps: seq<Step>) {
    forall i :: 0 <= i < |steps| ==> !steps[i].Publish? && !steps[i].Flush?
  }

  lemma WritesOwnJob(w: Worker, stamp: Time, hasScheduler: bool)
    ensures Stamp(w.progress, stamp).rec.jobId == w.progress.rec.jobId
    ensures FinalRecord(w, stamp).jobId == w.progress.rec.jobId
    ensures ReportRecord(w, stamp, hasScheduler).jobId == w.progress.rec.jobId
    ensures Reported(w, stamp, hasScheduler).progress.rec.jobId == w.progress.rec.jobId
  {
    AroundCounts(w.progress, ReportedCall(w, stamp), hasScheduler);
    TurnCounts(w.progress, ReportedCall(w, stamp), hasScheduler);
  }

  lemma StandsStep(cfg: Config, s: State, step: Step, job: JobId)
    requires TakenOver(s, job) && Enabled(cfg, s, step) && !step.Publish? && !step.Flush?
    ensures TakenOver(Apply(cfg, s, step), job)
  {
    StepFrame(cfg, s, step);
    if Actor(step).Some? {
      ActorObeys(cfg, s, step, Actor(step).value, job);
    }
  }

  lemma ActorObeys(cfg: Config, s: State, step: Step, k: nat, job: JobId)
    requires SlotOf(s, job) && Enabled(cfg, s, step) && Actor(step) == Some(k) && Obeys(s.workers[k], job)
    ensures SlotOf(Apply(cfg, s, step), job) && Obeys(Apply(cfg, s, step).workers[k], job)
  {
    if step.Beat? || step.Report? || step.Finish? {
      WritesOwnJob(s.workers[k], step.stamp, cfg.hasScheduler);
    }
  }

  lemma {:induction false} Stands(cfg: Config, s: State, steps: seq<Step>, job: JobId)
    requires TakenOver(s, job) && Valid(cfg, s, steps) && NoStart(steps)
    ensures TakenOver(Exec(cfg, s, steps), job)
  {
    if steps != [] {
      var init := steps[..|steps|-1];
      assert NoStart(init) by { assert forall i :: 0 <= i < |init| ==> init[i] == steps[i]; }
      Stands(cfg, s, init, job);
      StandsStep(cfg, Exec(cfg, s, init), steps[|steps|-1], job);
    }
  }

  /** A displaced worker about to write takes the slot back. */
  lemma WritesNow(cfg: Config, s: State, steps: seq<Step>, k: nat, job: JobId, last: Step)
    requires Valid(cfg, s, steps) && NoStart(steps)
    requires var s1 := Exec(cfg, s, steps);
      k < |s1.workers| && s1.workers[k].progress.rec.jobId != job && Enabled(cfg, s1, last)
    requires (last.Beat? || last.Report? || last.Finish?) && last.worker == k && last.ok
    ensures Valid(cfg, s, steps + [last]) && NoStart(steps + [last])
    ensures !SlotOf(Exec(cfg, s, steps + [last]), job)
  {
    Then(cfg, s, steps, last);
    WritesOwnJob(Exec(cfg, s, steps).workers[k], last.stamp, cfg.hasScheduler);
  }

  /** What a displaced worker past its check does first, if it does not write yet. */
  function LeadUp(w: Worker, k: nat): seq<Step> {
    match w.pc
    case AtHead => [Head(k, true)]
    case Building => [Build(k, NO_CALL)]
    case _ => []
  }

  lemma LeadsUp(cfg: Config, s: State, k: nat, job: JobId)
    requires SlotOf(s, job) && k < |s.workers| && !Obeys(s.workers[k], job)
    ensures var steps := LeadUp(s.workers[k], k);
      Valid(cfg, s, steps) && NoStart(steps) && var s1 := Exec(cfg, s, steps);
      s1.now == s.now && k < |s1.workers| && s1.workers[k].beat == s.workers[k].beat &&
      s1.workers[k].progress == s.workers[k].progress &&
      (s1.workers[k].pc == Beating || s1.workers[k].pc == Reporting || s1.workers[k].pc == Closing)
  {
    var w := s.workers[k];
    if w.pc == AtHead {
      assert [] + [Head(k, true)] == [Head(k, true)];
      Then(cfg, s, [], Head(k, true));
      assert PastHead(w, s.slot) == w.(pc := Closing);
    } else if w.pc == Building {
      assert [] + [Build(k, NO_CALL)] == [Build(k, NO_CALL)];
      Then(cfg, s, [], Build(k, NO_CALL));
    }
  }

  lemma TakesBack(cfg: Config, s: State, k: nat, job: JobId) returns (steps: seq<Step>)
    requires SlotOf(s, job) && k < |s.workers| && !Obeys(s.workers[k], job) && s.workers[k].beat <= s.now
    ensures Valid(cfg, s, steps) && NoStart(steps) && !SlotOf(Exec(cfg, s, steps), job)
  {
    LeadsUp(cfg, s, k, job);
    steps := LeadUp(s.workers[k], k);
    var last := match Exec(cfg, s, steps).workers[k].pc
      case Beating => Beat(k, s.now, true)
      case Reporting => Report(k, s.now, true)
      case _ => Finish(k, s.now, true);
    WritesNow(cfg, s, steps, k, job, last);
    steps := steps + [last];
  }

  /** No heartbeat and no decision is of a later time than now. */
  predicate NothingAhead(s: State) {
    (forall k :: 0 <= k < |s.workers| ==> s.workers[k].beat <= s.now) &&
    (forall r :: 0 <= r < |s.locks| && s.locks[r].Starting? ==> s.locks[r].decidedAt <= s.now)
  }

  lemma {:induction false} ReachableNothingAhead(cfg: Config, steps: seq<Step>)
    requires Valid(cfg, Init(cfg), steps)
    ensures NothingAhead(Exec(cfg, Init(cfg), steps))
  {
    if steps != [] {
      var s, step := Exec(cfg, Init(cfg), steps[..|steps|-1]), steps[|steps|-1];
      ReachableNothingAhead(cfg, steps[..|steps|-1]);
      StepFrame(cfg, s, step);
    }
  }

  /** In every reachable state: a job that holds the slot keeps it through everything
      that may happen short of a new start exactly when every live worker of another
      job stands at its ownership check with builds left to make. */
  lemma TakeoverStandsIff(cfg: Config, run: seq<Step>, job: JobId)
    requires Valid(cfg, Init(cfg), run) && SlotOf(Exec(cfg, Init(cfg), run), job)
    ensures var s := Exec(cfg, Init(cfg), run);
      TakenOver(s, job) <==>
        forall steps :: Valid(cfg, s, steps) && NoStart(steps) ==> SlotOf(Exec(cfg, s, steps), job)
  {
    var s := Exec(cfg, Init(cfg), run);
    ReachableNothingAhead(cfg, run);
    if TakenOver(s, job) {
      forall steps | Valid(cfg, s, steps) && NoStart(steps)
        ensures SlotOf(Exec(cfg, s, steps), job)
      {
        Stands(cfg, s, steps, job);
      }
    } else {
      var k :| 0 <= k < |s.workers| && !Obeys(s.workers[k], job);
      var steps := TakesBack(cfg, s, k, job);
    }
  }
}
