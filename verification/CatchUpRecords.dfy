/** What the slot holds, under every interleaving: whole records, each made by one
    worker from the record it booted from and its own calls. */
module CatchUpRecords {
  import opened Wrappers
  import opened Drain
  import opened CatchUp
  import opened CatchUpSafety

  /** The record was written whole by one worker.  A drain's is of the job it booted
      with, and has the counts it booted with plus its own first `made` calls; a
      trigger's is what its one call makes of the record it booted with. */
  predicate WrittenBy(w: Worker, made: nat, rec: Record) {
    w.origin.Some? && w.pc != Booting &&
    if w.trigger then w.pc == Gone && rec == TriggerRecord(w.base, w.pending.result)
    else CountsCalls(w.base, w.calls, made, rec) && CountersLe(rec, w.progress.rec)
  }

  /** `rec` is of the job of `base`, and counts what `base` does plus `made` calls. */
  predicate CountsCalls(base: Record, calls: seq<Call>, made: nat, rec: Record) {
    made <= |calls| && rec.jobId == base.jobId && rec.counts == Plus(base.counts, Tally(calls[..made]))
  }

  predicate WholeEntries(s: State) {
    forall i :: 0 <= i < |s.log| && s.log[i].Wrote? ==>
      s.log[i].writer < |s.workers| && WrittenBy(s.workers[s.log[i].writer], s.log[i].made, s.log[i].rec)
  }

  predicate SameWriter(a: Entry, b: Entry) {
    a.Wrote? && b.Wrote? && a.writer == b.writer
  }

  /** One worker's counters never decrease; a trigger writes only once. */
  predicate MonotoneEntries(s: State) {
    forall i, j :: 0 <= i < j < |s.log| && SameWriter(s.log[i], s.log[j]) ==>
      CountersLe(s.log[i].rec, s.log[j].rec) && s.log[i].writer < |s.workers| && !s.workers[s.log[i].writer].trigger
  }

  predicate SlotIsLogged(cfg: Config, s: State) {
    s.slot.None? || (s.log == [] && s.slot == cfg.leftover) || (s.log != [] && s.slot.value == s.log[|s.log|-1].rec)
  }

  predicate WorkerReplays(cfg: Config, w: Worker) {
    w.progress == Replay(w.base, w.calls, cfg.hasScheduler) &&
    (w.pc == Booting ==> w.calls == [] && w.origin.None?) &&
    (w.origin.None? ==> w.base == w.start && (w.pc == Booting || w.pc == Gone)) &&
    (w.trigger ==> w.calls == [] && w.pc != AtHead && w.pc != Beating && w.pc != Reporting)
  }

  predicate Replays(cfg: Config, s: State) {
    forall k :: 0 <= k < |s.workers| ==> WorkerReplays(cfg, s.workers[k])
  }

  predicate WholeRecords(cfg: Config, s: State) {
    Replays(cfg, s) && WholeEntries(s) && MonotoneEntries(s) && SlotIsLogged(cfg, s)
  }

  /** The worker whose step this is, if it is a worker's. */
  function Actor(step: Step): Option<nat> {
    match step
    case Boot(k, _) => Some(k)
    case Head(k, _) => Some(k)
    case Beat(k, _, _) => Some(k)
    case Build(k, _) => Some(k)
    case Report(k, _, _) => Some(k)
    case Finish(k, _, _) => Some(k)
    case Crash(k) => Some(k)
    case _ => None
  }

  lemma ReportedReplays(cfg: Config, w: Worker, stamp: Time)
    requires WorkerReplays(cfg, w) && w.pc == Reporting
    ensures WorkerReplays(cfg, Reported(w, stamp, cfg.hasScheduler))
  {
    var c := ReportedCall(w, stamp);
    assert (w.calls + [c])[..|w.calls|] == w.calls;
  }

  lemma ActorReplays(cfg: Config, s: State, step: Step, k: nat)
    requires Replays(cfg, s) && Enabled(cfg, s, step) && Actor(step) == Some(k)
    ensures WorkerReplays(cfg, Apply(cfg, s, step).workers[k])
  {
    var w := s.workers[k];
    assert WorkerReplays(cfg, w);
    if step.Report? {
      ReportedReplays(cfg, w, step.stamp);
    }
  }

  /** What a step leaves alone: the other workers, those that are gone, and each
      worker's kind, start, identity once booted, and calls so far. */
  predicate Extends(w: Worker, w': Worker) {
    w'.trigger == w.trigger && w'.start == w.start && w'.maxBuilds == w.maxBuilds && w.calls <= w'.calls &&
    (w.pc != Booting ==>
      w'.pc != Booting && w'.base == w.base && w'.origin == w.origin && CountersLe(w.progress.rec, w'.progress.rec)) &&
    (w.pc == Gone ==> w' == w)
  }

  lemma ActorExtends(cfg: Config, s: State, step: Step, k: nat)
    requires Enabled(cfg, s, step) && Actor(step) == Some(k)
    ensures Extends(s.workers[k], Apply(cfg, s, step).workers[k])
  {
    var w := s.workers[k];
    if step.Report? {
      TurnCounts(w.progress, ReportedCall(w, step.stamp), cfg.hasScheduler);
    }
  }

  lemma StepFrame(cfg: Config, s: State, step: Step)
    requires Enabled(cfg, s, step)
    ensures var s' := Apply(cfg, s, step);
      |s.workers| <= |s'.workers| &&
      forall k :: 0 <= k < |s.workers| && Actor(step) != Some(k) ==> s'.workers[k] == s.workers[k]
  {
  }

  lemma StepExtends(cfg: Config, s: State, step: Step)
    requires Enabled(cfg, s, step)
    ensures WorkersExtend(s, Apply(cfg, s, step))
  {
    StepFrame(cfg, s, step);
    if Actor(step).Some? {
      ActorExtends(cfg, s, step, Actor(step).value);
    }
  }

  lemma ReplaysKept(cfg: Config, s: State, step: Step)
    requires Replays(cfg, s) && Enabled(cfg, s, step)
    ensures Replays(cfg, Apply(cfg, s, step))
  {
    var s' := Apply(cfg, s, step);
    StepFrame(cfg, s, step);
    if Actor(step).Some? {
      ActorReplays(cfg, s, step, Actor(step).value);
    }
  }

  /** A record that counts what its writer has counted so far. */
  lemma WholeRecord(cfg: Config, w: Worker, rec: Record)
    requires WorkerReplays(cfg, w) && w.origin.Some? && !w.trigger
    requires rec.jobId == w.progress.rec.jobId && rec.counts == w.progress.rec.counts
    requires CountersLe(rec, w.progress.rec)
    ensures WrittenBy(w, |w.calls|, rec)
  {
    ReplayTotals(w.base, w.calls, cfg.hasScheduler);
    assert w.calls[..|w.calls|] == w.calls;
  }

  /** The record a report publishes counts the call it reports. */
  lemma ReportWhole(cfg: Config, w: Worker, stamp: Time)
    requires WorkerReplays(cfg, w) && w.pc == Reporting
    ensures var w', rec := Reported(w, stamp, cfg.hasScheduler), ReportRecord(w, stamp, cfg.hasScheduler);
      CountersLe(w.progress.rec, rec) && WrittenBy(w', |w.calls| + 1, rec)
  {
    ReportedReplays(cfg, w, stamp);
    ReportCounts(w.progress, ReportedCall(w, stamp), cfg.hasScheduler);
    WholeRecord(cfg, Reported(w, stamp, cfg.hasScheduler), ReportRecord(w, stamp, cfg.hasScheduler));
  }

  lemma ReportCounts(p: Progress, c: Call, hasScheduler: bool)
    ensures var rec, r := Around(p, c, hasScheduler)[1], AfterTurn(p, c, hasScheduler).rec;
      rec.counts == r.counts && rec.jobId == r.jobId && CountersLe(p.rec, rec) && CountersLe(rec, r)
  {
  }

  /** A step writes at most one record: a start's, or a whole one of its actor. */
  predicate AddsOne(s: State, s': State, step: Step) {
    s'.log == s.log ||
    (|s'.log| == |s.log| + 1 && s'.log[..|s.log|] == s.log && s'.slot == Some(s'.log[|s.log|].rec) &&
     var e := s'.log[|s.log|];
     match e
     case Started(k, rec) => step.Publish? && k == |s.workers| && |s'.workers| == |s.workers| + 1
     case Wrote(k, made, rec) =>
       Actor(step) == Some(k) && k < |s.workers| && k < |s'.workers| && WrittenBy(s'.workers[k], made, rec) &&
       Live(s.workers[k]) && s.workers[k].pc != Booting &&
       (!s.workers[k].trigger ==> CountersLe(s.workers[k].progress.rec, rec)))
  }

  lemma BeatAddsOne(cfg: Config, s: State, k: nat, stamp: Time, ok: bool)
    requires Replays(cfg, s) && Enabled(cfg, s, Beat(k, stamp, ok))
    ensures AddsOne(s, Apply(cfg, s, Beat(k, stamp, ok)), Beat(k, stamp, ok))
  {
    var w := s.workers[k];
    assert WorkerReplays(cfg, w);
    if !w.trigger {
      WholeRecord(cfg, w.(pc := Building, beat := stamp), Stamp(w.progress, stamp).rec);
    }
  }

  lemma ReportAddsOne(cfg: Config, s: State, k: nat, stamp: Time, ok: bool)
    requires Replays(cfg, s) && Enabled(cfg, s, Report(k, stamp, ok))
    ensures AddsOne(s, Apply(cfg, s, Report(k, stamp, ok)), Report(k, stamp, ok))
  {
    assert WorkerReplays(cfg, s.workers[k]);
    ReportWhole(cfg, s.workers[k], stamp);
  }

  lemma FinishAddsOne(cfg: Config, s: State, k: nat, stamp: Time, ok: bool)
    requires Replays(cfg, s) && Enabled(cfg, s, Finish(k, stamp, ok))
    ensures AddsOne(s, Apply(cfg, s, Finish(k, stamp, ok)), Finish(k, stamp, ok))
  {
    var w := s.workers[k];
    assert WorkerReplays(cfg, w);
    if !w.trigger {
      WholeRecord(cfg, w.(pc := Gone), FinalRecord(w, stamp));
    }
  }

  lemma StepAddsOne(cfg: Config, s: State, step: Step)
    requires Replays(cfg, s) && Enabled(cfg, s, step)
    ensures AddsOne(s, Apply(cfg, s, step), step)
  {
    match step
    case Beat(k, stamp, ok) => BeatAddsOne(cfg, s, k, stamp, ok);
    case Report(k, stamp, ok) => ReportAddsOne(cfg, s, k, stamp, ok);
    case Finish(k, stamp, ok) => FinishAddsOne(cfg, s, k, stamp, ok);
    case _ =>
  }

  /** All the workers of `s` live on in `s'`. */
  predicate WorkersExtend(s: State, s': State) {
    |s.workers| <= |s'.workers| && forall k :: 0 <= k < |s.workers| ==> Extends(s.workers[k], s'.workers[k])
  }

  lemma StillWritten(w: Worker, w': Worker, made: nat, rec: Record)
    requires WrittenBy(w, made, rec) && Extends(w, w')
    ensures WrittenBy(w', made, rec)
  {
    if !w.trigger {
      StillCounts(w.base, w.calls, w'.calls, made, rec);
    }
  }

  lemma StillCounts(base: Record, calls: seq<Call>, more: seq<Call>, made: nat, rec: Record)
    requires CountsCalls(base, calls, made, rec) && calls <= more
    ensures CountsCalls(base, more, made, rec)
  {
    SamePrefix(calls, more, made);
  }

  lemma SamePrefix<T>(xs: seq<T>, ys: seq<T>, n: nat)
    requires xs <= ys && n <= |xs|
    ensures ys[..n] == xs[..n]
  {
  }

  lemma EntriesKept(s: State, s': State, step: Step)
    requires WholeEntries(s) && WorkersExtend(s, s') && AddsOne(s, s', step)
    ensures WholeEntries(s')
  {
    forall i | 0 <= i < |s'.log| && s'.log[i].Wrote?
      ensures s'.log[i].writer < |s'.workers| && WrittenBy(s'.workers[s'.log[i].writer], s'.log[i].made, s'.log[i].rec)
    {
      if i < |s.log| {
        var e := s.log[i];
        assert s'.log[i] == e;
        StillWritten(s.workers[e.writer], s'.workers[e.writer], e.made, e.rec);
      }
    }
  }

  lemma MonotoneKept(s: State, s': State, step: Step)
    requires WholeEntries(s) && MonotoneEntries(s) && WorkersExtend(s, s') && AddsOne(s, s', step)
    ensures MonotoneEntries(s')
  {
    forall i, j | 0 <= i < j < |s'.log| && SameWriter(s'.log[i], s'.log[j])
      ensures CountersLe(s'.log[i].rec, s'.log[j].rec) &&
        s'.log[i].writer < |s'.workers| && !s'.workers[s'.log[i].writer].trigger
    {
      assert s'.log[i] == s.log[i];
      var k := s.log[i].writer;
      assert WrittenBy(s.workers[k], s.log[i].made, s.log[i].rec) && Extends(s.workers[k], s'.workers[k]);
      if j < |s.log| {
        assert s'.log[j] == s.log[j] && SameWriter(s.log[i], s.log[j]);
      }
    }
  }

  lemma SlotKept(cfg: Config, s: State, step: Step)
    requires SlotIsLogged(cfg, s) && Replays(cfg, s) && Enabled(cfg, s, step)
    ensures SlotIsLogged(cfg, Apply(cfg, s, step))
  {
    StepAddsOne(cfg, s, step);
  }

  /** Under every interleaving, whatever the circumstances: the slot holds the last
      record written; a drain's record counts what the drain booted with plus its
      own calls, a trigger's is what its call makes of the record it booted with;
      and one writer's counters never decrease. */
  lemma {:induction false} EveryRecordIsWhole(cfg: Config, steps: seq<Step>)
    requires Valid(cfg, Init(cfg), steps)
    ensures WholeRecords(cfg, Exec(cfg, Init(cfg), steps))
  {
    if steps != [] {
      var s, step := Exec(cfg, Init(cfg), steps[..|steps|-1]), steps[|steps|-1];
      EveryRecordIsWhole(cfg, steps[..|steps|-1]);
      ReplaysKept(cfg, s, step);
      StepExtends(cfg, s, step);
      StepAddsOne(cfg, s, step);
      EntriesKept(s, Apply(cfg, s, step), step);
      MonotoneKept(s, Apply(cfg, s, step), step);
      SlotKept(cfg, s, step);
    }
  }

  // ---- disciplined deployments: a record counts its writer's own work only

  /** Every worker is a drain, and runs from the record its own POST made. */
  predicate OwnBases(s: State) {
    forall k :: 0 <= k < |s.workers| ==>
      !s.workers[k].trigger && s.workers[k].base == s.workers[k].start && Fresh(s.workers[k].base)
  }

  lemma {:induction false} ReachableOwnBases(cfg: Config, steps: seq<Step>)
    requires Disciplined(cfg) && Valid(cfg, Init(cfg), steps)
    ensures OwnBases(Exec(cfg, Init(cfg), steps))
  {
    if steps != [] {
      var init := steps[..|steps|-1];
      var s, step := Exec(cfg, Init(cfg), init), steps[|steps|-1];
      ReachableOwnBases(cfg, init);
      ReachableExclusive(cfg, init);
      StepFrame(cfg, s, step);
      if step.Boot? {
        assert Owns(cfg, s, step.worker) && Identified(s, s.workers[step.worker]);
      }
    }
  }

  lemma FreshTally(s: State, i: nat)
    requires WholeEntries(s) && OwnBases(s) && i < |s.log| && s.log[i].Wrote?
    ensures var e := s.log[i];
      e.writer < |s.workers| && e.rec.jobId == s.workers[e.writer].start.jobId &&
      e.made <= |s.workers[e.writer].calls| &&
      e.rec.counts == Tally(s.workers[e.writer].calls[..e.made])
  {
    var w := s.workers[s.log[i].writer];
    assert WrittenBy(w, s.log[i].made, s.log[i].rec) && Fresh(w.base);
    PlusZero(w.base.counts, Tally(w.calls[..s.log[i].made]));
  }

  lemma PlusZero(a: Counts, b: Counts)
    requires a == ZERO
    ensures Plus(a, b) == b
  {
  }

  lemma OwnWorkOnly(cfg: Config, steps: seq<Step>, i: nat)
    requires Disciplined(cfg) && Valid(cfg, Init(cfg), steps)
    requires i < |Exec(cfg, Init(cfg), steps).log| && Exec(cfg, Init(cfg), steps).log[i].Wrote?
    ensures var s := Exec(cfg, Init(cfg), steps); var e := s.log[i];
      e.writer < |s.workers| && e.rec.jobId == s.workers[e.writer].start.jobId &&
      e.made <= |s.workers[e.writer].calls| &&
      e.rec.counts == Tally(s.workers[e.writer].calls[..e.made])
  {
    EveryRecordIsWhole(cfg, steps);
    ReachableOwnBases(cfg, steps);
    FreshTally(Exec(cfg, Init(cfg), steps), i);
  }
}
