/** Every worker of the protocol is a run of the drain loop: under every
    interleaving it keeps the loop's bounds, and what it writes to a reliable store
    is what the loop publishes for its calls. */
module CatchUpWorkers {
  import opened Wrappers
  import opened Drain
  import opened CatchUp
  import opened CatchUpRecords

  /** Past its ownership check and before its report. */
  predicate InTurn(w: Worker) {
    w.pc == Beating || w.pc == Building || w.pc == Reporting
  }

  /** Out of the loop for a reason. */
  predicate Ended(w: Worker) {
    w.progress.rec.counts.builds >= w.maxBuilds || Stopped(w.calls, w.progress.rec)
  }

  /** The invariant of the loop, at every point of it. */
  predicate KeepsBounds(w: Worker) {
    NoEarlyIdle(w.calls) && WithinBounds(w.base, w.calls, w.progress.rec, w.maxBuilds) &&
    (w.pc == Booting || w.pc == AtHead || InTurn(w) ==> !Stopped(w.calls, w.progress.rec)) &&
    (InTurn(w) ==> w.progress.rec.counts.builds < w.maxBuilds) && (w.pc == Closing ==> Ended(w))
  }

  predicate AllKeepBounds(s: State) {
    forall k :: 0 <= k < |s.workers| && !s.workers[k].trigger ==> KeepsBounds(s.workers[k])
  }

  lemma BeginsInBounds(w: Worker)
    requires w.calls == [] && w.progress == Begin(w.base) && !InTurn(w) && w.pc != Closing
    ensures KeepsBounds(w)
  {
  }

  lemma ReportKeepsBounds(cfg: Config, w: Worker, stamp: Time)
    requires WorkerReplays(cfg, w) && KeepsBounds(w) && w.pc == Reporting
    ensures KeepsBounds(Reported(w, stamp, cfg.hasScheduler))
  {
    TurnKeepsBounds(cfg, w, ReportedCall(w, stamp), Reported(w, stamp, cfg.hasScheduler));
  }

  lemma TurnKeepsBounds(cfg: Config, w: Worker, c: Call, w': Worker)
    requires WorkerReplays(cfg, w) && KeepsBounds(w) && w.pc == Reporting
    requires w'.base == w.base && w'.maxBuilds == w.maxBuilds && w'.calls == w.calls + [c]
    requires w'.progress == AfterTurn(w.progress, c, cfg.hasScheduler)
    requires w'.pc == if Stops(c, w'.progress.rec.counts.errors) then Closing else AtHead
    ensures KeepsBounds(w')
  {
    TurnBounds(w.base, w.calls, w.progress, c, w.maxBuilds, cfg.hasScheduler);
  }

  lemma ActorKeepsBounds(cfg: Config, s: State, step: Step, k: nat)
    requires Replays(cfg, s) && AllKeepBounds(s)
    requires Enabled(cfg, s, step) && Actor(step) == Some(k) && !s.workers[k].trigger
    ensures KeepsBounds(Apply(cfg, s, step).workers[k])
  {
    var w := s.workers[k];
    assert WorkerReplays(cfg, w) && KeepsBounds(w);
    if step.Report? {
      ReportKeepsBounds(cfg, w, step.stamp);
    } else if step.Boot? {
      var seen := Seen(s, step.ok);
      if seen.Some? {
        BeginsInBounds(Booted(w, seen, |s.log|));
      }
    }
  }

  /** In every run of any deployment a drain makes no more calls than the loop
      does, none after one that stops it, and ends only with a reason. */
  lemma {:induction false} WorkersKeepBounds(cfg: Config, steps: seq<Step>)
    requires Valid(cfg, Init(cfg), steps)
    ensures AllKeepBounds(Exec(cfg, Init(cfg), steps))
  {
    if steps != [] {
      var s, step := Exec(cfg, Init(cfg), steps[..|steps|-1]), steps[|steps|-1];
      WorkersKeepBounds(cfg, steps[..|steps|-1]);
      EveryRecordIsWhole(cfg, steps[..|steps|-1]);
      var s' := Apply(cfg, s, step);
      StepFrame(cfg, s, step);
      if Actor(step).Some? {
        if !s.workers[Actor(step).value].trigger {
          ActorKeepsBounds(cfg, s, step, Actor(step).value);
        }
      } else if step.Publish? {
        BeginsInBounds(s'.workers[|s.workers|]);
      }
    }
  }

  /** A worker goes on only if what it read holds its own job; with its budget spent it
      ends; otherwise, also when it could read nothing, it leaves and writes nothing. */
  lemma ChecksIff(cfg: Config, s: State, k: nat, ok: bool)
    requires Enabled(cfg, s, Head(k, ok))
    ensures var s', w := Apply(cfg, s, Head(k, ok)), s.workers[k];
      var w' := s'.workers[k];
      var mine := ok && s.slot.Some? && s.slot.value.jobId == w.progress.rec.jobId;
      s' == s.(workers := s.workers[k := w']) && w' == w.(pc := w'.pc) &&
      (w'.pc == Closing <==> w.progress.rec.counts.builds >= w.maxBuilds) &&
      (w'.pc == Beating <==> w.progress.rec.counts.builds < w.maxBuilds && mine) &&
      (w'.pc == Gone <==> w.progress.rec.counts.builds < w.maxBuilds && !mine)
  {
  }

  // ---- the reason a drain records

  /** A reason recorded by a drain that began with none says what ended it. */
  predicate RecordsItsReason(w: Worker, made: nat, rec: Record) {
    !w.trigger && Fresh(w.base) && rec.stopReason.Some? ==>
      w.pc == Gone && made == |w.calls| && rec.status == Completed &&
      FaithfulReason(rec.stopReason, Failures(w.calls), rec.counts.builds >= w.maxBuilds, RanDry(w.calls))
  }

  predicate ReasonsRecorded(s: State) {
    forall i :: 0 <= i < |s.log| && s.log[i].Wrote? ==>
      s.log[i].writer < |s.workers| && RecordsItsReason(s.workers[s.log[i].writer], s.log[i].made, s.log[i].rec)
  }

  lemma FinalReason(cfg: Config, w: Worker, stamp: Time)
    requires WorkerReplays(cfg, w) && KeepsBounds(w) && w.pc == Closing && !w.trigger && Fresh(w.base)
    ensures RecordsItsReason(w.(pc := Gone), |w.calls|, FinalRecord(w, stamp))
  {
    CountsFailures(cfg, w);
    CloseCompletes(w.progress, w.calls, w.maxBuilds, stamp);
    ReasonIsFaithful(w.progress, w.calls, w.maxBuilds, stamp);
  }

  lemma CountsFailures(cfg: Config, w: Worker)
    requires WorkerReplays(cfg, w) && KeepsBounds(w) && Fresh(w.base)
    ensures var r := w.progress.rec;
      r.counts.errors == Failures(w.calls) <= MAX_BUILD_ERRORS && r.stopReason.None? &&
      (r.counts.errors == MAX_BUILD_ERRORS ==> w.calls != [] && IsFailure(w.calls[|w.calls|-1]))
  {
    ReplayTotals(w.base, w.calls, cfg.hasScheduler);
  }

  lemma CloseCompletes(p: Progress, calls: seq<Call>, maxBuilds: int, at: Time)
    ensures var r := Close(p, calls, maxBuilds, at).rec; r.status == Completed && r.counts == p.rec.counts
  {
  }

  lemma UnfinishedReason(cfg: Config, w: Worker, stamp: Time)
    requires WorkerReplays(cfg, w) && Fresh(w.base)
    ensures Stamp(w.progress, stamp).rec.stopReason.None?
    ensures ReportRecord(w, stamp, cfg.hasScheduler).stopReason.None?
  {
    ReplayTotals(w.base, w.calls, cfg.hasScheduler);
    AroundCounts(w.progress, ReportedCall(w, stamp), cfg.hasScheduler);
  }

  /** The entry a step adds records a reason only if it ends a drain. */
  lemma NewReason(cfg: Config, s: State, step: Step)
    requires Replays(cfg, s) && AllKeepBounds(s) && Enabled(cfg, s, step)
    ensures var s' := Apply(cfg, s, step);
      |s'.log| > |s.log| && s'.log[|s.log|].Wrote? ==>
        var e := s'.log[|s.log|];
        e.writer < |s'.workers| && RecordsItsReason(s'.workers[e.writer], e.made, e.rec)
  {
    if step.Beat? || step.Report? || step.Finish? {
      var w := s.workers[step.worker];
      assert WorkerReplays(cfg, w);
      if Fresh(w.base) && !w.trigger {
        if step.Finish? {
          FinalReason(cfg, w, step.stamp);
        } else {
          UnfinishedReason(cfg, w, step.stamp);
        }
      }
    }
  }

  /** In every run of any deployment: a drain that booted from a start's record
      records a stop reason only in its last record, and says what ended it. */
  lemma {:induction false} ReasonsAreFaithful(cfg: Config, steps: seq<Step>)
    requires Valid(cfg, Init(cfg), steps)
    ensures ReasonsRecorded(Exec(cfg, Init(cfg), steps))
  {
    if steps != [] {
      var init, step := steps[..|steps|-1], steps[|steps|-1];
      var s, s' := Exec(cfg, Init(cfg), init), Exec(cfg, Init(cfg), steps);
      ReasonsAreFaithful(cfg, init);
      EveryRecordIsWhole(cfg, init);
      WorkersKeepBounds(cfg, init);
      StepAddsOne(cfg, s, step);
      StepExtends(cfg, s, step);
      NewReason(cfg, s, step);
      forall i | 0 <= i < |s.log| && s'.log[i].Wrote?
        ensures s'.log[i].writer < |s'.workers| &&
          RecordsItsReason(s'.workers[s'.log[i].writer], s'.log[i].made, s'.log[i].rec)
      {
        var e := s.log[i];
        assert s'.log[i] == e && WrittenBy(s.workers[e.writer], e.made, e.rec);
        assert Extends(s.workers[e.writer], s'.workers[e.writer]);
      }
    }
  }

  // ---- what a worker writes

  /** The records of the log that worker `k` wrote. */
  function LogOf(log: seq<Entry>, k: nat): seq<Record> {
    if log == [] then []
    else
      var e, earlier := log[|log|-1], LogOf(log[..|log|-1], k);
      if e.Wrote? && e.writer == k then earlier + [e.rec] else earlier
  }

  lemma LogOfSnoc(log: seq<Entry>, e: Entry, k: nat)
    ensures LogOf(log + [e], k) == LogOf(log, k) + if e.Wrote? && e.writer == k then [e.rec] else []
  {
    assert (log + [e])[..|log|] == log;
  }

  /** What the loop publishes up to where the worker stands. */
  function Due(cfg: Config, w: Worker): seq<Record> {
    var all := Publications(w.base, w.calls, cfg.hasScheduler);
    if w.pc == Building || w.pc == Reporting then all + [Stamp(w.progress, w.beat).rec] else all
  }

  /** A record that may follow them: the heartbeat before a build that was lost, or
      the record that ends a drain that has a reason to end. */
  predicate MayFollow(w: Worker, last: Record) {
    last.heartbeat.Some? &&
    var at := last.heartbeat.value;
    last == Stamp(w.progress, at).rec || (Ended(w) && last == Close(w.progress, w.calls, w.maxBuilds, at).rec)
  }

  predicate WritesItsLoop(cfg: Config, w: Worker, written: seq<Record>) {
    var all := Publications(w.base, w.calls, cfg.hasScheduler);
    if Live(w) then written == Due(cfg, w)
    else written == all || (written != [] && written == all + [written[|written|-1]] && MayFollow(w, written[|written|-1]))
  }

  predicate AllWriteTheirLoop(cfg: Config, s: State) {
    forall k :: 0 <= k < |s.workers| && !s.workers[k].trigger ==> WritesItsLoop(cfg, s.workers[k], LogOf(s.log, k))
  }

  predicate NoStrayWrites(s: State) {
    forall i :: 0 <= i < |s.log| && s.log[i].Wrote? ==> s.log[i].writer < |s.workers|
  }

  lemma {:induction false} NobodysLog(log: seq<Entry>, k: nat)
    requires forall i :: 0 <= i < |log| && log[i].Wrote? ==> log[i].writer != k
    ensures LogOf(log, k) == []
  {
    if log != [] {
      NobodysLog(log[..|log|-1], k);
    }
  }

  /** The record that step of worker `w` writes, if the step writes. */
  function RecordOf(cfg: Config, w: Worker, step: Step): seq<Record> {
    match step
    case Beat(_, stamp, _) => [Stamp(w.progress, stamp).rec]
    case Report(_, stamp, _) => [ReportRecord(w, stamp, cfg.hasScheduler)]
    case Finish(_, stamp, _) => [FinalRecord(w, stamp)]
    case _ => []
  }

  lemma ActorLog(cfg: Config, s: State, step: Step, k: nat)
    requires cfg.reliable && Enabled(cfg, s, step) && Actor(step) == Some(k)
    ensures LogOf(Apply(cfg, s, step).log, k) == LogOf(s.log, k) + RecordOf(cfg, s.workers[k], step)
  {
    match step
    case Beat(_, stamp, _) =>
      LogOfSnoc(s.log, Wrote(k, |s.workers[k].calls|, Stamp(s.workers[k].progress, stamp).rec), k);
    case Report(_, stamp, _) =>
      LogOfSnoc(s.log, Wrote(k, |s.workers[k].calls| + 1, ReportRecord(s.workers[k], stamp, cfg.hasScheduler)), k);
    case Finish(_, stamp, _) =>
      LogOfSnoc(s.log, Wrote(k, |s.workers[k].calls|, FinalRecord(s.workers[k], stamp)), k);
    case _ =>
  }

  lemma ReportWrites(cfg: Config, w: Worker, stamp: Time, written: seq<Record>)
    requires WorkerReplays(cfg, w) && w.pc == Reporting && WritesItsLoop(cfg, w, written)
    ensures WritesItsLoop(cfg, Reported(w, stamp, cfg.hasScheduler), written + [ReportRecord(w, stamp, cfg.hasScheduler)])
  {
    var c, before := ReportedCall(w, stamp), Publications(w.base, w.calls, cfg.hasScheduler);
    LastPublications(w.base, w.calls, c, cfg.hasScheduler);
    AroundStarts(w.progress, c, cfg.hasScheduler);
    assert before + [Stamp(w.progress, w.beat).rec] + [ReportRecord(w, stamp, cfg.hasScheduler)] ==
      before + Around(w.progress, c, cfg.hasScheduler);
  }

  lemma AroundStarts(p: Progress, c: Call, hasScheduler: bool)
    ensures var around := Around(p, c, hasScheduler); around == [Stamp(p, c.beatAt).rec] + [around[1]]
  {
  }

  /** A worker's own step adds to its log what the loop publishes next. */
  lemma ActorWrites(cfg: Config, s: State, step: Step, k: nat)
    requires cfg.reliable && Replays(cfg, s) && AllKeepBounds(s)
    requires Enabled(cfg, s, step) && Actor(step) == Some(k) && !s.workers[k].trigger
    requires WritesItsLoop(cfg, s.workers[k], LogOf(s.log, k))
    ensures var s' := Apply(cfg, s, step); WritesItsLoop(cfg, s'.workers[k], LogOf(s'.log, k))
  {
    var w := s.workers[k];
    assert WorkerReplays(cfg, w) && KeepsBounds(w);
    ActorLog(cfg, s, step, k);
    match step
    case Report(_, stamp, _) => ReportWrites(cfg, w, stamp, LogOf(s.log, k));
    case Beat(_, stamp, _) => BeatWrites(cfg, w, stamp, LogOf(s.log, k));
    case Finish(_, stamp, _) => FinishWrites(cfg, w, stamp, LogOf(s.log, k));
    case Boot(_, ok) => BootWrites(cfg, w, Seen(s, ok), |s.log|, LogOf(s.log, k));
    case Head(_, ok) => HeadWrites(cfg, w, Seen(s, ok), LogOf(s.log, k));
    case Build(_, call) => BuildWrites(cfg, w, call, LogOf(s.log, k));
    case Crash(_) => CrashWrites(cfg, w, LogOf(s.log, k));
  }

  lemma BeatWrites(cfg: Config, w: Worker, stamp: Time, written: seq<Record>)
    requires w.pc == Beating && WritesItsLoop(cfg, w, written)
    ensures WritesItsLoop(cfg, w.(pc := Building, beat := stamp), written + [Stamp(w.progress, stamp).rec])
  {
  }

  lemma FinishWrites(cfg: Config, w: Worker, stamp: Time, written: seq<Record>)
    requires !w.trigger && w.pc == Closing && Ended(w) && WritesItsLoop(cfg, w, written)
    ensures WritesItsLoop(cfg, w.(pc := Gone), written + [FinalRecord(w, stamp)])
  {
  }

  lemma BootWrites(cfg: Config, w: Worker, seen: Option<Record>, at: nat, written: seq<Record>)
    requires !w.trigger && w.pc == Booting && w.calls == [] && WritesItsLoop(cfg, w, written)
    ensures WritesItsLoop(cfg, Booted(w, seen, at), written)
  {
  }

  lemma HeadWrites(cfg: Config, w: Worker, seen: Option<Record>, written: seq<Record>)
    requires w.pc == AtHead && WritesItsLoop(cfg, w, written)
    ensures WritesItsLoop(cfg, PastHead(w, seen), written)
  {
  }

  lemma BuildWrites(cfg: Config, w: Worker, call: Call, written: seq<Record>)
    requires w.pc == Building && WritesItsLoop(cfg, w, written)
    ensures WritesItsLoop(cfg, w.(pending := call, pc := Reporting), written)
  {
  }

  lemma CrashWrites(cfg: Config, w: Worker, written: seq<Record>)
    requires Live(w) && WritesItsLoop(cfg, w, written)
    ensures WritesItsLoop(cfg, w.(pc := Gone), written)
  {
  }

  lemma OthersLog(s: State, s': State, step: Step, k: nat)
    requires AddsOne(s, s', step) && Actor(step) != Some(k)
    ensures LogOf(s'.log, k) == LogOf(s.log, k)
  {
    if s'.log != s.log {
      assert s'.log == s.log + [s'.log[|s.log|]];
      LogOfSnoc(s.log, s'.log[|s.log|], k);
    }
  }

  lemma StepWrites(cfg: Config, s: State, step: Step, k: nat)
    requires cfg.reliable && Replays(cfg, s) && AllKeepBounds(s) && Enabled(cfg, s, step)
    requires AllWriteTheirLoop(cfg, s) && NoStrayWrites(s)
    requires var s' := Apply(cfg, s, step); k < |s'.workers| && !s'.workers[k].trigger
    ensures var s' := Apply(cfg, s, step); WritesItsLoop(cfg, s'.workers[k], LogOf(s'.log, k))
  {
    if Actor(step) == Some(k) {
      ActorWrites(cfg, s, step, k);
    } else {
      StepAddsOne(cfg, s, step);
      StepFrame(cfg, s, step);
      OthersLog(s, Apply(cfg, s, step), step, k);
      if k == |s.workers| {
        NobodysLog(s.log, k);
      }
    }
  }

  lemma NoStrayStep(cfg: Config, s: State, step: Step)
    requires Replays(cfg, s) && NoStrayWrites(s) && Enabled(cfg, s, step)
    ensures NoStrayWrites(Apply(cfg, s, step))
  {
    StepAddsOne(cfg, s, step);
    StepFrame(cfg, s, step);
  }

  /** With a reliable store, in every run, the records a drain wrote are those the
      loop publishes for its calls, in order; only the record that ends it, or
      the heartbeat before a build lost in a crash, may follow. */
  lemma {:induction false} WorkersWriteTheirLoop(cfg: Config, steps: seq<Step>)
    requires cfg.reliable && Valid(cfg, Init(cfg), steps)
    ensures var s := Exec(cfg, Init(cfg), steps); AllWriteTheirLoop(cfg, s) && NoStrayWrites(s)
  {
    if steps != [] {
      var init, step := steps[..|steps|-1], steps[|steps|-1];
      var s, s' := Exec(cfg, Init(cfg), init), Exec(cfg, Init(cfg), steps);
      WorkersWriteTheirLoop(cfg, init);
      EveryRecordIsWhole(cfg, init);
      WorkersKeepBounds(cfg, init);
      NoStrayStep(cfg, s, step);
      forall k | 0 <= k < |s'.workers| && !s'.workers[k].trigger
        ensures WritesItsLoop(cfg, s'.workers[k], LogOf(s'.log, k))
      {
        StepWrites(cfg, s, step, k);
      }
    }
  }
}
