/** Where a record comes from, under every interleaving: the record of one start,
    carried on by workers that each booted from what the one before wrote. */
module CatchUpLineage {
  import opened Wrappers
  import opened Drain
  import opened CatchUp
  import opened CatchUpRecords

  /** What a worker that booted after `n` writes found in the slot. */
  function Source(cfg: Config, log: seq<Entry>, n: nat): Option<Record>
    requires n <= |log|
  {
    if n == 0 then cfg.leftover else Some(log[n-1].rec)
  }

  /** Every identity was taken from the slot as it then was. */
  predicate Rooted(cfg: Config, s: State) {
    forall k :: 0 <= k < |s.workers| && s.workers[k].origin.Some? ==>
      var n := s.workers[k].origin.value;
      n <= |s.log| && Source(cfg, s.log, n) == Some(s.workers[k].base)
  }

  /** The entry was written by a worker that had booted, or by the POST that
      spawned a worker that has written nothing before. */
  predicate EntryLinked(s: State, i: nat)
    requires i < |s.log|
  {
    s.log[i].writer < |s.workers| && var w := s.workers[s.log[i].writer];
    match s.log[i]
    case Started(k, rec) => rec == w.start && forall j :: 0 <= j < i ==> s.log[j].writer < k
    case Wrote(_, _, _) => w.origin.Some? && w.origin.value <= i
  }

  predicate Linked(s: State) {
    forall i :: 0 <= i < |s.log| ==> EntryLinked(s, i)
  }

  predicate AllStartsFresh(s: State) {
    (forall k :: 0 <= k < |s.workers| ==> Fresh(s.workers[k].start)) &&
    (forall r :: 0 <= r < |s.locks| && s.locks[r].Starting? ==> Fresh(s.locks[r].rec))
  }

  lemma RootedKept(cfg: Config, s: State, step: Step)
    requires Rooted(cfg, s) && SlotIsLogged(cfg, s) && Replays(cfg, s) && Enabled(cfg, s, step)
    ensures Rooted(cfg, Apply(cfg, s, step))
  {
    var s' := Apply(cfg, s, step);
    StepExtends(cfg, s, step);
    StepAddsOne(cfg, s, step);
    forall k | 0 <= k < |s'.workers| && s'.workers[k].origin.Some?
      ensures s'.workers[k].origin.value <= |s'.log| &&
        Source(cfg, s'.log, s'.workers[k].origin.value) == Some(s'.workers[k].base)
    {
      if k < |s.workers| && s.workers[k].origin.Some? {
        assert WorkerReplays(cfg, s.workers[k]) && Extends(s.workers[k], s'.workers[k]);
        assert s.log <= s'.log;
      } else {
        TakesIdentity(cfg, s, step, k);
      }
    }
  }

  /** Only a worker that boots takes an identity, and finds it in the slot. */
  lemma TakesIdentity(cfg: Config, s: State, step: Step, k: nat)
    requires SlotIsLogged(cfg, s) && Enabled(cfg, s, step)
    requires var s' := Apply(cfg, s, step);
      k < |s'.workers| && s'.workers[k].origin.Some? && (k < |s.workers| ==> s.workers[k].origin.None?)
    ensures var s' := Apply(cfg, s, step);
      s'.log == s.log && s'.workers[k].origin == Some(|s.log|) && Source(cfg, s.log, |s.log|) == Some(s'.workers[k].base)
  {
  }

  lemma LinkedKept(cfg: Config, s: State, step: Step)
    requires Rooted(cfg, s) && Linked(s) && Replays(cfg, s) && Enabled(cfg, s, step)
    ensures Linked(Apply(cfg, s, step))
  {
    var s' := Apply(cfg, s, step);
    StepExtends(cfg, s, step);
    StepAddsOne(cfg, s, step);
    forall i | 0 <= i < |s'.log|
      ensures EntryLinked(s', i)
    {
      if i < |s.log| {
        assert s'.log[i] == s.log[i] && EntryLinked(s, i);
        assert Extends(s.workers[s.log[i].writer], s'.workers[s.log[i].writer]);
      } else {
        NewEntryLinked(cfg, s, step);
      }
    }
  }

  lemma NewEntryLinked(cfg: Config, s: State, step: Step)
    requires Rooted(cfg, s) && Linked(s) && Replays(cfg, s) && Enabled(cfg, s, step)
    requires |Apply(cfg, s, step).log| == |s.log| + 1
    ensures EntryLinked(Apply(cfg, s, step), |s.log|)
  {
    var s' := Apply(cfg, s, step);
    if step.Publish? {
      forall j | 0 <= j < |s.log|
        ensures s'.log[j].writer < |s.workers|
      {
        assert EntryLinked(s, j);
      }
    } else {
      assert WorkerReplays(cfg, s.workers[step.worker]);
    }
  }

  predicate Traced(cfg: Config, s: State) {
    WholeRecords(cfg, s) && Rooted(cfg, s) && Linked(s) && AllStartsFresh(s)
  }

  /** Every record of every run can be traced back. */
  lemma {:induction false} ReachableTraced(cfg: Config, steps: seq<Step>)
    requires Valid(cfg, Init(cfg), steps)
    ensures Traced(cfg, Exec(cfg, Init(cfg), steps))
  {
    EveryRecordIsWhole(cfg, steps);
    if steps != [] {
      var init, step := steps[..|steps|-1], steps[|steps|-1];
      var s := Exec(cfg, Init(cfg), init);
      ReachableTraced(cfg, init);
      RootedKept(cfg, s, step);
      LinkedKept(cfg, s, step);
      StartsFreshKept(cfg, s, step);
    }
  }

  lemma StateTraced(cfg: Config, s: State)
    requires Reachable(cfg, s)
    ensures Traced(cfg, s)
  {
    var steps :| Valid(cfg, Init(cfg), steps) && Exec(cfg, Init(cfg), steps) == s;
    ReachableTraced(cfg, steps);
  }

  lemma StartsFreshKept(cfg: Config, s: State, step: Step)
    requires AllStartsFresh(s) && Enabled(cfg, s, step)
    ensures AllStartsFresh(Apply(cfg, s, step))
  {
    var s' := Apply(cfg, s, step);
    StepFrame(cfg, s, step);
    StepExtends(cfg, s, step);
    forall k | 0 <= k < |s.workers|
      ensures Fresh(s'.workers[k].start)
    {
      assert Extends(s.workers[k], s'.workers[k]);
    }
  }

  // ---- the lineage of a record

  datatype Part = Part(writer: nat, made: nat)

  /** The workers a record passed through, the last one last, each with the calls it
      had made when it wrote. `n` is how many records had been written. */
  function Lineage(s: State, n: nat): seq<Part>
    requires Linked(s) && n <= |s.log|
  {
    if n == 0 then []
    else
      assert EntryLinked(s, n - 1);
      match s.log[n-1]
      case Started(_, _) => []
      case Wrote(k, made, _) => Lineage(s, s.workers[k].origin.value) + [Part(k, made)]
  }

  /** The record the lineage starts from: a start's, or what the slot first held. */
  function Root(cfg: Config, s: State, n: nat): Option<Record>
    requires Linked(s) && n <= |s.log|
  {
    if n == 0 then cfg.leftover
    else
      assert EntryLinked(s, n - 1);
      match s.log[n-1]
      case Started(_, rec) => Some(rec)
      case Wrote(k, _, _) => Root(cfg, s, s.workers[k].origin.value)
  }

  /** What a trigger's call makes of the counts it booted with. */
  function TriggerCounts(c: Counts, result: BuildResult): Counts {
    match result
    case Raised => c
    case Malformed(isReport) => if isReport then c.(builds := 1) else c
    case Built(s) => c.(builds := 1, documents := s.documentsNew)
  }

  /** What one worker makes of the counts it booted with. */
  function AfterPart(s: State, c: Counts, p: Part): Counts {
    if p.writer >= |s.workers| then c
    else
      var w := s.workers[p.writer];
      if w.trigger then TriggerCounts(c, w.pending.result) else Plus(c, Made(w, p.made))
  }

  /** What the first calls of a drain report. */
  function Made(w: Worker, made: nat): Counts {
    if made <= |w.calls| then Tally(w.calls[..made]) else ZERO
  }

  function AfterParts(s: State, c: Counts, parts: seq<Part>): Counts {
    if parts == [] then c else AfterPart(s, AfterParts(s, c, parts[..|parts|-1]), parts[|parts|-1])
  }

  /** The workers booted one after another, so that no two are the same, and all ran
      under one job. */
  predicate OneLine(s: State, parts: seq<Part>, job: JobId, n: nat) {
    (forall a :: 0 <= a < |parts| ==>
      parts[a].writer < |s.workers| && var w := s.workers[parts[a].writer];
      w.origin.Some? && w.origin.value < n && w.base.jobId == job && (!w.trigger ==> parts[a].made <= |w.calls|)) &&
    (forall a, b :: 0 <= a < b < |parts| ==> BootedBefore(s, parts[a], parts[b]))
  }

  predicate BootedBefore(s: State, p: Part, q: Part) {
    p.writer < |s.workers| && q.writer < |s.workers| &&
    s.workers[p.writer].origin.Some? && s.workers[q.writer].origin.Some? &&
    s.workers[p.writer].origin.value < s.workers[q.writer].origin.value
  }

  lemma PartCounts(s: State, p: Part, rec: Record)
    requires p.writer < |s.workers| && WrittenBy(s.workers[p.writer], p.made, rec)
    ensures var w := s.workers[p.writer];
      rec.jobId == w.base.jobId && (!w.trigger ==> p.made <= |w.calls|) &&
      rec.counts == AfterPart(s, w.base.counts, p)
  {
  }

  lemma AfterPartsSnoc(s: State, c: Counts, parts: seq<Part>, p: Part)
    ensures AfterParts(s, c, parts + [p]) == AfterPart(s, AfterParts(s, c, parts), p)
  {
    assert (parts + [p])[..|parts|] == parts;
  }

  lemma OneLineSnoc(s: State, parts: seq<Part>, job: JobId, n: nat, p: Part, m: nat)
    requires OneLine(s, parts, job, n) && p.writer < |s.workers| && n < m
    requires var w := s.workers[p.writer];
      w.origin == Some(n) && w.base.jobId == job && (!w.trigger ==> p.made <= |w.calls|)
    ensures OneLine(s, parts + [p], job, m)
  {
  }

  lemma {:induction false} LineageCounts(cfg: Config, s: State, n: nat)
    requires Traced(cfg, s) && n <= |s.log| && Source(cfg, s.log, n).Some?
    ensures var rec, root := Source(cfg, s.log, n).value, Root(cfg, s, n);
      root.Some? && rec.jobId == root.value.jobId && OneLine(s, Lineage(s, n), rec.jobId, n) &&
      rec.counts == AfterParts(s, root.value.counts, Lineage(s, n))
  {
    if n > 0 && s.log[n-1].Wrote? {
      var e := s.log[n-1];
      assert EntryLinked(s, n - 1);
      var w := s.workers[e.writer];
      var m := w.origin.value;
      assert Source(cfg, s.log, m) == Some(w.base);
      LineageCounts(cfg, s, m);
      var p := Part(e.writer, e.made);
      PartCounts(s, p, e.rec);
      OneLineSnoc(s, Lineage(s, m), w.base.jobId, m, p, n);
      AfterPartsSnoc(s, Root(cfg, s, n).value.counts, Lineage(s, m), p);
    }
  }

  // ---- records of drains alone

  predicate DrainsOnly(s: State, parts: seq<Part>) {
    forall a :: 0 <= a < |parts| ==> parts[a].writer < |s.workers| && !s.workers[parts[a].writer].trigger
  }

  /** The sum of what the workers' calls report. */
  function Tallies(s: State, parts: seq<Part>): Counts {
    if parts == [] then ZERO
    else
      var p, earlier := parts[|parts|-1], Tallies(s, parts[..|parts|-1]);
      if p.writer < |s.workers| then Plus(earlier, Made(s.workers[p.writer], p.made)) else earlier
  }

  lemma {:induction false} DrainsAdd(s: State, c: Counts, parts: seq<Part>)
    requires DrainsOnly(s, parts)
    ensures AfterParts(s, c, parts) == Plus(c, Tallies(s, parts))
  {
    if parts == [] {
      ZeroPlus(c);
    } else {
      var init, p := parts[..|parts|-1], parts[|parts|-1];
      DrainsAdd(s, c, init);
      assert p == parts[|parts|-1] && !s.workers[p.writer].trigger;
      PlusAssociative(c, Tallies(s, init), Made(s.workers[p.writer], p.made));
    }
  }

  lemma ZeroPlus(c: Counts)
    ensures Plus(c, ZERO) == c == Plus(ZERO, c)
  {
  }

  /** The record has the job of its root, and counts what the root does and then what
      each worker of its lineage made of that; through drains only, it counts their
      calls and nothing else. */
  predicate Accounted(cfg: Config, s: State, n: nat)
    requires Linked(s) && 0 < n <= |s.log|
  {
    var rec, root, parts := s.log[n-1].rec, Root(cfg, s, n), Lineage(s, n);
    root.Some? && rec.jobId == root.value.jobId && OneLine(s, parts, rec.jobId, n) &&
    rec.counts == AfterParts(s, root.value.counts, parts) &&
    (root != cfg.leftover ==> Fresh(root.value)) &&
    (DrainsOnly(s, parts) && Fresh(root.value) ==> rec.counts == Tallies(s, parts))
  }

  lemma RecordAccounted(cfg: Config, s: State, n: nat)
    requires Traced(cfg, s) && 0 < n <= |s.log|
    ensures Accounted(cfg, s, n)
  {
    LineageCounts(cfg, s, n);
    RootIsAStart(cfg, s, n);
    if DrainsOnly(s, Lineage(s, n)) && Fresh(Root(cfg, s, n).value) {
      DrainsAdd(s, Root(cfg, s, n).value.counts, Lineage(s, n));
      PlusZero(Root(cfg, s, n).value.counts, Tallies(s, Lineage(s, n)));
    }
  }

  /** In every run of any deployment, a record traced to a start through drains only
      counts from zero the calls of those drains, each taken once, all of one job:
      never a mix. */
  lemma DrainRecordsNeverMix(cfg: Config, s: State, n: nat)
    requires Reachable(cfg, s) && 0 < n <= |s.log|
    ensures Linked(s) && Accounted(cfg, s, n)
  {
    StateTraced(cfg, s);
    RecordAccounted(cfg, s, n);
  }

  /** A lineage starts from a start's record, which counts nothing, or from what an
      earlier process left. */
  lemma {:induction false} RootIsAStart(cfg: Config, s: State, n: nat)
    requires Traced(cfg, s) && n <= |s.log| && Root(cfg, s, n).Some?
    ensures Root(cfg, s, n) == cfg.leftover ||
      exists k :: 0 <= k < |s.workers| && Root(cfg, s, n) == Some(s.workers[k].start) && Fresh(s.workers[k].start)
  {
    if n > 0 {
      assert EntryLinked(s, n - 1);
      if s.log[n-1].Wrote? {
        RootIsAStart(cfg, s, s.workers[s.log[n-1].writer].origin.value);
      } else {
        assert Root(cfg, s, n) == Some(s.workers[s.log[n-1].writer].start);
      }
    }
  }

  // ---- records of triggers

  /** The record counts the trigger's own call, under its own job, and nothing else. */
  predicate OwnJobOnly(start: Record, result: BuildResult, rec: Record) {
    rec.jobId == start.jobId && rec.counts == TriggerCounts(ZERO, result)
  }

  /** The record says how the call ended, with the watermark if it reported one, and
      leaves everything but counts as it was. */
  predicate TriggerReports(base: Record, result: BuildResult, rec: Record) {
    (rec.status == Failed <==> result == Raised || result == Malformed(true)) &&
    (rec.status == Completed <==> result == Malformed(false) || result.Built?) &&
    (if result.Built? then IsWatermarkOf(rec.watermark, result.stats) else rec.watermark == base.watermark) &&
    rec.jobId == base.jobId && rec.snapshots == base.snapshots && rec.heartbeat == base.heartbeat &&
    rec.stopReason == base.stopReason
  }

  /** The counts a trigger leaves as it found them. */
  function Kept(c: Counts, result: BuildResult): Counts {
    match result
    case Raised => c
    case Malformed(isReport) => if isReport then c.(builds := 0) else c
    case Built(_) => c.(builds := 0, documents := 0)
  }

  /** The slot the worker booted from held a record of its own job that had counted
      nothing, as its start's does. */
  predicate BootedFromOwn(w: Worker) {
    w.base.jobId == w.start.jobId && w.base.counts == ZERO
  }

  lemma OwnJobIff(start: Record, base: Record, result: BuildResult)
    ensures OwnJobOnly(start, result, TriggerRecord(base, result)) <==>
      base.jobId == start.jobId && Kept(base.counts, result) == ZERO
  {
  }

  /** In every run of any deployment: a trigger's record is what its call makes of the
      record it booted from.  It counts its own job only exactly when that record was
      of its job and the counts it leaves alone were zero; and it would whatever the
      call returned exactly when it booted from its own uncounted record. */
  lemma TriggerCountsOwnIff(cfg: Config, s: State, i: nat)
    requires Reachable(cfg, s) && i < |s.log| && s.log[i].Wrote?
    requires s.log[i].writer < |s.workers| && s.workers[s.log[i].writer].trigger
    ensures var rec, w := s.log[i].rec, s.workers[s.log[i].writer];
      rec == TriggerRecord(w.base, w.pending.result) && TriggerReports(w.base, w.pending.result, rec) && Fresh(w.start) &&
      (OwnJobOnly(w.start, w.pending.result, rec) <==>
        w.base.jobId == w.start.jobId && Kept(w.base.counts, w.pending.result) == ZERO) &&
      (BootedFromOwn(w) <==> forall result :: OwnJobOnly(w.start, result, TriggerRecord(w.base, result)))
  {
    StateTraced(cfg, s);
    var w := s.workers[s.log[i].writer];
    assert WrittenBy(w, s.log[i].made, s.log[i].rec);
    OwnJobIff(w.start, w.base, w.pending.result);
    forall result
      ensures BootedFromOwn(w) ==> OwnJobOnly(w.start, result, TriggerRecord(w.base, result))
    {
      OwnJobIff(w.start, w.base, result);
    }
    OwnJobIff(w.start, w.base, Raised);
  }
}
