/** The background drain of api/routes.py: one build after another, progress
    published after each, until the backlog is idle, the build budget is spent,
    three builds have failed, or another job owns the shared slot.

    `Replay` says what a sequence of build calls does to the progress record.
    The loop `RunCatchUp` is proved against it, and the step system in
    CatchUp.dfy uses it for its workers. */
module Drain {
  import opened Wrappers

  const MAX_BUILD_ERRORS := 3

  /** Microseconds, the resolution of the timestamps in the source. */
  type Time = int

  datatype Status = Running | Completed | Failed

  datatype StopReason = TooManyErrors | MaxBuildsHit | NoNewWork

  /** Job identifiers carry a wall-clock time truncated to whole seconds. */
  datatype JobId = CatchUpJob(second: int) | TriggerJob(job: string, second: int)

  datatype Counts = Counts(builds: nat, documents: nat, pulled: nat, applications: nat, errors: nat)

  const ZERO := Counts(0, 0, 0, 0, 0)

  function Plus(a: Counts, b: Counts): Counts {
    Counts(a.builds + b.builds, a.documents + b.documents, a.pulled + b.pulled,
           a.applications + b.applications, a.errors + b.errors)
  }

  /** The progress record, as stored whole in the shared slot. */
  datatype Record = Record(
    status: Status,
    jobId: JobId,
    counts: Counts,
    snapshots: nat,
    watermark: string,
    heartbeat: Option<Time>,
    stopReason: Option<StopReason>)

  /** What a build reports.  An absent watermark is the empty string: the code
      treats both as false. */
  datatype Stats = Stats(
    documentsNew: nat,
    applicationsCreated: nat,
    documentsPulled: nat,
    watermarkFrom: string,
    watermarkTo: string)

  /** `Raised` is an exception or an error report; `Malformed` is a result that
      is not a report, or a report whose counts are not numbers: a drain notices it
      only after the build was counted as completed. */
  datatype BuildResult = Raised | Malformed(isReport: bool) | Built(stats: Stats)

  /** One build call as the drain meets it: its result, whether the snapshots it
      may lead to succeed (the one for a day the watermark has left, and the one
      after an idle build), and the clock before and after it. */
  datatype Call = Call(result: BuildResult, rollOk: bool, closeOk: bool, beatAt: Time, reportedAt: Time)

  datatype Progress = Progress(rec: Record, lastDate: string, attempts: seq<string>)

  function Target(s: Stats): string {
    if s.watermarkTo != "" then s.watermarkTo else s.watermarkFrom
  }

  predicate Advanced(s: Stats) {
    Target(s) != "" && s.watermarkFrom != "" && Target(s) != s.watermarkFrom
  }

  predicate Idle(s: Stats) {
    s.documentsPulled == 0 && s.applicationsCreated == 0 && !Advanced(s)
  }

  /** The part of a watermark before its first `T`. */
  function DatePart(w: string): string {
    if w == "" || w[0] == 'T' then "" else [w[0]] + DatePart(w[1..])
  }

  function SimDate(s: Stats): string {
    DatePart(Target(s))
  }

  lemma {:induction false} DatePartCuts(w: string)
    ensures var d := DatePart(w); d <= w && 'T' !in d && (d == w || w[|d|] == 'T')
  {
    if w != "" && w[0] != 'T' {
      DatePartCuts(w[1..]);
      assert w == [w[0]] + w[1..];
    }
  }

  // ---- a report read by its fields alone

  /** The build pulled or created something, or moved the watermark. */
  predicate FoundWork(s: Stats) {
    s.documentsPulled > 0 || s.applicationsCreated > 0 ||
    (s.watermarkTo != "" && s.watermarkFrom != "" && s.watermarkTo != s.watermarkFrom)
  }

  predicate IsWatermarkOf(w: string, s: Stats) {
    (s.watermarkTo != "" ==> w == s.watermarkTo) && (s.watermarkTo == "" ==> w == s.watermarkFrom)
  }

  /** `d` is the watermark up to its first `T`, or all of it. */
  predicate IsDayOf(d: string, s: Stats) {
    var w := if s.watermarkTo != "" then s.watermarkTo else s.watermarkFrom;
    d <= w && 'T' !in d && (d == w || w[|d|] == 'T')
  }

  lemma DayIsUnique(d: string, e: string, s: Stats)
    requires IsDayOf(d, s) && IsDayOf(e, s)
    ensures d == e
  {
    var w := if s.watermarkTo != "" then s.watermarkTo else s.watermarkFrom;
    assert forall i :: 0 <= i < |d| ==> d[i] != 'T' && d[i] == w[i];
    assert forall i :: 0 <= i < |e| ==> e[i] != 'T' && e[i] == w[i];
  }

  lemma SimDateIsDay(s: Stats)
    ensures IsDayOf(SimDate(s), s)
  {
    DatePartCuts(Target(s));
  }

  /** A build is idle exactly when it found no work. */
  lemma IdleIff(s: Stats)
    ensures Idle(s) <==> !FoundWork(s)
  {
  }

  /** Call `i` reported the day `d`. */
  predicate ReportsDay(calls: seq<Call>, i: nat, d: string) {
    i < |calls| && calls[i].result.Built? && IsDayOf(d, calls[i].result.stats) && d != ""
  }

  /** The dates of the calls are the days their reports name. */
  lemma {:induction false} DateIsDay(calls: seq<Call>, d: string) returns (i: nat)
    requires d in Dates(calls)
    ensures ReportsDay(calls, i, d)
  {
    var n := |calls| - 1;
    if d in Dates(calls[..n]) {
      i := DateIsDay(calls[..n], d);
    } else {
      i := n;
      DatesNonEmpty(calls);
      SimDateIsDay(calls[n].result.stats);
    }
  }

  lemma {:induction false} DayIsDate(calls: seq<Call>, i: nat, d: string)
    requires ReportsDay(calls, i, d)
    ensures d in Dates(calls)
  {
    var n := |calls| - 1;
    if i < n {
      DayIsDate(calls[..n], i, d);
    } else {
      SimDateIsDay(calls[n].result.stats);
      DayIsUnique(d, SimDate(calls[n].result.stats), calls[n].result.stats);
    }
  }

  /** No call after `i` reported. */
  predicate LastReport(calls: seq<Call>, i: nat) {
    i < |calls| && calls[i].result.Built? && forall j :: i < j < |calls| ==> !calls[j].result.Built?
  }

  /** The watermark is that of the last report, or the one begun with. */
  predicate LatestWatermark(calls: seq<Call>, start: string, w: string) {
    (w == start || exists i :: 0 <= i < |calls| && LastReport(calls, i)) &&
    forall i :: 0 <= i < |calls| && LastReport(calls, i) ==> IsWatermarkOf(w, calls[i].result.stats)
  }

  lemma {:induction false} WatermarkOfLast(calls: seq<Call>, start: string, i: nat)
    requires LastReport(calls, i)
    ensures IsWatermarkOf(LastWatermark(calls, start), calls[i].result.stats)
  {
    if i < |calls| - 1 {
      WatermarkOfLast(calls[..|calls|-1], start, i);
    }
  }

  lemma {:induction false} WatermarkKept(calls: seq<Call>, start: string) returns (i: nat)
    ensures LastWatermark(calls, start) == start || LastReport(calls, i)
  {
    i := 0;
    if calls != [] {
      if calls[|calls|-1].result.Built? {
        i := |calls| - 1;
      } else {
        i := WatermarkKept(calls[..|calls|-1], start);
      }
    }
  }

  lemma WatermarkIsLatest(calls: seq<Call>, start: string)
    ensures LatestWatermark(calls, start, LastWatermark(calls, start))
  {
    forall i | 0 <= i < |calls| && LastReport(calls, i)
      ensures IsWatermarkOf(LastWatermark(calls, start), calls[i].result.stats)
    {
      WatermarkOfLast(calls, start, i);
    }
    var i := WatermarkKept(calls, start);
  }

  /** All reports but the last found work. */
  predicate WorksOn(calls: seq<Call>) {
    forall i :: 0 <= i < |calls| - 1 && calls[i].result.Built? ==> FoundWork(calls[i].result.stats)
  }

  /** The last call reported that it found none. */
  predicate RanDry(calls: seq<Call>) {
    calls != [] && var last := calls[|calls|-1].result; last.Built? && !FoundWork(last.stats)
  }

  lemma WorksOnIff(calls: seq<Call>)
    ensures NoEarlyIdle(calls) <==> WorksOn(calls)
    ensures EndsIdle(calls) <==> RanDry(calls)
  {
    forall i | 0 <= i < |calls| && calls[i].result.Built?
      ensures Idle(calls[i].result.stats) <==> !FoundWork(calls[i].result.stats)
    {
      IdleIff(calls[i].result.stats);
    }
  }

  function Bit(b: bool): nat {
    if b then 1 else 0
  }

  predicate IsFailure(c: Call) {
    !c.result.Built?
  }

  predicate IsIdle(c: Call) {
    c.result.Built? && Idle(c.result.stats)
  }

  /** A call after which the drain leaves its loop. */
  predicate Stops(c: Call, errors: nat) {
    IsIdle(c) || (IsFailure(c) && errors >= MAX_BUILD_ERRORS)
  }

  function Snapshot(p: Progress, ok: bool): Progress {
    p.(attempts := p.attempts + [p.lastDate], rec := p.rec.(snapshots := p.rec.snapshots + Bit(ok)))
  }

  function AfterCall(p: Progress, c: Call, hasScheduler: bool): Progress {
    var k := p.rec.counts;
    match c.result
    case Raised =>
      p.(rec := p.rec.(counts := k.(errors := k.errors + 1)))
    case Malformed(_) =>
      p.(rec := p.rec.(counts := k.(builds := k.builds + 1, errors := k.errors + 1)))
    case Built(s) =>
      var k' := k.(
        builds := k.builds + 1,
        documents := k.documents + s.documentsNew,
        pulled := k.pulled + s.documentsPulled,
        applications := k.applications + s.applicationsCreated);
      var counted := p.(rec := p.rec.(counts := k', watermark := Target(s)));
      var date := SimDate(s);
      var rolled :=
        if date != "" && p.lastDate != "" && date != p.lastDate && hasScheduler
        then Snapshot(counted, c.rollOk) else counted;
      if date != "" then rolled.(lastDate := date) else rolled
  }

  /** The snapshot taken of the last day once a build was idle. */
  function AfterIdle(p: Progress, c: Call, hasScheduler: bool): Progress {
    if IsIdle(c) && p.lastDate != "" && hasScheduler then Snapshot(p, c.closeOk) else p
  }

  function Begin(base: Record): Progress {
    Progress(base, "", [])
  }

  function Stamp(p: Progress, t: Time): Progress {
    p.(rec := p.rec.(heartbeat := Some(t)))
  }

  /** One whole turn of the loop. */
  function AfterTurn(p: Progress, c: Call, hasScheduler: bool): Progress {
    Stamp(AfterIdle(AfterCall(p, c, hasScheduler), c, hasScheduler), c.reportedAt)
  }

  /** The two records published around a build call: the heartbeat before it, and
      its counts after it. */
  function Around(p: Progress, c: Call, hasScheduler: bool): seq<Record> {
    [Stamp(p, c.beatAt).rec, Stamp(AfterCall(p, c, hasScheduler), c.reportedAt).rec]
  }

  function Replay(base: Record, calls: seq<Call>, hasScheduler: bool): Progress {
    if calls == [] then Begin(base)
    else AfterTurn(Replay(base, calls[..|calls|-1], hasScheduler), calls[|calls|-1], hasScheduler)
  }

  /** Everything published while the calls were made. */
  function Publications(base: Record, calls: seq<Call>, hasScheduler: bool): seq<Record> {
    if calls == [] then []
    else
      var init := calls[..|calls|-1];
      Publications(base, init, hasScheduler) +
      Around(Replay(base, init, hasScheduler), calls[|calls|-1], hasScheduler)
  }

  /** How a drain that left its loop records why, in code order. */
  function WithReason(r: Record, c: Option<Call>, maxBuilds: int): Record {
    if c.Some? && IsFailure(c.value) && r.counts.errors >= MAX_BUILD_ERRORS then r.(stopReason := Some(TooManyErrors))
    else if r.stopReason.Some? then r
    else r.(stopReason := Some(if r.counts.builds >= maxBuilds then MaxBuildsHit else NoNewWork))
  }

  function LastOr<T>(xs: seq<T>, default: T): T {
    if xs == [] then default else xs[|xs|-1]
  }

  function Last<T>(xs: seq<T>): Option<T> {
    if xs == [] then None else Some(xs[|xs|-1])
  }

  // ---- what a run is meant to report

  /** What one call adds: a build that reported adds its report, one that raised
      adds an error, and a malformed one both a build and an error. */
  function Share(c: Call): Counts {
    match c.result
    case Raised => Counts(0, 0, 0, 0, 1)
    case Malformed(_) => Counts(1, 0, 0, 0, 1)
    case Built(s) => Counts(1, s.documentsNew, s.documentsPulled, s.applicationsCreated, 0)
  }

  function Tally(calls: seq<Call>): Counts {
    if calls == [] then ZERO else Plus(Tally(calls[..|calls|-1]), Share(calls[|calls|-1]))
  }

  function Failures(calls: seq<Call>): nat {
    if calls == [] then 0 else Failures(calls[..|calls|-1]) + Bit(IsFailure(calls[|calls|-1]))
  }

  predicate HasDate(c: Call) {
    c.result.Built? && SimDate(c.result.stats) != ""
  }

  /** The watermark dates of the builds that reported one, in order. */
  function Dates(calls: seq<Call>): seq<string> {
    if calls == [] then []
    else
      var c := calls[|calls|-1];
      var earlier := Dates(calls[..|calls|-1]);
      if HasDate(c) then earlier + [SimDate(c.result.stats)] else earlier
  }

  /** Adjacent repeats removed. */
  function Dedup(ds: seq<string>): (r: seq<string>)
    ensures ds != [] ==> r != [] && r[|r|-1] == ds[|ds|-1]
  {
    if |ds| <= 1 then ds
    else if ds[|ds|-1] == ds[|ds|-2] then Dedup(ds[..|ds|-1])
    else Dedup(ds[..|ds|-1]) + [ds[|ds|-1]]
  }

  /** All the days, or all but the last one. */
  function Days(ds: seq<string>, complete: bool): seq<string> {
    var days := Dedup(ds);
    if complete || days == [] then days else days[..|days|-1]
  }

  predicate CountsLe(a: Counts, b: Counts) {
    a.builds <= b.builds && a.documents <= b.documents && a.pulled <= b.pulled &&
    a.applications <= b.applications && a.errors <= b.errors
  }

  predicate CountersLe(a: Record, b: Record) {
    CountsLe(a.counts, b.counts) && a.snapshots <= b.snapshots
  }

  /** Same job, same status, same stop reason. */
  predicate SameRun(a: Record, b: Record) {
    a.jobId == b.jobId && a.status == b.status && a.stopReason == b.stopReason
  }

  lemma CallCounts(p: Progress, c: Call, hasScheduler: bool)
    ensures var r := AfterCall(p, c, hasScheduler).rec;
      SameRun(p.rec, r) && r.counts == Plus(p.rec.counts, Share(c)) && CountersLe(p.rec, r)
  {
  }

  lemma IdleCounts(p: Progress, c: Call, hasScheduler: bool)
    ensures var r := AfterIdle(p, c, hasScheduler).rec;
      SameRun(p.rec, r) && r.counts == p.rec.counts && CountersLe(p.rec, r)
  {
  }

  lemma TurnCounts(p: Progress, c: Call, hasScheduler: bool)
    ensures var r := AfterTurn(p, c, hasScheduler).rec;
      SameRun(p.rec, r) && r.counts == Plus(p.rec.counts, Share(c)) && CountersLe(p.rec, r)
  {
    CallCounts(p, c, hasScheduler);
    IdleCounts(AfterCall(p, c, hasScheduler), c, hasScheduler);
  }

  lemma AroundCounts(p: Progress, c: Call, hasScheduler: bool)
    ensures var a, r := Around(p, c, hasScheduler), AfterTurn(p, c, hasScheduler).rec;
      SameRun(p.rec, a[0]) && SameRun(p.rec, a[1]) &&
      CountersLe(p.rec, a[0]) && CountersLe(a[0], a[1]) && CountersLe(a[1], r)
  {
    CallCounts(p, c, hasScheduler);
    IdleCounts(AfterCall(p, c, hasScheduler), c, hasScheduler);
  }

  lemma {:induction false} ReplayTotals(base: Record, calls: seq<Call>, hasScheduler: bool)
    ensures var r := Replay(base, calls, hasScheduler).rec;
      SameRun(base, r) && r.counts == Plus(base.counts, Tally(calls)) && CountersLe(base, r)
    ensures Tally(calls).errors == Failures(calls)
  {
    if calls != [] {
      var init, c := calls[..|calls|-1], calls[|calls|-1];
      ReplayTotals(base, init, hasScheduler);
      TurnCounts(Replay(base, init, hasScheduler), c, hasScheduler);
    }
  }

  lemma {:induction false} ReplayMonotone(base: Record, calls: seq<Call>, n: nat, hasScheduler: bool)
    requires n <= |calls|
    ensures CountersLe(Replay(base, calls[..n], hasScheduler).rec, Replay(base, calls, hasScheduler).rec)
  {
    if n == |calls| {
      assert calls[..n] == calls;
    } else {
      var init := calls[..|calls|-1];
      assert init[..n] == calls[..n];
      ReplayMonotone(base, init, n, hasScheduler);
      TurnCounts(Replay(base, init, hasScheduler), calls[|calls|-1], hasScheduler);
    }
  }

  /** The counters one drain publishes never decrease, and every record it
      publishes while running keeps the job and status it began with. */
  lemma {:induction false} PublicationsMonotone(base: Record, calls: seq<Call>, hasScheduler: bool)
    ensures var all, r := Publications(base, calls, hasScheduler), Replay(base, calls, hasScheduler).rec;
      |all| == 2 * |calls| &&
      (forall i, j :: 0 <= i <= j < |all| ==> CountersLe(all[i], all[j])) &&
      (forall i :: 0 <= i < |all| ==> CountersLe(all[i], r) && SameRun(base, all[i]))
  {
    if calls != [] {
      var init, c := calls[..|calls|-1], calls[|calls|-1];
      PublicationsMonotone(base, init, hasScheduler);
      ReplayTotals(base, init, hasScheduler);
      var p := Replay(base, init, hasScheduler);
      TurnCounts(p, c, hasScheduler);
      AroundCounts(p, c, hasScheduler);
      GrowsByTwo(Publications(base, init, hasScheduler), p.rec, Around(p, c, hasScheduler),
                 Replay(base, calls, hasScheduler).rec);
    }
  }

  /** Around call `i` two records are published: stamped before it with what the
      earlier calls count, and stamped after it with its own share added. */
  lemma {:induction false} PublicationsCount(base: Record, calls: seq<Call>, hasScheduler: bool, i: nat)
    requires i < |calls|
    ensures var all := Publications(base, calls, hasScheduler);
      |all| == 2 * |calls| && PublishedAround(base, calls, i, all[2 * i], all[2 * i + 1])
  {
    var n := |calls| - 1;
    var init := calls[..n];
    PublicationsMonotone(base, calls, hasScheduler);
    PublicationsMonotone(base, init, hasScheduler);
    var all, earlier := Publications(base, calls, hasScheduler), Publications(base, init, hasScheduler);
    LastPublications(base, init, calls[n], hasScheduler);
    assert init + [calls[n]] == calls;
    if i < n {
      PublicationsCount(base, init, hasScheduler, i);
      StillAround(base, calls, n, i, earlier[2 * i], earlier[2 * i + 1]);
      assert all[2 * i] == earlier[2 * i] && all[2 * i + 1] == earlier[2 * i + 1];
    }
  }

  /** The records published around call `i`: stamps and counts. */
  predicate PublishedAround(base: Record, calls: seq<Call>, i: nat, before: Record, after: Record)
    requires i < |calls|
  {
    before.heartbeat == Some(calls[i].beatAt) && after.heartbeat == Some(calls[i].reportedAt) &&
    before.counts == Plus(base.counts, Tally(calls[..i])) && after.counts == Plus(base.counts, Tally(calls[..i + 1]))
  }

  lemma StillAround(base: Record, calls: seq<Call>, n: nat, i: nat, before: Record, after: Record)
    requires i < n <= |calls| && PublishedAround(base, calls[..n], i, before, after)
    ensures PublishedAround(base, calls, i, before, after)
  {
    assert calls[..n][..i] == calls[..i];
    assert calls[..n][..i + 1] == calls[..i + 1];
  }

  lemma LastPublications(base: Record, init: seq<Call>, c: Call, hasScheduler: bool)
    ensures var around := Around(Replay(base, init, hasScheduler), c, hasScheduler);
      Publications(base, init + [c], hasScheduler) == Publications(base, init, hasScheduler) + around &&
      PublishedAround(base, init + [c], |init|, around[0], around[1])
  {
    assert (init + [c])[..|init|] == init && (init + [c])[..|init| + 1] == init + [c];
    ReplayTotals(base, init, hasScheduler);
    AroundShares(Replay(base, init, hasScheduler), c, hasScheduler);
    PlusAssociative(base.counts, Tally(init), Share(c));
  }

  /** The record published after a report has its watermark, and counts the snapshot of
      the day left behind, if it was taken, but not yet the one an idle build leads to. */
  lemma PublishesFirst(p: Progress, c: Call, hasScheduler: bool, d: string)
    requires c.result.Built? && IsDayOf(d, c.result.stats)
    ensures var before, r := p.rec, Around(p, c, hasScheduler)[1];
      var left := d != "" && p.lastDate != "" && d != p.lastDate && hasScheduler;
      r.snapshots == before.snapshots + (if left && c.rollOk then 1 else 0) &&
      IsWatermarkOf(r.watermark, c.result.stats) && SameRun(before, r)
  {
    SimDateIsDay(c.result.stats);
    DayIsUnique(d, SimDate(c.result.stats), c.result.stats);
  }

  lemma AroundShares(p: Progress, c: Call, hasScheduler: bool)
    ensures var a := Around(p, c, hasScheduler);
      a[0].heartbeat == Some(c.beatAt) && a[0].counts == p.rec.counts &&
      a[1].heartbeat == Some(c.reportedAt) && a[1].counts == Plus(p.rec.counts, Share(c))
  {
  }

  lemma PlusAssociative(a: Counts, b: Counts, c: Counts)
    ensures Plus(Plus(a, b), c) == Plus(a, Plus(b, c))
  {
  }

  lemma GrowsByTwo(all: seq<Record>, p: Record, around: seq<Record>, r: Record)
    requires |around| == 2
    requires forall i, j :: 0 <= i <= j < |all| ==> CountersLe(all[i], all[j])
    requires forall i :: 0 <= i < |all| ==> CountersLe(all[i], p)
    requires CountersLe(p, around[0]) && CountersLe(around[0], around[1]) && CountersLe(around[1], r)
    ensures forall i, j :: 0 <= i <= j < |all + around| ==> CountersLe((all + around)[i], (all + around)[j])
    ensures forall i :: 0 <= i < |all + around| ==> CountersLe((all + around)[i], r)
  {
  }

  predicate NoEarlyIdle(calls: seq<Call>) {
    forall i :: 0 <= i < |calls| - 1 ==> !IsIdle(calls[i])
  }

  predicate EndsIdle(calls: seq<Call>) {
    calls != [] && IsIdle(calls[|calls|-1])
  }

  lemma {:induction false} ReplayDates(base: Record, calls: seq<Call>, hasScheduler: bool)
    requires NoEarlyIdle(calls)
    ensures var p := Replay(base, calls, hasScheduler);
      p.lastDate == LastOr(Dates(calls), "") &&
      p.attempts == if hasScheduler then Days(Dates(calls), EndsIdle(calls)) else []
  {
    if calls != [] {
      var init, c := calls[..|calls|-1], calls[|calls|-1];
      ReplayDates(base, init, hasScheduler);
      DatesNonEmpty(init);
      TurnDates(Replay(base, init, hasScheduler), c, hasScheduler);
      DaysStep(Dates(init), if HasDate(c) then SimDate(c.result.stats) else "", IsIdle(c));
    }
  }

  /** How the days attempted grow with the next date, if there is one. */
  lemma DaysStep(ds: seq<string>, d: string, idle: bool)
    requires "" !in ds
    ensures var all, last := if d != "" then ds + [d] else ds, LastOr(ds, "");
      var date := if d != "" then d else last;
      LastOr(all, "") == date &&
      Days(all, idle) == Days(ds, false) +
        (if last != "" && last != date then [last] else []) + (if idle && date != "" then [date] else [])
  {
    if d != "" {
      DaysSnoc(ds, d);
      assert ds != [] ==> LastOr(ds, "") in ds;
    } else {
      DaysComplete(ds);
      assert ds != [] ==> LastOr(ds, "") in ds;
    }
  }

  /** The watermark of the last build that reported, or the one begun with. */
  function LastWatermark(calls: seq<Call>, start: string): string {
    if calls == [] then start
    else
      var c := calls[|calls|-1];
      if c.result.Built? then Target(c.result.stats) else LastWatermark(calls[..|calls|-1], start)
  }

  /** Snapshots are counted when an attempt succeeds, and only then. */
  lemma {:induction false} ReplaySnapshots(base: Record, calls: seq<Call>, hasScheduler: bool)
    ensures var p := Replay(base, calls, hasScheduler);
      p.rec.watermark == LastWatermark(calls, base.watermark) &&
      base.snapshots <= p.rec.snapshots <= base.snapshots + |p.attempts| &&
      ((forall c :: c in calls ==> c.rollOk && c.closeOk) ==> p.rec.snapshots == base.snapshots + |p.attempts|) &&
      ((forall c :: c in calls ==> !c.rollOk && !c.closeOk) ==> p.rec.snapshots == base.snapshots)
  {
    if calls != [] {
      var init, c := calls[..|calls|-1], calls[|calls|-1];
      ReplaySnapshots(base, init, hasScheduler);
      TurnSnapshots(Replay(base, init, hasScheduler), c, hasScheduler);
      assert c in calls && forall d :: d in init ==> d in calls;
    }
  }

  lemma TurnSnapshots(p: Progress, c: Call, hasScheduler: bool)
    ensures var q := AfterTurn(p, c, hasScheduler);
      var tried, taken := |q.attempts| - |p.attempts|, q.rec.snapshots - p.rec.snapshots;
      0 <= taken <= tried && (c.rollOk && c.closeOk ==> taken == tried) && (!c.rollOk && !c.closeOk ==> taken == 0) &&
      q.rec.watermark == if c.result.Built? then Target(c.result.stats) else p.rec.watermark
  {
  }

  lemma TurnDates(p: Progress, c: Call, hasScheduler: bool)
    ensures var q, date := AfterTurn(p, c, hasScheduler), if HasDate(c) then SimDate(c.result.stats) else p.lastDate;
      q.lastDate == date &&
      q.attempts == p.attempts +
        (if hasScheduler && p.lastDate != "" && p.lastDate != date then [p.lastDate] else []) +
        (if hasScheduler && IsIdle(c) && date != "" then [date] else [])
  {
  }

  lemma DaysComplete(ds: seq<string>)
    ensures ds != [] ==> Days(ds, true) == Days(ds, false) + [LastOr(ds, "")]
    ensures ds == [] ==> Days(ds, true) == Days(ds, false) == []
  {
  }

  lemma DaysSnoc(ds: seq<string>, d: string)
    ensures Days(ds + [d], false) ==
      if LastOr(ds, d) == d then Days(ds, false) else Days(ds, false) + [LastOr(ds, d)]
    ensures Days(ds + [d], true) == Days(ds + [d], false) + [d]
  {
    var e := ds + [d];
    assert e[..|e|-1] == ds;
    if ds == [] {
      assert Days(ds, false) == [] == Days(e, false);
    }
    if ds != [] && ds[|ds|-1] != d {
      assert Dedup(e)[..|Dedup(e)|-1] == Dedup(ds);
      assert Dedup(ds) == Days(ds, false) + [ds[|ds|-1]];
    }
    assert Dedup(e) == Dedup(e)[..|Dedup(e)|-1] + [d];
  }

  lemma {:induction false} DatesNonEmpty(calls: seq<Call>)
    ensures "" !in Dates(calls)
  {
    if calls != [] {
      DatesNonEmpty(calls[..|calls|-1]);
    }
  }

  /** The days attempted are days reported, and after a dry report all of them. */
  lemma AttemptsAreDays(calls: seq<Call>, attempts: seq<string>, hasScheduler: bool)
    requires attempts == if hasScheduler then Days(Dates(calls), EndsIdle(calls)) else []
    ensures forall d :: d in attempts ==> exists i :: 0 <= i < |calls| && ReportsDay(calls, i, d)
    ensures hasScheduler && RanDry(calls) ==> forall i, d :: 0 <= i < |calls| && ReportsDay(calls, i, d) ==> d in attempts
  {
    WorksOnIff(calls);
    DedupMembers(Dates(calls));
    forall d | d in attempts
      ensures exists i :: 0 <= i < |calls| && ReportsDay(calls, i, d)
    {
      var i := DateIsDay(calls, d);
    }
    forall i, d | 0 <= i < |calls| && ReportsDay(calls, i, d)
      ensures d in Dates(calls)
    {
      DayIsDate(calls, i, d);
    }
  }

  /** The dates, read as days, never go back, and a day is written in one way. */
  predicate NeverBack(ds: seq<string>, day: string -> int) {
    forall i, j :: 0 <= i < j < |ds| ==> day(ds[i]) <= day(ds[j]) && (day(ds[i]) == day(ds[j]) ==> ds[i] == ds[j])
  }

  /** When the days of the watermarks never go back, the days attempted are
      strictly increasing: no day is attempted twice. */
  lemma {:induction false} EachDayOnce(ds: seq<string>, day: string -> int)
    requires NeverBack(ds, day)
    ensures forall i, j :: 0 <= i < j < |Dedup(ds)| ==> day(Dedup(ds)[i]) < day(Dedup(ds)[j])
    ensures forall d :: d in ds <==> d in Dedup(ds)
  {
    if |ds| > 1 {
      var init := ds[..|ds|-1];
      EachDayOnce(init, day);
      DedupMembers(ds);
      if ds[|ds|-1] != ds[|ds|-2] {
        var r := Dedup(init);
        assert day(ds[|ds|-2]) <= day(ds[|ds|-1]);
        assert r[|r|-1] == ds[|ds|-2];
        forall i | 0 <= i < |r|
          ensures day(r[i]) < day(ds[|ds|-1])
        {
          assert i < |r| - 1 ==> day(r[i]) < day(r[|r|-1]);
        }
      }
    }
  }

  /** So the days a drain snapshots are strictly increasing when the days reported
      never go back; none is attempted that was not reported, and after an idle
      stop none is missing. */
  lemma AttemptsIncrease(base: Record, calls: seq<Call>, hasScheduler: bool, day: string -> int)
    requires NoEarlyIdle(calls) && NeverBack(Dates(calls), day)
    ensures var attempts := Replay(base, calls, hasScheduler).attempts;
      (forall i, j :: 0 <= i < j < |attempts| ==> day(attempts[i]) < day(attempts[j])) &&
      (forall d :: d in attempts ==> d in Dates(calls)) &&
      (hasScheduler && EndsIdle(calls) ==> forall d :: d in Dates(calls) ==> d in attempts)
  {
    ReplayDates(base, calls, hasScheduler);
    EachDayOnce(Dates(calls), day);
  }

  lemma {:induction false} DedupMembers(ds: seq<string>)
    ensures forall d :: d in ds <==> d in Dedup(ds)
  {
    if |ds| > 1 {
      DedupMembers(ds[..|ds|-1]);
      assert ds == ds[..|ds|-1] + [ds[|ds|-1]];
    }
  }

  // ---- the loop

  /** A record as a start writes it. */
  predicate Fresh(r: Record) {
    r.counts == ZERO && r.snapshots == 0 && r.stopReason.None?
  }

  /** The most failures a drain records. */
  function ErrorLimit(base: Record): int {
    Max(base.counts.errors + 1, MAX_BUILD_ERRORS)
  }

  /** The most build calls a drain makes. */
  function CallBound(base: Record, maxBuilds: int): int {
    if maxBuilds <= base.counts.builds then 0
    else (maxBuilds - base.counts.builds) + (ErrorLimit(base) - base.counts.errors) - 1
  }

  /** Where the counters stand at the head of the loop. */
  predicate WithinBounds(base: Record, made: seq<Call>, r: Record, maxBuilds: int) {
    var stop := Stopped(made, r);
    base.counts.errors <= r.counts.errors <= ErrorLimit(base) &&
    (r.counts.errors == ErrorLimit(base) ==> stop && IsFailure(made[|made|-1])) &&
    base.counts.builds <= r.counts.builds <= Max(base.counts.builds, maxBuilds) &&
    |made| <= CallBound(base, maxBuilds) &&
    (!stop ==> |made| <= (r.counts.builds - base.counts.builds) + (r.counts.errors - base.counts.errors))
  }

  predicate Stopped(made: seq<Call>, r: Record) {
    made != [] && Stops(made[|made|-1], r.counts.errors)
  }

  /** The reason recorded says what ended the drain. */
  predicate FaithfulReason(reason: Option<StopReason>, failures: nat, budgetSpent: bool, ranDry: bool) {
    (reason == Some(TooManyErrors) <==> failures == 3) &&
    (reason == Some(MaxBuildsHit) <==> budgetSpent && failures < 3) &&
    (reason == Some(NoNewWork) <==> !budgetSpent && failures < 3) &&
    (reason == Some(NoNewWork) ==> ranDry)
  }

  /** A reason that was there before is kept, unless the drain ends with a third failure. */
  predicate KeepsReason(base: Record, made: seq<Call>, r: Record) {
    r.stopReason ==
      if made != [] && !made[|made|-1].result.Built? && r.counts.errors >= 3 then Some(TooManyErrors) else base.stopReason
  }

  lemma ReasonKept(base: Record, p: Progress, made: seq<Call>, maxBuilds: int, at: Time)
    requires base.stopReason.Some? && p.rec.stopReason == base.stopReason
    ensures KeepsReason(base, made, Close(p, made, maxBuilds, at).rec)
  {
  }

  /** The measure that ends the loop: a turn counts a build, an error or both. */
  predicate Progresses(a: Record, b: Record) {
    CountsLe(a.counts, b.counts) && a.counts.builds + a.counts.errors < b.counts.builds + b.counts.errors
  }

  lemma TurnBounds(base: Record, made: seq<Call>, p: Progress, c: Call, maxBuilds: int, hasScheduler: bool)
    requires WithinBounds(base, made, p.rec, maxBuilds) && !Stopped(made, p.rec) && p.rec.counts.builds < maxBuilds
    requires p == Replay(base, made, hasScheduler) && NoEarlyIdle(made)
    ensures var q := Replay(base, made + [c], hasScheduler);
      q == AfterTurn(p, c, hasScheduler) && WithinBounds(base, made + [c], q.rec, maxBuilds) &&
      Progresses(p.rec, q.rec) && NoEarlyIdle(made + [c]) &&
      (Stopped(made + [c], q.rec) <==> Stops(c, q.rec.counts.errors))
    ensures Publications(base, made + [c], hasScheduler) ==
      Publications(base, made, hasScheduler) + Around(p, c, hasScheduler)
  {
    TurnCounts(p, c, hasScheduler);
    assert (made + [c])[|made|] == c && (made + [c])[..|made|] == made;
  }

  lemma ReasonIsFaithful(p: Progress, calls: seq<Call>, maxBuilds: int, at: Time)
    requires p.rec.stopReason.None? && p.rec.counts.errors <= MAX_BUILD_ERRORS
    requires p.rec.counts.errors == MAX_BUILD_ERRORS ==> calls != [] && IsFailure(calls[|calls|-1])
    requires p.rec.counts.builds >= maxBuilds || Stopped(calls, p.rec)
    ensures FaithfulReason(Close(p, calls, maxBuilds, at).rec.stopReason, p.rec.counts.errors,
                           p.rec.counts.builds >= maxBuilds, RanDry(calls))
  {
    WorksOnIff(calls);
  }

  /** What a report does to the record: count it, snapshot the day the watermark
      has left, publish, and snapshot the last day too if the build was idle. */
  method TakeReport(start: Progress, c: Call, hasScheduler: bool)
    returns (p: Progress, published: Record)
    requires c.result.Built?
    ensures p == AfterTurn(start, c, hasScheduler)
    ensures published == Stamp(AfterCall(start, c, hasScheduler), c.reportedAt).rec
  {
    var s := c.result.stats;
    var state, lastDate, attempts := start.rec, start.lastDate, start.attempts;
    var wm := Target(s);
    var k := state.counts;
    k := k.(builds := k.builds + 1);
    k := k.(documents := k.documents + s.documentsNew);
    k := k.(pulled := k.pulled + s.documentsPulled);
    k := k.(applications := k.applications + s.applicationsCreated);
    state := state.(counts := k, watermark := wm);
    var simDate := DatePart(wm);
    if simDate != "" && lastDate != "" && simDate != lastDate && hasScheduler {
      attempts := attempts + [lastDate];
      if c.rollOk {
        state := state.(snapshots := state.snapshots + 1);
      }
    }
    lastDate := if simDate != "" then simDate else lastDate;
    state := state.(heartbeat := Some(c.reportedAt));
    published := state;
    if s.documentsPulled == 0 && s.applicationsCreated == 0 && !Advanced(s) {
      if lastDate != "" && hasScheduler {
        attempts := attempts + [lastDate];
        if c.closeOk {
          state := state.(snapshots := state.snapshots + 1);
        }
      }
    }
    p := Progress(state, lastDate, attempts);
  }

  /** What a failed build does to the record. */
  function TakeError(p: Progress, now: Time): Progress {
    var k := p.rec.counts;
    p.(rec := p.rec.(counts := k.(errors := k.errors + 1), heartbeat := Some(now)))
  }

  /** One turn of the loop past its ownership check: a heartbeat, the build call,
      the record published after it, and whether the drain stops here. */
  method RunOneBuild(start: Progress, c: Call, hasScheduler: bool)
    returns (p: Progress, published: seq<Record>, stop: bool)
    ensures p == AfterTurn(start, c, hasScheduler)
    ensures published == Around(start, c, hasScheduler)
    ensures stop <==> Stops(c, p.rec.counts.errors)
  {
    p := Stamp(start, c.beatAt);
    published := [p.rec];
    match c.result {
      case Built(s) =>
        var counted;
        p, counted := TakeReport(p, c, hasScheduler);
        published := published + [counted];
        stop := IsIdle(c);
      case Malformed(_) =>
        p := p.(rec := p.rec.(counts := p.rec.counts.(builds := p.rec.counts.builds + 1)));
        p := TakeError(p, c.reportedAt);
        published := published + [p.rec];
        stop := p.rec.counts.errors >= MAX_BUILD_ERRORS;
      case Raised =>
        p := TakeError(p, c.reportedAt);
        published := published + [p.rec];
        stop := p.rec.counts.errors >= MAX_BUILD_ERRORS;
    }
  }

  /** What ends the loop: the builds and the errors there is still room for. */
  function Left(base: Record, r: Record, maxBuilds: int): int {
    (maxBuilds - r.counts.builds) + (ErrorLimit(base) - r.counts.errors)
  }

  /** The invariant of the loop. */
  predicate Drained(base: Record, made: seq<Call>, p: Progress, published: seq<Record>, stop: bool, maxBuilds: int,
                    hasScheduler: bool)
  {
    p == Replay(base, made, hasScheduler) && published == Publications(base, made, hasScheduler) &&
    NoEarlyIdle(made) && WithinBounds(base, made, p.rec, maxBuilds) && (stop <==> Stopped(made, p.rec))
  }

  lemma TurnDrains(base: Record, made: seq<Call>, p: Progress, published: seq<Record>, c: Call, maxBuilds: int,
                   hasScheduler: bool)
    requires Drained(base, made, p, published, false, maxBuilds, hasScheduler) && p.rec.counts.builds < maxBuilds
    ensures var q := AfterTurn(p, c, hasScheduler);
      Drained(base, made + [c], q, published + Around(p, c, hasScheduler), Stops(c, q.rec.counts.errors), maxBuilds,
              hasScheduler) &&
      0 <= Left(base, q.rec, maxBuilds) < Left(base, p.rec, maxBuilds)
  {
    TurnBounds(base, made, p, c, maxBuilds, hasScheduler);
  }

  /** The loop itself. */
  method DrainBacklog(base: Record, maxBuilds: int, hasScheduler: bool, owned: nat -> bool, calls: nat -> Call)
    returns (p: Progress, made: seq<Call>, published: seq<Record>, displaced: bool)
    ensures forall i :: 0 <= i < |made| ==> made[i] == calls(i) && owned(i)
    ensures displaced ==> !owned(|made|)
    ensures p == Replay(base, made, hasScheduler)
    ensures published == Publications(base, made, hasScheduler)
    ensures NoEarlyIdle(made) && WithinBounds(base, made, p.rec, maxBuilds)
    ensures !displaced ==> p.rec.counts.builds >= maxBuilds || Stopped(made, p.rec)
    // In terms of the reports: it goes on as long as they found work
    ensures WorksOn(made)
    ensures !displaced && p.rec.counts.builds < maxBuilds ==>
      RanDry(made) || (p.rec.counts.errors >= 3 && made != [] && !made[|made|-1].result.Built?)
  {
    p := Begin(base);
    made, published := [], [];
    var stop := false;
    while p.rec.counts.builds < maxBuilds && !stop
      invariant Drained(base, made, p, published, stop, maxBuilds, hasScheduler)
      invariant forall i :: 0 <= i < |made| ==> made[i] == calls(i) && owned(i)
      decreases Left(base, p.rec, maxBuilds)
    {
      if !owned(|made|) {
        displaced := true;
        WorksOnIff(made);
        return;
      }
      var c := calls(|made|);
      TurnDrains(base, made, p, published, c, maxBuilds, hasScheduler);
      var around;
      p, around, stop := RunOneBuild(p, c, hasScheduler);
      published := published + around;
      made := made + [c];
    }
    displaced := false;
    WorksOnIff(made);
  }

  datatype Exit = Displaced | Finished

  /** `owned(i)` answers the i-th ownership check and `calls(i)` is the i-th
      build call; `closedAt` is the time of the last record. */
  method RunCatchUp(base: Record, maxBuilds: int, hasScheduler: bool,
                    owned: nat -> bool, calls: nat -> Call, closedAt: Time)
    returns (p: Progress, made: seq<Call>, published: seq<Record>, exit: Exit)
    // The calls made, and what they leave in the record
    ensures forall i :: 0 <= i < |made| ==> made[i] == calls(i) && owned(i)
    ensures exit.Displaced? ==> !owned(|made|)
    ensures p.rec.jobId == base.jobId && p.rec.counts == Plus(base.counts, Tally(made))
    ensures |made| <= CallBound(base, maxBuilds) && (Fresh(base) && maxBuilds > 0 ==> |made| <= maxBuilds + 2)
    ensures WorksOn(made)
    ensures p.rec.counts.builds <= Max(base.counts.builds, maxBuilds) && p.rec.counts.errors <= ErrorLimit(base)
    // The snapshots attempted: days of the reports, all of them after a dry one
    ensures forall d :: d in p.attempts ==> exists i :: 0 <= i < |made| && ReportsDay(made, i, d)
    ensures hasScheduler && RanDry(made) ==> forall i, d :: 0 <= i < |made| && ReportsDay(made, i, d) ==> d in p.attempts
    ensures p.attempts == if hasScheduler then Days(Dates(made), EndsIdle(made)) else []
    ensures base.snapshots <= p.rec.snapshots <= base.snapshots + |p.attempts|
    ensures LatestWatermark(made, base.watermark, p.rec.watermark)
    // The records published: two around each build and, unless displaced, the
    // record that ends the drain
    ensures exit.Displaced? ==> published == Publications(base, made, hasScheduler)
    ensures exit.Finished? ==> published == Publications(base, made, hasScheduler) + [p.rec]
    ensures exit.Finished? ==> p.rec.status == Completed && p.rec.heartbeat == Some(closedAt)
    ensures exit.Finished? && Fresh(base) ==>
      FaithfulReason(p.rec.stopReason, Failures(made), p.rec.counts.builds >= maxBuilds, RanDry(made))
    ensures exit.Finished? && base.stopReason.Some? ==> KeepsReason(base, made, p.rec)
  {
    var displaced;
    p, made, published, displaced := DrainBacklog(base, maxBuilds, hasScheduler, owned, calls);
    ReplayTotals(base, made, hasScheduler);
    ReplayDates(base, made, hasScheduler);
    ReplaySnapshots(base, made, hasScheduler);
    WatermarkIsLatest(made, base.watermark);
    AttemptsAreDays(made, p.attempts, hasScheduler);
    if displaced {
      exit := Displaced;
    } else {
      if Fresh(base) {
        ReasonIsFaithful(p, made, maxBuilds, closedAt);
      }
      if base.stopReason.Some? {
        ReasonKept(base, p, made, maxBuilds, closedAt);
      }
      p := Close(p, made, maxBuilds, closedAt);
      published := published + [p.rec];
      exit := Finished;
    }
  }

  /** The record that ends a drain. */
  function Close(p: Progress, calls: seq<Call>, maxBuilds: int, at: Time): (q: Progress)
    ensures q.attempts == p.attempts && q.rec.watermark == p.rec.watermark && CountersLe(p.rec, q.rec) && CountersLe(q.rec, p.rec) && q.rec.jobId == p.rec.jobId
  {
    Stamp(p.(rec := WithReason(p.rec, Last(calls), maxBuilds).(status := Completed)), at)
  }
}
