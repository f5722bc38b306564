/** The catch-up protocol of api/routes.py as a step system: the two POST handlers
    behind a lock per replica, the shared slot, and the background workers they
    spawn.  Each step does one access to the slot; everything may happen between
    two steps that the configuration allows. */
module CatchUp {
  import opened Wrappers
  import opened Drain

  const SECOND: Time := 1_000_000
  const ZOMBIE_THRESHOLD: Time := 60 * SECOND

  /** The circumstances a deployment runs in. */
  datatype Config = Config(
    replicas: nat,
    leftover: Option<Record>, // what an earlier process left in the slot
    reliable: bool,           // reads and writes of the slot never fail
    force: bool,              // operators may pass force=true
    triggers: bool,           // POST /scheduler/trigger is used
    flush: bool,              // the admin reset may empty the store
    timely: bool,             // the two bounds below are kept
    gap: nat,                 // age a live drain's heartbeat may reach
    latency: nat,             // time from a handler's read to its decision
    hasScheduler: bool)

  datatype Request = PostCatchUp(maxBuilds: int, force: bool) | PostTrigger(job: string)

  /** The lock of one replica, with what its holder knows. */
  datatype Lock =
    | Free
    | Deciding(req: Request, seen: Option<Record>, readAt: Time)
    | Starting(req: Request, rec: Record, decidedAt: Time)

  datatype Pc = Booting | AtHead | Beating | Building | Reporting | Closing | Gone

  /** A background task: what it was told, the record its POST made, the one it took
      its identity from and how many were written by then, its progress and calls
      so far, and the last heartbeat written for it. */
  datatype Worker = Worker(
    trigger: bool,
    maxBuilds: int,
    pc: Pc,
    start: Record,
    base: Record,
    origin: Option<nat>,
    progress: Progress,
    calls: seq<Call>,
    pending: Call,
    beat: Time)

  /** The writes that reached the slot: by the POST that spawned a worker, and by
      the worker. */
  datatype Entry = Started(writer: nat, rec: Record) | Wrote(writer: nat, made: nat, rec: Record)

  datatype State = State(
    now: Time,
    slot: Option<Record>,
    locks: seq<Lock>,
    workers: seq<Worker>,
    log: seq<Entry>)

  /** `ok` says whether the slot access of the step takes effect. */
  datatype Step =
    | Read(replica: nat, req: Request, ok: bool)
    | Decide(replica: nat)
    | Publish(replica: nat, ok: bool)
    | Boot(worker: nat, ok: bool)
    | Head(worker: nat, ok: bool)
    | Beat(worker: nat, stamp: Time, ok: bool)
    | Build(worker: nat, call: Call)
    | Report(worker: nat, stamp: Time, ok: bool)
    | Finish(worker: nat, stamp: Time, ok: bool)
    | Crash(worker: nat)
    | Flush
    | Tick(to: Time)

  function Init(cfg: Config): State {
    State(0, cfg.leftover, seq(cfg.replicas, i => Free), [], [])
  }

  predicate Live(w: Worker) {
    w.pc != Gone
  }

  predicate LiveDrain(s: State, k: nat) {
    k < |s.workers| && Live(s.workers[k]) && !s.workers[k].trigger
  }

  // ---- the handlers

  /** Whether a POST that saw `seen` answers already_running. */
  predicate Refuses(req: Request, seen: Option<Record>, now: Time) {
    seen.Some? && seen.value.status == Running &&
    match req
    case PostCatchUp(_, force) =>
      !force && seen.value.heartbeat.Some? && now - seen.value.heartbeat.value <= ZOMBIE_THRESHOLD
    case PostTrigger(_) => true
  }

  /** The record a start writes.  A trigger's carries no heartbeat. */
  function StartRecord(req: Request, now: Time): Record {
    match req
    case PostCatchUp(_, _) =>
      Record(Running, CatchUpJob(now / SECOND), ZERO, 0, "", Some(now), None)
    case PostTrigger(job) =>
      Record(Running, TriggerJob(job, now / SECOND), ZERO, 0, "", None, None)
  }

  const NO_CALL := Call(Raised, false, false, 0, 0)

  function Spawn(req: Request, rec: Record, beat: Time): Worker {
    Worker(req.PostTrigger?, if req.PostCatchUp? then req.maxBuilds else 1, Booting, rec, rec, None, Begin(rec), [], NO_CALL, beat)
  }

  // ---- the workers

  /** What a trigger job leaves.  It reads only the new documents and the watermark
      of a report, so that an error report is a report like any other to it. */
  function TriggerRecord(r: Record, result: BuildResult): Record {
    match result
    case Raised => r.(status := Failed)
    case Malformed(isReport) =>
      if isReport then r.(counts := r.counts.(builds := 1), status := Failed) else r.(status := Completed)
    case Built(s) =>
      r.(counts := r.counts.(builds := 1, documents := s.documentsNew), watermark := Target(s), status := Completed)
  }

  function WithWorker(s: State, k: nat, w: Worker): State
    requires k < |s.workers|
  {
    s.(workers := s.workers[k := w])
  }

  function Write(s: State, e: Entry, ok: bool): State {
    if ok then s.(slot := Some(e.rec), log := s.log + [e]) else s
  }

  function Seen(s: State, ok: bool): Option<Record> {
    if ok then s.slot else None
  }

  /** The identity and progress are taken from the slot, whoever wrote it. */
  function Booted(w: Worker, seen: Option<Record>, written: nat): Worker {
    if seen.None? then w.(pc := Gone)
    else w.(base := seen.value, origin := Some(written), progress := Begin(seen.value), pc := if w.trigger then Building else AtHead)
  }

  function PastHead(w: Worker, seen: Option<Record>): Worker {
    if w.progress.rec.counts.builds >= w.maxBuilds then w.(pc := Closing)
    else if seen.Some? && seen.value.jobId == w.progress.rec.jobId then w.(pc := Beating)
    else w.(pc := Gone)
  }

  /** The call that a report is about, with the times of its two writes. */
  function ReportedCall(w: Worker, stamp: Time): Call {
    w.pending.(beatAt := w.beat, reportedAt := stamp)
  }

  function Reported(w: Worker, stamp: Time, hasScheduler: bool): Worker {
    var c := ReportedCall(w, stamp);
    var p := AfterTurn(w.progress, c, hasScheduler);
    w.(progress := p, calls := w.calls + [c], beat := stamp,
       pc := if Stops(c, p.rec.counts.errors) then Closing else AtHead)
  }

  function ReportRecord(w: Worker, stamp: Time, hasScheduler: bool): Record {
    Around(w.progress, ReportedCall(w, stamp), hasScheduler)[1]
  }

  function FinalRecord(w: Worker, stamp: Time): Record {
    if w.trigger then TriggerRecord(w.progress.rec, w.pending.result)
    else Close(w.progress, w.calls, w.maxBuilds, stamp).rec
  }

  // ---- the steps

  /** The bounds that make a stale heartbeat mean a dead task. */
  predicate Timely(cfg: Config, s: State, to: Time) {
    (forall k :: 0 <= k < |s.workers| && LiveDrain(s, k) ==> to - s.workers[k].beat <= cfg.gap) &&
    (forall r :: 0 <= r < |s.locks| ==>
      (s.locks[r].Deciding? ==> to - s.locks[r].readAt <= cfg.latency) &&
      (s.locks[r].Starting? ==> to - s.locks[r].decidedAt <= cfg.gap))
  }

  predicate At(s: State, k: nat, pc: Pc) {
    k < |s.workers| && s.workers[k].pc == pc
  }

  predicate Stampable(s: State, k: nat, stamp: Time) {
    k < |s.workers| && s.workers[k].beat <= stamp <= s.now
  }

  predicate Enabled(cfg: Config, s: State, step: Step) {
    match step
    case Read(r, req, ok) =>
      r < |s.locks| && s.locks[r].Free? && (ok || !cfg.reliable) &&
      (req.PostTrigger? ==> cfg.triggers) && (req.PostCatchUp? && req.force ==> cfg.force)
    case Decide(r) => r < |s.locks| && s.locks[r].Deciding?
    case Publish(r, ok) => r < |s.locks| && s.locks[r].Starting? && (ok || !cfg.reliable)
    case Boot(k, ok) => At(s, k, Booting) && (ok || !cfg.reliable)
    case Head(k, ok) => At(s, k, AtHead) && (ok || !cfg.reliable)
    case Beat(k, stamp, ok) => At(s, k, Beating) && Stampable(s, k, stamp) && (ok || !cfg.reliable)
    case Build(k, call) => At(s, k, Building)
    case Report(k, stamp, ok) => At(s, k, Reporting) && Stampable(s, k, stamp) && (ok || !cfg.reliable)
    case Finish(k, stamp, ok) => At(s, k, Closing) && Stampable(s, k, stamp) && (ok || !cfg.reliable)
    case Crash(k) => k < |s.workers| && Live(s.workers[k])
    case Flush => cfg.flush
    case Tick(to) => to > s.now && (cfg.timely ==> Timely(cfg, s, to))
  }

  function Apply(cfg: Config, s: State, step: Step): State
    requires Enabled(cfg, s, step)
  {
    match step
    case Read(r, req, ok) => s.(locks := s.locks[r := Deciding(req, Seen(s, ok), s.now)])
    case Decide(r) =>
      var l := s.locks[r];
      s.(locks := s.locks[r :=
        if Refuses(l.req, l.seen, s.now) then Free else Starting(l.req, StartRecord(l.req, s.now), s.now)])
    case Publish(r, ok) =>
      var l := s.locks[r];
      var s' := Write(s, Started(|s.workers|, l.rec), ok);
      s'.(locks := s.locks[r := Free], workers := s.workers + [Spawn(l.req, l.rec, l.decidedAt)])
    case Boot(k, ok) => WithWorker(s, k, Booted(s.workers[k], Seen(s, ok), |s.log|))
    case Head(k, ok) => WithWorker(s, k, PastHead(s.workers[k], Seen(s, ok)))
    case Beat(k, stamp, ok) =>
      var w := s.workers[k];
      Write(WithWorker(s, k, w.(pc := Building, beat := stamp)),
            Wrote(k, |w.calls|, Stamp(w.progress, stamp).rec), ok)
    case Build(k, call) =>
      var w := s.workers[k];
      WithWorker(s, k, w.(pending := call, pc := if w.trigger then Closing else Reporting))
    case Report(k, stamp, ok) =>
      var w := s.workers[k];
      Write(WithWorker(s, k, Reported(w, stamp, cfg.hasScheduler)),
            Wrote(k, |w.calls| + 1, ReportRecord(w, stamp, cfg.hasScheduler)), ok)
    case Finish(k, stamp, ok) =>
      var w := s.workers[k];
      Write(WithWorker(s, k, w.(pc := Gone)), Wrote(k, |w.calls|, FinalRecord(w, stamp)), ok)
    case Crash(k) => WithWorker(s, k, s.workers[k].(pc := Gone))
    case Flush => s.(slot := None)
    case Tick(to) => s.(now := to)
  }

  // ---- runs

  /** The steps can be taken one after another from `from`. */
  predicate Valid(cfg: Config, from: State, steps: seq<Step>)
    decreases |steps|, 0
  {
    steps == [] ||
    (Valid(cfg, from, steps[..|steps|-1]) &&
     Enabled(cfg, Exec(cfg, from, steps[..|steps|-1]), steps[|steps|-1]))
  }

  /** The state the steps lead to. */
  function Exec(cfg: Config, from: State, steps: seq<Step>): State
    requires Valid(cfg, from, steps)
    decreases |steps|, 1
  {
    if steps == [] then from
    else Apply(cfg, Exec(cfg, from, steps[..|steps|-1]), steps[|steps|-1])
  }

  /** Some run from the start leads to `s`. */
  ghost predicate Reachable(cfg: Config, s: State) {
    exists steps :: Valid(cfg, Init(cfg), steps) && Exec(cfg, Init(cfg), steps) == s
  }

  lemma Then(cfg: Config, from: State, steps: seq<Step>, step: Step)
    requires Valid(cfg, from, steps) && Enabled(cfg, Exec(cfg, from, steps), step)
    ensures Valid(cfg, from, steps + [step])
    ensures Exec(cfg, from, steps + [step]) == Apply(cfg, Exec(cfg, from, steps), step)
  {
    assert (steps + [step])[..|steps|] == steps;
  }
}
