/** Mutual exclusion of the catch-up drains: under a disciplined configuration at
    most one drain is ever live, it owns the slot, and every POST is refused. */
module CatchUpSafety {
  import opened Wrappers
  import opened Drain
  import opened CatchUp

  /** One replica, a reliable store, no force, no trigger jobs, no reset, and
      heartbeats and decisions quick enough for the zombie threshold. */
  predicate Disciplined(cfg: Config) {
    cfg.replicas == 1 && cfg.reliable && !cfg.force && !cfg.triggers && !cfg.flush &&
    cfg.timely && cfg.gap + cfg.latency <= ZOMBIE_THRESHOLD
  }

  predicate NoneLive(s: State) {
    forall k :: 0 <= k < |s.workers| ==> !Live(s.workers[k])
  }

  predicate AtMostOneLive(s: State) {
    forall i, j :: 0 <= i < |s.workers| && 0 <= j < |s.workers| && Live(s.workers[i]) && Live(s.workers[j]) ==> i == j
  }

  /** The live drain owns the slot: a running record, under its job, fresh. */
  predicate Owns(cfg: Config, s: State, k: nat)
    requires k < |s.workers|
  {
    var w := s.workers[k];
    s.slot.Some? && s.slot.value.status == Running && s.slot.value.heartbeat == Some(w.beat) &&
    s.now - w.beat <= cfg.gap
  }

  /** A booted drain runs under the slot's job; an unbooted one will. */
  predicate Identified(s: State, w: Worker)
    requires s.slot.Some?
  {
    !w.trigger &&
    (w.pc == Booting ==> s.slot.value == w.start && Fresh(w.start)) &&
    (w.pc != Booting ==> w.progress.rec.status == Running && w.progress.rec.jobId == s.slot.value.jobId)
  }

  predicate LockConsistent(cfg: Config, s: State)
    requires |s.locks| == 1
  {
    match s.locks[0]
    case Free => true
    case Deciding(req, seen, at) =>
      req.PostCatchUp? && !req.force && at <= s.now <= at + cfg.latency &&
      (NoneLive(s) || (seen.Some? && seen.value.status == Running && seen.value.heartbeat.Some? &&
                       at - seen.value.heartbeat.value <= cfg.gap))
    case Starting(req, rec, at) =>
      req.PostCatchUp? && NoneLive(s) && s.now - at <= cfg.gap &&
      rec.status == Running && rec.heartbeat == Some(at) && Fresh(rec)
  }

  predicate Exclusive(cfg: Config, s: State) {
    |s.locks| == 1 && AtMostOneLive(s) &&
    (forall k :: 0 <= k < |s.workers| && Live(s.workers[k]) ==> Owns(cfg, s, k) && Identified(s, s.workers[k])) &&
    LockConsistent(cfg, s)
  }

  lemma InitExclusive(cfg: Config)
    requires Disciplined(cfg)
    ensures Exclusive(cfg, Init(cfg))
  {
  }

  lemma HandlerStep(cfg: Config, s: State, step: Step)
    requires Disciplined(cfg) && Exclusive(cfg, s) && Enabled(cfg, s, step)
    requires step.Read? || step.Decide? || step.Publish?
    ensures Exclusive(cfg, Apply(cfg, s, step))
  {
    var s' := Apply(cfg, s, step);
    match step
    case Read(r, req, ok) =>
      assert s'.workers == s.workers && s'.slot == s.slot;
      if k :| 0 <= k < |s.workers| && Live(s.workers[k]) {
        assert Owns(cfg, s, k);
      }
    case Decide(r) =>
      assert s'.workers == s.workers && s'.slot == s.slot;
      DecideRefuses(cfg, s);
    case Publish(r, ok) =>
      assert NoneLive(s);
  }

  /** While a drain is live, whoever decides is told that one is running. */
  lemma DecideRefuses(cfg: Config, s: State)
    requires Disciplined(cfg) && Exclusive(cfg, s)
    ensures s.locks[0].Deciding? && !NoneLive(s) ==> Refuses(s.locks[0].req, s.locks[0].seen, s.now)
  {
  }

  lemma WorkerStep(cfg: Config, s: State, step: Step, k: nat)
    requires Disciplined(cfg) && Exclusive(cfg, s) && Enabled(cfg, s, step)
    requires match step
      case Boot(w, _) => w == k
      case Head(w, _) => w == k
      case Beat(w, _, _) => w == k
      case Build(w, _) => w == k
      case Report(w, _, _) => w == k
      case Finish(w, _, _) => w == k
      case Crash(w) => w == k
      case _ => false
    ensures Exclusive(cfg, Apply(cfg, s, step))
  {
    var s', w := Apply(cfg, s, step), s.workers[k];
    assert Live(w) && Owns(cfg, s, k) && Identified(s, w);
    assert s'.locks == s.locks && s'.now == s.now;
    assert forall i :: 0 <= i < |s'.workers| && i != k ==> s'.workers[i] == s.workers[i] && !Live(s.workers[i]);
    if step.Report? {
      TurnCounts(w.progress, ReportedCall(w, step.stamp), cfg.hasScheduler);
      AroundCounts(w.progress, ReportedCall(w, step.stamp), cfg.hasScheduler);
    }
    if NoneLive(s) { assert false; }
  }

  lemma ClockStep(cfg: Config, s: State, step: Step)
    requires Disciplined(cfg) && Exclusive(cfg, s) && Enabled(cfg, s, step)
    requires step.Tick? || step.Flush?
    ensures Exclusive(cfg, Apply(cfg, s, step))
  {
    var s' := Apply(cfg, s, step);
    assert s'.workers == s.workers && s'.slot == s.slot && s'.locks == s.locks;
    forall k | 0 <= k < |s.workers| && Live(s.workers[k])
      ensures Owns(cfg, s', k)
    {
      assert Owns(cfg, s, k) && LiveDrain(s, k);
    }
  }

  lemma {:induction false} ReachableExclusive(cfg: Config, steps: seq<Step>)
    requires Disciplined(cfg) && Valid(cfg, Init(cfg), steps)
    ensures Exclusive(cfg, Exec(cfg, Init(cfg), steps))
  {
    if steps == [] {
      InitExclusive(cfg);
    } else {
      var s, step := Exec(cfg, Init(cfg), steps[..|steps|-1]), steps[|steps|-1];
      ReachableExclusive(cfg, steps[..|steps|-1]);
      match step
      case Read(_, _, _) => HandlerStep(cfg, s, step);
      case Decide(_) => HandlerStep(cfg, s, step);
      case Publish(_, _) => HandlerStep(cfg, s, step);
      case Boot(k, _) => WorkerStep(cfg, s, step, k);
      case Head(k, _) => WorkerStep(cfg, s, step, k);
      case Beat(k, _, _) => WorkerStep(cfg, s, step, k);
      case Build(k, _) => WorkerStep(cfg, s, step, k);
      case Report(k, _, _) => WorkerStep(cfg, s, step, k);
      case Finish(k, _, _) => WorkerStep(cfg, s, step, k);
      case Crash(k) => WorkerStep(cfg, s, step, k);
      case Flush => ClockStep(cfg, s, step);
      case Tick(_) => ClockStep(cfg, s, step);
    }
  }

  /** In every reachable state at most one drain is live; it owns the slot, which is
      running under its job with a heartbeat no older than the bound; and every
      POST that comes to decide is answered already_running. */
  lemma SingleDrain(cfg: Config, steps: seq<Step>)
    requires Disciplined(cfg) && Valid(cfg, Init(cfg), steps)
    ensures var s := Exec(cfg, Init(cfg), steps);
      AtMostOneLive(s) && |s.locks| == 1 &&
      forall k: nat :: LiveDrain(s, k) ==>
        s.slot.Some? && s.slot.value.status == Running &&
        s.slot.value.heartbeat == Some(s.workers[k].beat) && s.now - s.workers[k].beat <= cfg.gap &&
        (s.workers[k].pc != Booting ==> s.slot.value.jobId == s.workers[k].progress.rec.jobId) &&
        !s.locks[0].Starting? &&
        (s.locks[0].Deciding? ==> Apply(cfg, s, Decide(0)).locks[0] == Free)
  {
    ReachableExclusive(cfg, steps);
    var s := Exec(cfg, Init(cfg), steps);
    DecideRefuses(cfg, s);
    forall k: nat | LiveDrain(s, k)
      ensures Owns(cfg, s, k) && Identified(s, s.workers[k]) && !NoneLive(s)
    {
    }
  }
}
