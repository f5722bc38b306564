/** Who is let in.  Every start, in every run of any deployment, goes back to a POST
    whose own reading of the slot allowed it. */
module CatchUpStarts {
  import opened Wrappers
  import opened Drain
  import opened CatchUp
  import opened CatchUpRecords
  import opened CatchUpLineage

  /** A POST that saw no running record may start.  A catch-up may also when forced, or
      when the record has no heartbeat or one more than 60 seconds old. */
  predicate MayStart(req: Request, seen: Option<Record>, now: Time) {
    seen.None? || seen.value.status != Running ||
    (req.PostCatchUp? &&
     (req.force || seen.value.heartbeat.None? || now - seen.value.heartbeat.value > 60_000_000))
  }

  /** What a start made at `at` writes: nothing counted, the id of its second, and a
      heartbeat only if it is a drain's. */
  predicate IsStartOf(rec: Record, req: Request, at: Time) {
    rec.status == Running && rec.counts == Counts(0, 0, 0, 0, 0) && rec.snapshots == 0 && rec.watermark == "" &&
    rec.stopReason == None &&
    match req
    case PostCatchUp(_, _) => rec.jobId == CatchUpJob(at / 1_000_000) && rec.heartbeat == Some(at)
    case PostTrigger(job) => rec.jobId == TriggerJob(job, at / 1_000_000) && rec.heartbeat == None
  }

  /** A decision starts exactly what it may, and touches nothing but its lock; a trigger
      is let in exactly when the record it read was not running. */
  lemma DecidesIff(cfg: Config, s: State, r: nat)
    requires Enabled(cfg, s, Decide(r))
    ensures var s' := Apply(cfg, s, Decide(r));
      var l, l' := s.locks[r], s'.locks[r];
      s' == s.(locks := s.locks[r := l']) &&
      (if MayStart(l.req, l.seen, s.now) then l'.Starting? && l'.req == l.req && l'.decidedAt == s.now && IsStartOf(l'.rec, l.req, s.now)
       else l' == Free) &&
      (l.req.PostTrigger? ==> (l' == Free <==> l.seen.Some? && l.seen.value.status == Running))
  {
  }

  // ---- the history of a start

  lemma {:induction false} ValidPrefix(cfg: Config, steps: seq<Step>, n: nat)
    requires Valid(cfg, Init(cfg), steps) && n <= |steps|
    ensures Valid(cfg, Init(cfg), steps[..n])
  {
    if n == |steps| {
      assert steps[..n] == steps;
    } else {
      assert steps[..|steps|-1][..n] == steps[..n];
      ValidPrefix(cfg, steps[..|steps|-1], n);
    }
  }

  /** The state after the first `n` steps. */
  function After(cfg: Config, steps: seq<Step>, n: nat): State
    requires Valid(cfg, Init(cfg), steps) && n <= |steps|
  {
    ValidPrefix(cfg, steps, n);
    Exec(cfg, Init(cfg), steps[..n])
  }

  lemma AfterLonger(cfg: Config, steps: seq<Step>, step: Step, n: nat)
    requires Valid(cfg, Init(cfg), steps + [step]) && n <= |steps| && Valid(cfg, Init(cfg), steps)
    ensures After(cfg, steps + [step], n) == After(cfg, steps, n)
  {
    assert (steps + [step])[..n] == steps[..n];
  }

  predicate OfHandler(step: Step, r: nat) {
    match step
    case Read(q, _, _) => q == r
    case Decide(q) => q == r
    case Publish(q, _) => q == r
    case _ => false
  }

  /** Step `a` is the reading of the handler of replica `r`, which saw `seen`. */
  predicate Reading(cfg: Config, steps: seq<Step>, a: nat, r: nat, req: Request, seen: Option<Record>)
    requires Valid(cfg, Init(cfg), steps)
  {
    a < |steps| && steps[a].Read? && steps[a].replica == r && steps[a].req == req &&
    seen == if steps[a].ok then After(cfg, steps, a).slot else None
  }

  /** No step of that replica's handler from `a` to `b`. */
  predicate Undisturbed(steps: seq<Step>, a: nat, b: nat, r: nat)
    requires b <= |steps|
  {
    forall i :: a < i < b ==> !OfHandler(steps[i], r)
  }

  /** At step `a` the handler of `r` read, and next decided at step `b`, when what it had
      read allowed it to start `rec`. */
  predicate Allowed(cfg: Config, steps: seq<Step>, a: nat, b: nat, r: nat, req: Request, rec: Record)
    requires Valid(cfg, Init(cfg), steps)
  {
    a < b < |steps| && steps[a].Read? && steps[b] == Decide(r) && Undisturbed(steps, a, b, r) &&
    var seen := if steps[a].ok then After(cfg, steps, a).slot else None;
    Reading(cfg, steps, a, r, req, seen) &&
    MayStart(req, seen, After(cfg, steps, b).now) && IsStartOf(rec, req, After(cfg, steps, b).now)
  }

  ghost predicate LockAccounted(cfg: Config, steps: seq<Step>, r: nat, l: Lock)
    requires Valid(cfg, Init(cfg), steps)
  {
    match l
    case Free => true
    case Deciding(req, seen, _) =>
      exists a: nat :: Reading(cfg, steps, a, r, req, seen) && Undisturbed(steps, a, |steps|, r)
    case Starting(req, rec, _) => exists a: nat, b: nat :: Allowed(cfg, steps, a, b, r, req, rec)
  }

  /** The worker was started by a handler that was allowed to. */
  ghost predicate WorkerAllowed(cfg: Config, steps: seq<Step>, w: Worker)
    requires Valid(cfg, Init(cfg), steps)
  {
    exists a: nat, b: nat, r: nat, req: Request ::
      Allowed(cfg, steps, a, b, r, req, w.start) && w.trigger == req.PostTrigger?
  }

  ghost predicate AllAccounted(cfg: Config, steps: seq<Step>, s: State)
    requires Valid(cfg, Init(cfg), steps)
  {
    (forall r :: 0 <= r < |s.locks| ==> LockAccounted(cfg, steps, r, s.locks[r])) &&
    (forall k :: 0 <= k < |s.workers| ==> WorkerAllowed(cfg, steps, s.workers[k]))
  }

  lemma ReadingStays(cfg: Config, steps: seq<Step>, step: Step, a: nat, r: nat, req: Request, seen: Option<Record>)
    requires Valid(cfg, Init(cfg), steps) && Valid(cfg, Init(cfg), steps + [step])
    requires Reading(cfg, steps, a, r, req, seen)
    ensures Reading(cfg, steps + [step], a, r, req, seen)
  {
    AfterLonger(cfg, steps, step, a);
  }

  lemma AllowedStays(cfg: Config, steps: seq<Step>, step: Step, a: nat, b: nat, r: nat, req: Request, rec: Record)
    requires Valid(cfg, Init(cfg), steps) && Valid(cfg, Init(cfg), steps + [step])
    requires Allowed(cfg, steps, a, b, r, req, rec)
    ensures Allowed(cfg, steps + [step], a, b, r, req, rec)
  {
    AfterLonger(cfg, steps, step, a);
    AfterLonger(cfg, steps, step, b);
  }

  lemma LockStays(cfg: Config, steps: seq<Step>, step: Step, r: nat, l: Lock)
    requires Valid(cfg, Init(cfg), steps) && Valid(cfg, Init(cfg), steps + [step])
    requires LockAccounted(cfg, steps, r, l) && !OfHandler(step, r)
    ensures LockAccounted(cfg, steps + [step], r, l)
  {
    match l
    case Free =>
    case Deciding(req, seen, _) =>
      var a: nat :| Reading(cfg, steps, a, r, req, seen) && Undisturbed(steps, a, |steps|, r);
      ReadingStays(cfg, steps, step, a, r, req, seen);
      assert Undisturbed(steps + [step], a, |steps + [step]|, r);
    case Starting(req, rec, _) =>
      var a: nat, b: nat :| Allowed(cfg, steps, a, b, r, req, rec);
      AllowedStays(cfg, steps, step, a, b, r, req, rec);
  }

  lemma WorkerStays(cfg: Config, steps: seq<Step>, step: Step, w: Worker, w': Worker)
    requires Valid(cfg, Init(cfg), steps) && Valid(cfg, Init(cfg), steps + [step])
    requires WorkerAllowed(cfg, steps, w) && w'.start == w.start && w'.trigger == w.trigger
    ensures WorkerAllowed(cfg, steps + [step], w')
  {
    var a: nat, b: nat, r: nat, req: Request :|
      Allowed(cfg, steps, a, b, r, req, w.start) && w.trigger == req.PostTrigger?;
    AllowedStays(cfg, steps, step, a, b, r, req, w.start);
  }

  lemma HandlerAccounted(cfg: Config, steps: seq<Step>, s: State, step: Step, r: nat)
    requires Valid(cfg, Init(cfg), steps) && s == Exec(cfg, Init(cfg), steps)
    requires Enabled(cfg, s, step) && Valid(cfg, Init(cfg), steps + [step])
    requires r < |s.locks| && LockAccounted(cfg, steps, r, s.locks[r]) && OfHandler(step, r)
    ensures LockAccounted(cfg, steps + [step], r, Apply(cfg, s, step).locks[r])
  {
    var all, n := steps + [step], |steps|;
    assert all[..n] == steps && steps[..n] == steps;
    AfterLonger(cfg, steps, step, n);
    match step
    case Read(_, req, ok) =>
      assert Reading(cfg, all, n, r, req, Seen(s, ok)) && Undisturbed(all, n, n + 1, r);
    case Decide(_) =>
      DecidesIff(cfg, s, r);
      var l := s.locks[r];
      var a: nat :| Reading(cfg, steps, a, r, l.req, l.seen) && Undisturbed(steps, a, n, r);
      ReadingStays(cfg, steps, step, a, r, l.req, l.seen);
      if MayStart(l.req, l.seen, s.now) {
        assert Allowed(cfg, all, a, n, r, l.req, Apply(cfg, s, step).locks[r].rec);
      }
    case Publish(_, _) =>
  }

  lemma StepAccounted(cfg: Config, steps: seq<Step>, s: State, step: Step)
    requires Valid(cfg, Init(cfg), steps) && s == Exec(cfg, Init(cfg), steps)
    requires Enabled(cfg, s, step) && Valid(cfg, Init(cfg), steps + [step])
    requires AllAccounted(cfg, steps, s)
    ensures AllAccounted(cfg, steps + [step], Apply(cfg, s, step))
  {
    var s' := Apply(cfg, s, step);
    forall r | 0 <= r < |s'.locks|
      ensures LockAccounted(cfg, steps + [step], r, s'.locks[r])
    {
      if OfHandler(step, r) {
        HandlerAccounted(cfg, steps, s, step, r);
      } else {
        LockUntouched(cfg, s, step, r);
        LockStays(cfg, steps, step, r, s.locks[r]);
      }
    }
    StepExtends(cfg, s, step);
    forall k | 0 <= k < |s'.workers|
      ensures WorkerAllowed(cfg, steps + [step], s'.workers[k])
    {
      if k < |s.workers| {
        assert Extends(s.workers[k], s'.workers[k]);
        WorkerStays(cfg, steps, step, s.workers[k], s'.workers[k]);
      } else {
        NewWorkerAllowed(cfg, steps, s, step);
      }
    }
  }

  lemma LockUntouched(cfg: Config, s: State, step: Step, r: nat)
    requires Enabled(cfg, s, step) && !OfHandler(step, r)
    ensures var s' := Apply(cfg, s, step); |s'.locks| == |s.locks| && (r < |s.locks| ==> s'.locks[r] == s.locks[r])
  {
  }

  lemma NewWorkerAllowed(cfg: Config, steps: seq<Step>, s: State, step: Step)
    requires Valid(cfg, Init(cfg), steps) && s == Exec(cfg, Init(cfg), steps)
    requires Enabled(cfg, s, step) && Valid(cfg, Init(cfg), steps + [step])
    requires AllAccounted(cfg, steps, s) && |Apply(cfg, s, step).workers| > |s.workers|
    ensures |Apply(cfg, s, step).workers| == |s.workers| + 1
    ensures WorkerAllowed(cfg, steps + [step], Apply(cfg, s, step).workers[|s.workers|])
  {
    var l := s.locks[step.replica];
    assert LockAccounted(cfg, steps, step.replica, l);
    var a: nat, b: nat :| Allowed(cfg, steps, a, b, step.replica, l.req, l.rec);
    AllowedStays(cfg, steps, step, a, b, step.replica, l.req, l.rec);
  }

  lemma {:induction false} AlwaysAccounted(cfg: Config, steps: seq<Step>)
    requires Valid(cfg, Init(cfg), steps)
    ensures AllAccounted(cfg, steps, Exec(cfg, Init(cfg), steps))
  {
    if steps != [] {
      var init, step := steps[..|steps|-1], steps[|steps|-1];
      AlwaysAccounted(cfg, init);
      assert init + [step] == steps;
      StepAccounted(cfg, init, Exec(cfg, Init(cfg), init), step);
    }
  }

  /** The record written by a start, and the worker it spawned, come from a handler that
      was allowed to start: for a trigger, one whose reading found the slot empty,
      unreadable or not running. */
  lemma StartsAreAllowed(cfg: Config, steps: seq<Step>, i: nat) returns (a: nat, b: nat, r: nat, req: Request)
    requires Valid(cfg, Init(cfg), steps) && i < |Exec(cfg, Init(cfg), steps).log|
    requires Exec(cfg, Init(cfg), steps).log[i].Started?
    ensures var s := Exec(cfg, Init(cfg), steps);
      var e := s.log[i];
      e.writer < |s.workers| && s.workers[e.writer].start == e.rec && s.workers[e.writer].trigger == req.PostTrigger? &&
      Allowed(cfg, steps, a, b, r, req, e.rec)
    ensures steps[a].ok && After(cfg, steps, a).slot.Some? && After(cfg, steps, a).slot.value.status == Running ==>
      req.PostCatchUp?
  {
    var s := Exec(cfg, Init(cfg), steps);
    AlwaysAccounted(cfg, steps);
    ReachableTraced(cfg, steps);
    assert EntryLinked(s, i);
    var w := s.workers[s.log[i].writer];
    assert WorkerAllowed(cfg, steps, w);
    a, b, r, req :| Allowed(cfg, steps, a, b, r, req, w.start) && w.trigger == req.PostTrigger?;
  }
}
