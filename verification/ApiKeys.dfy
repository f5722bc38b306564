/** API-key lookups through a cache with a time to live (api/routes.py) and the
    deactivation that evicts from it (api/admin.py), as a step system: every
    lookup and every deactivation may be interrupted between two of its accesses
    to the cache or the table. */
module ApiKeys {
  import opened Wrappers

  const TTL := 300 // seconds

  type Key = string

  datatype Row = Row(active: bool, tenant: string, scopes: string, name: string)

  /** What a key is good for. */
  datatype Grant = Grant(tenant: string, scopes: string, name: string)

  /** A cached grant, the number of steps taken when its row was read, and the
      times of that read and of the store. */
  datatype Cached = Cached(grant: Grant, readAt: nat, readTime: int, storedAt: int)

  datatype Outcome = Accepted(grant: Grant, cached: bool) | Refused

  datatype Phase =
    | Asked
    | Missed
    | Found(grant: Grant, readAt: nat, readTime: int)
    | Done(outcome: Outcome)

  datatype Lookup = Lookup(key: Key, phase: Phase)

  datatype Removal = Updating(key: Key) | Evicting(key: Key) | Ended(key: Key)

  datatype Config = Config(
    staticKeys: set<Key>,     // accepted without a lookup
    latency: Option<nat>)     // a bound on the time from reading a row to storing it

  datatype State = State(
    now: int,
    taken: nat,
    table: map<Key, Row>,
    cache: map<Key, Cached>,
    lookups: seq<Lookup>,
    removals: seq<Removal>)

  /** `ok` says whether the access succeeds: each one may fail. */
  datatype Step =
    | Ask(key: Key)
    | Get(lookup: nat, ok: bool)
    | Query(lookup: nat, ok: bool)
    | Store(lookup: nat, ok: bool)
    | Create(key: Key, row: Row)
    | Remove(key: Key)
    | Update(removal: nat)
    | Evict(removal: nat, ok: bool)
    | Reset // the admin reset empties the store
    | Tick(to: int)

  function Init(): State {
    State(0, 0, map[], map[], [], [])
  }

  const STATIC := Grant("default", "read,write,admin", "static_env")

  function GrantOf(r: Row): Grant {
    Grant(r.tenant, if r.scopes == "" then "read,write" else r.scopes, r.name)
  }

  predicate ActiveIn(table: map<Key, Row>, k: Key) {
    k in table && table[k].active
  }

  predicate Hit(s: State, k: Key) {
    k in s.cache && s.now < s.cache[k].storedAt + TTL
  }

  predicate Waits(s: State, i: nat) {
    i < |s.lookups| && !s.lookups[i].phase.Done?
  }

  predicate Enabled(cfg: Config, s: State, step: Step) {
    match step
    case Ask(k) => true
    case Get(i, ok) => Waits(s, i) && s.lookups[i].phase.Asked?
    case Query(i, ok) => Waits(s, i) && s.lookups[i].phase.Missed?
    case Store(i, ok) => Waits(s, i) && s.lookups[i].phase.Found?
    case Create(k, row) => k !in s.table && row.active
    case Remove(k) => true
    case Update(j) => j < |s.removals| && s.removals[j].Updating?
    case Evict(j, ok) => j < |s.removals| && s.removals[j].Evicting?
    case Reset => true
    case Tick(to) => to > s.now && (cfg.latency.Some? ==>
      forall i :: 0 <= i < |s.lookups| && s.lookups[i].phase.Found? ==>
        to - s.lookups[i].phase.readTime <= cfg.latency.value)
  }

  function WithPhase(s: State, i: nat, p: Phase): State
    requires i < |s.lookups|
  {
    s.(lookups := s.lookups[i := s.lookups[i].(phase := p)])
  }

  function Effect(cfg: Config, s: State, step: Step): State
    requires Enabled(cfg, s, step)
  {
    match step
    case Ask(k) =>
      s.(lookups := s.lookups + [Lookup(k, if k in cfg.staticKeys then Done(Accepted(STATIC, false)) else Asked)])
    case Get(i, ok) =>
      var k := s.lookups[i].key;
      WithPhase(s, i, if ok && Hit(s, k) then Done(Accepted(s.cache[k].grant, true)) else Missed)
    case Query(i, ok) =>
      var k := s.lookups[i].key;
      WithPhase(s, i, if ok && ActiveIn(s.table, k) then Found(GrantOf(s.table[k]), s.taken, s.now) else Done(Refused))
    case Store(i, ok) =>
      var l := s.lookups[i];
      var s' := WithPhase(s, i, Done(Accepted(l.phase.grant, false)));
      if ok then s'.(cache := s.cache[l.key := Cached(l.phase.grant, l.phase.readAt, l.phase.readTime, s.now)]) else s'
    case Create(k, row) => s.(table := s.table[k := row])
    case Remove(k) => if k in s.table then s.(removals := s.removals + [Updating(k)]) else s
    case Update(j) =>
      var k := s.removals[j].key;
      var s' := s.(removals := s.removals[j := Evicting(k)]);
      if k in s.table then s'.(table := s.table[k := s.table[k].(active := false)]) else s'
    case Evict(j, ok) =>
      var k := s.removals[j].key;
      var s' := s.(removals := s.removals[j := Ended(k)]);
      if ok then s'.(cache := s.cache - {k}) else s'
    case Reset => s.(cache := map[])
    case Tick(to) => s.(now := to)
  }

  function Apply(cfg: Config, s: State, step: Step): State
    requires Enabled(cfg, s, step)
  {
    Effect(cfg, s, step).(taken := s.taken + 1)
  }

  predicate Valid(cfg: Config, from: State, steps: seq<Step>)
    decreases |steps|, 0
  {
    steps == [] ||
    (Valid(cfg, from, steps[..|steps|-1]) &&
     Enabled(cfg, Exec(cfg, from, steps[..|steps|-1]), steps[|steps|-1]))
  }

  function Exec(cfg: Config, from: State, steps: seq<Step>): State
    requires Valid(cfg, from, steps)
    decreases |steps|, 1
  {
    if steps == [] then from
    else Apply(cfg, Exec(cfg, from, steps[..|steps|-1]), steps[|steps|-1])
  }

  lemma Then(cfg: Config, from: State, steps: seq<Step>, step: Step)
    requires Valid(cfg, from, steps) && Enabled(cfg, Exec(cfg, from, steps), step)
    ensures Valid(cfg, from, steps + [step])
    ensures Exec(cfg, from, steps + [step]) == Apply(cfg, Exec(cfg, from, steps), step)
  {
    assert (steps + [step])[..|steps|] == steps;
  }

  lemma {:induction false} ValidPrefix(cfg: Config, from: State, steps: seq<Step>, n: nat)
    requires Valid(cfg, from, steps) && n <= |steps|
    ensures Valid(cfg, from, steps[..n])
  {
    if n == |steps| {
      assert steps[..n] == steps;
    } else {
      assert steps[..|steps|-1][..n] == steps[..n];
      ValidPrefix(cfg, from, steps[..|steps|-1], n);
    }
  }

  // ---- what a request does at each of its accesses

  /** The default tenant with all scopes, which a static key has. */
  predicate GivesAdmin(outcome: Outcome) {
    outcome.Accepted? && outcome.grant.tenant == "default" && outcome.grant.scopes == "read,write,admin"
  }

  /** A static key is accepted at once, any other is looked up. */
  lemma AskIff(cfg: Config, s: State, k: Key)
    ensures var s', n := Apply(cfg, s, Ask(k)), |s.lookups|;
      s' == s.(taken := s.taken + 1, lookups := s'.lookups) && |s'.lookups| == n + 1 && s'.lookups[..n] == s.lookups &&
      var l := s'.lookups[n];
      l.key == k && (if k in cfg.staticKeys then l.phase.Done? && GivesAdmin(l.phase.outcome) else l.phase == Asked)
  {
  }

  /** The cache answers for a key stored less than 300 seconds ago; else the request
      goes on to the table. */
  lemma GetIff(cfg: Config, s: State, i: nat, ok: bool)
    requires Enabled(cfg, s, Get(i, ok))
    ensures var s', k := Apply(cfg, s, Get(i, ok)), s.lookups[i].key;
      var hit := ok && k in s.cache && s.now < s.cache[k].storedAt + 300;
      s' == s.(taken := s.taken + 1, lookups := s.lookups[i := s'.lookups[i]]) && s'.lookups[i].key == k &&
      s'.lookups[i].phase == if hit then Done(Accepted(s.cache[k].grant, true)) else Missed
  {
  }

  /** The table answers with what an active row gives, and with nothing else. */
  lemma QueryIff(cfg: Config, s: State, i: nat, ok: bool)
    requires Enabled(cfg, s, Query(i, ok))
    ensures var s', k := Apply(cfg, s, Query(i, ok)), s.lookups[i].key;
      var p := s'.lookups[i].phase;
      s' == s.(taken := s.taken + 1, lookups := s.lookups[i := s'.lookups[i]]) && s'.lookups[i].key == k &&
      (if ok && k in s.table && s.table[k].active then p.Found? && Gives(p.grant, s.table[k]) && p.readTime == s.now
       else p == Done(Refused))
  {
  }

  /** What was granted is accepted, and cached if the store succeeds. */
  lemma StoreIff(cfg: Config, s: State, i: nat, ok: bool)
    requires Enabled(cfg, s, Store(i, ok))
    ensures var s', k, p := Apply(cfg, s, Store(i, ok)), s.lookups[i].key, s.lookups[i].phase;
      s' == s.(taken := s.taken + 1, lookups := s.lookups[i := Lookup(k, Done(Accepted(p.grant, false)))], cache := s'.cache) &&
      s'.cache == if ok then s.cache[k := Cached(p.grant, p.readAt, p.readTime, s.now)] else s.cache
  {
  }

  /** After a reset the cache answers for no key, and nothing else has changed. */
  lemma ResetForgets(cfg: Config, s: State, k: Key)
    ensures var s' := Apply(cfg, s, Reset);
      k !in s'.cache && s' == s.(taken := s.taken + 1, cache := s'.cache)
  {
  }

  // ---- where a cached grant comes from

  /** The grant is what the row says: its tenant, its name, and its scopes, which are
      read and write where it names none. */
  predicate Gives(g: Grant, row: Row) {
    g.tenant == row.tenant && g.name == row.name && (row.scopes != "" ==> g.scopes == row.scopes) &&
    (row.scopes == "" ==> g.scopes == "read,write")
  }

  /** After `n` of the steps, at time `t`, the table granted `g` to `k`. */
  predicate Granted(cfg: Config, steps: seq<Step>, n: nat, t: int, k: Key, g: Grant)
    requires Valid(cfg, Init(), steps)
  {
    n <= |steps| && Valid(cfg, Init(), steps[..n]) &&
    var s := Exec(cfg, Init(), steps[..n]);
    s.now == t && k in s.table && s.table[k].active && Gives(g, s.table[k])
  }

  predicate Recent(cfg: Config, readTime: int, storedAt: int) {
    readTime <= storedAt && (cfg.latency.Some? ==> storedAt <= readTime + cfg.latency.value)
  }

  /** Every grant in flight was read from an active row. */
  predicate LookupsSourced(cfg: Config, steps: seq<Step>, s: State)
    requires Valid(cfg, Init(), steps)
  {
    forall i :: 0 <= i < |s.lookups| && s.lookups[i].phase.Found? ==>
      var p := s.lookups[i].phase;
      Granted(cfg, steps, p.readAt, p.readTime, s.lookups[i].key, p.grant) && Recent(cfg, p.readTime, s.now)
  }

  /** And so was every grant in the cache. */
  predicate CacheSourced(cfg: Config, steps: seq<Step>, s: State)
    requires Valid(cfg, Init(), steps)
  {
    forall k :: k in s.cache ==>
      var c := s.cache[k];
      Granted(cfg, steps, c.readAt, c.readTime, k, c.grant) && Recent(cfg, c.readTime, c.storedAt) && c.storedAt <= s.now
  }

  lemma GrantedLater(cfg: Config, steps: seq<Step>, n: nat, t: int, k: Key, g: Grant)
    requires steps != [] && Valid(cfg, Init(), steps) && Granted(cfg, steps[..|steps|-1], n, t, k, g)
    ensures Granted(cfg, steps, n, t, k, g)
  {
    assert steps[..|steps|-1][..n] == steps[..n];
  }

  lemma LookupsStaySourced(cfg: Config, steps: seq<Step>, s: State, step: Step)
    requires Valid(cfg, Init(), steps) && s == Exec(cfg, Init(), steps) && s.taken == |steps|
    requires Enabled(cfg, s, step) && Valid(cfg, Init(), steps + [step])
    requires LookupsSourced(cfg, steps, s)
    ensures LookupsSourced(cfg, steps + [step], Apply(cfg, s, step))
  {
    var all, s' := steps + [step], Apply(cfg, s, step);
    assert all[..|all|-1] == steps && all[..|steps|] == steps;
    forall i | 0 <= i < |s'.lookups| && s'.lookups[i].phase.Found?
      ensures var p := s'.lookups[i].phase;
        Granted(cfg, all, p.readAt, p.readTime, s'.lookups[i].key, p.grant) && Recent(cfg, p.readTime, s'.now)
    {
      var p := s'.lookups[i].phase;
      if i < |s.lookups| && s.lookups[i].phase == p {
        GrantedLater(cfg, all, p.readAt, p.readTime, s'.lookups[i].key, p.grant);
      } else {
        assert step.Query? && step.lookup == i;
      }
    }
  }

  /** What a step leaves in the cache was there before or is what it stored. */
  lemma CacheAfter(cfg: Config, s: State, step: Step, k: Key)
    requires Enabled(cfg, s, step) && k in Apply(cfg, s, step).cache
    ensures var c := Apply(cfg, s, step).cache[k];
      (k in s.cache && s.cache[k] == c) ||
      (step.Store? && s.lookups[step.lookup] == Lookup(k, Found(c.grant, c.readAt, c.readTime)) && c.storedAt == s.now)
  {
  }

  lemma CacheStaysSourced(cfg: Config, steps: seq<Step>, s: State, step: Step)
    requires Valid(cfg, Init(), steps) && Enabled(cfg, s, step) && Valid(cfg, Init(), steps + [step])
    requires (step.Store? ==> LookupsSourced(cfg, steps, s)) && CacheSourced(cfg, steps, s)
    ensures CacheSourced(cfg, steps + [step], Apply(cfg, s, step))
  {
    var all, s' := steps + [step], Apply(cfg, s, step);
    assert all[..|all|-1] == steps;
    forall k | k in s'.cache
      ensures var c := s'.cache[k];
        Granted(cfg, all, c.readAt, c.readTime, k, c.grant) && Recent(cfg, c.readTime, c.storedAt) && c.storedAt <= s'.now
    {
      var c := s'.cache[k];
      CacheAfter(cfg, s, step, k);
      assert Granted(cfg, steps, c.readAt, c.readTime, k, c.grant);
      GrantedLater(cfg, all, c.readAt, c.readTime, k, c.grant);
    }
  }

  lemma {:induction false} AlwaysSourced(cfg: Config, steps: seq<Step>)
    requires Valid(cfg, Init(), steps)
    ensures var s := Exec(cfg, Init(), steps);
      s.taken == |steps| && LookupsSourced(cfg, steps, s) && CacheSourced(cfg, steps, s)
  {
    if steps != [] {
      var init, step := steps[..|steps|-1], steps[|steps|-1];
      var s := Exec(cfg, Init(), init);
      AlwaysSourced(cfg, init);
      assert init + [step] == steps;
      LookupsStaySourced(cfg, init, s, step);
      CacheStaysSourced(cfg, init, s, step);
    }
  }

  /** A key accepted from the cache was granted just that by its active row when the
      row was read at time `r`, stored at `t` no earlier, and less than five
      minutes ago. */
  lemma CacheHitIsSourced(cfg: Config, steps: seq<Step>, i: nat) returns (n: nat, r: int, t: int)
    requires Valid(cfg, Init(), steps)
    requires var s := Exec(cfg, Init(), steps);
      Enabled(cfg, s, Get(i, true)) && Apply(cfg, s, Get(i, true)).lookups[i].phase != Missed
    ensures var s := Exec(cfg, Init(), steps);
      var l := Apply(cfg, s, Get(i, true)).lookups[i];
      l.key == s.lookups[i].key && l.phase.Done? && l.phase.outcome.Accepted? && Granted(cfg, steps, n, r, l.key, l.phase.outcome.grant) &&
      r <= t <= s.now < t + 300 && Recent(cfg, r, t)
  {
    AlwaysSourced(cfg, steps);
    var s := Exec(cfg, Init(), steps);
    var c := s.cache[s.lookups[i].key];
    n, r, t := c.readAt, c.readTime, c.storedAt;
  }

  // ---- revocation

  /** No lookup holds a grant of `k` that it read but has not stored yet. */
  predicate NoStraddler(s: State, k: Key) {
    forall i :: 0 <= i < |s.lookups| && s.lookups[i].key == k ==> !s.lookups[i].phase.Found?
  }

  predicate Revoked(s: State, k: Key) {
    k in s.table && !s.table[k].active && !Hit(s, k) && NoStraddler(s, k)
  }

  predicate AcceptedAt(s: State, i: nat, k: Key) {
    i < |s.lookups| && s.lookups[i].key == k && s.lookups[i].phase.Done? && s.lookups[i].phase.outcome.Accepted?
  }

  lemma RevokedStep(cfg: Config, s: State, step: Step, k: Key)
    requires Revoked(s, k) && k !in cfg.staticKeys && Enabled(cfg, s, step)
    ensures Revoked(Apply(cfg, s, step), k)
    ensures forall i: nat :: AcceptedAt(Apply(cfg, s, step), i, k) ==> AcceptedAt(s, i, k)
  {
  }

  lemma {:induction false} StaysRevoked(cfg: Config, s: State, steps: seq<Step>, k: Key)
    requires Revoked(s, k) && k !in cfg.staticKeys && Valid(cfg, s, steps)
    ensures Revoked(Exec(cfg, s, steps), k)
    ensures forall i: nat :: AcceptedAt(Exec(cfg, s, steps), i, k) ==> AcceptedAt(s, i, k)
  {
    if steps != [] {
      StaysRevoked(cfg, s, steps[..|steps|-1], k);
      RevokedStep(cfg, Exec(cfg, s, steps[..|steps|-1]), steps[|steps|-1], k);
    }
  }

  /** A new request that finds the key in the cache. */
  lemma AskAndHit(cfg: Config, s: State, steps: seq<Step>, k: Key) returns (more: seq<Step>, i: nat)
    requires Valid(cfg, s, steps) && k !in cfg.staticKeys && Hit(Exec(cfg, s, steps), k)
    ensures Valid(cfg, s, more) && i == |Exec(cfg, s, steps).lookups| && AcceptedAt(Exec(cfg, s, more), i, k)
  {
    i := |Exec(cfg, s, steps).lookups|;
    Then(cfg, s, steps, Ask(k));
    more := steps + [Ask(k)];
    Then(cfg, s, more, Get(i, true));
    more := more + [Get(i, true)];
  }

  /** Once a key's row is inactive, every later request for it is refused exactly
      when the cache no longer answers for it and no lookup straddles: a lookup
      that read the row before and stores after lets the key back in. */
  lemma RevokedIff(cfg: Config, s: State, k: Key)
    requires k in s.table && !s.table[k].active && k !in cfg.staticKeys
    ensures Revoked(s, k) <==> LaterAllRefused(cfg, s, k)
  {
    if Revoked(s, k) {
      forall steps, i: nat | Valid(cfg, s, steps) && i >= |s.lookups|
        ensures !AcceptedAt(Exec(cfg, s, steps), i, k)
      {
        StaysRevoked(cfg, s, steps, k);
      }
    } else {
      var steps := [];
      if !Hit(s, k) {
        var j :| 0 <= j < |s.lookups| && s.lookups[j].key == k && s.lookups[j].phase.Found?;
        Then(cfg, s, [], Store(j, true));
        steps := [] + [Store(j, true)];
      }
      var more, n := AskAndHit(cfg, s, steps, k);
      assert Valid(cfg, s, more) && n >= |s.lookups| && AcceptedAt(Exec(cfg, s, more), n, k);
    }
  }

  /** No request that comes after `s` is ever accepted for `k`. */
  ghost predicate LaterAllRefused(cfg: Config, s: State, k: Key) {
    forall steps, i: nat :: Valid(cfg, s, steps) && i >= |s.lookups| ==> !AcceptedAt(Exec(cfg, s, steps), i, k)
  }

  predicate RowsRemoved(s: State) {
    forall j :: 0 <= j < |s.removals| ==>
      s.removals[j].key in s.table && (!s.removals[j].Updating? ==> !s.table[s.removals[j].key].active)
  }

  lemma {:induction false} AlwaysRemoved(cfg: Config, steps: seq<Step>)
    requires Valid(cfg, Init(), steps)
    ensures RowsRemoved(Exec(cfg, Init(), steps))
  {
    if steps != [] {
      AlwaysRemoved(cfg, steps[..|steps|-1]);
    }
  }

  /** A deactivation whose eviction succeeds revokes the key at once, exactly when
      no lookup straddles it. */
  lemma EvictionRevokes(cfg: Config, steps: seq<Step>, j: nat)
    requires Valid(cfg, Init(), steps) && Enabled(cfg, Exec(cfg, Init(), steps), Evict(j, true))
    ensures var s := Exec(cfg, Init(), steps);
      var k, s' := s.removals[j].key, Apply(cfg, s, Evict(j, true));
      k in s'.table && !s'.table[k].active && (Revoked(s', k) <==> NoStraddler(s, k))
  {
    AlwaysRemoved(cfg, steps);
  }

  /** Time does not go back, and an inactive row stays. */
  lemma {:induction false} InactiveStays(cfg: Config, steps: seq<Step>, n: nat, k: Key)
    requires Valid(cfg, Init(), steps) && n <= |steps| && Valid(cfg, Init(), steps[..n])
    requires var s := Exec(cfg, Init(), steps[..n]); k in s.table && !s.table[k].active
    ensures var s, s' := Exec(cfg, Init(), steps[..n]), Exec(cfg, Init(), steps);
      s.now <= s'.now && k in s'.table && !s'.table[k].active
  {
    if n == |steps| {
      assert steps[..n] == steps;
    } else {
      assert steps[..|steps|-1][..n] == steps[..n];
      InactiveStays(cfg, steps[..|steps|-1], n, k);
      InactiveStep(cfg, Exec(cfg, Init(), steps[..|steps|-1]), steps[|steps|-1], k);
    }
  }

  lemma InactiveStep(cfg: Config, s: State, step: Step, k: Key)
    requires Enabled(cfg, s, step) && k in s.table && !s.table[k].active
    ensures var s' := Apply(cfg, s, step); s.now <= s'.now && k in s'.table && !s'.table[k].active
  {
  }

  /** However the eviction went: a key deactivated by step `n` is accepted from the
      cache only within the time to live plus the time a lookup takes to store. */
  lemma StalenessBound(cfg: Config, steps: seq<Step>, n: nat, i: nat)
    requires Valid(cfg, Init(), steps) && n <= |steps| && Valid(cfg, Init(), steps[..n]) && cfg.latency.Some?
    requires var s := Exec(cfg, Init(), steps);
      Enabled(cfg, s, Get(i, true)) && Apply(cfg, s, Get(i, true)).lookups[i].phase != Missed
    requires var s, k := Exec(cfg, Init(), steps[..n]), Exec(cfg, Init(), steps).lookups[i].key;
      k in s.table && !s.table[k].active
    ensures Exec(cfg, Init(), steps).now < Exec(cfg, Init(), steps[..n]).now + cfg.latency.value + 300
  {
    var k := Exec(cfg, Init(), steps).lookups[i].key;
    var m, r, t := CacheHitIsSourced(cfg, steps, i);
    if n <= m {
      assert steps[..m][..n] == steps[..n];
      InactiveStays(cfg, steps[..m], n, k);
      assert false;
    }
    TimePasses(cfg, steps[..n], m);
    assert steps[..n][..m] == steps[..m];
  }

  lemma {:induction false} TimePasses(cfg: Config, steps: seq<Step>, m: nat)
    requires Valid(cfg, Init(), steps) && m <= |steps|
    ensures Valid(cfg, Init(), steps[..m]) && Exec(cfg, Init(), steps[..m]).now <= Exec(cfg, Init(), steps).now
  {
    if m == |steps| {
      assert steps[..m] == steps;
    } else {
      assert steps[..|steps|-1][..m] == steps[..m];
      TimePasses(cfg, steps[..|steps|-1], m);
    }
  }
}
