/** The handlers themselves, as they run when nothing interrupts them: a lookup is
    the steps of ApiKeys.dfy taken in order, and so is a deactivation. */
module KeyService {
  import opened Wrappers
  import opened ApiKeys

  /** The steps of one lookup, up to the one that answers it. */
  function LookupSteps(cfg: Config, s: State, k: Key, getOk: bool, queryOk: bool, storeOk: bool): State {
    var asked := Apply(cfg, s, Ask(k));
    if asked.lookups[|s.lookups|].phase.Done? then asked
    else StepsFrom(cfg, asked, |s.lookups|, getOk, queryOk, storeOk)
  }

  function StepsFrom(cfg: Config, s: State, i: nat, getOk: bool, queryOk: bool, storeOk: bool): State
    requires Waits(s, i) && s.lookups[i].phase.Asked?
  {
    var got := Apply(cfg, s, Get(i, getOk));
    if got.lookups[i].phase.Done? then got
    else
      var queried := Apply(cfg, got, Query(i, queryOk));
      if queried.lookups[i].phase.Done? then queried
      else Apply(cfg, queried, Store(i, storeOk))
  }

  function RemovalSteps(cfg: Config, s: State, k: Key, evictOk: bool): State {
    var j := |s.removals|;
    var removed := Apply(cfg, s, Remove(k));
    if k !in s.table then removed
    else Apply(cfg, Apply(cfg, removed, Update(j)), Evict(j, evictOk))
  }

  /** One lookup alone, in the phase given. */
  function Alone(s: State, taken: nat, k: Key, phase: Phase): State {
    State(s.now, taken, s.table, s.cache, [Lookup(k, phase)], s.removals)
  }

  lemma AskAlone(cfg: Config, s: State, k: Key)
    requires s.lookups == []
    ensures Apply(cfg, s, Ask(k)) ==
      Alone(s, s.taken + 1, k, if k in cfg.staticKeys then Done(Accepted(STATIC, false)) else Asked)
  {
  }

  lemma GetAlone(cfg: Config, s: State, n: nat, k: Key, ok: bool)
    ensures Apply(cfg, Alone(s, n, k, Asked), Get(0, ok)) ==
      Alone(s, n + 1, k, if ok && Hit(s, k) then Done(Accepted(s.cache[k].grant, true)) else Missed)
  {
  }

  lemma QueryAlone(cfg: Config, s: State, n: nat, k: Key, ok: bool)
    ensures Apply(cfg, Alone(s, n, k, Missed), Query(0, ok)) ==
      Alone(s, n + 1, k, if ok && ActiveIn(s.table, k) then Found(GrantOf(s.table[k]), n, s.now) else Done(Refused))
  {
  }

  lemma StoreAlone(cfg: Config, s: State, n: nat, k: Key, g: Grant, readAt: nat, ok: bool)
    ensures Apply(cfg, Alone(s, n, k, Found(g, readAt, s.now)), Store(0, ok)) ==
      Alone(if ok then s.(cache := s.cache[k := Cached(g, readAt, s.now, s.now)]) else s,
            n + 1, k, Done(Accepted(g, false)))
  {
  }

  /** What the steps of one lookup come to: a hit, a refusal, or a grant stored. */
  lemma StepsAlone(cfg: Config, s: State, n: nat, k: Key, getOk: bool, queryOk: bool, storeOk: bool)
    ensures StepsFrom(cfg, Alone(s, n, k, Asked), 0, getOk, queryOk, storeOk) ==
      if getOk && Hit(s, k) then Alone(s, n + 1, k, Done(Accepted(s.cache[k].grant, true)))
      else if !(queryOk && ActiveIn(s.table, k)) then Alone(s, n + 2, k, Done(Refused))
      else
        var g := GrantOf(s.table[k]);
        Alone(if storeOk then s.(cache := s.cache[k := Cached(g, n + 1, s.now, s.now)]) else s,
              n + 3, k, Done(Accepted(g, false)))
  {
    GetAlone(cfg, s, n, k, getOk);
    if !(getOk && Hit(s, k)) {
      QueryAlone(cfg, s, n + 1, k, queryOk);
      if queryOk && ActiveIn(s.table, k) {
        StoreAlone(cfg, s, n + 2, k, GrantOf(s.table[k]), n + 1, storeOk);
      }
    }
  }

  class KeyStore {
    const staticKeys: set<Key>
    var table: map<Key, Row>
    var cache: map<Key, Cached>
    var taken: nat // accesses so far, which dates the rows read

    constructor (staticKeys: set<Key>)
      ensures this.staticKeys == staticKeys && table == map[] && cache == map[] && taken == 0
    {
      this.staticKeys := staticKeys;
      table, cache, taken := map[], map[], 0;
    }

    function View(now: int): State
      reads this
    {
      State(now, taken, table, cache, [], [])
    }

    /** `s` is this store with one lookup, answered. */
    predicate Answered(s: State, now: int, k: Key, outcome: Outcome)
      reads this
    {
      s == State(now, taken, table, cache, [Lookup(k, Done(outcome))], [])
    }

    /** The answer for a key that is not static: the cache's for 300 seconds after a
        store, else what the active row gives, which is then cached. */
    static predicate Resolves(table: map<Key, Row>, cache: map<Key, Cached>, k: Key, now: int, getOk: bool,
                              queryOk: bool, storeOk: bool, outcome: Outcome, cache': map<Key, Cached>)
    {
      if getOk && k in cache && now < cache[k].storedAt + 300 then
        outcome == Accepted(cache[k].grant, true) && cache' == cache
      else if queryOk && k in table && table[k].active then
        outcome.Accepted? && !outcome.cached && Gives(outcome.grant, table[k]) &&
        if storeOk then
          k in cache' && cache'[k].grant == outcome.grant && cache'[k].readTime == cache'[k].storedAt == now &&
          cache' == cache[k := cache'[k]]
        else cache' == cache
      else outcome == Refused && cache' == cache
    }

    function Circumstances(): Config {
      Config(staticKeys, None)
    }

    /** The lookup through the cache, of a key that is not static. */
    method LookupApiKey(k: Key, now: int, getOk: bool, queryOk: bool, storeOk: bool) returns (outcome: Outcome)
      modifies this`cache, this`taken
      ensures Answered(StepsFrom(Circumstances(), old(Alone(View(now), taken, k, Asked)), 0,
                                 getOk, queryOk, storeOk), now, k, outcome)
      ensures Resolves(old(table), old(cache), k, now, getOk, queryOk, storeOk, outcome, cache)
    {
      StepsAlone(Circumstances(), View(now), taken, k, getOk, queryOk, storeOk);
      taken := taken + 1;
      if getOk && k in cache && now < cache[k].storedAt + TTL {
        return Accepted(cache[k].grant, true);
      }
      var readAt := taken;
      taken := taken + 1;
      if !queryOk || k !in table || !table[k].active {
        return Refused;
      }
      var row := table[k];
      var grant := Grant(row.tenant, if row.scopes == "" then "read,write" else row.scopes, row.name);
      taken := taken + 1;
      if storeOk {
        cache := cache[k := Cached(grant, readAt, now, now)];
      }
      outcome := Accepted(grant, false);
    }

    method VerifyApiKey(k: Key, now: int, getOk: bool, queryOk: bool, storeOk: bool) returns (outcome: Outcome)
      modifies this`cache, this`taken
      ensures Answered(LookupSteps(Circumstances(), old(View(now)), k, getOk, queryOk, storeOk), now, k, outcome)
      ensures k in staticKeys ==> GivesAdmin(outcome) && cache == old(cache)
      ensures k !in staticKeys ==>
        Resolves(old(table), old(cache), k, now, getOk, queryOk, storeOk, outcome, cache)
    {
      AskAlone(Circumstances(), View(now), k);
      taken := taken + 1;
      if k in staticKeys {
        return Accepted(STATIC, false);
      }
      outcome := LookupApiKey(k, now, getOk, queryOk, storeOk);
    }

    method DeactivateApiKey(k: Key, now: int, evictOk: bool) returns (found: bool)
      modifies this
      ensures found <==> k in old(table)
      ensures var s := RemovalSteps(Circumstances(), old(View(now)), k, evictOk);
        s.removals == (if found then [Ended(k)] else []) && s == View(now).(removals := s.removals)
      ensures found ==> table == old(table)[k := old(table)[k].(active := false)]
      ensures !found ==> table == old(table)
      ensures cache == if found && evictOk then old(cache) - {k} else old(cache)
    {
      taken := taken + 1;
      found := k in table;
      if found {
        taken := taken + 2;
        table := table[k := table[k].(active := false)];
        if evictOk {
          cache := cache - {k};
        }
      }
    }

    /** Deactivated and evicted, a key is refused by the next request on. */
    method DeactivateThenVerify(k: Key, now: int, later: int, getOk: bool, queryOk: bool, storeOk: bool)
      returns (outcome: Outcome)
      requires k in table && k !in staticKeys
      modifies this
      ensures outcome == Refused
    {
      var found := DeactivateApiKey(k, now, true);
      outcome := VerifyApiKey(k, later, getOk, queryOk, storeOk);
    }
  }
}
