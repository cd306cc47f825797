/**
 The in-memory cache as a program: an outer map from agent keys to inner maps, both updated in place. Every method is
 proved against the plain TTL map of each agent, from which nothing is ever garbage-collected. Interleavings of the
 critical sections are the subject of CacheConcurrency.
 */
module InMemoryCache {
  import opened Wrappers
  import opened TtlMap
  import opened Keys

  class AgentCache {
    var entries: Fields
    ghost const key: string

    constructor (ghost key: string)
      ensures entries == map[] && this.key == key
    {
      entries := map[];
      this.key := key;
    }
  }

  // The plain map of one agent; empty when nothing was ever stored.
  function PlainOf(plain: map<string, Fields>, key: string): Fields {
    if key in plain then plain[key] else map[]
  }

  // Every inner map stands for the plain map of its key; a key without inner map has stored nothing.
  ghost predicate AllStand(held: map<string, Fields>, plain: map<string, Fields>, now: int) {
    && (forall k | k in held :: Stands(held[k], PlainOf(plain, k), now))
    && (forall k | k in plain && k !in held :: plain[k] == map[])
  }

  lemma AllStandAfterSet(held: map<string, Fields>, plain: map<string, Fields>, now: int, t: int,
                         key: string, field: string, entry: Entry)
    requires AllStand(held, plain, now) && now <= t
    ensures AllStand(held[key := PlainOf(held, key)[field := entry]],
                     plain[key := PlainOf(plain, key)[field := entry]], t)
  {
  }

  lemma AllStandAfterDelete(held: map<string, Fields>, plain: map<string, Fields>, now: int, key: string, field: string)
    requires AllStand(held, plain, now) && key in held
    ensures AllStand(held[key := held[key] - {field}], plain[key := PlainOf(plain, key) - {field}], now)
  {
  }

  function Swept(held: map<string, Fields>, t: int): map<string, Fields> {
    map k | k in held :: LiveFields(held[k], t)
  }

  // All but the given keys.
  function SweptBut(held: map<string, Fields>, keys: set<string>, t: int): map<string, Fields> {
    map k | k in held :: if k in keys then held[k] else LiveFields(held[k], t)
  }

  lemma SweptSoFar(held: map<string, Fields>, keys: set<string>, t: int, k: string)
    ensures SweptBut(held, held.Keys, t) == held && SweptBut(held, {}, t) == Swept(held, t)
    ensures k in held && k in keys ==>
              k in SweptBut(held, keys, t)
              && SweptBut(held, keys, t)[k := LiveFields(SweptBut(held, keys, t)[k], t)]
                  == SweptBut(held, keys - {k}, t)
  {
  }

  lemma AllStandAfterSweep(held: map<string, Fields>, plain: map<string, Fields>, now: int, t: int)
    requires AllStand(held, plain, now) && now <= t
    ensures AllStand(Swept(held, t), plain, t)
  {
    forall k | k in held
      ensures Stands(LiveFields(held[k], t), PlainOf(plain, k), t)
    {
      StandsReadsAlike(held[k], PlainOf(plain, k), now, t, "");
    }
    hide Stands, PlainOf, LiveFields;
  }

  class Cache {
    var agents: map<string, AgentCache>
    ghost var held: map<string, Fields>    // the entries of the inner maps
    ghost var plain: map<string, Fields>
    ghost var now: int

    ghost predicate Apart()
      reads this`agents, this`held, agents.Values
    {
      && (forall k :: k in agents <==> k in held)
      && (forall k | k in agents :: agents[k].key == k && agents[k].entries == held[k])
    }

    ghost predicate Valid()
      reads this, agents.Values
    {
      Apart() && AllStand(held, plain, now)
    }

    constructor ()
      ensures Valid() && plain == map[] && now == 0 && agents == map[]
    {
      agents := map[];
      held := map[];
      plain := map[];
      now := 0;
    }

    method GetOrCreate(namespace: string, name: string) returns (ac: AgentCache)
      requires Apart()
      modifies this`agents, this`held
      ensures Apart()
      ensures var key := AgentKey(namespace, name);
              && key in agents && agents[key] == ac
              && agents == old(agents)[key := ac] && (if key in old(agents) then ac == old(agents)[key] else fresh(ac))
              && held == old(held)[key := PlainOf(old(held), key)]
    {
      var key := AgentKey(namespace, name);
      if key in agents {
        return agents[key];
      }
      ac := new AgentCache(key);
      agents := agents[key := ac];
      held := held[key := map[]];
    }

    method Set(namespace: string, name: string, field: string, value: Value, ttl: int, t: int)
      requires Valid() && now <= t
      modifies this, agents.Values
      ensures Valid() && now == t
      ensures var key, entry := AgentKey(namespace, name), NewEntry(value, ttl, t, t);
              plain == old(plain)[key := PlainOf(old(plain), key)[field := entry]]
      ensures var key := AgentKey(namespace, name);
              key in plain && field in plain[key]
              && plain[key][field] == Entry(value, t, if ttl > 0 then Some(t + ttl) else None)
      ensures forall k | k in agents :: k in old(agents) || fresh(agents[k])
    {
      ghost var key := AgentKey(namespace, name);
      var expiresAt := None;
      if ttl > 0 {
        expiresAt := Some(t + ttl);
      }
      var entry := Entry(value, t, expiresAt);
      AllStandAfterSet(held, plain, now, t, key, field, entry);
      hide AllStand, Stands;
      plain := plain[key := PlainOf(plain, key)[field := entry]];
      now := t;
      Put(namespace, name, field, entry);
    }

    method Put(namespace: string, name: string, field: string, entry: Entry)
      requires Apart()
      modifies this`agents, this`held, agents.Values
      ensures Apart() && forall k | k in agents :: k in old(agents) || fresh(agents[k])
      ensures var key := AgentKey(namespace, name); held == old(held)[key := PlainOf(old(held), key)[field := entry]]
    {
      var ac := GetOrCreate(namespace, name);
      Replace(AgentKey(namespace, name), ac, ac.entries[field := entry]);
    }

    // The critical section on one inner map.
    method Replace(ghost key: string, ac: AgentCache, entries: Fields)
      requires Apart() && key in agents && agents[key] == ac
      modifies ac, this`held
      ensures Apart() && held == old(held)[key := entries]
    {
      held := held[key := entries];
      ac.entries := entries;
    }

    method GetEntry(namespace: string, name: string, field: string, t: int) returns (found: Option<Entry>)
      requires Valid() && now <= t
      ensures found == Read(PlainOf(plain, AgentKey(namespace, name)), field, t)
      ensures var m := PlainOf(plain, AgentKey(namespace, name));
              found == if IsLive(m, field, t) then Some(m[field]) else None
    {
      var key := AgentKey(namespace, name);
      if key !in agents {
        return None;
      }
      var ac := agents[key];
      StandsReadsAlike(ac.entries, PlainOf(plain, key), now, t, field);
      if field !in ac.entries || Expired(ac.entries[field], t) {
        return None;
      }
      return Some(ac.entries[field]);
    }

    method Delete(namespace: string, name: string, field: string)
      requires Valid()
      modifies agents.Values, this`held, this`plain
      ensures Valid()
      ensures var key := AgentKey(namespace, name);
              PlainOf(plain, key) == PlainOf(old(plain), key) - {field}
              && forall k | k != key :: PlainOf(plain, k) == PlainOf(old(plain), k)
    {
      var key := AgentKey(namespace, name);
      if key !in agents {
        return;
      }
      AllStandAfterDelete(held, plain, now, key, field);
      hide AllStand, Stands;
      plain := plain[key := PlainOf(plain, key) - {field}];
      Drop(key, field);
    }

    method Drop(key: string, field: string)
      requires Apart() && key in agents
      modifies agents[key], this`held
      ensures Apart() && held == old(held)[key := old(held)[key] - {field}]
    {
      var ac := agents[key];
      Replace(key, ac, ac.entries - {field});
    }

    method List(namespace: string, name: string, t: int) returns (result: Fields)
      requires Valid() && now <= t
      ensures result == LiveFields(PlainOf(plain, AgentKey(namespace, name)), t)
      ensures var m := PlainOf(plain, AgentKey(namespace, name));
              forall f :: (f in result <==> IsLive(m, f, t)) && (f in result ==> result[f] == m[f])
    {
      var key := AgentKey(namespace, name);
      result := map[];
      if key !in agents {
        return;
      }
      var entries := agents[key].entries;
      StandsReadsAlike(entries, PlainOf(plain, key), now, t, "");
      var left := entries.Keys;
      while left != {}
        invariant left <= entries.Keys
        invariant result == map f | f in entries && f !in left && !Expired(entries[f], t) :: entries[f]
        decreases left
      {
        var f :| f in left;
        if !Expired(entries[f], t) {
          result := result[f := entries[f]];
        }
        left := left - {f};
      }
    }

    method ClearAgent(namespace: string, name: string)
      requires Valid()
      modifies this`agents, this`held, this`plain
      ensures Valid()
      ensures PlainOf(plain, AgentKey(namespace, name)) == map[]
      ensures forall k | k != AgentKey(namespace, name) :: PlainOf(plain, k) == PlainOf(old(plain), k)
    {
      var key := AgentKey(namespace, name);
      agents := agents - {key};
      held := held - {key};
      plain := plain - {key};
    }

    // One inner map of a GC pass: delete while iterating.
    method SweepAgent(k: string, t: int)
      requires Apart() && k in agents
      modifies agents[k], this`held
      ensures Apart() && held == old(held)[k := LiveFields(old(held)[k], t)]
    {
      var ac := agents[k];
      var left := ac.entries.Keys;
      ghost var before := ac.entries;
      while left != {}
        invariant left <= before.Keys
        invariant ac.entries == map f | f in before && (f in left || !Expired(before[f], t)) :: before[f]
        modifies ac
        decreases left
      {
        var f :| f in left;
        if f in ac.entries && Expired(ac.entries[f], t) {
          ac.entries := ac.entries - {f};
        }
        left := left - {f};
      }
      assert ac.entries == LiveFields(before, t);
      held := held[k := ac.entries];
    }

    method SweepAll(t: int)
      requires Apart()
      modifies this`held, agents.Values
      ensures Apart() && held == Swept(old(held), t)
    {
      var keys := agents.Keys;
      assert keys == held.Keys;
      SweptSoFar(held, keys, t, "");
      hide SweptBut, Swept, LiveFields, Apart;
      while keys != {}
        invariant keys <= agents.Keys && Apart() && held == SweptBut(old(held), keys, t)
        decreases keys
      {
        var k :| k in keys;
        SweptSoFar(old(held), keys, t, k);
        SweepAgent(k, t);
        keys := keys - {k};
      }
      SweptSoFar(old(held), {}, t, "");
    }

    /** A GC pass drops exactly the expired entries, and no later read can tell. */
    method GcPass(t: int)
      requires Valid() && now <= t
      modifies this`now, this`held, agents.Values
      ensures Valid() && now == t && plain == old(plain) && agents == old(agents)
      ensures held == Swept(old(held), t)
    {
      AllStandAfterSweep(held, plain, now, t);
      hide AllStand, Swept;
      now := t;
      SweepAll(t);
    }
  }
}
