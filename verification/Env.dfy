/**
 The environment list of an Agent: the upsert behind PATCH /env and the filter behind DELETE /env/:key.
 Names may occur more than once on either side; the program then works on the last occurrence.
 */
module Env {
  import opened Wrappers
  import opened AgentTypes

  function Names(env: seq<EnvVar>): (names: seq<string>)
    ensures |names| == |env|
    ensures forall i | 0 <= i < |env| :: names[i] == env[i].name
  {
    seq(|env|, i requires 0 <= i < |env| => env[i].name)
  }

  predicate Has(env: seq<EnvVar>, name: string) {
    exists i | 0 <= i < |env| :: env[i].name == name
  }

  // The last occurrence decides, as it does for a container that is started with the list.
  function Lookup(env: seq<EnvVar>, name: string): Option<EnvVar> {
    if env == [] then None
    else if env[|env| - 1].name == name then Some(env[|env| - 1])
    else Lookup(env[..|env| - 1], name)
  }

  lemma {:induction false} LookupFindsIff(env: seq<EnvVar>, name: string)
    ensures Lookup(env, name).Some? <==> Has(env, name)
    ensures Lookup(env, name).Some? ==> Lookup(env, name).value.name == name
  {
    if env != [] {
      var init := env[..|env| - 1];
      LookupFindsIff(init, name);
      if Has(env, name) && env[|env| - 1].name != name {
        var i :| 0 <= i < |env| && env[i].name == name;
        assert init[i].name == name;
      }
      if Has(init, name) {
        var i :| 0 <= i < |init| && init[i].name == name;
        assert env[i].name == name;
      }
    }
  }

  // ------------------------------------------------------------------ what the two operations are

  // Overwrite the last occurrence of v's name.
  function Replace(env: seq<EnvVar>, v: EnvVar): (r: seq<EnvVar>)
    requires Has(env, v.name)
    ensures |r| == |env|
  {
    var n := |env| - 1;
    if env[n].name == v.name then env[..n] + [v]
    else
      HasInInit(env, v.name);
      Replace(env[..n], v) + [env[n]]
  }

  lemma HasInInit(env: seq<EnvVar>, name: string)
    requires Has(env, name) && env[|env| - 1].name != name
    ensures Has(env[..|env| - 1], name)
  {
    var i :| 0 <= i < |env| && env[i].name == name;
    assert env[..|env| - 1][i].name == name;
  }

  function Upsert(env: seq<EnvVar>, v: EnvVar): seq<EnvVar> {
    if Has(env, v.name) then Replace(env, v) else env + [v]
  }

  function Merge(existing: seq<EnvVar>, newVars: seq<EnvVar>): seq<EnvVar> {
    if newVars == [] then existing
    else Upsert(Merge(existing, newVars[..|newVars| - 1]), newVars[|newVars| - 1])
  }

  function Without(env: seq<EnvVar>, key: string): seq<EnvVar> {
    if env == [] then []
    else
      var n := |env| - 1;
      Without(env[..n], key) + (if env[n].name != key then [env[n]] else [])
  }

  // ------------------------------------------------------------------ the program

  predicate IsLastIndex(env: seq<EnvVar>, name: string, i: int) {
    && 0 <= i < |env|
    && env[i].name == name
    && forall j | i < j < |env| :: env[j].name != name
  }

  lemma {:induction false} ReplaceAtLastIndex(env: seq<EnvVar>, v: EnvVar, i: int)
    requires IsLastIndex(env, v.name, i)
    ensures Has(env, v.name) && Replace(env, v) == env[i := v]
  {
    var n := |env| - 1;
    if i < n {
      ReplaceAtLastIndex(env[..n], v, i);
      assert env[i := v] == env[..n][i := v] + [env[n]];
    } else {
      assert env[i := v] == env[..n] + [v];
    }
  }

  // idx maps exactly the names in env to their last positions.
  predicate Indexes(idx: map<string, int>, env: seq<EnvVar>) {
    && (forall name | name in idx :: IsLastIndex(env, name, idx[name]))
    && (forall i | 0 <= i < |env| :: env[i].name in idx)
  }

  // One round of the second loop, with the index kept in step.
  lemma IndexedUpsert(idx: map<string, int>, env: seq<EnvVar>, v: EnvVar)
    requires Indexes(idx, env)
    ensures v.name in idx ==>
              0 <= idx[v.name] < |env| && Upsert(env, v) == env[idx[v.name] := v] && Indexes(idx, env[idx[v.name] := v])
    ensures v.name !in idx ==> Upsert(env, v) == env + [v] && Indexes(idx[v.name := |env|], env + [v])
  {
    if v.name in idx {
      ReplaceAtLastIndex(env, v, idx[v.name]);
    }
  }

  method MergeEnvVars(existing: seq<EnvVar>, newVars: seq<EnvVar>) returns (result: seq<EnvVar>)
    ensures result == Merge(existing, newVars)
  {
    var idx: map<string, int> := map[];
    result := existing;
    var i := 0;
    while i < |result|
      invariant 0 <= i <= |result| && result == existing
      invariant Indexes(idx, existing[..i])
    {
      idx := idx[result[i].name := i];
      assert existing[..i + 1] == existing[..i] + [existing[i]];
      i := i + 1;
    }
    assert existing[..i] == existing;
    var k := 0;
    while k < |newVars|
      invariant 0 <= k <= |newVars|
      invariant result == Merge(existing, newVars[..k])
      invariant Indexes(idx, result)
    {
      var nv := newVars[k];
      assert newVars[..k + 1][..k] == newVars[..k];
      IndexedUpsert(idx, result, nv);
      hide Indexes, Upsert;
      if nv.name in idx {
        result := result[idx[nv.name] := nv];
      } else {
        result := result + [nv];
        idx := idx[nv.name := |result| - 1];
      }
      k := k + 1;
    }
    assert newVars[..k] == newVars;
  }

  method DeleteEnvKey(env: seq<EnvVar>, key: string) returns (filtered: seq<EnvVar>)
    ensures filtered == Without(env, key)
  {
    filtered := [];
    var i := 0;
    while i < |env|
      invariant 0 <= i <= |env|
      invariant filtered == Without(env[..i], key)
    {
      assert env[..i + 1][..i] == env[..i];
      if env[i].name != key {
        filtered := filtered + [env[i]];
      }
      i := i + 1;
    }
    assert env[..i] == env;
  }

  // ------------------------------------------------------------------ one upsert

  lemma {:induction false} ReplaceShape(env: seq<EnvVar>, v: EnvVar)
    requires Has(env, v.name)
    ensures Names(Replace(env, v)) == Names(env)
    ensures Lookup(Replace(env, v), v.name) == Some(v)
    ensures forall name | name != v.name :: Lookup(Replace(env, v), name) == Lookup(env, name)
  {
    var n := |env| - 1;
    var r := Replace(env, v);
    if env[n].name == v.name {
      assert r[..n] == env[..n];
    } else {
      HasInInit(env, v.name);
      ReplaceShape(env[..n], v);
      assert r[..n] == Replace(env[..n], v);
      forall i | 0 <= i < |env|
        ensures r[i].name == env[i].name
      {
        if i < n {
          assert Names(Replace(env[..n], v))[i] == Names(env[..n])[i];
        }
      }
    }
  }

  lemma UpsertLookup(env: seq<EnvVar>, v: EnvVar, name: string)
    ensures Lookup(Upsert(env, v), name) == if name == v.name then Some(v) else Lookup(env, name)
    ensures Has(Upsert(env, v), name) <==> name == v.name || Has(env, name)
  {
    if Has(env, v.name) {
      ReplaceShape(env, v);
    } else {
      assert (env + [v])[..|env|] == env;
    }
    LookupFindsIff(Upsert(env, v), name);
    LookupFindsIff(env, name);
    LookupFindsIff(env, v.name);
  }

  // Two upserts of one name: the second wins.
  lemma UpsertTwice(env: seq<EnvVar>, v: EnvVar, w: EnvVar)
    requires v.name == w.name
    ensures Upsert(Upsert(env, v), w) == Upsert(env, w)
  {
    UpsertLookup(env, v, v.name);
    if Has(env, v.name) {
      ReplaceTwice(env, v, w);
    } else {
      assert (env + [v])[|env|].name == w.name;
      assert (env + [v])[..|env|] == env;
    }
  }

  lemma {:induction false} ReplaceTwice(env: seq<EnvVar>, v: EnvVar, w: EnvVar)
    requires v.name == w.name && Has(env, v.name)
    ensures Has(Replace(env, v), w.name)
    ensures Replace(Replace(env, v), w) == Replace(env, w)
  {
    ReplaceShape(env, v);
    LookupFindsIff(Replace(env, v), v.name);
    var n := |env| - 1;
    var r := Replace(env, v);
    if env[n].name == v.name {
      assert r[..n] == env[..n];
    } else {
      HasInInit(env, v.name);
      ReplaceTwice(env[..n], v, w);
      assert r[..n] == Replace(env[..n], v);
    }
  }

  // Once v's name is present its position is fixed, so upserts of other names do not interfere.
  lemma UpsertsCommute(env: seq<EnvVar>, v: EnvVar, w: EnvVar)
    requires v.name != w.name && Has(env, v.name)
    ensures Upsert(Upsert(env, v), w) == Upsert(Upsert(env, w), v)
  {
    UpsertLookup(env, v, w.name);
    UpsertLookup(env, w, v.name);
    if Has(env, w.name) {
      ReplacesCommute(env, v, w);
    } else {
      assert (env + [w])[..|env|] == env;
    }
  }

  lemma {:induction false} ReplacesCommute(env: seq<EnvVar>, v: EnvVar, w: EnvVar)
    requires v.name != w.name && Has(env, v.name) && Has(env, w.name)
    ensures Has(Replace(env, v), w.name) && Has(Replace(env, w), v.name)
    ensures Replace(Replace(env, v), w) == Replace(Replace(env, w), v)
  {
    UpsertLookup(env, v, w.name);
    UpsertLookup(env, w, v.name);
    var n := |env| - 1;
    assert Replace(env, v)[n].name == env[n].name && Replace(env, w)[n].name == env[n].name by {
      ReplaceShape(env, v);
      ReplaceShape(env, w);
      assert Names(Replace(env, v))[n] == Names(env)[n] == Names(Replace(env, w))[n];
    }
    if env[n].name == v.name {
      HasInInit(env, w.name);
      assert Replace(env, v)[..n] == env[..n];
      assert Replace(env, w)[..n] == Replace(env[..n], w);
    } else if env[n].name == w.name {
      HasInInit(env, v.name);
      assert Replace(env, w)[..n] == env[..n];
      assert Replace(env, v)[..n] == Replace(env[..n], v);
    } else {
      HasInInit(env, v.name);
      HasInInit(env, w.name);
      assert Replace(env, v)[..n] == Replace(env[..n], v);
      assert Replace(env, w)[..n] == Replace(env[..n], w);
      ReplacesCommute(env[..n], v, w);
    }
  }

  // ------------------------------------------------------------------ merge

  /** Mentioned names get their new value, all others keep the old one. */
  lemma {:induction false} MergeLookup(a: seq<EnvVar>, b: seq<EnvVar>, name: string)
    ensures Lookup(Merge(a, b), name) == if Lookup(b, name).Some? then Lookup(b, name) else Lookup(a, name)
    ensures Has(Merge(a, b), name) <==> Has(a, name) || Has(b, name)
  {
    if b != [] {
      var n := |b| - 1;
      MergeLookup(a, b[..n], name);
      UpsertLookup(Merge(a, b[..n]), b[n], name);
    }
    LookupFindsIff(Merge(a, b), name);
    LookupFindsIff(a, name);
    LookupFindsIff(b, name);
  }

  // The names of b that a does not have, once each, in order of first appearance.
  function NewNames(a: seq<EnvVar>, b: seq<EnvVar>): seq<string> {
    if b == [] then []
    else
      var n := |b| - 1;
      NewNames(a, b[..n]) + (if Has(a, b[n].name) || Has(b[..n], b[n].name) then [] else [b[n].name])
  }

  /** The existing names stay where they are and the new ones follow, each once. */
  lemma {:induction false} MergeKeepsOrder(a: seq<EnvVar>, b: seq<EnvVar>)
    ensures Names(Merge(a, b)) == Names(a) + NewNames(a, b)
  {
    if b != [] {
      var n := |b| - 1;
      MergeKeepsOrder(a, b[..n]);
      MergeLookup(a, b[..n], b[n].name);
      UpsertNames(Merge(a, b[..n]), b[n]);
      hide Names, Has, Upsert;
      assert Names(Merge(a, b)) == Names(Upsert(Merge(a, b[..n]), b[n]));
    }
  }

  lemma UpsertNames(env: seq<EnvVar>, v: EnvVar)
    ensures Names(Upsert(env, v)) == Names(env) + if Has(env, v.name) then [] else [v.name]
  {
    if Has(env, v.name) {
      ReplaceShape(env, v);
    } else {
      assert Names(env + [v]) == Names(env) + [v.name];
    }
  }

  lemma {:induction false} ReplaceElsewhere(env: seq<EnvVar>, v: EnvVar, i: nat)
    requires Has(env, v.name) && i < |env|
    ensures Replace(env, v)[i] == if IsLastIndex(env, v.name, i) then v else env[i]
  {
    var n := |env| - 1;
    if env[n].name == v.name {
    } else {
      HasInInit(env, v.name);
      if i < n {
        ReplaceElsewhere(env[..n], v, i);
        if IsLastIndex(env[..n], v.name, i) {
          forall j | i < j < |env|
            ensures env[j].name != v.name
          {
            if j < n {
              assert env[..n][j].name != v.name;
            }
          }
        }
      }
    }
  }

  /** Entry by entry: the last occurrence of a mentioned name takes the new value; no other existing entry changes. */
  lemma {:induction false} MergeEntry(a: seq<EnvVar>, b: seq<EnvVar>, i: nat)
    requires i < |a|
    ensures i < |Merge(a, b)|
    ensures Merge(a, b)[i]
            == if IsLastIndex(a, a[i].name, i) && Lookup(b, a[i].name).Some? then Lookup(b, a[i].name).value else a[i]
  {
    if b != [] {
      var n := |b| - 1;
      var m, v := Merge(a, b[..n]), b[n];
      MergeEntry(a, b[..n], i);
      MergeKeepsOrder(a, b[..n]);
      assert Names(m)[i] == Names(a)[i];
      LookupFindsIff(b, a[i].name);
      LookupFindsIff(b[..n], a[i].name);
      if Has(m, v.name) {
        ReplaceElsewhere(m, v, i);
        LastIndexSame(a, b[..n], v.name, i);
      }
      MergeLookup(a, b[..n], v.name);
      if v.name != a[i].name {
        SameHas(b, a[i].name);
      } else {
        assert b[n].name == v.name;
        assert Has(a, v.name);
      }
    }
  }

  lemma SameHas(b: seq<EnvVar>, name: string)
    requires b != [] && b[|b| - 1].name != name
    ensures Has(b, name) <==> Has(b[..|b| - 1], name)
  {
    LookupFindsIff(b, name);
    LookupFindsIff(b[..|b| - 1], name);
  }

  // Merging appends only names that are not there yet, so it does not change which occurrence is last.
  lemma LastIndexSame(a: seq<EnvVar>, b: seq<EnvVar>, name: string, i: nat)
    requires i < |a| <= |Merge(a, b)|
    ensures IsLastIndex(a, name, i) <==> IsLastIndex(Merge(a, b), name, i)
  {
    var m := Merge(a, b);
    MergeKeepsOrder(a, b);
    forall j | 0 <= j < |a|
      ensures m[j].name == a[j].name
    {
      assert Names(m)[j] == Names(a)[j];
    }
    forall j | |a| <= j < |m|
      ensures !Has(a, m[j].name)
    {
      assert Names(m)[j] == NewNames(a, b)[j - |a|];
      NewNamesAreNew(a, b, j - |a|);
    }
  }

  lemma {:induction false} NewNamesAreNew(a: seq<EnvVar>, b: seq<EnvVar>, k: nat)
    requires k < |NewNames(a, b)|
    ensures !Has(a, NewNames(a, b)[k])
  {
    var n := |b| - 1;
    if k < |NewNames(a, b[..n])| {
      NewNamesAreNew(a, b[..n], k);
    }
  }

  lemma {:induction false} MergeUpsert(a: seq<EnvVar>, b: seq<EnvVar>, v: EnvVar)
    ensures Merge(a, Upsert(b, v)) == Upsert(Merge(a, b), v)
  {
    if !Has(b, v.name) {
      assert (b + [v])[..|b|] == b;
    } else {
      var n := |b| - 1;
      var w := b[n];
      var m := Merge(a, b[..n]);
      if w.name == v.name {
        assert Replace(b, v)[..n] == b[..n];
        UpsertTwice(m, w, v);
      } else {
        HasInInit(b, v.name);
        assert Replace(b, v)[..n] == Replace(b[..n], v);
        MergeUpsert(a, b[..n], v);
        MergeLookup(a, b[..n], v.name);
        UpsertsCommute(m, v, w);
      }
    }
  }

  /** Merging is associative, as sequences. */
  lemma {:induction false} MergeAssociative(a: seq<EnvVar>, b: seq<EnvVar>, c: seq<EnvVar>)
    ensures Merge(Merge(a, b), c) == Merge(a, Merge(b, c))
  {
    if c != [] {
      var n := |c| - 1;
      MergeAssociative(a, b, c[..n]);
      MergeUpsert(a, Merge(b, c[..n]), c[n]);
    }
  }

  lemma {:induction false} LookupAtLastIndex(env: seq<EnvVar>, i: nat)
    requires i < |env| && IsLastIndex(env, env[i].name, i)
    ensures Lookup(env, env[i].name) == Some(env[i])
  {
    var n := |env| - 1;
    if i < n {
      LookupAtLastIndex(env[..n], i);
    }
  }

  lemma {:induction false} NoNewNames(a: seq<EnvVar>, b: seq<EnvVar>)
    requires forall i | 0 <= i < |b| :: Has(a, b[i].name)
    ensures NewNames(a, b) == []
  {
    if b != [] {
      NoNewNames(a, b[..|b| - 1]);
    }
  }

  /** Merging is idempotent: a list with itself, and a request sent twice. */
  lemma MergeIdempotent(a: seq<EnvVar>, b: seq<EnvVar>)
    ensures Merge(a, a) == a
    ensures Merge(Merge(a, b), b) == Merge(a, b)
  {
    SelfMerge(a);
    SelfMerge(b);
    MergeAssociative(a, b, b);
  }

  lemma SelfMerge(a: seq<EnvVar>)
    ensures Merge(a, a) == a
  {
    forall i | 0 <= i < |a|
      ensures Has(a, a[i].name)
    {
    }
    NoNewNames(a, a);
    MergeKeepsOrder(a, a);
    assert |Merge(a, a)| == |Names(Merge(a, a))| == |a|;
    forall i | 0 <= i < |a|
      ensures Merge(a, a)[i] == a[i]
    {
      MergeEntry(a, a, i);
      if IsLastIndex(a, a[i].name, i) {
        LookupAtLastIndex(a, i);
      }
    }
  }

  // ------------------------------------------------------------------ delete

  lemma {:induction false} WithoutAppend(a: seq<EnvVar>, v: EnvVar, key: string)
    ensures Without(a + [v], key) == Without(a, key) + (if v.name != key then [v] else [])
    ensures Without([], key) == []
  {
    assert (a + [v])[..|a|] == a;
  }

  lemma {:induction false} WithoutLookup(env: seq<EnvVar>, key: string, name: string)
    ensures Lookup(Without(env, key), name) == if name == key then None else Lookup(env, name)
    ensures Has(Without(env, key), name) <==> name != key && Has(env, name)
  {
    if env != [] {
      var n := |env| - 1;
      var rest := Without(env[..n], key);
      WithoutLookup(env[..n], key, name);
      if env[n].name != key {
        assert Without(env, key)[..|rest|] == rest;
      } else {
        assert Without(env, key) == rest;
      }
    }
    LookupFindsIff(Without(env, key), name);
    LookupFindsIff(env, name);
  }

  // Replace and Upsert look through a last entry of another name.
  lemma UpsertInInit(init: seq<EnvVar>, last: EnvVar, v: EnvVar)
    requires last.name != v.name && Has(init, v.name)
    ensures Upsert(init + [last], v) == Replace(init, v) + [last]
  {
    var i :| 0 <= i < |init| && init[i].name == v.name;
    assert (init + [last])[i].name == v.name;
    assert (init + [last])[..|init|] == init;
  }

  lemma {:induction false} WithoutReplace(env: seq<EnvVar>, v: EnvVar, key: string)
    requires Has(env, v.name)
    ensures Without(Replace(env, v), key) == if v.name == key then Without(env, key) else Upsert(Without(env, key), v)
  {
    var n := |env| - 1;
    if env[n].name == v.name {
      WithoutReplaceLast(env, v, key);
    } else {
      HasInInit(env, v.name);
      WithoutReplace(env[..n], v, key);
      assert env == env[..n] + [env[n]];
      OneMoreKept(env[..n], Replace(env[..n], v), env[n], v, key);
      hide Has, Upsert;
    }
  }

  // r is init with v replaced; a last entry of another name is kept or dropped in both.
  lemma OneMoreKept(init: seq<EnvVar>, r: seq<EnvVar>, last: EnvVar, v: EnvVar, key: string)
    requires Has(init, v.name) && last.name != v.name
    requires Without(r, key) == if v.name == key then Without(init, key) else Upsert(Without(init, key), v)
    ensures Without(r + [last], key)
            == if v.name == key then Without(init + [last], key) else Upsert(Without(init + [last], key), v)
  {
    var kept := if last.name != key then [last] else [];
    WithoutAppend(r, last, key);
    WithoutAppend(init, last, key);
    WithoutLookup(init, key, v.name);
    if v.name != key {
      UpsertBefore(Without(init, key), kept, v);
    }
    hide Has, Without, Replace, Upsert, Lookup;
  }

  lemma UpsertBefore(env: seq<EnvVar>, kept: seq<EnvVar>, v: EnvVar)
    requires Has(env, v.name) && |kept| <= 1 && (kept != [] ==> kept[0].name != v.name)
    ensures Upsert(env + kept, v) == Upsert(env, v) + kept
  {
    if kept == [] {
      assert env + kept == env;
    } else {
      assert kept == [kept[0]];
      UpsertInInit(env, kept[0], v);
    }
  }

  lemma WithoutReplaceLast(env: seq<EnvVar>, v: EnvVar, key: string)
    requires env != [] && env[|env| - 1].name == v.name
    ensures Has(env, v.name)
    ensures Without(Replace(env, v), key) == if v.name == key then Without(env, key) else Upsert(Without(env, key), v)
  {
    var n := |env| - 1;
    var rest := Without(env[..n], key);
    WithoutAppend(env[..n], v, key);
    if v.name != key {
      assert (rest + [env[n]])[|rest|].name == v.name;
      assert (rest + [env[n]])[..|rest|] == rest;
    }
  }

  lemma WithoutUpsert(env: seq<EnvVar>, v: EnvVar, key: string)
    ensures Without(Upsert(env, v), key) == if v.name == key then Without(env, key) else Upsert(Without(env, key), v)
  {
    if Has(env, v.name) {
      WithoutReplace(env, v, key);
    } else {
      WithoutAppend(env, v, key);
      WithoutLookup(env, key, v.name);
    }
  }

  /** Deleting a key distributes over merging, so merging one variable and deleting it again only deletes it. */
  lemma {:induction false} DeleteDistributes(a: seq<EnvVar>, b: seq<EnvVar>, key: string)
    ensures Without(Merge(a, b), key) == Merge(Without(a, key), Without(b, key))
  {
    if b != [] {
      var n := |b| - 1;
      DeleteDistributes(a, b[..n], key);
      WithoutUpsert(Merge(a, b[..n]), b[n], key);
      var rest := Without(b[..n], key);
      if b[n].name != key {
        assert Without(b, key)[..|rest|] == rest;
      } else {
        assert Without(b, key) == rest;
      }
    }
  }

  lemma MergeThenDelete(a: seq<EnvVar>, v: EnvVar)
    ensures Without(Merge(a, [v]), v.name) == Without(a, v.name)
  {
    DeleteDistributes(a, [v], v.name);
  }
}
