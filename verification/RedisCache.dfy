/**
 The Redis cache: a string key per field, and per agent an index set of field names with an expiry of its own. The
 methods are proved against the plain TTL map; what the index adds or loses is the subject of RedisIndex.
 */
module RedisCache {
  import opened Wrappers
  import opened TtlMap
  import opened Keys
  import opened RedisServer
  import opened Float64

  const DAY := 24 * 3600 * 1_000_000_000

  // No field key of one agent is one of the other's, and their namespaces are what Kubernetes allows. See
  // Keys.AgentsMeetIff.
  predicate Apart(a: Agent, b: Agent) {
    '/' !in a.namespace && '/' !in b.namespace && (a.namespace == b.namespace ==> !NamesMeet(a.name, b.name))
  }

  function Field(a: Agent, f: string): string {
    FieldKey(a.namespace, a.name, f)
  }

  function Index(a: Agent): string {
    IndexKey(a.namespace, a.name)
  }

  lemma OwnFields(a: Agent, f: string, g: string)
    ensures Field(a, f) == Field(a, g) <==> f == g
  {
    if Field(a, f) == Field(a, g) {
      SamePrefix("cache:" + a.namespace + "/" + a.name + ":", f, g);
    }
  }

  lemma KeysApart(a: Agent, f: string, b: Agent, g: string)
    requires Apart(a, b)
    ensures Field(a, f) != Field(b, g) && Index(a) != Index(b)
  {
    AgentsMeetIff(a.namespace, a.name, b.namespace, b.name);
    IndexAndHistoryKeysInjective(a.namespace, a.name, b.namespace, b.name);
  }

  lemma FieldsAreNoIndices(a: Agent, f: string, b: Agent)
    ensures Field(a, f) != Index(b)
  {
    FamiliesDisjoint(a.namespace, a.name, f, b.namespace, b.name);
  }

  // Index keys hold sets, none of them empty.
  ghost predicate Typed(s: Server) {
    forall a | Index(a) in s :: s[Index(a)].datum.Members? && s[Index(a)].datum.fields != {}
  }

  function Look(s: Server, a: Agent, f: string, t: int): Option<Entry> {
    Get(s, Field(a, f), t)
  }

  function Indexed(s: Server, a: Agent, t: int): set<string> {
    SMembers(s, Index(a), t)
  }

  function FromJson(e: Entry): Entry {
    e.(value := JsonRoundTrip(e.value))
  }

  // The entry that comes back is the one that was stored: its times, a text or a float64 as they are, and for an
  // integer a float64, which below 2^53 is the same number.
  predicate Returns(stored: Entry, back: Entry) {
    && back.createdAt == stored.createdAt && back.expiresAt == stored.expiresAt
    && match stored.value
       case Text(text) => back.value == Text(text)
       case Float64(n) => back.value == Float64(n)
       case Int64(n) =>
         back.value.Float64? && (-0x20_0000_0000_0000 < n < 0x20_0000_0000_0000 ==> back.value == Float64(n))
  }

  lemma JsonReturns(e: Entry)
    ensures Returns(e, FromJson(e))
  {
    if e.value.Int64? {
      ZeroIsFloat64();
      JsonNearest(e.value.n, 0);
    } else {
      JsonKeepsOthers(e.value);
    }
    hide JsonRoundTrip;
  }

  function DecodedOf(found: Option<Entry>): Option<Entry> {
    match found
    case None => None
    case Some(e) => Some(FromJson(e))
  }

  function ReadField(s: Server, a: Agent, f: string, t: int): Option<Entry> {
    DecodedOf(Look(s, a, f, t))
  }

  // The effect of each operation on the server.
  function SetOn(s: Server, a: Agent, f: string, value: Value, ttl: int, t: int): Server {
    var fs := Indexed(s, a, t) + {f};
    s[Field(a, f) := Slot(Str(NewEntry(value, ttl, t, t)), if ttl > 0 then Some(t + ttl) else None)]
     [Index(a) := Slot(Members(fs), Some(t + if ttl > 0 then 2 * ttl else DAY))]
  }

  function DeleteOn(s: Server, a: Agent, f: string, t: int): Server {
    var rest := s - {Field(a, f)};
    if f in Indexed(s, a, t) then WithMembers(rest, Index(a), Indexed(s, a, t) - {f}, s[Index(a)].deadline) else rest
  }

  function Pruned(s: Server, a: Agent, t: int, gone: set<string>): Server {
    if gone !! Indexed(s, a, t) then s
    else WithMembers(s, Index(a), Indexed(s, a, t) - gone, s[Index(a)].deadline)
  }

  // List takes out of the index what it did not find.
  function ListOn(s: Server, a: Agent, t: int): Server {
    Pruned(s, a, t, set f | f in Indexed(s, a, t) && Look(s, a, f, t).None?)
  }

  function FieldKeys(a: Agent, fields: set<string>): set<string> {
    set f | f in fields :: Field(a, f)
  }

  function ClearOn(s: Server, a: Agent, t: int): Server {
    s - (FieldKeys(a, Indexed(s, a, t)) + {Index(a)})
  }

  function ListOf(s: Server, a: Agent, t: int): Fields {
    map f | f in Indexed(s, a, t) && Look(s, a, f, t).Some? :: FromJson(Look(s, a, f, t).value)
  }

  // The server's strings of this agent answer like the plain map, now and later.
  ghost predicate Serves(s: Server, m: Fields, a: Agent, now: int) {
    forall f, t | now <= t :: Look(s, a, f, t) == Read(m, f, t)
  }

  lemma SetServes(s: Server, m: Fields, a: Agent, now: int, f: string, value: Value, ttl: int, t: int)
    requires Serves(s, m, a, now) && now <= t
    ensures Serves(SetOn(s, a, f, value, ttl, t), m[f := NewEntry(value, ttl, t, t)], a, t)
  {
    var s' := SetOn(s, a, f, value, ttl, t);
    forall g, u | t <= u
      ensures Look(s', a, g, u) == Read(m[f := NewEntry(value, ttl, t, t)], g, u)
    {
      OwnFields(a, f, g);
      FieldsAreNoIndices(a, f, a);
      FieldsAreNoIndices(a, g, a);
      assert Look(s, a, g, u) == Read(m, g, u);
      hide Field, Index;
    }
  }

  lemma DeleteServes(s: Server, m: Fields, a: Agent, now: int, f: string, t: int)
    requires Serves(s, m, a, now) && now <= t
    ensures Serves(DeleteOn(s, a, f, t), m - {f}, a, t)
  {
    var s' := DeleteOn(s, a, f, t);
    forall g, u | t <= u
      ensures Look(s', a, g, u) == Read(m - {f}, g, u)
    {
      OwnFields(a, f, g);
      FieldsAreNoIndices(a, f, a);
      FieldsAreNoIndices(a, g, a);
      assert Look(s, a, g, u) == Read(m, g, u);
      hide Field, Index;
    }
  }

  lemma ListServes(s: Server, m: Fields, a: Agent, now: int, t: int)
    requires Serves(s, m, a, now) && now <= t
    ensures Serves(ListOn(s, a, t), m, a, t)
  {
    var s' := ListOn(s, a, t);
    forall g, u | t <= u
      ensures Look(s', a, g, u) == Read(m, g, u)
    {
      FieldsAreNoIndices(a, g, a);
      assert Look(s, a, g, u) == Read(m, g, u);
      hide Field, Index;
    }
  }

  /** ClearAgent removes the fields that the index names, and no others. */
  lemma ClearServes(s: Server, m: Fields, a: Agent, now: int, t: int)
    requires Serves(s, m, a, now) && now <= t
    ensures Serves(ClearOn(s, a, t), m - Indexed(s, a, t), a, t)
  {
    var s' := ClearOn(s, a, t);
    forall g, u | t <= u
      ensures Look(s', a, g, u) == Read(m - Indexed(s, a, t), g, u)
    {
      FieldsAreNoIndices(a, g, a);
      assert Look(s, a, g, u) == Read(m, g, u);
      ClearedField(s, a, t, g);
      hide Field, Index;
    }
  }

  lemma ClearedField(s: Server, a: Agent, t: int, g: string)
    ensures Field(a, g) in ClearOn(s, a, t) <==> Field(a, g) in s && g !in Indexed(s, a, t)
  {
    var cleared := set f | f in Indexed(s, a, t) :: Field(a, f);
    FieldsAreNoIndices(a, g, a);
    if Field(a, g) in cleared {
      var f :| f in Indexed(s, a, t) && Field(a, f) == Field(a, g);
      OwnFields(a, f, g);
    }
  }

  // The two states hold the same under all keys of agent b.
  ghost predicate SameFor(s: Server, s': Server, b: Agent) {
    && (forall f ::
          && (Field(b, f) in s <==> Field(b, f) in s')
          && (Field(b, f) in s ==> s[Field(b, f)] == s'[Field(b, f)]))
    && (Index(b) in s <==> Index(b) in s') && (Index(b) in s ==> s[Index(b)] == s'[Index(b)])
  }

  /** An operation on one agent changes nothing under the keys of another that it cannot meet. */
  lemma OthersUntouched(s: Server, a: Agent, b: Agent, f: string, value: Value, ttl: int, t: int)
    requires Apart(a, b)
    ensures SameFor(s, SetOn(s, a, f, value, ttl, t), b)
    ensures SameFor(s, DeleteOn(s, a, f, t), b)
    ensures SameFor(s, ListOn(s, a, t), b)
    ensures SameFor(s, ClearOn(s, a, t), b)
  {
    FieldsAreNoIndices(a, f, b);
    forall g ensures Field(a, f) != Field(b, g) && Index(a) != Field(b, g) && Index(a) != Index(b) {
      KeysApart(a, f, b, g);
      FieldsAreNoIndices(b, g, a);
    }
    KeysApart(a, f, b, f);
    ClearMissesOthers(s, a, b, t);
    hide Field, Index;
  }

  lemma ClearMissesOthers(s: Server, a: Agent, b: Agent, t: int)
    requires Apart(a, b)
    ensures SameFor(s, ClearOn(s, a, t), b)
  {
    KeysApart(a, "", b, "");
    var cleared := FieldKeys(a, Indexed(s, a, t));
    forall g ensures Field(b, g) !in cleared && Field(b, g) != Index(a) {
      FieldsAreNoIndices(b, g, a);
      if Field(b, g) in cleared {
        var f :| f in Indexed(s, a, t) && Field(b, g) == Field(a, f);
        KeysApart(a, f, b, g);
      }
    }
    if Index(b) in cleared {
      var f :| f in Indexed(s, a, t) && Index(b) == Field(a, f);
      FieldsAreNoIndices(a, f, b);
    }
    hide Field, Index, Indexed;
  }

  lemma SameForReadsAlike(s: Server, s': Server, b: Agent, t: int)
    requires SameFor(s, s', b)
    ensures Indexed(s', b, t) == Indexed(s, b, t)
    ensures forall f :: Look(s', b, f, t) == Look(s, b, f, t)
    ensures ListOf(s', b, t) == ListOf(s, b, t)
  {
    hide Field, Index;
  }

  lemma StaysTyped(s: Server, a: Agent, f: string, value: Value, ttl: int, t: int)
    requires Typed(s)
    ensures Typed(SetOn(s, a, f, value, ttl, t))
    ensures Typed(DeleteOn(s, a, f, t))
    ensures Typed(ListOn(s, a, t))
    ensures Typed(ClearOn(s, a, t))
  {
    forall b ensures Field(a, f) != Index(b) {
      FieldsAreNoIndices(a, f, b);
    }
    hide Field, Index, Indexed, Look;
  }

  // ---- The whole store: one plain map from field keys to entries, whatever the names of the agents are

  ghost predicate ServesAll(s: Server, plain: Fields, now: int) {
    forall a, f, t | now <= t :: Look(s, a, f, t) == Read(plain, Field(a, f), t)
  }

  lemma SetServesAll(s: Server, plain: Fields, now: int, a: Agent, f: string, value: Value, ttl: int, t: int)
    requires ServesAll(s, plain, now) && now <= t
    ensures ServesAll(SetOn(s, a, f, value, ttl, t), plain[Field(a, f) := NewEntry(value, ttl, t, t)], t)
  {
    forall b, g, u | t <= u
      ensures Look(SetOn(s, a, f, value, ttl, t), b, g, u)
          == Read(plain[Field(a, f) := NewEntry(value, ttl, t, t)], Field(b, g), u)
    {
      FieldsAreNoIndices(b, g, a);
      assert Look(s, b, g, u) == Read(plain, Field(b, g), u);
      hide Field, Index;
    }
  }

  // Taking field keys and the index key away, or changing the index alone.
  lemma RemovalServesAll(s: Server, plain: Fields, now: int, a: Agent, keys: set<string>, s': Server, t: int)
    requires ServesAll(s, plain, now) && now <= t
    requires forall k | k != Index(a) :: (k in s' <==> k in s && k !in keys) && (k in s' ==> s'[k] == s[k])
    ensures ServesAll(s', plain - keys, t)
  {
    forall b, g, u | t <= u
      ensures Look(s', b, g, u) == Read(plain - keys, Field(b, g), u)
    {
      FieldsAreNoIndices(b, g, a);
      assert Look(s, b, g, u) == Read(plain, Field(b, g), u);
      hide Field, Index;
    }
  }

  lemma DeleteServesAll(s: Server, plain: Fields, now: int, a: Agent, f: string, t: int)
    requires ServesAll(s, plain, now) && now <= t
    ensures ServesAll(DeleteOn(s, a, f, t), plain - {Field(a, f)}, t)
  {
    FieldsAreNoIndices(a, f, a);
    hide ServesAll, Field, Index;
    RemovalServesAll(s, plain, now, a, {Field(a, f)}, DeleteOn(s, a, f, t), t);
  }

  lemma PruneServesAll(s: Server, plain: Fields, now: int, a: Agent, gone: set<string>, t: int, u: int)
    requires ServesAll(s, plain, now) && now <= u
    ensures ServesAll(Pruned(s, a, t, gone), plain, u)
  {
    hide ServesAll, Field, Index;
    RemovalServesAll(s, plain, now, a, {}, Pruned(s, a, t, gone), u);
    assert plain - {} == plain;
  }

  lemma ClearServesAll(s: Server, plain: Fields, now: int, a: Agent, t: int)
    requires ServesAll(s, plain, now) && now <= t
    ensures ServesAll(ClearOn(s, a, t), plain - FieldKeys(a, Indexed(s, a, t)), t)
  {
    hide ServesAll, Field, Index;
    RemovalServesAll(s, plain, now, a, FieldKeys(a, Indexed(s, a, t)), ClearOn(s, a, t), t);
  }

  lemma ListReturns(s: Server, plain: Fields, now: int, a: Agent, t: int)
    requires ServesAll(s, plain, now) && now <= t
    ensures forall f | f in ListOf(s, a, t) ::
              IsLive(plain, Field(a, f), t) && Returns(plain[Field(a, f)], ListOf(s, a, t)[f])
  {
    forall f | f in ListOf(s, a, t)
      ensures IsLive(plain, Field(a, f), t) && Returns(plain[Field(a, f)], ListOf(s, a, t)[f])
    {
      assert Look(s, a, f, t) == Read(plain, Field(a, f), t);
      ReadsWhatIsLive(plain, Field(a, f), t);
      JsonReturns(plain[Field(a, f)]);
      hide Returns, FromJson, Field, Index;
    }
  }

  class RedisCache {
    var server: Server
    ghost var plain: Fields    // by field key
    ghost var now: int

    ghost predicate Valid()
      reads this
    {
      Typed(server) && ServesAll(server, plain, now)
    }

    constructor ()
      ensures Valid() && plain == map[] && server == map[] && now == 0
    {
      server := map[];
      plain := map[];
      now := 0;
    }

    method Set(a: Agent, field: string, value: Value, ttl: int, t: int)
      requires Valid() && now <= t
      modifies this
      ensures Valid() && now == t
      ensures plain == old(plain)[Field(a, field) := NewEntry(value, ttl, t, t)]
      ensures plain[Field(a, field)] == Entry(value, t, if ttl > 0 then Some(t + ttl) else None)
      ensures server == SetOn(old(server), a, field, value, ttl, t)
    {
      SetCommands(server, a, field, value, ttl, t);
      SetServesAll(server, plain, now, a, field, value, ttl, t);
      StaysTyped(server, a, field, value, ttl, t);
      hide ServesAll, Typed;
      server := SetKey(server, Field(a, field), NewEntry(value, ttl, t, t), ttl, t);
      server := SAdd(server, Index(a), field, t);
      if ttl > 0 {
        server := Expire(server, Index(a), ttl * 2, t);
      } else {
        server := Expire(server, Index(a), DAY, t);
      }
      plain := plain[Field(a, field) := NewEntry(value, ttl, t, t)];
      now := t;
    }

    method GetEntry(a: Agent, field: string, t: int) returns (found: Option<Entry>)
      requires Valid() && now <= t
      ensures found == DecodedOf(Read(plain, Field(a, field), t))
      ensures found.Some? <==> IsLive(plain, Field(a, field), t)
      ensures found.Some? ==> Returns(plain[Field(a, field)], found.value)
    {
      ReadsWhatIsLive(plain, Field(a, field), t);
      if IsLive(plain, Field(a, field), t) {
        JsonReturns(plain[Field(a, field)]);
      }
      assert Look(server, a, field, t) == Read(plain, Field(a, field), t);
      found := ReadField(server, a, field, t);
    }

    method Delete(a: Agent, field: string, t: int)
      requires Valid() && now <= t
      modifies this
      ensures Valid() && now == t
      ensures plain == old(plain) - {Field(a, field)}
      ensures server == DeleteOn(old(server), a, field, t)
    {
      DeleteCommands(server, a, field, t);
      DeleteServesAll(server, plain, now, a, field, t);
      StaysTyped(server, a, field, Text(""), 0, t);
      hide ServesAll, Typed;
      server := Del(server, {Field(a, field)});
      server := SRem(server, Index(a), field, t);
      plain := plain - {Field(a, field)};
      now := t;
    }

    /** List returns the indexed fields that are alive, and prunes the others from the index. */
    method List(a: Agent, t: int) returns (result: Fields)
      requires Valid() && now <= t
      modifies this`server, this`now
      ensures Valid() && now == t && plain == old(plain)
      ensures server == ListOn(old(server), a, t)
      ensures result == ListOf(old(server), a, t)
      ensures forall f | f in result :: IsLive(plain, Field(a, f), t) && Returns(plain[Field(a, f)], result[f])
    {
      ListReturns(server, plain, now, a, t);
      ghost var before := server;
      var fields := SMembers(server, Index(a), t);
      result := map[];
      var left := fields;
      ghost var gone := {};
      while left != {}
        invariant left <= fields == Indexed(before, a, t) && now == old(now)
        invariant server == Pruned(before, a, t, gone)
        invariant gone == set f | f in fields && f !in left && Look(before, a, f, t).None?
        invariant result == map f | f in fields && f !in left && Look(before, a, f, t).Some? ::
            FromJson(Look(before, a, f, t).value)
        decreases left
      {
        var f :| f in left;
        PrunedLooksAlike(before, a, t, gone, f);
        var entry := ReadField(server, a, f, t);
        if entry.Some? {
          result := result[f := entry.value];
        } else {
          PruneOneMore(before, a, t, gone, f);
          server := SRem(server, Index(a), f, t);
          gone := gone + {f};
        }
        left := left - {f};
      }
      assert gone == set f | f in fields && Look(before, a, f, t).None?;
      assert result == ListOf(before, a, t);
      PruneServesAll(before, plain, now, a, gone, t, t);
      StaysTyped(before, a, "", Text(""), 0, t);
      hide ServesAll, Typed, Pruned;
      now := t;
    }

    /** ClearAgent removes what the index names; what it does not name survives. */
    method ClearAgent(a: Agent, t: int)
      requires Valid() && now <= t
      modifies this
      ensures Valid() && now == t
      ensures plain == old(plain) - FieldKeys(a, Indexed(old(server), a, t))
      ensures server == ClearOn(old(server), a, t)
    {
      ClearServesAll(server, plain, now, a, t);
      StaysTyped(server, a, "", Text(""), 0, t);
      hide ServesAll, Typed;
      var fields := SMembers(server, Index(a), t);
      var keys := {};
      var left := fields;
      while left != {}
        invariant left <= fields
        invariant keys == FieldKeys(a, fields - left)
        decreases left
      {
        var f :| f in left;
        keys := keys + {Field(a, f)};
        left := left - {f};
      }
      assert fields - left == fields;
      keys := keys + {Index(a)};
      server := Del(server, keys);
      plain := plain - FieldKeys(a, fields);
      now := t;
    }
  }

  lemma StillServes(s: Server, s': Server, m: Fields, b: Agent, now: int, t: int)
    requires Serves(s, m, b, now) && SameFor(s, s', b) && now <= t
    ensures Serves(s', m, b, t)
  {
    forall f, u | t <= u
      ensures Look(s', b, f, u) == Read(m, f, u)
    {
      assert Look(s, b, f, u) == Read(m, f, u);
    }
  }

  lemma PrunedLooksAlike(s: Server, a: Agent, t: int, gone: set<string>, f: string)
    ensures Look(Pruned(s, a, t, gone), a, f, t) == Look(s, a, f, t)
  {
    FieldsAreNoIndices(a, f, a);
    hide Field, Index;
  }

  lemma PruneOneMore(s: Server, a: Agent, t: int, gone: set<string>, f: string)
    requires Typed(s) && f in Indexed(s, a, t) && f !in gone && gone <= Indexed(s, a, t)
    ensures SRem(Pruned(s, a, t, gone), Index(a), f, t) == Pruned(s, a, t, gone + {f})
  {
    var fs, d := Indexed(s, a, t), s[Index(a)].deadline;
    assert f in fs - gone;
    assert fs - gone - {f} == fs - (gone + {f});
    if gone == {} {
      assert fs - gone == fs;
    } else {
      assert Pruned(s, a, t, gone) == s[Index(a) := Slot(Members(fs - gone), d)];
    }
    hide Index;
  }

  lemma SetCommands(s: Server, a: Agent, f: string, value: Value, ttl: int, t: int)
    requires Typed(s)
    ensures var s1 := SetKey(s, Field(a, f), NewEntry(value, ttl, t, t), ttl, t);
            var s2 := SAdd(s1, Index(a), f, t);
            Expire(s2, Index(a), if ttl > 0 then ttl * 2 else DAY, t) == SetOn(s, a, f, value, ttl, t)
  {
    FieldsAreNoIndices(a, f, a);
    var s1 := SetKey(s, Field(a, f), NewEntry(value, ttl, t, t), ttl, t);
    assert Find(s1, Index(a), t) == Find(s, Index(a), t);
    var fs := Indexed(s, a, t) + {f};
    if Find(s, Index(a), t).None? {
      assert fs == {f};
    }
    var s2 := SAdd(s1, Index(a), f, t);
    assert s2[Index(a)].datum == Members(fs) && !Due(s2[Index(a)].deadline, t);
    assert s2 == s1[Index(a) := s2[Index(a)]];
    hide Field, Index, Find, Indexed;
  }

  lemma DeleteCommands(s: Server, a: Agent, f: string, t: int)
    requires Typed(s)
    ensures SRem(Del(s, {Field(a, f)}), Index(a), f, t) == DeleteOn(s, a, f, t)
  {
    FieldsAreNoIndices(a, f, a);
    var rest := Del(s, {Field(a, f)});
    assert Find(rest, Index(a), t) == Find(s, Index(a), t);
    if Find(s, Index(a), t).Some? && f !in Indexed(s, a, t) {
      assert Indexed(s, a, t) - {f} == Indexed(s, a, t);
    }
    hide Field, Index;
  }
}
