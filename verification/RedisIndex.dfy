/**
 Whether the index set of the Redis cache agrees with the entries it speeds up: what each operation needs to keep it
 so, which runs always have it, and how it is lost.
 */
module RedisIndex {
  import opened Wrappers
  import opened TtlMap
  import opened Keys
  import opened RedisServer
  import opened RedisCache

  ghost predicate Lives(s: Server, a: Agent, f: string, t: int) {
    Look(s, a, f, t).Some?
  }

  // A key with deadline d stays at least as long as one with deadline e.
  predicate Outlives(d: Option<int>, e: Option<int>) {
    d.None? || (e.Some? && e.value <= d.value)
  }

  // Every live entry is indexed, and the index stays as long as the entry.
  ghost predicate Covers(s: Server, a: Agent, t: int) {
    forall f | Lives(s, a, f, t) ::
      f in Indexed(s, a, t) && Outlives(s[Index(a)].deadline, s[Field(a, f)].deadline)
  }

  /** List never invents: what it returns is what GetEntry would return. */
  lemma ListOnlyWhatGetEntryFinds(s: Server, a: Agent, t: int, f: string)
    ensures f in ListOf(s, a, t) ==> ReadField(s, a, f, t) == Some(ListOf(s, a, t)[f])
    ensures f in ListOf(s, a, t) <==> f in Indexed(s, a, t) && ReadField(s, a, f, t).Some?
  {
  }

  /** Covering is exactly what makes List complete from now on, for as long as nobody writes. */
  lemma CoversIff(s: Server, a: Agent, t: int)
    requires Typed(s)
    ensures Covers(s, a, t) <==> forall u, f | t <= u && Lives(s, a, f, u) :: f in ListOf(s, a, u)
  {
    if forall u, f | t <= u && Lives(s, a, f, u) :: f in ListOf(s, a, u) {
      forall f | Lives(s, a, f, t)
        ensures f in Indexed(s, a, t) && Outlives(s[Index(a)].deadline, s[Field(a, f)].deadline)
      {
        assert f in ListOf(s, a, t);
        if s[Index(a)].deadline.Some? {
          var u := s[Index(a)].deadline.value + 1;
          assert f !in ListOf(s, a, u);
          assert !Lives(s, a, f, u);
        }
      }
    }
    if Covers(s, a, t) {
      forall u, f | t <= u && Lives(s, a, f, u)
        ensures f in ListOf(s, a, u)
      {
        assert Lives(s, a, f, t);
      }
    }
  }

  lemma CoversLater(s: Server, a: Agent, t: int, u: int)
    requires Typed(s) && Covers(s, a, t) && t <= u
    ensures Covers(s, a, u)
  {
    forall f | Lives(s, a, f, u)
      ensures f in Indexed(s, a, u) && Outlives(s[Index(a)].deadline, s[Field(a, f)].deadline)
    {
      assert Lives(s, a, f, t);
    }
  }

  // What a Set with this ttl needs of the agent's other entries.
  ghost predicate OthersEndBy(s: Server, a: Agent, f: string, t: int, end: int) {
    forall g | g != f && Lives(s, a, g, t) :: s[Field(a, g)].deadline.Some? && s[Field(a, g)].deadline.value <= end
  }

  // How Set changes the two keys of a field.
  lemma AfterSet(s: Server, a: Agent, f: string, value: Value, ttl: int, t: int, g: string)
    ensures var s' := SetOn(s, a, f, value, ttl, t);
            && Index(a) in s' && s'[Index(a)].deadline == Some(t + if ttl > 0 then 2 * ttl else DAY)
            && Indexed(s', a, t) == Indexed(s, a, t) + {f}
            && (g != f ==> (Field(a, g) in s' <==> Field(a, g) in s))
            && (g != f && Field(a, g) in s ==> s'[Field(a, g)] == s[Field(a, g)])
            && (g != f ==> (Lives(s', a, g, t) <==> Lives(s, a, g, t)))
    ensures var s' := SetOn(s, a, f, value, ttl, t);
            && Field(a, f) in s' && Lives(s', a, f, t)
            && s'[Field(a, f)].deadline == (if ttl > 0 then Some(t + ttl) else None)
  {
    OwnFields(a, f, g);
    FieldsAreNoIndices(a, f, a);
    FieldsAreNoIndices(a, g, a);
    hide Field, Index;
  }

  /** Set keeps the index complete exactly when it has a ttl and every other entry ends within twice that ttl. */
  lemma SetKeepsCoverIff(s: Server, a: Agent, f: string, value: Value, ttl: int, t: int)
    requires Typed(s) && Covers(s, a, t)
    ensures Covers(SetOn(s, a, f, value, ttl, t), a, t) <==> ttl > 0 && OthersEndBy(s, a, f, t, t + 2 * ttl)
  {
    var s' := SetOn(s, a, f, value, ttl, t);
    forall g
      ensures Lives(s', a, g, t) <==> g == f || Lives(s, a, g, t)
      ensures Lives(s, a, g, t) ==> g in Indexed(s, a, t)
      ensures g != f && Lives(s, a, g, t) ==> s'[Field(a, g)] == s[Field(a, g)]
    {
      AfterSet(s, a, f, value, ttl, t, g);
    }
    AfterSet(s, a, f, value, ttl, t, f);
    hide SetOn, Lives, Indexed, Field, Index;
    if Covers(s', a, t) {
      assert Lives(s', a, f, t);
    }
  }

  /** Delete and List keep the index complete. */
  lemma DeleteKeepsCover(s: Server, a: Agent, f: string, t: int)
    requires Typed(s) && Covers(s, a, t)
    ensures Covers(DeleteOn(s, a, f, t), a, t)
  {
    var s' := DeleteOn(s, a, f, t);
    forall g | Lives(s', a, g, t)
      ensures g in Indexed(s', a, t) && Outlives(s'[Index(a)].deadline, s'[Field(a, g)].deadline)
    {
      OwnFields(a, f, g);
      FieldsAreNoIndices(a, f, a);
      FieldsAreNoIndices(a, g, a);
      assert Lives(s, a, g, t);
      hide Field, Index;
    }
  }

  // Removing one field from the index, as List does with a field it did not find.
  lemma AfterPrune(s: Server, a: Agent, f: string, t: int, g: string)
    requires Typed(s)
    ensures var s' := SRem(s, Index(a), f, t);
            && (Lives(s', a, g, t) <==> Lives(s, a, g, t))
            && Indexed(s', a, t) == Indexed(s, a, t) - {f}
            && (Lives(s, a, g, t) ==> s'[Field(a, g)] == s[Field(a, g)])
            && (Indexed(s', a, t) != {} ==> s'[Index(a)].deadline == s[Index(a)].deadline)
  {
    FieldsAreNoIndices(a, g, a);
    hide Field, Index;
  }

  /**
   The prune of a List that interleaves with writers keeps the index complete exactly when the field is not live at
   that moment. List looked earlier: a Set between its look and its prune is hidden from every later List.
   */
  lemma PruneKeepsCoverIff(s: Server, a: Agent, f: string, t: int)
    requires Typed(s) && Covers(s, a, t)
    ensures Covers(SRem(s, Index(a), f, t), a, t) <==> !Lives(s, a, f, t)
  {
    var s' := SRem(s, Index(a), f, t);
    forall g
      ensures Lives(s', a, g, t) <==> Lives(s, a, g, t)
      ensures Lives(s, a, g, t) ==> s'[Field(a, g)] == s[Field(a, g)]
      ensures Lives(s, a, g, t) ==> g in Indexed(s, a, t)
    {
      AfterPrune(s, a, f, t, g);
    }
    AfterPrune(s, a, f, t, f);
    hide SRem, Lives, Indexed, Field, Index;
    if Covers(s', a, t) {
      assert f !in Indexed(s', a, t);
    }
  }

  /** The race spelt out: the value just written is there, but neither List nor ClearAgent sees it. */
  lemma SetBeforePruneIsHidden(s: Server, a: Agent, f: string, value: Value, ttl: int, t: int)
    requires Typed(s)
    ensures var s' := SRem(SetOn(s, a, f, value, ttl, t), Index(a), f, t);
            Lives(s', a, f, t) && f !in ListOf(s', a, t) && Lives(ClearOn(s', a, t), a, f, t)
  {
    var s1 := SetOn(s, a, f, value, ttl, t);
    StaysTyped(s, a, f, value, ttl, t);
    AfterSet(s, a, f, value, ttl, t, f);
    AfterPrune(s1, a, f, t, f);
    var s' := SRem(s1, Index(a), f, t);
    ClearedField(s', a, t, f);
    hide SRem, SetOn, Field, Index;
  }

  lemma ListKeepsCover(s: Server, a: Agent, t: int)
    requires Typed(s) && Covers(s, a, t)
    ensures Covers(ListOn(s, a, t), a, t)
  {
    var s' := ListOn(s, a, t);
    forall g | Lives(s', a, g, t)
      ensures g in Indexed(s', a, t) && Outlives(s'[Index(a)].deadline, s'[Field(a, g)].deadline)
    {
      FieldsAreNoIndices(a, g, a);
      assert Lives(s, a, g, t);
      hide Field, Index;
    }
  }

  /** ClearAgent leaves nothing exactly when the index named every live entry. */
  lemma ClearEmptiesIff(s: Server, a: Agent, t: int)
    ensures (forall f, u | t <= u :: !Lives(ClearOn(s, a, t), a, f, u))
       <==> (forall f | Lives(s, a, f, t) :: f in Indexed(s, a, t))
  {
    var s' := ClearOn(s, a, t);
    forall f, u | t <= u
      ensures Lives(s', a, f, u) <==> Lives(s, a, f, u) && f !in Indexed(s, a, t)
      ensures Lives(s, a, f, u) ==> Lives(s, a, f, t)
    {
      ClearedField(s, a, t, f);
      hide Field, Index;
    }
    hide Lives, Indexed, ClearOn;
    if forall f, u | t <= u :: !Lives(s', a, f, u) {
      forall f | Lives(s, a, f, t) ensures f in Indexed(s, a, t) {
        assert !Lives(s', a, f, t);
      }
    }
  }

  // ---- Runs ----

  datatype Op =
    | Set(agent: Agent, field: string, value: Value, ttl: int, t: int)
    | Delete(agent: Agent, field: string, t: int)
    | List(agent: Agent, t: int)
    | Clear(agent: Agent, t: int)

  function Apply(s: Server, op: Op): Server {
    match op
    case Set(a, f, v, ttl, t) => SetOn(s, a, f, v, ttl, t)
    case Delete(a, f, t) => DeleteOn(s, a, f, t)
    case List(a, t) => ListOn(s, a, t)
    case Clear(a, t) => ClearOn(s, a, t)
  }

  function ApplyPlain(m: Fields, op: Op): Fields {
    match op
    case Set(_, f, v, ttl, t) => m[f := NewEntry(v, ttl, t, t)]
    case Delete(_, f, _) => m - {f}
    case List(_, _) => m
    case Clear(_, _) => map[]
  }

  function Run(ops: seq<Op>): Server {
    if ops == [] then map[] else Apply(Run(ops[..|ops| - 1]), ops[|ops| - 1])
  }

  // The plain map of one agent after the operations on it.
  function Plain(ops: seq<Op>, a: Agent): Fields {
    if ops == [] then map[]
    else
      var m, op := Plain(ops[..|ops| - 1], a), ops[|ops| - 1];
      if op.agent == a then ApplyPlain(m, op) else m
  }

  // The clock does not go back, and the agents that a shares the server with cannot meet it.
  predicate InOrder(ops: seq<Op>, a: Agent, now: int) {
    && (forall i | 0 <= i < |ops| :: (ops[i].agent == a || Apart(ops[i].agent, a)) && ops[i].t <= now)
    && (forall i, j | 0 <= i < j < |ops| :: ops[i].t <= ops[j].t)
  }

  // All time-to-live values used on the agent lie between m and 2m.
  predicate InBand(ops: seq<Op>, a: Agent, m: int) {
    m > 0 && forall i | 0 <= i < |ops| && ops[i].agent == a && ops[i].Set? :: m <= ops[i].ttl <= 2 * m
  }

  // What holds at every moment of such a run.
  ghost predicate Banded(s: Server, a: Agent, m: int, t: int) {
    && Covers(s, a, t)
    && forall f | Lives(s, a, f, t) :: s[Field(a, f)].deadline.Some? && s[Field(a, f)].deadline.value <= t + 2 * m
  }

  lemma BandedLater(s: Server, a: Agent, m: int, t: int, u: int)
    requires Typed(s) && Banded(s, a, m, t) && t <= u
    ensures Banded(s, a, m, u)
  {
    CoversLater(s, a, t, u);
    forall f | Lives(s, a, f, u) ensures Lives(s, a, f, t) {
    }
    hide Covers, Field;
  }

  lemma SetKeepsBanded(s: Server, a: Agent, m: int, f: string, value: Value, ttl: int, t: int)
    requires Typed(s) && Banded(s, a, m, t) && 0 < m <= ttl <= 2 * m
    ensures Banded(SetOn(s, a, f, value, ttl, t), a, m, t)
  {
    SetKeepsCoverIff(s, a, f, value, ttl, t);
    var s' := SetOn(s, a, f, value, ttl, t);
    forall g | Lives(s', a, g, t)
      ensures s'[Field(a, g)].deadline.Some? && s'[Field(a, g)].deadline.value <= t + 2 * m
    {
      AfterSet(s, a, f, value, ttl, t, g);
      hide SetOn, Lives, Indexed, Field, Index;
      assert g != f ==> Lives(s, a, g, t);
    }
    hide SetOn, Lives, Indexed, Field, Index, Covers;
  }

  lemma DeleteKeepsBanded(s: Server, a: Agent, m: int, f: string, t: int)
    requires Typed(s) && Banded(s, a, m, t)
    ensures Banded(DeleteOn(s, a, f, t), a, m, t)
  {
    DeleteKeepsCover(s, a, f, t);
    forall g | Lives(DeleteOn(s, a, f, t), a, g, t)
      ensures Lives(s, a, g, t) && DeleteOn(s, a, f, t)[Field(a, g)] == s[Field(a, g)]
    {
      OwnFields(a, f, g);
      FieldsAreNoIndices(a, f, a);
      FieldsAreNoIndices(a, g, a);
      hide Field, Index;
    }
    hide Field, Index, Covers, DeleteOn;
  }

  lemma ListKeepsBanded(s: Server, a: Agent, m: int, t: int)
    requires Typed(s) && Banded(s, a, m, t)
    ensures Banded(ListOn(s, a, t), a, m, t)
  {
    ListKeepsCover(s, a, t);
    forall g | Lives(ListOn(s, a, t), a, g, t)
      ensures Lives(s, a, g, t) && ListOn(s, a, t)[Field(a, g)] == s[Field(a, g)]
    {
      FieldsAreNoIndices(a, g, a);
      hide Field, Index;
    }
    hide Field, Index, Covers, ListOn;
  }

  lemma ClearKeepsBanded(s: Server, a: Agent, m: int, t: int)
    requires Banded(s, a, m, t)
    ensures Banded(ClearOn(s, a, t), a, m, t)
    ensures forall f, u | t <= u :: !Lives(ClearOn(s, a, t), a, f, u)
  {
    ClearEmptiesIff(s, a, t);
    hide ClearOn, Lives;
  }

  lemma OtherKeepsBanded(s: Server, s': Server, b: Agent, m: int, t: int)
    requires Banded(s, b, m, t) && SameFor(s, s', b)
    ensures Banded(s', b, m, t)
  {
    SameForReadsAlike(s, s', b, t);
    forall f | Lives(s', b, f, t) ensures Lives(s, b, f, t) {
    }
    hide Field, Index, Indexed, Look;
  }

  lemma ApplyKeepsBanded(s: Server, op: Op, a: Agent, m: int, t: int)
    requires Typed(s) && Banded(s, a, m, t) && t <= op.t && (op.agent == a || Apart(op.agent, a))
    requires op.agent == a && op.Set? ==> 0 < m <= op.ttl <= 2 * m
    ensures Banded(Apply(s, op), a, m, op.t)
  {
    BandedLater(s, a, m, t, op.t);
    hide Banded, SetOn, DeleteOn, ListOn, ClearOn, Typed;
    if op.agent != a {
      OtherSteps(s, op, a);
      OtherKeepsBanded(s, Apply(s, op), a, m, op.t);
    } else {
      match op
      case Set(_, f, v, ttl, u) => SetKeepsBanded(s, a, m, f, v, ttl, u);
      case Delete(_, f, u) => DeleteKeepsBanded(s, a, m, f, u);
      case List(_, u) => ListKeepsBanded(s, a, m, u);
      case Clear(_, u) => ClearKeepsBanded(s, a, m, u);
    }
  }

  /** No operation on one agent reaches another that it cannot meet. */
  lemma OtherSteps(s: Server, op: Op, b: Agent)
    requires Apart(op.agent, b)
    ensures SameFor(s, Apply(s, op), b)
  {
    hide SameFor, SetOn, DeleteOn, ListOn, ClearOn;
    match op
    case Set(a, f, v, ttl, t) => OthersUntouched(s, a, b, f, v, ttl, t);
    case Delete(a, f, t) => OthersUntouched(s, a, b, f, Text(""), 0, t);
    case List(a, t) => OthersUntouched(s, a, b, "", Text(""), 0, t);
    case Clear(a, t) => OthersUntouched(s, a, b, "", Text(""), 0, t);
  }

  lemma ApplyKeepsTyped(s: Server, op: Op)
    requires Typed(s)
    ensures Typed(Apply(s, op))
  {
    hide Typed, SetOn, DeleteOn, ListOn, ClearOn;
    match op
    case Set(a, f, v, ttl, t) => StaysTyped(s, a, f, v, ttl, t);
    case Delete(a, f, t) => StaysTyped(s, a, f, Text(""), 0, t);
    case List(a, t) => StaysTyped(s, a, "", Text(""), 0, t);
    case Clear(a, t) => StaysTyped(s, a, "", Text(""), 0, t);
  }

  lemma ApplyServes(s: Server, op: Op, a: Agent, plain: Fields, m: int, t: int)
    requires Typed(s) && Serves(s, plain, a, t) && Banded(s, a, m, t) && t <= op.t
        && (op.agent == a || Apart(op.agent, a))
    ensures Serves(Apply(s, op), if op.agent == a then ApplyPlain(plain, op) else plain, a, op.t)
  {
    BandedLater(s, a, m, t, op.t);
    hide Banded, Serves, SetOn, DeleteOn, ListOn, ClearOn, Typed;
    if op.agent != a {
      OtherSteps(s, op, a);
      StillServes(s, Apply(s, op), plain, a, t, op.t);
    } else {
      match op
      case Set(_, f, v, ttl, u) => SetServes(s, plain, a, t, f, v, ttl, u);
      case Delete(_, f, u) => DeleteServes(s, plain, a, t, f, u);
      case List(_, u) => ListServes(s, plain, a, t, u);
      case Clear(_, u) =>
        ClearKeepsBanded(s, a, m, u);
        NothingServed(ClearOn(s, a, u), a, u);
    }
  }

  lemma NothingServed(s: Server, a: Agent, t: int)
    requires forall f, u | t <= u :: !Lives(s, a, f, u)
    ensures Serves(s, map[], a, t)
  {
    forall f, u | t <= u
      ensures Look(s, a, f, u) == Read(map[], f, u)
    {
      assert !Lives(s, a, f, u);
    }
  }

  lemma {:induction false} RunInvariant(ops: seq<Op>, a: Agent, m: int, now: int)
    requires InOrder(ops, a, now) && InBand(ops, a, m)
    ensures Typed(Run(ops)) && Banded(Run(ops), a, m, now) && Serves(Run(ops), Plain(ops, a), a, now)
    decreases |ops|
  {
    if ops != [] {
      var n := |ops| - 1;
      var op := ops[n];
      RunInvariant(ops[..n], a, m, op.t);
      var s := Run(ops[..n]);
      hide Banded, Typed, Serves, Apply;
      ApplyKeepsTyped(s, op);
      ApplyKeepsBanded(s, op, a, m, op.t);
      ApplyServes(s, op, a, Plain(ops[..n], a), m, op.t);
      BandedLater(Apply(s, op), a, m, op.t, now);
      SameForItself(Apply(s, op), a);
      StillServes(Apply(s, op), Apply(s, op), Plain(ops, a), a, op.t, now);
    }
  }

  lemma SameForItself(s: Server, a: Agent)
    ensures SameFor(s, s, a)
  {
  }

  /**
   Whatever is done to any number of agents, and in whatever order: when the time-to-live values used on one agent lie
   within a factor of two, then reading a field, listing and clearing that agent all agree with the plain TTL map.
   */
  lemma IndexAgreesInBand(ops: seq<Op>, a: Agent, m: int, now: int)
    requires InOrder(ops, a, now) && InBand(ops, a, m)
    ensures forall f :: ReadField(Run(ops), a, f, now) == DecodedOf(Read(Plain(ops, a), f, now))
    ensures ListOf(Run(ops), a, now) == map f | f in LiveFields(Plain(ops, a), now) :: FromJson(Plain(ops, a)[f])
  {
    RunInvariant(ops, a, m, now);
    var s, plain := Run(ops), Plain(ops, a);
    hide Run, Plain, InBand, InOrder;
    forall f
      ensures Look(s, a, f, now) == Read(plain, f, now)
      ensures Lives(s, a, f, now) ==> f in Indexed(s, a, now)
    {
    }
    hide Look, Indexed, Covers, Typed;
  }

  /** The factor of two is exact: with any larger spread two writes suffice to hide a live entry from List and Clear. */
  lemma BandIsTight(a: Agent, m: int, ttl: int, f: string, g: string, v: Value)
    requires 0 < m && 2 * m < ttl && f != g
    ensures var s := Run([Set(a, f, v, ttl, 0), Set(a, g, v, m, 0)]);
            && Lives(s, a, f, 2 * m + 1) && ListOf(s, a, 2 * m + 1) == map[]
            && Lives(ClearOn(s, a, 2 * m + 1), a, f, 2 * m + 1)
  {
    var t := 2 * m + 1;
    var ops := [Set(a, f, v, ttl, 0), Set(a, g, v, m, 0)];
    assert ops[..1] == [ops[0]] && ops[..1][..0] == [];
    assert Run(ops[..1]) == SetOn(map[], a, f, v, ttl, 0);
    var s1 := Run(ops[..1]);
    var s := SetOn(s1, a, g, v, m, 0);
    assert Run(ops) == s;
    AfterSet(map[], a, f, v, ttl, 0, f);
    AfterSet(s1, a, g, v, m, 0, f);
    assert Lives(s, a, f, t);
    assert Indexed(s, a, t) == {};
    ClearedField(s, a, t, f);
    FieldsAreNoIndices(a, f, a);
    hide Run, Field, Index;
  }

  /** An entry without expiry, such as the activity record, is out of the index a day after the last write. */
  lemma NoExpiryOutlivesIndex(s: Server, a: Agent, f: string, v: Value, ttl: int, t: int, u: int)
    requires ttl <= 0 && t + DAY < u
    ensures var s' := SetOn(s, a, f, v, ttl, t);
            Lives(s', a, f, u) && ListOf(s', a, u) == map[] && Lives(ClearOn(s', a, u), a, f, u)
  {
    var s' := SetOn(s, a, f, v, ttl, t);
    AfterSet(s, a, f, v, ttl, t, f);
    assert Indexed(s', a, u) == {};
    ClearedField(s', a, u, f);
    FieldsAreNoIndices(a, f, a);
    hide Field, Index;
  }

  /**
   What each operation leaves in the index: Set adds its field, Delete takes it out, List takes out what is not live,
   and ClearAgent leaves nothing.
   */
  lemma IndexAfter(s: Server, a: Agent, f: string, v: Value, ttl: int, t: int)
    requires Typed(s)
    ensures Indexed(SetOn(s, a, f, v, ttl, t), a, t) == Indexed(s, a, t) + {f}
    ensures Indexed(DeleteOn(s, a, f, t), a, t) == Indexed(s, a, t) - {f}
    ensures Indexed(ListOn(s, a, t), a, t) == set g | g in Indexed(s, a, t) && Lives(s, a, g, t)
    ensures forall u :: Indexed(ClearOn(s, a, t), a, u) == {}
  {
    AfterSet(s, a, f, v, ttl, t, f);
    AfterDelete(s, a, f, t);
    AfterList(s, a, t);
    hide Field, Index, SetOn, DeleteOn, ListOn;
  }

  lemma AfterDelete(s: Server, a: Agent, f: string, t: int)
    requires Typed(s)
    ensures Indexed(DeleteOn(s, a, f, t), a, t) == Indexed(s, a, t) - {f}
  {
    hide Field, Index;
    FieldsAreNoIndices(a, f, a);
  }

  lemma AfterList(s: Server, a: Agent, t: int)
    requires Typed(s)
    ensures Indexed(ListOn(s, a, t), a, t) == set g | g in Indexed(s, a, t) && Lives(s, a, g, t)
  {
    hide Field, Index;
    var gone := set f | f in Indexed(s, a, t) && Look(s, a, f, t).None?;
    assert Indexed(s, a, t) - gone == set g | g in Indexed(s, a, t) && Lives(s, a, g, t);
  }

  /** How long a Set keeps the index: twice its time to live, or a day. */
  lemma IndexLasts(s: Server, a: Agent, f: string, v: Value, ttl: int, t: int, u: int)
    requires t <= u
    ensures f in Indexed(SetOn(s, a, f, v, ttl, t), a, u)
            <==> u <= if ttl > 0 then t + 2 * ttl else t + 86_400_000_000_000
  {
    AfterSet(s, a, f, v, ttl, t, f);
    hide Field, Index;
  }

  // The key of one field under an operation that does not touch that field.
  predicate Spares(op: Op, a: Agent, f: string) {
    if op.agent == a then op.List? || (op.Set? && op.field != f) || (op.Delete? && op.field != f)
    else Apart(op.agent, a)
  }

  lemma OwnKeyStays(s: Server, op: Op, a: Agent, f: string)
    requires Spares(op, a, f) && op.agent == a
    ensures Field(a, f) in Apply(s, op) <==> Field(a, f) in s
    ensures Field(a, f) in s ==> Apply(s, op)[Field(a, f)] == s[Field(a, f)]
  {
    FieldsAreNoIndices(a, f, a);
    if !op.List? {
      OwnFields(a, op.field, f);
    }
    hide Field, Index;
  }

  lemma KeyStays(s: Server, op: Op, a: Agent, f: string)
    requires Spares(op, a, f)
    ensures Field(a, f) in Apply(s, op) <==> Field(a, f) in s
    ensures Field(a, f) in s ==> Apply(s, op)[Field(a, f)] == s[Field(a, f)]
  {
    hide Apply, Field, Index;
    if op.agent == a {
      OwnKeyStays(s, op, a, f);
    } else {
      OtherSteps(s, op, a);
    }
  }

  lemma {:induction false} SlotStays(ops: seq<Op>, a: Agent, i: nat)
    requires i < |ops| && ops[i].Set? && ops[i].agent == a
    requires forall j | i < j < |ops| :: Spares(ops[j], a, ops[i].field)
    ensures var o := ops[i];
            && Field(a, o.field) in Run(ops)
            && Run(ops)[Field(a, o.field)]
               == Slot(Str(NewEntry(o.value, o.ttl, o.t, o.t)), if o.ttl > 0 then Some(o.t + o.ttl) else None)
    decreases |ops|
  {
    var n := |ops| - 1;
    if i == n {
      FieldsAreNoIndices(a, ops[i].field, a);
    } else {
      SlotStays(ops[..n], a, i);
      KeyStays(Run(ops[..n]), ops[n], a, ops[i].field);
    }
    hide Field, Index;
  }

  /**
   A value that was set, and not overwritten, deleted or cleared since, comes back until its time to live has passed,
   and for ever when it has none, with the times it was given; and List, when it lists the field, returns the same.
   */
  lemma ValueComesBack(ops: seq<Op>, a: Agent, i: nat, u: int)
    requires i < |ops| && ops[i].Set? && ops[i].agent == a
    requires forall j | i < j < |ops| :: Spares(ops[j], a, ops[i].field)
    ensures var o, found := ops[i], ReadField(Run(ops), a, ops[i].field, u);
            && (found.Some? <==> o.ttl <= 0 || u <= o.t + o.ttl)
            && (found.Some? ==>
                  && found.value.createdAt == o.t
                  && found.value.expiresAt == (if o.ttl > 0 then Some(o.t + o.ttl) else None)
                  && match o.value
                     case Text(text) => found.value.value == Text(text)
                     case Float64(n) => found.value.value == Float64(n)
                     case Int64(n) =>
                       && found.value.value.Float64?
                       && (-0x20_0000_0000_0000 < n < 0x20_0000_0000_0000 ==> found.value.value == Float64(n)))
            && (o.field in ListOf(Run(ops), a, u) ==> found == Some(ListOf(Run(ops), a, u)[o.field]))
  {
    hide Run, Field, Index, FromJson, ListOf, SetOn, DeleteOn, ListOn, ClearOn;
    var o := ops[i];
    SlotRead(ops, a, i, u);
    JsonReturns(NewEntry(o.value, o.ttl, o.t, o.t));
    ListOnlyWhatGetEntryFinds(Run(ops), a, u, o.field);
  }

  lemma SlotRead(ops: seq<Op>, a: Agent, i: nat, u: int)
    requires i < |ops| && ops[i].Set? && ops[i].agent == a
    requires forall j | i < j < |ops| :: Spares(ops[j], a, ops[i].field)
    ensures var o := ops[i];
            ReadField(Run(ops), a, o.field, u)
            == if o.ttl <= 0 || u <= o.t + o.ttl then Some(FromJson(NewEntry(o.value, o.ttl, o.t, o.t))) else None
  {
    hide Run, Field, Index, FromJson, Apart, SetOn, DeleteOn, ListOn, ClearOn, Spares;
    SlotStays(ops, a, i);
  }
}
