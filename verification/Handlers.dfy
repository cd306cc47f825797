/**
 The requests that read an Agent, change some of its fields, and write it back: most send the difference as a merge
 patch, PUT sends the whole object. The Agent may have changed in between, and what was read may be any older version.
 Under patches every field turns out to be a register of its own; PUT writes only what it has seen.
 */
module Handlers {
  import opened Wrappers
  import opened MergePatch
  import EnvJson
  import EnvVars = Env

  type EnvVar = EnvJson.EnvVar

  datatype Request =
    | Stop(stamp: string)
    | Start(stamp: string)
    | Restart(stamp: string)
    | DisableHealing
    | EnableHealing
    | SetEnv(vars: seq<EnvVar>)
    | MergeEnv(vars: seq<EnvVar>)
    | DeleteEnv(key: string)
    | PauseIdle(stamp: string)   // the idle watcher
    | Wake(stamp: string)        // keepalive of a paused agent
    | ReportStatus(phase: string, podName: string, message: string, generation: string, now: string)   // the reconciler

  const TRUE := Atom("true")

  // An empty text is left out of the object.
  function Written(text: string): Json {
    if text == "" then Null else Atom(text)
  }

  function Get(j: Json, f: Field): Json {
    At(j, PathOf(f))
  }

  function EnvOf(j: Json): seq<EnvVar> {
    EnvJson.Decode(Get(j, Env))
  }

  // The list that a request makes of the one it read.
  function NewEnv(req: Request, read: seq<EnvVar>): seq<EnvVar> {
    match req
    case SetEnv(vars) => vars
    case MergeEnv(vars) => EnvVars.Merge(read, vars)
    case DeleteEnv(key) => EnvVars.Without(read, key)
    case _ => read
  }

  // What each request wants its fields to be; a false flag is left out of the object.
  function Wanted(req: Request, read: Json): map<Field, Json> {
    match req
    case Stop(stamp) => map[Paused := TRUE, StoppedAt := Atom(stamp)]
    case Start(stamp) => map[Paused := Null, StartedAt := Atom(stamp), RestartAt := Atom(stamp)]
    case Restart(stamp) => map[RestartAt := Atom(stamp)]
    case DisableHealing => map[HealingDisabled := TRUE]
    case EnableHealing => map[HealingDisabled := Null]
    case PauseIdle(stamp) => map[Paused := TRUE, StoppedAt := Atom(stamp), StopReason := Atom("idle-timeout")]
    case Wake(stamp) =>
      map[Paused := Null, StartedAt := Atom(stamp), RestartAt := Atom(stamp), WakeReason := Atom("keepalive")]
    case ReportStatus(phase, podName, message, generation, now) =>
      map[StatusPhase := Written(phase), StatusPodName := Written(podName), StatusMessage := Written(message),
          ObservedGeneration := Written(generation), LastUpdated := Atom(now)]
    case _ => map[Env := EnvJson.Encode(NewEnv(req, EnvOf(read)))]
  }

  // An Agent as the API server stores it: no nulls, and objects where the fields' parents are.
  ghost predicate IsAgent(j: Json) {
    j.Obj? && NullFree(j) && forall f: Field :: Walkable(j, PathOf(f))
  }

  // The path is neither above nor below any of the fields.
  ghost predicate Avoids(path: Path, fields: set<Field>) {
    forall f | f in fields :: Diverge(PathOf(f), path)
  }

  // The two objects agree on all paths, of named fields or not, that avoid the fields.
  ghost predicate SameElsewhere(before: Json, after: Json, fields: set<Field>) {
    forall path | Avoids(path, fields) :: At(after, path) == At(before, path)
  }

  lemma AssignElsewhere(before: Json, j: Json, fields: set<Field>, g: Field, value: Json)
    requires SameElsewhere(before, j, fields)
    ensures SameElsewhere(before, Put(j, PathOf(g), value), fields + {g})
  {
    var after := Put(j, PathOf(g), value);
    forall path | Avoids(path, fields + {g})
      ensures At(after, path) == At(before, path)
    {
      assert g in fields + {g};
      PutElsewhere(j, PathOf(g), value, path);
      assert Avoids(path, fields);
      hide PathOf, Put, At, Diverge;
    }
  }

  // after differs from before in the given fields only, and has those values there.
  ghost predicate Edited(before: Json, after: Json, fields: map<Field, Json>) {
    IsAgent(after) && FieldsEdited(before, after, fields) && SameElsewhere(before, after, fields.Keys)
  }

  ghost predicate FieldsEdited(before: Json, after: Json, fields: map<Field, Json>) {
    forall f: Field ::
      Grown(before, after, PathOf(f)) && Get(after, f) == if f in fields then fields[f] else Get(before, f)
  }

  lemma Untouched(j: Json)
    requires IsAgent(j)
    ensures Edited(j, j, map[])
  {
    forall f: Field ensures Grown(j, j, PathOf(f)) {
      GrownSame(j, PathOf(f));
    }
    hide PathOf;
  }

  lemma PutAt(before: Json, j: Json, p: Path, value: Json, q: Path)
    requires p != [] && q != [] && (p == q || Diverge(p, q)) && Walkable(j, p) && Walkable(j, q) && Grown(before, j, q)
    ensures Walkable(Put(j, p, value), q) && Grown(before, Put(j, p, value), q)
    ensures p != q ==> At(Put(j, p, value), q) == At(j, q)
  {
    PutGrows(j, p, value, q);
    hide Put, At, Walkable, Grown, Diverge;
    GrownTwice(before, j, Put(j, p, value), q);
  }

  lemma AssignAt(before: Json, j: Json, g: Field, value: Json, f: Field)
    requires IsAgent(j) && Grown(before, j, PathOf(f))
    ensures var after := Put(j, PathOf(g), value);
            && Walkable(after, PathOf(f)) && Grown(before, after, PathOf(f))
            && (f != g ==> Get(after, f) == Get(j, f))
  {
    if f != g {
      FieldsDiverge(g, f);
      DivergingDiffer(PathOf(g), PathOf(f));
    }
    hide PathOf, Put, Walkable, Grown, Diverge, At;
    PutAt(before, j, PathOf(g), value, PathOf(f));
  }

  lemma {:induction false} DivergingDiffer(p: Path, q: Path)
    requires Diverge(p, q)
    ensures p != q
    decreases |p|
  {
    if p[0] == q[0] {
      DivergingDiffer(p[1..], q[1..]);
    }
  }

  lemma AssignStays(j: Json, g: Field, value: Json)
    requires IsAgent(j) && (value.Null? || NullFree(value))
    ensures IsAgent(Put(j, PathOf(g), value)) && Get(Put(j, PathOf(g), value), g) == value
  {
    PutNullFree(j, PathOf(g), value);
    PutWrites(j, PathOf(g), value);
    forall f: Field
      ensures Walkable(Put(j, PathOf(g), value), PathOf(f))
    {
      GrownSame(j, PathOf(f));
      AssignAt(j, j, g, value, f);
      hide PathOf, Put, Walkable, Grown;
    }
    hide PathOf, Walkable, Grown;
  }

  lemma AssignField(before: Json, j: Json, g: Field, value: Json, f: Field)
    requires IsAgent(j) && Grown(before, j, PathOf(f)) && (value.Null? || NullFree(value))
    ensures var after := Put(j, PathOf(g), value);
            Grown(before, after, PathOf(f)) && Get(after, f) == if f == g then value else Get(j, f)
  {
    hide PathOf, Grown, Get, IsAgent, Put, NullFree;
    AssignStays(j, g, value);
    AssignAt(before, j, g, value, f);
  }

  lemma AssignFields(before: Json, j: Json, fields: map<Field, Json>, g: Field, value: Json)
    requires IsAgent(j) && FieldsEdited(before, j, fields) && (value.Null? || NullFree(value))
    ensures FieldsEdited(before, Put(j, PathOf(g), value), fields[g := value])
  {
    hide PathOf, Grown, Get, IsAgent, Put, NullFree;
    forall f: Field
      ensures var after := Put(j, PathOf(g), value);
              Grown(before, after, PathOf(f)) && Get(after, f) == if f == g then value else Get(j, f)
    {
      AssignField(before, j, g, value, f);
    }
  }

  // One assignment more.
  lemma Assign(before: Json, j: Json, fields: map<Field, Json>, g: Field, value: Json)
    requires Edited(before, j, fields) && (value.Null? || NullFree(value))
    ensures Edited(before, Put(j, PathOf(g), value), fields[g := value])
  {
    assert fields[g := value].Keys == fields.Keys + {g};
    hide SameElsewhere, FieldsEdited, IsAgent, PathOf, Put;
    AssignStays(j, g, value);
    AssignFields(before, j, fields, g, value);
    AssignElsewhere(before, j, fields.Keys, g, value);
  }

  lemma {:induction false} GrownTwice(a: Json, b: Json, c: Json, path: Path)
    requires Grown(a, b, path) && Grown(b, c, path)
    ensures Grown(a, c, path)
    decreases |path|
  {
    if |path| > 1 {
      var k := path[0];
      if Grown(Member(a, k), Member(b, k), path[1..]) {
        GrownTwice(Member(a, k), Member(b, k), Member(c, k), path[1..]);
      }
    }
  }

  // A request writes a field when it wants another value than it read.
  predicate Writes(f: Field, read: Json, req: Request) {
    f in Wanted(req, read) && Wanted(req, read)[f] != Get(read, f)
  }

  // What a request does to one field.
  function Next(f: Field, stored: Json, read: Json, req: Request): Json {
    if f in Wanted(req, read) then Patched(stored, Get(read, f), Wanted(req, read)[f]) else stored
  }

  lemma WantsNoObjects(req: Request, read: Json, f: Field)
    requires f in Wanted(req, read)
    ensures !Wanted(req, read)[f].Obj?
  {
    EnvJson.DecodeEncode(NewEnv(req, EnvOf(read)));
    hide EnvJson.Encode, NewEnv, EnvOf;
  }

  lemma SentAt(read: Json, after: Json, req: Request, stored: Json, f: Field)
    requires IsAgent(read) && Edited(read, after, Wanted(req, read))
    ensures Get(Apply(stored, Diff(read, after)), f) == Next(f, Get(stored, f), read, req)
  {
    hide Wanted, PathOf;
    if f in Wanted(req, read) {
      WantsNoObjects(req, read, f);
    }
    assert Get(after, f) == if f in Wanted(req, read) then Wanted(req, read)[f] else Get(read, f);
    PatchedAt(read, after, PathOf(f), stored);
    hide Diff, Apply, At, Grown;
  }

  // ---- PUT

  // The fields that PUT can set, in its order. The request's resources are not among them.
  const UPDATABLE: seq<Field> :=
    [Image, ImagePullPolicy, Env, EnvFrom, Command, Args, ServiceAccount, RestartPolicy, PodLabels, PodAnnotations,
     IdleTimeout]

  // The fields present in the request, which may be any.
  type UpdateRequest = map<Field, Json>

  function Chosen(req: UpdateRequest, fields: seq<Field>): map<Field, Json> {
    map f | f in req && f in fields :: req[f]
  }

  lemma ChosenGrows(req: UpdateRequest, fields: seq<Field>, i: nat)
    requires i < |fields|
    ensures var before, after, f := Chosen(req, fields[..i]), Chosen(req, fields[..i + 1]), fields[i];
            after == if f in req then before[f := req[f]] else before
  {
    assert fields[..i + 1] == fields[..i] + [fields[i]];
  }

  predicate NoNulls(req: UpdateRequest) {
    forall f | f in req :: req[f].Null? || NullFree(req[f])
  }

  method EditSpec(read: Json, req: UpdateRequest) returns (agent: Json)
    requires IsAgent(read) && NoNulls(req)
    ensures Edited(read, agent, Chosen(req, UPDATABLE))
  {
    hide IsAgent, Edited, FieldsEdited, SameElsewhere, NullFree;
    agent := read;
    Untouched(read);
    var i := 0;
    assert Chosen(req, []) == map[];
    while i < |UPDATABLE|
      invariant 0 <= i <= |UPDATABLE|
      invariant Edited(read, agent, Chosen(req, UPDATABLE[..i]))
    {
      var f := UPDATABLE[i];
      ChosenGrows(req, UPDATABLE, i);
      if f in req {
        agent := SetField(agent, f, req[f], read, Chosen(req, UPDATABLE[..i]));
      }
      i := i + 1;
    }
    assert UPDATABLE[..i] == UPDATABLE;
  }

  method SetField(agent: Json, f: Field, value: Json, ghost read: Json, ghost fields: map<Field, Json>)
    returns (r: Json)
    requires IsAgent(read) && Edited(read, agent, fields) && (value.Null? || NullFree(value))
    ensures Edited(read, r, fields[f := value])
  {
    Assign(read, agent, fields, f, value);
    r := Put(agent, PathOf(f), value);
  }

  // The assignments of the patching handlers, in their order.
  method MakeEdits(read: Json, req: Request) returns (agent: Json)
    requires IsAgent(read)
    ensures Edited(read, agent, Wanted(req, read))
  {
    hide IsAgent, Edited, FieldsEdited, SameElsewhere, EnvJson.Encode, EnvOf;
    agent := read;
    Untouched(read);
    match req {
      case Stop(stamp) =>
        agent := SetField(agent, Paused, TRUE, read, map[]);
        agent := SetField(agent, StoppedAt, Atom(stamp), read, map[Paused := TRUE]);
        assert map[Paused := TRUE][StoppedAt := Atom(stamp)] == Wanted(req, read);
      case Start(stamp) =>
        agent := SetThree(read, Paused, Null, StartedAt, Atom(stamp), RestartAt, Atom(stamp));
        assert map[Paused := Null][StartedAt := Atom(stamp)][RestartAt := Atom(stamp)] == Wanted(req, read);
      case Restart(stamp) => agent := SetField(agent, RestartAt, Atom(stamp), read, map[]);
      case DisableHealing => agent := SetField(agent, HealingDisabled, TRUE, read, map[]);
      case EnableHealing => agent := SetField(agent, HealingDisabled, Null, read, map[]);
      case PauseIdle(stamp) =>
        agent := SetThree(read, Paused, TRUE, StoppedAt, Atom(stamp), StopReason, Atom("idle-timeout"));
        assert map[Paused := TRUE][StoppedAt := Atom(stamp)][StopReason := Atom("idle-timeout")] == Wanted(req, read);
      case Wake(stamp) =>
        agent := SetThree(read, Paused, Null, StartedAt, Atom(stamp), RestartAt, Atom(stamp));
        ghost var three := map[Paused := Null][StartedAt := Atom(stamp)][RestartAt := Atom(stamp)];
        agent := SetField(agent, WakeReason, Atom("keepalive"), read, three);
        assert three[WakeReason := Atom("keepalive")] == Wanted(req, read);
      case ReportStatus(_, _, _, _, _) => agent := ReportEdits(read, req);
      case SetEnv(vars) => agent := SetEnvField(read, vars);
      case MergeEnv(vars) =>
        var merged := EnvVars.MergeEnvVars(EnvOf(read), vars);
        agent := SetEnvField(read, merged);
      case DeleteEnv(key) =>
        var filtered := EnvVars.DeleteEnvKey(EnvOf(read), key);
        agent := SetEnvField(read, filtered);
    }
  }

  // The assignments of updateStatus.
  method ReportEdits(read: Json, req: Request) returns (agent: Json)
    requires IsAgent(read) && req.ReportStatus?
    ensures Edited(read, agent, Wanted(req, read))
  {
    hide IsAgent, Edited, FieldsEdited, SameElsewhere;
    var p, n, m, g := Written(req.phase), Written(req.podName), Written(req.message), Written(req.generation);
    agent := SetThree(read, StatusPhase, p, StatusPodName, n, StatusMessage, m);
    ghost var three := map[StatusPhase := p][StatusPodName := n][StatusMessage := m];
    agent := SetField(agent, ObservedGeneration, g, read, three);
    agent := SetField(agent, LastUpdated, Atom(req.now), read, three[ObservedGeneration := g]);
    assert three[ObservedGeneration := g][LastUpdated := Atom(req.now)] == Wanted(req, read);
  }

  method SetThree(read: Json, f: Field, u: Json, g: Field, v: Json, h: Field, w: Json) returns (agent: Json)
    requires IsAgent(read)
    requires (u.Null? || NullFree(u)) && (v.Null? || NullFree(v)) && (w.Null? || NullFree(w))
    ensures Edited(read, agent, map[f := u][g := v][h := w])
  {
    Untouched(read);
    hide IsAgent, Edited, FieldsEdited, SameElsewhere;
    agent := SetField(read, f, u, read, map[]);
    agent := SetField(agent, g, v, read, map[f := u]);
    agent := SetField(agent, h, w, read, map[f := u][g := v]);
  }

  method SetEnvField(read: Json, vars: seq<EnvVar>) returns (agent: Json)
    requires IsAgent(read)
    ensures Edited(read, agent, map[Env := EnvJson.Encode(vars)])
  {
    Untouched(read);
    EnvJson.DecodeEncode(vars);
    agent := SetField(read, Env, EnvJson.Encode(vars), read, map[]);
  }

  // ---- The API server

  // The stored Agent and its resource version. A write that changes nothing is no write.
  class ApiServer {
    var stored: Json
    var version: nat
    ghost var history: map<nat, Json>   // every version that was stored

    ghost predicate Valid()
      reads this
    {
      && version in history && history[version] == stored
      && forall v | v in history :: v <= version
    }

    constructor (agent: Json)
      ensures Valid() && stored == agent && history == map[0 := agent]
    {
      stored := agent;
      version := 0;
      history := map[0 := agent];
    }

    method Store(agent: Json)
      requires Valid()
      modifies this
      ensures Valid() && stored == agent
      ensures forall v | v in old(history) :: v in history && history[v] == old(history)[v]
      ensures if agent == old(stored) then version == old(version) else version == old(version) + 1
    {
      if agent != stored {
        stored := agent;
        version := version + 1;
        history := history[version := agent];
      }
    }

    method Patch(patch: Json)
      requires Valid()
      modifies this
      ensures Valid() && stored == Apply(old(stored), patch)
      ensures forall v | v in old(history) :: v in history && history[v] == old(history)[v]
      ensures old(version) <= version && (version == old(version) ==> stored == old(stored))
    {
      Store(Apply(stored, patch));
    }

    // A full write: all of the object that was sent, or nothing.
    method Update(agent: Json, read: nat) returns (ok: bool)
      requires Valid()
      modifies this
      ensures Valid() && (ok <==> read == old(version)) && stored == if ok then agent else old(stored)
      ensures forall v | v in old(history) :: v in history && history[v] == old(history)[v]
      ensures !ok ==> version == old(version)
    {
      ok := read == version;
      if ok {
        Store(agent);
      }
    }

    /** A get-then-patch request: whatever is stored by now, each field is written as asked or left as it is stored. */
    method Handle(read: Json, req: Request)
      requires Valid() && IsAgent(read)
      modifies this
      ensures Valid() && forall f: Field :: Get(stored, f) == Next(f, Get(old(stored), f), read, req)
      ensures forall v | v in old(history) :: v in history && history[v] == old(history)[v]
    {
      var agent := MakeEdits(read, req);
      forall f: Field ensures Get(Apply(stored, Diff(read, agent)), f) == Next(f, Get(stored, f), read, req) {
        SentAt(read, agent, req, stored, f);
      }
      Patch(Diff(read, agent));
      hide Get, Next;
    }

    /**
     PUT, from any version that was ever stored: it either changes the chosen fields of what is stored at this moment
     and no other field, or, when anything was written since, nothing.
     */
    method HandleUpdate(seen: Json, read: nat, req: UpdateRequest) returns (ok: bool)
      requires Valid() && read in history && history[read] == seen && IsAgent(seen) && NoNulls(req)
      modifies this
      ensures Valid() && (ok <==> read == old(version)) && (!ok ==> stored == old(stored) && version == old(version))
      ensures ok ==> seen == old(stored) && SameElsewhere(old(stored), stored, Chosen(req, UPDATABLE).Keys)
      ensures ok ==> forall f: Field ::
                Get(stored, f) == if f in req && f in UPDATABLE then req[f] else Get(old(stored), f)
      ensures ok ==> forall f | f in req ::
                Get(stored, f) == req[f] <==> f in UPDATABLE || Get(old(stored), f) == req[f]
    {
      var agent := EditSpec(seen, req);
      hide IsAgent;
      ok := Update(agent, read);
    }
  }

  /**
   PUT is documented to apply every field that is present in the request. It applies exactly those it knows, and those
   that had the value already.
   */
  lemma PresentFieldAppliedIff(read: Json, after: Json, req: UpdateRequest, f: Field)
    requires Edited(read, after, Chosen(req, UPDATABLE)) && f in req
    ensures Get(after, f) == req[f] <==> f in UPDATABLE || Get(read, f) == req[f]
  {
    hide Get, IsAgent, SameElsewhere;
  }

  /** The request has resources, and they are not among the fields PUT knows: asking for them does nothing. */
  lemma ResourcesAreIgnored(read: Json, after: Json, resources: Json)
    requires IsAgent(read) && resources != Get(read, Resources)
    requires Edited(read, after, Chosen(map[Resources := resources], UPDATABLE))
    ensures Get(after, Resources) == Get(read, Resources) != resources
    ensures forall path :: At(after, path) == At(read, path)
  {
    PresentFieldAppliedIff(read, after, map[Resources := resources], Resources);
    assert Chosen(map[Resources := resources], UPDATABLE).Keys == {};
    assert forall path :: Avoids(path, {});
    hide Get, IsAgent;
  }

  /** Such a request exists: an Agent without resources, and a request for some. */
  lemma ResourcesRequest() returns (read: Json, req: UpdateRequest)
    ensures IsAgent(read) && NoNulls(req) && Resources in req && Get(read, Resources) != req[Resources]
    ensures Chosen(req, UPDATABLE) == map[]
  {
    read := Obj(map[]);
    var cpu := Obj(map["limits" := Obj(map["cpu" := Atom("2")])]);
    req := map[Resources := cpu];
    NothingAt(PathOf(Resources));
    assert NullFree(cpu);
    forall f: Field
      ensures Walkable(read, PathOf(f))
    {
      WalkableNothing(PathOf(f));
      hide PathOf;
    }
  }

  lemma {:induction false} NothingAt(path: Path)
    requires path != []
    ensures At(Obj(map[]), path) == Null && At(Null, path) == Null
    decreases |path|
  {
    assert Member(Obj(map[]), path[0]) == Null == Member(Null, path[0]);
    if |path| > 1 {
      NothingAt(path[1..]);
    }
  }

  lemma {:induction false} WalkableNothing(path: Path)
    ensures Walkable(Obj(map[]), path) && Walkable(Null, path)
    decreases |path|
  {
    if |path| > 1 {
      WalkableNothing(path[1..]);
      assert Member(Obj(map[]), path[0]) == Null == Member(Null, path[0]);
    }
  }

  /**
   PUT against any patches that arrive between its read and its write: it succeeds exactly when none of them changed
   anything, and then its fields are changed and all else is as it was when it read.
   */
  method PutAgainstOthers(server: ApiServer, patches: seq<Json>, req: UpdateRequest) returns (ok: bool)
    requires server.Valid() && IsAgent(server.stored) && NoNulls(req)
    modifies server
    ensures server.Valid()
    ensures ok <==> forall i | 0 <= i < |patches| :: Apply(old(server.stored), patches[i]) == old(server.stored)
    ensures ok ==> SameElsewhere(old(server.stored), server.stored, Chosen(req, UPDATABLE).Keys)
    ensures ok ==> forall f: Field ::
              Get(server.stored, f) == if f in req && f in UPDATABLE then req[f] else Get(old(server.stored), f)
  {
    var seen, read := server.stored, server.version;
    for i := 0 to |patches|
      invariant server.Valid() && read in server.history && server.history[read] == seen && server.version >= read
      invariant (forall j | 0 <= j < i :: Apply(seen, patches[j]) == seen) <==> server.version == read
      invariant server.version == read ==> server.stored == seen
    {
      hide IsAgent;
      PatchOf(server, patches[i]);
    }
    ok := server.HandleUpdate(seen, read, req);
  }

  // Patch, with what an idle patch leaves spelt out.
  method PatchOf(server: ApiServer, patch: Json)
    requires server.Valid()
    modifies server
    ensures server.Valid() && server.stored == Apply(old(server.stored), patch)
    ensures forall v | v in old(server.history) :: v in server.history && server.history[v] == old(server.history)[v]
    ensures old(server.version) <= server.version
    ensures server.version == old(server.version) <==> Apply(old(server.stored), patch) == old(server.stored)
  {
    server.Store(Apply(server.stored, patch));
  }

  // ---- Any number of patching requests, in the order in which their patches arrive

  datatype Handled = Handled(read: Json, edited: Json, req: Request)

  ghost predicate Proper(h: Handled) {
    IsAgent(h.read) && Edited(h.read, h.edited, Wanted(h.req, h.read))
  }

  ghost function Stored(agent: Json, handled: seq<Handled>): Json
    requires forall i | 0 <= i < |handled| :: Proper(handled[i])
  {
    if handled == [] then agent
    else
      var h := handled[|handled| - 1];
      assert Proper(h);
      Apply(Stored(agent, handled[..|handled| - 1]), Diff(h.read, h.edited))
  }

  // A register that each request overwrites, unless it read the value it wants.
  function Register(f: Field, value: Json, handled: seq<Handled>): Json {
    if handled == [] then value
    else
      var h := handled[|handled| - 1];
      Next(f, Register(f, value, handled[..|handled| - 1]), h.read, h.req)
  }

  /** The patches behave like independent registers, one for each field, however old the objects they started from. */
  lemma {:induction false} FieldsAreRegisters(agent: Json, handled: seq<Handled>, f: Field)
    requires forall i | 0 <= i < |handled| :: Proper(handled[i])
    ensures Get(Stored(agent, handled), f) == Register(f, Get(agent, f), handled)
    decreases |handled|
  {
    if handled != [] {
      var n := |handled| - 1;
      FieldsAreRegisters(agent, handled[..n], f);
      assert Proper(handled[n]);
      SentAt(handled[n].read, handled[n].edited, handled[n].req, Stored(agent, handled[..n]), f);
      hide Get, Next, Apply, Diff;
    }
  }

  lemma {:induction false} RegisterHolds(value: Json, handled: seq<Handled>, i: nat, f: Field)
    requires i < |handled| && Writes(f, handled[i].read, handled[i].req)
    requires forall j | i < j < |handled| :: !Writes(f, handled[j].read, handled[j].req)
    ensures Register(f, value, handled) == Wanted(handled[i].req, handled[i].read)[f]
    decreases |handled|
  {
    if i < |handled| - 1 {
      RegisterHolds(value, handled[..|handled| - 1], i, f);
    }
    hide Wanted, Get;
  }

  /**
   No lost update: what request i wrote stays until some later request writes that field, whatever else those write.
   */
  lemma NoLostUpdate(agent: Json, handled: seq<Handled>, i: nat, f: Field)
    requires i < |handled| && forall j | 0 <= j < |handled| :: Proper(handled[j])
    requires Writes(f, handled[i].read, handled[i].req)
    requires forall j | i < j < |handled| :: !Writes(f, handled[j].read, handled[j].req)
    ensures Get(Stored(agent, handled), f) == Wanted(handled[i].req, handled[i].read)[f]
  {
    FieldsAreRegisters(agent, handled, f);
    RegisterHolds(Get(agent, f), handled, i, f);
    hide Wanted, Get, Proper, Writes;
  }

  lemma RegisterOfTwo(value: Json, g: Handled, h: Handled, f: Field)
    ensures Register(f, value, [g, h]) == Next(f, Next(f, value, g.read, g.req), h.read, h.req)
  {
    hide Next;
    assert [g, h][..1] == [g] && [g][..0] == [];
    assert Register(f, value, [g]) == Next(f, Register(f, value, []), g.read, g.req);
  }

  /** Requests that write different fields can arrive in either order. */
  lemma OrderOfArrival(agent: Json, g: Handled, h: Handled, f: Field)
    requires Proper(g) && Proper(h) && !(Writes(f, g.read, g.req) && Writes(f, h.read, h.req))
    ensures Get(Stored(agent, [g, h]), f) == Get(Stored(agent, [h, g]), f)
  {
    hide Proper, Edited, Get, Stored, Wanted;
    FieldsAreRegisters(agent, [g, h], f);
    FieldsAreRegisters(agent, [h, g], f);
    RegisterOfTwo(Get(agent, f), g, h, f);
    RegisterOfTwo(Get(agent, f), h, g, f);
  }

  lemma {:induction false} RegisterStays(value: Json, handled: seq<Handled>, f: Field)
    requires forall j | 0 <= j < |handled| :: !Writes(f, handled[j].read, handled[j].req)
    ensures Register(f, value, handled) == value
    decreases |handled|
  {
    hide Wanted, Get;
    if handled != [] {
      RegisterStays(value, handled[..|handled| - 1], f);
    }
  }

  /** A field that no request writes stays as it was. */
  lemma UnwrittenStays(agent: Json, handled: seq<Handled>, f: Field)
    requires forall j | 0 <= j < |handled| :: Proper(handled[j])
    requires forall j | 0 <= j < |handled| :: !Writes(f, handled[j].read, handled[j].req)
    ensures Get(Stored(agent, handled), f) == Get(agent, f)
  {
    hide Wanted, Get, Proper, Writes;
    FieldsAreRegisters(agent, handled, f);
    RegisterStays(Get(agent, f), handled, f);
  }

  // ---- What the requests mean, in the names of the JSON object

  lemma FlagPaths()
    ensures PathOf(Paused) == ["spec", "paused"] && PathOf(HealingDisabled) == ["spec", "selfHealingDisabled"]
  {
  }

  predicate Pauses(req: Request) {
    req.Stop? || req.PauseIdle?
  }

  predicate Resumes(req: Request) {
    req.Start? || req.Wake?
  }

  // A pausing request that did not read the flag as set, or a resuming one that did not read it as absent.
  predicate WrotePaused(h: Handled) {
    || (Pauses(h.req) && At(h.read, ["spec", "paused"]) != Atom("true"))
    || (Resumes(h.req) && At(h.read, ["spec", "paused"]) != Null)
  }

  lemma WritesPausedIff(h: Handled)
    ensures Writes(Paused, h.read, h.req) <==> WrotePaused(h)
    ensures WrotePaused(h) ==> Wanted(h.req, h.read)[Paused] == if Pauses(h.req) then Atom("true") else Null
  {
    hide PathOf, EnvJson.Encode, NewEnv, EnvOf, At;
    FlagPaths();
  }

  /**
   After any requests, started from objects however old, the agent is paused exactly when the last request that wrote
   the flag is a stop or the idle watcher's, and unpaused exactly when it is a start or a wake. When none wrote it, the
   flag is as it was.
   */
  lemma PausedInForceIff(agent: Json, handled: seq<Handled>, k: nat)
    requires forall j | 0 <= j < |handled| :: Proper(handled[j])
    requires k <= |handled| && (k < |handled| ==> WrotePaused(handled[k]))
    requires forall j | 0 <= j < |handled| && (k == |handled| || j > k) :: !WrotePaused(handled[j])
    ensures k < |handled| ==>
              && (At(Stored(agent, handled), ["spec", "paused"]) == Atom("true")
                  <==> handled[k].req.Stop? || handled[k].req.PauseIdle?)
              && (At(Stored(agent, handled), ["spec", "paused"]) == Null
                  <==> handled[k].req.Start? || handled[k].req.Wake?)
    ensures k == |handled| ==> At(Stored(agent, handled), ["spec", "paused"]) == At(agent, ["spec", "paused"])
  {
    hide Wanted, Proper, Stored, Writes;
    FlagPaths();
    forall j | 0 <= j < |handled|
      ensures Writes(Paused, handled[j].read, handled[j].req) <==> WrotePaused(handled[j])
    {
      WritesPausedIff(handled[j]);
    }
    if k < |handled| {
      WritesPausedIff(handled[k]);
      NoLostUpdate(agent, handled, k, Paused);
    } else {
      UnwrittenStays(agent, handled, Paused);
    }
  }

  // A request to disable healing that did not read it as disabled, or one to enable it that did not read it as enabled.
  predicate WroteHealing(h: Handled) {
    || (h.req.DisableHealing? && At(h.read, ["spec", "selfHealingDisabled"]) != Atom("true"))
    || (h.req.EnableHealing? && At(h.read, ["spec", "selfHealingDisabled"]) != Null)
  }

  lemma WritesHealingIff(h: Handled)
    ensures Writes(HealingDisabled, h.read, h.req) <==> WroteHealing(h)
    ensures WroteHealing(h) ==>
              Wanted(h.req, h.read)[HealingDisabled] == if h.req.DisableHealing? then Atom("true") else Null
  {
    hide PathOf, EnvJson.Encode, NewEnv, EnvOf, At;
    FlagPaths();
  }

  /** The same of self-healing: the last request that wrote the flag decides, and otherwise it is as it was. */
  lemma HealingInForceIff(agent: Json, handled: seq<Handled>, k: nat)
    requires forall j | 0 <= j < |handled| :: Proper(handled[j])
    requires k <= |handled| && (k < |handled| ==> WroteHealing(handled[k]))
    requires forall j | 0 <= j < |handled| && (k == |handled| || j > k) :: !WroteHealing(handled[j])
    ensures k < |handled| ==>
              && (At(Stored(agent, handled), ["spec", "selfHealingDisabled"]) == Atom("true")
                  <==> handled[k].req.DisableHealing?)
              && (At(Stored(agent, handled), ["spec", "selfHealingDisabled"]) == Null
                  <==> handled[k].req.EnableHealing?)
    ensures k == |handled| ==>
              At(Stored(agent, handled), ["spec", "selfHealingDisabled"]) == At(agent, ["spec", "selfHealingDisabled"])
  {
    hide Wanted, Proper, Stored, Writes;
    FlagPaths();
    forall j | 0 <= j < |handled|
      ensures Writes(HealingDisabled, handled[j].read, handled[j].req) <==> WroteHealing(handled[j])
    {
      WritesHealingIff(handled[j]);
    }
    if k < |handled| {
      WritesHealingIff(handled[k]);
      NoLostUpdate(agent, handled, k, HealingDisabled);
    } else {
      UnwrittenStays(agent, handled, HealingDisabled);
    }
  }

  // The annotations that requests set, and to what.
  datatype Note = RestartNote | StartNote | StopNote | StopReasonNote | WakeReasonNote

  function NotePath(n: Note): Path {
    match n
    case RestartNote => ["metadata", "annotations", "orchestrator.dev/restart-at"]
    case StartNote => ["metadata", "annotations", "orchestrator.dev/started-at"]
    case StopNote => ["metadata", "annotations", "orchestrator.dev/stopped-at"]
    case StopReasonNote => ["metadata", "annotations", "orchestrator.dev/stop-reason"]
    case WakeReasonNote => ["metadata", "annotations", "orchestrator.dev/wake-reason"]
  }

  function NoteOf(req: Request, n: Note): Option<string> {
    if n == RestartNote && (req.Start? || req.Restart? || req.Wake?) then Some(req.stamp)
    else if n == StartNote && (req.Start? || req.Wake?) then Some(req.stamp)
    else if n == StopNote && (req.Stop? || req.PauseIdle?) then Some(req.stamp)
    else if n == StopReasonNote && req.PauseIdle? then Some("idle-timeout")
    else if n == WakeReasonNote && req.Wake? then Some("keepalive")
    else None
  }

  function NoteField(n: Note): Field {
    match n
    case RestartNote => RestartAt
    case StartNote => StartedAt
    case StopNote => StoppedAt
    case StopReasonNote => StopReason
    case WakeReasonNote => WakeReason
  }

  predicate WroteNote(h: Handled, n: Note) {
    NoteOf(h.req, n).Some? && At(h.read, NotePath(n)) != Atom(NoteOf(h.req, n).value)
  }

  lemma NotePaths(n: Note)
    ensures PathOf(NoteField(n)) == NotePath(n)
  {
  }

  lemma WritesNoteIff(h: Handled, n: Note)
    ensures Writes(NoteField(n), h.read, h.req) <==> WroteNote(h, n)
    ensures WroteNote(h, n) ==> Wanted(h.req, h.read)[NoteField(n)] == Atom(NoteOf(h.req, n).value)
  {
    hide PathOf, NotePath, EnvJson.Encode, NewEnv, EnvOf, At;
    NotePaths(n);
  }

  /** The annotations of the last request that wrote them are in force, and otherwise those that were there. */
  lemma NoteInForce(agent: Json, handled: seq<Handled>, k: nat, n: Note)
    requires forall j | 0 <= j < |handled| :: Proper(handled[j])
    requires k <= |handled| && (k < |handled| ==> WroteNote(handled[k], n))
    requires forall j | 0 <= j < |handled| && (k == |handled| || j > k) :: !WroteNote(handled[j], n)
    ensures At(Stored(agent, handled), NotePath(n))
            == if k < |handled| then Atom(NoteOf(handled[k].req, n).value) else At(agent, NotePath(n))
  {
    hide Wanted, Proper, Stored, Writes, NotePath, PathOf;
    NotePaths(n);
    forall j | 0 <= j < |handled|
      ensures Writes(NoteField(n), handled[j].read, handled[j].req) <==> WroteNote(handled[j], n)
    {
      WritesNoteIff(handled[j], n);
    }
    if k < |handled| {
      WritesNoteIff(handled[k], n);
      NoLostUpdate(agent, handled, k, NoteField(n));
    } else {
      UnwrittenStays(agent, handled, NoteField(n));
    }
  }

  lemma StatusPaths()
    ensures PathOf(StatusPhase) == ["status", "phase"] && PathOf(StatusPodName) == ["status", "podName"]
    ensures PathOf(StatusMessage) == ["status", "message"]
  {
  }

  lemma MoreStatusPaths()
    ensures PathOf(ObservedGeneration) == ["status", "observedGeneration"]
    ensures PathOf(LastUpdated) == ["status", "lastUpdated"] && PathOf(Conditions) == ["status", "conditions"]
  {
  }

  // A patch makes of a text what was asked for, unless that was read; an empty text stands for absence.
  predicate Became(now: Json, stored: Json, read: Json, text: string) {
    var asked := if text == "" then Null else Atom(text);
    now == if read == asked then stored else asked
  }

  /** What a status report writes, by the names of the status fields. */
  lemma StatusReported(h: Handled, stored: Json)
    requires Proper(h) && h.req.ReportStatus? && h.req.now != ""
    ensures h.read.Obj? && h.edited.Obj?
    ensures var j := Apply(stored, Diff(h.read, h.edited));
            && Became(At(j, ["status", "phase"]), At(stored, ["status", "phase"]),
                      At(h.read, ["status", "phase"]), h.req.phase)
            && Became(At(j, ["status", "podName"]), At(stored, ["status", "podName"]),
                      At(h.read, ["status", "podName"]), h.req.podName)
            && Became(At(j, ["status", "message"]), At(stored, ["status", "message"]),
                      At(h.read, ["status", "message"]), h.req.message)
            && Became(At(j, ["status", "observedGeneration"]), At(stored, ["status", "observedGeneration"]),
                      At(h.read, ["status", "observedGeneration"]), h.req.generation)
            && Became(At(j, ["status", "lastUpdated"]), At(stored, ["status", "lastUpdated"]),
                      At(h.read, ["status", "lastUpdated"]), h.req.now)
  {
    StatusPaths();
    MoreStatusPaths();
    hide PathOf, Diff, Apply, At, FieldsEdited, SameElsewhere, NullFree, Walkable;
    SentAt(h.read, h.edited, h.req, stored, StatusPhase);
    SentAt(h.read, h.edited, h.req, stored, StatusPodName);
    SentAt(h.read, h.edited, h.req, stored, StatusMessage);
    SentAt(h.read, h.edited, h.req, stored, ObservedGeneration);
    SentAt(h.read, h.edited, h.req, stored, LastUpdated);
  }

  lemma ContainerPaths()
    ensures PathOf(Image) == ["spec", "image"] && PathOf(ImagePullPolicy) == ["spec", "imagePullPolicy"]
    ensures PathOf(Command) == ["spec", "command"] && PathOf(Args) == ["spec", "args"]
  {
  }

  lemma EnvironmentPaths()
    ensures PathOf(Env) == ["spec", "env"] && PathOf(EnvFrom) == ["spec", "envFrom"]
    ensures PathOf(ServiceAccount) == ["spec", "serviceAccountName"] && PathOf(Resources) == ["spec", "resources"]
  {
  }

  lemma PodPaths()
    ensures PathOf(PodLabels) == ["spec", "podLabels"] && PathOf(PodAnnotations) == ["spec", "podAnnotations"]
    ensures PathOf(RestartPolicy) == ["spec", "restartPolicy"] && PathOf(IdleTimeout) == ["spec", "idleTimeout"]
  {
  }

  /** What PUT does, by the names of the spec's fields: the eleven it knows become what is present in the request. */
  lemma PutWrites11(read: Json, after: Json, req: UpdateRequest)
    requires Edited(read, after, Chosen(req, UPDATABLE))
    ensures At(after, ["spec", "image"]) == if Image in req then req[Image] else At(read, ["spec", "image"])
    ensures At(after, ["spec", "imagePullPolicy"])
            == if ImagePullPolicy in req then req[ImagePullPolicy] else At(read, ["spec", "imagePullPolicy"])
    ensures At(after, ["spec", "env"]) == if Env in req then req[Env] else At(read, ["spec", "env"])
    ensures At(after, ["spec", "envFrom"]) == if EnvFrom in req then req[EnvFrom] else At(read, ["spec", "envFrom"])
    ensures At(after, ["spec", "command"]) == if Command in req then req[Command] else At(read, ["spec", "command"])
    ensures At(after, ["spec", "args"]) == if Args in req then req[Args] else At(read, ["spec", "args"])
    ensures At(after, ["spec", "serviceAccountName"])
            == if ServiceAccount in req then req[ServiceAccount] else At(read, ["spec", "serviceAccountName"])
    ensures At(after, ["spec", "restartPolicy"])
            == if RestartPolicy in req then req[RestartPolicy] else At(read, ["spec", "restartPolicy"])
    ensures At(after, ["spec", "podLabels"])
            == if PodLabels in req then req[PodLabels] else At(read, ["spec", "podLabels"])
    ensures At(after, ["spec", "podAnnotations"])
            == if PodAnnotations in req then req[PodAnnotations] else At(read, ["spec", "podAnnotations"])
    ensures At(after, ["spec", "idleTimeout"])
            == if IdleTimeout in req then req[IdleTimeout] else At(read, ["spec", "idleTimeout"])
    ensures At(after, ["spec", "resources"]) == At(read, ["spec", "resources"])
  {
    hide IsAgent, SameElsewhere, PathOf, At, Chosen;
    ContainerPaths();
    EnvironmentPaths();
    PodPaths();
    forall f: Field
      ensures f in Chosen(req, UPDATABLE) <==> f in req && f in UPDATABLE
      ensures f in Chosen(req, UPDATABLE) ==> Chosen(req, UPDATABLE)[f] == req[f]
    {
      ChosenIs(req, UPDATABLE, f);
    }
  }

  lemma ChosenIs(req: UpdateRequest, fields: seq<Field>, f: Field)
    ensures f in Chosen(req, fields) <==> f in req && f in fields
    ensures f in Chosen(req, fields) ==> Chosen(req, fields)[f] == req[f]
  {
  }

  // ---- Environment variables of concurrent requests

  predicate WritesEnv(h: Handled) {
    Writes(Env, h.read, h.req)
  }

  // What request h alone decides about a variable.
  predicate Keeps(h: Handled, v: EnvVar) {
    var before := EnvVars.Lookup(EnvOf(h.read), v.name);
    match h.req
    case SetEnv(vars) => EnvVars.Lookup(vars, v.name) == Some(v)
    case MergeEnv(vars) =>
      EnvVars.Lookup(vars, v.name) == Some(v) || (EnvVars.Lookup(vars, v.name).None? && before == Some(v))
    case DeleteEnv(key) => v.name != key && before == Some(v)
    case _ => false
  }

  /**
   After any requests, started from objects however old, a variable is in force exactly when the last one that wrote
   the list mentions it with that value, or does not mention it and had read it with that value: what others added
   since that read is gone.
   */
  lemma VariableInForceIff(agent: Json, handled: seq<Handled>, k: nat, v: EnvVar)
    requires k < |handled| && forall j | 0 <= j < |handled| :: Proper(handled[j])
    requires WritesEnv(handled[k]) && forall j | k < j < |handled| :: !WritesEnv(handled[j])
    ensures EnvVars.Lookup(EnvOf(Stored(agent, handled)), v.name) == Some(v) <==> Keeps(handled[k], v)
    ensures EnvOf(Stored(agent, handled)) == EnvJson.Decode(At(Stored(agent, handled), ["spec", "env"]))
  {
    EnvironmentPaths();
    var h := handled[k];
    NoLostUpdate(agent, handled, k, Env);
    var read := EnvOf(h.read);
    WrittenList(h);
    hide Wanted, Stored, Proper, Writes, EnvJson.Decode, EnvJson.Encode, EnvVars.Lookup;
    match h.req
    case MergeEnv(vars) => EnvVars.MergeLookup(read, vars, v.name);
    case DeleteEnv(key) => EnvVars.WithoutLookup(read, key, v.name);
    case _ =>
  }

  lemma WrittenList(h: Handled)
    requires WritesEnv(h)
    ensures h.req.SetEnv? || h.req.MergeEnv? || h.req.DeleteEnv?
    ensures EnvJson.Decode(Wanted(h.req, h.read)[Env]) == NewEnv(h.req, EnvOf(h.read))
  {
    EnvJson.DecodeEncode(NewEnv(h.req, EnvOf(h.read)));
    hide EnvJson.Decode, EnvJson.Encode, NewEnv, EnvOf;
  }

  // A merge into an object, as MakeEdits makes it.
  function MergeInto(read: Json, vars: seq<EnvVar>): Handled {
    Handled(read, Put(read, PathOf(Env), EnvJson.Encode(EnvVars.Merge(EnvOf(read), vars))), MergeEnv(vars))
  }

  lemma MergeIntoIsProper(read: Json, vars: seq<EnvVar>)
    requires IsAgent(read)
    ensures Proper(MergeInto(read, vars))
  {
    EnvJson.DecodeEncode(EnvVars.Merge(EnvOf(read), vars));
    Untouched(read);
    Assign(read, read, map[], Env, EnvJson.Encode(EnvVars.Merge(EnvOf(read), vars)));
    hide EnvJson.Encode, PathOf, IsAgent, Edited, EnvOf;
  }

  /**
   Two merges of one variable each, both from the same object without variables: the second to arrive drops the first.
   */
  lemma MergeLosesVariable(read: Json, x: EnvVar, y: EnvVar)
    requires IsAgent(read) && EnvOf(read) == [] && x.name != y.name && Get(read, Env).Null?
    ensures Proper(MergeInto(read, [x])) && Proper(MergeInto(read, [y]))
    ensures EnvVars.Lookup(EnvOf(Stored(read, [MergeInto(read, [x])])), x.name) == Some(x)
    ensures EnvVars.Lookup(EnvOf(Stored(read, [MergeInto(read, [x]), MergeInto(read, [y])])), x.name) != Some(x)
    ensures EnvVars.Lookup(EnvOf(Stored(read, [MergeInto(read, [x]), MergeInto(read, [y])])), y.name) == Some(y)
  {
    hide Proper, Edited, WritesEnv, MergeInto, EnvOf, Stored, Keeps, IsAgent, Get;
    MergeIntoIsProper(read, [x]);
    MergeIntoIsProper(read, [y]);
    MergeOfOneWrites(read, x);
    MergeOfOneWrites(read, y);
    var g, h := MergeInto(read, [x]), MergeInto(read, [y]);
    VariableInForceIff(read, [g], 0, x);
    VariableInForceIff(read, [g, h], 1, x);
    VariableInForceIff(read, [g, h], 1, y);
  }

  lemma MergeOfOneWrites(read: Json, x: EnvVar)
    requires EnvOf(read) == [] && Get(read, Env).Null?
    ensures WritesEnv(MergeInto(read, [x]))
    ensures forall v: EnvVar :: Keeps(MergeInto(read, [x]), v) <==> v == x
  {
    assert [x][..0] == [];
    assert EnvVars.Merge([], [x]) == [x] by {
      assert EnvVars.Merge([], [x][..0]) == [];
      assert EnvVars.Upsert([], x) == [x];
    }
    EnvJson.DecodeEncode([x]);
    assert forall name :: EnvVars.Lookup([x], name) == if name == x.name then Some(x) else None;
  }

  // ---- The Failed condition

  /**
   setCondition changes the object before the base of the status patch is copied, so the patch never carries the
   condition: the stored ones stay as they were. With the base copied first they would have been written.
   */
  lemma FailedConditionIsNotStored(read: Json, conditions: Json, after: Json, report: Request, stored: Json)
    requires IsAgent(read) && NullFree(conditions) && !conditions.Obj? && report.ReportStatus?
    requires var base := Put(read, PathOf(Conditions), conditions); Edited(base, after, Wanted(report, base))
    ensures var base := Put(read, PathOf(Conditions), conditions);
            IsAgent(base) && Get(Apply(stored, Diff(base, after)), Conditions) == Get(stored, Conditions)
    ensures conditions != Get(read, Conditions) ==> Get(Apply(stored, Diff(read, after)), Conditions) == conditions
  {
    var base := Put(read, PathOf(Conditions), conditions);
    ConditionInBase(read, conditions);
    ReportLeavesConditions(base, after, report, stored);
    assert Grown(base, after, PathOf(Conditions));
    hide PathOf, IsAgent, Edited, Put, Get, Diff, Apply, Wanted;
    if conditions != Get(read, Conditions) {
      SentFromTheStart(read, base, after, conditions, stored);
    }
  }

  lemma ConditionInBase(read: Json, conditions: Json)
    requires IsAgent(read) && NullFree(conditions)
    ensures var base := Put(read, PathOf(Conditions), conditions);
            IsAgent(base) && Get(base, Conditions) == conditions && Grown(read, base, PathOf(Conditions))
  {
    Untouched(read);
    Assign(read, read, map[], Conditions, conditions);
    hide PathOf, IsAgent, Put, Get;
  }

  lemma ReportLeavesConditions(base: Json, after: Json, report: Request, stored: Json)
    requires IsAgent(base) && Edited(base, after, Wanted(report, base)) && report.ReportStatus?
    ensures IsAgent(after) && Get(after, Conditions) == Get(base, Conditions)
    ensures Get(Apply(stored, Diff(base, after)), Conditions) == Get(stored, Conditions)
  {
    assert Conditions !in Wanted(report, base);
    hide Wanted, Get, PathOf;
    SentAt(base, after, report, stored, Conditions);
  }

  lemma SentFromTheStart(read: Json, base: Json, after: Json, value: Json, stored: Json)
    requires IsAgent(read) && IsAgent(after) && !value.Obj? && value != Get(read, Conditions)
    requires Grown(read, base, PathOf(Conditions)) && Grown(base, after, PathOf(Conditions))
        && Get(after, Conditions) == value
    ensures Get(Apply(stored, Diff(read, after)), Conditions) == value
  {
    hide PathOf;
    GrownTwice(read, base, after, PathOf(Conditions));
    PatchedAt(read, after, PathOf(Conditions), stored);
    hide Diff, Apply, At, Grown;
  }
}
