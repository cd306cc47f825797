/**
 JSON merge patches (section 2 of RFC 7396), which every get-then-patch handler and the idle watcher send:
 the patch is the difference between the object that was read and the object after the handler's edit, and the
 API server applies it to whatever is stored when it arrives.
 */
module MergePatch {
  import opened Wrappers

  datatype Json = Null | Atom(text: string) | Array(items: seq<Json>) | Obj(members: map<string, Json>)

  function MembersOf(j: Json): map<string, Json> {
    if j.Obj? then j.members else map[]
  }

  // An absent member and null read the same.
  function Member(j: Json, key: string): Json {
    if key in MembersOf(j) then MembersOf(j)[key] else Null
  }

  function Apply(target: Json, patch: Json): Json
    decreases patch
  {
    match patch
    case Obj(p) =>
      var t := MembersOf(target);
      Obj(map k | k in t.Keys + p.Keys && !(k in p && p[k].Null?) ::
            if k in p then Apply(Member(target, k), p[k]) else t[k])
    case _ => patch
  }

  // The patch that client.MergeFrom computes from two objects.
  function Diff(before: Json, after: Json): Json
    requires before.Obj? && after.Obj?
    decreases after
  {
    Obj(map k | k in before.members.Keys + after.members.Keys && Member(before, k) != Member(after, k) ::
          if k !in after.members then Null
          else if Member(before, k).Obj? && after.members[k].Obj? then Diff(Member(before, k), after.members[k])
          else after.members[k])
  }

  // No member is null; Kubernetes objects leave empty members out.
  predicate NullFree(j: Json) {
    match j
    case Null => false
    case Atom(_) => true
    case Array(_) => true              // replaced as a whole
    case Obj(m) => forall k | k in m :: NullFree(m[k])
  }

  lemma {:induction false} ApplyToNothing(patch: Json)
    requires NullFree(patch)
    ensures Apply(Null, patch) == patch
  {
    if patch.Obj? {
      forall k | k in patch.members
        ensures Apply(Member(Null, k), patch.members[k]) == patch.members[k]
      {
        ApplyToNothing(patch.members[k]);
      }
    }
  }

  /** Applied to the object it was computed from, the patch produces exactly the edited object. */
  lemma {:induction false} DiffThenApply(before: Json, after: Json)
    requires before.Obj? && after.Obj? && NullFree(before) && NullFree(after)
    ensures Apply(before, Diff(before, after)) == after
    decreases after
  {
    var patch := Diff(before, after);
    var result := Apply(before, patch);
    forall k | k in patch.members && k in after.members
      ensures Apply(Member(before, k), patch.members[k]) == after.members[k]
    {
      var b, a := Member(before, k), after.members[k];
      if b.Obj? && a.Obj? {
        DiffThenApply(b, a);
      } else if a.Obj? {
        ApplyToNonObject(b, a);
      }
    }
    forall k
      ensures Member(result, k) == Member(after, k) && (k in result.members <==> k in after.members)
    {
      if k in after.members {
        assert NullFree(after.members[k]);
      }
      if k in before.members {
        assert NullFree(before.members[k]);
      }
    }
    assert result.members == after.members;
  }

  lemma {:induction false} ApplyToNonObject(target: Json, patch: Json)
    requires !target.Obj? && NullFree(patch)
    ensures Apply(target, patch) == patch
  {
    if patch.Obj? {
      forall k | k in patch.members
        ensures Apply(Member(target, k), patch.members[k]) == patch.members[k]
      {
        ApplyToNothing(patch.members[k]);
      }
    }
  }

  // The two patches share no member except objects that are disjoint in turn.
  predicate Disjoint(p: Json, q: Json)
    decreases p
  {
    && p.Obj? && q.Obj?
    && forall k | k in p.members && k in q.members :: Disjoint(p.members[k], q.members[k])
  }

  lemma {:induction false} DisjointSymmetric(p: Json, q: Json)
    requires Disjoint(p, q)
    ensures Disjoint(q, p)
    decreases p
  {
    forall k | k in q.members && k in p.members
      ensures Disjoint(q.members[k], p.members[k])
    {
      DisjointSymmetric(p.members[k], q.members[k]);
    }
  }

  lemma MemberOfApply(target: Json, patch: Json, k: string)
    requires patch.Obj?
    ensures k in Apply(target, patch).members
            <==> if k in patch.members then !patch.members[k].Null? else k in MembersOf(target)
    ensures Member(Apply(target, patch), k) ==
            if k in patch.members then Apply(Member(target, k), patch.members[k]) else Member(target, k)
  {
  }

  /** Patches that touch disjoint members commute on every target. */
  lemma {:induction false} DisjointPatchesCommute(target: Json, p: Json, q: Json)
    requires Disjoint(p, q)
    ensures Apply(Apply(target, p), q) == Apply(Apply(target, q), p)
    decreases p
  {
    var pq, qp := Apply(Apply(target, p), q), Apply(Apply(target, q), p);
    forall k
      ensures k in pq.members <==> k in qp.members
      ensures Member(pq, k) == Member(qp, k)
    {
      MemberOfApply(target, p, k);
      MemberOfApply(target, q, k);
      MemberOfApply(Apply(target, p), q, k);
      MemberOfApply(Apply(target, q), p, k);
      if k in p.members && k in q.members {
        DisjointPatchesCommute(Member(target, k), p.members[k], q.members[k]);
      }
    }
    forall k | k in pq.members
      ensures pq.members[k] == qp.members[k]
    {
      assert Member(pq, k) == Member(qp, k);
    }
    assert pq.members == qp.members;
  }

  /** Sending a patch twice is the same as sending it once. */
  lemma {:induction false} ApplyIdempotent(target: Json, p: Json)
    ensures Apply(Apply(target, p), p) == Apply(target, p)
    decreases p
  {
    if p.Obj? {
      var once := Apply(target, p);
      var twice := Apply(once, p);
      forall k
        ensures k in twice.members <==> k in once.members
        ensures Member(twice, k) == Member(once, k)
      {
        MemberOfApply(target, p, k);
        MemberOfApply(once, p, k);
        if k in p.members {
          ApplyIdempotent(Member(target, k), p.members[k]);
        }
      }
      forall k | k in twice.members
        ensures twice.members[k] == once.members[k]
      {
        assert Member(twice, k) == Member(once, k);
      }
      assert twice.members == once.members;
    }
  }

  // What patch p asked for is what j holds.
  predicate Holds(j: Json, p: Json) {
    Apply(j, p) == j
  }

  lemma DisjointKeepsHolding(j: Json, p: Json, q: Json)
    requires Holds(j, p) && Disjoint(p, q)
    ensures Holds(Apply(j, q), p)
  {
    DisjointPatchesCommute(j, p, q);
  }

  function ApplyAll(target: Json, patches: seq<Json>): Json
    decreases |patches|
  {
    if patches == [] then target else ApplyAll(Apply(target, patches[0]), patches[1..])
  }

  predicate PairwiseDisjoint(patches: seq<Json>) {
    forall i, j | 0 <= i < |patches| && 0 <= j < |patches| && i != j :: Disjoint(patches[i], patches[j])
  }

  lemma {:induction false} LaterPatchesKeep(j: Json, p: Json, patches: seq<Json>)
    requires Holds(j, p) && forall i | 0 <= i < |patches| :: Disjoint(p, patches[i])
    ensures Holds(ApplyAll(j, patches), p)
    decreases |patches|
  {
    if patches != [] {
      DisjointKeepsHolding(j, p, patches[0]);
      LaterPatchesKeep(Apply(j, patches[0]), p, patches[1..]);
    }
  }

  /**
   No lost update: whatever is stored when they arrive, and in whatever order, pairwise disjoint patches are all in
   force afterwards.
   */
  lemma {:induction false} AllPatchesHold(target: Json, patches: seq<Json>, i: nat)
    requires PairwiseDisjoint(patches) && i < |patches|
    ensures Holds(ApplyAll(target, patches), patches[i])
    decreases |patches|
  {
    var next := Apply(target, patches[0]);
    if i == 0 {
      ApplyIdempotent(target, patches[0]);
      LaterPatchesKeep(next, patches[0], patches[1..]);
    } else {
      AllPatchesHold(next, patches[1..], i - 1);
    }
  }

  /** And the order does not matter: moving any patch to the front gives the same object. */
  lemma {:induction false} OrderDoesNotMatter(target: Json, patches: seq<Json>, i: nat)
    requires PairwiseDisjoint(patches) && i < |patches|
    ensures ApplyAll(target, patches) == ApplyAll(Apply(target, patches[i]), patches[..i] + patches[i + 1..])
    decreases i
  {
    var first, rest := patches[0], patches[1..];
    if i == 0 {
      assert patches[..0] + patches[1..] == rest;
    } else {
      OrderDoesNotMatter(Apply(target, first), rest, i - 1);
      DisjointPatchesCommute(target, first, patches[i]);
      var moved := patches[..i] + patches[i + 1..];
      assert moved[0] == first;
      assert moved[1..] == rest[..i - 1] + rest[i..];
    }
  }

  // ------------------------------------------------------------------ what one handler writes and what it leaves

  type Path = seq<string>

  function At(j: Json, path: Path): Json
    decreases |path|
  {
    if path == [] then j else At(Member(j, path[0]), path[1..])
  }

  // patch writes at path, above it, or to all that is below it.
  predicate Touches(patch: Json, path: Path)
    decreases |path|
  {
    !patch.Obj? || path == [] || (path[0] in patch.members && Touches(patch.members[path[0]], path[1..]))
  }

  /** A patch leaves every path that it does not touch as it is stored, whatever is stored. */
  lemma {:induction false} UntouchedPathIsKept(stored: Json, patch: Json, path: Path)
    requires !Touches(patch, path)
    ensures At(Apply(stored, patch), path) == At(stored, path)
    decreases |path|
  {
    MemberOfApply(stored, patch, path[0]);
    if path[0] in patch.members {
      UntouchedPathIsKept(Member(stored, path[0]), patch.members[path[0]], path[1..]);
    }
  }

  // The two objects are equal at path, or at some object on the way to it.
  predicate AgreeOn(before: Json, after: Json, path: Path)
    decreases |path|
  {
    && path != []
    && (before.Obj? || before.Null?) && after.Obj?
    && var b, a := Member(before, path[0]), Member(after, path[0]);
       b == a || AgreeOn(b, a, path[1..])
  }

  lemma {:induction false} AgreedPathInNewObject(after: Json, path: Path)
    requires AgreeOn(Null, after, path) && NullFree(after)
    ensures !Touches(after, path)
    decreases |path|
  {
    if path[0] in after.members {
      AgreedPathInNewObject(after.members[path[0]], path[1..]);
    }
  }

  /** The patch computed from a read and an edit does not touch the paths on which the edit changed nothing. */
  lemma {:induction false} DiffLeavesAgreedPaths(before: Json, after: Json, path: Path)
    requires before.Obj? && AgreeOn(before, after, path) && NullFree(before) && NullFree(after)
    ensures !Touches(Diff(before, after), path)
    decreases |path|
  {
    var k := path[0];
    if k in Diff(before, after).members {
      if k in before.members {
        DiffLeavesAgreedPaths(before.members[k], after.members[k], path[1..]);
      } else {
        AgreedPathInNewObject(after.members[k], path[1..]);
      }
    }
  }

  // What one field becomes under a patch: what is wanted, unless that was read already, and so was not sent.
  function Patched<T(==)>(stored: T, read: T, wanted: T): T {
    if wanted == read then stored else wanted
  }

  // One assignment of a handler; Null stands for a field that is left out when empty, such as paused: false.
  function Put(j: Json, path: Path, value: Json): Json
    requires path != []
    decreases |path|
  {
    var inner := if |path| == 1 then value else Put(Member(j, path[0]), path[1..], value);
    Obj(if inner.Null? then MembersOf(j) - {path[0]} else MembersOf(j)[path[0] := inner])
  }

  // The parents on the path are objects or absent.
  predicate Walkable(j: Json, path: Path)
    decreases |path|
  {
    (j.Obj? || j.Null?) && (|path| <= 1 || Walkable(Member(j, path[0]), path[1..]))
  }

  // Neither path is a prefix of the other.
  predicate Diverge(p: Path, q: Path)
    decreases |p|
  {
    p != [] && q != [] && (p[0] != q[0] || Diverge(p[1..], q[1..]))
  }

  lemma {:induction false} PutLeavesDiverging(j: Json, p: Path, value: Json, q: Path)
    requires Diverge(p, q) && Walkable(j, p)
    ensures AgreeOn(j, Put(j, p, value), q)
    decreases |p|
  {
    if p[0] == q[0] {
      PutLeavesDiverging(Member(j, p[0]), p[1..], value, q[1..]);
    }
  }

  lemma {:induction false} PutWrites(j: Json, p: Path, value: Json)
    requires p != []
    ensures At(Put(j, p, value), p) == value
    decreases |p|
  {
    if |p| > 1 {
      PutWrites(Member(j, p[0]), p[1..], value);
      assert At(Put(j, p, value), p) == At(Put(Member(j, p[0]), p[1..], value), p[1..]);
    } else {
      assert At(value, p[1..]) == value;
    }
  }

  // A handler assigns a few fields one after the other.
  datatype Assignment = Assignment(path: Path, value: Json)

  predicate Assignable(j: Json, edit: Assignment) {
    edit.path != [] && Walkable(j, edit.path) && (edit.value.Null? || NullFree(edit.value))
  }

  predicate AllAssignable(j: Json, edits: seq<Assignment>)
    decreases |edits|
  {
    edits == [] || (Assignable(j, edits[0]) && AllAssignable(Put(j, edits[0].path, edits[0].value), edits[1..]))
  }

  function PutAll(j: Json, edits: seq<Assignment>): Json
    requires AllAssignable(j, edits)
    decreases |edits|
  {
    if edits == [] then j else PutAll(Put(j, edits[0].path, edits[0].value), edits[1..])
  }

  lemma {:induction false} PutNullFree(j: Json, p: Path, value: Json)
    requires (j.Null? || NullFree(j)) && p != [] && (value.Null? || NullFree(value))
    ensures NullFree(Put(j, p, value))
    decreases |p|
  {
    if |p| > 1 {
      PutNullFree(Member(j, p[0]), p[1..], value);
    }
  }

  lemma {:induction false} AgreeOnTransitive(a: Json, b: Json, c: Json, path: Path)
    requires AgreeOn(a, b, path) && AgreeOn(b, c, path)
    ensures AgreeOn(a, c, path)
    decreases |path|
  {
    var k := path[0];
    if Member(a, k) != Member(b, k) && Member(b, k) != Member(c, k) {
      AgreeOnTransitive(Member(a, k), Member(b, k), Member(c, k), path[1..]);
    }
  }

  lemma {:induction false} PutAllLeavesDiverging(j: Json, edits: seq<Assignment>, other: Path)
    requires j.Obj? && NullFree(j) && AllAssignable(j, edits) && other != []
    requires forall i | 0 <= i < |edits| :: Diverge(edits[i].path, other)
    ensures PutAll(j, edits).Obj? && NullFree(PutAll(j, edits)) && AgreeOn(j, PutAll(j, edits), other)
    decreases |edits|
  {
    if edits != [] {
      var next := Put(j, edits[0].path, edits[0].value);
      PutNullFree(j, edits[0].path, edits[0].value);
      PutLeavesDiverging(j, edits[0].path, edits[0].value, other);
      PutAllLeavesDiverging(next, edits[1..], other);
      AgreeOnTransitive(j, next, PutAll(next, edits[1..]), other);
    }
  }

  /**
   Whatever was written between a handler's read and its patch, a field that the handler does not assign keeps the value
   that is stored when the patch arrives.
   */
  lemma HandlerKeepsOtherFields(read: Json, edits: seq<Assignment>, stored: Json, other: Path)
    requires read.Obj? && NullFree(read) && AllAssignable(read, edits) && other != []
    requires forall i | 0 <= i < |edits| :: Diverge(edits[i].path, other)
    ensures PutAll(read, edits).Obj?
    ensures At(Apply(stored, Diff(read, PutAll(read, edits))), other) == At(stored, other)
  {
    PutAllLeavesDiverging(read, edits, other);
    DiffLeavesAgreedPaths(read, PutAll(read, edits), other);
    UntouchedPathIsKept(stored, Diff(read, PutAll(read, edits)), other);
  }

  // Objects on the way to path stay objects.
  predicate Grown(before: Json, after: Json, path: Path)
    decreases |path|
  {
    after.Obj? && (|path| <= 1
                   || (Member(before, path[0]).Null? && Member(after, path[0]).Null?)
                   || Grown(Member(before, path[0]), Member(after, path[0]), path[1..]))
  }

  /**
   What a patch does at one field, whatever is stored: the value after the edit, when that differs from what was read,
   and otherwise what is stored.
   */
  lemma {:induction false} PatchedAt(read: Json, after: Json, path: Path, stored: Json)
    requires (read.Null? || (read.Obj? && NullFree(read))) && NullFree(after) && path != []
    requires Walkable(read, path) && Walkable(after, path) && Grown(read, after, path)
    requires At(read, path) == At(after, path) || !At(after, path).Obj?
    ensures At(Apply(stored, if read.Obj? then Diff(read, after) else after), path)
            == At(if At(read, path) != At(after, path) then after else stored, path)
    decreases |path|
  {
    var patch := if read.Obj? then Diff(read, after) else after;
    var k := path[0];
    var b, a := Member(read, k), Member(after, k);
    MemberOfApply(stored, patch, k);
    assert At(read, path) == At(b, path[1..]) && At(after, path) == At(a, path[1..]);
    assert k in patch.members <==> b != a;
    if b != a {
      assert patch.members[k] == if b.Obj? && a.Obj? then Diff(b, a) else a;
      if |path| == 1 {
        assert path[1..] == [];
      } else {
        PatchedAt(b, a, path[1..], Member(stored, k));
      }
    }
  }

  lemma {:induction false} PutGrows(j: Json, p: Path, value: Json, q: Path)
    requires Walkable(j, p) && Walkable(j, q) && p != [] && (p == q || Diverge(p, q))
    ensures Walkable(Put(j, p, value), q) && (q != [] ==> Grown(j, Put(j, p, value), q))
    ensures p != q ==> At(Put(j, p, value), q) == At(j, q)
    decreases |q|
  {
    if q != [] {
      var k := q[0];
      if p[0] == k {
        if |p| > 1 && |q| > 1 {
          PutGrows(Member(j, k), p[1..], value, q[1..]);
        }
      } else if |q| > 1 {
        GrownSame(Member(j, k), q[1..]);
      }
    }
  }

  // An assignment leaves every path alone that is neither above nor below its own.
  lemma {:induction false} PutElsewhere(j: Json, p: Path, value: Json, q: Path)
    requires Diverge(p, q)
    ensures At(Put(j, p, value), q) == At(j, q)
    decreases |p|
  {
    if p[0] == q[0] {
      PutElsewhere(Member(j, p[0]), p[1..], value, q[1..]);
    }
  }

  lemma {:induction false} GrownSame(j: Json, q: Path)
    requires Walkable(j, q)
    ensures j.Obj? && q != [] ==> Grown(j, j, q)
    decreases |q|
  {
    if |q| > 1 {
      GrownSame(Member(j, q[0]), q[1..]);
    }
  }

  /**
   The handler's own assignment: it is in force after the patch exactly when the value was different in the object that
   was read, or is what happens to be stored. A stop that read paused: true sends nothing and loses to a start that
   slipped in between.
   */
  lemma AssignmentInForceIff(read: Json, p: Path, value: Json, stored: Json)
    requires read.Obj? && NullFree(read) && p != [] && Walkable(read, p) && !value.Obj?
    ensures At(Apply(stored, Diff(read, Put(read, p, value))), p) == value
            <==> At(read, p) != value || At(stored, p) == value
  {
    PutNullFree(read, p, value);
    PutGrows(read, p, value, p);
    PutWrites(read, p, value);
    PatchedAt(read, Put(read, p, value), p, stored);
  }

  // The fields that the handlers, the idle watcher and the reconciler assign.
  datatype Field =
    | Paused | HealingDisabled | Env
    | Image | ImagePullPolicy | EnvFrom | Resources | Command | Args | ServiceAccount | RestartPolicy
    | PodLabels | PodAnnotations | IdleTimeout
    | RestartAt | StoppedAt | StopReason | StartedAt | WakeReason
    | Conditions | StatusPhase | StatusPodName | StatusMessage | ObservedGeneration | LastUpdated

  function AnnotationKey(f: Field): Option<string> {
    match f
    case RestartAt => Some("orchestrator.dev/restart-at")
    case StoppedAt => Some("orchestrator.dev/stopped-at")
    case StopReason => Some("orchestrator.dev/stop-reason")
    case StartedAt => Some("orchestrator.dev/started-at")
    case WakeReason => Some("orchestrator.dev/wake-reason")
    case _ => None
  }

  function StatusKey(f: Field): Option<string> {
    match f
    case Conditions => Some("conditions")
    case StatusPhase => Some("phase")
    case StatusPodName => Some("podName")
    case StatusMessage => Some("message")
    case ObservedGeneration => Some("observedGeneration")
    case LastUpdated => Some("lastUpdated")
    case _ => None
  }

  function SpecKey(f: Field): string {
    match f
    case Paused => "paused"
    case HealingDisabled => "selfHealingDisabled"
    case Env => "env"
    case Image => "image"
    case ImagePullPolicy => "imagePullPolicy"
    case EnvFrom => "envFrom"
    case Resources => "resources"
    case Command => "command"
    case Args => "args"
    case ServiceAccount => "serviceAccountName"
    case RestartPolicy => "restartPolicy"
    case PodLabels => "podLabels"
    case PodAnnotations => "podAnnotations"
    case IdleTimeout => "idleTimeout"
    case _ => ""
  }

  function ParentOf(f: Field): Path {
    if AnnotationKey(f).Some? then ["metadata", "annotations"] else if StatusKey(f).Some? then ["status"] else ["spec"]
  }

  function KeyOf(f: Field): string {
    if AnnotationKey(f).Some? then AnnotationKey(f).value
    else if StatusKey(f).Some? then StatusKey(f).value
    else SpecKey(f)
  }

  function PathOf(f: Field): (p: Path)
    ensures |p| > 0
  {
    ParentOf(f) + [KeyOf(f)]
  }

  lemma AnnotationKeysDiffer(f: Field, g: Field)
    requires f != g && AnnotationKey(f).Some? && AnnotationKey(g).Some?
    ensures AnnotationKey(f) != AnnotationKey(g)
  {
    var k, l := AnnotationKey(f).value, AnnotationKey(g).value;
    assert |k| != |l| || k[19] != l[19];
  }

  lemma StatusKeysDiffer(f: Field, g: Field)
    requires f != g && StatusKey(f).Some? && StatusKey(g).Some?
    ensures StatusKey(f) != StatusKey(g)
  {
    var k, l := StatusKey(f).value, StatusKey(g).value;
    assert |k| != |l| || k[0] != l[0];
  }

  lemma SpecKeysDiffer(f: Field, g: Field)
    requires f != g && SpecKey(f) != "" && SpecKey(g) != ""
    ensures SpecKey(f) != SpecKey(g)
  {
    var k, l := SpecKey(f), SpecKey(g);
    assert |k| != |l| || k[0] != l[0];
  }

  lemma KeysDiffer(f: Field, g: Field)
    requires f != g && ParentOf(f) == ParentOf(g)
    ensures KeyOf(f) != KeyOf(g)
  {
    assert ParentOf(f)[0]
        == if AnnotationKey(f).Some? then "metadata" else if StatusKey(f).Some? then "status" else "spec";
    assert ParentOf(g)[0]
        == if AnnotationKey(g).Some? then "metadata" else if StatusKey(g).Some? then "status" else "spec";
    if AnnotationKey(f).Some? {
      AnnotationKeysDiffer(f, g);
    } else if StatusKey(f).Some? {
      StatusKeysDiffer(f, g);
    } else {
      SpecKeysDiffer(f, g);
    }
  }

  lemma FieldsDiverge(f: Field, g: Field)
    requires f != g
    ensures Diverge(PathOf(f), PathOf(g))
  {
    hide KeyOf;
    if ParentOf(f)[0] == ParentOf(g)[0] {
      assert ParentOf(f) == ParentOf(g);
      KeysDiffer(f, g);
      SameParentDiverges(ParentOf(f), KeyOf(f), KeyOf(g));
    }
  }

  lemma {:induction false} SameParentDiverges(parent: Path, k: string, l: string)
    requires k != l
    ensures Diverge(parent + [k], parent + [l])
    decreases |parent|
  {
    if parent != [] {
      assert (parent + [k])[1..] == parent[1..] + [k] && (parent + [l])[1..] == parent[1..] + [l];
      SameParentDiverges(parent[1..], k, l);
    }
  }

  /** So each of the handlers leaves alone every field that it does not itself assign. */
  lemma HandlersKeepEachOthersFields(read: Json, edits: seq<Assignment>, fields: seq<Field>, stored: Json, other: Field)
    requires read.Obj? && NullFree(read) && AllAssignable(read, edits)
    requires |edits| == |fields| && forall i | 0 <= i < |edits| :: edits[i].path == PathOf(fields[i])
    requires other !in fields
    ensures PutAll(read, edits).Obj?
    ensures At(Apply(stored, Diff(read, PutAll(read, edits))), PathOf(other)) == At(stored, PathOf(other))
  {
    forall i | 0 <= i < |edits|
      ensures Diverge(edits[i].path, PathOf(other))
    {
      FieldsDiverge(fields[i], other);
    }
    hide PathOf;
    assert PathOf(other) != [];
    HandlerKeepsOtherFields(read, edits, stored, PathOf(other));
  }
}
