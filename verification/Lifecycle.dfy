/**
 The life of one Agent resource as an interleaving of single API calls.

 The reconciler, the resurrection goroutines, REST handlers, kubectl users and the kubelet all act on
 the same stored objects. Every API call of Reconcile, handleDeletion and resurrectAgentAsync is one
 action, so any other action may fall between two of them. A call that fails, or whose answer is lost,
 is the action Return; a restart of the process is Crash.

 Assumptions about the API server: a write gets a resource version never used before; Update fails
 unless it carries the stored version; only a change of the spec (and possibly a Delete) raises the
 generation; Delete on an object with a finalizer only marks it; the Update that removes the last
 finalizer of a marked object removes the object. There is one reconcile worker for the resource, Pod
 lists are up to date, and nobody else creates Pods with the owner labels or touches finalizers.
 Agent reads may be stale: they return any version that was ever stored, also of an Agent that is gone.
 */
module Lifecycle {
  import opened Wrappers
  import opened AgentTypes
  import Decimal

  datatype Pod = Pod(template: PodTemplate, owner: nat, terminating: bool)

  // The Pod object a List returned; it may have changed in the API server since.
  datatype Found = Found(id: nat, template: PodTemplate)

  datatype Pc =
    | Idle
    | Fetched(snap: Agent)
    | Listed(snap: Agent, found: Option<Found>)
    | DeletionListed(snap: Agent, stray: Found)
    | RemovingFinalizer(snap: Agent)
    | Spawning(snap: Agent)

  // What happened so far. No action depends on it; the theorems speak about it.
  datatype Past = Past(
    specAt: map<(nat, nat), Spec>,     // (uid, generation) -> the spec stored then
    versions: set<Agent>,              // every Agent object ever stored
    origin: map<nat, (nat, nat)>,      // Pod -> the (uid, generation) it was built from
    removed: map<nat, Agent>,          // uid -> the object stored when its finalizer was removed
    spawned: set<nat>,                 // uids for which a resurrection task was started
    born: map<nat, nat>,               // uid of a resurrected Agent -> uid it replaces
    birth: map<nat, Agent>)            // uid of a resurrected Agent -> the object that was created

  datatype State = State(
    name: string,
    cr: Option<Agent>,
    pods: map<nat, Pod>,
    pc: Pc,
    tasks: map<nat, Task>,
    nextUid: nat,
    nextVersion: nat,
    nextPod: nat,
    nextTask: nat,
    past: Past)

  function Init(name: string): State {
    State(name, None, map[], Idle, map[], 0, 0, 0, 0, Past(map[], {}, map[], map[], {}, map[], map[]))
  }

  datatype Action =
    // users, REST handlers, kubelet, process
    | UserCreate(spec: Spec, labels: Tags, annotations: Tags)
    | UserEdit(spec: Spec, labels: Tags, annotations: Tags)
    | UserDelete(bumpsGeneration: bool)
    | WriteStatus(status: Status)
    | PodTerminates(id: nat)
    | PodDisappears(id: nat)
    | Crash
    // the reconciler
    | Fetch(read: Option<Agent>)
    | UpdateAddFinalizer
    | ListPods(found: Option<Found>)
    | DeleteFoundPod
    | CreatePodCall
    | UpdateRemoveFinalizer
    | SpawnTask(now: string)
    | Return
    // resurrection goroutines
    | TaskCreates(task: nat)
    | TaskEnds(task: nat)

  function Fresh(s: State, uid: nat, spec: Spec, labels: Tags, annotations: Tags): Agent {
    Agent(uid, s.nextVersion, 1, labels, annotations, false, false, spec, Status(NoPhase, None, NoMessage, 0, ""))
  }

  // A write to the Agent object: it gets a new resource version.
  function Store(s: State, a: Agent): State {
    var stored := a.(resourceVersion := s.nextVersion);
    s.(cr := Some(stored),
       nextVersion := s.nextVersion + 1,
       past := s.past.(specAt := s.past.specAt[(a.uid, a.generation) := a.spec],
                       versions := s.past.versions + {stored}))
  }

  function Create(s: State, spec: Spec, labels: Tags, annotations: Tags): State {
    Store(s, Fresh(s, s.nextUid, spec, labels, annotations)).(nextUid := s.nextUid + 1)
  }

  function EditedAgent(a: Agent, spec: Spec, labels: Tags, annotations: Tags): Agent {
    a.(spec := spec, labels := labels, annotations := annotations,
       generation := if spec == a.spec then a.generation else a.generation + 1)
  }

  // Spec and metadata edits: PUT, PATCH and every get-then-patch handler. A write that changes nothing is no write.
  function Edit(s: State, spec: Spec, labels: Tags, annotations: Tags): State
    requires s.cr.Some?
  {
    var b := EditedAgent(s.cr.value, spec, labels, annotations);
    if b == s.cr.value then s else Store(s, b)
  }

  function MarkedAgent(a: Agent, bumpsGeneration: bool): Agent {
    a.(deleting := true, generation := if bumpsGeneration then a.generation + 1 else a.generation)
  }

  function MarkOrRemove(s: State, bumpsGeneration: bool): State
    requires s.cr.Some?
  {
    var a := s.cr.value;
    if !a.finalizer then s.(cr := None)
    else if a.deleting then s
    else Store(s, MarkedAgent(a, bumpsGeneration))
  }

  function Terminate(s: State, id: nat): State {
    if id in s.pods then s.(pods := s.pods[id := s.pods[id].(terminating := true)]) else s
  }

  predicate Live(s: State, id: nat) {
    id in s.pods && !s.pods[id].terminating
  }

  predicate FindsPod(s: State, found: Option<Found>) {
    match found
    case None => forall id | id in s.pods :: Live(s, id) ==> !Selects(s.name, s.pods[id].template)
    case Some(f) => Live(s, f.id) && s.pods[f.id].template == f.template && Selects(s.name, f.template)
  }

  // The conflict check of Update: the snapshot must be the stored version.
  predicate Current(s: State, snap: Agent) {
    s.cr.Some? && s.cr.value.resourceVersion == snap.resourceVersion
  }

  function ResurrectedAnnotations(annotations: Tags, now: string, uid: nat): Tags {
    annotations[ResurrectedAt := now][ResurrectionUid := Decimal.ToString(uid)]
  }

  function DecisionOf(found: Option<Found>): Option<PodTemplate> {
    if found.Some? then Some(found.value.template) else None
  }

  predicate Enabled(s: State, a: Action) {
    match a
    case UserCreate(_, _, _) => s.cr.None?
    case UserEdit(_, _, _) => s.cr.Some?
    case UserDelete(_) => s.cr.Some?
    case WriteStatus(_) => s.cr.Some?
    case PodTerminates(id) => id in s.pods
    case PodDisappears(id) => id in s.pods
    case Crash => true
    case Fetch(read) =>
      && s.pc.Idle?
      && (read.Some? ==> read.value in s.past.versions)
    case UpdateAddFinalizer =>
      && s.pc.Fetched? && !s.pc.snap.deleting
      && Decide(s.pc.snap, None) == Decision.AddFinalizer
    case ListPods(found) =>
      && s.pc.Fetched?
      && (s.pc.snap.deleting || Decide(s.pc.snap, None) != Decision.AddFinalizer)
      && FindsPod(s, found)
    case DeleteFoundPod =>
      || s.pc.DeletionListed?
      || (s.pc.Listed? && Decide(s.pc.snap, DecisionOf(s.pc.found)) in {DeletePodForPause, ReplacePod})
    case CreatePodCall => s.pc.Listed? && Decide(s.pc.snap, DecisionOf(s.pc.found)) == Decision.CreatePod
    case UpdateRemoveFinalizer => s.pc.RemovingFinalizer?
    case SpawnTask(_) => s.pc.Spawning?
    case Return => true
    case TaskCreates(t) => t in s.tasks && s.cr.None?
    case TaskEnds(t) => t in s.tasks
  }

  function Step(s: State, a: Action): State
    requires Enabled(s, a)
  {
    match a
    case UserCreate(spec, labels, annotations) => Create(s, spec, labels, annotations)
    case UserEdit(spec, labels, annotations) => Edit(s, spec, labels, annotations)
    case UserDelete(bumps) => MarkOrRemove(s, bumps)
    case WriteStatus(status) => Store(s, s.cr.value.(status := status))
    case PodTerminates(id) => Terminate(s, id)
    case PodDisappears(id) => s.(pods := s.pods - {id})
    case Crash => s.(pc := Idle, tasks := map[])
    case Fetch(read) => s.(pc := if read.Some? then Fetched(read.value) else Idle)
    case UpdateAddFinalizer =>
      var s' := if Current(s, s.pc.snap) then Store(s, s.pc.snap.(finalizer := true)) else s;
      s'.(pc := Idle)
    case ListPods(found) =>
      var snap := s.pc.snap;
      s.(pc := if !snap.deleting then Listed(snap, found)
               else if found.Some? then DeletionListed(snap, found.value)
               else RemovingFinalizer(snap))
    case DeleteFoundPod =>
      if s.pc.DeletionListed? then Terminate(s, s.pc.stray.id).(pc := RemovingFinalizer(s.pc.snap))
      else Terminate(s, s.pc.found.value.id).(pc := Idle)
    case CreatePodCall =>
      var snap := s.pc.snap;
      var pod := Pod(BuildPod(s.name, snap.generation, snap.spec), snap.uid, false);
      s.(pods := s.pods[s.nextPod := pod],
         nextPod := s.nextPod + 1,
         past := s.past.(origin := s.past.origin[s.nextPod := (snap.uid, snap.generation)]),
         pc := Idle)
    case UpdateRemoveFinalizer =>
      var snap := s.pc.snap;
      if Current(s, snap) then
        s.(cr := None,
           past := s.past.(removed := s.past.removed[snap.uid := s.cr.value]),
           pc := if snap.spec.selfHealingDisabled then Idle else Spawning(snap))
      else s.(pc := Idle)
    case SpawnTask(now) =>
      var snap := s.pc.snap;
      var task := Task(snap.uid, snap.spec, snap.labels, ResurrectedAnnotations(snap.annotations, now, snap.uid));
      s.(tasks := s.tasks[s.nextTask := task],
         nextTask := s.nextTask + 1,
         past := s.past.(spawned := s.past.spawned + {snap.uid}),
         pc := Idle)
    case Return => s.(pc := Idle)
    case TaskCreates(t) =>
      var task := s.tasks[t];
      var s' := Create(s, task.spec, task.labels, task.annotations);
      s'.(tasks := s.tasks - {t},
          past := s'.past.(born := s.past.born[s.nextUid := task.original],
                           birth := s.past.birth[s.nextUid := s'.cr.value]))
    case TaskEnds(t) => s.(tasks := s.tasks - {t})
  }

  // Users leave the reserved labels and the generation annotation alone.
  predicate KeepsReservedKeys(name: string, a: Action) {
    match a
    case UserCreate(spec, _, _) => KeepsReserved(name, spec)
    case UserEdit(spec, _, _) => KeepsReserved(name, spec)
    case _ => true
  }

  // acts can be performed one after the other from s.
  predicate IsRun(s: State, acts: seq<Action>)
    decreases |acts|
  {
    acts == [] ||
    (Enabled(s, acts[0]) && KeepsReservedKeys(s.name, acts[0]) && IsRun(Step(s, acts[0]), acts[1..]))
  }

  function Run(s: State, acts: seq<Action>): State
    requires IsRun(s, acts)
    decreases |acts|
  {
    if acts == [] then s else Run(Step(s, acts[0]), acts[1..])
  }

  // ------------------------------------------------------------------ invariants

  function Snapshot(pc: Pc): Option<Agent> {
    if pc.Idle? then None else Some(pc.snap)
  }

  predicate VersionOk(s: State, v: Agent) {
    && v.uid < s.nextUid
    && v.resourceVersion < s.nextVersion
    && (v.uid, v.generation) in s.past.specAt
    && s.past.specAt[(v.uid, v.generation)] == v.spec
    && KeepsReserved(s.name, v.spec)
    && (v.deleting ==> v.finalizer)
  }

  predicate VersionsOk(s: State) {
    && (forall v | v in s.past.versions :: VersionOk(s, v))
    && (forall v, w | v in s.past.versions && w in s.past.versions :: v.resourceVersion == w.resourceVersion ==> v == w)
    && (forall k | k in s.past.specAt :: k.0 < s.nextUid && KeepsReserved(s.name, s.past.specAt[k]))
    && (s.cr.Some? ==>
          && s.cr.value in s.past.versions
          && (forall k | k in s.past.specAt :: k.0 == s.cr.value.uid ==> k.1 <= s.cr.value.generation))
    && (Snapshot(s.pc).Some? ==> Snapshot(s.pc).value in s.past.versions)
  }

  predicate BuiltFrom(s: State, id: nat, template: PodTemplate) {
    && id in s.past.origin
    && s.past.origin[id] in s.past.specAt
    && template == BuildPod(s.name, s.past.origin[id].1, s.past.specAt[s.past.origin[id]])
  }

  predicate OnlyLive(s: State, id: nat) {
    forall i | i in s.pods :: Live(s, i) ==> i == id
  }

  predicate NoneLive(s: State) {
    forall i | i in s.pods :: !Live(s, i)
  }

  // Each Pod was built from its owner's spec, and one at most is live.
  predicate PodTableOk(s: State) {
    && (forall i | i in s.pods :: BuiltFrom(s, i, s.pods[i].template) && s.past.origin[i].0 == s.pods[i].owner)
    && (forall i | i in s.past.origin :: i < s.nextPod)
    && (forall i, j | i in s.pods && j in s.pods :: Live(s, i) && Live(s, j) ==> i == j)
  }

  // What the worker found out about the Pods is still so.
  predicate FindingsOk(s: State) {
    match s.pc
    case Listed(_, None) => NoneLive(s)
    case Listed(_, Some(f)) => OnlyLive(s, f.id) && BuiltFrom(s, f.id, f.template)
    case DeletionListed(_, f) => OnlyLive(s, f.id)
    case RemovingFinalizer(_) => NoneLive(s)
    case _ => true
  }

  predicate PodsOk(s: State) {
    PodTableOk(s) && FindingsOk(s)
  }

  // The annotations of an heir: those of the original, except the two resurrection keys.
  predicate Heirloom(original: nat, before: Tags, after: Tags) {
    && after.Keys == before.Keys + {ResurrectedAt, ResurrectionUid}
    && after[ResurrectionUid] == Decimal.ToString(original)
    && forall k | k in before && k != ResurrectedAt && k != ResurrectionUid :: after[k] == before[k]
  }

  predicate NoHeir(p: Past, original: nat) {
    forall u | u in p.born :: p.born[u] != original
  }

  predicate TaskOk(p: Past, t: Task) {
    && t.original in p.spawned
    && t.original in p.removed
    && NoHeir(p, t.original)
    && t.spec == p.removed[t.original].spec
    && t.labels == p.removed[t.original].labels
    && Heirloom(t.original, p.removed[t.original].annotations, t.annotations)
  }

  // An Agent created by a task carries what was stored when the original lost its finalizer.
  predicate BornOk(p: Past, u: nat) {
    && u in p.born && u in p.birth
    && p.born[u] < u
    && p.born[u] in p.removed
    && p.born[u] in p.spawned
    && var r, b := p.removed[p.born[u]], p.birth[u];
       && b.uid == u && b.generation == 1 && !b.finalizer && !b.deleting
       && b.spec == r.spec
       && b.labels == r.labels
       && Heirloom(p.born[u], r.annotations, b.annotations)
  }

  predicate RemovedOk(s: State) {
    && (forall u | u in s.past.removed :: u < s.nextUid && s.past.removed[u] in s.past.versions)
    && (s.cr.Some? ==> s.cr.value.uid !in s.past.removed)
    && (forall u | u in s.past.spawned :: u in s.past.removed && !s.past.removed[u].spec.selfHealingDisabled)
    && (s.pc.Spawning? ==>
          && s.pc.snap.uid in s.past.removed && s.past.removed[s.pc.snap.uid] == s.pc.snap
          && !s.pc.snap.spec.selfHealingDisabled
          && s.pc.snap.uid !in s.past.spawned)
  }

  predicate TableOk(s: State) {
    && (forall t | t in s.tasks :: t < s.nextTask && TaskOk(s.past, s.tasks[t]))
    && (forall t, t' | t in s.tasks && t' in s.tasks :: s.tasks[t].original == s.tasks[t'].original ==> t == t')
  }

  predicate BirthsOk(s: State) {
    && s.past.birth.Keys == s.past.born.Keys
    && (forall u | u in s.past.born :: u < s.nextUid && BornOk(s.past, u))
    && OneHeirEach(s.past.born)
  }

  predicate OneHeirEach(born: map<nat, nat>) {
    forall u, v | u in born && v in born :: born[u] == born[v] ==> u == v
  }

  predicate TasksOk(s: State) {
    RemovedOk(s) && TableOk(s) && BirthsOk(s)
  }

  // Once an Agent has had the finalizer, it is stored with it as long as it is stored.
  predicate GuardsOk(s: State) {
    forall v | v in s.past.versions && v.finalizer :: s.cr.Some? && s.cr.value.uid == v.uid ==> s.cr.value.finalizer
  }

  predicate Inv(s: State) {
    VersionsOk(s) && PodsOk(s) && TasksOk(s) && GuardsOk(s)
  }

  // What may fail when the worker acts on an Agent that is gone: Pods have an owner, and the worker holds on to it.
  predicate Guarded(s: State, uid: nat) {
    s.cr.Some? && s.cr.value.uid == uid && s.cr.value.finalizer
  }

  predicate LiveOwned(s: State) {
    forall i | i in s.pods :: Live(s, i) ==> Guarded(s, s.pods[i].owner)
  }

  predicate WorkOwned(s: State) {
    match s.pc
    case Fetched(snap) => snap.finalizer ==> Guarded(s, snap.uid)
    case Listed(snap, found) =>
      && Guarded(s, snap.uid)
      && (found.Some? ==> found.value.id in s.past.origin && s.past.origin[found.value.id].0 == snap.uid)
    case DeletionListed(snap, _) => Guarded(s, snap.uid)
    case RemovingFinalizer(snap) => Guarded(s, snap.uid)
    case _ => true
  }

  predicate OwnersOk(s: State) {
    LiveOwned(s) && WorkOwned(s)
  }

  // ------------------------------------------------------------------ every action keeps the invariants

  lemma StoreKeepsVersions(s: State, a: Agent)
    requires VersionsOk(s)
    requires a.uid < s.nextUid && KeepsReserved(s.name, a.spec) && (a.deleting ==> a.finalizer)
    requires forall k | k in s.past.specAt :: k.0 == a.uid ==> k.1 <= a.generation
    requires (a.uid, a.generation) in s.past.specAt ==> s.past.specAt[(a.uid, a.generation)] == a.spec
    ensures VersionsOk(Store(s, a))
  {
  }

  // A step that stores nothing keeps the facts about versions.
  lemma FrameVersions(s: State, s': State)
    requires VersionsOk(s)
    requires s'.name == s.name && s'.nextUid == s.nextUid && s'.nextVersion == s.nextVersion
    requires s'.past.versions == s.past.versions && s'.past.specAt == s.past.specAt
    requires s'.cr == s.cr || s'.cr == None
    requires Snapshot(s'.pc) == None || Snapshot(s'.pc).value in s.past.versions
    ensures VersionsOk(s')
  {
    assert forall v | v in s.past.versions :: VersionOk(s, v) ==> VersionOk(s', v);
  }

  // Update succeeds only on the very object that was read.
  lemma CurrentSnapshot(s: State)
    requires VersionsOk(s) && Snapshot(s.pc).Some? && Current(s, s.pc.snap)
    ensures s.cr == Some(s.pc.snap)
  {
  }

  lemma StoreThenPc(s: State, a: Agent, pc: Pc)
    requires VersionsOk(Store(s, a))
    requires Snapshot(pc) == None
    ensures VersionsOk(Store(s, a).(pc := pc))
  {
    FrameVersions(Store(s, a), Store(s, a).(pc := pc));
  }

  lemma TakeUid(s: State)
    requires VersionsOk(s) && s.cr.None?
    ensures VersionsOk(s.(nextUid := s.nextUid + 1))
  {
    var t := s.(nextUid := s.nextUid + 1);
    assert forall v | v in s.past.versions :: VersionOk(s, v) ==> VersionOk(t, v);
  }

  lemma CreateKeepsVersions(s: State, spec: Spec, labels: Tags, annotations: Tags)
    requires VersionsOk(s) && s.cr.None? && KeepsReserved(s.name, spec)
    ensures VersionsOk(Create(s, spec, labels, annotations))
  {
    TakeUid(s);
    StoreKeepsVersions(s.(nextUid := s.nextUid + 1), Fresh(s, s.nextUid, spec, labels, annotations));
  }

  // What VersionsOk says of the stored Agent.
  lemma StoredAgentOk(s: State)
    requires VersionsOk(s) && s.cr.Some?
    ensures var a := s.cr.value;
            && a.uid < s.nextUid && KeepsReserved(s.name, a.spec) && (a.deleting ==> a.finalizer)
            && (a.uid, a.generation) in s.past.specAt && s.past.specAt[(a.uid, a.generation)] == a.spec
            && forall k | k in s.past.specAt :: k.0 == a.uid ==> k.1 <= a.generation
  {
    assert VersionOk(s, s.cr.value);
  }

  // The generation goes up with every change of the spec, so an edit never reuses one.
  lemma EditIsStorable(s: State, spec: Spec, labels: Tags, annotations: Tags)
    requires VersionsOk(s) && s.cr.Some? && KeepsReserved(s.name, spec)
    ensures var b := EditedAgent(s.cr.value, spec, labels, annotations);
            && b.uid < s.nextUid && KeepsReserved(s.name, b.spec) && (b.deleting ==> b.finalizer)
            && (forall k | k in s.past.specAt :: k.0 == b.uid ==> k.1 <= b.generation)
            && ((b.uid, b.generation) in s.past.specAt ==> s.past.specAt[(b.uid, b.generation)] == b.spec)
  {
    StoredAgentOk(s);
    hide VersionsOk, KeepsReserved;
  }

  lemma EditKeepsVersions(s: State, spec: Spec, labels: Tags, annotations: Tags)
    requires VersionsOk(s) && s.cr.Some? && KeepsReserved(s.name, spec)
    ensures VersionsOk(Edit(s, spec, labels, annotations))
  {
    EditIsStorable(s, spec, labels, annotations);
    hide VersionsOk, KeepsReserved, Store, EditedAgent;
    StoreKeepsVersions(s, EditedAgent(s.cr.value, spec, labels, annotations));
  }

  lemma MarkIsStorable(s: State, bumps: bool)
    requires VersionsOk(s) && s.cr.Some? && s.cr.value.finalizer
    ensures var b := MarkedAgent(s.cr.value, bumps);
            && b.uid < s.nextUid && KeepsReserved(s.name, b.spec) && b.finalizer
            && (forall k | k in s.past.specAt :: k.0 == b.uid ==> k.1 <= b.generation)
            && ((b.uid, b.generation) in s.past.specAt ==> s.past.specAt[(b.uid, b.generation)] == b.spec)
  {
    StoredAgentOk(s);
    hide VersionsOk, KeepsReserved;
  }

  lemma DeleteKeepsVersions(s: State, bumps: bool)
    requires VersionsOk(s) && s.cr.Some?
    ensures VersionsOk(MarkOrRemove(s, bumps))
  {
    if !s.cr.value.finalizer {
      FrameVersions(s, s.(cr := None));
    } else if !s.cr.value.deleting {
      MarkIsStorable(s, bumps);
      hide VersionsOk, KeepsReserved, Store, MarkedAgent;
      StoreKeepsVersions(s, MarkedAgent(s.cr.value, bumps));
    }
    hide VersionsOk, KeepsReserved, Store, MarkedAgent;
  }

  predicate Stores(a: Action) {
    a.UserCreate? || a.UserEdit? || a.UserDelete? || a.WriteStatus? || a.UpdateAddFinalizer? || a.TaskCreates?
  }

  lemma VersionsStep(s: State, a: Action)
    requires VersionsOk(s) && Enabled(s, a) && KeepsReservedKeys(s.name, a)
    requires a.TaskCreates? ==> KeepsReserved(s.name, s.tasks[a.task].spec)
    ensures VersionsOk(Step(s, a))
  {
    if !Stores(a) {
      FrameVersions(s, Step(s, a));
    } else if a.UpdateAddFinalizer? {
      if Current(s, s.pc.snap) {
        CurrentSnapshot(s);
        assert VersionOk(s, s.pc.snap);
        StoreKeepsVersions(s, s.pc.snap.(finalizer := true));
        StoreThenPc(s, s.pc.snap.(finalizer := true), Idle);
      } else {
        FrameVersions(s, Step(s, a));
      }
    } else {
      StoringStep(s, a);
    }
  }

  lemma StoringStep(s: State, a: Action)
    requires VersionsOk(s) && Enabled(s, a) && KeepsReservedKeys(s.name, a)
    requires a.UserCreate? || a.UserEdit? || a.UserDelete? || a.WriteStatus? || a.TaskCreates?
    requires a.TaskCreates? ==> KeepsReserved(s.name, s.tasks[a.task].spec)
    ensures VersionsOk(Step(s, a))
  {
    match a
    case UserCreate(spec, labels, annotations) => CreateKeepsVersions(s, spec, labels, annotations);
    case UserEdit(spec, labels, annotations) => EditKeepsVersions(s, spec, labels, annotations);
    case UserDelete(bumps) => DeleteKeepsVersions(s, bumps);
    case WriteStatus(status) =>
      assert VersionOk(s, s.cr.value);
      StoreKeepsVersions(s, s.cr.value.(status := status));
    case TaskCreates(t) =>
      var task := s.tasks[t];
      CreateKeepsVersions(s, task.spec, task.labels, task.annotations);
      FrameVersions(Create(s, task.spec, task.labels, task.annotations), Step(s, a));
  }

  // Step writes no specAt entry twice with different specs: old entries stay.
  lemma SpecAtGrows(s: State, a: Action)
    requires VersionsOk(s) && Enabled(s, a)
    ensures forall k | k in s.past.specAt ::
              k in Step(s, a).past.specAt && Step(s, a).past.specAt[k] == s.past.specAt[k]
  {
    if a.UpdateAddFinalizer? && Current(s, s.pc.snap) {
      CurrentSnapshot(s);
    }
  }

  // ---- Pods

  lemma FramePodTable(s: State, s': State)
    requires PodTableOk(s)
    requires s'.name == s.name && s'.pods == s.pods && s'.nextPod == s.nextPod && s'.past.origin == s.past.origin
    requires forall k | k in s.past.specAt :: k in s'.past.specAt && s'.past.specAt[k] == s.past.specAt[k]
    ensures PodTableOk(s')
    ensures forall i, template :: BuiltFrom(s, i, template) ==> BuiltFrom(s', i, template)
    ensures forall i :: Live(s', i) <==> Live(s, i)
  {
    hide BuildPod;
  }

  lemma FramePods(s: State, s': State)
    requires PodsOk(s)
    requires s'.name == s.name && s'.pods == s.pods && s'.nextPod == s.nextPod && s'.past.origin == s.past.origin
    requires forall k | k in s.past.specAt :: k in s'.past.specAt && s'.past.specAt[k] == s.past.specAt[k]
    requires s'.pc == s.pc || s'.pc.Idle? || s'.pc.Fetched? || s'.pc.Spawning?
    ensures PodsOk(s')
  {
    FramePodTable(s, s');
    hide PodTableOk, BuiltFrom, Live;
  }

  lemma TerminateKeepsPods(s: State, id: nat, pc: Pc)
    requires PodsOk(s)
    requires pc.Idle? || pc == s.pc
        || (s.pc.DeletionListed? && id == s.pc.stray.id && pc == RemovingFinalizer(s.pc.snap))
    ensures PodsOk(Terminate(s, id).(pc := pc))
  {
    TerminateEnds(s, id, pc);
    hide Live, BuiltFrom, Terminate, BuildPod;
  }

  lemma TerminateEnds(s: State, id: nat, pc: Pc)
    ensures var s' := Terminate(s, id).(pc := pc);
            && s'.past == s.past && s'.nextPod == s.nextPod && s'.pods.Keys == s.pods.Keys
            && (forall i :: Live(s', i) <==> Live(s, i) && i != id)
            && (forall i | i in s.pods ::
                  s'.pods[i].template == s.pods[i].template && s'.pods[i].owner == s.pods[i].owner)
            && (forall i, template :: BuiltFrom(s', i, template) <==> BuiltFrom(s, i, template))
  {
    hide BuildPod;
  }

  lemma DisappearKeepsPods(s: State, id: nat)
    requires PodsOk(s)
    ensures PodsOk(s.(pods := s.pods - {id}))
  {
    hide BuildPod;
  }

  predicate TouchesPods(a: Action) {
    a.PodTerminates? || a.PodDisappears? || a.ListPods? || a.DeleteFoundPod? || a.CreatePodCall?
  }

  lemma OtherActionsKeepPods(s: State, a: Action)
    requires VersionsOk(s) && PodsOk(s) && Enabled(s, a) && !TouchesPods(a)
    ensures PodsOk(Step(s, a))
  {
    hide VersionsOk, PodsOk, BuildPod, ResurrectedAnnotations, Decide, FindsPod, KeepsReserved;
    SpecAtGrows(s, a);
    FramePods(s, Step(s, a));
  }

  lemma DeleteKeepsPods(s: State)
    requires PodsOk(s) && Enabled(s, DeleteFoundPod)
    ensures PodsOk(Step(s, DeleteFoundPod))
  {
    hide PodsOk;
    if s.pc.DeletionListed? {
      TerminateKeepsPods(s, s.pc.stray.id, RemovingFinalizer(s.pc.snap));
    } else {
      TerminateKeepsPods(s, s.pc.found.value.id, Idle);
    }
  }

  lemma PodsStep(s: State, a: Action)
    requires VersionsOk(s) && PodsOk(s) && Enabled(s, a)
    ensures PodsOk(Step(s, a))
  {
    hide BuildPod, PodsOk;
    match a
    case PodTerminates(id) => TerminateKeepsPods(s, id, s.pc);
    case PodDisappears(id) => DisappearKeepsPods(s, id);
    case ListPods(found) => ListKeepsPods(s, found);
    case DeleteFoundPod => DeleteKeepsPods(s);
    case CreatePodCall => CreatePodKeepsPods(s);
    case _ => OtherActionsKeepPods(s, a);
  }

  // Every Pod in the model was built by this controller, so the selector finds it.
  lemma PodsAreSelected(s: State, i: nat)
    requires VersionsOk(s) && PodsOk(s) && i in s.pods
    ensures Selects(s.name, s.pods[i].template)
  {
    var o := s.past.origin[i];
    SelectsBuiltPodIff(s.name, o.1, s.past.specAt[o]);
  }

  lemma NothingFound(s: State)
    requires VersionsOk(s) && PodsOk(s) && FindsPod(s, None)
    ensures NoneLive(s)
  {
    hide BuildPod, Selects, VersionsOk, PodsOk;
    forall i | i in s.pods
      ensures !Live(s, i)
    {
      PodsAreSelected(s, i);
    }
  }

  lemma SomethingFound(s: State, f: Found)
    requires PodsOk(s) && FindsPod(s, Some(f))
    ensures OnlyLive(s, f.id) && BuiltFrom(s, f.id, f.template)
  {
    hide BuildPod, Selects;
  }

  lemma ListKeepsPods(s: State, found: Option<Found>)
    requires VersionsOk(s) && PodsOk(s) && Enabled(s, ListPods(found))
    ensures PodsOk(Step(s, ListPods(found)))
  {
    if found.None? {
      NothingFound(s);
    } else {
      SomethingFound(s, found.value);
    }
    FramePodTable(s, Step(s, ListPods(found)));
    hide PodTableOk, BuiltFrom, Live, VersionsOk, FindsPod, Selects, Decide, KeepsReserved;
  }

  lemma CreatePodKeepsPods(s: State)
    requires VersionsOk(s) && PodsOk(s) && Enabled(s, CreatePodCall)
    ensures PodsOk(Step(s, CreatePodCall))
  {
    hide BuildPod, KeepsReserved;
    assert NoneLive(s);
    assert VersionOk(s, s.pc.snap);
    var s' := Step(s, CreatePodCall);
    assert s.nextPod !in s.past.origin;
    forall i | i in s'.pods
      ensures BuiltFrom(s', i, s'.pods[i].template) && s'.past.origin[i].0 == s'.pods[i].owner
    {
      if i != s.nextPod {
        assert BuiltFrom(s, i, s.pods[i].template);
      }
    }
  }

  // ---- Resurrection tasks

  // The history only gains entries, and no entry of it changes.
  predicate Extends(p: Past, q: Past) {
    && (forall u | u in p.removed :: u in q.removed && q.removed[u] == p.removed[u])
    && p.spawned <= q.spawned
    && (forall u | u in p.born :: u in q.born && q.born[u] == p.born[u])
    && (forall u | u in p.birth :: u in q.birth && q.birth[u] == p.birth[u])
    && p.versions <= q.versions
  }

  lemma TaskOkExtends(p: Past, q: Past, t: Task)
    requires TaskOk(p, t) && Extends(p, q) && NoHeir(q, t.original)
    ensures TaskOk(q, t)
  {
    hide Heirloom;
  }

  lemma TableExtends(s: State, s': State)
    requires TableOk(s) && Extends(s.past, s'.past) && s'.past.born == s.past.born
    requires s'.tasks.Keys <= s.tasks.Keys && (forall t | t in s'.tasks :: s'.tasks[t] == s.tasks[t])
    requires s.nextTask <= s'.nextTask
    ensures TableOk(s')
  {
    hide TaskOk;
    forall t | t in s'.tasks
      ensures t < s'.nextTask && TaskOk(s'.past, s'.tasks[t])
    {
      assert NoHeir(s'.past, s.tasks[t].original) by {
        assert TaskOk(s.past, s.tasks[t]);
        TaskHasNoHeir(s.past, s.tasks[t]);
      }
      TaskOkExtends(s.past, s'.past, s.tasks[t]);
    }
  }

  lemma TaskHasNoHeir(p: Past, t: Task)
    requires TaskOk(p, t)
    ensures NoHeir(p, t.original) && t.original in p.spawned && t.original in p.removed
  {
    hide Heirloom;
  }

  lemma BirthsExtend(s: State, s': State)
    requires BirthsOk(s) && Extends(s.past, s'.past) && s.nextUid <= s'.nextUid
    requires s'.past.born == s.past.born && s'.past.birth == s.past.birth
    ensures BirthsOk(s')
  {
    hide Heirloom;
    assert forall u | u in s.past.born :: BornOk(s.past, u) ==> BornOk(s'.past, u);
  }

  // The Agent that goes was never removed before, and healing is as in the snapshot.
  lemma RemovesTheSnapshot(s: State)
    requires VersionsOk(s) && RemovedOk(s) && s.pc.RemovingFinalizer? && Current(s, s.pc.snap)
    ensures s.cr == Some(s.pc.snap) && s.pc.snap.uid !in s.past.removed
    ensures s.pc.snap.uid < s.nextUid && s.pc.snap in s.past.versions
  {
    CurrentSnapshot(s);
    StoredAgentOk(s);
  }

  lemma RemoveKeepsRemoved(s: State)
    requires VersionsOk(s) && RemovedOk(s) && s.pc.RemovingFinalizer? && Current(s, s.pc.snap)
    ensures RemovedOk(Step(s, UpdateRemoveFinalizer))
  {
    RemovesTheSnapshot(s);
    hide VersionsOk;
  }

  lemma RemoveExtends(s: State)
    requires VersionsOk(s) && RemovedOk(s) && s.pc.RemovingFinalizer? && Current(s, s.pc.snap)
    ensures Extends(s.past, Step(s, UpdateRemoveFinalizer).past)
  {
    RemovesTheSnapshot(s);
    hide VersionsOk, RemovedOk;
  }

  lemma RemoveKeepsTasks(s: State)
    requires VersionsOk(s) && TasksOk(s) && Enabled(s, UpdateRemoveFinalizer) && Current(s, s.pc.snap)
    ensures TasksOk(Step(s, UpdateRemoveFinalizer))
  {
    RemoveKeepsRemoved(s);
    RemoveExtends(s);
    hide VersionsOk, RemovedOk, TableOk, BirthsOk, Extends;
    var s' := Step(s, UpdateRemoveFinalizer);
    TableExtends(s, s');
    BirthsExtend(s, s');
  }

  lemma HeirloomOfResurrection(uid: nat, annotations: Tags, now: string)
    ensures Heirloom(uid, annotations, ResurrectedAnnotations(annotations, now, uid))
    ensures ResurrectedAnnotations(annotations, now, uid)[ResurrectedAt] == now
  {
  }

  lemma BirthsAreSpawned(s: State, original: nat)
    requires BirthsOk(s) && original !in s.past.spawned
    ensures NoHeir(s.past, original)
  {
    hide Heirloom;
    forall u | u in s.past.born
      ensures s.past.born[u] != original
    {
      assert BornOk(s.past, u);
    }
  }

  lemma SpawnedTaskOk(s: State, now: string)
    requires RemovedOk(s) && BirthsOk(s) && s.pc.Spawning?
    ensures TaskOk(Step(s, SpawnTask(now)).past, Step(s, SpawnTask(now)).tasks[s.nextTask])
  {
    hide Heirloom, ResurrectedAnnotations, BirthsOk;
    BirthsAreSpawned(s, s.pc.snap.uid);
    HeirloomOfResurrection(s.pc.snap.uid, s.pc.snap.annotations, now);
    assert NoHeir(Step(s, SpawnTask(now)).past, s.pc.snap.uid);
  }

  lemma SpawnKeepsTasks(s: State, now: string)
    requires TasksOk(s) && s.pc.Spawning?
    ensures TasksOk(Step(s, SpawnTask(now)))
  {
    hide BirthsOk, ResurrectedAnnotations, TaskOk;
    var s' := Step(s, SpawnTask(now));
    SpawnedTaskOk(s, now);
    BirthsExtend(s, s');
    TableExtends(s, s'.(tasks := s.tasks));
    forall t | t in s.tasks
      ensures s.tasks[t].original != s.pc.snap.uid
    {
      TaskHasNoHeir(s.past, s.tasks[t]);
    }
  }

  lemma TaskCreatesExtends(s: State, t: nat)
    requires BirthsOk(s) && t in s.tasks && s.cr.None?
    ensures Extends(s.past, Step(s, TaskCreates(t)).past)
    ensures s.nextUid !in s.past.born
  {
    hide BornOk;
  }

  lemma TaskCreatesKeepsTable(s: State, t: nat)
    requires TableOk(s) && BirthsOk(s) && t in s.tasks && s.cr.None?
    ensures TableOk(Step(s, TaskCreates(t)))
  {
    hide BirthsOk, TaskOk, Extends;
    var s' := Step(s, TaskCreates(t));
    TaskCreatesExtends(s, t);
    forall i | i in s'.tasks
      ensures TaskOk(s'.past, s'.tasks[i])
    {
      TaskHasNoHeir(s.past, s.tasks[i]);
      TaskOkExtends(s.past, s'.past, s.tasks[i]);
    }
  }

  lemma NewbornOk(s: State, t: nat)
    requires t in s.tasks && s.cr.None? && TaskOk(s.past, s.tasks[t]) && s.tasks[t].original < s.nextUid
    ensures BornOk(Step(s, TaskCreates(t)).past, s.nextUid)
    ensures NoHeir(s.past, s.tasks[t].original)
  {
    hide Heirloom, KeepsReserved, FindsPod;
  }

  lemma TaskIsOk(s: State, t: nat)
    requires RemovedOk(s) && TableOk(s) && t in s.tasks
    ensures TaskOk(s.past, s.tasks[t]) && s.tasks[t].original < s.nextUid
  {
    hide Heirloom;
  }

  lemma OlderBirthsOk(s: State, p: Past)
    requires BirthsOk(s) && Extends(s.past, p)
    ensures forall u | u in s.past.born :: BornOk(p, u)
  {
    hide Heirloom;
    assert forall u | u in s.past.born :: BornOk(s.past, u) ==> BornOk(p, u);
  }

  lemma HeirOfNew(p: Past, u: nat, original: nat)
    requires OneHeirEach(p.born) && NoHeir(p, original)
    ensures OneHeirEach(p.born[u := original])
  {
  }

  lemma TaskCreatesKeepsBirths(s: State, t: nat)
    requires TasksOk(s) && t in s.tasks && s.cr.None?
    ensures BirthsOk(Step(s, TaskCreates(t)))
  {
    hide BornOk, RemovedOk, TableOk, Extends, OneHeirEach;
    TaskCreatesExtends(s, t);
    TaskIsOk(s, t);
    NewbornOk(s, t);
    OlderBirthsOk(s, Step(s, TaskCreates(t)).past);
    HeirOfNew(s.past, s.nextUid, s.tasks[t].original);
  }

  // The stored Agent is the one there was, or a new one.
  lemma SameOrNewUid(s: State, a: Action)
    requires VersionsOk(s) && Enabled(s, a)
    ensures Step(s, a).cr.Some? ==>
              Step(s, a).cr.value.uid == s.nextUid || (s.cr.Some? && Step(s, a).cr.value.uid == s.cr.value.uid)
  {
    hide BuildPod, Decide, FindsPod;
    if a.UpdateAddFinalizer? && Current(s, s.pc.snap) {
      CurrentSnapshot(s);
    }
  }

  lemma VersionsGrow(s: State, a: Action)
    requires Enabled(s, a)
    ensures s.past.versions <= Step(s, a).past.versions && s.nextUid <= Step(s, a).nextUid
  {
    hide BuildPod, Decide, FindsPod, ResurrectedAnnotations;
  }

  lemma OtherActionsKeepPast(s: State, a: Action)
    requires Enabled(s, a) && !a.SpawnTask?
    requires a.UpdateRemoveFinalizer? ==> !Current(s, s.pc.snap)
    ensures var s' := Step(s, a);
            && s'.past.removed == s.past.removed && s'.past.spawned == s.past.spawned
            && (s'.pc == s.pc || !s'.pc.Spawning?)
  {
    hide BuildPod, Decide, FindsPod, ResurrectedAnnotations;
  }

  lemma OtherActionsKeepLines(s: State, a: Action)
    requires Enabled(s, a) && !a.SpawnTask? && !a.TaskCreates?
    ensures var s' := Step(s, a);
            && s'.past.born == s.past.born && s'.past.birth == s.past.birth && s'.nextTask == s.nextTask
            && s'.tasks.Keys <= s.tasks.Keys && (forall t | t in s'.tasks :: s'.tasks[t] == s.tasks[t])
  {
    hide BuildPod, Decide, FindsPod, ResurrectedAnnotations;
  }

  lemma OtherActionsKeepRemoved(s: State, a: Action)
    requires VersionsOk(s) && RemovedOk(s) && Enabled(s, a) && !a.SpawnTask?
    requires a.UpdateRemoveFinalizer? ==> !Current(s, s.pc.snap)
    ensures RemovedOk(Step(s, a))
  {
    SameOrNewUid(s, a);
    VersionsGrow(s, a);
    OtherActionsKeepPast(s, a);
    hide VersionsOk, Step, Enabled;
  }

  lemma OtherActionsKeepTasks(s: State, a: Action)
    requires VersionsOk(s) && TasksOk(s) && Enabled(s, a)
    requires a.UpdateRemoveFinalizer? ==> !Current(s, s.pc.snap)
    requires !a.SpawnTask? && !a.TaskCreates?
    ensures TasksOk(Step(s, a))
  {
    OtherActionsKeepRemoved(s, a);
    VersionsGrow(s, a);
    OtherActionsKeepPast(s, a);
    OtherActionsKeepLines(s, a);
    hide VersionsOk, RemovedOk, TableOk, BirthsOk, Step, Enabled, Current;
    assert Extends(s.past, Step(s, a).past);
    hide Extends;
    TableExtends(s, Step(s, a));
    BirthsExtend(s, Step(s, a));
  }

  lemma TasksStep(s: State, a: Action)
    requires VersionsOk(s) && TasksOk(s) && Enabled(s, a)
    ensures TasksOk(Step(s, a))
  {
    hide VersionsOk, RemovedOk, TableOk, BirthsOk, BuildPod, Decide, FindsPod;
    if a.SpawnTask? {
      SpawnKeepsTasks(s, a.now);
    } else if a.TaskCreates? {
      TaskCreatesKeepsTable(s, a.task);
      TaskCreatesKeepsBirths(s, a.task);
      OtherActionsKeepRemoved(s, a);
    } else if a.UpdateRemoveFinalizer? && Current(s, s.pc.snap) {
      RemoveKeepsTasks(s);
    } else {
      OtherActionsKeepTasks(s, a);
    }
  }

  // ---- Ownership

  lemma StoreKeepsGuards(s: State, a: Agent)
    requires GuardsOk(s) && (s.cr.Some? ==> s.cr.value.uid == a.uid && (s.cr.value.finalizer ==> a.finalizer))
    requires s.cr.None? ==> forall v | v in s.past.versions :: v.uid != a.uid
    ensures GuardsOk(Store(s, a))
  {
  }

  lemma CreateKeepsGuards(s: State, spec: Spec, labels: Tags, annotations: Tags)
    requires VersionsOk(s) && GuardsOk(s) && s.cr.None?
    ensures GuardsOk(Create(s, spec, labels, annotations))
  {
    assert forall v | v in s.past.versions :: VersionOk(s, v);
    StoreKeepsGuards(s, Fresh(s, s.nextUid, spec, labels, annotations));
  }

  // The finalizer goes away only together with the object.
  lemma GuardsStep(s: State, a: Action)
    requires VersionsOk(s) && GuardsOk(s) && Enabled(s, a)
    ensures GuardsOk(Step(s, a))
  {
    if a.UserCreate? {
      CreateKeepsGuards(s, a.spec, a.labels, a.annotations);
    } else if a.TaskCreates? {
      var task := s.tasks[a.task];
      CreateKeepsGuards(s, task.spec, task.labels, task.annotations);
    } else if a.UpdateAddFinalizer? && Current(s, s.pc.snap) {
      CurrentSnapshot(s);
      StoreKeepsGuards(s, s.pc.snap.(finalizer := true));
    }
    hide VersionsOk, BuildPod, Decide, FindsPod, ResurrectedAnnotations;
  }

  // An Agent with the finalizer stays as long as this Update does not come.
  lemma GuardKept(s: State, a: Action, uid: nat)
    requires VersionsOk(s) && Enabled(s, a) && Guarded(s, uid)
    requires a.UpdateRemoveFinalizer? ==> !Current(s, s.pc.snap)
    ensures Guarded(Step(s, a), uid)
  {
    if a.UpdateAddFinalizer? && Current(s, s.pc.snap) {
      CurrentSnapshot(s);
    }
  }

  lemma GuardsKept(s: State, a: Action)
    requires VersionsOk(s) && Enabled(s, a)
    requires a.UpdateRemoveFinalizer? ==> !Current(s, s.pc.snap)
    ensures forall uid | Guarded(s, uid) :: Guarded(Step(s, a), uid)
  {
    hide VersionsOk, Guarded, Current, Decide, FindsPod;
    forall uid | Guarded(s, uid)
      ensures Guarded(Step(s, a), uid)
    {
      GuardKept(s, a, uid);
    }
  }

  // A Pod is created for the Agent that is stored, not for one that is gone.
  predicate BuildsForStored(s: State, a: Action)
    requires Enabled(s, a)
  {
    a.CreatePodCall? ==> s.cr.Some? && s.cr.value.uid == s.pc.snap.uid
  }

  // An object is read whose uid is the stored one's, however old the version.
  predicate ReadsStoredUid(s: State, a: Action) {
    a.Fetch? && a.read.Some? ==> s.cr.Some? && s.cr.value.uid == a.read.value.uid
  }

  // The new Pod is the only live one, and its owner had the finalizer when it was read.
  lemma CreateOwnedIff(s: State)
    requires VersionsOk(s) && PodsOk(s) && GuardsOk(s) && Enabled(s, CreatePodCall)
    ensures LiveOwned(Step(s, CreatePodCall)) <==> BuildsForStored(s, CreatePodCall)
  {
    hide BuildPod, KeepsReserved, BuiltFrom;
    assert NoneLive(s);
    var s' := Step(s, CreatePodCall);
    assert Live(s', s.nextPod);
    assert s'.cr == s.cr && s.pc.snap.finalizer && s.pc.snap in s.past.versions;
  }

  // No other action adds a live Pod.
  lemma LiveOnesStay(s: State, a: Action)
    requires Enabled(s, a) && !a.CreatePodCall?
    ensures forall i | Live(Step(s, a), i) :: Live(s, i) && Step(s, a).pods[i].owner == s.pods[i].owner
  {
    hide BuildPod, Decide, FindsPod, ResurrectedAnnotations;
  }

  lemma NoneLiveAtRemoval(s: State)
    requires PodsOk(s) && Enabled(s, UpdateRemoveFinalizer)
    ensures NoneLive(s)
  {
  }

  lemma OthersKeepLiveOwned(s: State, a: Action)
    requires VersionsOk(s) && PodsOk(s) && LiveOwned(s) && Enabled(s, a) && !a.CreatePodCall?
    ensures LiveOwned(Step(s, a))
  {
    LiveOnesStay(s, a);
    if a.UpdateRemoveFinalizer? {
      NoneLiveAtRemoval(s);
    } else {
      GuardsKept(s, a);
    }
    hide Step, Enabled, Guarded, PodsOk, VersionsOk;
  }

  /**
   With reads however stale: a step keeps every live Pod owned exactly when it does not create one for an Agent that
   is gone.
   */
  lemma OwnedStepIff(s: State, a: Action)
    requires VersionsOk(s) && PodsOk(s) && GuardsOk(s) && LiveOwned(s) && Enabled(s, a)
    ensures LiveOwned(Step(s, a)) <==> BuildsForStored(s, a)
  {
    hide VersionsOk, PodsOk, GuardsOk, LiveOwned;
    if a.CreatePodCall? {
      CreateOwnedIff(s);
    } else {
      OthersKeepLiveOwned(s, a);
    }
  }

  // ---- The worker's hold on the stored Agent, when it reads versions of the stored uid

  lemma FetchKeepsWork(s: State, read: Option<Agent>)
    requires GuardsOk(s) && Enabled(s, Fetch(read)) && ReadsStoredUid(s, Fetch(read))
    ensures WorkOwned(Step(s, Fetch(read)))
  {
  }

  lemma ListKeepsWork(s: State, found: Option<Found>)
    requires VersionsOk(s) && PodsOk(s) && OwnersOk(s) && Enabled(s, ListPods(found))
    ensures WorkOwned(Step(s, ListPods(found)))
  {
    hide BuildPod;
    assert VersionOk(s, s.pc.snap);
    if found.Some? {
      assert s.past.origin[found.value.id].0 == s.pods[found.value.id].owner;
    }
  }

  lemma WorkOwnedStep(s: State, a: Action)
    requires WorkOwned(s) && Enabled(s, a)
    requires PodsOk(s) && !a.UpdateRemoveFinalizer? && !a.ListPods? && !a.Fetch?
    requires forall uid | Guarded(s, uid) :: Guarded(Step(s, a), uid)
    ensures WorkOwned(Step(s, a))
  {
    hide BuildPod, PodsOk, Decide, FindsPod, ResurrectedAnnotations;
  }

  lemma WorkBuildsForStored(s: State, a: Action)
    requires WorkOwned(s) && Enabled(s, a)
    ensures BuildsForStored(s, a)
  {
  }

  /** The worker holds on to the stored Agent when it reads versions of the stored uid, however old. */
  lemma OwnersStep(s: State, a: Action)
    requires VersionsOk(s) && PodsOk(s) && GuardsOk(s) && OwnersOk(s) && Enabled(s, a) && ReadsStoredUid(s, a)
    ensures OwnersOk(Step(s, a)) && BuildsForStored(s, a)
  {
    WorkBuildsForStored(s, a);
    OwnedStepIff(s, a);
    hide BuildPod, VersionsOk, GuardsOk, LiveOwned, WorkOwned, BuildsForStored;
    if a.UpdateRemoveFinalizer? {
      RemoveKeepsWork(s);
    } else if a.ListPods? {
      ListKeepsWork(s, a.found);
    } else if a.Fetch? {
      FetchKeepsWork(s, a.read);
    } else {
      GuardsKept(s, a);
      WorkOwnedStep(s, a);
    }
  }

  lemma RemoveKeepsWork(s: State)
    requires s.pc.RemovingFinalizer?
    ensures WorkOwned(Step(s, UpdateRemoveFinalizer))
  {
  }
}
