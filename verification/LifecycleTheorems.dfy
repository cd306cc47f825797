/** What holds in every state that the interleavings of Lifecycle can reach. */
module LifecycleTheorems {
  import opened Wrappers
  import opened AgentTypes
  import opened Lifecycle
  import Decimal

  lemma InvInit(name: string)
    ensures Inv(Init(name)) && OwnersOk(Init(name)) && Init(name).name == name
  {
  }

  lemma TaskSpecIsReserved(s: State, t: nat)
    requires VersionsOk(s) && TasksOk(s) && t in s.tasks
    ensures KeepsReserved(s.name, s.tasks[t].spec)
  {
    hide Heirloom, KeepsReserved;
    assert TaskOk(s.past, s.tasks[t]);
    assert VersionOk(s, s.past.removed[s.tasks[t].original]);
  }

  /** Every action of every participant keeps the invariant, with stale reads allowed. */
  lemma InvStep(s: State, a: Action)
    requires Inv(s) && Enabled(s, a) && KeepsReservedKeys(s.name, a)
    ensures Inv(Step(s, a))
  {
    hide VersionsOk, PodsOk, TasksOk, GuardsOk, Step, KeepsReserved;
    if a.TaskCreates? {
      TaskSpecIsReserved(s, a.task);
    }
    VersionsStep(s, a);
    PodsStep(s, a);
    TasksStep(s, a);
    GuardsStep(s, a);
  }

  lemma NameStays(s: State, a: Action)
    requires Enabled(s, a)
    ensures Step(s, a).name == s.name
  {
  }

  lemma {:induction false} InvOverRuns(s: State, acts: seq<Action>)
    requires Inv(s) && IsRun(s, acts)
    ensures Inv(Run(s, acts)) && Run(s, acts).name == s.name
    decreases |acts|
  {
    hide Inv, Step, KeepsReservedKeys;
    if acts != [] {
      InvStep(s, acts[0]);
      NameStays(s, acts[0]);
      InvOverRuns(Step(s, acts[0]), acts[1..]);
    }
  }

  predicate Reaches(name: string, acts: seq<Action>, s: State) {
    IsRun(Init(name), acts) && s == Run(Init(name), acts)
  }

  lemma InvReached(name: string, acts: seq<Action>, s: State)
    requires Reaches(name, acts, s)
    ensures Inv(s) && s.name == name
  {
    hide Inv, OwnersOk, Init;
    InvInit(name);
    InvOverRuns(Init(name), acts);
  }

  // ------------------------------------------------------------------ ownership over runs

  // Every Pod that the run creates is for the Agent stored at that moment.
  predicate AlwaysBuildsForStored(s: State, acts: seq<Action>)
    requires IsRun(s, acts)
    decreases |acts|
  {
    acts == [] || (BuildsForStored(s, acts[0]) && AlwaysBuildsForStored(Step(s, acts[0]), acts[1..]))
  }

  // Every Agent that the run reads is a version of the stored one, however old.
  predicate AlwaysReadsStoredUid(s: State, acts: seq<Action>)
    requires IsRun(s, acts)
    decreases |acts|
  {
    acts == [] || (ReadsStoredUid(s, acts[0]) && AlwaysReadsStoredUid(Step(s, acts[0]), acts[1..]))
  }

  // In every state of the run each live Pod has its owner stored with the finalizer.
  predicate AlwaysOwned(s: State, acts: seq<Action>)
    requires IsRun(s, acts)
    decreases |acts|
  {
    LiveOwned(s) && (acts == [] || AlwaysOwned(Step(s, acts[0]), acts[1..]))
  }

  lemma {:induction false} OwnedAfterwards(s: State, acts: seq<Action>)
    requires IsRun(s, acts) && AlwaysOwned(s, acts)
    ensures LiveOwned(Run(s, acts))
    decreases |acts|
  {
    hide LiveOwned, Step;
    if acts != [] {
      OwnedAfterwards(Step(s, acts[0]), acts[1..]);
    }
  }

  /**
   With reads however stale, live Pods are owned throughout a run exactly when no Pod is created for an Agent that is
   not the stored one.
   */
  lemma {:induction false} AlwaysOwnedIff(s: State, acts: seq<Action>)
    requires Inv(s) && LiveOwned(s) && IsRun(s, acts)
    ensures AlwaysOwned(s, acts) <==> AlwaysBuildsForStored(s, acts)
    decreases |acts|
  {
    hide LiveOwned, BuildsForStored, Step, KeepsReservedKeys, VersionsOk, PodsOk, TasksOk, GuardsOk;
    if acts != [] {
      InvStep(s, acts[0]);
      OwnedStepIff(s, acts[0]);
      if LiveOwned(Step(s, acts[0])) {
        AlwaysOwnedIff(Step(s, acts[0]), acts[1..]);
      }
    }
  }

  /** Reading versions of the stored Agent, however old, is enough for that. */
  lemma {:induction false} OldReadsOfTheStoredAgentAreFine(s: State, acts: seq<Action>)
    requires Inv(s) && OwnersOk(s) && IsRun(s, acts) && AlwaysReadsStoredUid(s, acts)
    ensures AlwaysBuildsForStored(s, acts) && OwnersOk(Run(s, acts))
    decreases |acts|
  {
    hide OwnersOk, BuildsForStored, ReadsStoredUid, Step, KeepsReservedKeys, VersionsOk, PodsOk, TasksOk, GuardsOk;
    if acts != [] {
      InvStep(s, acts[0]);
      OwnersStep(s, acts[0]);
      OldReadsOfTheStoredAgentAreFine(Step(s, acts[0]), acts[1..]);
    }
  }

  lemma OwnersReached(name: string, acts: seq<Action>, s: State)
    requires Reaches(name, acts, s) && AlwaysBuildsForStored(Init(name), acts)
    ensures Inv(s) && s.name == name && LiveOwned(s)
  {
    InvInit(name);
    hide Inv, LiveOwned, Init, IsRun, Run, AlwaysOwned, AlwaysBuildsForStored;
    InvReached(name, acts, s);
    AlwaysOwnedIff(Init(name), acts);
    OwnedAfterwards(Init(name), acts);
  }

  // ------------------------------------------------------------------ generation as a fingerprint

  /** Two objects ever stored under one uid and one generation have the same spec. */
  lemma GenerationIdentifiesSpec(name: string, acts: seq<Action>, s: State, v: Agent, w: Agent)
    requires Reaches(name, acts, s)
    requires v in s.past.versions && w in s.past.versions
    requires v.uid == w.uid && v.generation == w.generation
    ensures v.spec == w.spec
  {
    hide PodsOk, TasksOk, Run, IsRun, Init;
    InvReached(name, acts, s);
    assert VersionOk(s, v) && VersionOk(s, w);
  }

  lemma BuiltPodFingerprint(s: State, id: nat, template: PodTemplate, a: Agent)
    requires VersionsOk(s) && BuiltFrom(s, id, template) && a in s.past.versions && s.past.origin[id].0 == a.uid
    ensures !SpecChanged(a.generation, template) <==> template == BuildPod(s.name, a.generation, a.spec)
  {
    var o := s.past.origin[id];
    assert VersionOk(s, a);
    assert KeepsReserved(s.name, s.past.specAt[o]);
    SpecChangedIff(s.name, a.generation, o.1, s.past.specAt[o]);
    SpecChangedIff(s.name, a.generation, a.generation, a.spec);
    hide BuildPod, SpecChanged;
  }

  /**
   In every reachable state, with reads however stale, a live Pod of the stored Agent reads as unchanged exactly when it
   is the Pod that Agent's current spec asks for.
   */
  lemma LivePodFingerprint(name: string, acts: seq<Action>, s: State, id: nat)
    requires Reaches(name, acts, s) && Live(s, id) && s.cr.Some? && s.cr.value.uid == s.pods[id].owner
    ensures !SpecChanged(s.cr.value.generation, s.pods[id].template)
            <==> s.pods[id].template == BuildPod(name, s.cr.value.generation, s.cr.value.spec)
  {
    hide Run, IsRun, TasksOk, SpecChanged, BuildPod, Init;
    InvReached(name, acts, s);
    BuiltPodFingerprint(s, id, s.pods[id].template, s.cr.value);
  }

  /**
   In every reachable state, with reads however stale, a live Pod of the stored Agent whose annotation carries the
   stored generation runs the stored spec, field by field.
   */
  lemma LivePodRunsTheSpec(name: string, acts: seq<Action>, s: State, id: nat)
    requires Reaches(name, acts, s) && Live(s, id) && s.cr.Some? && s.cr.value.uid == s.pods[id].owner
    requires Generation in s.pods[id].template.annotations
    requires s.pods[id].template.annotations[Generation] == Decimal.ToString(s.cr.value.generation)
    ensures Runs(s.pods[id].template, s.cr.value.spec)
    ensures Marked(s.pods[id].template, name, s.cr.value.generation, s.cr.value.spec)
  {
    hide Run, IsRun, TasksOk, BuildPod, Init, Runs, Marked;
    LivePodFingerprint(name, acts, s, id);
    BuiltPodRuns(name, s.cr.value.generation, s.cr.value.spec);
  }

  /**
   And every live Pod is one of the stored Agent, which has the finalizer, unless the run built one for an Agent that
   was gone.
   */
  lemma LivePodIsOwned(name: string, acts: seq<Action>, s: State, id: nat)
    requires Reaches(name, acts, s) && AlwaysBuildsForStored(Init(name), acts) && Live(s, id)
    ensures s.cr.Some? && s.cr.value.finalizer && s.cr.value.uid == s.pods[id].owner
  {
    hide Run, IsRun, Inv, Init, AlwaysBuildsForStored;
    OwnersReached(name, acts, s);
  }

  /**
   When the reconciler decides to keep the Pod it found, with reads however stale, that Pod is what the spec it read
   asks for exactly when the spec from which the Pod was built asks for the same; which it does when the Pod belongs
   to the Agent that was read.
   */
  lemma KeptPodRunsTheSpecReadIff(name: string, acts: seq<Action>, s: State)
    requires Reaches(name, acts, s) && s.pc.Listed? && Decide(s.pc.snap, DecisionOf(s.pc.found)) == SyncStatus
    ensures s.pc.found.value.id in s.past.origin && s.past.origin[s.pc.found.value.id] in s.past.specAt
    ensures var o := s.past.origin[s.pc.found.value.id];
            && (s.pc.found.value.template == BuildPod(name, s.pc.snap.generation, s.pc.snap.spec)
                <==> AskForTheSame(name, s.past.specAt[o], s.pc.snap.spec))
            && (o.0 == s.pc.snap.uid ==> s.past.specAt[o] == s.pc.snap.spec)
  {
    hide Run, IsRun, TasksOk, Init;
    InvReached(name, acts, s);
    var f, snap := s.pc.found.value, s.pc.snap;
    var o := s.past.origin[f.id];
    assert BuiltFrom(s, f.id, f.template);
    assert VersionOk(s, snap);
    var t := s.past.specAt[o];
    assert KeepsReserved(name, t);
    SpecChangedIff(name, snap.generation, o.1, t);
    SamePodIff(name, snap.generation, t, snap.spec);
    hide SpecChanged, BuildPod, AskForTheSame, PodsOk, VersionsOk;
  }

  /** So with reads of the stored Agent, however old, a kept Pod runs the spec that was read. */
  lemma KeptPodRunsTheSpecRead(name: string, acts: seq<Action>, s: State)
    requires Reaches(name, acts, s) && AlwaysReadsStoredUid(Init(name), acts) && s.pc.Listed?
    requires Decide(s.pc.snap, DecisionOf(s.pc.found)) == SyncStatus
    ensures s.pc.found.value.template == BuildPod(name, s.pc.snap.generation, s.pc.snap.spec)
    ensures Runs(s.pc.found.value.template, s.pc.snap.spec)
  {
    BuiltPodRuns(name, s.pc.snap.generation, s.pc.snap.spec);
    InvInit(name);
    hide Run, IsRun, TasksOk, SpecChanged, BuildPod, Init, AlwaysReadsStoredUid, AlwaysBuildsForStored, LiveOwned;
    OldReadsOfTheStoredAgentAreFine(Init(name), acts);
    InvReached(name, acts, s);
    BuiltPodFingerprint(s, s.pc.found.value.id, s.pc.found.value.template, s.pc.snap);
  }

  /**
   An edit makes the reconciler replace an up-to-date Pod exactly when it changes the spec. In particular the
   /restart handler, which writes only an annotation, never does.
   */
  lemma EditReplacesPodIff(s: State, spec: Spec, labels: Tags, annotations: Tags)
    requires s.cr.Some? && KeepsReserved(s.name, s.cr.value.spec)
    ensures var pod := BuildPod(s.name, s.cr.value.generation, s.cr.value.spec);
            SpecChanged(Edit(s, spec, labels, annotations).cr.value.generation, pod) <==> spec != s.cr.value.spec
  {
    SpecChangedIff(s.name, Edit(s, spec, labels, annotations).cr.value.generation, s.cr.value.generation,
        s.cr.value.spec);
    hide BuildPod, SpecChanged;
  }

  /** So /restart, which bumps an annotation of the Agent and nothing else, leaves the Pod in place. */
  lemma RestartKeepsPod(s: State, now: string)
    requires s.cr.Some? && KeepsReserved(s.name, s.cr.value.spec)
    ensures var a := s.cr.value;
            var b := Edit(s, a.spec, a.labels, a.annotations[RestartAt := now]).cr.value;
            && b.annotations[RestartAt] == now && b.generation == a.generation && b.spec == a.spec
            && !SpecChanged(b.generation, BuildPod(s.name, a.generation, a.spec))
  {
    var a := s.cr.value;
    EditReplacesPodIff(s, a.spec, a.labels, a.annotations[RestartAt := now]);
    hide BuildPod, SpecChanged;
  }

  // ------------------------------------------------------------------ ownership

  /** At most one Pod of the agent is live, whatever the reads return. */
  lemma AtMostOneLivePod(name: string, acts: seq<Action>, s: State, i: nat, j: nat)
    requires Reaches(name, acts, s) && Live(s, i) && Live(s, j)
    ensures i == j
  {
    hide Run, IsRun, TasksOk, VersionsOk, BuiltFrom, Init;
    InvReached(name, acts, s);
  }

  /** When the Update that removes the finalizer is sent, no Pod of the agent is live. */
  lemma NoLivePodAtFinalizerRemoval(name: string, acts: seq<Action>, s: State, i: nat)
    requires Reaches(name, acts, s) && Enabled(s, UpdateRemoveFinalizer)
    ensures !Live(s, i)
  {
    hide Run, IsRun, TasksOk, VersionsOk, BuiltFrom, Init;
    InvReached(name, acts, s);
  }

  // ------------------------------------------------------------------ delete versus heal

  /**
   A resurrection task exists only for an Agent that had self-healing on in the object that was stored when its
   finalizer was removed, and the stored object was exactly the one the reconciler had read.
   */
  lemma TaskNeedsHealing(name: string, acts: seq<Action>, s: State, t: nat)
    requires Reaches(name, acts, s) && t in s.tasks
    ensures var u := s.tasks[t].original;
            u in s.past.removed && s.past.removed[u] in s.past.versions && !s.past.removed[u].spec.selfHealingDisabled
  {
    hide Run, IsRun, PodsOk, VersionsOk, Heirloom, Init;
    InvReached(name, acts, s);
    assert TaskOk(s.past, s.tasks[t]);
  }

  // No action of the run turns self-healing back on for uid.
  predicate NeverReenables(s: State, acts: seq<Action>, uid: nat)
    requires IsRun(s, acts)
    decreases |acts|
  {
    acts == [] ||
    (&& (acts[0].UserEdit? && s.cr.value.uid == uid ==> acts[0].spec.selfHealingDisabled)
     && NeverReenables(Step(s, acts[0]), acts[1..], uid))
  }

  // uid will not be healed: while stored it has healing off, and no task was ever started for it.
  predicate Doomed(s: State, uid: nat) {
    && uid < s.nextUid
    && uid !in s.past.spawned
    && (s.cr.Some? && s.cr.value.uid == uid ==> s.cr.value.spec.selfHealingDisabled)
    && (uid in s.past.removed ==> s.past.removed[uid].spec.selfHealingDisabled)
  }

  lemma SpawnSparesDoomed(s: State, now: string, uid: nat)
    requires RemovedOk(s) && s.pc.Spawning? && Doomed(s, uid)
    ensures Doomed(Step(s, SpawnTask(now)), uid)
  {
    hide ResurrectedAnnotations;
  }

  lemma UpdateSparesDoomed(s: State, a: Action, uid: nat)
    requires VersionsOk(s) && Enabled(s, a) && Doomed(s, uid)
    requires a.UpdateAddFinalizer? || a.UpdateRemoveFinalizer?
    ensures Doomed(Step(s, a), uid)
  {
    if Current(s, s.pc.snap) {
      CurrentSnapshot(s);
    }
    hide VersionsOk, KeepsReserved;
  }

  lemma DoomedStep(s: State, a: Action, uid: nat)
    requires VersionsOk(s) && TasksOk(s) && Enabled(s, a) && Doomed(s, uid)
    requires a.UserEdit? && s.cr.value.uid == uid ==> a.spec.selfHealingDisabled
    ensures Doomed(Step(s, a), uid)
  {
    hide VersionsOk, RemovedOk, TableOk, BirthsOk, BuildPod, ResurrectedAnnotations, Decide, FindsPod;
    if a.SpawnTask? {
      SpawnSparesDoomed(s, a.now, uid);
    } else if a.UpdateAddFinalizer? || a.UpdateRemoveFinalizer? {
      UpdateSparesDoomed(s, a, uid);
    }
  }

  lemma {:induction false} DoomedForGood(s: State, acts: seq<Action>, uid: nat)
    requires Inv(s) && IsRun(s, acts) && Doomed(s, uid) && NeverReenables(s, acts, uid)
    ensures Doomed(Run(s, acts), uid)
    decreases |acts|
  {
    hide VersionsOk, PodsOk, TasksOk, Doomed, Step, KeepsReservedKeys;
    if acts != [] {
      InvStep(s, acts[0]);
      DoomedStep(s, acts[0], uid);
      DoomedForGood(Step(s, acts[0]), acts[1..], uid);
    }
  }

  // The flag write of the REST DELETE handler: a merge patch computed from the object it had read.
  function DisableHealing(readFlag: bool, stored: Spec): Spec {
    if readFlag then stored else stored.(selfHealingDisabled := true)
  }

  /**
   Once the handler's flag write has hit uid (or the flag was on already), and as long as nobody turns healing
   back on for that uid, no interleaving of deletes, crashes, stale reads and edits ever starts a task for it.
   */
  lemma RestDeleteIsFinal(name: string, before: seq<Action>, s: State, readFlag: bool, after: seq<Action>, t: State)
    requires Reaches(name, before, s) && s.cr.Some?
    requires readFlag ==> s.cr.value.spec.selfHealingDisabled
    requires var patched := Edit(s, DisableHealing(readFlag, s.cr.value.spec), s.cr.value.labels,
        s.cr.value.annotations);
             IsRun(patched, after) && t == Run(patched, after)
             && NeverReenables(patched, after, s.cr.value.uid)
    ensures s.cr.value.uid !in t.past.spawned
    ensures forall i | i in t.tasks :: t.tasks[i].original != s.cr.value.uid
  {
    hide Run, IsRun, NeverReenables, PodsOk, Init;
    var uid := s.cr.value.uid;
    var act := UserEdit(DisableHealing(readFlag, s.cr.value.spec), s.cr.value.labels, s.cr.value.annotations);
    InvReached(name, before, s);
    assert VersionOk(s, s.cr.value);
    InvStep(s, act);
    var patched := Step(s, act);
    assert uid !in s.past.spawned;
    assert Doomed(patched, uid);
    DoomedForGood(patched, after, uid);
    InvOverRuns(patched, after);
    forall i | i in t.tasks
      ensures t.tasks[i].original != uid
    {
      TaskHasNoHeir(t.past, t.tasks[i]);
    }
  }

  // ------------------------------------------------------------------ conservation

  // How many tasks the run starts for uid.
  function TasksStarted(s: State, acts: seq<Action>, uid: nat): nat
    requires IsRun(s, acts)
    decreases |acts|
  {
    if acts == [] then 0
    else (if acts[0].SpawnTask? && s.pc.snap.uid == uid then 1 else 0) + TasksStarted(Step(s, acts[0]), acts[1..], uid)
  }

  // How many Agents the run's tasks create in the place of uid.
  function HeirsCreated(s: State, acts: seq<Action>, uid: nat): nat
    requires IsRun(s, acts)
    decreases |acts|
  {
    if acts == [] then 0
    else (if acts[0].TaskCreates? && s.tasks[acts[0].task].original == uid then 1 else 0)
         + HeirsCreated(Step(s, acts[0]), acts[1..], uid)
  }

  lemma SpawnedOnce(s: State, a: Action, uid: nat)
    requires TasksOk(s) && Enabled(s, a)
    ensures a.SpawnTask? && s.pc.snap.uid == uid ==> uid !in s.past.spawned && uid in Step(s, a).past.spawned
    ensures uid in s.past.spawned ==> uid in Step(s, a).past.spawned
  {
    hide TableOk, BirthsOk, BuildPod, Decide, FindsPod, ResurrectedAnnotations;
  }

  lemma TaskMakesHeir(s: State, t: nat)
    requires TasksOk(s) && Enabled(s, TaskCreates(t))
    ensures NoHeir(s.past, s.tasks[t].original) && s.nextUid !in s.past.born
  {
    TaskIsOk(s, t);
    TaskCreatesExtends(s, t);
    hide RemovedOk, TableOk, BirthsOk, Step, Extends;
    TaskHasNoHeir(s.past, s.tasks[t]);
  }

  lemma BornByTask(s: State, t: nat)
    requires Enabled(s, TaskCreates(t))
    ensures Step(s, TaskCreates(t)).past.born == s.past.born[s.nextUid := s.tasks[t].original]
  {
  }

  lemma HeirAdded(p: Past, q: Past, u: nat, original: nat, uid: nat)
    requires u !in p.born && q.born == p.born[u := original]
    ensures NoHeir(q, uid) <==> NoHeir(p, uid) && original != uid
  {
    if NoHeir(q, uid) {
      assert forall v | v in p.born :: v in q.born && q.born[v] == p.born[v];
      assert u in q.born;
    }
  }

  lemma OthersMakeNoHeir(s: State, a: Action)
    requires Enabled(s, a) && !a.TaskCreates?
    ensures Step(s, a).past.born == s.past.born
  {
    hide BuildPod, Decide, FindsPod, ResurrectedAnnotations;
  }

  lemma HeirOnce(s: State, a: Action, uid: nat)
    requires TasksOk(s) && Enabled(s, a)
    ensures a.TaskCreates? && s.tasks[a.task].original == uid ==> NoHeir(s.past, uid) && !NoHeir(Step(s, a).past, uid)
    ensures !NoHeir(s.past, uid) ==> !NoHeir(Step(s, a).past, uid)
  {
    if a.TaskCreates? {
      TaskMakesHeir(s, a.task);
      BornByTask(s, a.task);
      HeirAdded(s.past, Step(s, a).past, s.nextUid, s.tasks[a.task].original, uid);
    } else {
      OthersMakeNoHeir(s, a);
    }
    hide TasksOk, Step;
  }

  /** Over a whole run each uid starts one task at most, and one Agent at most is created in its place. */
  lemma {:induction false} OneResurrectionOverRuns(s: State, acts: seq<Action>, uid: nat)
    requires Inv(s) && IsRun(s, acts)
    ensures TasksStarted(s, acts, uid) <= if uid in s.past.spawned then 0 else 1
    ensures HeirsCreated(s, acts, uid) <= if NoHeir(s.past, uid) then 1 else 0
    decreases |acts|
  {
    hide Step, KeepsReservedKeys, VersionsOk, PodsOk, TasksOk, GuardsOk, NoHeir;
    if acts != [] {
      InvStep(s, acts[0]);
      SpawnedOnce(s, acts[0], uid);
      HeirOnce(s, acts[0], uid);
      OneResurrectionOverRuns(Step(s, acts[0]), acts[1..], uid);
    }
  }

  /** So whatever happens, a uid is resurrected at most once; and never two tasks for it wait at the same time. */
  lemma OneResurrectionEach(name: string, acts: seq<Action>, s: State)
    requires Reaches(name, acts, s)
    ensures forall uid :: TasksStarted(Init(name), acts, uid) <= 1 && HeirsCreated(Init(name), acts, uid) <= 1
    ensures forall i, j | i in s.tasks && j in s.tasks :: s.tasks[i].original == s.tasks[j].original ==> i == j
    ensures forall u, v | u in s.past.born && v in s.past.born :: s.past.born[u] == s.past.born[v] ==> u == v
    ensures forall i, u | i in s.tasks && u in s.past.born :: s.past.born[u] != s.tasks[i].original
  {
    InvReached(name, acts, s);
    InvInit(name);
    hide Run, IsRun, PodsOk, VersionsOk, GuardsOk, BornOk, Init, TaskOk, TasksStarted, HeirsCreated;
    forall i | i in s.tasks
      ensures NoHeir(s.past, s.tasks[i].original)
    {
      TaskHasNoHeir(s.past, s.tasks[i]);
    }
    forall uid ensures TasksStarted(Init(name), acts, uid) <= 1 && HeirsCreated(Init(name), acts, uid) <= 1 {
      OneResurrectionOverRuns(Init(name), acts, uid);
    }
  }

  /**
   An heir is born with the spec and labels stored at the end of its original, and its annotations but for two keys.
   */
  lemma HeirCarriesTheOriginal(name: string, acts: seq<Action>, s: State, u: nat)
    requires Reaches(name, acts, s) && u in s.past.born
    ensures u in s.past.birth && s.past.born[u] in s.past.removed
    ensures var original, heir := s.past.removed[s.past.born[u]], s.past.birth[u];
            && heir.spec == original.spec
            && heir.labels == original.labels
            && Heirloom(s.past.born[u], original.annotations, heir.annotations)
            && !original.spec.selfHealingDisabled
  {
    hide Run, IsRun, PodsOk, VersionsOk, Heirloom, TableOk, Init;
    InvReached(name, acts, s);
    assert BornOk(s.past, u);
  }

  // line[0] is the oldest; each later uid was born to replace the one before it.
  predicate Lineage(p: Past, line: seq<nat>) {
    && line != []
    && forall i | 0 < i < |line| :: line[i] in p.born && p.born[line[i]] == line[i - 1]
  }

  // Users left the spec of uid alone between its birth and its end.
  predicate Untouched(p: Past, uid: nat) {
    && uid in p.birth && uid in p.removed
    && p.removed[uid].spec == p.birth[uid].spec && p.removed[uid].labels == p.birth[uid].labels
  }

  /** However many times the agent is deleted and healed, its spec and labels come through unchanged. */
  lemma {:induction false} LineageKeepsSpec(name: string, acts: seq<Action>, s: State, line: seq<nat>)
    requires Reaches(name, acts, s) && Lineage(s.past, line) && |line| > 1
    requires forall i | 0 < i < |line| - 1 :: Untouched(s.past, line[i])
    ensures var first, last := line[0], line[|line| - 1];
            && first in s.past.removed && last in s.past.birth
            && s.past.birth[last].spec == s.past.removed[first].spec
            && s.past.birth[last].labels == s.past.removed[first].labels
    decreases |line|
  {
    hide Run, IsRun, Init, Heirloom;
    HeirCarriesTheOriginal(name, acts, s, line[|line| - 1]);
    if |line| > 2 {
      var shorter := line[..|line| - 1];
      LineageKeepsSpec(name, acts, s, shorter);
      assert Untouched(s.past, line[|line| - 2]);
    }
  }

  // ------------------------------------------------------------------ runs that show the hypotheses matter

  lemma {:induction false} RunThenStep(s: State, acts: seq<Action>, a: Action)
    requires IsRun(s, acts) && KeepsReservedKeys(Run(s, acts).name, a) && Enabled(Run(s, acts), a)
    ensures IsRun(s, acts + [a]) && Run(s, acts + [a]) == Step(Run(s, acts), a)
    ensures AlwaysReadsStoredUid(s, acts + [a]) <==> AlwaysReadsStoredUid(s, acts) && ReadsStoredUid(Run(s, acts), a)
    decreases |acts|
  {
    hide Step, KeepsReservedKeys, KeepsReserved, FindsPod, Decide, ReadsStoredUid;
    var longer := acts + [a];
    if acts == [] {
      assert longer[1..] == [];
    } else {
      assert longer[1..] == acts[1..] + [a];
      RunThenStep(Step(s, acts[0]), acts[1..], a);
    }
  }

  // Some run leads to s; with sameUid, one that reads versions of the stored Agent only.
  ghost predicate Reachable(name: string, sameUid: bool, s: State) {
    exists acts :: Reaches(name, acts, s) && (sameUid ==> AlwaysReadsStoredUid(Init(name), acts))
  }

  lemma ReachNext(name: string, sameUid: bool, s: State, a: Action) returns (s': State)
    requires Reachable(name, sameUid, s) && Enabled(s, a) && KeepsReservedKeys(s.name, a)
    requires sameUid ==> ReadsStoredUid(s, a)
    ensures Reachable(name, sameUid, s') && s' == Step(s, a)
  {
    hide Step, KeepsReservedKeys, Init, Decide, FindsPod, ReadsStoredUid, AlwaysReadsStoredUid;
    s' := Step(s, a);
    hide Enabled;
    var acts :| Reaches(name, acts, s) && (sameUid ==> AlwaysReadsStoredUid(Init(name), acts));
    RunThenStep(Init(name), acts, a);
    assert Reaches(name, acts + [a], s');
  }

  // The first Agent of that name, created and guarded by the finalizer.
  lemma GuardedAgent(name: string, sameUid: bool, spec: Spec) returns (s: State)
    requires KeepsReserved(name, spec)
    ensures Reachable(name, sameUid, s) && s.name == name
    ensures s.pc == Idle && s.pods == map[] && s.tasks == map[] && s.nextUid == 1 && s.nextPod == 0
    ensures s.cr.Some? && s.cr.value in s.past.versions
    ensures s.cr.value.uid == 0 && s.cr.value.generation == 1 && s.cr.value.spec == spec
    ensures s.cr.value.finalizer && !s.cr.value.deleting
  {
    hide BuildPod, KeepsReserved, FindsPod;
    s := Init(name);
    assert Reaches(name, [], s) && AlwaysReadsStoredUid(s, []);
    hide Reachable, Reaches, Init;
    s := ReachNext(name, sameUid, s, UserCreate(spec, map[], map[]));
    s := ReachNext(name, sameUid, s, Fetch(s.cr));
    s := ReachNext(name, sameUid, s, UpdateAddFinalizer);
  }

  // It is deleted from outside, and the reconciler has seen that.
  lemma DyingAgent(name: string, sameUid: bool, spec: Spec) returns (s: State, guarded: Agent)
    requires KeepsReserved(name, spec) && !spec.selfHealingDisabled
    ensures Reachable(name, sameUid, s) && s.name == name
    ensures s.pods == map[] && s.tasks == map[] && s.nextUid == 1 && s.nextPod == 0
    ensures s.pc.Fetched? && s.cr == Some(s.pc.snap) && s.pc.snap.deleting && s.pc.snap.uid == 0
        && s.pc.snap.spec == spec
    ensures guarded in s.past.versions && guarded.uid == 0 && guarded.generation == 1 && guarded.spec == spec
    ensures guarded.finalizer && !guarded.deleting
  {
    s := GuardedAgent(name, sameUid, spec);
    hide BuildPod, KeepsReserved, Reachable, Decide;
    guarded := s.cr.value;
    s := ReachNext(name, sameUid, s, UserDelete(false));
    s := ReachNext(name, sameUid, s, Fetch(s.cr));
  }

  // It is let go; the reconciler is about to start a task.
  lemma DeletedAgent(name: string, sameUid: bool, spec: Spec) returns (s: State, guarded: Agent)
    requires KeepsReserved(name, spec) && !spec.selfHealingDisabled
    ensures Reachable(name, sameUid, s) && s.name == name
    ensures s.cr == None && s.pods == map[] && s.tasks == map[] && s.nextUid == 1 && s.nextPod == 0
    ensures s.pc.Spawning? && s.pc.snap.uid == 0 && s.pc.snap.spec == spec
    ensures guarded in s.past.versions && guarded.uid == 0 && guarded.generation == 1 && guarded.spec == spec
    ensures guarded.finalizer && !guarded.deleting
  {
    s, guarded := DyingAgent(name, sameUid, spec);
    hide BuildPod, KeepsReserved, Reachable, Decide;
    s := ReachNext(name, sameUid, s, ListPods(None));
    s := ReachNext(name, sameUid, s, UpdateRemoveFinalizer);
  }

  /** Healing does happen: after an external delete some run brings the Agent back under a new uid. */
  lemma DeletedAgentCanReturn(name: string, spec: Spec)
    requires KeepsReserved(name, spec) && !spec.selfHealingDisabled
    ensures exists s :: Reachable(name, true, s) && s.cr.Some? && s.cr.value.uid == 1 && s.cr.value.spec == spec
                        && 1 in s.past.born && s.past.born[1] == 0
  {
    var s, _ := DeletedAgent(name, true, spec);
    hide BuildPod, KeepsReserved;
    s := ReachNext(name, true, s, SpawnTask("now"));
    s := ReachNext(name, true, s, TaskCreates(s.nextTask - 1));
  }

  // A stale read of the guarded version makes the reconciler build a Pod for an Agent that is gone.
  lemma OrphanedPod(name: string, spec: Spec) returns (s: State)
    requires KeepsReserved(name, spec) && !spec.selfHealingDisabled && !spec.paused
    ensures Reachable(name, false, s) && s.name == name && s.cr == None && s.nextUid == 1
    ensures s.pods == map[0 := Pod(BuildPod(name, 1, spec), 0, false)]
  {
    var guarded: Agent;
    s, guarded := DeletedAgent(name, false, spec);
    hide BuildPod, KeepsReserved, Reachable, SpecChanged;
    s := ReachNext(name, false, s, Crash);
    s := ReachNext(name, false, s, Fetch(Some(guarded)));
    s := ReachNext(name, false, s, ListPods(None));
    s := ReachNext(name, false, s, CreatePodCall);
  }

  /**
   So with a stale Agent read both the ownership and the fingerprint property fail: a later Agent of the same name
   takes the orphaned Pod for its own although it runs another image.
   */
  lemma StaleReadBreaksFingerprint(name: string, before: Spec, after: Spec)
    requires KeepsReserved(name, before) && KeepsReserved(name, after)
    requires !before.selfHealingDisabled && !before.paused && before.image != after.image
    ensures exists s :: Reachable(name, false, s) && s.cr.Some? && Live(s, 0)
                        && s.pods[0].owner != s.cr.value.uid
                        && !SpecChanged(s.cr.value.generation, s.pods[0].template)
                        && s.pods[0].template != BuildPod(name, s.cr.value.generation, s.cr.value.spec)
  {
    var s := OrphanedPod(name, before);
    SpecChangedIff(name, 1, 1, before);
    assert BuildPod(name, 1, before).spec.container.image != BuildPod(name, 1, after).spec.container.image;
    hide BuildPod, KeepsReserved, Reachable, SpecChanged;
    s := ReachNext(name, false, s, UserCreate(after, map[], map[]));
  }
}
