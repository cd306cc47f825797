/**
 The sequential reconciler of Controller is the interleaved one of Lifecycle when nobody interferes: one fault-free call
 is a run of the worker's actions. So convergence holds for runs of the protocol, and an Agent that was deleted from
 outside comes back and runs again.
 */
module ReconcileRuns {
  import opened Wrappers
  import opened AgentTypes
  import opened Lifecycle
  import opened LifecycleTheorems
  import Controller

  // The same object, at whatever resource version.
  predicate SameAgent(a: Agent, b: Agent) {
    a.(resourceVersion := 0) == b.(resourceVersion := 0)
  }

  // w lists exactly the Pods of s, and holds its Agent. Services are not part of Lifecycle, Pod phases neither.
  predicate Represents(w: Controller.World, s: State) {
    s.cr.Some? && SameAgent(s.cr.value, w.agent) && PodsMatch(w.pods, w.nextPod, s)
  }

  predicate PodsMatch(pods: seq<Controller.PodObject>, nextPod: nat, s: State) {
    && s.nextPod == nextPod
    && (forall i | 0 <= i < |pods| :: Holds(s, pods[i]))
    && (forall i, j | 0 <= i < j < |pods| :: pods[i].id != pods[j].id)
    && (forall id | id in s.pods :: exists i | 0 <= i < |pods| :: pods[i].id == id)
  }

  predicate Holds(s: State, pod: Controller.PodObject) {
    pod.id in s.pods && s.pods[pod.id].template == pod.template && s.pods[pod.id].terminating == pod.terminating
  }

  // What the program itself does: no user, no kubelet, no crash.
  predicate ByProgram(a: Action) {
    match a
    case UserCreate(_, _, _) => false
    case UserEdit(_, _, _) => false
    case UserDelete(_) => false
    case PodTerminates(_) => false
    case PodDisappears(_) => false
    case Crash => false
    case _ => true
  }

  // Undisturbed work of the program, which reads what is stored, leads from s to t.
  ghost predicate Leads(s: State, t: State) {
    exists acts :: LeadsBy(s, acts, t)
  }

  predicate LeadsBy(s: State, acts: seq<Action>, t: State) {
    && IsRun(s, acts) && Run(s, acts) == t && AlwaysReadsStoredUid(s, acts)
    && forall i | 0 <= i < |acts| :: ByProgram(acts[i])
  }

  lemma LeadsNowhere(s: State)
    ensures Leads(s, s)
  {
    assert LeadsBy(s, [], s);
  }

  lemma LeadsOn(s: State, t: State, a: Action)
    requires Leads(s, t) && Enabled(t, a) && ByProgram(a) && ReadsStoredUid(t, a)
    ensures Leads(s, Step(t, a))
  {
    assert KeepsReservedKeys(t.name, a);
    hide Enabled, Step, ReadsStoredUid, KeepsReservedKeys, AlwaysReadsStoredUid, IsRun, Run;
    var acts :| LeadsBy(s, acts, t);
    RunThenStep(s, acts, a);
    assert LeadsBy(s, acts + [a], Step(t, a));
  }

  // What the call finds, in the terms of both models.
  function FoundIn(name: string, w: Controller.World): Option<Found> {
    var i := Controller.FirstOwnPod(name, w.pods);
    if i < |w.pods| then Some(Found(w.pods[i].id, w.pods[i].template)) else None
  }

  lemma FindsTheSame(w: Controller.World, s: State)
    requires Represents(w, s)
    ensures FindsPod(s, FoundIn(s.name, w))
  {
    var i := Controller.FirstOwnPod(s.name, w.pods);
    if i < |w.pods| {
      assert Holds(s, w.pods[i]) && Controller.IsOwnPod(s.name, w.pods[i]);
    } else {
      forall id | id in s.pods
        ensures Live(s, id) ==> !Selects(s.name, s.pods[id].template)
      {
        var j :| 0 <= j < |w.pods| && w.pods[j].id == id;
        assert Holds(s, w.pods[j]) && !Controller.IsOwnPod(s.name, w.pods[j]);
      }
    }
    hide Selects;
  }

  // After Get and List.
  function Looked(s: State, found: Option<Found>): State
    requires s.cr.Some?
  {
    s.(pc := Listed(s.cr.value, found))
  }

  lemma LooksAround(s0: State, s: State, found: Option<Found>)
    requires Leads(s0, s) && VersionsOk(s) && s.pc.Idle? && s.cr.Some? && !s.cr.value.deleting && s.cr.value.finalizer
    requires FindsPod(s, found)
    ensures Leads(s0, Looked(s, found))
  {
    var s1 := Step(s, Fetch(s.cr));
    LeadsOn(s0, s, Fetch(s.cr));
    assert FindsPod(s1, found);
    hide FindsPod, VersionsOk, Leads;
    assert s1.cr == s.cr && s1.pc == Fetched(s.cr.value);
    LeadsOn(s0, s1, ListPods(found));
    assert Step(s1, ListPods(found)) == Looked(s, found);
  }

  lemma WritesStatus(s0: State, s: State, status: Status)
    requires Leads(s0, s) && s.cr.Some?
    ensures Leads(s0, Store(s, s.cr.value.(status := status)))
  {
    hide Leads;
    LeadsOn(s0, s, WriteStatus(status));
  }

  lemma Returns(s0: State, s: State)
    requires Leads(s0, s)
    ensures Leads(s0, s.(pc := Idle))
  {
    hide Leads;
    LeadsOn(s0, s, Return);
  }

  lemma DeletesFound(s0: State, s: State)
    requires Leads(s0, s) && s.pc.Listed? && s.pc.found.Some?
    requires Decide(s.pc.snap, DecisionOf(s.pc.found)) in {DeletePodForPause, ReplacePod}
    ensures Leads(s0, Terminate(s, s.pc.found.value.id).(pc := Idle))
  {
    hide Leads, Decide;
    LeadsOn(s0, s, DeleteFoundPod);
  }

  // ---- The objects after the call

  lemma StatusRepresented(w: Controller.World, s: State, status: Status)
    requires Represents(w, s)
    ensures Represents(w.(agent := w.agent.(status := status)), Store(s, s.cr.value.(status := status)).(pc := Idle))
  {
    var s' := Store(s, s.cr.value.(status := status)).(pc := Idle);
    assert forall i | 0 <= i < |w.pods| :: Holds(s, w.pods[i]) ==> Holds(s', w.pods[i]);
  }

  lemma TerminationRepresented(w: Controller.World, s: State, i: nat)
    requires Represents(w, s) && i < |w.pods|
    ensures Represents(w.(pods := Controller.TerminateAt(w.pods, i)), Terminate(s, w.pods[i].id).(pc := Idle))
  {
    var pods := Controller.TerminateAt(w.pods, i);
    var s' := Terminate(s, w.pods[i].id).(pc := Idle);
    assert Holds(s, w.pods[i]);
    forall j | 0 <= j < |pods|
      ensures pods[j].id == w.pods[j].id && Holds(s', pods[j])
    {
      assert Holds(s, w.pods[j]);
      assert j != i ==> w.pods[j].id != w.pods[i].id;
    }
    forall id | id in s'.pods
      ensures exists j | 0 <= j < |pods| :: pods[j].id == id
    {
      var j :| 0 <= j < |w.pods| && w.pods[j].id == id;
      assert pods[j].id == id;
    }
  }

  lemma CreationRepresented(w: Controller.World, s: State, template: PodTemplate, owner: nat, s': State)
    requires Represents(w, s) && (forall id | id in s.pods :: id < s.nextPod)
    requires s'.cr == s.cr && s'.pods == s.pods[s.nextPod := Pod(template, owner, false)] && s'.nextPod == s.nextPod + 1
    ensures Represents(WithPod(w, template), s')
  {
    var pods := w.pods + [Controller.PodObject(w.nextPod, template, false, PodPending)];
    forall j | 0 <= j < |pods|
      ensures Holds(s', pods[j])
      ensures j < |w.pods| ==> pods[j].id < w.nextPod
    {
      if j < |w.pods| {
        assert Holds(s, w.pods[j]);
      }
    }
    forall id | id in s'.pods
      ensures exists j | 0 <= j < |pods| :: pods[j].id == id
    {
      if id == s.nextPod {
        assert pods[|w.pods|].id == id;
      } else {
        var j :| 0 <= j < |w.pods| && w.pods[j].id == id;
        assert pods[j].id == id;
      }
    }
  }

  // ---- The six cases of a call

  lemma AddFinalizerIsARun(w: Controller.World, s: State) returns (t: State)
    requires Represents(w, s) && VersionsOk(s) && s.pc.Idle? && !w.agent.deleting && !w.agent.finalizer
    ensures Leads(s, t) && t.pc.Idle? && Represents(w.(agent := w.agent.(finalizer := true)), t)
  {
    LeadsNowhere(s);
    LeadsOn(s, s, Fetch(s.cr));
    var s1 := Step(s, Fetch(s.cr));
    hide Leads, VersionsOk;
    LeadsOn(s, s1, UpdateAddFinalizer);
    t := Step(s1, UpdateAddFinalizer);
    assert forall i | 0 <= i < |w.pods| :: Holds(s, w.pods[i]) ==> Holds(t, w.pods[i]);
  }

  lemma ReportIsARun(w: Controller.World, s: State, status: Status) returns (t: State)
    requires Represents(w, s) && VersionsOk(s) && s.pc.Idle? && !w.agent.deleting && w.agent.finalizer
    ensures Leads(s, t) && t.pc.Idle? && Represents(w.(agent := w.agent.(status := status)), t)
  {
    var found := FoundIn(s.name, w);
    FindsTheSame(w, s);
    LeadsNowhere(s);
    LooksAround(s, s, found);
    StatusRepresented(w, s, status);
    var s1 := Looked(s, found);
    hide Leads, Represents, FindsPod, VersionsOk, FoundIn;
    WritesStatus(s, s1, status);
    var s2 := Store(s1, s1.cr.value.(status := status));
    Returns(s, s2);
    t := s2.(pc := Idle);
  }

  // The state after the status write and the Delete.
  function Terminated(s: State, status: Status, id: nat): State
    requires s.cr.Some?
  {
    Terminate(Store(s, s.cr.value.(status := status)), id).(pc := Idle)
  }

  lemma TerminationLeads(s: State, status: Status, f: Found)
    requires VersionsOk(s) && s.pc.Idle? && s.cr.Some? && !s.cr.value.deleting && s.cr.value.finalizer
    requires FindsPod(s, Some(f)) && Decide(s.cr.value, Some(f.template)) in {DeletePodForPause, ReplacePod}
    ensures Leads(s, Terminated(s, status, f.id))
  {
    LeadsNowhere(s);
    LooksAround(s, s, Some(f));
    var s1 := Looked(s, Some(f));
    hide Leads, FindsPod, VersionsOk, Decide;
    WritesStatus(s, s1, status);
    var s2 := Store(s1, s1.cr.value.(status := status));
    DeletesFound(s, s2);
    assert Terminate(s2, f.id).(pc := Idle) == Terminated(s, status, f.id);
  }

  lemma TerminationObjects(w: Controller.World, s: State, status: Status, i: nat)
    requires Represents(w, s) && i < |w.pods| && s.pc.Idle?
    ensures Represents(w.(pods := Controller.TerminateAt(w.pods, i), agent := w.agent.(status := status)),
                       Terminated(s, status, w.pods[i].id))
  {
    StatusRepresented(w, s, status);
    var s1 := Store(s, s.cr.value.(status := status)).(pc := Idle);
    hide Represents;
    TerminationRepresented(w.(agent := w.agent.(status := status)), s1, i);
    assert Terminate(s1, w.pods[i].id).(pc := Idle) == Terminated(s, status, w.pods[i].id);
  }

  lemma TerminationIsARun(w: Controller.World, s: State, status: Status, i: nat) returns (t: State)
    requires Represents(w, s) && VersionsOk(s) && s.pc.Idle? && !w.agent.deleting && w.agent.finalizer
    requires i == Controller.FirstOwnPod(s.name, w.pods) && i < |w.pods|
    requires Decide(w.agent, Some(w.pods[i].template)) in {DeletePodForPause, ReplacePod}
    ensures Leads(s, t) && t.pc.Idle?
    ensures Represents(w.(pods := Controller.TerminateAt(w.pods, i), agent := w.agent.(status := status)), t)
  {
    FindsTheSame(w, s);
    DecidesAlike(w, s, Some(w.pods[i].template));
    TerminationObjects(w, s, status, i);
    t := Terminated(s, status, w.pods[i].id);
    hide Leads, FindsPod, VersionsOk, Decide;
    TerminationLeads(s, status, Found(w.pods[i].id, w.pods[i].template));
  }

  lemma DecidesAlike(w: Controller.World, s: State, template: Option<PodTemplate>)
    requires Represents(w, s)
    ensures Decide(s.cr.value, template) == Decide(w.agent, template)
    ensures s.cr.value.generation == w.agent.generation && s.cr.value.spec == w.agent.spec
    ensures s.cr.value.deleting == w.agent.deleting && s.cr.value.finalizer == w.agent.finalizer
  {
  }

  lemma CreationLeads(s: State) returns (t: State)
    requires VersionsOk(s) && s.pc.Idle? && s.cr.Some? && !s.cr.value.deleting && s.cr.value.finalizer
    requires FindsPod(s, None) && Decide(s.cr.value, None) == Decision.CreatePod
    ensures Leads(s, t) && t.pc.Idle? && t.cr == s.cr && t.nextPod == s.nextPod + 1
    ensures var a := s.cr.value;
            t.pods == s.pods[s.nextPod := Pod(BuildPod(s.name, a.generation, a.spec), a.uid, false)]
  {
    LeadsNowhere(s);
    LooksAround(s, s, None);
    var s1 := Looked(s, None);
    hide Leads, FindsPod, VersionsOk, Decide, BuildPod;
    LeadsOn(s, s1, CreatePodCall);
    t := Step(s1, CreatePodCall);
  }

  lemma PodIdsAreOld(s: State)
    requires PodsOk(s)
    ensures forall id | id in s.pods :: id < s.nextPod
  {
    hide BuildPod;
    assert forall id | id in s.pods :: BuiltFrom(s, id, s.pods[id].template);
  }

  lemma CreationIsARun(w: Controller.World, s: State) returns (t: State)
    requires Represents(w, s) && VersionsOk(s) && PodsOk(s) && s.pc.Idle? && !w.agent.deleting && w.agent.finalizer
    requires FoundIn(s.name, w).None? && Decide(w.agent, None) == Decision.CreatePod
    ensures Leads(s, t) && t.pc.Idle?
    ensures Represents(WithPod(w, BuildPod(s.name, w.agent.generation, w.agent.spec)), t)
  {
    FindsTheSame(w, s);
    DecidesAlike(w, s, None);
    PodIdsAreOld(s);
    hide Leads, FindsPod, VersionsOk, PodsOk, Decide, BuildPod, Represents, WithPod;
    t := CreationLeads(s);
    CreationRepresented(w, s, BuildPod(s.name, w.agent.generation, w.agent.spec), s.cr.value.uid, t);
  }

  function WithPod(w: Controller.World, template: PodTemplate): Controller.World {
    w.(pods := w.pods + [Controller.PodObject(w.nextPod, template, false, PodPending)], nextPod := w.nextPod + 1)
  }

  // What a call does to Agent and Pods, by the decision it takes.
  function DecisionIn(name: string, w: Controller.World): Decision {
    var i := Controller.FirstOwnPod(name, w.pods);
    Decide(w.agent, if i < |w.pods| then Some(w.pods[i].template) else None)
  }

  lemma CallShape(name: string, w: Controller.World)
    ensures var next, i := Controller.After(name, w), Controller.FirstOwnPod(name, w.pods);
            match DecisionIn(name, w)
            case AddFinalizer => !w.agent.finalizer && next == w.(agent := w.agent.(finalizer := true))
            case DeletePodForPause =>
              && w.agent.finalizer && i < |w.pods|
              && next == w.(pods := Controller.TerminateAt(w.pods, i), agent := w.agent.(status := next.agent.status))
            case ReplacePod =>
              && w.agent.finalizer && i < |w.pods|
              && next == w.(pods := Controller.TerminateAt(w.pods, i), agent := w.agent.(status := next.agent.status))
            case CreatePod =>
              && w.agent.finalizer && i == |w.pods|
              && next == WithPod(w, BuildPod(name, w.agent.generation, w.agent.spec))
            case _ =>
              w.agent.finalizer && next == w.(agent := w.agent.(status := next.agent.status), services := next.services)
  {
    hide BuildPod, SpecChanged, Controller.ServicesAfter, Controller.ServiceNameAfter;
  }

  lemma ServicesDoNotMatter(w: Controller.World, services: map<string, Controller.Service>, s: State)
    requires Represents(w, s)
    ensures Represents(w.(services := services), s)
  {
  }

  /**
   Without interference and faults, one call of Reconcile is a run of the worker from the same objects to the same
   objects.
   */
  lemma CallIsARun(w: Controller.World, s: State) returns (t: State)
    requires Represents(w, s) && Inv(s) && s.pc.Idle? && !w.agent.deleting
    ensures Leads(s, t) && t.pc.Idle? && Represents(Controller.After(s.name, w), t)
    ensures !Controller.After(s.name, w).agent.deleting
  {
    CallShape(s.name, w);
    var next := Controller.After(s.name, w);
    hide Leads, VersionsOk, PodsOk, BuildPod, SpecChanged, Represents, Controller.After;
    match DecisionIn(s.name, w)
    case AddFinalizer => t := AddFinalizerIsARun(w, s);
    case DeletePodForPause => t := TerminationIsARun(w, s, next.agent.status, Controller.FirstOwnPod(s.name, w.pods));
    case ReplacePod => t := TerminationIsARun(w, s, next.agent.status, Controller.FirstOwnPod(s.name, w.pods));
    case CreatePod => t := CreationIsARun(w, s);
    case _ =>
      t := ReportIsARun(w, s, next.agent.status);
      ServicesDoNotMatter(w.(agent := w.agent.(status := next.agent.status)), next.services, t);
  }

  lemma LeadsKeepsInv(s: State, t: State)
    requires Inv(s) && Leads(s, t)
    ensures Inv(t) && t.name == s.name
  {
    hide Inv, IsRun, Run, AlwaysReadsStoredUid;
    var acts :| LeadsBy(s, acts, t);
    InvOverRuns(s, acts);
  }

  lemma {:induction false} RunsJoin(s: State, acts: seq<Action>, more: seq<Action>)
    requires IsRun(s, acts) && IsRun(Run(s, acts), more)
    ensures IsRun(s, acts + more) && Run(s, acts + more) == Run(Run(s, acts), more)
    ensures AlwaysReadsStoredUid(s, acts) && AlwaysReadsStoredUid(Run(s, acts), more)
            ==> AlwaysReadsStoredUid(s, acts + more)
    decreases |acts|
  {
    hide Step, Enabled, ReadsStoredUid, KeepsReservedKeys;
    if acts == [] {
      assert acts + more == more;
    } else {
      assert (acts + more)[1..] == acts[1..] + more && (acts + more)[0] == acts[0];
      RunsJoin(Step(s, acts[0]), acts[1..], more);
    }
  }

  lemma LeadsFurther(s: State, t: State, u: State)
    requires Leads(s, t) && Leads(t, u)
    ensures Leads(s, u)
  {
    hide IsRun, Run, AlwaysReadsStoredUid;
    var acts :| LeadsBy(s, acts, t);
    var more :| LeadsBy(t, more, u);
    RunsJoin(s, acts, more);
    assert LeadsBy(s, acts + more, u);
  }

  lemma {:induction false} CallsAreARun(w: Controller.World, s: State, n: nat) returns (t: State)
    requires Represents(w, s) && Inv(s) && s.pc.Idle? && !w.agent.deleting
    ensures Leads(s, t) && t.pc.Idle? && t.name == s.name && Represents(Controller.Calls(s.name, w, n), t)
    decreases n
  {
    hide Leads, Inv, Represents, Controller.After;
    if n == 0 {
      t := s;
      LeadsNowhere(s);
    } else {
      var u := CallIsARun(w, s);
      LeadsKeepsInv(s, u);
      t := CallsAreARun(Controller.After(s.name, w), u, n - 1);
      LeadsFurther(s, u, t);
    }
  }

  // What the interleavings keep is what convergence starts from.
  lemma ReachableIsWellformed(name: string, acts: seq<Action>, s: State, w: Controller.World)
    requires Reaches(name, acts, s) && AlwaysBuildsForStored(Init(name), acts) && Represents(w, s) && !w.agent.deleting
    ensures Controller.Wellformed(name, w)
  {
    hide Run, IsRun, TasksOk, SpecChanged, BuildPod, Init, Selects, AlwaysBuildsForStored, Controller.Recognizable;
    InvReached(name, acts, s);
    assert VersionOk(s, s.cr.value);
    Controller.RecognizableIff(name, w.agent.generation, w.agent.spec);
    forall i | 0 <= i < |w.pods| && Controller.IsOwnPod(name, w.pods[i])
      ensures Live(s, w.pods[i].id)
      ensures !SpecChanged(w.agent.generation, w.pods[i].template) ==>
                w.pods[i].template == BuildPod(name, w.agent.generation, w.agent.spec)
    {
      assert Holds(s, w.pods[i]);
      LivePodIsOwned(name, acts, s, w.pods[i].id);
      LivePodFingerprint(name, acts, s, w.pods[i].id);
    }
    hide VersionsOk, PodsOk, GuardsOk;
  }

  /**
   From every state that a run reaches without building for an Agent that is gone, and in which the worker is idle and
   the Agent is not being deleted, undisturbed work of the reconciler leads to a settled state, within four calls.
   */
  lemma ReachableStatesConverge(name: string, acts: seq<Action>, s: State, w: Controller.World, more: nat)
    returns (t: State)
    requires Reaches(name, acts, s) && AlwaysBuildsForStored(Init(name), acts)
    requires s.pc.Idle? && Represents(w, s) && !w.agent.deleting
    ensures Leads(s, t) && t.pc.Idle? && Represents(Controller.Calls(name, w, 4), t)
    ensures Controller.Settled(name, Controller.Calls(name, w, 4))
    ensures Controller.Calls(name, w, 4 + more) == Controller.Calls(name, w, 4)
    ensures t.cr.Some? && t.cr.value.spec == s.cr.value.spec
  {
    hide Leads, Inv, Run, IsRun, Init, Controller.Wellformed, Controller.Settled, Controller.Calls,
        AlwaysBuildsForStored;
    InvReached(name, acts, s);
    ReachableIsWellformed(name, acts, s, w);
    Controller.FourCallsConverge(name, w, more);
    t := CallsAreARun(w, s, 4);
  }

  // ---- An Agent that is being deleted

  // Get and List for an Agent that is being deleted, and the Delete of what was found.
  lemma LetsGo(s: State, found: Option<Found>) returns (t: State)
    requires VersionsOk(s) && s.pc.Idle? && s.cr.Some? && s.cr.value.deleting && FindsPod(s, found)
    ensures Leads(s, t)
    ensures t == (if found.Some? then Terminate(s, found.value.id) else s).(pc := RemovingFinalizer(s.cr.value))
  {
    hide Leads, VersionsOk, Terminate, Selects, Decide;
    LeadsNowhere(s);
    assert s.cr.value in s.past.versions by {
      StoredIsAVersion(s);
    }
    LeadsOn(s, s, Fetch(s.cr));
    var s1 := Step(s, Fetch(s.cr));
    assert FindsPod(s1, found);
    LeadsOn(s, s1, ListPods(found));
    t := Step(s1, ListPods(found));
    if found.Some? {
      LeadsOn(s, t, DeleteFoundPod);
      t := Step(t, DeleteFoundPod);
      TerminateIgnoresPc(s, t, s1, found.value);
    }
  }

  lemma StoredIsAVersion(s: State)
    requires VersionsOk(s) && s.cr.Some?
    ensures s.cr.value in s.past.versions
  {
  }

  lemma TerminateIgnoresPc(s: State, t: State, s1: State, f: Found)
    requires s.cr.Some? && s1 == s.(pc := Fetched(s.cr.value))
    requires t == Terminate(s1.(pc := DeletionListed(s.cr.value, f)), f.id).(pc := RemovingFinalizer(s.cr.value))
    ensures t == Terminate(s, f.id).(pc := RemovingFinalizer(s.cr.value))
  {
  }

  // The state after the Update, and after the start of the goroutine when there is one.
  lemma Removes(s0: State, s: State, now: string) returns (t: State)
    requires Leads(s0, s) && s.pc.RemovingFinalizer? && s.cr == Some(s.pc.snap)
    ensures Leads(s0, t) && t.pc.Idle? && t.cr == None
    ensures t.pods == s.pods && t.nextPod == s.nextPod && t.nextUid == s.nextUid
    ensures t.tasks
            == if s.pc.snap.spec.selfHealingDisabled then s.tasks else s.tasks[s.nextTask := TaskFor(s.pc.snap, now)]
  {
    hide Leads;
    LeadsOn(s0, s, UpdateRemoveFinalizer);
    t := Step(s, UpdateRemoveFinalizer);
    if !s.pc.snap.spec.selfHealingDisabled {
      LeadsOn(s0, t, SpawnTask(now));
      t := Step(t, SpawnTask(now));
    }
  }

  // The captured data with the goroutine's two annotations.
  function TaskFor(a: Agent, now: string): Task {
    Controller.Captured(a).(annotations := ResurrectedAnnotations(a.annotations, now, a.uid))
  }

  lemma LetGoRepresented(w: Controller.World, s: State)
    requires Represents(w, s)
    ensures var f := FoundIn(s.name, w);
            PodsMatch(Controller.LetGo(s.name, w.pods), w.nextPod, if f.Some? then Terminate(s, f.value.id) else s)
  {
    var i := Controller.FirstOwnPod(s.name, w.pods);
    if i < |w.pods| {
      TerminationRepresented(w, s, i);
      var s' := Terminate(s, w.pods[i].id);
      hide PodsMatch, Terminate;
      PodsMatchIgnoresPc(Controller.TerminateAt(w.pods, i), w.nextPod, s', s'.(pc := Idle));
    }
  }

  lemma PodsMatchIgnoresPc(pods: seq<Controller.PodObject>, nextPod: nat, s: State, t: State)
    requires t.pods == s.pods && t.nextPod == s.nextPod
    ensures PodsMatch(pods, nextPod, t) <==> PodsMatch(pods, nextPod, s)
  {
    assert forall pod :: Holds(t, pod) <==> Holds(s, pod);
  }

  /**
   Without interference and faults, the deletion of an Agent is a run of the worker: it ends with the Agent gone, none
   of its Pods live, and a task for it exactly when healing was on.
   */
  lemma DeletionIsARun(w: Controller.World, s: State, now: string) returns (t: State)
    requires Represents(w, s) && Inv(s) && s.pc.Idle? && w.agent.deleting
    ensures Leads(s, t) && t.pc.Idle? && t.cr == None && NoneLive(t)
    ensures Inv(t) && t.name == s.name && t.nextUid == s.nextUid
    ensures PodsMatch(Controller.LetGo(s.name, w.pods), w.nextPod, t)
    ensures t.tasks
            == if w.agent.spec.selfHealingDisabled then s.tasks else s.tasks[s.nextTask := TaskFor(w.agent, now)]
  {
    hide Leads, VersionsOk, PodsOk, TasksOk, GuardsOk, Terminate, Represents, PodsMatch, FindsPod,
      ResurrectedAnnotations;
    var found := FoundIn(s.name, w);
    FindsTheSame(w, s);
    LetGoRepresented(w, s);
    SameAgentFields(w, s);
    var s1 := LetsGo(s, found);
    var s2 := if found.Some? then Terminate(s, found.value.id) else s;
    TerminateKeepsAgent(s, if found.Some? then found.value.id else 0);
    LeadsKeepsInv(s, s1);
    NoneLiveAtRemoval(s1);
    t := Removes(s, s1, now);
    LeadsKeepsInv(s, t);
    PodsMatchIgnoresPc(Controller.LetGo(s.name, w.pods), w.nextPod, s2, t);
  }

  lemma SameAgentFields(w: Controller.World, s: State)
    requires Represents(w, s)
    ensures s.cr.Some? && s.cr.value.deleting == w.agent.deleting && s.cr.value.spec == w.agent.spec
    ensures forall now :: TaskFor(s.cr.value, now) == TaskFor(w.agent, now)
    ensures s.cr.value.uid == w.agent.uid
  {
  }

  lemma TerminateKeepsAgent(s: State, id: nat)
    ensures var t := Terminate(s, id);
            && t.cr == s.cr && t.tasks == s.tasks && t.nextTask == s.nextTask
            && t.nextUid == s.nextUid && t.nextPod == s.nextPod
  {
  }

  // The Agent that a task creates.
  predicate Heir(a: Agent, original: Agent) {
    && a.uid != original.uid && a.spec == original.spec && a.labels == original.labels
    && Heirloom(original.uid, original.annotations, a.annotations)
    && !a.deleting && a.generation == 1
  }

  lemma TaskReturns(s0: State, s: State, k: nat, original: Agent, now: string) returns (t: State)
    requires Leads(s0, s) && s.pc.Idle? && s.cr == None && k in s.tasks && s.tasks[k] == TaskFor(original, now)
    requires original.uid < s.nextUid
    ensures Leads(s0, t) && t.pc.Idle? && t.cr.Some? && Heir(t.cr.value, original)
    ensures t.pods == s.pods && t.nextPod == s.nextPod && t.name == s.name && k !in t.tasks
  {
    HeirloomOfResurrection(original.uid, original.annotations, now);
    hide Leads, ResurrectedAnnotations, Heirloom;
    LeadsOn(s0, s, TaskCreates(k));
    t := Step(s, TaskCreates(k));
  }

  /**
   The promise of self-healing: from any state in which an Agent with healing on is being deleted and the worker is
   idle, undisturbed work brings it back under a new uid, with its spec and labels and its annotations but for two keys,
   and within four calls more it is settled: paused, or running the one Pod that the spec asks for.
   */
  lemma DeletedAgentRunsAgain(w: Controller.World, s: State, now: string)
    returns (t: State, u: State, w': Controller.World)
    requires Represents(w, s) && Inv(s) && s.pc.Idle? && w.agent.deleting && !w.agent.spec.selfHealingDisabled
    ensures Leads(s, t) && t.cr.Some? && Heir(t.cr.value, w.agent)
    ensures Leads(t, u) && Represents(w', u) && Controller.Settled(s.name, w') && w'.agent.spec == w.agent.spec
    ensures u.cr.Some? && u.cr.value.spec == w.agent.spec
  {
    hide Leads, Inv, PodsMatch, SameAgent, Heirloom, NoneLive, ResurrectedAnnotations, Controller.Settled,
      Controller.Calls;
    var t0 := DeletionIsARun(w, s, now);
    UidIsOld(w, s);
    t := TaskReturns(s, t0, s.nextTask, w.agent, now);
    var back := Controller.World(t.cr.value, Controller.LetGo(s.name, w.pods), w.services, w.nextPod);
    PodsMatchIgnoresPc(back.pods, w.nextPod, t0, t);
    assert Represents(back, t) by {
      SameAsItself(t.cr.value);
    }
    LeadsKeepsInv(s, t);
    NoneLiveStays(t0, t);
    NothingLiveIsWellformed(back, t);
    Controller.FourCallsConverge(s.name, back, 0);
    u := CallsAreARun(back, t, 4);
    w' := Controller.Calls(s.name, back, 4);
    SameAgentFields(w', u);
  }

  lemma SameAsItself(a: Agent)
    ensures SameAgent(a, a)
  {
  }

  lemma NoneLiveStays(s: State, t: State)
    requires NoneLive(s) && t.pods == s.pods
    ensures NoneLive(t)
  {
    assert forall i :: Live(t, i) <==> Live(s, i);
  }

  lemma UidIsOld(w: Controller.World, s: State)
    requires Represents(w, s) && Inv(s)
    ensures w.agent.uid < s.nextUid
  {
    assert VersionOk(s, s.cr.value);
  }

  lemma NothingLiveIsWellformed(w: Controller.World, s: State)
    requires Represents(w, s) && Inv(s) && NoneLive(s) && !w.agent.deleting
    ensures Controller.Wellformed(s.name, w)
  {
    hide Selects, BuildPod, SpecChanged, Controller.Recognizable;
    assert VersionOk(s, s.cr.value);
    Controller.RecognizableIff(s.name, w.agent.generation, w.agent.spec);
    forall i | 0 <= i < |w.pods|
      ensures !Controller.IsOwnPod(s.name, w.pods[i])
    {
      assert Holds(s, w.pods[i]);
      assert !Live(s, w.pods[i].id);
    }
  }
}
