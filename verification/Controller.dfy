/**
 One Reconcile call, performed without interference and without API faults, as a program over the objects in
 the API server; and what repeated calls lead to. The retry loop of the resurrection goroutine is here too.
 */
module Controller {
  import opened Wrappers
  import opened AgentTypes
  import Decimal

  datatype PodObject = PodObject(id: nat, template: PodTemplate, terminating: bool, phase: PodPhase)

  datatype ServicePort = ServicePort(protocol: Protocol, port: int, targetPort: int)

  datatype Service = Service(labels: Tags, selector: Tags, ports: seq<ServicePort>)

  // What the API server holds in one namespace, with one Agent singled out. Services are keyed by name.
  datatype World = World(agent: Agent, pods: seq<PodObject>, services: map<string, Service>, nextPod: nat)

  // ------------------------------------------------------------------ services

  predicate IsDigit(c: char) {
    '0' <= c <= '9'
  }

  function ServiceNameFor(agentName: string): string {
    if |agentName| > 0 && IsDigit(agentName[0]) then "agt-" + agentName else agentName
  }

  /** A Service name never starts with a digit (section 2.3.1 of RFC 1035), and is empty only for the empty name. */
  lemma ServiceNameStart(a: string)
    ensures ServiceNameFor(a) == [] <==> a == []
    ensures a != [] ==> !IsDigit(ServiceNameFor(a)[0])
  {
  }

  /** Two agents share a Service name exactly when they are equal or one is the other's "agt-" form. */
  lemma ServiceNamesCollideIff(a: string, b: string)
    ensures ServiceNameFor(a) == ServiceNameFor(b)
            <==> a == b
                 || (a != [] && IsDigit(a[0]) && b == "agt-" + a)
                 || (b != [] && IsDigit(b[0]) && a == "agt-" + b)
  {
    if ServiceNameFor(a) == ServiceNameFor(b) && a != [] && b != [] && IsDigit(a[0]) && IsDigit(b[0]) {
      assert a == ServiceNameFor(a)[4..] && b == ServiceNameFor(b)[4..];
    }
  }

  function ProtocolOf(spec: Spec): Protocol {
    if spec.serviceProtocol.DefaultProtocol? then TCP else spec.serviceProtocol
  }

  function DesiredPorts(spec: Spec): seq<ServicePort> {
    [ServicePort(ProtocolOf(spec), spec.servicePort, spec.servicePort)]
  }

  function NewService(name: string, spec: Spec): Service {
    Service(map[ManagedBy := MANAGER, PodOwner := name], map[PodOwner := name, ManagedBy := MANAGER],
        DesiredPorts(spec))
  }

  // The comparison that decides whether an existing Service is patched.
  predicate Drifted(service: Service, spec: Spec) {
    |service.ports| != 1 || service.ports[0].port != spec.servicePort || service.ports[0].protocol != ProtocolOf(spec)
  }

  function ServicesAfter(services: map<string, Service>, name: string, spec: Spec): map<string, Service> {
    var svc := ServiceNameFor(name);
    if spec.servicePort == 0 then services - {svc}
    else if svc !in services then services[svc := NewService(name, spec)]
    else if Drifted(services[svc], spec) then services[svc := services[svc].(ports := DesiredPorts(spec))]
    else services
  }

  function ServiceNameAfter(services: map<string, Service>, name: string, spec: Spec, reported: string): string {
    if spec.servicePort != 0 then ServiceNameFor(name)
    else if ServiceNameFor(name) in services then ""
    else reported
  }

  /** After the call the agent's Service exists exactly when a port is asked for, with that port and protocol. */
  lemma ServiceMatchesSpec(services: map<string, Service>, name: string, spec: Spec)
    ensures var after, svc := ServicesAfter(services, name, spec), ServiceNameFor(name);
            && (svc in after <==> spec.servicePort != 0)
            && (svc in after ==> !Drifted(after[svc], spec))
            && (forall other | other != svc :: other in after <==> other in services)
            && (forall other | other != svc && other in services :: after[other] == services[other])
            && ServicesAfter(after, name, spec) == after
  {
  }

  /**
   Said in full: the port and protocol asked for, TCP when none is named, and the target port when the call wrote the
   ports; a new Service selects exactly the Pods that the controller would find; an existing one keeps its selector.
   */
  lemma ServiceSays(services: map<string, Service>, name: string, spec: Spec)
    requires spec.servicePort != 0
    ensures ServiceNameFor(name) in ServicesAfter(services, name, spec)
    ensures var svc := ServiceNameFor(name);
            var x := ServicesAfter(services, name, spec)[svc];
            var protocol := if spec.serviceProtocol == DefaultProtocol then TCP else spec.serviceProtocol;
            && |x.ports| == 1 && x.ports[0].port == spec.servicePort && x.ports[0].protocol == protocol
            && (svc in services && services[svc].ports != x.ports ==> x.ports[0].targetPort == spec.servicePort)
            && (svc in services ==> x.selector == services[svc].selector && x.labels == services[svc].labels)
            && (svc in services && services[svc].ports == [ServicePort(protocol, spec.servicePort, spec.servicePort)]
                ==> x == services[svc])
    ensures var svc := ServiceNameFor(name);
            var x := ServicesAfter(services, name, spec)[svc];
            svc !in services ==>
              && x.ports[0].targetPort == spec.servicePort
              && x.labels == map[ManagedBy := "k8s-agent-orchestrator", PodOwner := name]
              && forall pod: PodTemplate :: Covered(x.selector, pod.labels) <==> Selects(name, pod)
  {
    var svc := ServiceNameFor(name);
    hide ServiceNameFor;
    if svc !in services {
      var x := ServicesAfter(services, name, spec)[svc];
      forall pod: PodTemplate
        ensures Covered(x.selector, pod.labels) <==> Selects(name, pod)
      {
        assert PodOwner in x.selector && ManagedBy in x.selector;
      }
    }
  }

  // Every entry of the selector is among the labels.
  predicate Covered(selector: Tags, labels: Tags) {
    forall k | k in selector :: k in labels && labels[k] == selector[k]
  }

  /** Without a port the call removes the Service and its name from the status. */
  lemma ServiceGoes(services: map<string, Service>, name: string, spec: Spec, reported: string)
    ensures spec.servicePort == 0 ==> ServiceNameFor(name) !in ServicesAfter(services, name, spec)
    ensures spec.servicePort == 0 && ServiceNameFor(name) in services
            ==> ServiceNameAfter(services, name, spec, reported) == ""
    ensures spec.servicePort == 0 && ServiceNameFor(name) !in services
            ==> ServiceNameAfter(services, name, spec, reported) == reported
  {
  }

  /** Reconciling the Services of two agents whose Service names differ gives the same result in either order. */
  lemma ServiceCallsCommute(services: map<string, Service>, a: string, specA: Spec, b: string, specB: Spec)
    requires ServiceNameFor(a) != ServiceNameFor(b)
    ensures ServicesAfter(ServicesAfter(services, a, specA), b, specB)
            == ServicesAfter(ServicesAfter(services, b, specB), a, specA)
  {
    var x, y := ServiceNameFor(a), ServiceNameFor(b);
    var ab := ServicesAfter(ServicesAfter(services, a, specA), b, specB);
    var ba := ServicesAfter(ServicesAfter(services, b, specB), a, specA);
    hide ServiceNameFor, DesiredPorts, NewService, Drifted;
    assert ab.Keys == ba.Keys;
    forall n | n in ab
      ensures ab[n] == ba[n]
    {
    }
  }

  // ------------------------------------------------------------------ the specification of Reconcile

  predicate IsOwnPod(name: string, pod: PodObject) {
    !pod.terminating && Selects(name, pod.template)
  }

  // The index of the first Pod that is ours and not terminating; |pods| when there is none.
  function FirstOwnPod(name: string, pods: seq<PodObject>): (i: nat)
    ensures i <= |pods|
    ensures i < |pods| ==> IsOwnPod(name, pods[i])
    ensures forall j | 0 <= j < i :: !IsOwnPod(name, pods[j])
  {
    if pods == [] then 0
    else if IsOwnPod(name, pods[0]) then 0
    else 1 + FirstOwnPod(name, pods[1..])
  }

  function PhaseOf(phase: PodPhase): Phase {
    match phase
    case PodPending => Pending
    case PodRunning => Running
    case PodSucceeded => Stopped
    case PodFailed => Failed
    case PodUnknown => Pending
  }

  function Report(agent: Agent, phase: Phase, podName: Option<nat>, message: Message): Agent {
    agent.(status := Status(phase, podName, message, agent.generation, agent.status.serviceName))
  }

  function TerminateAt(pods: seq<PodObject>, i: nat): seq<PodObject>
    requires i < |pods|
  {
    pods[i := pods[i].(terminating := true)]
  }

  function After(name: string, w: World): World {
    var i := FirstOwnPod(name, w.pods);
    var found := if i < |w.pods| then Some(w.pods[i].template) else None;
    match Decide(w.agent, found)
    case AddFinalizer => w.(agent := w.agent.(finalizer := true))
    case DeletePodForPause =>
      w.(pods := TerminateAt(w.pods, i), agent := Report(w.agent, Stopped, None, AgentIsPaused))
    case ReportPaused => w.(agent := Report(w.agent, Stopped, None, AgentIsPaused))
    case CreatePod =>
      w.(pods := w.pods + [PodObject(w.nextPod, BuildPod(name, w.agent.generation, w.agent.spec), false, PodPending)],
         nextPod := w.nextPod + 1)
    case ReplacePod =>
      w.(pods := TerminateAt(w.pods, i), agent := Report(w.agent, Updating, Some(w.pods[i].id), ApplyingSpecUpdate))
    case SyncStatus =>
      var pod := w.pods[i];
      var reported := Report(w.agent, PhaseOf(pod.phase), Some(pod.id), PodIs(pod.id, pod.phase));
      var serviceName := ServiceNameAfter(w.services, name, w.agent.spec, reported.status.serviceName);
      w.(agent := reported.(status := reported.status.(serviceName := serviceName)),
         services := ServicesAfter(w.services, name, w.agent.spec))
  }

  // ------------------------------------------------------------------ the program

  class Reconciler {
    const name: string
    var agent: Agent
    var pods: seq<PodObject>
    var services: map<string, Service>
    var nextPod: nat

    constructor (name: string, w: World)
      ensures this.name == name && Objects() == w
    {
      this.name := name;
      agent := w.agent;
      pods := w.pods;
      services := w.services;
      nextPod := w.nextPod;
    }

    ghost function Objects(): World
      reads this
    {
      World(agent, pods, services, nextPod)
    }

    method FindAgentPod() returns (found: Option<nat>)
      ensures found == if FirstOwnPod(name, pods) < |pods| then Some(FirstOwnPod(name, pods)) else None
    {
      var i := 0;
      while i < |pods|
        invariant 0 <= i <= |pods|
        invariant FirstOwnPod(name, pods) >= i
      {
        if !pods[i].terminating && Selects(name, pods[i].template) {
          return Some(i);
        }
        i := i + 1;
      }
      return None;
    }

    method UpdateStatus(phase: Phase, podName: Option<nat>, message: Message)
      modifies this`agent
      ensures agent == Report(old(agent), phase, podName, message)
    {
      var status := agent.status;
      status := status.(phase := phase);
      status := status.(podName := podName);
      status := status.(message := message);
      status := status.(observedGeneration := agent.generation);
      agent := agent.(status := status);
    }

    method DeletePodAt(i: nat)
      requires i < |pods|
      modifies this`pods
      ensures pods == TerminateAt(old(pods), i)
    {
      pods := pods[i := pods[i].(terminating := true)];
    }

    method ReconcileService()
      modifies this`agent, this`services
      ensures services == ServicesAfter(old(services), name, old(agent).spec)
      ensures agent == old(agent).(status := old(agent).status.(
                         serviceName := ServiceNameAfter(old(services), name, old(agent).spec,
                             old(agent).status.serviceName)))
    {
      var svcName := ServiceNameFor(name);
      var found := svcName in services;
      if agent.spec.servicePort == 0 {
        if found {
          services := services - {svcName};
          agent := agent.(status := agent.status.(serviceName := ""));
        }
        return;
      }
      var desiredPorts := DesiredPorts(agent.spec);
      if !found {
        services := services[svcName := NewService(name, agent.spec)];
        agent := agent.(status := agent.status.(serviceName := svcName));
        return;
      }
      var existing := services[svcName];
      if |existing.ports| != 1
         || existing.ports[0].port != agent.spec.servicePort
         || existing.ports[0].protocol != ProtocolOf(agent.spec) {
        services := services[svcName := existing.(ports := desiredPorts)];
      }
      if agent.status.serviceName != svcName {
        agent := agent.(status := agent.status.(serviceName := svcName));
      }
    }

    /** One call for an Agent that is not being deleted. */
    method Reconcile()
      requires !agent.deleting
      modifies this
      ensures Objects() == After(name, old(Objects()))
    {
      if !agent.finalizer {
        agent := agent.(finalizer := true);
        return;
      }
      var found := FindAgentPod();
      if agent.spec.paused {
        if found.Some? {
          DeletePodAt(found.value);
        }
        UpdateStatus(Stopped, None, AgentIsPaused);
        return;
      }
      if found.None? {
        pods := pods + [PodObject(nextPod, BuildPod(name, agent.generation, agent.spec), false, PodPending)];
        nextPod := nextPod + 1;
        return;
      }
      var pod := pods[found.value];
      if SpecChanged(agent.generation, pod.template) {
        UpdateStatus(Updating, Some(pod.id), ApplyingSpecUpdate);
        DeletePodAt(found.value);
        return;
      }
      UpdateStatus(PhaseOf(pod.phase), Some(pod.id), PodIs(pod.id, pod.phase));
      ReconcileService();
    }

    /** One call for an Agent that is being deleted, up to the start of the resurrection goroutine. */
    method HandleDeletion() returns (task: Option<Task>)
      requires agent.deleting
      modifies this`agent, this`pods
      ensures pods == LetGo(name, old(pods)) && agent == old(agent).(finalizer := false)
      ensures task.Some? <==> !old(agent).spec.selfHealingDisabled
      ensures task.Some? ==> task.value == Captured(old(agent))
    {
      var found := FindAgentPod();
      if found.Some? {
        DeletePodAt(found.value);
      }
      task := None;
      if !agent.spec.selfHealingDisabled {
        task := Some(Captured(agent));
      }
      agent := agent.(finalizer := false);
    }
  }

  // What is captured before the finalizer goes; the goroutine adds its two annotations.
  function Captured(agent: Agent): Task {
    Task(agent.uid, agent.spec, agent.labels, agent.annotations)
  }

  function LetGo(name: string, pods: seq<PodObject>): seq<PodObject> {
    var i := FirstOwnPod(name, pods);
    if i < |pods| then TerminateAt(pods, i) else pods
  }

  /** Deletion leaves no own Pod behind exactly when there was one at most: the call deletes only the first it finds. */
  lemma LettingGoLeavesNoneIff(name: string, pods: seq<PodObject>)
    ensures (forall i | 0 <= i < |pods| :: !IsOwnPod(name, LetGo(name, pods)[i]))
       <==> (forall i, j | 0 <= i < |pods| && 0 <= j < |pods| ::
               IsOwnPod(name, pods[i]) && IsOwnPod(name, pods[j]) ==> i == j)
    ensures |LetGo(name, pods)| == |pods|
  {
    var k := FirstOwnPod(name, pods);
    forall i | 0 <= i < |pods|
      ensures IsOwnPod(name, LetGo(name, pods)[i]) <==> IsOwnPod(name, pods[i]) && i != k
    {
    }
    hide LetGo, IsOwnPod;
    if forall i | 0 <= i < |pods| :: !IsOwnPod(name, LetGo(name, pods)[i]) {
      assert forall i | 0 <= i < |pods| && IsOwnPod(name, pods[i]) :: i == k;
    }
  }

  // ------------------------------------------------------------------ convergence

  // A Pod built now is found by the selector and reads as up to date.
  predicate Recognizable(name: string, generation: nat, spec: Spec) {
    Selects(name, BuildPod(name, generation, spec)) && !SpecChanged(generation, BuildPod(name, generation, spec))
  }

  /** That is so exactly when the user's labels keep the selector and the user's annotation, if any, is right. */
  lemma RecognizableIff(name: string, generation: nat, spec: Spec)
    ensures Recognizable(name, generation, spec)
            <==> KeepsSelector(name, spec)
                 && (Generation in spec.podAnnotations ==>
                       spec.podAnnotations[Generation] == Decimal.ToString(generation))
    ensures KeepsReserved(name, spec) ==> Recognizable(name, generation, spec)
  {
    hide BuildPod, SpecChanged, Selects;
    SelectsBuiltPodIff(name, generation, spec);
    if Generation in spec.podAnnotations {
      OverriddenGenerationIff(name, generation, spec);
    } else {
      SpecChangedIff(name, generation, generation, spec);
    }
  }

  // What is proved about every reachable state: one own Pod at most, and it is what its generation says.
  predicate Consistent(name: string, w: World) {
    && !w.agent.deleting
    && (forall i, j | 0 <= i < |w.pods| && 0 <= j < |w.pods| ::
          IsOwnPod(name, w.pods[i]) && IsOwnPod(name, w.pods[j]) ==> i == j)
    && (forall i |
          0 <= i < |w.pods| && IsOwnPod(name, w.pods[i]) && !SpecChanged(w.agent.generation, w.pods[i].template) ::
          w.pods[i].template == BuildPod(name, w.agent.generation, w.agent.spec))
  }

  predicate Wellformed(name: string, w: World) {
    Consistent(name, w) && (w.agent.spec.paused || Recognizable(name, w.agent.generation, w.agent.spec))
  }

  // The objects are as the spec asks, and the status says so.
  predicate Settled(name: string, w: World) {
    && w.agent.finalizer
    && w.agent.status.observedGeneration == w.agent.generation
    && if w.agent.spec.paused then
         && (forall i | 0 <= i < |w.pods| :: !IsOwnPod(name, w.pods[i]))
         && w.agent.status.phase == Stopped && w.agent.status.podName == None && w.agent.status.message == AgentIsPaused
       else
         && (exists i | 0 <= i < |w.pods| :: RunsSpec(name, w, i))
         && (ServiceNameFor(name) in w.services <==> w.agent.spec.servicePort != 0)
         && (w.agent.spec.servicePort != 0 ==>
               && !Drifted(w.services[ServiceNameFor(name)], w.agent.spec)
               && w.agent.status.serviceName == ServiceNameFor(name))
  }

  // Pod i is the only own Pod, it was built from the current spec, and the status reports it.
  predicate RunsSpec(name: string, w: World, i: nat)
    requires i < |w.pods|
  {
    && (forall j | 0 <= j < |w.pods| :: IsOwnPod(name, w.pods[j]) <==> i == j)
    && w.pods[i].template == BuildPod(name, w.agent.generation, w.agent.spec)
    && w.agent.status.phase == PhaseOf(w.pods[i].phase)
    && w.agent.status.podName == Some(w.pods[i].id)
    && w.agent.status.message == PodIs(w.pods[i].id, w.pods[i].phase)
  }

  // How far the world is from settled, in calls.
  function Distance(name: string, w: World): nat {
    if !w.agent.finalizer then 4
    else if w.agent.spec.paused then (if Settled(name, w) then 0 else 1)
    else
      var i := FirstOwnPod(name, w.pods);
      if i == |w.pods| then 2
      else if SpecChanged(w.agent.generation, w.pods[i].template) then 3
      else if Settled(name, w) then 0
      else 1
  }

  lemma CallKeepsWellformed(name: string, w: World)
    requires Wellformed(name, w)
    ensures Wellformed(name, After(name, w))
    ensures After(name, w).agent.spec == w.agent.spec && After(name, w).agent.generation == w.agent.generation
  {
    hide BuildPod, ServicesAfter, ServiceNameAfter, SpecChanged, Recognizable, Selects;
    CallKeepsConsistent(name, w);
  }

  lemma CallKeepsConsistent(name: string, w: World)
    requires Consistent(name, w)
    ensures Consistent(name, After(name, w))
    ensures After(name, w).agent.spec == w.agent.spec && After(name, w).agent.generation == w.agent.generation
  {
    hide BuildPod, ServicesAfter, ServiceNameAfter, SpecChanged, Selects;
    var built := PodObject(w.nextPod, BuildPod(name, w.agent.generation, w.agent.spec), false, PodPending);
    assert After(name, w).pods == w.pods
        || After(name, w).pods == w.pods + [built]
        || (FirstOwnPod(name, w.pods) < |w.pods|
            && After(name, w).pods == TerminateAt(w.pods, FirstOwnPod(name, w.pods)));
  }

  // The Pod that is being replaced was the only one, so none is left for the next call.
  lemma ReplaceLeavesNone(name: string, w: World)
    requires Wellformed(name, w) && Distance(name, w) == 3
    ensures Distance(name, After(name, w)) == 2
  {
    hide BuildPod, SpecChanged, Settled;
    var w' := After(name, w);
    var i := FirstOwnPod(name, w'.pods);
    assert forall j | 0 <= j < |w.pods| && IsOwnPod(name, w'.pods[j]) :: IsOwnPod(name, w.pods[j]);
  }

  lemma CreateBuildsCurrent(name: string, w: World)
    requires Wellformed(name, w) && Distance(name, w) == 2
    ensures Distance(name, After(name, w)) <= 1
  {
    hide BuildPod, SpecChanged, Settled, Selects;
    var w' := After(name, w);
    assert IsOwnPod(name, w'.pods[|w.pods|]);
    assert forall j | 0 <= j < |w.pods| :: w'.pods[j] == w.pods[j];
  }

  lemma SyncSettles(name: string, w: World)
    requires Wellformed(name, w) && w.agent.finalizer && !w.agent.spec.paused && Distance(name, w) <= 1
    ensures Settled(name, After(name, w))
    ensures Settled(name, w) ==> After(name, w) == w
  {
    hide BuildPod, SpecChanged, Recognizable;
    var w' := After(name, w);
    var i := FirstOwnPod(name, w.pods);
    ServiceMatchesSpec(w.services, name, w.agent.spec);
    hide ServiceNameFor, Drifted;
    assert RunsSpec(name, w', i);
    if Settled(name, w) {
      var k :| 0 <= k < |w.pods| && RunsSpec(name, w, k);
      assert k == i;
    }
  }

  lemma PauseSettles(name: string, w: World)
    requires Wellformed(name, w) && w.agent.finalizer && w.agent.spec.paused
    ensures Settled(name, After(name, w))
    ensures Settled(name, w) ==> After(name, w) == w
  {
    hide BuildPod, SpecChanged, Recognizable;
    var w' := After(name, w);
    assert forall j | 0 <= j < |w.pods| && IsOwnPod(name, w'.pods[j]) :: IsOwnPod(name, w.pods[j]);
  }

  // A settled world is at distance zero.
  lemma SettledIsZero(name: string, w: World)
    requires Wellformed(name, w) && Settled(name, w)
    ensures Distance(name, w) == 0
  {
    if !w.agent.spec.paused {
      hide BuildPod, SpecChanged, Selects;
      var k :| 0 <= k < |w.pods| && RunsSpec(name, w, k);
      assert IsOwnPod(name, w.pods[k]);
    }
  }

  /** Each call brings the world strictly closer to settled, or leaves a settled world exactly as it is. */
  lemma CallGetsCloser(name: string, w: World)
    requires Wellformed(name, w)
    ensures Distance(name, w) > 0 ==> Distance(name, After(name, w)) < Distance(name, w)
    ensures Distance(name, w) == 0 <==> Settled(name, w)
    ensures Settled(name, w) ==> After(name, w) == w
  {
    hide BuildPod, SpecChanged, Recognizable;
    var w' := After(name, w);
    CallKeepsWellformed(name, w);
    if Settled(name, w) {
      SettledIsZero(name, w);
    }
    hide Settled, Wellformed;
    if w.agent.finalizer {
      if w.agent.spec.paused {
        PauseSettles(name, w);
        SettledIsZero(name, w');
      } else if Distance(name, w) == 3 {
        ReplaceLeavesNone(name, w);
      } else if Distance(name, w) == 2 {
        CreateBuildsCurrent(name, w);
      } else {
        SyncSettles(name, w);
        SettledIsZero(name, w');
      }
    }
  }

  function Calls(name: string, w: World, n: nat): World
    decreases n
  {
    if n == 0 then w else Calls(name, After(name, w), n - 1)
  }

  lemma {:induction false} CallsSettle(name: string, w: World, n: nat)
    requires Wellformed(name, w) && Distance(name, w) <= n
    ensures Settled(name, Calls(name, w, n))
    decreases n
  {
    hide Wellformed, Settled, Distance, After;
    CallGetsCloser(name, w);
    if n > 0 {
      CallKeepsWellformed(name, w);
      CallsSettle(name, After(name, w), n - 1);
    }
  }

  lemma {:induction false} SettledStays(name: string, w: World, n: nat, more: nat)
    requires Wellformed(name, w) && Settled(name, Calls(name, w, n))
    ensures Calls(name, w, n + more) == Calls(name, w, n)
    decreases more
  {
    hide Wellformed, Settled, Distance, After, Calls;
    CallsKeep(name, w, n);
    if more > 0 {
      SettledStays(name, w, n, more - 1);
      CallsOneMore(name, w, n + more - 1);
      CallGetsCloser(name, Calls(name, w, n));
    }
  }

  /** Four calls settle any well-formed world, and further calls change nothing. */
  lemma FourCallsConverge(name: string, w: World, more: nat)
    requires Wellformed(name, w)
    ensures Settled(name, Calls(name, w, 4))
    ensures Calls(name, w, 4 + more) == Calls(name, w, 4)
    ensures Calls(name, w, 4).agent.spec == w.agent.spec && Calls(name, w, 4).agent.generation == w.agent.generation
  {
    hide Wellformed, Settled, After, Calls;
    assert Distance(name, w) <= 4;
    hide Distance;
    CallsSettle(name, w, 4);
    CallsKeep(name, w, 4);
    SettledStays(name, w, 4, more);
  }

  /**
   What a user sees four calls after the last disturbance of an Agent that is not paused: one Pod of its own, which runs
   the spec; the phase of that Pod, reported under the Agent's names for it; and the Service that was asked for.
   */
  lemma FourCallsReport(name: string, w: World) returns (k: nat)
    requires Wellformed(name, w) && !w.agent.spec.paused
    ensures var w' := Calls(name, w, 4);
            && k < |w'.pods|
            && (forall j | 0 <= j < |w'.pods| :: IsOwnPod(name, w'.pods[j]) <==> j == k)
            && Runs(w'.pods[k].template, w.agent.spec)
            && Marked(w'.pods[k].template, name, w.agent.generation, w.agent.spec)
    ensures var w' := Calls(name, w, 4);
            var status, pod := w'.agent.status, w'.pods[k];
            && (status.phase == Running <==> pod.phase == PodRunning)
            && (status.phase == Failed <==> pod.phase == PodFailed)
            && (status.phase == Stopped <==> pod.phase == PodSucceeded)
            && (status.phase == Pending <==> pod.phase == PodPending || pod.phase == PodUnknown)
            && status.podName == Some(pod.id)
            && status.message == PodIs(pod.id, pod.phase)
            && status.observedGeneration == w.agent.generation
    ensures var w', svc := Calls(name, w, 4), ServiceNameFor(name);
            && (svc in w'.services <==> w.agent.spec.servicePort != 0)
            && (svc in w'.services ==>
                  && w'.agent.status.serviceName == svc
                  && |w'.services[svc].ports| == 1
                  && w'.services[svc].ports[0].port == w.agent.spec.servicePort
                  && w'.services[svc].ports[0].protocol
                     == if w.agent.spec.serviceProtocol == DefaultProtocol then TCP else w.agent.spec.serviceProtocol)
  {
    hide Wellformed, After, Calls, BuildPod, IsOwnPod, Runs, Marked, ServiceNameFor;
    FourCallsConverge(name, w, 0);
    var w' := Calls(name, w, 4);
    k :| 0 <= k < |w'.pods| && RunsSpec(name, w', k);
    BuiltPodRuns(name, w.agent.generation, w.agent.spec);
  }

  /** Four calls after the last disturbance of a paused Agent it has no Pod, and is reported as stopped. */
  lemma FourCallsPause(name: string, w: World)
    requires Wellformed(name, w) && w.agent.spec.paused
    ensures var w' := Calls(name, w, 4);
            && (forall j | 0 <= j < |w'.pods| :: !IsOwnPod(name, w'.pods[j]))
            && w'.agent.status.phase == Stopped && w'.agent.status.podName == None
            && w'.agent.status.message == AgentIsPaused && w'.agent.status.observedGeneration == w.agent.generation
  {
    hide Wellformed, After, Calls, BuildPod, IsOwnPod;
    FourCallsConverge(name, w, 0);
  }

  /** A call that replaces a Pod reports the update, under that Pod's name, and deletes that Pod and no other. */
  lemma ReplacementReport(name: string, w: World, i: nat)
    requires w.agent.finalizer && !w.agent.spec.paused && i < |w.pods| && IsOwnPod(name, w.pods[i])
    requires forall j | 0 <= j < i :: !IsOwnPod(name, w.pods[j])
    requires Generation in w.pods[i].template.annotations
    requires w.pods[i].template.annotations[Generation] != Decimal.ToString(w.agent.generation)
    ensures var w' := After(name, w);
            && w'.agent.status.phase == Updating && w'.agent.status.podName == Some(w.pods[i].id)
            && w'.agent.status.message == ApplyingSpecUpdate
            && w'.agent.status.observedGeneration == w.agent.generation
            && |w'.pods| == |w.pods| && w'.pods[i] == w.pods[i].(terminating := true)
            && forall j | 0 <= j < |w.pods| && j != i :: w'.pods[j] == w.pods[j]
  {
    assert FirstOwnPod(name, w.pods) == i;
    hide BuildPod, IsOwnPod;
  }

  lemma {:induction false} CallsKeep(name: string, w: World, n: nat)
    requires Wellformed(name, w)
    ensures Wellformed(name, Calls(name, w, n))
    ensures Calls(name, w, n).agent.spec == w.agent.spec && Calls(name, w, n).agent.generation == w.agent.generation
    decreases n
  {
    hide Wellformed, After;
    if n > 0 {
      CallKeepsWellformed(name, w);
      CallsKeep(name, After(name, w), n - 1);
    }
  }

  lemma {:induction false} CallsOneMore(name: string, w: World, n: nat)
    ensures Calls(name, w, n + 1) == After(name, Calls(name, w, n))
    decreases n
  {
    hide After;
    if n > 0 {
      CallsOneMore(name, After(name, w), n - 1);
    }
  }

  // ------------------------------------------------------------------ and when repeated calls do not settle

  // Every own Pod reads as changed, and so will the next, or it will not be found.
  predicate Restless(name: string, w: World) {
    && !w.agent.spec.paused && !Recognizable(name, w.agent.generation, w.agent.spec)
    && forall i | 0 <= i < |w.pods| && IsOwnPod(name, w.pods[i]) :: SpecChanged(w.agent.generation, w.pods[i].template)
  }

  lemma ConsistentIsRestless(name: string, w: World)
    requires Consistent(name, w) && !w.agent.spec.paused && !Recognizable(name, w.agent.generation, w.agent.spec)
    ensures Restless(name, w)
  {
    hide BuildPod, SpecChanged, Selects;
  }

  lemma RestlessChanges(name: string, w: World)
    requires Restless(name, w)
    ensures After(name, w) != w && Restless(name, After(name, w))
  {
    hide BuildPod, SpecChanged, Selects, ServicesAfter, ServiceNameAfter;
    var i := FirstOwnPod(name, w.pods);
    var w' := After(name, w);
    assert w'.agent.spec == w.agent.spec && w'.agent.generation == w.agent.generation;
    if w.agent.finalizer && i < |w.pods| {
      assert w'.pods[i].terminating && !w.pods[i].terminating;
      assert forall j | 0 <= j < |w.pods| && j != i :: w'.pods[j] == w.pods[j];
    } else if w.agent.finalizer {
      assert |w'.pods| == |w.pods| + 1;
      assert forall j | 0 <= j < |w.pods| :: w'.pods[j] == w.pods[j];
    }
  }

  lemma {:induction false} NeverRests(name: string, w: World, n: nat)
    requires Restless(name, w)
    ensures Restless(name, Calls(name, w, n)) && Calls(name, w, n + 1) != Calls(name, w, n)
    decreases n
  {
    hide Restless, After;
    RestlessChanges(name, w);
    if n == 0 {
      CallsOneMore(name, w, 0);
    } else {
      NeverRests(name, After(name, w), n - 1);
    }
  }

  /**
   An Agent that is not paused settles within four calls, for good, exactly when a Pod built for it can be recognized.
   When the user overrides a reserved key so that it cannot, every call for ever changes something.
   */
  lemma SettlesIff(name: string, w: World)
    requires Consistent(name, w) && !w.agent.spec.paused
    ensures Recognizable(name, w.agent.generation, w.agent.spec)
            <==> exists n: nat :: Calls(name, w, n + 1) == Calls(name, w, n)
    ensures Recognizable(name, w.agent.generation, w.agent.spec)
            ==> Settled(name, Calls(name, w, 4)) && Calls(name, w, 5) == Calls(name, w, 4)
  {
    hide Settled, After, Recognizable, Consistent, Calls;
    if Recognizable(name, w.agent.generation, w.agent.spec) {
      FourCallsConverge(name, w, 1);
      assert Calls(name, w, 4 + 1) == Calls(name, w, 4);
    } else {
      ConsistentIsRestless(name, w);
      forall n: nat
        ensures Calls(name, w, n + 1) != Calls(name, w, n)
      {
        NeverRests(name, w, n);
      }
    }
  }

  /** With the labels overridden, each call adds one more Pod that no call will ever find. */
  lemma {:induction false} UnfoundPodsPileUp(name: string, w: World, n: nat)
    requires w.agent.finalizer && !w.agent.spec.paused && !KeepsSelector(name, w.agent.spec)
    requires FirstOwnPod(name, w.pods) == |w.pods|
    ensures var w' := Calls(name, w, n);
            && |w'.pods| == |w.pods| + n && w'.pods[..|w.pods|] == w.pods
            && (forall i | |w.pods| <= i < |w'.pods| :: !w'.pods[i].terminating)
            && FirstOwnPod(name, w'.pods) == |w'.pods|
    decreases n
  {
    hide BuildPod, SpecChanged, KeepsSelector;
    if n > 0 {
      var w1 := After(name, w);
      SelectsBuiltPodIff(name, w.agent.generation, w.agent.spec);
      assert forall j | 0 <= j < |w.pods| :: w1.pods[j] == w.pods[j] && !IsOwnPod(name, w.pods[j]);
      assert !IsOwnPod(name, w1.pods[|w.pods|]);
      UnfoundPodsPileUp(name, w1, n - 1);
      var w' := Calls(name, w1, n - 1);
      assert w'.pods[|w.pods|] == w'.pods[..|w1.pods|][|w.pods|] == w1.pods[|w.pods|];
      assert w'.pods[..|w.pods|] == w'.pods[..|w1.pods|][..|w.pods|] == w1.pods[..|w.pods|];
    }
  }

  /** Four is needed: an Agent without its finalizer and with an outdated Pod takes all four. */
  lemma ThreeCallsMayNotConverge(name: string, spec: Spec)
    requires KeepsReserved(name, spec) && !spec.paused
    ensures exists w :: Wellformed(name, w) && !Settled(name, Calls(name, w, 3))
  {
    var agent := Agent(0, 0, 2, map[], map[], false, false, spec, Status(NoPhase, None, NoMessage, 0, ""));
    var outdated := PodObject(0, BuildPod(name, 1, spec), false, PodRunning);
    var w := World(agent, [outdated], map[], 1);
    SelectsBuiltPodIff(name, 1, spec);
    SpecChangedIff(name, 2, 1, spec);
    RecognizableIff(name, 2, spec);
    assert Wellformed(name, w);
    hide BuildPod, SpecChanged, Recognizable;
    var w1 := After(name, w);
    assert FirstOwnPod(name, w1.pods) == 0;
    var w2 := After(name, w1);
    assert FirstOwnPod(name, w2.pods) == 1 by {
      assert !IsOwnPod(name, w2.pods[0]);
    }
    var w3 := After(name, w2);
    assert w3.agent.status.phase == Updating;
    assert Calls(name, w, 3) == w3 by {
      assert Calls(name, w, 3) == Calls(name, w1, 2) == Calls(name, w2, 1) == Calls(name, w3, 0);
    }
  }

  // ------------------------------------------------------------------ the resurrection loop

  datatype CreateAnswer = Created | AlreadyExists | OtherError

  datatype GetAnswer = Unreadable | Existing(uid: nat)

  datatype Outcome = Resurrected | Skipped | GaveUp

  const MAX_ATTEMPTS := 15

  // Attempt k found an Agent under the name that is not the one being resurrected.
  predicate FoundAnother(original: nat, creates: nat -> CreateAnswer, gets: nat -> GetAnswer, k: nat) {
    creates(k) == AlreadyExists && gets(k).Existing? && gets(k).uid != original
  }

  predicate Ends(original: nat, creates: nat -> CreateAnswer, gets: nat -> GetAnswer, k: nat) {
    creates(k) == Created || FoundAnother(original, creates, gets, k)
  }

  // The sleeps before attempts 1 to k, in ms.
  function SleepBefore(k: nat): nat {
    if k == 0 then 0 else SleepBefore(k - 1) + k * 300
  }

  /** The sleeps before attempt k add up to 150 k (k + 1) ms. */
  lemma {:induction false} SleepTotal(k: nat)
    ensures SleepBefore(k) == 150 * (k * (k + 1))
  {
    if k > 0 {
      SleepTotal(k - 1);
      assert (k - 1) * k == k * (k + 1) - 2 * k;
    }
  }

  /** The whole loop sleeps 36 s at most. */
  lemma SleepBound(k: nat)
    requires k <= MAX_ATTEMPTS
    ensures SleepBefore(k) <= SleepBefore(MAX_ATTEMPTS) == 36000
  {
    SleepTotal(MAX_ATTEMPTS);
    SleepGrows(k, MAX_ATTEMPTS);
  }

  lemma {:induction false} SleepGrows(j: nat, k: nat)
    requires j <= k
    ensures SleepBefore(j) <= SleepBefore(k)
  {
    if j < k {
      SleepGrows(j, k - 1);
    }
  }

  /**
   The goroutine's retry loop. creates(k) and gets(k) are what the API server answers at attempt k. The loop ends at the
   first attempt whose answers settle the matter.
   */
  method Resurrect(original: nat, creates: nat -> CreateAnswer, gets: nat -> GetAnswer)
    returns (outcome: Outcome, attempts: nat, sleptMs: nat)
    ensures Settles(original, creates, gets, outcome, attempts)
    ensures 1 <= attempts <= 15
    ensures forall k | 1 <= k < attempts ::
              creates(k) != Created && (creates(k) == AlreadyExists && gets(k).Existing? ==> gets(k).uid == original)
    ensures outcome == Resurrected <==> creates(attempts) == Created
    ensures outcome == Skipped
            <==> creates(attempts) == AlreadyExists && gets(attempts).Existing? && gets(attempts).uid != original
    ensures outcome == GaveUp <==> forall k | 1 <= k <= 15 :: !Ends(original, creates, gets, k)
    ensures sleptMs == SleepBefore(attempts)
  {
    attempts := 0;
    sleptMs := 0;
    while attempts < MAX_ATTEMPTS
      invariant 0 <= attempts <= MAX_ATTEMPTS
      invariant sleptMs == SleepBefore(attempts)
      invariant forall k | 1 <= k <= attempts :: !Ends(original, creates, gets, k)
      invariant forall k | 1 <= k <= attempts ::
                  && creates(k) != Created
                  && (creates(k) == AlreadyExists && gets(k).Existing? ==> gets(k).uid == original)
    {
      attempts := attempts + 1;
      sleptMs := sleptMs + attempts * 300;
      var answer := creates(attempts);
      if answer == Created {
        assert Ends(original, creates, gets, attempts);
        return Resurrected, attempts, sleptMs;
      }
      if answer != AlreadyExists {
        continue;
      }
      var existing := gets(attempts);
      if existing.Unreadable? {
        continue;
      }
      if existing.uid == original {
        continue;
      }
      assert Ends(original, creates, gets, attempts);
      return Skipped, attempts, sleptMs;
    }
    assert !Ends(original, creates, gets, attempts);
    outcome := GaveUp;
  }

  // What Resurrect promises about its answer.
  ghost predicate Settles(original: nat, creates: nat -> CreateAnswer, gets: nat -> GetAnswer,
                          outcome: Outcome, attempts: nat)
  {
    && 1 <= attempts <= MAX_ATTEMPTS
    && (forall k | 1 <= k < attempts :: !Ends(original, creates, gets, k))
    && (outcome == Resurrected <==> creates(attempts) == Created)
    && (outcome == Skipped <==> FoundAnother(original, creates, gets, attempts))
    && (outcome == GaveUp ==> attempts == MAX_ATTEMPTS)
  }

  /**
   If some attempt would succeed and no attempt before it finds another Agent under the name, the Agent is back by that
   attempt.
   */
  lemma BackByTheFirstSuccess(original: nat, creates: nat -> CreateAnswer, gets: nat -> GetAnswer,
                              outcome: Outcome, attempts: nat, k: nat)
    requires Settles(original, creates, gets, outcome, attempts)
    requires 1 <= k <= MAX_ATTEMPTS && creates(k) == Created
    requires forall j | 1 <= j < k :: !FoundAnother(original, creates, gets, j)
    ensures outcome == Resurrected && attempts <= k
  {
    assert Ends(original, creates, gets, k);
    assert attempts <= k;
    if outcome == Skipped {
      assert attempts == k || !FoundAnother(original, creates, gets, attempts);
    }
  }

  /** The promise leaves one answer. */
  lemma SettlesOneWay(original: nat, creates: nat -> CreateAnswer, gets: nat -> GetAnswer,
                     o: Outcome, m: nat, p: Outcome, n: nat)
    requires Settles(original, creates, gets, o, m) && Settles(original, creates, gets, p, n)
    ensures o == p && m == n
  {
    assert o != GaveUp ==> Ends(original, creates, gets, m);
    assert p != GaveUp ==> Ends(original, creates, gets, n);
  }
}
