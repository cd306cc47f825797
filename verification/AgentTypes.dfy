/**
 The Agent resource, the Pod built from it, and the decision the reconciler takes after it has
 looked at both. These are shared by the interleaving model (Lifecycle) and by the sequential
 reconciler (Controller).
 */
module AgentTypes {
  import opened Wrappers
  import Decimal

  // Label and annotation keys. The program gives meaning to a few strings; they are constructors here,
  // and every other string is Other.
  datatype Key =
    | PodOwner           // orchestrator.dev/agent
    | ManagedBy          // app.kubernetes.io/managed-by
    | App                // app
    | Generation         // orchestrator.dev/generation
    | ResurrectedAt      // orchestrator.dev/resurrected-at
    | ResurrectionUid    // orchestrator.dev/resurrection-uid
    | RestartAt          // orchestrator.dev/restart-at
    | Other(text: string)

  type Tags = map<Key, string>

  const MANAGER := "k8s-agent-orchestrator"

  datatype EnvVar = EnvVar(name: string, value: string, valueFrom: Option<string>)

  datatype PullPolicy = DefaultPull | AlwaysPull | NeverPull | PullIfNotPresent

  datatype RestartPolicy = DefaultRestart | AlwaysRestart | RestartOnFailure | NeverRestart

  datatype Protocol = DefaultProtocol | TCP | UDP | SCTP

  // Nested Kubernetes values that no decision looks into are carried as strings.
  datatype Spec = Spec(
    image: string,
    imagePullPolicy: PullPolicy,
    imagePullSecrets: seq<string>,
    env: seq<EnvVar>,
    envFrom: seq<string>,
    resources: string,
    serviceAccountName: string,
    command: seq<string>,
    args: seq<string>,
    volumes: seq<string>,
    volumeMounts: seq<string>,
    restartPolicy: RestartPolicy,
    podLabels: Tags,
    podAnnotations: Tags,
    paused: bool,
    selfHealingDisabled: bool,
    servicePort: int,
    serviceProtocol: Protocol,
    idleTimeout: int)

  datatype Phase = NoPhase | Pending | Running | Failed | Stopped | Updating

  datatype PodPhase = PodPending | PodRunning | PodSucceeded | PodFailed | PodUnknown

  datatype Message = NoMessage | AgentIsPaused | ApplyingSpecUpdate | PodIs(pod: nat, podPhase: PodPhase)

  // The timestamp lastUpdated is not modelled.
  datatype Status = Status(phase: Phase, podName: Option<nat>, message: Message,
                           observedGeneration: nat, serviceName: string)

  datatype Agent = Agent(
    uid: nat,
    resourceVersion: nat,
    generation: nat,
    labels: Tags,
    annotations: Tags,
    finalizer: bool,
    deleting: bool,
    spec: Spec,
    status: Status)

  // What a resurrection goroutine works with: the uid of the Agent that went, and what the new one is to carry.
  datatype Task = Task(original: nat, spec: Spec, labels: Tags, annotations: Tags)

  datatype Container = Container(image: string, pullPolicy: PullPolicy, env: seq<EnvVar>, envFrom: seq<string>,
                                 resources: string, command: seq<string>, args: seq<string>,
                                 volumeMounts: seq<string>)

  datatype PodSpec = PodSpec(container: Container, restartPolicy: RestartPolicy, serviceAccountName: string,
                             imagePullSecrets: seq<string>, volumes: seq<string>)

  // The part of a Pod that is fixed when it is created.
  datatype PodTemplate = PodTemplate(labels: Tags, annotations: Tags, spec: PodSpec)

  function BuildPod(name: string, generation: nat, spec: Spec): PodTemplate {
    PodTemplate(
      OwnLabels(name) + spec.podLabels,
      map[Generation := Decimal.ToString(generation)] + spec.podAnnotations,
      PodSpec(
        Container(spec.image, if spec.imagePullPolicy.DefaultPull? then PullIfNotPresent else spec.imagePullPolicy,
                  spec.env, spec.envFrom, spec.resources, spec.command, spec.args, spec.volumeMounts),
        if spec.restartPolicy.DefaultRestart? then AlwaysRestart else spec.restartPolicy,
        spec.serviceAccountName,
        spec.imagePullSecrets,
        spec.volumes))
  }

  // The Pod runs what the spec says, field by field; a policy that the spec leaves open is the default one.
  predicate Runs(pod: PodTemplate, s: Spec) {
    && pod.spec.container.image == s.image
    && pod.spec.container.env == s.env
    && pod.spec.container.envFrom == s.envFrom
    && pod.spec.container.resources == s.resources
    && pod.spec.container.command == s.command
    && pod.spec.container.args == s.args
    && pod.spec.container.volumeMounts == s.volumeMounts
    && pod.spec.volumes == s.volumes
    && pod.spec.serviceAccountName == s.serviceAccountName
    && pod.spec.imagePullSecrets == s.imagePullSecrets
    && (if s.imagePullPolicy == DefaultPull then pod.spec.container.pullPolicy == PullIfNotPresent
        else pod.spec.container.pullPolicy == s.imagePullPolicy)
    && (if s.restartPolicy == DefaultRestart then pod.spec.restartPolicy == AlwaysRestart
        else pod.spec.restartPolicy == s.restartPolicy)
  }

  // The Pod has the user's labels and annotations, and for the keys they leave free the owner's name, the manager, and
  // the generation. It has no others.
  predicate Marked(pod: PodTemplate, name: string, generation: nat, s: Spec) {
    && pod.labels.Keys == s.podLabels.Keys + {PodOwner, ManagedBy, App}
    && (forall k | k in s.podLabels :: pod.labels[k] == s.podLabels[k])
    && (PodOwner !in s.podLabels ==> pod.labels[PodOwner] == name)
    && (ManagedBy !in s.podLabels ==> pod.labels[ManagedBy] == "k8s-agent-orchestrator")
    && (App !in s.podLabels ==> pod.labels[App] == name)
    && pod.annotations.Keys == s.podAnnotations.Keys + {Generation}
    && (forall k | k in s.podAnnotations :: pod.annotations[k] == s.podAnnotations[k])
    && (Generation !in s.podAnnotations ==> pod.annotations[Generation] == Decimal.ToString(generation))
  }

  /** Every Pod that is built runs its spec and is marked. */
  lemma BuiltPodRuns(name: string, generation: nat, s: Spec)
    ensures Runs(BuildPod(name, generation, s), s)
    ensures Marked(BuildPod(name, generation, s), name, generation, s)
  {
  }

  // What a map says about a key, with a fallback for keys it does not have.
  function Entry(tags: Tags, fallback: Tags, k: Key): Option<string> {
    if k in tags then Some(tags[k]) else if k in fallback then Some(fallback[k]) else None
  }

  // Two specs ask for the same Pod, apart from labels and annotations.
  predicate SameWorkload(s: Spec, t: Spec) {
    && s.image == t.image && s.env == t.env && s.envFrom == t.envFrom && s.resources == t.resources
    && s.command == t.command && s.args == t.args && s.volumes == t.volumes && s.volumeMounts == t.volumeMounts
    && s.serviceAccountName == t.serviceAccountName && s.imagePullSecrets == t.imagePullSecrets
    && (s.imagePullPolicy == t.imagePullPolicy
        || {s.imagePullPolicy, t.imagePullPolicy} == {DefaultPull, PullIfNotPresent})
    && (s.restartPolicy == t.restartPolicy || {s.restartPolicy, t.restartPolicy} == {DefaultRestart, AlwaysRestart})
  }

  /**
   The Pod shows every field of the spec that concerns it: two specs get the same Pod spec only when they ask for the
   same.
   */
  lemma PodShowsTheWorkload(name: string, g: nat, h: nat, s: Spec, t: Spec)
    ensures BuildPod(name, g, s).spec == BuildPod(name, h, t).spec <==> SameWorkload(s, t)
  {
    var a, b := BuildPod(name, g, s).spec, BuildPod(name, h, t).spec;
    assert a.container.pullPolicy == b.container.pullPolicy
      <==> s.imagePullPolicy == t.imagePullPolicy
           || {s.imagePullPolicy, t.imagePullPolicy} == {DefaultPull, PullIfNotPresent} by {
      SamePair(s.imagePullPolicy, t.imagePullPolicy, DefaultPull, PullIfNotPresent);
    }
    assert a.restartPolicy == b.restartPolicy
      <==> s.restartPolicy == t.restartPolicy
           || {s.restartPolicy, t.restartPolicy} == {DefaultRestart, AlwaysRestart} by {
      SamePair(s.restartPolicy, t.restartPolicy, DefaultRestart, AlwaysRestart);
    }
  }

  lemma SamePair<T>(a: T, b: T, c: T, d: T)
    ensures {a, b} == {c, d} <==> (a == c && b == d) || (a == d && b == c)
  {
    if {a, b} == {c, d} {
      assert a in {c, d} && b in {c, d} && c in {a, b} && d in {a, b};
    }
  }

  /** User labels and annotations are all there and win over the program's own; the program's fill the other keys. */
  lemma PodShowsTheTags(name: string, g: nat, s: Spec, k: Key)
    ensures var pod := BuildPod(name, g, s);
            && Entry(pod.labels, map[], k) == Entry(s.podLabels, OwnLabels(name), k)
            && Entry(pod.annotations, map[], k) == Entry(s.podAnnotations, map[Generation := Decimal.ToString(g)], k)
  {
  }

  function OwnLabels(name: string): Tags {
    map[PodOwner := name, ManagedBy := MANAGER, App := name]
  }

  // Two specs ask for the same Pod, generation annotation apart.
  ghost predicate AskForTheSame(name: string, s: Spec, t: Spec) {
    && SameWorkload(s, t)
    && (forall k :: Entry(s.podLabels, OwnLabels(name), k) == Entry(t.podLabels, OwnLabels(name), k))
    && (forall k | k != Generation :: Entry(s.podAnnotations, map[], k) == Entry(t.podAnnotations, map[], k))
  }

  // The Pod with another generation annotation.
  function AtGeneration(pod: PodTemplate, h: nat): PodTemplate {
    pod.(annotations := pod.annotations[Generation := Decimal.ToString(h)])
  }

  lemma SameTagsIff(a: Tags, b: Tags)
    ensures a == b <==> forall k :: Entry(a, map[], k) == Entry(b, map[], k)
  {
    if forall k :: Entry(a, map[], k) == Entry(b, map[], k) {
      forall k
        ensures k in a <==> k in b
        ensures k in a ==> a[k] == b[k]
      {
        assert Entry(a, map[], k) == Entry(b, map[], k);
      }
    }
  }

  /**
   After an edit of the spec the replacement is the old Pod with a new generation annotation exactly when both specs ask
   for the same and the user does not override the annotation: such a replacement was needless.
   */
  lemma NeedlessReplacementIff(name: string, g: nat, s: Spec, h: nat, t: Spec)
    ensures BuildPod(name, h, t) == AtGeneration(BuildPod(name, g, s), h)
            <==> AskForTheSame(name, s, t)
                 && (Generation in t.podAnnotations ==> t.podAnnotations[Generation] == Decimal.ToString(h))
  {
    var before, after := AtGeneration(BuildPod(name, g, s), h), BuildPod(name, h, t);
    PodShowsTheWorkload(name, g, h, s, t);
    SameTagsIff(before.labels, after.labels);
    SameTagsIff(before.annotations, after.annotations);
    forall k
      ensures Entry(before.labels, map[], k) == Entry(s.podLabels, OwnLabels(name), k)
      ensures Entry(after.labels, map[], k) == Entry(t.podLabels, OwnLabels(name), k)
      ensures k != Generation ==> Entry(before.annotations, map[], k) == Entry(s.podAnnotations, map[], k)
      ensures k != Generation ==> Entry(after.annotations, map[], k) == Entry(t.podAnnotations, map[], k)
    {
      PodShowsTheTags(name, g, s, k);
      PodShowsTheTags(name, h, t, k);
    }
    hide Entry, SameWorkload, OwnLabels;
    assert Entry(before.annotations, map[], Generation) == Entry(after.annotations, map[], Generation)
      <==> (Generation in t.podAnnotations ==> t.podAnnotations[Generation] == Decimal.ToString(h)) by {
      GenerationEntry(name, g, s, h, t);
    }
  }

  lemma GenerationEntry(name: string, g: nat, s: Spec, h: nat, t: Spec)
    ensures Entry(AtGeneration(BuildPod(name, g, s), h).annotations, map[], Generation)
            == Some(Decimal.ToString(h))
    ensures Entry(BuildPod(name, h, t).annotations, map[], Generation)
            == Some(if Generation in t.podAnnotations then t.podAnnotations[Generation] else Decimal.ToString(h))
  {
  }

  /**
   A spec and an edit of it that leave the annotation alone build the same Pod at one generation iff they ask for the
   same.
   */
  lemma SamePodIff(name: string, h: nat, s: Spec, t: Spec)
    requires Generation !in s.podAnnotations && Generation !in t.podAnnotations
    ensures BuildPod(name, h, s) == BuildPod(name, h, t) <==> AskForTheSame(name, s, t)
  {
    NeedlessReplacementIff(name, h, s, h, t);
    assert BuildPod(name, h, s).annotations[Generation] == Decimal.ToString(h);
    assert AtGeneration(BuildPod(name, h, s), h) == BuildPod(name, h, s);
    hide BuildPod, AskForTheSame;
  }

  // An edit of the fields that control the agent, and an edit that spells a default out, are needless in this sense.
  lemma NeedlessEdits(name: string, s: Spec, t: Spec)
    requires t == s.(paused := t.paused, selfHealingDisabled := t.selfHealingDisabled, servicePort := t.servicePort,
                     serviceProtocol := t.serviceProtocol, idleTimeout := t.idleTimeout)
    ensures AskForTheSame(name, s, t)
    ensures s.imagePullPolicy.DefaultPull? ==> AskForTheSame(name, s, t.(imagePullPolicy := PullIfNotPresent))
  {
  }

  // The label selector that findAgentPod lists with.
  predicate Selects(name: string, pod: PodTemplate) {
    && PodOwner in pod.labels && pod.labels[PodOwner] == name
    && ManagedBy in pod.labels && pod.labels[ManagedBy] == MANAGER
  }

  // A missing annotation reads as the empty string.
  predicate SpecChanged(generation: nat, pod: PodTemplate) {
    (if Generation in pod.annotations then pod.annotations[Generation] else "") != Decimal.ToString(generation)
  }

  // The user's Pod labels leave the two selector keys at their values.
  predicate KeepsSelector(name: string, spec: Spec) {
    && (PodOwner in spec.podLabels ==> spec.podLabels[PodOwner] == name)
    && (ManagedBy in spec.podLabels ==> spec.podLabels[ManagedBy] == MANAGER)
  }

  predicate KeepsReserved(name: string, spec: Spec) {
    KeepsSelector(name, spec) && Generation !in spec.podAnnotations
  }

  /** The selector finds a built Pod exactly when the user's labels keep the two selector keys. */
  lemma SelectsBuiltPodIff(name: string, generation: nat, spec: Spec)
    ensures Selects(name, BuildPod(name, generation, spec)) <==> KeepsSelector(name, spec)
  {
  }

  /**
   A Pod built at generation h reads as changed at generation g exactly when g differs from h,
   as long as the user's annotations leave the generation key alone.
   */
  lemma SpecChangedIff(name: string, g: nat, h: nat, spec: Spec)
    requires Generation !in spec.podAnnotations
    ensures SpecChanged(g, BuildPod(name, h, spec)) <==> g != h
  {
    if Decimal.ToString(g) == Decimal.ToString(h) {
      Decimal.Injective(g, h);
    }
  }

  /**
   With the generation key overridden, a freshly built Pod reads as changed unless the override happens to
   be the generation, so of two consecutive generations at least one is rebuilt for ever.
   */
  lemma OverriddenGenerationIff(name: string, g: nat, spec: Spec)
    requires Generation in spec.podAnnotations
    ensures SpecChanged(g, BuildPod(name, g, spec)) <==> spec.podAnnotations[Generation] != Decimal.ToString(g)
    ensures SpecChanged(g, BuildPod(name, g, spec)) || SpecChanged(g + 1, BuildPod(name, g + 1, spec))
  {
    if Decimal.ToString(g) == Decimal.ToString(g + 1) {
      Decimal.Injective(g, g + 1);
    }
  }

  datatype Decision =
    | AddFinalizer
    | DeletePodForPause
    | ReportPaused
    | CreatePod
    | ReplacePod
    | SyncStatus

  // What Reconcile does with an Agent that is not being deleted, given the Pod it found.
  function Decide(agent: Agent, pod: Option<PodTemplate>): Decision {
    if !agent.finalizer then AddFinalizer
    else if agent.spec.paused then (if pod.Some? then DeletePodForPause else ReportPaused)
    else if pod.None? then CreatePod
    else if SpecChanged(agent.generation, pod.value) then ReplacePod
    else SyncStatus
  }
}
