/** The builder installer (pkg/client/builder/install.go): a fixed sequence of "assert" steps against the
    cluster — node role, namespace, TLS secrets, service, daemonset — followed by a bounded wait for the
    daemonset to report a ready pod. */
module BuilderInstall {
  import opened Outcomes
  import opened Stores
  import opened Kube
  import opened Refs
  import opened ServerConfig
  import Cert
  import Certs
  import Text

  /** client-go's retry.DefaultRetry makes at most five attempts. */
  const DefaultRetrySteps: nat := 5
  /** The readiness wait makes at most fifteen attempts. */
  const ReadinessSteps: nat := 15

  const TimeoutMessage: string := "timeout waiting for builder to become available"
  const BuilderName: string := "builder"
  const CaSecret: string := "kim-tls-ca"
  const ServerSecret: string := "kim-tls-server"
  const ClientSecret: string := "kim-tls-client"

  // ---- container runtime detection (install.go:497-520) ----

  /** The K3s and stock containerd socket and volume paths; their values are defined outside the
      modelled files. */
  datatype RuntimeDefaults = RuntimeDefaults(k3sSocket: string, k3sVolume: string, stockSocket: string, stockVolume: string)

  datatype Runtime = EmbeddedContainerd | ExternalContainerd | Unsupported(scheme: string)

  /** The container runtime a node's runtime version URL names. */
  function DetectRuntime(u: Url): (r: Runtime)
    ensures r == EmbeddedContainerd <==> u.scheme == "containerd" && Text.Contains(u.host, "-k3s")
    ensures r == ExternalContainerd <==> u.scheme == "containerd" && !Text.Contains(u.host, "-k3s")
    ensures r.Unsupported? <==> u.scheme != "containerd"
    ensures r.Unsupported? ==> r.scheme == u.scheme
  {
    if u.scheme == "containerd" && Text.Contains(u.host, "-k3s") then EmbeddedContainerd
    else if u.scheme == "containerd" then ExternalContainerd
    else Unsupported(u.scheme)
  }

  /** A configuration field keeps a value it has and takes the default otherwise. */
  function FillDefault(current: string, default: string): (r: string)
    ensures current != "" ==> r == current
    ensures current == "" ==> r == default
  {
    if current == "" then default else current
  }

  /** labels.Merge(node.Labels, {builder: "true"}): the role label is set to "true" and every other label
      is kept as it was. */
  function WithBuilderRole(n: Node): (r: Node)
    ensures r.name == n.name && r.containerRuntimeVersion == n.containerRuntimeVersion && r.addresses == n.addresses
    ensures r.labels.Some? && BuilderRoleLabel in r.labels.value && r.labels.value[BuilderRoleLabel] == "true"
    ensures forall key | key != BuilderRoleLabel ::
      (key in r.labels.value <==> key in LabelsOf(n.labels))
      && (key in r.labels.value ==> r.labels.value[key] == LabelsOf(n.labels)[key])
  {
    n.(labels := Some(LabelsOf(n.labels)[BuilderRoleLabel := "true"]))
  }

  /** What one attempt of the node-role closure decides for the node it read and the current socket and
      volume settings: the node to write and the new settings, or the error it returns. */
  function AssignRole(n: Node, p: Parsers, socket: string, volume: string, d: RuntimeDefaults): (r: Result<(Node, string, string)>)
    ensures p.parseUrl(n.containerRuntimeVersion).Err? ==>
      r == Err(Wrapped("failed to parse container runtime version", p.parseUrl(n.containerRuntimeVersion).error))
    ensures p.parseUrl(n.containerRuntimeVersion).Ok? ==> var rt := DetectRuntime(p.parseUrl(n.containerRuntimeVersion).value);
      && (rt.Unsupported? ==> r == Err(Message("container runtime `" + rt.scheme + "` not supported")))
      && (rt == EmbeddedContainerd ==> r == Ok((WithBuilderRole(n), FillDefault(socket, d.k3sSocket), FillDefault(volume, d.k3sVolume))))
      && (rt == ExternalContainerd ==> r == Ok((WithBuilderRole(n), FillDefault(socket, d.stockSocket), FillDefault(volume, d.stockVolume))))
  {
    match p.parseUrl(n.containerRuntimeVersion)
    case Err(e) => Err(Wrapped("failed to parse container runtime version", e))
    case Ok(u) =>
      match DetectRuntime(u)
      case Unsupported(scheme) => Err(Message("container runtime `" + scheme + "` not supported"))
      case EmbeddedContainerd => Ok((WithBuilderRole(n), FillDefault(socket, d.k3sSocket), FillDefault(volume, d.k3sVolume)))
      case ExternalContainerd => Ok((WithBuilderRole(n), FillDefault(socket, d.stockSocket), FillDefault(volume, d.stockVolume)))
  }

  /** Repeating the decision with the settings it produced gives the same decision: a retried attempt
      changes nothing further. Settings that were already set are never changed. */
  lemma AssignRoleStable(n: Node, p: Parsers, socket: string, volume: string, d: RuntimeDefaults)
    requires AssignRole(n, p, socket, volume, d).Ok?
    ensures var a := AssignRole(n, p, socket, volume, d).value;
      && AssignRole(n, p, a.1, a.2, d) == AssignRole(n, p, socket, volume, d)
      && (socket != "" ==> a.1 == socket) && (volume != "" ==> a.2 == volume)
  {
  }

  /** The label the "too many nodes" message suggests: k3s.io/hostname when the first node carries it. */
  function SuggestedLabel(first: Node): (key: string)
    ensures "k3s.io/hostname" in LabelsOf(first.labels) <==> key == "k3s.io/hostname"
    ensures key == "k3s.io/hostname" || key == "kubernetes.io/hostname"
  {
    if "k3s.io/hostname" in LabelsOf(first.labels) then "k3s.io/hostname" else "kubernetes.io/hostname"
  }

  function TooManyNodes(first: Node): Error {
    Message("Too many nodes, please specify a selector, e.g. " + SuggestedLabel(first) + "=" + first.name)
  }

  // ---- labels kim asserts on namespace and service (install.go:115-120, 215-220) ----

  /** The labels after asserting managed-by: added as "kim" when the key is missing, otherwise left
      alone — an existing value is never overwritten. */
  function EnsureManaged(l: OptLabels): (r: Labels)
    ensures ManagedByKey in r
    ensures ManagedByKey in LabelsOf(l) ==> r == LabelsOf(l)
    ensures ManagedByKey !in LabelsOf(l) ==> r[ManagedByKey] == ManagedByValue
    ensures forall key | key != ManagedByKey ::
      (key in r <==> key in LabelsOf(l)) && (key in r ==> r[key] == LabelsOf(l)[key])
  {
    var labels := LabelsOf(l);
    if ManagedByKey in labels then labels else labels[ManagedByKey := ManagedByValue]
  }

  lemma EnsureManagedIdempotent(l: OptLabels)
    ensures EnsureManaged(Some(EnsureManaged(l))) == EnsureManaged(l)
  {
  }

  // ---- ports (install.go:536-572) ----

  const TwoTo31: int := 0x8000_0000
  const TwoTo32: int := 0x1_0000_0000

  /** Go's int32(x) conversion: the value modulo 2^32, read as a signed 32-bit number. */
  function Int32(x: int): (r: int)
    ensures -TwoTo31 <= r < TwoTo31
    ensures (x - r) % TwoTo32 == 0
    ensures -TwoTo31 <= x < TwoTo31 ==> r == x
  {
    var m := (x + TwoTo31) % TwoTo32;
    assert -TwoTo31 <= x < TwoTo31 ==> m == x + TwoTo31;
    m - TwoTo31
  }

  /** A port setting above the int32 range wraps to a negative port number. */
  lemma Int32Wraps()
    ensures Int32(TwoTo31) == -TwoTo31 && Int32(TwoTo32 + 1233) == 1233
  {
  }

  /** The builder service, as created when absent. */
  function BuilderSelector(): Labels {
    map["app.kubernetes.io/name" := "kim", "app.kubernetes.io/component" := "builder"]
  }

  function BuilderLabels(): Labels {
    map["app.kubernetes.io/name" := "kim", "app.kubernetes.io/component" := "builder", ManagedByKey := ManagedByValue]
  }

  // ---- the readiness wait (install.go:69-95) ----

  /** The outcome of the readiness wait from attempt `i` on, when attempt `j` observes `poll(j)`: a Get
      error or a ready count above zero ends it; fifteen not-ready answers time out. */
  function ReadinessFrom(poll: nat -> Result<int>, i: nat): Option<Error>
    decreases ReadinessSteps - i
  {
    if i >= ReadinessSteps then Some(Message(TimeoutMessage))
    else match poll(i)
      case Err(e) => Some(e)
      case Ok(ready) => if ready == 0 then ReadinessFrom(poll, i + 1) else None
  }

  function Readiness(poll: nat -> Result<int>): Option<Error> {
    ReadinessFrom(poll, 0)
  }

  /** The wait succeeds exactly when some attempt among the first fifteen sees a ready pod after only
      not-ready answers, and times out when all fifteen answers are not-ready. */
  lemma {:induction false} ReadinessFromCases(poll: nat -> Result<int>, i: nat)
    requires i <= ReadinessSteps
    ensures ReadinessFrom(poll, i).None? <==>
      exists j | i <= j < ReadinessSteps :: (poll(j).Ok? && poll(j).value != 0) && forall m | i <= m < j :: poll(m) == Ok(0)
    ensures (forall m | i <= m < ReadinessSteps :: poll(m) == Ok(0)) ==> ReadinessFrom(poll, i) == Some(Message(TimeoutMessage))
    decreases ReadinessSteps - i
  {
    if i < ReadinessSteps {
      ReadinessFromCases(poll, i + 1);
      if poll(i) == Ok(0) {
        if ReadinessFrom(poll, i).None? {
          var j :| i + 1 <= j < ReadinessSteps && (poll(j).Ok? && poll(j).value != 0) && forall m | i + 1 <= m < j :: poll(m) == Ok(0);
          assert forall m | i <= m < j :: poll(m) == Ok(0);
        }
      }
    }
  }

  /** Answers after the fifteenth attempt are never read. */
  lemma {:induction false} ReadinessBounded(poll1: nat -> Result<int>, poll2: nat -> Result<int>, i: nat)
    requires forall j: nat | j < ReadinessSteps :: poll1(j) == poll2(j)
    ensures ReadinessFrom(poll1, i) == ReadinessFrom(poll2, i)
    decreases ReadinessSteps - i
  {
    if i < ReadinessSteps {
      ReadinessBounded(poll1, poll2, i + 1);
    }
  }

  /** The retry loop of the wait, where `poll(i)` is what the i-th daemonset Get reports: its
      NumberReady or its error. */
  method WaitReady(poll: nat -> Result<int>) returns (err: Option<Error>)
    ensures err == Readiness(poll)
  {
    var i: nat := 0;
    while i < ReadinessSteps
      invariant i <= ReadinessSteps
      invariant ReadinessFrom(poll, i) == Readiness(poll)
      decreases ReadinessSteps - i
    {
      var observed := poll(i);
      if observed.Err? {
        return Some(observed.error);
      }
      if observed.value != 0 {
        return None;
      }
      i := i + 1;
    }
    return Some(Message(TimeoutMessage));
  }

  // ---- SAN collection (install.go:150-163) ----

  /** The addresses of one kind among a node's addresses, in order. */
  function AddressesOfKind(addrs: seq<NodeAddress>, kind: AddressType): seq<string>
    decreases |addrs|
  {
    if |addrs| == 0 then []
    else AddressesOfKind(addrs[..|addrs| - 1], kind)
         + (if addrs[|addrs| - 1].kind == kind then [addrs[|addrs| - 1].address] else [])
  }

  /** The addresses of one kind over all nodes, node by node. */
  function NodesAddressesOfKind(nodes: seq<Node>, kind: AddressType): seq<string>
    decreases |nodes|
  {
    if |nodes| == 0 then []
    else NodesAddressesOfKind(nodes[..|nodes| - 1], kind) + AddressesOfKind(nodes[|nodes| - 1].addresses, kind)
  }

  lemma {:induction false} AddressesOfKindMember(addrs: seq<NodeAddress>, kind: AddressType, x: string)
    ensures x in AddressesOfKind(addrs, kind) <==> NodeAddress(kind, x) in addrs
    decreases |addrs|
  {
    if |addrs| > 0 {
      AddressesOfKindMember(addrs[..|addrs| - 1], kind, x);
      assert addrs == addrs[..|addrs| - 1] + [addrs[|addrs| - 1]];
    }
  }

  /** An address is collected exactly when some node has an address of that kind with that value. */
  lemma {:induction false} NodesAddressesOfKindMember(nodes: seq<Node>, kind: AddressType, x: string)
    ensures x in NodesAddressesOfKind(nodes, kind) <==> exists i | 0 <= i < |nodes| :: NodeAddress(kind, x) in nodes[i].addresses
    decreases |nodes|
  {
    if |nodes| > 0 {
      var init := nodes[..|nodes| - 1];
      NodesAddressesOfKindMember(init, kind, x);
      AddressesOfKindMember(nodes[|nodes| - 1].addresses, kind, x);
      if x in NodesAddressesOfKind(nodes, kind) {
        if x in NodesAddressesOfKind(init, kind) {
          var i :| 0 <= i < |init| && NodeAddress(kind, x) in init[i].addresses;
          assert nodes[i] == init[i];
        }
      } else {
        forall i | 0 <= i < |nodes| ensures NodeAddress(kind, x) !in nodes[i].addresses {
          if i < |init| {
            assert nodes[i] == init[i];
          }
        }
      }
    }
  }

  function BuilderDomain(namespace: string): string {
    "builder." + namespace + ".svc"
  }

  /** The SAN loop: DNS names are the service name followed by every Hostname address; IPs are every
      InternalIP address; other address kinds are skipped. */
  method CollectSans(nodes: seq<Node>, namespace: string) returns (domains: seq<string>, ips: seq<string>)
    ensures domains == [BuilderDomain(namespace)] + NodesAddressesOfKind(nodes, Hostname)
    ensures ips == NodesAddressesOfKind(nodes, InternalIP)
  {
    ips := [];
    domains := [BuilderDomain(namespace)];
    var i := 0;
    while i < |nodes|
      invariant 0 <= i <= |nodes|
      invariant domains == [BuilderDomain(namespace)] + NodesAddressesOfKind(nodes[..i], Hostname)
      invariant ips == NodesAddressesOfKind(nodes[..i], InternalIP)
    {
      var addrs := nodes[i].addresses;
      var j := 0;
      while j < |addrs|
        invariant 0 <= j <= |addrs|
        invariant domains == [BuilderDomain(namespace)] + NodesAddressesOfKind(nodes[..i], Hostname) + AddressesOfKind(addrs[..j], Hostname)
        invariant ips == NodesAddressesOfKind(nodes[..i], InternalIP) + AddressesOfKind(addrs[..j], InternalIP)
      {
        assert addrs[..j + 1][..j] == addrs[..j];
        match addrs[j].kind {
          case InternalIP => ips := ips + [addrs[j].address];
          case Hostname => domains := domains + [addrs[j].address];
          case _ =>
        }
        j := j + 1;
      }
      assert addrs[..j] == addrs;
      assert nodes[..i + 1][..i] == nodes[..i];
      i := i + 1;
    }
    assert nodes[..i] == nodes;
  }

  /** The Certs entropy of the three identities Secrets asserts. */
  datatype SecretsEntropy = SecretsEntropy(ca: Cert.Entropy, server: Cert.Entropy, client: Cert.Entropy)

  /** The step sequence of Do. */
  datatype Step = NodeRoleStep | NamespaceStep | SecretsStep | ServiceStep | DaemonSetStep | WaitStep

  const Steps: seq<Step> := [NodeRoleStep, NamespaceStep, SecretsStep, ServiceStep, DaemonSetStep]

  class Install {
    const force: bool
    const selector: Selector
    const noWait: bool
    const noFail: bool
    const config: Config

    constructor (force: bool, selector: Selector, noWait: bool, noFail: bool, config: Config)
      ensures this.force == force && this.selector == selector && this.noWait == noWait
      ensures this.noFail == noFail && this.config == config
    {
      this.force := force;
      this.selector := selector;
      this.noWait := noWait;
      this.noFail := noFail;
      this.config := config;
    }

    /** checkNoFail (install.go:33-42): with NoFail an error is logged and dropped. */
    function CheckNoFail(err: Option<Error>): (r: Option<Error>)
      ensures r.None? <==> err.None? || noFail
      ensures r.Some? ==> r == err
    {
      if err.None? || noFail then None else err
    }

    /** containerPort (install.go:536-553). */
    function ContainerPortFor(name: string): (r: ContainerPort)
      reads config
      ensures r.name == name
      ensures name == "buildkit" ==> r.containerPort == Int32(config.buildkitPort) && r.protocol == TCP
      ensures name == "kim" ==> r.containerPort == Int32(config.agentPort) && r.protocol == TCP
      ensures name != "buildkit" && name != "kim" ==> r.containerPort == 0 && r.protocol == NoProtocol
    {
      if name == "buildkit" then ContainerPort(name, Int32(config.buildkitPort), TCP)
      else if name == "kim" then ContainerPort(name, Int32(config.agentPort), TCP)
      else ContainerPort(name, 0, NoProtocol)
    }

    /** servicePort (install.go:555-572). */
    function ServicePortFor(name: string): (r: ServicePort)
      reads config
      ensures r.name == name
      ensures name == "buildkit" ==> r.port == Int32(config.buildkitPort) && r.protocol == TCP
      ensures name == "kim" ==> r.port == Int32(config.agentPort) && r.protocol == TCP
      ensures name != "buildkit" && name != "kim" ==> r.port == 0 && r.protocol == NoProtocol
    {
      if name == "buildkit" then ServicePort(name, Int32(config.buildkitPort), TCP)
      else if name == "kim" then ServicePort(name, Int32(config.agentPort), TCP)
      else ServicePort(name, 0, NoProtocol)
    }

    /** The service install.go creates: a kim-managed NodePort service whose selector picks out the
        builder daemonset's pods and which exposes the buildkit port, then the agent port. */
    function BuilderService(namespace: string): (r: Service)
      reads config
      ensures r.namespace == namespace && r.name == BuilderName && r.labels == Some(ManagedLabels) && r.kind == NodePort
      ensures r.selector.Keys <= BuilderLabels().Keys && forall key | key in r.selector :: r.selector[key] == BuilderLabels()[key]
      ensures |r.ports| == 2 && r.ports[0] == ServicePortFor("buildkit") && r.ports[1] == ServicePortFor("kim")
    {
      Kube.Service(namespace, BuilderName, Some(ManagedLabels), None, NodePort, BuilderSelector(),
              [ServicePortFor("buildkit"), ServicePortFor("kim")])
    }

    /** The daemonset install.go creates, reduced to what kim derives from its settings: the images
        resolved for it, the configured sockets and volume, and the buildkit and agent container ports. */
    function BuilderDaemonSet(namespace: string, agentImage: string, buildkitImage: string): (r: DaemonSet)
      reads config
      ensures r.namespace == namespace && r.name == BuilderName
      ensures ManagedByKey in r.labels && r.labels[ManagedByKey] == ManagedByValue
      ensures r.agentImage == agentImage && r.buildkitImage == buildkitImage
      ensures r.buildkitSocket == config.buildkitSocket
      ensures r.containerdSocket == config.containerdSocket && r.containerdVolume == config.containerdVolume
      ensures |r.ports| == 2 && r.ports[0] == ContainerPortFor("buildkit") && r.ports[1] == ContainerPortFor("kim")
    {
      Kube.DaemonSet(namespace, BuilderName, BuilderLabels(), agentImage, buildkitImage, config.buildkitSocket,
                config.containerdSocket, config.containerdVolume, [ContainerPortFor("buildkit"), ContainerPortFor("kim")])
    }

    // ---- NodeRole (install.go:479-534) ----

    /** One attempt of the retried closure: read the node, decide, record the settings, write the node. */
    method NodeRoleAttempt(nodes: Store<string, Node>, name: string, p: Parsers, d: RuntimeDefaults) returns (err: Option<Error>, ghost got: Result<Node>)
      requires NodeStore(nodes)
      modifies nodes`objects, config`containerdSocket, config`containerdVolume
      ensures NodeStore(nodes)
      ensures got.Ok? ==> name in old(nodes.objects) && got.value == old(nodes.objects)[name]
      ensures got.Err? ==> err == Some(got.error) && UnchangedRoleOn(nodes)
      ensures got.Ok? ==>
        var a := AssignRole(got.value, p, old(config.containerdSocket), old(config.containerdVolume), d);
        && (a.Err? ==> err == Some(a.error) && UnchangedRoleOn(nodes))
        && (a.Ok? ==> config.containerdSocket == a.value.1 && config.containerdVolume == a.value.2)
        && (a.Ok? && err.None? ==> nodes.objects == old(nodes.objects)[name := a.value.0])
        && (err.Some? ==> nodes.objects == old(nodes.objects))
    {
      var node := nodes.Get(name);
      got := node;
      if node.Err? {
        return Some(node.error), got;
      }
      var a := AssignRole(node.value, p, config.containerdSocket, config.containerdVolume, d);
      if a.Err? {
        return Some(a.error), got;
      }
      config.containerdSocket := a.value.1;
      config.containerdVolume := a.value.2;
      err := nodes.Update(a.value.0);
    }

    twostate predicate UnchangedRoleOn(nodes: Store<string, Node>)
      reads nodes, config
    {
      nodes.objects == old(nodes.objects) && config.containerdSocket == old(config.containerdSocket)
      && config.containerdVolume == old(config.containerdVolume)
    }

    twostate predicate UnchangedNodeRole(k: Cluster)
      reads k, k.nodes, config
    {
      k.nodes.objects == old(k.nodes.objects) && config.containerdSocket == old(config.containerdSocket)
      && config.containerdVolume == old(config.containerdVolume)
    }

    /** NodeRole: list the selected nodes; with exactly one, label it with the builder role (retried on
        conflict) after adjusting the containerd settings to its runtime. `listing` is the List outcome. */
    method NodeRole(k: Cluster, p: Parsers, d: RuntimeDefaults) returns (err: Option<Error>, ghost listing: Result<seq<Node>>, ghost attempts: nat)
      requires k.Valid()
      modifies k.nodes`objects, config`containerdSocket, config`containerdVolume
      ensures k.Valid()
      ensures err.Some? ==> k.nodes.objects == old(k.nodes.objects)
      ensures listing.Err? ==> err == Some(listing.error) && UnchangedNodeRole(k)
      ensures listing.Ok? ==> forall n | n in listing.value ::
        (n.name in old(k.nodes.objects) && old(k.nodes.objects)[n.name] == n && Matches(selector, LabelsOf(n.labels)))
      ensures listing.Ok? ==> forall name | name in old(k.nodes.objects) && Matches(selector, LabelsOf(old(k.nodes.objects)[name].labels)) ::
        old(k.nodes.objects)[name] in listing.value
      ensures listing.Ok? && |listing.value| == 0 ==> err == Some(Message("failed to select any nodes")) && UnchangedNodeRole(k)
      ensures listing.Ok? && |listing.value| > 1 ==> err == Some(TooManyNodes(listing.value[0])) && UnchangedNodeRole(k)
      ensures listing.Ok? && |listing.value| == 1 ==>
        var n := listing.value[0];
        var a := AssignRole(n, p, old(config.containerdSocket), old(config.containerdVolume), d);
        && 1 <= attempts <= DefaultRetrySteps
        && (a.Err? ==> err.Some? && UnchangedNodeRole(k))
        && (err.None? ==> a.Ok? && k.nodes.objects == old(k.nodes.objects)[n.name := a.value.0]
                          && config.containerdSocket == a.value.1 && config.containerdVolume == a.value.2)
        && (UnchangedNodeRole(k) || (a.Ok? && config.containerdSocket == a.value.1 && config.containerdVolume == a.value.2))
        && (err == Some(Conflict) ==> attempts == DefaultRetrySteps)
    {
      attempts := 0;
      var list := k.nodes.List((n: Node) => Matches(selector, LabelsOf(n.labels)));
      listing := list;
      if list.Err? {
        return Some(list.error), listing, attempts;
      }
      if |list.value| == 0 {
        return Some(Message("failed to select any nodes")), listing, attempts;
      }
      if |list.value| > 1 {
        return Some(TooManyNodes(list.value[0])), listing, attempts;
      }
      var n := list.value[0];
      err, attempts := RetryNodeRole(k.nodes, n, p, d);
    }

    /** Labelling the one selected node, retried on conflict (install.go:491-526). */
    method RetryNodeRole(nodes: Store<string, Node>, n: Node, p: Parsers, d: RuntimeDefaults) returns (err: Option<Error>, ghost attempts: nat)
      requires NodeStore(nodes) && n.name in nodes.objects && nodes.objects[n.name] == n
      modifies nodes`objects, config`containerdSocket, config`containerdVolume
      ensures NodeStore(nodes)
      ensures err.Some? ==> nodes.objects == old(nodes.objects)
      ensures var a := AssignRole(n, p, old(config.containerdSocket), old(config.containerdVolume), d);
        && 1 <= attempts <= DefaultRetrySteps
        && (a.Err? ==> err.Some? && UnchangedRoleOn(nodes))
        && (err.None? ==> a.Ok? && nodes.objects == old(nodes.objects)[n.name := a.value.0]
                          && config.containerdSocket == a.value.1 && config.containerdVolume == a.value.2)
        && (UnchangedRoleOn(nodes) || (a.Ok? && config.containerdSocket == a.value.1 && config.containerdVolume == a.value.2))
        && (err == Some(Conflict) ==> attempts == DefaultRetrySteps)
    {
      ghost var a := AssignRole(n, p, config.containerdSocket, config.containerdVolume, d);
      ghost var got;
      err, got := NodeRoleAttempt(nodes, n.name, p, d);
      var tries: nat := 1;
      while err == Some(Conflict) && tries < DefaultRetrySteps
        invariant NodeStore(nodes)
        invariant 1 <= tries <= DefaultRetrySteps
        invariant err.Some? ==> nodes.objects == old(nodes.objects)
        invariant a.Err? ==> err.Some? && UnchangedRoleOn(nodes)
        invariant err.None? ==> a.Ok? && nodes.objects == old(nodes.objects)[n.name := a.value.0]
                                && config.containerdSocket == a.value.1 && config.containerdVolume == a.value.2
        invariant UnchangedRoleOn(nodes) || (a.Ok? && config.containerdSocket == a.value.1 && config.containerdVolume == a.value.2)
        decreases DefaultRetrySteps - tries
      {
        if a.Ok? {
          AssignRoleStable(n, p, old(config.containerdSocket), old(config.containerdVolume), d);
        }
        err, got := NodeRoleAttempt(nodes, n.name, p, d);
        tries := tries + 1;
      }
      attempts := tries;
    }

    // ---- Namespace (install.go:98-123) ----

    method NamespaceAttempt(k: Cluster) returns (err: Option<Error>)
      requires k.Valid()
      modifies k.namespaces`objects
      ensures k.Valid()
      ensures err.Some? ==> k.namespaces.objects == old(k.namespaces.objects)
      ensures err.None? && k.namespace !in old(k.namespaces.objects) ==>
        k.namespaces.objects == old(k.namespaces.objects)[k.namespace := Kube.Namespace(k.namespace, Some(ManagedLabels))]
      ensures err.None? && k.namespace in old(k.namespaces.objects) ==>
        var ns := old(k.namespaces.objects)[k.namespace];
        k.namespaces.objects == old(k.namespaces.objects)[k.namespace := ns.(labels := Some(EnsureManaged(ns.labels)))]
    {
      var got := k.namespaces.Get(k.namespace);
      if got == Err(NotFound) {
        err := k.namespaces.Create(Kube.Namespace(k.namespace, Some(ManagedLabels)));
        return;
      }
      // On any other error the client returns an empty object, which is then updated.
      var ns := if got.Ok? then got.value else Kube.Namespace("", None);
      err := k.namespaces.Update(ns.(labels := Some(EnsureManaged(ns.labels))));
    }

    /** Namespace: create the namespace with managed-by=kim when absent, otherwise add managed-by=kim
        only when the key is missing. Retried on conflict. */
    method Namespace(k: Cluster) returns (err: Option<Error>)
      requires k.Valid()
      modifies k.namespaces`objects
      ensures k.Valid()
      ensures err.Some? ==> k.namespaces.objects == old(k.namespaces.objects)
      ensures err.None? && k.namespace !in old(k.namespaces.objects) ==>
        k.namespaces.objects == old(k.namespaces.objects)[k.namespace := Kube.Namespace(k.namespace, Some(ManagedLabels))]
      ensures err.None? && k.namespace in old(k.namespaces.objects) ==>
        var ns := old(k.namespaces.objects)[k.namespace];
        k.namespaces.objects == old(k.namespaces.objects)[k.namespace := ns.(labels := Some(EnsureManaged(ns.labels)))]
    {
      err := NamespaceAttempt(k);
      var attempts := 1;
      while err == Some(Conflict) && attempts < DefaultRetrySteps
        invariant k.Valid()
        invariant err.Some? ==> k.namespaces.objects == old(k.namespaces.objects)
        invariant err.None? && k.namespace !in old(k.namespaces.objects) ==>
          k.namespaces.objects == old(k.namespaces.objects)[k.namespace := Kube.Namespace(k.namespace, Some(ManagedLabels))]
        invariant err.None? && k.namespace in old(k.namespaces.objects) ==>
          var ns := old(k.namespaces.objects)[k.namespace];
          k.namespaces.objects == old(k.namespaces.objects)[k.namespace := ns.(labels := Some(EnsureManaged(ns.labels)))]
        decreases DefaultRetrySteps - attempts
      {
        err := NamespaceAttempt(k);
        attempts := attempts + 1;
      }
    }

    // ---- Secrets (install.go:125-175) ----

    /** The three TLS secrets kim keeps in its namespace. */
    predicate IsTlsSecretKey(key: ObjectKey, namespace: string) {
      key == ObjectKey(namespace, CaSecret) || key == ObjectKey(namespace, ServerSecret) || key == ObjectKey(namespace, ClientSecret)
    }

    /** With Force, the client, server and CA secrets are deleted; errors are ignored. */
    method DeleteTlsSecrets(k: Cluster)
      requires k.Valid()
      modifies k.secrets`objects
      ensures k.Valid()
      ensures k.secrets.objects.Keys <= old(k.secrets.objects.Keys)
      ensures forall key | key in k.secrets.objects :: k.secrets.objects[key] == old(k.secrets.objects)[key]
      ensures !force ==> k.secrets.objects == old(k.secrets.objects)
      ensures forall key | key in old(k.secrets.objects) && !IsTlsSecretKey(key, k.namespace) :: key in k.secrets.objects
    {
      if force {
        var _ := k.secrets.Delete(ObjectKey(k.namespace, ClientSecret));
        var _ := k.secrets.Delete(ObjectKey(k.namespace, ServerSecret));
        var _ := k.secrets.Delete(ObjectKey(k.namespace, CaSecret));
      }
    }

    /** From `before` to `after` every stored secret is kept, and only `key` can be added, as a kim TLS
        secret. */
    ghost predicate AddsOnly(before: map<ObjectKey, Secret>, after: map<ObjectKey, Secret>, key: ObjectKey) {
      && (forall k | k in before :: k in after && after[k] == before[k])
      && (forall k | k in after :: k in before || k == key)
      && (key in after && key !in before ==> Certs.IsKimTlsSecret(after[key], key.namespace, key.name))
    }

    /** From `before` to `after` every stored secret is kept, and the secrets added are kim TLS secrets
        under the three TLS keys of `namespace`. */
    ghost predicate GrowsTls(before: map<ObjectKey, Secret>, after: map<ObjectKey, Secret>, namespace: string) {
      && (forall k | k in before :: k in after && after[k] == before[k])
      && (forall k | k in after && k !in before :: IsTlsSecretKey(k, namespace) && Certs.IsKimTlsSecret(after[k], namespace, k.name))
    }

    lemma GrowsTlsStep(a: map<ObjectKey, Secret>, b: map<ObjectKey, Secret>, c: map<ObjectKey, Secret>, namespace: string, key: ObjectKey)
      requires GrowsTls(a, b, namespace) && AddsOnly(b, c, key) && IsTlsSecretKey(key, namespace)
      ensures GrowsTls(a, c, namespace)
    {
    }

    /** One LoadOrGen call, seen from the installer: an existing secret is left as it is and decoded; a
        missing one may be added, holding the pair the identity asks for; no other secret changes. */
    method AssertTls(secrets: Store<ObjectKey, Secret>, namespace: string, name: string, id: Certs.Identity, e: Cert.Entropy)
      returns (r: Result<(Cert.Certificate, Cert.PrivateKey)>)
      requires SecretStore(secrets)
      modifies secrets`objects
      ensures SecretStore(secrets)
      ensures AddsOnly(old(secrets.objects), secrets.objects, ObjectKey(namespace, name))
      ensures ObjectKey(namespace, name) !in old(secrets.objects) && ObjectKey(namespace, name) in secrets.objects ==>
        Certs.Generate(id, name, e).Ok? && secrets.objects[ObjectKey(namespace, name)]
          == Certs.TlsSecret(namespace, name, Certs.Generate(id, name, e).value.0, Certs.Generate(id, name, e).value.1)
      ensures r.Ok? ==> ObjectKey(namespace, name) in secrets.objects && r == Certs.Load(secrets.objects[ObjectKey(namespace, name)])
    {
      ghost var got;
      r, got := Certs.LoadOrGen(secrets, namespace, name, id, e);
    }

    /** The secret at `key` is new or different in `after`. */
    ghost predicate Written(before: map<ObjectKey, Secret>, after: map<ObjectKey, Secret>, key: ObjectKey) {
      key in after && (key !in before || after[key] != before[key])
    }

    /** The secret holds one certificate: a server certificate for kube-image-server naming exactly
        `domains` and `ips`. */
    ghost predicate ServesSans(s: Secret, domains: seq<string>, ips: seq<string>) {
      var crts := Cert.Certs(PemBlocks(DataOf(s, TlsCertKey)));
      && |crts| == 1 && crts[0].template.extKeyUsage == [Cert.ServerAuth]
      && crts[0].template.subject.commonName == "kube-image-server"
      && crts[0].template.dnsNames == domains && crts[0].template.ips == ips
    }

    /** The nodes carrying node-role.kubernetes.io/builder=true: after a successful List, exactly the
        stored ones. */
    method ListBuilders(nodes: Store<string, Node>) returns (r: Result<seq<Node>>)
      requires NodeStore(nodes)
      ensures r.Ok? ==> forall i | 0 <= i < |r.value| ::
        (r.value[i].name in nodes.objects && nodes.objects[r.value[i].name] == r.value[i]
        && Matches([Equals(BuilderRoleLabel, "true")], LabelsOf(r.value[i].labels)))
      ensures r.Ok? ==> forall name | name in nodes.objects
        && Matches([Equals(BuilderRoleLabel, "true")], LabelsOf(nodes.objects[name].labels)) :: nodes.objects[name] in r.value
    {
      r := nodes.List((n: Node) => Matches([Equals(BuilderRoleLabel, "true")], LabelsOf(n.labels)));
    }

    /** LoadOrGenServerCert for kim-tls-server, signed by the CA: a server secret it writes names exactly
        the requested SANs. */
    method AssertServerTls(secrets: Store<ObjectKey, Secret>, namespace: string, ca: (Cert.Certificate, Cert.PrivateKey),
                           domains: seq<string>, ips: seq<string>, e: Cert.Entropy)
      returns (r: Result<(Cert.Certificate, Cert.PrivateKey)>)
      requires SecretStore(secrets)
      modifies secrets`objects
      ensures SecretStore(secrets)
      ensures AddsOnly(old(secrets.objects), secrets.objects, ObjectKey(namespace, ServerSecret))
      ensures Written(old(secrets.objects), secrets.objects, ObjectKey(namespace, ServerSecret)) ==>
        ServesSans(secrets.objects[ObjectKey(namespace, ServerSecret)], domains, ips)
      ensures r.Ok? ==> ObjectKey(namespace, ServerSecret) in secrets.objects
    {
      var id := Certs.Leaf("kube-image-server", ca.0, ca.1, Cert.ServerCert([], domains, ips));
      r := AssertTls(secrets, namespace, ServerSecret, id, e);
      ghost var key := ObjectKey(namespace, ServerSecret);
      if Written(old(secrets.objects), secrets.objects, key) {
        var g := Certs.Generate(id, ServerSecret, e).value;
        Certs.TlsSecretCertificate(namespace, ServerSecret, g.0, g.1);
      }
    }

    /** The server half of Secrets: list the builder nodes, collect their SANs and load or generate the
        server leaf for them. `listed` says the node List succeeded, `builders` is its result and
        `domains`/`ips` the SANs requested for the server leaf. */
    method AssertServerFromNodes(secrets: Store<ObjectKey, Secret>, nodes: Store<string, Node>, namespace: string,
                                 ca: (Cert.Certificate, Cert.PrivateKey), e: Cert.Entropy)
      returns (err: Option<Error>, ghost listed: bool, ghost builders: seq<Node>, ghost domains: seq<string>, ghost ips: seq<string>)
      requires SecretStore(secrets) && NodeStore(nodes)
      modifies secrets`objects
      ensures SecretStore(secrets)
      ensures AddsOnly(old(secrets.objects), secrets.objects, ObjectKey(namespace, ServerSecret))
      ensures err.None? ==> listed && ObjectKey(namespace, ServerSecret) in secrets.objects
      // The builders are exactly the nodes labelled with the builder role.
      ensures forall i | 0 <= i < |builders| ::
        (builders[i].name in nodes.objects && nodes.objects[builders[i].name] == builders[i]
        && Matches([Equals(BuilderRoleLabel, "true")], LabelsOf(builders[i].labels)))
      ensures listed ==> forall name | name in nodes.objects
        && Matches([Equals(BuilderRoleLabel, "true")], LabelsOf(nodes.objects[name].labels)) :: nodes.objects[name] in builders
      ensures domains == [BuilderDomain(namespace)] + NodesAddressesOfKind(builders, Hostname)
      ensures ips == NodesAddressesOfKind(builders, InternalIP)
      // A server secret written here names those SANs.
      ensures Written(old(secrets.objects), secrets.objects, ObjectKey(namespace, ServerSecret)) ==>
        listed && ServesSans(secrets.objects[ObjectKey(namespace, ServerSecret)], domains, ips)
    {
      listed, builders, domains, ips := false, [], [BuilderDomain(namespace)], [];
      var list := ListBuilders(nodes);
      if list.Err? {
        return Some(list.error), listed, builders, domains, ips;
      }
      listed, builders := true, list.value;
      var sanDomains, sanIps := CollectSans(list.value, namespace);
      domains, ips := sanDomains, sanIps;
      var server := AssertServerTls(secrets, namespace, ca, sanDomains, sanIps, e);
      if server.Err? {
        return Some(Wrapped("failed to assert server cert+key", server.error)), listed, builders, domains, ips;
      }
      err := None;
    }

    /** The load-or-generate half of Secrets: the CA, then the server leaf with SANs from the builder
        nodes' addresses, then the client leaf, stopping at the first failure. `listed` says the node
        List succeeded, `builders` is its result and `domains`/`ips` the SANs requested for the server
        leaf. */
    method AssertTlsSecrets(secrets: Store<ObjectKey, Secret>, nodes: Store<string, Node>, namespace: string, es: SecretsEntropy)
      returns (err: Option<Error>, ghost listed: bool, ghost builders: seq<Node>, ghost domains: seq<string>, ghost ips: seq<string>)
      requires SecretStore(secrets) && NodeStore(nodes)
      modifies secrets`objects
      ensures SecretStore(secrets)
      ensures GrowsTls(old(secrets.objects), secrets.objects, namespace)
      ensures err.None? ==> listed && forall key | IsTlsSecretKey(key, namespace) :: key in secrets.objects
      // The builders are exactly the nodes labelled with the builder role.
      ensures forall i | 0 <= i < |builders| ::
        (builders[i].name in nodes.objects && nodes.objects[builders[i].name] == builders[i]
        && Matches([Equals(BuilderRoleLabel, "true")], LabelsOf(builders[i].labels)))
      ensures listed ==> forall name | name in nodes.objects
        && Matches([Equals(BuilderRoleLabel, "true")], LabelsOf(nodes.objects[name].labels)) :: nodes.objects[name] in builders
      ensures domains == [BuilderDomain(namespace)] + NodesAddressesOfKind(builders, Hostname)
      ensures ips == NodesAddressesOfKind(builders, InternalIP)
      // A server secret written here names those SANs.
      ensures Written(old(secrets.objects), secrets.objects, ObjectKey(namespace, ServerSecret)) ==>
        listed && ServesSans(secrets.objects[ObjectKey(namespace, ServerSecret)], domains, ips)
    {
      listed, builders, domains, ips := false, [], [BuilderDomain(namespace)], [];
      ghost var s0 := secrets.objects;
      var ca := AssertTls(secrets, namespace, CaSecret, Certs.CA, es.ca);
      ghost var s1 := secrets.objects;
      GrowsTlsStep(s0, s0, s1, namespace, ObjectKey(namespace, CaSecret));
      if ca.Err? {
        return Some(Wrapped("failed to assert certificate authority", ca.error)), listed, builders, domains, ips;
      }
      err, listed, builders, domains, ips := AssertServerFromNodes(secrets, nodes, namespace, ca.value, es.server);
      ghost var s2 := secrets.objects;
      GrowsTlsStep(s0, s1, s2, namespace, ObjectKey(namespace, ServerSecret));
      if err.Some? {
        return;
      }
      var client := AssertTls(secrets, namespace, ClientSecret,
        Certs.Leaf("kube-image-client", ca.value.0, ca.value.1, Cert.ClientCert), es.client);
      GrowsTlsStep(s0, s2, secrets.objects, namespace, ObjectKey(namespace, ClientSecret));
      if client.Err? {
        return Some(Wrapped("failed to assert client cert+key", client.error)), listed, builders, domains, ips;
      }
      assert !Written(s2, secrets.objects, ObjectKey(namespace, ServerSecret));
    }

    /** Secrets: with Force, delete the three TLS secrets first, then load or generate them. Without
        Force no stored secret changes; with it only the three TLS secrets can. */
    method Secrets(k: Cluster, es: SecretsEntropy)
      returns (err: Option<Error>, ghost listed: bool, ghost builders: seq<Node>, ghost domains: seq<string>, ghost ips: seq<string>)
      requires k.Valid()
      modifies k.secrets`objects
      ensures k.Valid()
      ensures forall key | key in k.secrets.objects :: key in old(k.secrets.objects) || IsTlsSecretKey(key, k.namespace)
      ensures forall key | key in old(k.secrets.objects) && (!force || !IsTlsSecretKey(key, k.namespace)) ::
        key in k.secrets.objects && k.secrets.objects[key] == old(k.secrets.objects)[key]
      ensures forall key | Written(old(k.secrets.objects), k.secrets.objects, key) ::
        Certs.IsKimTlsSecret(k.secrets.objects[key], k.namespace, key.name)
      ensures err.None? ==> listed && forall key | IsTlsSecretKey(key, k.namespace) :: key in k.secrets.objects
      ensures forall i | 0 <= i < |builders| ::
        (builders[i].name in k.nodes.objects && k.nodes.objects[builders[i].name] == builders[i]
        && Matches([Equals(BuilderRoleLabel, "true")], LabelsOf(builders[i].labels)))
      ensures listed ==> forall name | name in k.nodes.objects
        && Matches([Equals(BuilderRoleLabel, "true")], LabelsOf(k.nodes.objects[name].labels)) :: k.nodes.objects[name] in builders
      ensures domains == [BuilderDomain(k.namespace)] + NodesAddressesOfKind(builders, Hostname)
      ensures ips == NodesAddressesOfKind(builders, InternalIP)
      ensures Written(old(k.secrets.objects), k.secrets.objects, ObjectKey(k.namespace, ServerSecret)) ==>
        listed && ServesSans(k.secrets.objects[ObjectKey(k.namespace, ServerSecret)], domains, ips)
    {
      DeleteTlsSecrets(k);
      err, listed, builders, domains, ips := AssertTlsSecrets(k.secrets, k.nodes, k.namespace, es);
    }

    // ---- Service (install.go:177-224) ----

    method ServiceAttempt(k: Cluster) returns (err: Option<Error>)
      requires k.Valid()
      modifies k.services`objects
      ensures k.Valid()
      ensures err.Some? ==> k.services.objects == old(k.services.objects)
      ensures err.None? && ObjectKey(k.namespace, BuilderName) !in old(k.services.objects) ==>
        k.services.objects == old(k.services.objects)[ObjectKey(k.namespace, BuilderName) := BuilderService(k.namespace)]
      ensures err.None? && ObjectKey(k.namespace, BuilderName) in old(k.services.objects) ==>
        var svc := old(k.services.objects)[ObjectKey(k.namespace, BuilderName)];
        k.services.objects == old(k.services.objects)[ObjectKey(k.namespace, BuilderName) := svc.(labels := Some(EnsureManaged(svc.labels)))]
    {
      var key := ObjectKey(k.namespace, BuilderName);
      var got := k.services.Get(key);
      if got == Err(NotFound) {
        err := k.services.Create(BuilderService(k.namespace));
        return;
      }
      // On any other error the client returns an empty object, which is then updated.
      var svc := if got.Ok? then got.value else Kube.Service("", "", None, None, ClusterIP, map[], []);
      err := k.services.Update(svc.(labels := Some(EnsureManaged(svc.labels))));
    }

    /** Service: with Force, delete the service first; default the agent port; then create the NodePort
        service with managed-by=kim when absent, or add managed-by=kim when the key is missing. `base` is
        the service store after the optional delete. */
    method Service(k: Cluster) returns (err: Option<Error>, ghost base: map<ObjectKey, Kube.Service>)
      requires k.Valid()
      modifies k.services`objects, config`agentPort
      ensures k.Valid()
      ensures config.agentPort == if old(config.agentPort) <= 0 then DefaultAgentPort else old(config.agentPort)
      ensures base == old(k.services.objects) || (force && base == old(k.services.objects) - {ObjectKey(k.namespace, BuilderName)})
      ensures err.Some? ==> k.services.objects == base
      ensures err.None? && ObjectKey(k.namespace, BuilderName) !in base ==>
        k.services.objects == base[ObjectKey(k.namespace, BuilderName) := BuilderService(k.namespace)]
      ensures err.None? && ObjectKey(k.namespace, BuilderName) in base ==>
        var svc := base[ObjectKey(k.namespace, BuilderName)];
        k.services.objects == base[ObjectKey(k.namespace, BuilderName) := svc.(labels := Some(EnsureManaged(svc.labels)))]
    {
      if force {
        var _ := k.services.Delete(ObjectKey(k.namespace, BuilderName));
      }
      base := k.services.objects;
      if config.agentPort <= 0 {
        config.agentPort := DefaultAgentPort;
      }
      err := ServiceAttempt(k);
      var attempts := 1;
      while err == Some(Conflict) && attempts < DefaultRetrySteps
        invariant k.Valid()
        invariant config.agentPort == if old(config.agentPort) <= 0 then DefaultAgentPort else old(config.agentPort)
        invariant err.Some? ==> k.services.objects == base
        invariant err.None? && ObjectKey(k.namespace, BuilderName) !in base ==>
          k.services.objects == base[ObjectKey(k.namespace, BuilderName) := BuilderService(k.namespace)]
        invariant err.None? && ObjectKey(k.namespace, BuilderName) in base ==>
          var svc := base[ObjectKey(k.namespace, BuilderName)];
          k.services.objects == base[ObjectKey(k.namespace, BuilderName) := svc.(labels := Some(EnsureManaged(svc.labels)))]
        decreases DefaultRetrySteps - attempts
      {
        err := ServiceAttempt(k);
        attempts := attempts + 1;
      }
    }

    // ---- DaemonSet (install.go:226-476) ----

    /** Creating the builder daemonset once: an existing one is reported as "builder already installed"
        and never replaced. */
    method CreateDaemonSet(daemonSets: Store<ObjectKey, Kube.DaemonSet>, ds: Kube.DaemonSet) returns (err: Option<Error>)
      requires DaemonSetStore(daemonSets)
      modifies daemonSets`objects
      ensures DaemonSetStore(daemonSets)
      ensures err.Some? ==> daemonSets.objects == old(daemonSets.objects)
      ensures DaemonSetKey(ds) in old(daemonSets.objects) ==> err == Some(Message("builder already installed"))
      ensures err.None? ==> daemonSets.objects == old(daemonSets.objects)[DaemonSetKey(ds) := ds]
    {
      var created := daemonSets.Create(ds);
      if created == Some(AlreadyExists) {
        return Some(Message("builder already installed"));
      }
      err := created;
    }

    /** DaemonSet: with Force, delete it first; resolve the agent image, and only then the BuildKit
        image; create the daemonset once. `base` is the daemonset store after the optional delete. */
    method DaemonSet(k: Cluster, p: Parsers, version: string) returns (err: Option<Error>, ghost base: map<ObjectKey, Kube.DaemonSet>)
      requires k.Valid()
      modifies k.daemonSets`objects, config`agentImage, config`buildkitImage
      ensures k.Valid()
      ensures base == old(k.daemonSets.objects) || (force && base == old(k.daemonSets.objects) - {ObjectKey(k.namespace, BuilderName)})
      ensures err.Some? ==> k.daemonSets.objects == base
      ensures ObjectKey(k.namespace, BuilderName) in base ==> err.Some? && k.daemonSets.objects == base
      ensures config.agentImage == if old(config.agentImage) == "" then DefaultAgentImage else old(config.agentImage)
      ensures AgentImage(p, config.agentImage, version).1.Some? ==>
        err == AgentImage(p, config.agentImage, version).1 && config.buildkitImage == old(config.buildkitImage)
      ensures AgentImage(p, config.agentImage, version).1.None? ==>
        config.buildkitImage == if old(config.buildkitImage) == "" then DefaultBuildkitImage else old(config.buildkitImage)
      ensures ObjectKey(k.namespace, BuilderName) in base && AgentImage(p, config.agentImage, version).1.None? ==>
        err == Some(Message("builder already installed"))
      ensures err.None? ==>
        k.daemonSets.objects == base[ObjectKey(k.namespace, BuilderName) :=
          BuilderDaemonSet(k.namespace, AgentImage(p, config.agentImage, version).0, config.buildkitImage)]
    {
      var daemonSets := k.daemonSets;
      if force {
        var _ := daemonSets.Delete(ObjectKey(k.namespace, BuilderName));
      }
      base := daemonSets.objects;
      var agentImage, e := config.GetAgentImage(p, version);
      if e.Some? {
        return e, base;
      }
      var buildkitImage, _ := config.GetBuildkitImage();
      err := CreateDaemonSet(daemonSets, BuilderDaemonSet(k.namespace, agentImage, buildkitImage));
    }

    // ---- Do (install.go:44-96) ----

    /** After the namespace step: kim's namespace exists and carries the managed-by key. */
    ghost predicate NamespaceReady(namespaces: map<string, Kube.Namespace>, namespace: string) {
      namespace in namespaces && ManagedByKey in LabelsOf(namespaces[namespace].labels)
    }

    /** After the secrets step: the CA, server and client secrets are stored. */
    ghost predicate TlsReady(secrets: map<ObjectKey, Secret>, namespace: string) {
      forall key | IsTlsSecretKey(key, namespace) :: key in secrets
    }

    /** After the service step: the builder service exists and carries the managed-by key. */
    ghost predicate ServiceReady(services: map<ObjectKey, Kube.Service>, namespace: string) {
      ObjectKey(namespace, BuilderName) in services
      && ManagedByKey in LabelsOf(services[ObjectKey(namespace, BuilderName)].labels)
    }

    /** After the daemonset step: the builder daemonset is `ds`. */
    ghost predicate DaemonSetReady(daemonSets: map<ObjectKey, Kube.DaemonSet>, namespace: string, ds: Kube.DaemonSet) {
      ObjectKey(namespace, BuilderName) in daemonSets && daemonSets[ObjectKey(namespace, BuilderName)] == ds
    }

    /** The node-role outcome Do reports: `builder` is the one node of `before` the selector matches,
        and `after` is `before` with that node replaced by its assigned version under the given socket
        and volume settings. */
    ghost predicate BuilderLabelled(before: map<string, Node>, after: map<string, Node>, socket: string, volume: string,
                                    p: Parsers, d: RuntimeDefaults, builder: string)
    {
      && builder in before && Matches(selector, LabelsOf(before[builder].labels))
      && (forall name | name in before && Matches(selector, LabelsOf(before[name].labels)) :: name == builder)
      && AssignRole(before[builder], p, socket, volume, d).Ok?
      && after == before[builder := AssignRole(before[builder], p, socket, volume, d).value.0]
    }

    /** The node-role step as Do sees it: on success, the one selected node is labelled. */
    method AssertNodeRole(k: Cluster, p: Parsers, d: RuntimeDefaults) returns (err: Option<Error>, ghost builder: string)
      requires k.Valid()
      modifies k.nodes`objects, config`containerdSocket, config`containerdVolume
      ensures k.Valid()
      ensures err.None? ==> BuilderLabelled(old(k.nodes.objects), k.nodes.objects,
        old(config.containerdSocket), old(config.containerdVolume), p, d, builder)
    {
      builder := "";
      ghost var listing, attempts;
      err, listing, attempts := NodeRole(k, p, d);
      if err.None? {
        builder := listing.value[0].name;
        forall name | name in old(k.nodes.objects) && Matches(selector, LabelsOf(old(k.nodes.objects)[name].labels))
          ensures name == builder
        {
          assert old(k.nodes.objects)[name] in listing.value;
        }
      }
    }

    /** The secrets step as Do sees it: on success, the three TLS secrets are stored. */
    method AssertSecrets(k: Cluster, es: SecretsEntropy) returns (err: Option<Error>)
      requires k.Valid()
      modifies k.secrets`objects
      ensures k.Valid()
      ensures err.None? ==> TlsReady(k.secrets.objects, k.namespace)
    {
      ghost var listed, builders, domains, ips;
      err, listed, builders, domains, ips := Secrets(k, es);
    }

    /** The namespace step as Do sees it: on success, kim's namespace exists with the managed-by key. */
    method AssertNamespace(k: Cluster) returns (err: Option<Error>)
      requires k.Valid()
      modifies k.namespaces`objects
      ensures k.Valid()
      ensures err.None? ==> NamespaceReady(k.namespaces.objects, k.namespace)
    {
      err := Namespace(k);
    }

    /** The service step as Do sees it: on success, the builder service exists with the managed-by key. */
    method AssertService(k: Cluster) returns (err: Option<Error>)
      requires k.Valid()
      modifies k.services`objects, config`agentPort
      ensures k.Valid()
      ensures err.None? ==> ServiceReady(k.services.objects, k.namespace)
    {
      ghost var base;
      err, base := Service(k);
    }

    /** The daemonset step as Do sees it: on success, the builder daemonset for the resolved images is
        stored. */
    method AssertDaemonSet(k: Cluster, p: Parsers, version: string) returns (err: Option<Error>)
      requires k.Valid()
      modifies k.daemonSets`objects, config`agentImage, config`buildkitImage
      ensures k.Valid()
      ensures err.None? ==> DaemonSetReady(k.daemonSets.objects, k.namespace,
        BuilderDaemonSet(k.namespace, AgentImage(p, config.agentImage, version).0, config.buildkitImage))
    {
      ghost var base;
      err, base := DaemonSet(k, p, version);
    }

    /** The four asserts of Do after the node role (install.go:52-67), in order, up to the first that
        fails: `ran` is the number of steps run and `stepErr` the failing step's error. When every step
        succeeds, the namespace, the TLS secrets, the service and the daemonset are in place. */
    method AssertResources(k: Cluster, p: Parsers, version: string, es: SecretsEntropy)
      returns (stepErr: Option<Error>, ghost ran: nat)
      requires k.Valid()
      modifies k.namespaces`objects, k.secrets`objects, k.services`objects, k.daemonSets`objects
      modifies config`agentPort, config`agentImage, config`buildkitImage
      ensures k.Valid()
      ensures 1 <= ran <= 4
      ensures stepErr.None? ==> ran == 4
      ensures stepErr.None? ==>
        && NamespaceReady(k.namespaces.objects, k.namespace) && TlsReady(k.secrets.objects, k.namespace)
        && ServiceReady(k.services.objects, k.namespace)
        && DaemonSetReady(k.daemonSets.objects, k.namespace,
             BuilderDaemonSet(k.namespace, AgentImage(p, config.agentImage, version).0, config.buildkitImage))
    {
      stepErr := AssertNamespace(k);
      ran := 1;
      if stepErr.Some? {
        return;
      }
      stepErr := AssertSecrets(k, es);
      ran := 2;
      if stepErr.Some? {
        return;
      }
      stepErr := AssertService(k);
      ran := 3;
      if stepErr.Some? {
        return;
      }
      stepErr := AssertDaemonSet(k, p, version);
      ran := 4;
    }

    /** The five asserts of Do (install.go:48-67), in order, up to the first that fails: `ran` is the
        number of steps run and `stepErr` the failing step's error. When every step succeeds, `builder`
        is the one selected node, now labelled with the builder role, and the namespace, the TLS
        secrets, the service and the daemonset are in place. */
    method AssertAll(k: Cluster, p: Parsers, d: RuntimeDefaults, version: string, es: SecretsEntropy)
      returns (stepErr: Option<Error>, ghost ran: nat, ghost builder: string)
      requires k.Valid()
      modifies k.nodes`objects, k.namespaces`objects, k.secrets`objects, k.services`objects, k.daemonSets`objects
      modifies config`containerdSocket, config`containerdVolume, config`agentPort, config`agentImage, config`buildkitImage
      ensures k.Valid()
      ensures 1 <= ran <= |Steps|
      ensures stepErr.None? ==> ran == |Steps|
      ensures stepErr.None? ==> BuilderLabelled(old(k.nodes.objects), k.nodes.objects,
        old(config.containerdSocket), old(config.containerdVolume), p, d, builder)
      ensures stepErr.None? ==>
        && NamespaceReady(k.namespaces.objects, k.namespace) && TlsReady(k.secrets.objects, k.namespace)
        && ServiceReady(k.services.objects, k.namespace)
        && DaemonSetReady(k.daemonSets.objects, k.namespace,
             BuilderDaemonSet(k.namespace, AgentImage(p, config.agentImage, version).0, config.buildkitImage))
    {
      stepErr, builder := AssertNodeRole(k, p, d);
      ran := 1;
      if stepErr.Some? {
        return;
      }
      ghost var rest;
      stepErr, rest := AssertResources(k, p, version, es);
      ran := 1 + rest;
    }

    /** Do: run the asserts, stopping at the first that fails; its error passes through checkNoFail, so
        with NoFail the result is nil but the later steps and the wait are still skipped. `ran` lists the
        steps run and `stepErr` the failing step's error; `poll` gives what each readiness Get reports.
        When every step succeeds, the builder is in place as AssertAll describes. */
    method Do(k: Cluster, p: Parsers, d: RuntimeDefaults, version: string, es: SecretsEntropy, poll: nat -> Result<int>)
      returns (err: Option<Error>, ghost ran: seq<Step>, ghost stepErr: Option<Error>, ghost builder: string)
      requires k.Valid()
      modifies k.nodes`objects, k.namespaces`objects, k.secrets`objects, k.services`objects, k.daemonSets`objects
      modifies config`containerdSocket, config`containerdVolume, config`agentPort, config`agentImage, config`buildkitImage
      ensures k.Valid()
      ensures stepErr.Some? ==> 1 <= |ran| <= |Steps| && ran == Steps[..|ran|] && err == CheckNoFail(stepErr)
      ensures stepErr.Some? && noFail ==> err.None?
      ensures stepErr.None? && noWait ==> ran == Steps && err.None?
      ensures stepErr.None? && !noWait ==> ran == Steps + [WaitStep] && err == Readiness(poll)
      ensures stepErr.None? ==> BuilderLabelled(old(k.nodes.objects), k.nodes.objects,
        old(config.containerdSocket), old(config.containerdVolume), p, d, builder)
      ensures stepErr.None? ==>
        && NamespaceReady(k.namespaces.objects, k.namespace) && TlsReady(k.secrets.objects, k.namespace)
        && ServiceReady(k.services.objects, k.namespace)
        && DaemonSetReady(k.daemonSets.objects, k.namespace,
             BuilderDaemonSet(k.namespace, AgentImage(p, config.agentImage, version).0, config.buildkitImage))
    {
      var e;
      ghost var count;
      e, count, builder := AssertAll(k, p, d, version, es);
      ran, stepErr := Steps[..count], e;
      if e.Some? {
        return CheckNoFail(e), ran, stepErr, builder;
      }
      if noWait {
        return None, ran, stepErr, builder;
      }
      ran := ran + [WaitStep];
      err := WaitReady(poll);
    }
  }
}
