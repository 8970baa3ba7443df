/** The Kubernetes objects kim reads and writes, reduced to the fields the modelled code uses, and the
    cluster: one store per resource kind. */
module Kube {
  import opened Outcomes
  import opened Stores
  import Cert

  /** A label or annotation map that may be nil (None), as a Go map field may. */
  type OptLabels = Option<Labels>

  function LabelsOf(l: OptLabels): Labels {
    if l.None? then map[] else l.value
  }

  datatype AddressType = InternalIP | ExternalIP | Hostname | InternalDNS | ExternalDNS
  datatype NodeAddress = NodeAddress(kind: AddressType, address: string)

  datatype Node = Node(name: string, labels: OptLabels, containerRuntimeVersion: string, addresses: seq<NodeAddress>)

  datatype Namespace = Namespace(name: string, labels: OptLabels)

  /** Namespaced objects are stored under their namespace and name. */
  datatype ObjectKey = ObjectKey(namespace: string, name: string)

  /** Docker's config.json: `auths` may be absent or null (None). */
  datatype AuthEntry = AuthEntry(username: string, password: string)
  datatype DockerConfigJson = DockerConfigJson(auths: Option<map<string, AuthEntry>>)

  /** The bytes of a secret's data entry, by what they decode to. PEM text is a sequence of blocks (no
      bytes at all is the empty sequence); JSON is a docker config; anything else is opaque. */
  datatype Bytes = Pem(blocks: seq<Cert.PemBlock>) | Json(config: DockerConfigJson) | Opaque(id: nat)

  /** The PEM blocks found in a data entry; text that is not PEM has none. */
  function PemBlocks(b: Bytes): seq<Cert.PemBlock> {
    if b.Pem? then b.blocks else []
  }

  /** encoding/json.Unmarshal into a DockerConfigJson: only JSON text parses. */
  function UnmarshalConfig(b: Bytes): (r: Result<DockerConfigJson>)
    ensures r.Ok? <==> b.Json?
  {
    if b.Json? then Ok(b.config) else Err(Message("invalid character looking for beginning of value"))
  }

  /** encoding/json.Marshal of a DockerConfigJson; it reads back as the same value. */
  function MarshalConfig(c: DockerConfigJson): (r: Bytes)
    ensures UnmarshalConfig(r) == Ok(c)
  {
    Json(c)
  }

  datatype SecretType = Opaque | Tls | DockerConfigJsonType | OtherType(name: string)

  const TlsCertKey: string := "tls.crt"
  const TlsPrivateKeyKey: string := "tls.key"
  const DockerConfigJsonKey: string := ".dockerconfigjson"

  datatype Secret = Secret(namespace: string, name: string, labels: OptLabels, kind: SecretType, data: map<string, Bytes>)

  /** Reading a data entry of a secret: a missing key reads as no bytes. */
  function DataOf(s: Secret, key: string): Bytes {
    if key in s.data then s.data[key] else Pem([])
  }

  datatype Protocol = NoProtocol | TCP
  datatype ServicePort = ServicePort(name: string, port: int, protocol: Protocol)
  datatype ContainerPort = ContainerPort(name: string, containerPort: int, protocol: Protocol)
  datatype ServiceType = ClusterIP | NodePort | LoadBalancer

  datatype Service = Service(namespace: string, name: string, labels: OptLabels, annotations: OptLabels,
                             kind: ServiceType, selector: Labels, ports: seq<ServicePort>)

  /** The builder daemonset: the settings kim derives for it from its configuration. */
  datatype DaemonSet = DaemonSet(namespace: string, name: string, labels: Labels, agentImage: string,
                                 buildkitImage: string, buildkitSocket: string, containerdSocket: string,
                                 containerdVolume: string, ports: seq<ContainerPort>)

  datatype EndpointPort = EndpointPort(name: string, port: int)
  datatype EndpointSubset = EndpointSubset(addresses: seq<string>, ports: seq<EndpointPort>)
  datatype Endpoints = Endpoints(namespace: string, name: string, subsets: seq<EndpointSubset>)

  /** A parsed label query: every requirement must hold. */
  datatype Requirement = Exists(key: string) | Equals(key: string, value: string)
  type Selector = seq<Requirement>

  predicate Satisfies(labels: Labels, q: Requirement) {
    match q
    case Exists(k) => k in labels
    case Equals(k, v) => k in labels && labels[k] == v
  }

  predicate Matches(q: Selector, labels: Labels) {
    forall i | 0 <= i < |q| :: Satisfies(labels, q[i])
  }

  const BuilderRoleLabel: string := "node-role.kubernetes.io/builder"

  /** The label set kim puts on every object it creates. */
  const ManagedLabels: Labels := map[ManagedByKey := ManagedByValue]

  function NodeName(n: Node): string { n.name }
  function NamespaceName(n: Namespace): string { n.name }
  function SecretKey(s: Secret): ObjectKey { ObjectKey(s.namespace, s.name) }
  function ServiceKey(s: Service): ObjectKey { ObjectKey(s.namespace, s.name) }
  function DaemonSetKey(d: DaemonSet): ObjectKey { ObjectKey(d.namespace, d.name) }
  function EndpointsKey(e: Endpoints): ObjectKey { ObjectKey(e.namespace, e.name) }

  ghost predicate NodeStore(st: Store<string, Node>) reads st {
    st.Valid() && forall n :: st.keyOf(n) == n.name
  }

  ghost predicate NamespaceStore(st: Store<string, Namespace>) reads st {
    st.Valid() && (forall n :: st.keyOf(n) == n.name) && "" !in st.objects
  }

  ghost predicate SecretStore(st: Store<ObjectKey, Secret>) reads st {
    st.Valid() && forall s :: st.keyOf(s) == SecretKey(s)
  }

  ghost predicate ServiceStore(st: Store<ObjectKey, Service>) reads st {
    st.Valid() && (forall s :: st.keyOf(s) == ServiceKey(s)) && ObjectKey("", "") !in st.objects
  }

  ghost predicate DaemonSetStore(st: Store<ObjectKey, DaemonSet>) reads st {
    st.Valid() && forall d :: st.keyOf(d) == DaemonSetKey(d)
  }

  ghost predicate EndpointsStore(st: Store<ObjectKey, Endpoints>) reads st {
    st.Valid() && forall e :: st.keyOf(e) == EndpointsKey(e)
  }

  /** The cluster as one client sees it: the namespace the client works in and one store per kind. */
  class Cluster {
    const namespace: string
    const nodes: Store<string, Node>
    const namespaces: Store<string, Namespace>
    const secrets: Store<ObjectKey, Secret>
    const services: Store<ObjectKey, Service>
    const daemonSets: Store<ObjectKey, DaemonSet>
    const endpoints: Store<ObjectKey, Endpoints>

    /** The stores are well formed, their keys are the ones above, and, as the API server
        guarantees, no stored object has an empty name. */
    ghost predicate Valid()
      reads this, nodes, namespaces, secrets, services, daemonSets, endpoints
    {
      && NodeStore(nodes) && NamespaceStore(namespaces) && SecretStore(secrets) && ServiceStore(services)
      && DaemonSetStore(daemonSets) && EndpointsStore(endpoints) && namespace != ""
      && ObjectKey("", "") !in secrets.objects
    }

    constructor (namespace: string, nodes: map<string, Node>, namespaces: map<string, Namespace>)
      requires forall k | k in nodes :: nodes[k].name == k
      requires forall k | k in namespaces :: namespaces[k].name == k
      requires "" !in namespaces && namespace != ""
      ensures Valid() && this.namespace == namespace
      ensures this.nodes.objects == nodes && this.namespaces.objects == namespaces
      ensures secrets.objects == map[] && services.objects == map[] && daemonSets.objects == map[]
      ensures endpoints.objects == map[]
      ensures fresh(this.nodes) && fresh(this.namespaces) && fresh(secrets) && fresh(services)
      ensures fresh(daemonSets) && fresh(endpoints)
    {
      this.namespace := namespace;
      this.nodes := new Store(NodeName, nodes);
      this.namespaces := new Store(NamespaceName, namespaces);
      this.secrets := new Store(SecretKey, map[]);
      this.services := new Store(ServiceKey, map[]);
      this.daemonSets := new Store(DaemonSetKey, map[]);
      this.endpoints := new Store(EndpointsKey, map[]);
    }
  }
}
