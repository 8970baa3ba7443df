/** The client's connection to the cluster (pkg/client/client.go) and the lookup of the builder's
    address from its endpoints (the same search in pkg/client/client.go, pkg/client/action/action.go and
    pkg/client/do/do.go). Reading the builder service and endpoints from the API server is an input:
    each lookup is given the outcome of its Get. */
module KubeClient {
  import opened Outcomes
  import opened Kube
  import Text

  const DefaultNamespace: string := "kube-image"
  const NotConfiguredMessage: string := "client is not configured, please set client config"
  const EndpointOverrideKey: string := "images.cattle.io/endpoint-override"
  const UnknownServicePortMessage: string := "unknown service port"

  datatype Config = Config(namespace: string, kubeconfig: string, context: string)

  /** The part of a client interface the modelled code reads: the namespace it works in. */
  class Interface {
    var namespace: string

    constructor (namespace: string)
      ensures this.namespace == namespace
    {
      this.namespace := namespace;
    }
  }

  /** The namespace NewInterface settles on: the requested one, else the kubeconfig's, else the
      default; it is never empty. */
  function ChosenNamespace(kubens: string, loaded: string): (r: string)
    ensures r != ""
    ensures kubens != "" ==> r == kubens
    ensures kubens == "" && loaded != "" ==> r == loaded
    ensures kubens == "" && loaded == "" ==> r == DefaultNamespace
  {
    var ns := if kubens != "" then kubens else loaded;
    if ns == "" then DefaultNamespace else ns
  }

  /** NewInterface (client.go:55-122). `loaded` is the namespace read from the kubeconfig, or the error
      reading it; `connectErr` the first error, if any, of building the REST config, the controller
      factories and the apply client. */
  method NewInterface(kubens: string, loaded: Result<string>, connectErr: Option<Error>) returns (r: Result<Interface>)
    ensures loaded.Err? ==> r == Err(loaded.error)
    ensures loaded.Ok? && connectErr.Some? ==> r == Err(connectErr.value)
    ensures r.Ok? <==> loaded.Ok? && connectErr.None?
    ensures r.Ok? ==> r.value.namespace == ChosenNamespace(kubens, loaded.value)
  {
    if loaded.Err? {
      return Err(loaded.error);
    }
    var ns := loaded.value;
    if kubens != "" {
      ns := kubens;
    }
    if connectErr.Some? {
      return Err(connectErr.value);
    }
    var c := new Interface(ns);
    if c.namespace == "" {
      c.namespace := DefaultNamespace;
    }
    return Ok(c);
  }

  /** Config.Interface (client.go:40-45): a missing configuration is an error; otherwise the
      interface is built from its settings. */
  method ConfigInterface(c: Option<Config>, loaded: Result<string>, connectErr: Option<Error>) returns (r: Result<Interface>)
    ensures c.None? ==> r == Err(Message(NotConfiguredMessage))
    ensures c.Some? ==> (r.Ok? <==> loaded.Ok? && connectErr.None?)
    ensures c.Some? && r.Ok? ==> r.value.namespace == ChosenNamespace(c.value.namespace, loaded.value)
    ensures c.Some? && r.Err? ==> r.error == if loaded.Err? then loaded.error else connectErr.value
  {
    if c.None? {
      return Err(Message(NotConfiguredMessage));
    }
    r := NewInterface(c.value.namespace, loaded, connectErr);
  }

  /** The number of the first port of a list with the given name. */
  function PortNamed(ports: seq<EndpointPort>, name: string): (r: Option<int>)
    ensures r.Some? <==> exists i | 0 <= i < |ports| :: ports[i].name == name
    ensures r.Some? ==> exists i | 0 <= i < |ports| :: ports[i].name == name && ports[i].port == r.value
                          && forall j | 0 <= j < i :: ports[j].name != name
  {
    if |ports| == 0 then None
    else if ports[0].name == name then Some(ports[0].port)
    else
      var rest := PortNamed(ports[1..], name);
      assert forall i | 0 <= i < |ports| - 1 :: ports[1..][i] == ports[i + 1];
      if rest.Some? then
        ghost var i :| 0 <= i < |ports| - 1 && ports[1..][i].name == name && ports[1..][i].port == rest.value
                       && forall j | 0 <= j < i :: ports[1..][j].name != name;
        assert ports[i + 1].name == name && forall j | 0 <= j < i + 1 :: ports[j].name != name;
        rest
      else rest
  }

  /** A builder endpoint: the address and port a client dials. */
  datatype Endpoint = Endpoint(ip: string, port: int)

  /** A subset serves the port when it has an address and a port of that name. */
  predicate Serves(sub: EndpointSubset, name: string) {
    |sub.addresses| > 0 && PortNamed(sub.ports, name).Some?
  }

  /** The nested search of the three GetServiceAddress functions: subsets without addresses are
      skipped, and the first subset with addresses and a port of that name gives its first address and
      that port. */
  function FindEndpoint(subsets: seq<EndpointSubset>, name: string): (r: Option<Endpoint>)
    decreases |subsets|
  {
    if |subsets| == 0 then None
    else if Serves(subsets[0], name) then Some(Endpoint(subsets[0].addresses[0], PortNamed(subsets[0].ports, name).value))
    else FindEndpoint(subsets[1..], name)
  }

  /** The search finds an endpoint exactly when some subset serves the port, and then it is the first
      such subset's first address with the number of its first port of that name. */
  lemma {:induction false} FindEndpointFirst(subsets: seq<EndpointSubset>, name: string)
    ensures FindEndpoint(subsets, name).Some? <==> exists i | 0 <= i < |subsets| :: Serves(subsets[i], name)
    ensures forall i | 0 <= i < |subsets| && Serves(subsets[i], name) && (forall j | 0 <= j < i :: !Serves(subsets[j], name)) ::
      FindEndpoint(subsets, name) == Some(Endpoint(subsets[i].addresses[0], PortNamed(subsets[i].ports, name).value))
    decreases |subsets|
  {
    if |subsets| > 0 {
      FindEndpointFirst(subsets[1..], name);
      assert forall i | 0 <= i < |subsets| - 1 :: subsets[1..][i] == subsets[i + 1];
      forall i | 0 <= i < |subsets| && Serves(subsets[i], name) && (forall j | 0 <= j < i :: !Serves(subsets[j], name))
        ensures FindEndpoint(subsets, name) == Some(Endpoint(subsets[i].addresses[0], PortNamed(subsets[i].ports, name).value))
      {
        if i > 0 {
          assert !Serves(subsets[0], name);
          assert forall j | 0 <= j < i - 1 :: !Serves(subsets[1..][j], name) by {
            forall j | 0 <= j < i - 1 ensures !Serves(subsets[1..][j], name) {
              assert subsets[1..][j] == subsets[j + 1];
            }
          }
          assert subsets[1..][i - 1] == subsets[i];
        }
      }
      if exists i | 0 <= i < |subsets| :: Serves(subsets[i], name) {
        var i :| 0 <= i < |subsets| && Serves(subsets[i], name);
        if i > 0 && !Serves(subsets[0], name) {
          assert Serves(subsets[1..][i - 1], name);
        }
      }
    }
  }

  /** An endpoint as a dialable address: the host (bracketed when it contains ':') and the decimal port. */
  function Dial(host: string, port: int): string {
    Text.JoinHostPort(host, Text.FormatInt(port))
  }

  /** GetServiceAddress (client.go:124-148): the builder service and endpoints are read in that order
      and their errors returned as they are; the endpoint-override annotation of the service, when
      present, replaces the endpoint's address. */
  function GetServiceAddress(service: Result<Service>, endpoints: Result<Endpoints>, port: string): (r: Result<string>)
    ensures service.Err? ==> r == Err(service.error)
    ensures service.Ok? && endpoints.Err? ==> r == Err(endpoints.error)
    ensures service.Ok? && endpoints.Ok? ==>
      var found := FindEndpoint(endpoints.value.subsets, port);
      var annotations := LabelsOf(service.value.annotations);
      && (found.None? ==> r == Err(Message(UnknownServicePortMessage)))
      && (found.Some? ==> r == Ok(Dial(if EndpointOverrideKey in annotations then annotations[EndpointOverrideKey] else found.value.ip,
                                    found.value.port)))
  {
    if service.Err? then Err(service.error)
    else if endpoints.Err? then Err(endpoints.error)
    else
      var found := FindEndpoint(endpoints.value.subsets, port);
      if found.None? then Err(Message(UnknownServicePortMessage))
      else
        var annotations := LabelsOf(service.value.annotations);
        var host := if EndpointOverrideKey in annotations then annotations[EndpointOverrideKey] else found.value.ip;
        Ok(Dial(host, found.value.port))
  }

  /** GetServiceAddress of pkg/client/action/action.go:119-135 and pkg/client/do/do.go:13-29: only the
      endpoints are read, and the address found is always the endpoint's own. */
  function GetEndpointsAddress(endpoints: Result<Endpoints>, port: string): (r: Result<string>)
    ensures endpoints.Err? ==> r == Err(endpoints.error)
    ensures endpoints.Ok? && FindEndpoint(endpoints.value.subsets, port).None? ==> r == Err(Message(UnknownServicePortMessage))
    ensures endpoints.Ok? && FindEndpoint(endpoints.value.subsets, port).Some? ==>
      r == Ok(Dial(FindEndpoint(endpoints.value.subsets, port).value.ip, FindEndpoint(endpoints.value.subsets, port).value.port))
  {
    if endpoints.Err? then Err(endpoints.error)
    else
      var found := FindEndpoint(endpoints.value.subsets, port);
      if found.None? then Err(Message(UnknownServicePortMessage)) else Ok(Dial(found.value.ip, found.value.port))
  }

  /** The two lookups agree once the service is read and carries no override; with an override they
      differ at most in the host. */
  lemma EndpointsAddressWithoutOverride(service: Service, endpoints: Result<Endpoints>, port: string)
    requires EndpointOverrideKey !in LabelsOf(service.annotations)
    ensures GetServiceAddress(Ok(service), endpoints, port) == GetEndpointsAddress(endpoints, port)
  {
  }

  /** With the override present, the address dialled is the override's, whatever the endpoints say, as
      long as some subset serves the port. */
  lemma OverrideWins(service: Service, endpoints: Endpoints, port: string)
    requires EndpointOverrideKey in LabelsOf(service.annotations)
    requires exists i | 0 <= i < |endpoints.subsets| :: Serves(endpoints.subsets[i], port)
    ensures GetServiceAddress(Ok(service), Ok(endpoints), port).Ok?
    ensures exists p :: GetServiceAddress(Ok(service), Ok(endpoints), port)
                        == Ok(Dial(LabelsOf(service.annotations)[EndpointOverrideKey], p))
  {
    FindEndpointFirst(endpoints.subsets, port);
    var p := FindEndpoint(endpoints.subsets, port).value.port;
    assert GetServiceAddress(Ok(service), Ok(endpoints), port) == Ok(Dial(LabelsOf(service.annotations)[EndpointOverrideKey], p));
  }
}
