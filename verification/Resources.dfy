/** The custom resources (api/v1alpha1) the controllers read and the Istio specs they write, with the
    fields the modelled code looks at. */
module Resources {
  import opened Wrappers
  import opened Durations
  import opened Subsets
  import opened Routes

  /** `digest` is the hex SHA-1 of a string. */
  datatype Options = Options(selectLabel: string, proxyAttempts: int, proxyPerTryTimeout: int, digest: string -> string)

  datatype Instance = Instance(host: string, portName: string, port: nat, labels: Labels)

  datatype ConfiguredService = ConfiguredService(namespace: string, name: string, originalName: string,
    instances: seq<Instance>)

  datatype InstanceConfig = InstanceConfig(host: string, port: nat, weight: nat)

  datatype ReroutePolicy = Default | Unchangeable | Specific

  /** `rerouteOption` None is the nil pointer. */
  datatype ServiceConfig = ServiceConfig(
    namespace: string, name: string, originalName: string, policy: Policy, balancer: string,
    manual: seq<Manual>, instances: seq<InstanceConfig>, rerouteOption: Option<ReroutePolicy>)

  /** `match` holds what both the source labels and the headers must be; None matches everything. */
  datatype HttpRoute = HttpRoute(
    name: string, matching: Option<Labels>, routes: seq<Destination>, timeout: Option<Duration>, retries: Retry)

  datatype VirtualService = VirtualService(hosts: seq<string>, http: seq<HttpRoute>)

  datatype Port = Port(number: nat, protocol: string, name: string)

  /** `selector` are the labels that the service's workload entries carry. */
  datatype ServiceEntry = ServiceEntry(hosts: seq<string>, ports: seq<Port>, selector: Labels)

  datatype Balancer = RoundRobin | LeastConn | Random | Passthrough

  datatype RuleSubset = RuleSubset(name: string, labels: Labels, balancer: Option<Balancer>)

  datatype DestinationRule = DestinationRule(host: string, balancer: Balancer, subsets: seq<RuleSubset>)

  /** The controller reference of an object. */
  function OwnedBy(kind: string, name: string): string { kind + "/" + name }

  function LabelsOf(instances: seq<Instance>): (r: seq<Labels>)
    ensures |r| == |instances| && forall i :: 0 <= i < |r| ==> r[i] == instances[i].labels
  {
    seq(|instances|, i requires 0 <= i < |instances| => instances[i].labels)
  }

  /** getlb. */
  function BalancerNamed(s: string): Balancer {
    if s == "ROUND_ROBIN" then RoundRobin
    else if s == "LEAST_CONN" then LeastConn
    else if s == "PASSTHROUGH" then Passthrough
    else Random
  }
}
