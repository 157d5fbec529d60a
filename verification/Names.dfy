/** Names derived from a custom resource's name by appending a fixed suffix. */
module Names {
  import opened CustomResources

  /** Each Service the four component controllers make. */
  datatype ServiceRole =
    | NodeBase | NodeInternal | NodeHeadless | NodeMetrics
    | FarmerBase | FarmerMetrics
    | HarvesterBase | HarvesterMetrics
    | WalletBase | WalletMetrics

  function Suffix(role: ServiceRole): string {
    match role
    case NodeBase => "-node"
    case NodeInternal => "-node-internal"
    case NodeHeadless => "-node-headless"
    case NodeMetrics => "-node-metrics"
    case FarmerBase => "-farmer"
    case FarmerMetrics => "-farmer-metrics"
    case HarvesterBase => "-harvester"
    case HarvesterMetrics => "-harvester-metrics"
    case WalletBase => "-wallet"
    case WalletMetrics => "-wallet-metrics"
  }

  function ServedKind(role: ServiceRole): Kind {
    match role
    case NodeBase => NodeKind
    case NodeInternal => NodeKind
    case NodeHeadless => NodeKind
    case NodeMetrics => NodeKind
    case FarmerBase => FarmerKind
    case FarmerMetrics => FarmerKind
    case HarvesterBase => HarvesterKind
    case HarvesterMetrics => HarvesterKind
    case WalletBase => WalletKind
    case WalletMetrics => WalletKind
  }

  function BaseRole(kind: Kind): ServiceRole {
    match kind
    case NodeKind => NodeBase
    case FarmerKind => FarmerBase
    case HarvesterKind => HarvesterBase
    case WalletKind => WalletBase
  }

  function MetricsRole(kind: Kind): ServiceRole {
    match kind
    case NodeKind => NodeMetrics
    case FarmerKind => FarmerMetrics
    case HarvesterKind => HarvesterMetrics
    case WalletKind => WalletMetrics
  }

  function ServiceName(role: ServiceRole, name: string): string {
    name + Suffix(role)
  }

  /** The StatefulSet or Deployment carries the same name as the base Service. */
  function WorkloadName(kind: Kind, name: string): string {
    ServiceName(BaseRole(kind), name)
  }

  const CA_GENERATOR_SUFFIX := "-chiaca-generator"

  function GeneratorName(name: string): string {
    name + CA_GENERATOR_SUFFIX
  }

  /** The k-th character from the end, counted from 1. */
  function FromEnd(s: string, k: nat): char {
    if 1 <= k <= |s| then s[|s| - k] else ' '
  }

  /** The role a Service name ends in, read off five characters near its end. */
  function RoleOf(s: string): ServiceRole {
    match FromEnd(s, 1)
    case 'e' => NodeBase
    case 'l' => NodeInternal
    case 't' => WalletBase
    case 'r' => if FromEnd(s, 3) == 'm' then FarmerBase else HarvesterBase
    case _ =>
      if FromEnd(s, 2) == 's' then NodeHeadless
      else match FromEnd(s, 9)
           case 'e' => NodeMetrics
           case 't' => WalletMetrics
           case _ => if FromEnd(s, 11) == 'm' then FarmerMetrics else HarvesterMetrics
  }

  lemma FromEndAppend(n: string, t: string, k: nat)
    requires 1 <= k <= |t|
    ensures FromEnd(n + t, k) == t[|t| - k]
  {
  }

  /** No suffix is the end of another one: whatever text comes before it, a suffix is recognised. */
  lemma SuffixFree(n: string, r: ServiceRole)
    ensures RoleOf(ServiceName(r, n)) == r
  {
    var t := Suffix(r);
    FromEndAppend(n, t, 1);
    FromEndAppend(n, t, 2);
    FromEndAppend(n, t, 3);
    if |t| >= 11 {
      FromEndAppend(n, t, 9);
      FromEndAppend(n, t, 11);
    }
  }

  /** A Service name tells which component it serves, in which role, and the resource's name. */
  lemma ServiceNameInjective(r: ServiceRole, n: string, r': ServiceRole, n': string)
    requires ServiceName(r, n) == ServiceName(r', n')
    ensures r == r' && n == n'
  {
    SuffixFree(n, r);
    SuffixFree(n', r');
    var s := ServiceName(r, n);
    assert n == s[..|s| - |Suffix(r)|] == n';
  }

  lemma WorkloadNameInjective(k: Kind, n: string, k': Kind, n': string)
    requires WorkloadName(k, n) == WorkloadName(k', n')
    ensures k == k' && n == n'
  {
    ServiceNameInjective(BaseRole(k), n, BaseRole(k'), n');
  }

  lemma GeneratorNameInjective(n: string, n': string)
    requires GeneratorName(n) == GeneratorName(n')
    ensures n == n'
  {
    var s := GeneratorName(n);
    assert n == s[..|s| - |CA_GENERATOR_SUFFIX|] == n';
  }
}
