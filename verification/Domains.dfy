/** The nine domains, their names and tiers, and the vecs each polls into. */
module Domains {
  import opened Wrappers
  import opened Metrics

  datatype Tier = Fast | Slow

  datatype Domain =
    | PodDomain | ServerlessDomain | BillingDomain | AccountDomain | ClusterDomain
    | TemplateDomain | NetworkVolumeDomain | RegistryDomain | CatalogDomain

  function Name(d: Domain): string {
    match d
    case PodDomain => "pod"
    case ServerlessDomain => "serverless"
    case BillingDomain => "billing"
    case AccountDomain => "account"
    case ClusterDomain => "cluster"
    case TemplateDomain => "template"
    case NetworkVolumeDomain => "network-volume"
    case RegistryDomain => "registry"
    case CatalogDomain => "catalog"
  }

  function TierOf(d: Domain): Tier {
    match d
    case PodDomain | ServerlessDomain | AccountDomain | ClusterDomain => Fast
    case BillingDomain | TemplateDomain | NetworkVolumeDomain | RegistryDomain | CatalogDomain => Slow
  }

  /** The domain that polls into a vec; none for the exporter's own three. */
  function Owner(v: Vec): Option<Domain> {
    match v
    case PodUp | PodCPUUtilPercent | PodMemoryUtilPercent | PodGPUUtilPercent | PodGPUMemoryUtilPercent
       | PodUptimeSeconds | PodCostPerHourDollars | PodDiskGB | PodInfo => Some(PodDomain)
    case ServerlessWorkers | ServerlessWorkerStale | ServerlessWorkersMin | ServerlessWorkersMax | ServerlessInfo =>
      Some(ServerlessDomain)
    case CatalogGpuPriceDollarsPerHour | CatalogCpuPriceDollarsPerVcpuHour | CatalogGpuAvailability => Some(CatalogDomain)
    case ClusterPods | ClusterInfo => Some(ClusterDomain)
    case RegistryInfo | RegistryDelegationCount => Some(RegistryDomain)
    case AccountSSHKeys => Some(AccountDomain)
    case BillingCostDollars => Some(BillingDomain)
    case TemplateInfo => Some(TemplateDomain)
    case NetworkVolumeSizeGB => Some(NetworkVolumeDomain)
    case ScrapeErrorsTotal | LastSuccessTimestamp | ScrapeDuration => None
  }
}
