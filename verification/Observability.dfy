/** The Observability custom resource and the repository indexes, as far as the modelled code reads them. */
module Observability {
  import opened Kube

  datatype SelfContained = SelfContained(
    disableRepoSync: Option<bool>,
    disableObservatorium: Option<bool>,
    disablePagerDuty: Option<bool>,
    disableDeadmansSnitch: Option<bool>,
    disableSmtp: Option<bool>,
    alertmanagerConfigSecret: string)

  datatype DescopedMode = DescopedMode(enabled: Option<bool>, operatorNs: string)

  predicate Set(flag: Option<bool>) {
    flag == Some(true)
  }

  /** The spec (and namespace) of the custom resource. Empty default names mean "not set". */
  datatype Cr = Cr(
    ns: string,
    selfContained: Option<SelfContained>,
    descoped: Option<DescopedMode>,
    prometheusName: string,
    alertmanagerName: string,
    grafanaName: string)
  {
    predicate ExternalSyncDisabled() { selfContained.Some? && Set(selfContained.value.disableRepoSync) }
    predicate ObservatoriumDisabled() { selfContained.Some? && Set(selfContained.value.disableObservatorium) }
    predicate PagerDutyDisabled() { selfContained.Some? && Set(selfContained.value.disablePagerDuty) }
    predicate DeadMansSnitchDisabled() { selfContained.Some? && Set(selfContained.value.disableDeadmansSnitch) }
    predicate SmtpDisabled() { selfContained.Some? && Set(selfContained.value.disableSmtp) }
    predicate HasAlertmanagerConfigSecret() { selfContained.Some? && selfContained.value.alertmanagerConfigSecret != "" }
    predicate Descoped() { descoped.Some? && Set(descoped.value.enabled) }

    function OperatorNs(): string {
      if Descoped() && descoped.value.operatorNs != "" then descoped.value.operatorNs else ns
    }

    /** A custom name only counts while the self-contained block is present. */
    function Prometheus(): string {
      if selfContained.Some? && prometheusName != "" then prometheusName else "obs-prometheus"
    }
    function Alertmanager(): string {
      if selfContained.Some? && alertmanagerName != "" then alertmanagerName else "obs-alertmanager"
    }
    function Grafana(): string {
      if selfContained.Some? && grafanaName != "" then grafanaName else "obs-grafana"
    }
  }

  datatype RedhatSso = RedhatSso(
    url: string, realm: string,
    metricsClient: string, metricsSecret: string,
    logsClient: string, logsSecret: string)
  {
    predicate HasAuthServer() { url != "" && realm != "" }
    predicate HasMetrics() { HasAuthServer() && metricsClient != "" && metricsSecret != "" }
    predicate HasLogs() { HasAuthServer() && logsClient != "" && logsSecret != "" }
  }

  datatype DexConfig = DexConfig(
    url: string, username: string, password: string, secret: string,
    credentialNs: string, credentialName: string)

  const AuthTypeDex := "dex"
  const AuthTypeRedhat := "redhat"

  datatype Observatorium = Observatorium(
    id: string, secretName: string, gateway: string, tenant: string, authType: string,
    dex: Option<DexConfig>, sso: Option<RedhatSso>)
  {
    predicate IsValid() { gateway != "" }
  }

  datatype AlertmanagerIndex = AlertmanagerIndex(
    pagerDutySecret: string, pagerDutyNs: string,
    snitchSecret: string, snitchNs: string,
    smtpSecret: string, smtpNs: string,
    smtpTo: seq<string>, smtpFrom: string)

  datatype PrometheusIndex = PrometheusIndex(rules: seq<string>, podMonitors: seq<string>)

  datatype PromtailIndex = PromtailIndex(enabled: bool, observatorium: string, namespaceSelector: Labels)

  datatype Config = Config(
    dashboards: Option<seq<string>>,
    prometheus: Option<PrometheusIndex>,
    alertmanager: Option<AlertmanagerIndex>,
    promtail: Option<PromtailIndex>,
    observatoria: seq<Observatorium>)
  {
    predicate PromtailEnabled() { promtail.Some? && promtail.value.enabled }
  }

  datatype Index = Index(id: string, baseUrl: string, accessToken: string, tag: string, config: Option<Config>)

  ghost predicate DistinctIds(indexes: seq<Index>) {
    forall i, j :: 0 <= i < j < |indexes| ==> indexes[i].id != indexes[j].id
  }

  const ManagedBy: Labels := map["managed-by" := "observability-operator"]
}
