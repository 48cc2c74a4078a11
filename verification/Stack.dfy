/** The objects of the monitoring stack by name, and the stages that own them. */
module Stack {
  import opened Kube
  import opened Observability

  datatype Stage =
    | TokenRequestStage
    | PrometheusInstallationStage | PrometheusConfigurationStage
    | GrafanaInstallationStage | GrafanaConfigurationStage
    | AlertmanagerInstallationStage | PromtailInstallationStage | LoggingInstallationStage
    | CsvStage | MigrationStage | ConfigurationStage

  datatype StageStatus = ResultSuccess | ResultInProgress | ResultFailed

  const InstallationStages := [
    TokenRequestStage, PrometheusInstallationStage, PrometheusConfigurationStage, GrafanaInstallationStage,
    GrafanaConfigurationStage, AlertmanagerInstallationStage, PromtailInstallationStage, LoggingInstallationStage,
    CsvStage, MigrationStage, ConfigurationStage]

  const CleanupStages := [
    PrometheusConfigurationStage, GrafanaConfigurationStage, PrometheusInstallationStage, GrafanaInstallationStage,
    AlertmanagerInstallationStage, PromtailInstallationStage, LoggingInstallationStage, ConfigurationStage,
    TokenRequestStage, CsvStage]

  // ---------- Custom resources and the workloads behind them ----------

  datatype Component = PrometheusServer | AlertmanagerServer | GrafanaServer

  function PrometheusCr(cr: Cr): Key { Key(Prometheus, cr.OperatorNs(), cr.Prometheus()) }
  function AlertmanagerCr(cr: Cr): Key { Key(Alertmanager, cr.OperatorNs(), cr.Alertmanager()) }
  function GrafanaCr(cr: Cr): Key { Key(Grafana, cr.ns, cr.Grafana()) }

  function Resource(cr: Cr, x: Component): Key {
    match x
    case PrometheusServer => PrometheusCr(cr)
    case AlertmanagerServer => AlertmanagerCr(cr)
    case GrafanaServer => GrafanaCr(cr)
  }

  /** What the component's controller runs, next to the custom resource. */
  function Workload(cr: Cr, x: Component): Key {
    match x
    case PrometheusServer => Key(StatefulSet, cr.OperatorNs(), "prometheus-" + cr.Prometheus())
    case AlertmanagerServer => Key(StatefulSet, cr.OperatorNs(), "alertmanager-" + cr.Alertmanager())
    case GrafanaServer => Key(Deployment, cr.ns, "grafana-deployment")
  }

  /** What the WaitFor functions look for: always in the namespace of the Observability resource. */
  function Awaited(cr: Cr, x: Component): Key {
    Workload(cr, x).(ns := cr.ns)
  }

  // ---------- Fixed-name objects by stage ----------

  function PrometheusSubscription(cr: Cr): Key { Key(Subscription, cr.OperatorNs(), "prometheus-subscription") }
  function PrometheusOperatorGroup(cr: Cr): Key { Key(OperatorGroup, cr.OperatorNs(), "observability-operatorgroup") }
  function PrometheusCatalogSource(cr: Cr): Key { Key(CatalogSource, cr.OperatorNs(), "prometheus-catalogsource") }

  /** The sequences below are in the order in which the stage's Cleanup deletes their objects. */
  function PrometheusInstallationKeys(cr: Cr): seq<Key> {
    [PrometheusSubscription(cr), PrometheusOperatorGroup(cr), PrometheusCatalogSource(cr)]
    + if cr.Descoped() then [Key(Namespace, "", cr.OperatorNs())] else []
  }

  function PrometheusScrapeConfig(cr: Cr): Key { Key(Secret, cr.OperatorNs(), "additional-scrape-configs") }
  function PrometheusRoute(cr: Cr): Key { Key(Route, cr.OperatorNs(), cr.Prometheus()) }
  function PrometheusBinding(cr: Cr): Key { Key(ClusterRoleBinding, "", cr.Prometheus()) }
  function PrometheusRole(cr: Cr): Key { Key(ClusterRole, "", cr.Prometheus()) }
  function PrometheusAccount(cr: Cr): Key { Key(ServiceAccount, cr.OperatorNs(), cr.Prometheus()) }
  function PrometheusService(cr: Cr): Key { Key(Service, cr.OperatorNs(), cr.Prometheus()) }
  function PrometheusProxySecret(cr: Cr): Key { Key(Secret, cr.OperatorNs(), "prometheus-proxy") }
  function PrometheusTlsSecret(cr: Cr): Key { Key(Secret, cr.OperatorNs(), "prometheus-k8s-tls") }

  function PrometheusFrontKeys(cr: Cr): seq<Key> {
    [PrometheusScrapeConfig(cr), PrometheusRoute(cr), PrometheusCr(cr)]
  }
  function PrometheusBackKeys(cr: Cr): seq<Key> {
    [PrometheusBinding(cr), PrometheusRole(cr), PrometheusAccount(cr), PrometheusService(cr),
     PrometheusProxySecret(cr), PrometheusTlsSecret(cr)]
  }

  function GrafanaCatalogSource(cr: Cr): Key { Key(CatalogSource, cr.ns, "grafana-operator-catalog-source") }
  function GrafanaSubscription(cr: Cr): Key { Key(Subscription, cr.ns, "grafana-subscription") }
  function GrafanaOperatorGroup(cr: Cr): Key { Key(OperatorGroup, cr.ns, "observability-operatorgroup") }
  function GrafanaOperator(cr: Cr): Key { Key(Deployment, cr.ns, "grafana-operator") }

  function GrafanaInstallationKeys(cr: Cr): seq<Key> {
    [GrafanaCatalogSource(cr), GrafanaSubscription(cr), GrafanaOperatorGroup(cr)]
  }

  function GrafanaDatasource(cr: Cr): Key { Key(GrafanaDataSource, cr.ns, "on-cluster-prometheus") }
  function GrafanaProxySecret(cr: Cr): Key { Key(Secret, cr.ns, "grafana-k8s-proxy") }
  function GrafanaBinding(): Key { Key(ClusterRoleBinding, "", "cluster-grafana-oauth-proxy-cluster-role-binding") }
  function GrafanaRole(): Key { Key(ClusterRole, "", "grafana-oauth-proxy-cluster-role") }

  function GrafanaBackKeys(cr: Cr): seq<Key> {
    [GrafanaDatasource(cr), GrafanaProxySecret(cr), GrafanaBinding(), GrafanaRole()]
  }

  function AlertmanagerSecret(cr: Cr): Key { Key(Secret, cr.OperatorNs(), "alertmanager-" + cr.Alertmanager()) }
  function AlertmanagerProxySecret(cr: Cr): Key { Key(Secret, cr.OperatorNs(), "alertmanager-proxy") }
  function AlertmanagerTlsSecret(cr: Cr): Key { Key(Secret, cr.OperatorNs(), "alertmanager-k8s-tls") }
  function AlertmanagerRoute(cr: Cr): Key { Key(Route, cr.OperatorNs(), cr.Alertmanager()) }
  function AlertmanagerService(cr: Cr): Key { Key(Service, cr.OperatorNs(), cr.Alertmanager()) }
  function AlertmanagerAccount(cr: Cr): Key { Key(ServiceAccount, cr.OperatorNs(), cr.Alertmanager()) }
  function AlertmanagerRole(cr: Cr): Key { Key(ClusterRole, "", cr.Alertmanager()) }
  function AlertmanagerBinding(cr: Cr): Key { Key(ClusterRoleBinding, "", cr.Alertmanager()) }

  function AlertmanagerBackKeys(cr: Cr): seq<Key> {
    [AlertmanagerSecret(cr), AlertmanagerProxySecret(cr), AlertmanagerTlsSecret(cr), AlertmanagerRoute(cr),
     AlertmanagerService(cr), AlertmanagerAccount(cr), AlertmanagerRole(cr), AlertmanagerBinding(cr)]
  }

  predicate PromtailOff(cr: Cr) { cr.ObservatoriumDisabled() || cr.ExternalSyncDisabled() }

  function PromtailBinding(): Key { Key(ClusterRoleBinding, "", "obs-promtail") }
  function PromtailRole(): Key { Key(ClusterRole, "", "obs-promtail") }
  function PromtailAccount(cr: Cr): Key { Key(ServiceAccount, cr.ns, "obs-promtail") }

  function PromtailKeys(cr: Cr): seq<Key> {
    [PromtailBinding(), PromtailRole(), PromtailAccount(cr)]
  }

  function TokenLifetimes(cr: Cr): Key { Key(ConfigMap, cr.ns, "observatorium-token-lifetimes") }

  function ResourcesDeployment(cr: Cr): Key { Key(Deployment, cr.ns, "obs-resources") }
  function ResourcesService(cr: Cr): Key { Key(Service, cr.ns, "obs-resources") }
  function ResourcesRoute(cr: Cr): Key { Key(Route, cr.ns, "observability-resources-route") }

  function ResourcesKeys(cr: Cr): seq<Key> {
    [ResourcesDeployment(cr), ResourcesService(cr), ResourcesRoute(cr)]
  }

  function CredentialsSecret(cr: Cr): Key { Key(Secret, cr.ns, "observatorium-credentials") }

  const LoggingNs := "openshift-logging"
  const LoggingLabel: Labels := map["app.kubernetes.io/managed-by" := "observability-operator"]
  function LoggingSubscription(): Key { Key(Subscription, LoggingNs, "cluster-logging") }
  function LoggingInstance(): Key { Key(ClusterLogging, LoggingNs, "instance") }
  function LogForwarderInstance(): Key { Key(ClusterLogForwarder, LoggingNs, "instance") }

  function LoggingInstances(): seq<Key> { [LoggingInstance(), LogForwarderInstance()] }

  ghost predicate Absent(s: Store, ks: seq<Key>) {
    forall i :: 0 <= i < |ks| ==> ks[i] !in s
  }

  predicate HasPrefix(s: string, prefix: string) { prefix <= s }

  predicate OperatorCsv(name: string) {
    HasPrefix(name, "grafana-operator.") || HasPrefix(name, "prometheusoperator.")
  }

  function OperatorCsvs(s: Store, ns: string): set<Key> {
    set k | k in s && k.kind == Csv && k.ns == ns && OperatorCsv(k.name)
  }
}
