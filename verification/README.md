# A verified model of the observability operator

The operator installs and configures a monitoring stack (Prometheus, Alertmanager, Grafana, Promtail,
authentication proxies) from an `Observability` custom resource and from index files in configuration
repositories. This project models its reconcile loop, its configuration sync, its token handling and its
teardown in Dafny, and proves what they keep and what they reach.

`dafny verify dfyconfig.toml` checks the whole project.

## How the model is built

* `Kube.dfy` is the cluster: a mutable store of objects by kind, namespace and name, and the workloads other
  controllers run. Every Get, List, Delete and CreateOrUpdate is one step. Any step may be rejected, or take
  effect and lose its reply. Before every step the environment moves: workloads vanish at will and appear only
  while a custom resource that spawns them is stored. What other controllers report of deployments and routes
  may change from step to step. Failures, moves and reports are arbitrary parameters. A ghost log holds one
  entry per call, so a contract can speak of every intermediate state: what it says of the log holds wherever a
  method stops, by an error or by a crash.
* The imperative code is imperative here: methods over a `Cluster`, with its loops, early exits, ignored
  errors and nil dereferences (`Crashed`, `Panic`, `Dead`). The `shouldExist` closures, the compilers and the
  name functions are functions. Runs of consecutive deletions or create-or-update calls on fixed objects are
  given as one list in source order.
* Ghost parameters such as `start` and `n` mark where a pass began; the `requires` about them say that the
  pass has kept to its rules so far, which the stage lists establish.
* HTTP, JSON and YAML parsing, URL parsing, templates and SHA-256 are function parameters; clock readings are
  arguments; users doing any number of things to the custom resource between two calls are an arbitrary
  parameter of `Registry`.
* Clauses under `c.Reliable()` say what happens when no call fails: which inputs then stop a method, and that
  nothing else does.

| module | what it is about |
|---|---|
| `TokenRefreshers`, `ResourceSync`, `Dashboards`, `Promtail` | delete-then-create syncs: convergence and step-by-step safety |
| `Collectors`, `StringSort`, `Decimal` | deduplication of listed files, string order, decimal text |
| `AlertmanagerConfig` | from indexes to receivers and routes, and where alerts go |
| `TokenExpiry`, `Observatoria` | token lifetimes and their two readers, secret-backed observatoria |
| `SyncGate`, `Resolution`, `ConfigurationSync` | when a sync runs, which indexes it works with, and the whole Configuration stage |
| `Stack`, `Teardown`, `CleanupPass` | cleanup stages, their order, their end |
| `Webhook`, `Install`, `Migration` | names that may not change, what installing adds, the one-time migration |
| `Operator` | stage loop, finalizer, status, and any number of passes |
| `RoundTrip` | a whole life with all stages, and what cleanup leaves of it |

## Where the obvious claim is false

Each has a lemma with a concrete case and a lemma with the exact condition.

* Proxies: a sync need not converge, because `shouldExist` returns at the first early exit
  (`StaleProxySurvives`; exact: `TokenRefreshers.ConvergesIff`), and it may delete a proxy that it then creates
  again (`WantedProxyFlaps`; exact: `SparedIff`). Incomplete credentials crash it (exact: `PanicsIff`).
* Rules and dashboards: `continue seek` leaves the outer loop, so a repeated file name costs its index every
  later file (`RuleLost`, `DashboardLost`; exact: `CollectDedupesIff`). Looking at the whole list alone can miss
  a loss, where a later index lists the very entry that was lost (`LossHidden`; exact otherwise: `CollectIsFirstsIff`).
* Dashboards: jsonnet files are requested but never written (`JsonnetNeverCreated`; exact: `Dashboards.ConvergesIff`).
* Promtail: an index whose id an earlier one shares can make a DaemonSet flap (`SharedIdFlaps`; exact:
  `NoFlappingIff`, and never among distinct ids: `DistinctNeverFlaps`); an unresolved observatorium keeps a stale one (exact: `Promtail.ConvergesIff`); the log target
  names a refresher that is not wanted there (exact: `TargetIsRequestedIff`).
* Tokens: a large `expires_in` overflows and the token is never due (`OverflowNeverDue`; exact:
  `DueAfterExpiryIff`); the two readers of a token secret differ, even on what the operator itself saves for an
  authentication type without tokens (`NilTokenDisagrees`; exact: `ReadersAgreeIff`).
* Observatoria: Dex with a preset configuration recurses without end (exact: `OverflowsIff`, and for a list
  `ResolvedOverflowsIff` with `NoLoopNoCrash`). A failing list does not come back as it was: a Dex configuration
  is behind a pointer, and credentials already fetched stay (`FailureLeavesLogin`; exact: `LeftAloneIff`).
* Configuration: a nil selector skips the stage, except with external sync disabled, where it is dereferenced and
  the pass is dead as soon as the gate opens (exact: `Check` and `ConfigurationSync.Reconcile`).
* Teardown: with a second Grafana in the namespace the workload can come back after the wait, and a subscription
  goes while it runs (`OtherGrafanaRespawns`). The waits look in the namespace of the custom resource: with the
  operator in another one they end at once, and both servers can still run when the cleanup is done
  (`WaitLooksElsewhere`, `ServersOutlive`). Of which components the order holds is exact in `SoleIff`.
* Finalizer: outside noInit mode it is taken whether or not the cleanup finished (`StrippedIsLost`; exact:
  `SafeCloseIff`, and for whole passes `Operator.Controller.Reconcile`).
* Names: the comment in the webhook says the self-contained block cannot be removed while a name depends on
  it; the code does not check that (`DroppingSelfContainedRenames`; exact: `NamesKeptIff`).
* Migration: a custom name equal to another component's old default is deleted in use (exact: `HarmlessIff`).
* Rate: LastSynced loses the fraction of a second (`RateBoundIsTight`) and an unpersisted status loses the bound
  (`LostStatusBreaksBound`; it holds of every persisted run: `PersistedIsSpaced`).

## Model

| member | source | states |
|---|---|---|
| TokenRefreshers.VerdictsAgree | controllers/reconcilers/configuration/token_refresher.go:288-397 | the two closures, written separately, give a deployment and its policy the same verdict, crash included |
| TokenRefreshers.DeleteUnrequestedTokenRefreshers | controllers/reconcilers/configuration/token_refresher.go:339-408 | deletes exactly the unvouched proxies; coverage by policies holds at every call, also when it stops early |
| TokenRefreshers.DeleteUnrequestedNetworkPolicies | controllers/reconcilers/configuration/token_refresher.go:268-337 | once the remaining proxies are vouched for, no call removes a policy a proxy still needs |
| TokenRefreshers.VouchedPoliciesStay | controllers/reconcilers/configuration/token_refresher.go:268-337 | no policy of a remaining proxy counts as stale |
| TokenRefreshers.CreateDeploymentFor | controllers/reconcilers/configuration/token_refresher.go:95-193 | policy before deployment: coverage holds in between and if either call fails |
| TokenRefreshers.ReconcileTokenRefresherFor | controllers/reconcilers/configuration/token_refresher.go:195-241 | adds exactly the proxies the observatorium calls for, none with an OAuth2 secret; succeeds exactly for deployable ones when no call fails |
| TokenRefreshers.ReconcileTokenRefresher | controllers/reconcilers/configuration/token_refresher.go:243-266 | the proxies afterwards are those before plus those of all redhat observatoria, each with its service; without failures it succeeds if every observatorium is deployable |
| TokenRefreshers.SyncTokenRefreshers | controllers/reconcilers/configuration/configuration_reconciler.go:411-429 | coverage at every call, error and crash; a completed sync leaves the vouched ones and the requested ones, these with their services; without failures it completes if the closures get through and every observatorium is deployable |
| TokenRefreshers.ReachDecides | controllers/reconcilers/configuration/token_refresher.go:355-395 | what the early-returning scan vouches for is what it collects before its first early exit |
| TokenRefreshers.RequestedIff | controllers/reconcilers/configuration/token_refresher.go:27-67 | by the settings: a proxy is requested exactly if some redhat observatorium has an accepted address, a realm and client and secret of that proxy's type, for logs only where its index enables Promtail, and neither an OAuth2 secret nor the flag is in the way |
| TokenRefreshers.PanicsIff | controllers/reconcilers/configuration/token_refresher.go:288-397 | the delete phase crashes on a proxy, if and only if the first observatorium that the scan does not get past has incomplete credentials and the proxy is not one vouched for before it; likewise on its policy |
| TokenRefreshers.ConvergesIff | controllers/reconcilers/configuration/token_refresher.go:195-408 | from every start the sync leaves exactly the requested proxies, if and only if everything in reach of the scan is requested |
| TokenRefreshers.Converges | controllers/reconcilers/configuration/token_refresher.go:195-408 | it does whenever only redhat observatoria carry an SSO configuration |
| TokenRefreshers.SparedIff | controllers/reconcilers/configuration/token_refresher.go:355-408 | the delete phase spares every proxy the create phase wants, if and only if nothing is wanted or all of it lies in reach of the scan |
| TokenRefreshers.StaleProxySurvives | controllers/reconcilers/configuration/token_refresher.go:355-395 | a concrete index with which a proxy nobody requests stays |
| TokenRefreshers.WantedProxyFlaps | controllers/reconcilers/configuration/token_refresher.go:355-395 | a concrete index with which a wanted proxy is deleted and recreated on every sync |
| SyncEngine.DeleteListed | controllers/reconcilers/configuration/prometheus_rules.go:73-81 | at every call only droppable objects are missing; completed, exactly they are; a crash only where the closure crashes |
| Collectors.SplitSound | controllers/reconcilers/configuration/grafana_dashboards.go:35-40 | splitting and joining with the separator is the identity |
| Collectors.NameIsPlain | controllers/reconcilers/configuration/grafana_dashboards.go:35-40 | a derived name has no slash and no dot |
| Collectors.NameOfFile | controllers/reconcilers/configuration/grafana_dashboards.go:35-40 | the name of dir/base.ext is base |
| Collectors.SplitJoin | controllers/model/promtail_resources.go:145-157 | joining parts that do not contain the separator loses nothing: splitting gives them back |
| Collectors.GetUniqueRules | controllers/reconcilers/configuration/prometheus_rules.go:24-48 | the labelled loops compute the collection that cuts an index at its first repeated name |
| Collectors.GetUniqueDashboards | controllers/reconcilers/configuration/grafana_dashboards.go:42-65 | the same collection over the dashboards |
| Collectors.GetUniquePodMonitors | controllers/reconcilers/configuration/pod_monitors.go:25-49 | the labelled loops compute the collection that skips repeated names |
| Collectors.RuleSource | controllers/reconcilers/configuration/prometheus_rules.go:24-48 | what is collected is a path among the rules of some index, with that index's id, address, token and tag |
| Collectors.MonitorSource | controllers/reconcilers/configuration/pod_monitors.go:25-49 | the same for the pod monitors of an index |
| Collectors.DashboardSource | controllers/reconcilers/configuration/grafana_dashboards.go:42-65 | the same for its dashboards, whose entries carry no id |
| Collectors.MonitorsAreFirsts | controllers/reconcilers/configuration/pod_monitors.go:25-49 | that collection is first-occurrence deduplication by name of all lists in order |
| Collectors.CollectDedupesIff | controllers/reconcilers/configuration/prometheus_rules.go:24-48 | rules or dashboards, whatever the ids: the collection of every beginning of the index list is first-occurrence deduplication, if and only if no index lists a new name after a repeated one |
| Collectors.LosslessIsFirsts | controllers/reconcilers/configuration/grafana_dashboards.go:42-65 | if no index lists a new name after a repeated one, the collection is that deduplication |
| Collectors.CollectIsFirstsIff | controllers/reconcilers/configuration/prometheus_rules.go:24-48 | the same for the whole list alone, if and only if, where no later index lists an entry of an earlier one again |
| Collectors.DistinctIdsArePrivate | controllers/reconcilers/configuration/prometheus_rules.go:37-44 | for rules distinct index ids rule that out |
| Collectors.LossHidden | controllers/reconcilers/configuration/grafana_dashboards.go:42-65 | two concrete indexes where a dashboard is lost and the whole list does not show it |
| Collectors.CollectDistinct | controllers/reconcilers/configuration/grafana_dashboards.go:42-65 | rules and dashboards: no name twice, and one entry per path in order when no name repeats |
| Collectors.RuleLost | controllers/reconcilers/configuration/prometheus_rules.go:26-36 | three concrete paths of which the third is lost |
| Collectors.DashboardLost | controllers/reconcilers/configuration/grafana_dashboards.go:44-54 | the same loss of a dashboard |
| ResourceSync.InjectIdLabel | controllers/reconcilers/configuration/prometheus_rules.go:153-162 | the groups and the rules of each are those given; every rule has the labels it had and the id label, the id under that one and the old value under every other |
| ResourceSync.RuleAsFetched | controllers/reconcilers/configuration/prometheus_rules.go:84-115 | a rule file is written if and only if it could be fetched with the address, tag and token of its entry, and then with the data fetched, its labels and the operator's, and its rules changed in nothing but the id |
| ResourceSync.MonitorAsFetched | controllers/reconcilers/configuration/pod_monitors.go:84-112 | the same for a pod monitor, changed in nothing but the operator's label |
| ResourceSync.DeleteUnrequestedResources | controllers/reconcilers/configuration/prometheus_rules.go:50-82 | exactly the unrequested objects of the kind go, nothing else at any call |
| ResourceSync.CreateRequestedResources | controllers/reconcilers/configuration/pod_monitors.go:84-112 | at every call the store is the start plus a prefix of the writes; all of them on success |
| ResourceSync.SyncResources | controllers/reconcilers/configuration/pod_monitors.go:51-112 | names and contents equal the request from any start; a second sync changes nothing; no requested object is ever missing in between; without failures only an unavailable file stops it |
| Dashboards.FetchAll | controllers/reconcilers/configuration/grafana_dashboards.go:101-131 | fails exactly if some entry cannot be fetched or parsed, and otherwise yields those of a written file type in order |
| Dashboards.TypeByExtension | controllers/reconcilers/configuration/grafana_dashboards.go:182-201 | the type of a file is decided by what follows the last dot of its path, trimmed and in any case |
| Dashboards.WrittenByExtension | controllers/reconcilers/configuration/grafana_dashboards.go:101-201 | of a fetched file, by what follows the last dot of its path: json is written as its text, yaml as the object in it or not at all where it does not parse, everything else is passed over without an error |
| Dashboards.PlainExtension | controllers/reconcilers/configuration/grafana_dashboards.go:182-201 | a lower-case extension counts as it is written |
| Dashboards.SyncDashboards | controllers/reconcilers/configuration/grafana_dashboards.go:67-150 | what is present afterwards by name and content; at every call nothing else changed and nothing requested went missing; without failures only a failing entry stops it |
| Dashboards.ConvergesIff | controllers/reconcilers/configuration/grafana_dashboards.go:101-131 | exactly the requested dashboards from every start, if and only if every file is of a written type |
| Dashboards.JsonnetNeverCreated | controllers/reconcilers/configuration/grafana_dashboards.go:120-121 | in any list of requests a jsonnet dashboard is there after a sync exactly if it was there before |
| StringSort.SortCanonical | controllers/model/promtail_resources.go:145-146 | permutations of a list sort to the same list |
| StringSort.SortSorts | controllers/model/promtail_resources.go:145-146 | the result is ordered and a permutation |
| Promtail.RenderedCanonical | controllers/model/promtail_resources.go:130-162 | the rendered configuration is the same for all orders of the namespaces |
| Promtail.LogsAreShipped | controllers/model/promtail_resources.go:123-162 | after a completed sync the ConfigMap of an index that names its j-th observatorium is the template filled with the index id, the names of exactly the namespaces that carry the selector's labels, in order and to be had back from the text, and the address that the type of that observatorium calls for; it is empty exactly where its credentials are incomplete or it has no gateway; the DaemonSet carries the hash of that text |
| Promtail.CreatePromtailConfigFor | controllers/reconcilers/configuration/promtail.go:22-74 | the text stored is the one that every listing of the selected namespaces renders to |
| Promtail.CreatePromtailDaemonsetFor | controllers/reconcilers/configuration/promtail.go:130-282 | ConfigMap before DaemonSet at every call; on success both carry that text and its hash |
| Promtail.NoFlappingIff | controllers/reconcilers/configuration/promtail.go:88-118 | the delete phase spares whatever the create phase makes, if and only if Promtail is off or, for every index that resolves, the first index with its id asks for Promtail |
| Promtail.SharedIdFlaps | controllers/reconcilers/configuration/promtail.go:88-118 | two indexes with one id: created and dropped in turn |
| Promtail.DistinctNeverFlaps | controllers/reconcilers/configuration/promtail.go:88-118 | with distinct index ids no sync deletes a DaemonSet it goes on to create |
| Promtail.SyncDaemonsets | controllers/reconcilers/configuration/configuration_reconciler.go:538-553 | what is left exactly; none is without its ConfigMap at any call; where nothing flaps no wanted DaemonSet goes at any call; all deployed ones are current |
| Promtail.ConvergesIff | controllers/reconcilers/configuration/promtail.go:77-150 | exactly the created ones from every start, if and only if Promtail is off or, wherever the first index with an id asks for Promtail, some index with that id resolves its observatorium |
| Promtail.WantedIff | controllers/reconcilers/configuration/promtail.go:77-150 | by the settings: a DaemonSet is created for the ids of exactly those indexes that enable Promtail and name an observatorium they have, kept for those whose first index enables it and names one; neither with external sync or observatoria off |
| Promtail.TargetIsRequestedIff | controllers/model/promtail_resources.go:130-143 | a redhat log target names a refresher that the same sync wants in that namespace, if and only if observatoria are on, no OAuth2 secret is there and the operator works in the namespace |
| AlertmanagerConfig.GetPagerDutySecret | controllers/reconcilers/configuration/alertmanager.go:276-308 | the key is what the secret the index names holds, new field name first; there is none only if the secret is absent or a call of this method failed |
| AlertmanagerConfig.GetDeadMansSnitchUrl | controllers/reconcilers/configuration/alertmanager.go:310-342 | the URL is what the secret the index names holds, new field name first; there is none only if the secret is absent or a call of this method failed |
| AlertmanagerConfig.SecretsRead | controllers/reconcilers/configuration/alertmanager.go:276-342 | by the fields of the secrets: PAGERDUTY_KEY before serviceKey, SNITCH_URL before url, in the namespace named or else the resource's own, dummies where no secret is named, nothing exactly where a named one is absent |
| AlertmanagerConfig.CreateGlobalConfig | controllers/reconcilers/configuration/alertmanager.go:390-429 | crashes exactly when SMTP is enabled and the first index is unusable; otherwise the mail settings of that index's secret, and without failures an error only if that secret is absent |
| AlertmanagerConfig.MailSettings | controllers/reconcilers/configuration/alertmanager.go:344-429 | server, account and password are the host and port, username and password of the secret the first index names, all dummies where the four are empty; none exactly where the secret is absent |
| AlertmanagerConfig.NoMailSettings | controllers/reconcilers/configuration/alertmanager.go:390-429 | no settings with SMTP off, no recipient or no sender; dummies where no secret is named |
| AlertmanagerConfig.CompileConfig | controllers/reconcilers/configuration/alertmanager.go:141-253 | the loop yields what the specification says for the secrets that could be read and the global section they give; an index misses a secret that exists only if one of the calls of this run that were made for it failed, so without failures the store decides the configuration |
| AlertmanagerConfig.Closed | controllers/reconcilers/configuration/alertmanager.go:164-253 | route k targets receiver k+1, so every target is declared |
| AlertmanagerConfig.ReceiverNamesUnique | controllers/reconcilers/configuration/alertmanager.go:164-253 | receiver names are distinct when index ids are |
| AlertmanagerConfig.Isolation | controllers/reconcilers/configuration/alertmanager.go:164-253 | under first match an alert with an index's id goes to that index's receivers or the default |
| AlertmanagerConfig.NoForeignTarget | controllers/reconcilers/configuration/alertmanager.go:164-253 | what it sets off was emitted by an index with that id, or is nobody |
| AlertmanagerConfig.Routing | controllers/reconcilers/configuration/alertmanager.go:164-253 | the whole routing, by which of pager, snitch and mail an alert calls for and which of them some index with its id asked for: the receiver of a slot exactly if it is the first in that order that is both, with what the first such index asked for and how often it repeats; the default exactly if there is none |
| AlertmanagerConfig.CriticalReachesPager | controllers/reconcilers/configuration/alertmanager.go:164-194 | whether or not ids are distinct, a critical alert with this id goes to the id's PagerDuty receiver, if and only if some index with the id got its key, and notifies with the key of the first such index |
| AlertmanagerConfig.DeadMansSwitchReachesSnitch | controllers/reconcilers/configuration/alertmanager.go:196-222 | a DeadMansSwitch that is not critical goes to the id's snitch receiver, if and only if some index with the id got its URL, and every five minutes to the URL of the first such index |
| AlertmanagerConfig.WarningReachesMail | controllers/reconcilers/configuration/alertmanager.go:224-252 | a warning that is no DeadMansSwitch goes to the id's mail receiver, if and only if some index with the id asks for mail and got that far, and to a text from which the addresses of the first such index can be had back |
| AlertmanagerConfig.OthersReachDefault | controllers/reconcilers/configuration/alertmanager.go:164-253 | an alert without an id, or that is none of the three, goes to the default receiver |
| AlertmanagerConfig.CriticalReachesOwnPager | controllers/reconcilers/configuration/alertmanager.go:164-194 | with distinct ids it reaches the index's PagerDuty receiver exactly when that was emitted, with its own key |
| AlertmanagerConfig.EndToEnd | controllers/reconcilers/configuration/prometheus_rules.go:84-115 | from the rule file as fetched to the notification: an alert raised by a rule of a file of index X has that rule's labels and X's id, goes to the receiver that the routing law gives for these or to the default exactly where it gives none, and sets off nobody but indexes with its id, X alone where ids are distinct |
| AlertmanagerConfig.CriticalRulePages | controllers/reconcilers/configuration/prometheus_rules.go:84-115 | a rule that the fetched file calls critical pages, if and only if some index with its id got its key |
| Decimal.RoundTrip | controllers/reconcilers/token/token_manager.go:109-136 | parsing the decimal text of a 64-bit number gives the number |
| Decimal.FormatIsDecimal | controllers/reconcilers/token/token_manager.go:109-136 | the text is decimal: the digit of a number below ten, and for 10n + d the text of n and then the digit |
| TokenExpiry.Window | controllers/token/token_fetcher.go:34-45 | not due up to 3601 seconds before the end, due from 3600 seconds before it, through second truncation |
| TokenExpiry.DueAfterExpiryIff | controllers/token/token_fetcher.go:121-123 | an expired token is due, if and only if the time it was saved plus its wrapped lifetime is at least a second past the epoch |
| TokenExpiry.OverflowNeverDue | controllers/token/token_fetcher.go:121-123 | with the first overflowing expires_in (section 5.1 of RFC 6749) a token is never due |
| TokenExpiry.SaveToken | controllers/reconcilers/token/token_manager.go:109-136 | the secret holds token and lifetime afterwards, and only that secret changes |
| TokenExpiry.FindToken | controllers/reconcilers/token/token_manager.go:69-98 | an absent secret reads as no token; otherwise what is stored; without failures an error exactly for a broken secret |
| TokenExpiry.TokensExpired | controllers/reconcilers/token/token_manager.go:138-170 | true only with a due token, false only if none is due, an error only with a broken one; reads only |
| TokenExpiry.ReadersAgreeIff | controllers/reconcilers/token/token_manager.go:86-97 | for every secret the two readers agree at all times, if and only if the stated condition on its fields holds: by cases of no token, an empty token and a token |
| TokenExpiry.NilTokenDisagrees | controllers/token/token_fetcher.go:65-67 | a secret saved with no token and no lifetime, whatever else it holds, is never due to one reader and always to the other |
| TokenExpiry.SavedTokenWindow | controllers/reconcilers/token/token_manager.go:295-313 | of any secret with a token and the moment of its expiry saved in it, both readers are false up to 3601 seconds before the end and true from 3600 seconds before it |
| Observatoria.OverflowsIff | controllers/reconcilers/token/token_manager.go:196-207 | the recursion never ends exactly for Dex with a preset configuration |
| Observatoria.ResolvedOverflowsIff | controllers/reconcilers/token/token_manager.go:172-225 | an entry runs out of stack, if and only if it is secret-backed and resolves to Dex with a preset configuration |
| Observatoria.NoLoopNoCrash | controllers/reconcilers/token/token_manager.go:227-318 | a list without such an entry has none that overflows |
| Observatoria.AssignFromSecret | controllers/reconcilers/token/token_manager.go:172-225 | fills in from the secret what the index left open |
| Observatoria.ResolvedFromSecret | controllers/reconcilers/token/token_manager.go:172-225 | field by field: type, gateway and tenant from the secret where the index leaves them open; each of the six SSO and four Dex credentials from the key of its name; an error exactly for an absent secret or an unknown type, Dex with a preset configuration aside |
| Observatoria.ResolvedFromCredentials | controllers/reconcilers/token/token_manager.go:249-281 | an entry without a secret is taken as it is, but that a Dex configuration that names a credential secret gets its login from there, and an error where that is absent |
| Observatoria.ReconcileObservatoria | controllers/reconcilers/token/token_manager.go:227-318 | on success each entry is what its secrets say; length, order, ids and explicit values stand in every case; after a failure only credentials of preset Dex entries may differ, and they do exactly as far as the loop got; where configuration and token secrets are apart and ids distinct, without failures the store at the start decides outcome and list; only token secrets change; there, without failures, the same law of every token holds in the store afterwards for the entries it got past, and the other tokens are as they were |
| Observatoria.LeftAloneIff | controllers/reconcilers/token/token_manager.go:249-281 | a failing list comes back unchanged, if and only if every entry it got past that names a credential secret already states what that secret holds |
| Observatoria.FailureLeavesLogin | controllers/reconcilers/token/token_manager.go:236-281 | a concrete list whose second entry fails and whose first comes back with fetched credentials |
| Observatoria.KeepTokenFresh | controllers/reconcilers/token/token_manager.go:290-315 | a token that is not due is left alone. Without failures a missing or due one becomes, in the store afterwards, the token that Dex gave, which both readers take for not due and for due in the windows that its expires_in promises from now on; without a Dex configuration the old token, and for other types none, that the lister never takes for due; nothing else changes |
| SyncGate.CheckForMissingCr | controllers/reconcilers/configuration/configuration_reconciler.go:707-755 | false only if the stack's resources are there; true without failures only if one is not |
| SyncGate.StackPresentIff | controllers/reconcilers/configuration/configuration_reconciler.go:707-755 | the resources looked for, by kind, namespace and name; Grafana's not in descoped mode |
| SyncGate.Check | controllers/reconcilers/configuration/configuration_reconciler.go:235-284 | reads only; throttled only within the period and with nothing to force a sync, open only when due or forced, and without failures open whenever a sync is due |
| SyncGate.RateBound | controllers/reconcilers/configuration/configuration_reconciler.go:268-284 | in every unforced persisted run two syncs end more than the period less one second apart |
| SyncGate.RateBoundIsTight | controllers/reconcilers/configuration/configuration_reconciler.go:555-562 | and the second cannot be saved |
| SyncGate.LostStatusBreaksBound | controllers/observability_controller.go:319-335 | a run whose first status is lost, in which the bound fails |
| SyncGate.StaysDue | controllers/reconcilers/configuration/configuration_reconciler.go:555-562 | a due sync stays due through all passes that do not complete one, persisted or not |
| SyncGate.PersistedIsSpaced | controllers/reconcilers/configuration/configuration_reconciler.go:268-284 | a run with every status persisted and nothing forced keeps the distance |
| Resolution.DeleteUnrequestedCredentialSecrets | controllers/reconcilers/configuration/configuration_reconciler.go:565-609 | only unexpected token secrets go, without failures exactly they; a failed List is taken for an empty one |
| Resolution.StaleIff | controllers/reconcilers/configuration/configuration_reconciler.go:565-609 | unexpected is exactly a secret with the two token labels in the namespace whose name is obs-token- and the id of no observatorium of any index |
| Resolution.ResolveIndexes | controllers/reconcilers/configuration/configuration_reconciler.go:402-409 | every index keeps its place and identity; each one whose secrets are apart from the token secrets and whose tokens no index before it has is what the secrets at the start say, whether it succeeds or fails and whatever becomes of the others; if that holds of all, the loop crashes exactly when one of them reaches the endless recursion |
| ConfigurationSync.WriteAlertmanagerSecret | controllers/reconcilers/configuration/configuration_reconciler.go:431-445 | crashes exactly when SMTP is on and no first index is usable; otherwise the secret holds the text of the configuration the secrets call for, without failures all of them; an error then only for the mail secret |
| ConfigurationSync.AlertmanagerDecided | controllers/reconcilers/configuration/configuration_reconciler.go:431-445 | if no index names a secret the sync itself writes, the store a healthy sync leaves decides the text down to the last secret |
| Resolution.CollectIndexes | controllers/reconcilers/configuration/configuration_reconciler.go:311-394 | exactly the index files of the secrets that count, in their order, or an error because one of them cannot be had |
| Resolution.FirstKeysSound | controllers/reconcilers/configuration/configuration_reconciler.go:313-321 | the secrets that count: every name once, and under it the first secret that has it |
| ConfigurationSync.Sync | controllers/reconcilers/configuration/configuration_reconciler.go:395-553 | in the store a completed sync leaves, proxies with their services, Alertmanager's configuration, the stack's resources, dashboards, rules, pod monitors and DaemonSets are together what the resolved indexes and that store ask for, and without failures each index that the secrets at the start decide is resolved as they say; coverage at every call; without failures a sync completes unless an input obstructs it, where an index that fails to resolve is no obstacle |
| ConfigurationSync.RulesAreFromIndexes | controllers/reconcilers/configuration/prometheus_rules.go:50-115 | after a sync every rule object in the operator's namespace is a file that some index lists, under the file's name, as fetched from that index's address at its tag with its token, and with its id on the rules |
| ConfigurationSync.MonitorsAreFromIndexes | controllers/reconcilers/configuration/pod_monitors.go:51-112 | the same for every pod monitor |
| ConfigurationSync.DashboardsAreFromFiles | controllers/reconcilers/configuration/grafana_dashboards.go:101-150 | a requested dashboard that could be fetched is there as the text of its json file or the object of its yaml file |
| ConfigurationSync.HalvesMeet | controllers/reconcilers/configuration/configuration_reconciler.go:395-553 | each part leaves alone what the others settled |
| ConfigurationSync.Reconcile | controllers/reconcilers/configuration/configuration_reconciler.go:235-563 | a pass tells the truth about itself: throttled and waiting ones write nothing; a synced one has converged on the resolved indexes of the secrets that the selector picks at its start, and sets LastSynced to its end; without failures only a due token, a missing stack resource or disabled external sync forces one, a due pass that nothing obstructs has synced, and one without a selector is dead; so it is sound for the run theorems |
| Teardown.SoleIff | controllers/utils/reconciler_utils.go:127-186 | the components whose removal the wait sees and nothing else undoes: Prometheus and Alertmanager exactly if the operator works in the resource's own namespace, Grafana exactly if it is the only one there and not descoped |
| Teardown.TornIsProper | controllers/observability_controller.go:114-151 | every call of a teardown is proper, over every interleaving |
| Teardown.TornSpares | controllers/reconcilers/configuration/configuration_reconciler.go:61-218 | what neither the fixed names nor the labels nor the versions of the stack cover is there, unchanged, at every call of every teardown and after it |
| Teardown.TornKeepsCover | controllers/reconcilers/configuration/configuration_reconciler.go:157-215 | coverage of the proxies survives every call of every teardown |
| Teardown.WaitForRemoval | controllers/utils/reconciler_utils.go:127-186 | success only if no workload of that name is in the resource's own namespace at that call, and without failures exactly then |
| Teardown.WindDown | controllers/reconcilers/prometheus_configuration/prometheus_configuration_reconciler.go:33-101 | front, wait, rest: all absent, and the component down for good if the wait can see it |
| Teardown.CleanupPrometheusConfiguration | controllers/reconcilers/prometheus_configuration/prometheus_configuration_reconciler.go:33-101 | its objects are gone; Prometheus is down, RBAC only after the workload, where the operator works in the resource's own namespace |
| Teardown.CleanupGrafanaConfiguration | controllers/reconcilers/grafana_configuration/grafana_configuration_reconciler.go:71-115 | its objects are gone and Grafana is down; nothing in descoped mode |
| Teardown.CleanupPrometheusInstallation | controllers/reconcilers/prometheus_installation/prometheus_installation_reconciler.go:35-66 | subscription, operator group, catalog source (and the namespace in descoped mode) are gone, deleted only with those of Prometheus and Grafana down whose removal the wait sees |
| Teardown.CleanupGrafanaInstallation | controllers/reconcilers/grafana_installation/grafana_installation_reconciler.go:34-77 | the same for Grafana, and the operator deployment |
| Teardown.CleanupAlertmanagerInstallation | controllers/reconcilers/alertmanager_installation/alertmanager_installation_reconciler.go:71-132 | its objects are gone; Alertmanager is down where the operator works in the resource's own namespace |
| Teardown.CleanupPromtailInstallation | controllers/reconcilers/promtail_installation/promtail_installation_reconciler.go:27-53 | its objects are gone unless Promtail is off |
| Teardown.CleanupLoggingInstallation | controllers/reconcilers/logging_installation/logging_installation_reconciler.go:36-87 | the managed subscription is gone; succeeds without failures if every managed subscription names an installed version |
| Teardown.CleanupConfiguration | controllers/reconcilers/configuration/configuration_reconciler.go:61-218 | no labelled object is left; proxies go before their policies |
| Teardown.CleanupTokenRequest | controllers/reconcilers/token/token_reconciler.go:25-33 | the credentials secret is gone |
| Teardown.CleanupCsv | controllers/reconcilers/csv/csv_reconciler.go:74-101 | one version per pass, and only one whose name begins with grafana-operator. or prometheusoperator. (written out as slices); success exactly when no such version is left |
| Teardown.AchievedStays | controllers/observability_controller.go:114-151 | what one stage achieved the later ones do not undo |
| CleanupPass.InOrder | controllers/observability_controller.go:304-317 | the stage list brings down what each stage's deletions need before it runs |
| CleanupPass.RunStages | controllers/observability_controller.go:114-151 | all calls proper, coverage throughout; finished, all ten goals hold at once; without obstacles it advances; whatever cleanup has no claim to is there unchanged at every call and in the end |
| CleanupPass.ForeignSpared | controllers/observability_controller.go:114-151 | cleanup has a claim only to the fixed names, to its labels in the resource's namespace, to versions with one of the two prefixes there, and to the logging version that a managed subscription had installed at the start |
| CleanupPass.OtherVersionsStay | controllers/reconcilers/csv/csv_reconciler.go:84-100 | a version whose name begins with neither prefix is there at every call, unless it is the one that the logging stage removes |
| CleanupPass.NamedAreGone | controllers/observability_controller.go:304-317 | after a finished cleanup nothing is left of what it goes by a name for, each name written out, logging's own aside |
| CleanupPass.LabelledAreGone | controllers/reconcilers/configuration/configuration_reconciler.go:61-218 | nor of what it goes by a label for in the resource's namespace |
| CleanupPass.TeardownOrder | controllers/observability_controller.go:304-317 | for each component of SoleIff: a subscription or the operator's namespace goes only with Prometheus and Grafana down, an operator version or a synced resource only with all three down, RBAC only with Prometheus down |
| CleanupPass.OtherGrafanaRespawns | controllers/utils/reconciler_utils.go:127-144 | a run of the first three stages, successful, in which a second Grafana brings the workload back and the subscription goes while it runs |
| CleanupPass.WaitLooksElsewhere | controllers/utils/reconciler_utils.go:146-186 | whenever the operator works in another namespace: a run of the first three stages, successful, in which the wait looks in the wrong namespace and the subscription goes while Prometheus runs |
| CleanupPass.ServersOutlive | controllers/utils/reconciler_utils.go:146-186 | wherever the operator works in another namespace and the environment stops nothing: a whole pass from that cluster finishes, with every goal met and subscription and resource gone, and its workloads are those it began with, both servers among them |
| CleanupPass.ServersOutliveHere | controllers/utils/reconciler_utils.go:146-186 | for every such custom resource there is such a cluster |
| CleanupPass.Drain | controllers/reconcilers/csv/csv_reconciler.go:74-101 | with N operator versions and no obstacles cleanup ends in at most N+1 passes, and outside the logging namespace in exactly N+1; whatever cleanup has no claim to is there unchanged at every call of all of them |
| Webhook.AcceptedIff | api/v1/observability_webhook.go:52-115 | an update is accepted exactly when no default name changes |
| Webhook.HistoryKeepsStack | api/v1/observability_webhook.go:52-115 | along any accepted history that keeps the mode, which the webhook does not enforce, the stack keeps its names |
| Webhook.NamesKeptIff | api/v1/observability_webhook.go:52-115 | an accepted update keeps the names exactly when the block's presence does not change or no custom name depends on it |
| Webhook.DroppingSelfContainedRenames | api/v1/observability_webhook.go:52-115 | a concrete accepted update that renames Prometheus |
| Install.ReconcilePrometheusInstallation | controllers/reconcilers/prometheus_installation/prometheus_installation_reconciler.go:68-100 | adds only its own objects at every call, and on success has them; without failures it succeeds once the operator deployment is ready |
| Install.ReconcilePrometheusConfiguration | controllers/reconcilers/prometheus_configuration/prometheus_configuration_reconciler.go:103-175 | the same, and the token lifetimes map with its label; without failures it succeeds once no ingress refuses the route and the cluster id is known |
| Install.ReconcileGrafanaInstallation | controllers/reconcilers/grafana_installation/grafana_installation_reconciler.go:79-164 | the same, nothing in descoped mode; without failures it succeeds once the operator deployment is ready, if no community subscription is left |
| Install.ReconcileGrafanaConfiguration | controllers/reconcilers/grafana_configuration/grafana_configuration_reconciler.go:43-69 | the same, nothing in descoped mode; succeeds without failures |
| Install.ReconcileAlertmanagerInstallation | controllers/reconcilers/alertmanager_installation/alertmanager_installation_reconciler.go:32-69 | the same; without failures it succeeds once no ingress refuses the route |
| Install.ReconcilePromtailInstallation | controllers/reconcilers/promtail_installation/promtail_installation_reconciler.go:55-78 | the same, nothing when Promtail is off; succeeds without failures |
| Install.EnsureOperatorGroup | controllers/utils/reconciler_utils.go:54-73 | at most the one group is added and nothing goes; afterwards some group targets the namespace or the one is there |
| Install.IsRouteReady | controllers/utils/reconciler_utils.go:75-89 | ready exactly if no admission condition of any ingress is unmet, so a route without ingress is |
| Install.WaitForRoute | controllers/reconcilers/prometheus_configuration/prometheus_configuration_reconciler.go:335-355 | success only if the route is there and ready at that call, and without failures exactly then |
| Install.WaitForDeployment | controllers/reconcilers/prometheus_installation/prometheus_installation_reconciler.go:102-120 | success exactly if the deployment has ready replicas at that call, unless the call fails |
| Install.FootprintGone | controllers/observability_controller.go:304-317 | when all cleanup goals hold, none of the fixed-name objects is left, nor the labelled lifetimes map |
| Install.Lifecycle | controllers/observability_controller.go:288-317 | any install passes over a history that the webhook accepts and that keeps the mode, then any cleanup passes: once one finishes, the cluster has no object it did not have before; without failures and with others ready the install is complete in the store in which cleanup makes its first call |
| Install.InstallPass | controllers/observability_controller.go:114-151 | adds only owned objects at every call; finished, the objects of all stages are there together; one pass finishes from any cluster without a community subscription, if no call fails and others are ready |
| Install.NamedAreThere | controllers/observability_controller.go:114-151 | the finished stages have created everything that cleanup goes by a name for, except what comes with a sync or from other operators and the operator groups |
| Migration.Reconcile | controllers/reconcilers/migration/resource_name_migration.go:33-188 | deletes old-named objects only, latches exactly on success, then all of them are gone; without a name clash spares everything in use |
| Migration.OldIff | controllers/reconcilers/migration/resource_name_migration.go:33-188 | the old objects by kind, namespace and name, each with the setting that makes the migration look for it |
| Migration.AllRemovedIff | controllers/reconcilers/migration/resource_name_migration.go:33-188 | a migration is complete exactly if none of them is left |
| Migration.HarmlessIff | controllers/reconcilers/migration/resource_name_migration.go:33-188 | no object in use is among those it may delete, if and only if no custom name equals another component's old default |
| Operator.RunInstallStages | controllers/observability_controller.go:114-151 | stages run in list order up to the first that does not succeed, each with what its success means in the store it leaves; Configuration is reached only with Migrated set, and Migrated is only set by a migration that has removed everything; LastSynced moves only by a sync that tells the truth; whatever differs afterwards bears the mark of what the stages write; coverage at every call; it is finished only if the sync was not called for or has completed; a failed or dead sync leaves the stage failed, a waiting one in progress, and neither is finished |
| Operator.FinishedIsDelivered | controllers/observability_controller.go:135-151 | a report whose last stage succeeded holds a sync that was not called for and changed nothing, or one that has delivered in the store at the end what the secrets at its start ask for |
| Operator.ActsAreSafe | controllers/observability_controller.go:96-102 | no sequence of things users do to the resource makes it unsafe or takes it away while it has a finalizer |
| Operator.Controller.Cleanup | controllers/observability_controller.go:157-166 | the finalizer is taken only with all ten goals reached; what the record becomes is what the last write leaves or what users made of it |
| Operator.Controller.PassOver | controllers/observability_controller.go:104-155 | users do anything, the stages run as reported, Migrated first, and the resource counts as touched; installation counts as complete exactly if it did before or the pass finished, and the stage status fits what the sync did |
| Operator.Controller.Close | controllers/observability_controller.go:168-179 | strip or status update, taking effect or not, after anything users did |
| Operator.SafeEnd | controllers/observability_controller.go:157-179 | in noInit mode, or after a finished cleanup, such an end is safe |
| Operator.Controller.AddFinalizer | controllers/observability_controller.go:96-101 | a resource without a finalizer gets one, and nothing installed is abandoned |
| Operator.Controller.Reconcile | controllers/observability_controller.go:79-179 | in noInit mode a resource whose stages ran goes only by a finished cleanup of that resource as the pass fetched it, after which, in the cluster the pass leaves, its goals hold and none of its fixed-name objects is left; undisturbed, a pass is safe exactly then or in noInit mode; the stages it ran are as reported; LastSynced becomes what the sync says or stays; a persisted Migrated stays; coverage at every call; a finished cleanup, undisturbed, leaves no resource, an unclaimed one gets its finalizer, and in noInit mode the status computed is the one persisted |
| Operator.Controller.Serve | controllers/observability_controller.go:79-179 | the same of every one of any number of passes, from the first record and cluster to the last, through failures and user actions; the syncs of every incarnation form a run of the gate, so a due one stays due and persisted ones keep their distance |
| Operator.SafeCloseIff | controllers/observability_controller.go:157-176 | once stages ran, a pass ends safely exactly if it finished a cleanup or the operator is in noInit mode |
| Operator.StrippedIsLost | controllers/observability_controller.go:168-176 | an undisturbed pass outside noInit mode over a resource under deletion with two operator versions: it yields no clearance, the resource is gone and lost, and a version is left |
| Operator.LossHappens | controllers/observability_controller.go:168-176 | for every custom resource outside the logging namespace there is such a resource and cluster |
| RoundTrip.OnlyLeftovers | controllers/reconcilers/configuration/configuration_reconciler.go:60-218 | when all cleanup goals hold, of all that the stages write only the stated leftovers are there |
| RoundTrip.Life | controllers/observability_controller.go:114-151 | any passes with all stages over a history that the webhook accepts and that keeps the mode, then any cleanup passes, with any failures: once one finishes, of what was new in the store in which cleanup made its first call exactly the stated leftovers are there |

## Left out

- HTTP fetching, URL parsing, JSON and YAML decoding, text templates and SHA-256: function parameters, their libraries are not modelled.
- Informer caches, leader election and concurrent reconcilers: reads are linearizable and one pass runs at a time; version conflicts on the custom resource itself are modelled.
- Contents of the large specs (Prometheus, Alertmanager, Grafana, containers, RBAC rules): only kind, namespace, name, labels and the data other code reads.
- Installing logging, patching priority classes into ClusterServiceVersions: their stage results are an arbitrary parameter of a pass.
- The resources deployment, its service and route for configuration images: thin create-or-update code.
- Stamping configuration secrets as accepted, metrics, `InitializeOperand`, `main.go` and generated code.
- Volume claim helpers and the deduplication of federation patterns.
- Getters of selectors, versions and resource requirements: single precedence rules.
- Deleting a namespace removes its contents in a real cluster; here only the namespace object goes, so leftovers in the operator's own namespace are those that no call deletes.
- RoundTrip.Life: leaves out histories that change the mode (`KeepsMode`), because the webhook accepts them and cleanup then looks for other objects than were installed (`DroppingSelfContainedRenames`).
- Logging cleanup after a partial failure: the subscription goes first, so a later pass no longer sees what is left.
- MergeLabels writes into the map it is given; here labels are values, so aliasing is not captured.
- Sorting in place: `sort.Strings` is a function on sequences; the algorithm of the library is not modelled.
- The order of Go maps: the indexes of a sync come in the arbitrary order of the secret listing.
- Times beyond the range of Go's time arithmetic in the sync gate; one clock reading serves the whole gate.
- Resolution.ResolveIndexes: where a secret with observatorium settings is itself a token secret of the sync, it says only which values an entry keeps, because the sync may have rewritten that secret.
- Install.Lifecycle: leaves out the same histories, and covers the stages up to Promtail, where nothing is left; all stages are in RoundTrip.Life.
- Observatoria.KeepTokenFresh: the windows are stated for an expires_in of more than an hour that fits a time.Duration and for clock readings whose seconds, with it added, fit 64 bits; what longer lifetimes lead to is `TokenExpiry.DueAfterExpiryIff`.
- CleanupPass.NamedAreGone: leaves out logging's subscription and instances, which cleanup deletes only if the operator manages them (`Teardown.CleanupLoggingInstallation`).
