/** The update webhook: what it lets through, and what that does to the names of the stack. */
module Webhook {
  import opened Kube
  import opened Observability
  import opened Stack

  datatype Verdict = Accepted | CannotUnset | CannotSet | CannotUpdate

  function CheckName(before: string, after: string): Verdict {
    if before != "" && after == "" then CannotUnset
    else if before == "" && after != "" then CannotSet
    else if before != "" && after != "" && before != after then CannotUpdate
    else Accepted
  }

  function ValidateUpdate(before: Cr, after: Cr): Verdict {
    var a := CheckName(before.alertmanagerName, after.alertmanagerName);
    if a != Accepted then a
    else
      var g := CheckName(before.grafanaName, after.grafanaName);
      if g != Accepted then g else CheckName(before.prometheusName, after.prometheusName)
  }

  /** Accepted means exactly: none of the three names changed. */
  lemma AcceptedIff(before: Cr, after: Cr)
    ensures ValidateUpdate(before, after) == Accepted <==>
      && before.alertmanagerName == after.alertmanagerName
      && before.grafanaName == after.grafanaName
      && before.prometheusName == after.prometheusName
  {
  }

  /** The namespace, the presence of the self-contained block and the modes that decide which objects there are. */
  predicate KeepsMode(before: Cr, after: Cr) {
    && before.ns == after.ns
    && before.selfContained.Some? == after.selfContained.Some?
    && before.descoped == after.descoped
    && PromtailOff(before) == PromtailOff(after)
  }

  ghost predicate ValidHistory(crs: seq<Cr>) {
    forall i :: 0 < i < |crs| ==> ValidateUpdate(crs[i - 1], crs[i]) == Accepted && KeepsMode(crs[i - 1], crs[i])
  }

  /** Does the stack use the same objects under both versions? */
  predicate SameStack(a: Cr, b: Cr) {
    && a.ns == b.ns && a.descoped == b.descoped && PromtailOff(a) == PromtailOff(b)
    && a.Prometheus() == b.Prometheus() && a.Alertmanager() == b.Alertmanager() && a.Grafana() == b.Grafana()
  }

  /** However often the resource is updated, the stack keeps its objects. */
  lemma {:induction false} HistoryKeepsStack(crs: seq<Cr>, i: nat)
    requires ValidHistory(crs) && i < |crs|
    ensures SameStack(crs[0], crs[i])
  {
    if i > 0 {
      HistoryKeepsStack(crs[..i], i - 1);
      AcceptedIff(crs[i - 1], crs[i]);
    }
  }

  /**
   The webhook alone is not enough: it does not look at the self-contained block. With the mode otherwise
   kept, an accepted update keeps the names exactly when the block's presence does not change or no custom
   name depends on it.
   */
  lemma NamesKeptIff(a: Cr, b: Cr)
    requires ValidateUpdate(a, b) == Accepted
    ensures a.Prometheus() == b.Prometheus() && a.Alertmanager() == b.Alertmanager() && a.Grafana() == b.Grafana() <==>
      || a.selfContained.Some? == b.selfContained.Some?
      || (a.prometheusName in {"", "obs-prometheus"} && a.alertmanagerName in {"", "obs-alertmanager"} && a.grafanaName in {"", "obs-grafana"})
  {
    AcceptedIff(a, b);
  }

  /** A concrete accepted update that renames Prometheus: the block goes, its custom name with it. */
  lemma DroppingSelfContainedRenames(cr: Cr)
    requires cr.selfContained.Some? && cr.prometheusName == "mine"
    ensures
      var after := cr.(selfContained := None);
      ValidateUpdate(cr, after) == Accepted && PrometheusCr(cr) != PrometheusCr(after)
  {
    assert "mine" != "obs-prometheus";
  }
}
