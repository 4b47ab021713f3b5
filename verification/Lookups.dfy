/** Where the URLs come from that a reconcile is told: a lookup in the cluster for the full specification
    of the task in hand. */
module Lookups {
  import opened Cluster
  import opened Machine
  import Gateways
  import Specs

  /** The full specification of a stored task; the reconcilers branch only on the parts in its `spec`. */
  datatype Detail = DevDetail(dev: Specs.DevTask) | InferenceDetail(inference: Specs.InferenceTask) | NoDetail

  /** The lookup may give this URL in some state of the cluster's gateways and services. */
  ghost predicate LooksUp(d: Detail, url: string) {
    match d
    case DevDetail(t) => exists net :: Gateways.DevUrl(net, t, url)
    case InferenceDetail(t) => exists net :: Gateways.InferenceUrl(net, t, url)
    case NoDetail => true
  }

  /** The detail is of a task with this specification. */
  predicate Agrees(spec: Spec, d: Detail) {
    match d
    case DevDetail(t) => spec.framework == Specs.Framework(t) && (spec.routed <==> Specs.NeedsRouting(t))
    case InferenceDetail(t) =>
      spec.framework == Specs.InferenceFramework(t) && (spec.routed <==> Specs.InferenceNeedsRouting(t))
    case NoDetail => false
  }

  /** The next call ensures a route; after it the URL is looked up. */
  predicate AtRoute(c: Ctl) { c.AtEnsure? && (c.ensure.RouteLookup? || c.ensure.RouteCreate?) }

  ghost predicate InformedAt(details: Task -> Detail, c: Ctl, l: Label) {
    l.Call? && AtRoute(c) ==> LooksUp(details(c.ensure.t), l.input.url)
  }

  /** All along the run, what the reconcile is told as the URL was looked up for the task in hand. */
  ghost predicate Informed(details: Task -> Detail, run: Run)
    requires |run.labels| < |run.states|
  {
    forall j :: 0 <= j < |run.labels| ==> InformedAt(details, run.states[j].ctl, run.labels[j])
  }

  lemma DevLookedUp(net: Gateways.Net, t: Specs.DevTask, url: string)
    requires Gateways.DevUrl(net, t, url)
    ensures LooksUp(DevDetail(t), url)
  {
  }

  lemma InferenceLookedUp(net: Gateways.Net, t: Specs.InferenceTask, url: string)
    requires Gateways.InferenceUrl(net, t, url)
    ensures LooksUp(InferenceDetail(t), url)
  {
  }

  method LookUp(d: Detail) returns (url: string)
    ensures LooksUp(d, url)
  {
    var net: Gateways.Net := *;
    url := *;
    match d
    case DevDetail(t) =>
      ghost var host, port;
      url, host, port := Gateways.GetExternalURLWithGatewayIP(net, t);
      DevLookedUp(net, t, url);
    case InferenceDetail(t) =>
      ghost var place;
      url, place := Gateways.GetInferenceURL(net, t);
      InferenceLookedUp(net, t, url);
    case NoDetail =>
  }

  /** A lookup for a routed task is never empty. */
  lemma RoutedIsPublished(spec: Spec, d: Detail, url: string)
    requires Agrees(spec, d) && LooksUp(d, url) && spec.routed
    ensures url != ""
  {
  }
}
