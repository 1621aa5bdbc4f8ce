/** Jenkins pods: their state, how they are started, and the route that leads to them. */
module Jenkins {
  import opened Wrappers
  import Tenant

  datatype PodState = Running | Starting | Idled | Unknown(text: string)

  /** What the proxy remembers about a session: the user's namespace and the Jenkins route. */
  datatype CacheItem = CacheItem(clusterURL: string, ns: string, route: string, scheme: string)

  /** The answers of the idler while Jenkins is being started: the pod state, and the HTTP
      status of the unidle call (None for a transport failure). */
  datatype StartAnswers = StartAnswers(state: Option<PodState>, unidle: Option<int>)

  /** A Jenkins pod, as the idler is told about it. */
  datatype Pod = Pod(ns: string, clusterURL: string)

  /** The idler client: the unidle calls it has made. */
  class Idler {
    var unidled: seq<Pod>

    constructor ()
      ensures unidled == []
    {
      unidled := [];
    }

    /** The client passes on 200 and 503 and turns everything else into an error. */
    method UnIdle(pod: Pod, reply: Option<int>) returns (code: Option<int>)
      modifies this
      ensures unidled == old(unidled) + [pod]
      ensures code == if reply == Some(200) || reply == Some(503) then reply else None
    {
      unidled := unidled + [pod];
      if reply.None? {
        return None;
      }
      if reply.value == 200 || reply.value == 503 {
        return reply;
      }
      return None;
    }
  }

  /** A pod can be started unless its state is unknown, or it is idled and unidling fails. */
  predicate Starts(a: StartAnswers) {
    a.state.Some? && (a.state.value.Idled? ==> a.unidle == Some(200) || a.unidle == Some(503))
  }

  /** 503 is reported only for an idled pod on a full cluster; all else reads "starting". */
  function StartCode(a: StartAnswers): int
    requires Starts(a)
  {
    if a.state.value.Idled? && a.unidle == Some(503) then 503 else 202
  }

  /** Starting a pod unidles it if it is idled. */
  function AfterStart(unidled: seq<Pod>, pod: Pod, a: StartAnswers): seq<Pod> {
    if a.state == Some(Idled) then unidled + [pod] else unidled
  }

  method Start(idler: Idler, pod: Pod, a: StartAnswers) returns (state: PodState, code: int, err: bool)
    modifies idler
    ensures err <==> a.state.None? || (a.state.value.Idled? && a.unidle != Some(200) && a.unidle != Some(503))
    ensures !err ==> state == a.state.value
    ensures !err ==> code == if a.state.value.Idled? && a.unidle == Some(503) then 503 else 202
    ensures idler.unidled == if a.state == Some(Idled) then old(idler.unidled) + [pod] else old(idler.unidled)
  {
    code, err := 202, true;
    if a.state.None? {
      return Unknown(""), code, true;
    }
    state := a.state.value;
    if state.Idled? {
      var answer := idler.UnIdle(pod, a.unidle);
      match answer
      case None => return state, 0, true;
      case Some(c) => code := c;
    }
    if code == 200 {
      code := 202;
    }
    err := false;
  }

  /** The Jenkins route and scheme of a namespace, if its cluster is known. */
  function ConstructRoute(clusters: map<string, string>, clusterURL: string, ns: string): Option<(string, string)> {
    var suffix := if clusterURL in clusters then clusters[clusterURL] else "";
    if |suffix| == 0 then None else Some(("jenkins-" + ns + "." + suffix, "https"))
  }

  /** `host` is the Jenkins route of namespace `ns` on some known cluster. */
  ghost predicate IsRouteOf(clusters: map<string, string>, ns: string, host: string) {
    exists url :: url in clusters && clusters[url] != "" && host == "jenkins-" + ns + "." + clusters[url]
  }

  /** GetJenkins accepts a remembered session only with a namespace and a cluster. */
  predicate Usable(item: CacheItem) {
    item.ns != "" && item.clusterURL != ""
  }

  predicate UsableNamespace(n: Tenant.Namespace) {
    n.name != "" && n.clusterURL != ""
  }

  /** Every remembered session leads over https to the route of its own namespace. */
  predicate WellRouted(clusters: map<string, string>, item: CacheItem) {
    && item.scheme == "https"
    && item.clusterURL in clusters && clusters[item.clusterURL] != ""
    && item.route == "jenkins-" + item.ns + "." + clusters[item.clusterURL]
  }

  /** The cluster map out of the idler's list; the last entry of a URL wins. */
  method Clusters(views: seq<(string, string)>) returns (clusters: map<string, string>)
    ensures forall url :: url in clusters <==> exists k :: 0 <= k < |views| && views[k].0 == url
    ensures forall k :: 0 <= k < |views| && (forall j :: k < j < |views| ==> views[j].0 != views[k].0) ==>
                          clusters[views[k].0] == views[k].1
  {
    clusters := map[];
    for n := 0 to |views|
      invariant forall url :: url in clusters <==> exists k :: 0 <= k < n && views[k].0 == url
      invariant forall k :: 0 <= k < n && (forall j :: k < j < n ==> views[j].0 != views[k].0) ==>
                              clusters[views[k].0] == views[k].1
    {
      clusters := clusters[views[n].0 := views[n].1];
    }
  }
}
