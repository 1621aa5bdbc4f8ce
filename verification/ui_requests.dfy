/** The handler of Jenkins UI requests: token login, the cookie loop and the way to auth. */
module UIRequests {
  import opened Wrappers
  import opened Http
  import opened Storage
  import opened Incoming
  import opened Jenkins
  import opened CookieUtil
  import opened ProxyState
  import Tenant

  /** The answers to a request that carries a token: whether token_json decodes, the user id,
      the tenant's namespaces, the OpenShift token, the pod, the login, and a fresh uuid. */
  datatype TokenAnswers = TokenAnswers(
    decodes: bool,
    uid: bool,
    tenant: Option<seq<Tenant.Namespace>>,
    openshiftToken: bool,
    start: StartAnswers,
    login: Option<Login>,
    uuid: string)

  /** Jenkins' answer to a login: the status and the cookies it sets. */
  datatype Login = Login(status: int, cookies: seq<SetCookie>)

  /** The answers while one cookie is looked at: the pod, the login check, clock and statistics. */
  datatype CookieAnswers = CookieAnswers(start: StartAnswers, check: Option<int>, now: int, stat: StatAnswers)

  /** The answers to one request; cookie answers are given per position in the cookie list. */
  datatype UIAnswers = UIAnswers(
    redirectParses: bool,
    authClient: bool,
    token: TokenAnswers,
    cookie: nat -> CookieAnswers)

  datatype Site = Site(redirect: string, clusters: map<string, string>)

  datatype UIRequest = UIRequest(path: string, tokenJSON: Option<seq<string>>, cookies: seq<Cookie>)

  type SessionCache = map<string, CacheItem>

  datatype UIState = UIState(cache: SessionCache, stats: map<string, Statistics>, resp: Response, unidled: seq<Pod>)

  /** `target` is where the request is to be forwarded, if at all. */
  datatype UIResult = UIResult(state: UIState, cacheKey: string, ns: string, target: Option<CacheItem>)

  function TrimRight(s: string, c: char): string {
    if s != "" && s[|s| - 1] == c then TrimRight(s[..|s| - 1], c) else s
  }

  function RedirectURL(site: Site, path: string): string {
    TrimRight(site.redirect, '/') + path
  }

  /** The redirect URL is the configured one without slashes at its end, followed by the path. */
  lemma {:induction false} RedirectKeepsPath(site: Site, path: string) returns (n: nat)
    ensures n <= |site.redirect| && RedirectURL(site, path) == site.redirect[..n] + path
    ensures n > 0 ==> site.redirect[n - 1] != '/'
    ensures forall i :: n <= i < |site.redirect| ==> site.redirect[i] == '/'
    decreases |site.redirect|
  {
    var base := site.redirect;
    n := |base|;
    if base != "" && base[|base| - 1] == '/' {
      n := RedirectKeepsPath(site.(redirect := base[..|base| - 1]), path);
      assert base[..|base| - 1][..n] == base[..n];
    } else {
      assert base[..n] == base;
    }
  }

  function Fail(s: UIState): UIState {
    s.(resp := s.resp.WriteHeader(500))
  }

  function Expire(s: UIState, cookies: seq<Cookie>, expire: string -> bool): UIState {
    s.(resp := WithCookies(s.resp, ExpiringAll(cookies, expire)))
  }

  /** A session's pod is started. */
  function Wake(s: UIState, item: CacheItem, a: StartAnswers): UIState {
    s.(unidled := AfterStart(s.unidled, Pod(item.ns, item.clusterURL), a))
  }

  /** GetJenkins with a token: the session data of the user's Jenkins namespace. */
  function ResolveToken(clusters: map<string, string>, authClient: bool, t: TokenAnswers): Option<CacheItem> {
    if !(t.decodes && authClient && t.uid && t.tenant.Some?) then None
    else match Tenant.OfKind(t.tenant.value, Tenant.JENKINS)
      case None => None
      case Some(n) =>
        match ConstructRoute(clusters, n.clusterURL, n.name)
        case None => None
        case Some((route, scheme)) => Some(CacheItem(n.clusterURL, n.name, route, scheme))
  }

  /** What a token leads to: the session of the first Jenkins namespace of its user's tenant. */
  ghost predicate LeadsTo(clusters: map<string, string>, authClient: bool, t: TokenAnswers, item: CacheItem) {
    && t.decodes && authClient && t.uid && t.tenant.Some?
    && exists i: nat ::
         && Tenant.IsFirstOfKind(t.tenant.value, "jenkins", i)
         && var n := t.tenant.value[i];
            && n.clusterURL in clusters && clusters[n.clusterURL] != ""
            && item == CacheItem(n.clusterURL, n.name, "jenkins-" + n.name + "." + clusters[n.clusterURL], "https")
  }

  lemma TokenLeads(clusters: map<string, string>, authClient: bool, t: TokenAnswers)
    ensures forall item :: LeadsTo(clusters, authClient, t, item) <==> ResolveToken(clusters, authClient, t) == Some(item)
  {
    if t.tenant.Some? && Tenant.OfKind(t.tenant.value, "jenkins").Some? {
      var k: nat :| Tenant.IsFirstOfKind(t.tenant.value, "jenkins", k)
                    && Tenant.OfKind(t.tenant.value, "jenkins").value == t.tenant.value[k];
      assert forall i: nat :: Tenant.IsFirstOfKind(t.tenant.value, "jenkins", i) ==> i == k;
    }
  }

  function TokenPath(site: Site, s: UIState, req: UIRequest, a: UIAnswers): UIResult
    requires req.tokenJSON.Some?
  {
    var t := a.token;
    var item := ResolveToken(site.clusters, a.authClient, t);
    if req.tokenJSON.value == [] || item.None? then UIResult(Fail(s), "", "", None)
    else
      var info := item.value;
      UIResult(if t.openshiftToken then TokenStart(site, Wake(s, info, t.start), req, info, t) else Fail(s), "", info.ns, None)
  }

  /** ... once the pod was asked to start. */
  function TokenStart(site: Site, s: UIState, req: UIRequest, info: CacheItem, t: TokenAnswers): UIState {
    if !Starts(t.start) then Fail(s)
    else if !t.start.state.value.Running? then Park(site, s, req, info, t.uuid)
    else if t.login.None? then Fail(s)
    else LogIn(site, s, req, info, t.login.value)
  }

  /** The pod is not up: remember the user under a fresh idled cookie. */
  function Park(site: Site, s: UIState, req: UIRequest, info: CacheItem, uuid: string): UIState {
    var resp := Expire(s, req.cookies, IsSession).resp.AddCookie(SetCookie(JENKINS_IDLED, uuid, false));
    s.(cache := s.cache[uuid := info], resp := resp.Redirect(Here(RedirectURL(site, req.path)), 302))
  }

  /** The pod is up: remember the user under Jenkins' session cookie. */
  function LogIn(site: Site, s: UIState, req: UIRequest, info: CacheItem, login: Login): UIState {
    var self := Here(RedirectURL(site, req.path));
    if login.status != 200 then s.(resp := s.resp.Redirect(self, 302))
    else
      var s' := Expire(s, req.cookies, IsSessionOrIdled);
      var resp := WithCookies(s'.resp, login.cookies);
      match LastSession(login.cookies)
      case None => Fail(s'.(resp := resp))
      case Some(c) => s'.(cache := s'.cache[c.value := info], resp := resp.Redirect(self, 302))
  }

  /** How the cookie loop goes on after a cookie. */
  datatype Flow = Next | Break | Return | Forward(item: CacheItem)

  /** The loop's variables. */
  datatype Scan = Scan(state: UIState, cacheKey: string, ns: string, needsAuth: bool)

  function ScanOne(cookies: seq<Cookie>, c: Cookie, s: Scan, a: CookieAnswers): (Scan, Flow) {
    if !IsSessionOrIdled(c.name) then (s, Next)
    else if c.value !in s.state.cache then
      (s.(state := s.state.(resp := s.state.resp.AddCookie(Expired(c)))), Next)
    else
      var item := s.state.cache[c.value];
      var hit := s.(cacheKey := c.value, ns := item.ns);
      if !Usable(item) then (hit.(state := Fail(s.state)), Return)
      else
        var woken := hit.(state := Wake(s.state, item, a.start));
        if IsSession(c.name) then ScanSession(cookies, c, woken, item, a)
        else ScanIdled(cookies, c, woken.(needsAuth := false), item, a)
  }

  function ScanSession(cookies: seq<Cookie>, c: Cookie, s: Scan, item: CacheItem, a: CookieAnswers): (Scan, Flow) {
    if !Starts(a.start) then (s.(state := Fail(s.state)), Return)
    else if a.start.state.value.Running? then (s.(needsAuth := false), Forward(item))
    else
      var state := Expire(s.state, cookies, IsSessionOrIdled);
      (s.(cacheKey := "",
          state := state.(cache := state.cache - {c.value}, stats := RecordStats(state.stats, item.ns, a.now, 0, a.stat))),
       Break)
  }

  function ScanIdled(cookies: seq<Cookie>, c: Cookie, s: Scan, item: CacheItem, a: CookieAnswers): (Scan, Flow) {
    if !Starts(a.start) then (s.(state := Fail(s.state)), Return)
    else if !a.start.state.value.Running? then
      (s.(state := s.state.(resp := s.state.resp.WriteHeader(StartCode(a.start)),
                            stats := RecordStats(s.state.stats, item.ns, a.now, 0, a.stat))),
       Return)
    else if a.check.None? then (s.(state := Fail(s.state)), Return)
    else if Answers(a.check) then
      var state := Expire(s.state, cookies, IsSessionOrIdled);
      (s.(cacheKey := "", state := state.(cache := state.cache - {c.value})), Next)
    else (s.(state := s.state.(resp := s.state.resp.WriteHeader(202))), Next)
  }

  /** The Jenkins route answers: 200, or 403 since the check brings no token. */
  predicate Answers(check: Option<int>) {
    check == Some(200) || check == Some(403)
  }

  function ScanFrom(cookies: seq<Cookie>, i: nat, s: Scan, a: nat -> CookieAnswers): (Scan, Flow)
    requires i <= |cookies|
    decreases |cookies| - i
  {
    if i == |cookies| then (s, Next)
    else
      var (s', flow) := ScanOne(cookies, cookies[i], s, a(i));
      if flow.Next? then ScanFrom(cookies, i + 1, s', a) else (s', flow)
  }

  /** The redirect to the auth service, as a fresh start. */
  function ToAuth(site: Site, s: UIState, req: UIRequest, authClient: bool): UIState {
    if !authClient then Fail(s)
    else
      var s' := Expire(s, req.cookies, IsSessionOrIdled);
      s'.(resp := s'.resp.Redirect(Auth(RedirectURL(site, req.path)), 307))
  }

  function StartScan(s: UIState): Scan {
    Scan(s, "", "", true)
  }

  function PlainPath(site: Site, s: UIState, req: UIRequest, a: UIAnswers): UIResult {
    var (end, flow) := ScanFrom(req.cookies, 0, StartScan(s), a.cookie);
    UIResult(
      if !flow.Return? && end.needsAuth then ToAuth(site, end.state, req, a.authClient) else end.state,
      end.cacheKey, end.ns,
      if flow.Forward? then Some(flow.item) else None)
  }

  function HandleUI(site: Site, s: UIState, req: UIRequest, a: UIAnswers): UIResult {
    if !a.redirectParses then UIResult(Fail(s), "", "", None)
    else if req.tokenJSON.Some? then TokenPath(site, s, req, a)
    else PlainPath(site, s, req, a)
  }

  function StateOf(p: Proxy, w: ResponseWriter): UIState
    reads p, p.store, p.idler, w
  {
    UIState(p.proxyCache, p.store.statistics, w.sent, p.idler.unidled)
  }

  function SiteOf(p: Proxy): Site {
    Site(p.redirect, p.clusters)
  }

  function RequestOf(r: HttpRequest): UIRequest {
    UIRequest(r.path, r.tokenJSON, r.cookies)
  }

  method GetJenkins(clusters: map<string, string>, authClient: bool, t: TokenAnswers) returns (info: Option<CacheItem>)
    ensures info == ResolveToken(clusters, authClient, t)
    ensures forall item :: info == Some(item) <==> LeadsTo(clusters, authClient, t, item)
  {
    TokenLeads(clusters, authClient, t);
    if !t.decodes || !authClient || !t.uid || t.tenant.None? {
      return None;
    }
    var namespace := Tenant.GetNamespaceByType(t.tenant.value, Tenant.JENKINS);
    if namespace.None? {
      return None;
    }
    var n := namespace.value;
    var route := ConstructRoute(clusters, n.clusterURL, n.name);
    if route.None? {
      return None;
    }
    return Some(CacheItem(n.clusterURL, n.name, route.value.0, route.value.1));
  }

  method HandleJenkinsUIRequest(p: Proxy, w: ResponseWriter, r: HttpRequest, a: UIAnswers)
    returns (cacheKey: string, ns: string, okToForward: bool)
    requires NamedStats(p.store.statistics)
    modifies p`proxyCache, p.store`statistics, p.idler, w, r
    ensures var result := HandleUI(SiteOf(p), old(StateOf(p, w)), RequestOf(r), a);
            && StateOf(p, w) == result.state
            && (cacheKey, ns, okToForward) == (result.cacheKey, result.ns, result.target.Some?)
            && (if okToForward then
                  r.host == result.target.value.route && r.urlHost == r.host && r.scheme == result.target.value.scheme
                else
                  r.host == old(r.host) && r.urlHost == old(r.urlHost) && r.scheme == old(r.scheme))
    ensures NamedStats(p.store.statistics)
  {
    cacheKey, ns, okToForward := "", "", false;
    if !a.redirectParses {
      w.HandleError();
      return;
    }
    if r.tokenJSON.Some? {
      ns := HandleToken(p, w, r, a);
      return;
    }
    var needsAuth := true;
    var i := 0;
    ghost var site, before := SiteOf(p), old(StateOf(p, w));
    ghost var start := StartScan(before);
    while i < |r.cookies|
      invariant 0 <= i <= |r.cookies|
      invariant NamedStats(p.store.statistics)
      invariant !okToForward
      invariant ScanFrom(r.cookies, 0, start, a.cookie)
                == ScanFrom(r.cookies, i, Scan(StateOf(p, w), cacheKey, ns, needsAuth), a.cookie)
      invariant r.host == old(r.host) && r.urlHost == old(r.urlHost) && r.scheme == old(r.scheme)
    {
      var cookie := r.cookies[i];
      i := i + 1;
      if !IsSessionOrIdled(cookie.name) {
        continue;
      }
      if cookie.value !in p.proxyCache {
        ExpireCookie(w, cookie);
        continue;
      }
      cacheKey := cookie.value;
      var pci := p.proxyCache[cookie.value];
      ns := pci.ns;
      if !Usable(pci) {
        w.HandleError();
        return;
      }
      if IsSession(cookie.name) {
        var state, _, err := Start(p.idler, Pod(pci.ns, pci.clusterURL), a.cookie(i - 1).start);
        if err {
          w.HandleError();
          return;
        }
        if state.Running? {
          needsAuth := false;
          okToForward := true;
          r.Readdress(pci.route, pci.scheme);
          return;
        }
        p.proxyCache := p.proxyCache - {cacheKey};
        cacheKey := "";
        ExpireCookiesMatching(w, r.cookies, IsSessionOrIdled);
        var _ := RecordStatistics(p.store, pci.ns, a.cookie(i - 1).now, 0, a.cookie(i - 1).stat);
        break;
      }
      if IsIdled(cookie.name) {
        needsAuth := false;
        var done;
        cacheKey, done := HandleIdled(p, w, r, cookie, pci, a.cookie(i - 1));
        if done {
          return;
        }
      }
    }
    if needsAuth {
      if !a.authClient {
        w.HandleError();
        return;
      }
      ExpireCookiesMatching(w, r.cookies, IsSessionOrIdled);
      w.Redirect(Auth(RedirectURL(SiteOf(p), r.path)), 307);
    }
  }

  /** The idled-cookie branch of the loop; `done` stands for the handler's return. */
  method HandleIdled(p: Proxy, w: ResponseWriter, r: HttpRequest, cookie: Cookie, pci: CacheItem, a: CookieAnswers)
    returns (cacheKey: string, done: bool)
    requires NamedStats(p.store.statistics)
    modifies p`proxyCache, p.store`statistics, p.idler, w
    ensures NamedStats(p.store.statistics)
    ensures forall ns :: (Scan(StateOf(p, w), cacheKey, ns, false), if done then Return else Next)
                         == ScanIdled(r.cookies, cookie, Scan(Wake(old(StateOf(p, w)), pci, a.start), cookie.value, ns, false), pci, a)
  {
    cacheKey, done := cookie.value, true;
    var state, code, err := Start(p.idler, Pod(pci.ns, pci.clusterURL), a.start);
    if err {
      w.HandleError();
      return;
    }
    if code != 503 && code != 202 {
      // The branch for an unexpected unidle code.
      assert false;
    }
    if !state.Running? {
      w.WriteHeader(code);
      var _ := RecordStatistics(p.store, pci.ns, a.now, 0, a.stat);
      return;
    }
    if a.check.None? {
      w.HandleError();
      return;
    }
    if a.check.value == 200 || a.check.value == 403 {
      ExpireCookiesMatching(w, r.cookies, IsSessionOrIdled);
      p.proxyCache := p.proxyCache - {cacheKey};
      cacheKey := "";
    } else {
      w.WriteHeader(202);
    }
    done := false;
  }

  /** The token_json part of the handler. */
  method HandleToken(p: Proxy, w: ResponseWriter, r: HttpRequest, a: UIAnswers) returns (ns: string)
    requires r.tokenJSON.Some?
    modifies p`proxyCache, p.idler, w
    ensures var result := TokenPath(SiteOf(p), old(StateOf(p, w)), RequestOf(r), a);
            StateOf(p, w) == result.state && ns == result.ns
  {
    ns := "";
    var t := a.token;
    var self := Here(RedirectURL(SiteOf(p), r.path));
    if |r.tokenJSON.value| < 1 {
      w.HandleError();
      return;
    }
    var jenkins := GetJenkins(p.clusters, a.authClient, t);
    if jenkins.None? {
      w.HandleError();
      return;
    }
    var info := jenkins.value;
    ns := info.ns;
    if !t.openshiftToken {
      w.HandleError();
      return;
    }
    var state, _, err := Start(p.idler, Pod(info.ns, info.clusterURL), t.start);
    if err {
      w.HandleError();
      return;
    }
    if !state.Running? {
      ExpireCookiesMatching(w, r.cookies, IsSession);
      SetIdledCookie(w, t.uuid);
      p.proxyCache := p.proxyCache[t.uuid := info];
      w.Redirect(self, 302);
      return;
    }
    if t.login.None? {
      w.HandleError();
      return;
    }
    if t.login.value.status != 200 {
      w.Redirect(self, 302);
      return;
    }
    ExpireCookiesMatching(w, r.cookies, IsSessionOrIdled);
    var session := SetJenkinsCookies(w, t.login.value.cookies);
    if session.None? {
      w.HandleError();
      return;
    }
    p.proxyCache := p.proxyCache[session.value.value := info];
    w.Redirect(self, 302);
  }
}
