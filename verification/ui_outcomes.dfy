/** What a UI request without a token can come to. */
module UIOutcomes {
  import opened Wrappers
  import opened Http
  import opened Storage
  import opened Jenkins
  import opened CookieUtil
  import opened UIRequests

  /** Position i carries a session or idled cookie that the cache knows. */
  predicate Hit(cookies: seq<Cookie>, cache: SessionCache, i: nat) {
    i < |cookies| && IsSessionOrIdled(cookies[i].name) && cookies[i].value in cache
  }

  ghost predicate NoHits(cookies: seq<Cookie>, cache: SessionCache, i: nat, n: nat) {
    forall k: nat :: i <= k < n ==> !Hit(cookies, cache, k)
  }

  /** The response's cookies expire exactly these session and idled cookies. */
  ghost predicate Expires(resp: Response, cookies: seq<Cookie>) {
    forall s :: s in resp.cookies <==> exists c :: c in cookies && IsSessionOrIdled(c.name) && s == Expired(c)
  }

  function Passed(s: Scan, cookies: seq<Cookie>): Scan {
    s.(state := Expire(s.state, cookies, IsSessionOrIdled))
  }

  lemma ExpiringAppend(cookies: seq<Cookie>, c: Cookie)
    ensures ExpiringAll(cookies + [c], IsSessionOrIdled)
            == ExpiringAll(cookies, IsSessionOrIdled) + (if IsSessionOrIdled(c.name) then [Expired(c)] else [])
  {
    assert (cookies + [c])[..|cookies|] == cookies;
  }

  lemma MissStep(cookies: seq<Cookie>, s: Scan, some: seq<Cookie>, c: Cookie, a: CookieAnswers)
    requires !(IsSessionOrIdled(c.name) && c.value in s.state.cache)
    ensures ScanOne(cookies, c, Passed(s, some), a) == (Passed(s, some + [c]), Next)
  {
    ExpiringAppend(some, c);
    var before, after := Passed(s, some).state.resp, Passed(s, some + [c]).state.resp;
    if IsSessionOrIdled(c.name) {
      assert after.cookies == before.AddCookie(Expired(c)).cookies;
    } else {
      assert after.cookies == before.cookies;
    }
  }

  /** Unknown session and idled cookies are expired, one after the other. */
  lemma {:induction false} SkipMisses(cookies: seq<Cookie>, i: nat, n: nat, s: Scan, a: nat -> CookieAnswers)
    requires i <= n <= |cookies| && NoHits(cookies, s.state.cache, i, n)
    ensures ScanFrom(cookies, i, s, a) == ScanFrom(cookies, n, Passed(s, cookies[i..n]), a)
    decreases n - i
  {
    if i == n {
      assert cookies[i..n] == [];
      assert s.state.resp.cookies + [] == s.state.resp.cookies;
    } else {
      SkipMisses(cookies, i, n - 1, s, a);
      assert !Hit(cookies, s.state.cache, n - 1);
      MissStep(cookies, s, cookies[i..n - 1], cookies[n - 1], a(n - 1));
      assert cookies[i..n] == cookies[i..n - 1] + [cookies[n - 1]];
    }
  }

  /** The pod's state is known and, if it is idled, the idler takes the unidle call. */
  predicate CanStart(start: StartAnswers) {
    start.state.Some? && (start.state.value.Idled? ==> start.unidle == Some(200) || start.unidle == Some(503))
  }

  /** The session has a namespace and a cluster, and its pod can be started. */
  predicate Startable(item: CacheItem, start: StartAnswers) {
    item.ns != "" && item.clusterURL != "" && CanStart(start)
  }

  /** Nothing goes wrong at a hit: its session has a namespace and a cluster, the pod can be
      started, and a running Jenkins answers the login check. */
  predicate Works(cookies: seq<Cookie>, cache: SessionCache, i: nat, a: CookieAnswers)
    requires Hit(cookies, cache, i)
  {
    && Startable(cache[cookies[i].value], a.start)
    && (IsIdled(cookies[i].name) && a.start.state.value.Running? ==> a.check.Some?)
  }

  /** The unidle calls of a request that starts the pod of one session. */
  ghost predicate Woke(before: seq<Pod>, after: seq<Pod>, item: CacheItem, a: StartAnswers) {
    after == if a.state == Some(Idled) then before + [Pod(item.ns, item.clusterURL)] else before
  }

  lemma ExpiresPrefix(resp: Response, cookies: seq<Cookie>)
    requires resp.cookies == ExpiringAll(cookies, IsSessionOrIdled)
    ensures Expires(resp, cookies)
  {
    ExpiringMeaning(cookies, IsSessionOrIdled);
  }

  /** More expirations of cookies among the same ones change nothing. */
  lemma ExpiresMore(resp: Response, some: seq<Cookie>, all: seq<Cookie>)
    requires resp.status.None?
    requires forall s :: s in resp.cookies ==> exists c :: c in all && IsSessionOrIdled(c.name) && s == Expired(c)
    ensures Expires(WithCookies(resp, ExpiringAll(all, IsSessionOrIdled)), all)
  {
    ExpiringMeaning(all, IsSessionOrIdled);
  }

  /** No known cookie: off to auth, with every session and idled cookie expired; or an error if the
      auth service is not configured. */
  lemma OutcomeWithoutHit(site: Site, s: UIState, req: UIRequest, a: UIAnswers)
    requires s.resp == EMPTY && a.redirectParses && req.tokenJSON.None?
    requires NoHits(req.cookies, s.cache, 0, |req.cookies|)
    ensures var r := HandleUI(site, s, req, a);
            && r.target.None? && r.cacheKey == "" && r.ns == ""
            && r.state.resp.status == Some(if a.authClient then 307 else 500)
            && r.state.resp.location == (if a.authClient then Some(Auth(RedirectURL(site, req.path))) else None)
            && r.state.cache == s.cache && r.state.stats == s.stats && r.state.unidled == s.unidled
            && Expires(r.state.resp, req.cookies)
  {
    SkipMisses(req.cookies, 0, |req.cookies|, StartScan(s), a.cookie);
    var passed := Passed(StartScan(s), req.cookies[0..|req.cookies|]);
    assert req.cookies[0..|req.cookies|] == req.cookies;
    assert passed.state.resp.cookies == ExpiringAll(req.cookies, IsSessionOrIdled);
    ExpiringMeaning(req.cookies, IsSessionOrIdled);
    ExpiresMore(passed.state.resp, req.cookies, req.cookies);
  }

  /** The scan up to the first hit, and that hit. */
  lemma ReachHit(s: UIState, cookies: seq<Cookie>, h: nat, a: nat -> CookieAnswers)
    requires s.resp == EMPTY && Hit(cookies, s.cache, h) && NoHits(cookies, s.cache, 0, h)
    ensures var before := Passed(StartScan(s), cookies[..h]);
            && before.state == s.(resp := before.state.resp)
            && before.state.resp == EMPTY.(cookies := ExpiringAll(cookies[..h], IsSessionOrIdled))
            && Expires(before.state.resp, cookies[..h])
            && var (s', flow) := ScanOne(cookies, cookies[h], before, a(h));
               ScanFrom(cookies, 0, StartScan(s), a) == if flow.Next? then ScanFrom(cookies, h + 1, s', a) else (s', flow)
  {
    SkipMisses(cookies, 0, h, StartScan(s), a);
    assert cookies[0..h] == cookies[..h];
    assert [] + ExpiringAll(cookies[..h], IsSessionOrIdled) == ExpiringAll(cookies[..h], IsSessionOrIdled);
    ExpiresPrefix(Passed(StartScan(s), cookies[..h]).state.resp, cookies[..h]);
  }

  /** Something goes wrong at the first known cookie: an error, and nothing else changes but for the
      expiry of the cookies before it and the start of a pod that has a name. */
  lemma OutcomeOfBrokenHit(site: Site, s: UIState, req: UIRequest, a: UIAnswers, h: nat)
    requires s.resp == EMPTY && a.redirectParses && req.tokenJSON.None?
    requires Hit(req.cookies, s.cache, h) && NoHits(req.cookies, s.cache, 0, h)
    requires !Works(req.cookies, s.cache, h, a.cookie(h))
    ensures var r := HandleUI(site, s, req, a);
            var item := s.cache[req.cookies[h].value];
            && r.target.None? && r.state.resp.status == Some(500) && r.state.resp.location.None?
            && r.state.cache == s.cache && r.state.stats == s.stats
            && (if item.ns == "" || item.clusterURL == "" then r.state.unidled == s.unidled
                else Woke(s.unidled, r.state.unidled, item, a.cookie(h).start))
            && Expires(r.state.resp, req.cookies[..h])
  {
    ReachHit(s, req.cookies, h, a.cookie);
    IdledIsNotSession(req.cookies[h].name);
  }

  /** A known session cookie: forwarded with no status written if the pod runs; otherwise the
      session is forgotten, the visit recorded and the browser sent to auth. */
  lemma OutcomeOfSessionHit(site: Site, s: UIState, req: UIRequest, a: UIAnswers, h: nat)
    requires s.resp == EMPTY && a.redirectParses && req.tokenJSON.None?
    requires Hit(req.cookies, s.cache, h) && NoHits(req.cookies, s.cache, 0, h)
    requires IsSession(req.cookies[h].name) && Works(req.cookies, s.cache, h, a.cookie(h))
    ensures var r := HandleUI(site, s, req, a);
            var key := req.cookies[h].value;
            var item, ca := s.cache[key], a.cookie(h);
            && r.ns == item.ns
            && Woke(s.unidled, r.state.unidled, item, ca.start)
            && if ca.start.state.value.Running? then
              && r.target == Some(item) && r.cacheKey == key && r.state.resp.status.None?
              && r.state.cache == s.cache && r.state.stats == s.stats
              && Expires(r.state.resp, req.cookies[..h])
            else
              && r.target.None? && r.cacheKey == ""
              && r.state.resp.status == Some(if a.authClient then 307 else 500)
              && r.state.resp.location == (if a.authClient then Some(Auth(RedirectURL(site, req.path))) else None)
              && r.state.cache == s.cache - {key}
              && Recorded(s.stats, r.state.stats, item.ns, ca.now, 0, ca.stat)
              && Expires(r.state.resp, req.cookies)
  {
    var cookies := req.cookies;
    ReachHit(s, cookies, h, a.cookie);
    if !a.cookie(h).start.state.value.Running? {
      var before := Passed(StartScan(s), cookies[..h]).state.resp;
      assert forall c :: c in cookies[..h] ==> c in cookies;
      ExpiresMore(before, cookies[..h], cookies);
      ExpiresMore(WithCookies(before, ExpiringAll(cookies, IsSessionOrIdled)), cookies, cookies);
    }
  }

  /** A known idled cookie: the loading page while Jenkins is not up, with the visit recorded if the
      pod does not even run; once its route answers, the idled session is cleared and the browser
      may reload. */
  lemma OutcomeOfIdledHit(site: Site, s: UIState, req: UIRequest, a: UIAnswers, h: nat)
    requires s.resp == EMPTY && a.redirectParses && req.tokenJSON.None?
    requires Hit(req.cookies, s.cache, h) && NoHits(req.cookies, s.cache, 0, h)
    requires NoHits(req.cookies, s.cache, h + 1, |req.cookies|)
    requires IsIdled(req.cookies[h].name) && Works(req.cookies, s.cache, h, a.cookie(h))
    ensures var r := HandleUI(site, s, req, a);
            var key := req.cookies[h].value;
            var item, ca := s.cache[key], a.cookie(h);
            && r.target.None? && r.ns == item.ns && r.state.resp.location.None?
            && Woke(s.unidled, r.state.unidled, item, ca.start)
            && (if !ca.start.state.value.Running? then
                  && r.state.resp.status == Some(if ca.start.state.value.Idled? && ca.start.unidle == Some(503) then 503 else 202)
                  && r.state.cache == s.cache && r.cacheKey == key && Expires(r.state.resp, req.cookies[..h])
                  && Recorded(s.stats, r.state.stats, item.ns, ca.now, 0, ca.stat)
                else if ca.check == Some(200) || ca.check == Some(403) then
                  && r.state.resp.status.None? && r.state.stats == s.stats
                  && r.state.cache == s.cache - {key} && r.cacheKey == "" && Expires(r.state.resp, req.cookies)
                else
                  && r.state.resp.status == Some(202) && r.state.stats == s.stats
                  && r.state.cache == s.cache && r.cacheKey == key && Expires(r.state.resp, req.cookies[..h]))
  {
    var cookies, ca := req.cookies, a.cookie(h);
    IdledIsNotSession(cookies[h].name);
    ReachHit(s, cookies, h, a.cookie);
    if ca.start.state.value.Running? {
      var before := Passed(StartScan(s), cookies[..h]);
      var (s', flow) := ScanOne(cookies, cookies[h], before, ca);
      assert NoHits(cookies, s'.state.cache, h + 1, |cookies|) by {
        assert forall k: nat :: Hit(cookies, s'.state.cache, k) ==> Hit(cookies, s.cache, k);
      }
      SkipMisses(cookies, h + 1, |cookies|, s', a.cookie);
      if Answers(ca.check) {
        ClearedExpires(cookies, h, before.state.resp);
      }
    }
  }

  lemma ClearedExpires(cookies: seq<Cookie>, h: nat, before: Response)
    requires h < |cookies| && before.status.None? && Expires(before, cookies[..h])
    ensures Expires(WithCookies(WithCookies(before, ExpiringAll(cookies, IsSessionOrIdled)),
                                ExpiringAll(cookies[h + 1..|cookies|], IsSessionOrIdled)), cookies)
  {
    assert forall c :: c in cookies[..h] ==> c in cookies;
    ExpiresMore(before, cookies[..h], cookies);
    assert forall c :: c in cookies[h + 1..|cookies|] ==> c in cookies;
    ExpiringMeaning(cookies[h + 1..|cookies|], IsSessionOrIdled);
  }

  datatype Outcome = Forwarded | LoadingPage(code: int) | ClearedIdled | SentToAuth

  /** How an outcome shows. The four exclude each other. */
  ghost predicate Shows(o: Outcome, r: UIResult) {
    match o
    case Forwarded => r.target.Some? && r.state.resp.status.None?
    case LoadingPage(code) => r.target.None? && r.state.resp.status == Some(code) && (code == 202 || code == 503)
    case ClearedIdled => r.target.None? && r.state.resp.status.None?
    case SentToAuth => r.target.None? && r.state.resp.status == Some(307)
  }

  /** If at most one session or idled cookie is known and nothing goes wrong, a plain request has
      exactly one of the four outcomes. */
  lemma ExactlyOneOutcome(site: Site, s: UIState, req: UIRequest, a: UIAnswers)
    requires s.resp == EMPTY && a.redirectParses && req.tokenJSON.None? && a.authClient
    requires forall i: nat, j: nat :: Hit(req.cookies, s.cache, i) && Hit(req.cookies, s.cache, j) ==> i == j
    requires forall i: nat :: Hit(req.cookies, s.cache, i) ==> Works(req.cookies, s.cache, i, a.cookie(i))
    ensures exists o :: Shows(o, HandleUI(site, s, req, a))
                        && forall o' :: Shows(o', HandleUI(site, s, req, a)) ==> o' == o
  {
    var r := HandleUI(site, s, req, a);
    var o: Outcome;
    if h: nat :| Hit(req.cookies, s.cache, h) {
      assert forall k: nat :: k != h ==> !Hit(req.cookies, s.cache, k);
      var ca := a.cookie(h);
      if IsSession(req.cookies[h].name) {
        OutcomeOfSessionHit(site, s, req, a, h);
        o := if ca.start.state.value.Running? then Forwarded else SentToAuth;
      } else {
        OutcomeOfIdledHit(site, s, req, a, h);
        o := if ca.start.state.value.Running? && Answers(ca.check) then ClearedIdled
             else LoadingPage(r.state.resp.status.value);
      }
    } else {
      OutcomeWithoutHit(site, s, req, a);
      o := SentToAuth;
    }
    assert Shows(o, r);
  }

  /** The sessions cleared by idled cookies before position i, whose Jenkins answered. */
  function ClearedBefore(cookies: seq<Cookie>, cache: SessionCache, i: nat, a: nat -> CookieAnswers): set<string>
    requires i <= |cookies|
  {
    set j | 0 <= j < i && IsIdled(cookies[j].name) && cookies[j].value in cache && Answers(a(j).check) :: cookies[j].value
  }

  function Live(cookies: seq<Cookie>, cache: SessionCache, i: nat, a: nat -> CookieAnswers): SessionCache
    requires i <= |cookies|
  {
    cache - ClearedBefore(cookies, cache, i, a)
  }

  /** An idled cookie, still known when it is looked at, whose Jenkins does not answer yet. */
  predicate Slow(cookies: seq<Cookie>, cache: SessionCache, i: nat, a: nat -> CookieAnswers) {
    && i < |cookies| && IsIdled(cookies[i].name)
    && cookies[i].value in Live(cookies, cache, i, a)
    && !Answers(a(i).check)
  }

  lemma LiveStep(cookies: seq<Cookie>, cache: SessionCache, i: nat, a: nat -> CookieAnswers)
    requires i < |cookies|
    ensures Live(cookies, cache, i + 1, a)
            == if IsIdled(cookies[i].name) && Answers(a(i).check) then Live(cookies, cache, i, a) - {cookies[i].value}
               else Live(cookies, cache, i, a)
  {
    var before, after := ClearedBefore(cookies, cache, i, a), ClearedBefore(cookies, cache, i + 1, a);
    assert after == if IsIdled(cookies[i].name) && cookies[i].value in cache && Answers(a(i).check)
                    then before + {cookies[i].value} else before;
  }

  /** Position k carries a session cookie, still known when it is looked at, whose usable session
      leads to a running Jenkins: the scan forwards there if it gets that far. */
  predicate Ready(cookies: seq<Cookie>, cache: SessionCache, k: nat, a: nat -> CookieAnswers) {
    && k < |cookies| && IsSession(cookies[k].name)
    && cookies[k].value in Live(cookies, cache, k, a)
    && cache[cookies[k].value].ns != "" && cache[cookies[k].value].clusterURL != ""
    && a(k).start.state == Some(Running)
  }

  /** A session or idled cookie still known when it is looked at. */
  predicate LiveHit(cookies: seq<Cookie>, cache: SessionCache, i: nat, a: nat -> CookieAnswers) {
    i < |cookies| && IsSessionOrIdled(cookies[i].name) && cookies[i].value in Live(cookies, cache, i, a)
  }

  /** The loop goes on after position i: nothing is known there, or it is an idled cookie whose pod
      runs and answers the login check somehow. */
  predicate Passes(cookies: seq<Cookie>, cache: SessionCache, i: nat, a: nat -> CookieAnswers) {
    LiveHit(cookies, cache, i, a) ==>
      && IsIdled(cookies[i].name) && Startable(cache[cookies[i].value], a(i).start)
      && a(i).start.state.value.Running? && a(i).check.Some?
  }

  ghost predicate SomeSlow(cookies: seq<Cookie>, cache: SessionCache, i: nat, k: nat, a: nat -> CookieAnswers) {
    exists j: nat :: i <= j < k && Slow(cookies, cache, j, a)
  }

  ghost predicate SomeHit(cookies: seq<Cookie>, cache: SessionCache, i: nat, k: nat, a: nat -> CookieAnswers) {
    exists j: nat :: i <= j < k && LiveHit(cookies, cache, j, a)
  }

  /** A passed position only clears a session that answers, or writes 202. */
  lemma PassOne(cookies: seq<Cookie>, cache: SessionCache, i: nat, s: Scan, a: nat -> CookieAnswers)
    requires i < |cookies| && s.state.cache == Live(cookies, cache, i, a) && Passes(cookies, cache, i, a)
    ensures var (t, flow) := ScanOne(cookies, cookies[i], s, a(i));
            && flow.Next?
            && t.state.cache == Live(cookies, cache, i + 1, a)
            && t.state.stats == s.state.stats && t.state.unidled == s.state.unidled
            && t.state.resp.status == (if s.state.resp.status.None? && Slow(cookies, cache, i, a) then Some(202) else s.state.resp.status)
            && t.state.resp.location == s.state.resp.location && t.state.resp.body == s.state.resp.body
            && t.needsAuth == (s.needsAuth && !LiveHit(cookies, cache, i, a))
  {
    LiveStep(cookies, cache, i, a);
    IdledIsNotSession(cookies[i].name);
  }

  lemma {:induction false} PassAll(cookies: seq<Cookie>, cache: SessionCache, i: nat, k: nat, s: Scan, a: nat -> CookieAnswers)
    returns (t: Scan)
    requires i <= k <= |cookies| && s.state.cache == Live(cookies, cache, i, a)
    requires forall j: nat :: i <= j < k ==> Passes(cookies, cache, j, a)
    ensures ScanFrom(cookies, i, s, a) == ScanFrom(cookies, k, t, a)
    ensures t.state.cache == Live(cookies, cache, k, a)
    ensures t.state.stats == s.state.stats && t.state.unidled == s.state.unidled
    ensures t.state.resp.status == (if s.state.resp.status.None? && SomeSlow(cookies, cache, i, k, a) then Some(202) else s.state.resp.status)
    ensures t.state.resp.location == s.state.resp.location && t.state.resp.body == s.state.resp.body
    ensures t.needsAuth == (s.needsAuth && !SomeHit(cookies, cache, i, k, a))
    decreases k - i
  {
    t := s;
    if i < k {
      PassOne(cookies, cache, i, s, a);
      t := PassAll(cookies, cache, i + 1, k, ScanOne(cookies, cookies[i], s, a(i)).0, a);
      assert SomeSlow(cookies, cache, i, k, a) == (Slow(cookies, cache, i, a) || SomeSlow(cookies, cache, i + 1, k, a));
      assert SomeHit(cookies, cache, i, k, a) == (LiveHit(cookies, cache, i, a) || SomeHit(cookies, cache, i + 1, k, a));
    }
  }

  /** How the loop ends at a position that does not pass. */
  datatype Ending = Off | Broken | Gone | Loading

  function EndingAt(cookies: seq<Cookie>, cache: SessionCache, k: nat, a: nat -> CookieAnswers): Ending
    requires LiveHit(cookies, cache, k, a)
  {
    var start := a(k).start;
    if !Startable(cache[cookies[k].value], start) then Broken
    else if IsSession(cookies[k].name) then (if start.state.value.Running? then Off else Gone)
    else if start.state.value.Running? then Broken
    else Loading
  }

  lemma StopOne(cookies: seq<Cookie>, cache: SessionCache, k: nat, s: Scan, a: nat -> CookieAnswers)
    requires k < |cookies| && s.state.cache == Live(cookies, cache, k, a) && !Passes(cookies, cache, k, a)
    ensures var (t, flow) := ScanFrom(cookies, k, s, a);
            var key, start := cookies[k].value, a(k).start;
            var item := cache[key];
            var ending := EndingAt(cookies, cache, k, a);
            && flow == (match ending case Off => Forward(item) case Gone => Break case _ => Return)
            && t.state.cache == (if ending.Gone? then s.state.cache - {key} else s.state.cache)
            && (if ending.Gone? || ending.Loading? then Recorded(s.state.stats, t.state.stats, item.ns, a(k).now, 0, a(k).stat)
                else t.state.stats == s.state.stats)
            && (if item.ns != "" && item.clusterURL != "" then Woke(s.state.unidled, t.state.unidled, item, start)
                else t.state.unidled == s.state.unidled)
            && t.state.resp.location == s.state.resp.location && t.state.resp.body == s.state.resp.body
            && (ending.Off? ==> t.cacheKey == key && t.ns == item.ns)
            && t.state.resp.status == (
                 if s.state.resp.status.Some? || ending.Off? || ending.Gone? then s.state.resp.status
                 else if ending.Broken? then Some(500)
                 else Some(if start.state.value.Idled? && start.unidle == Some(503) then 503 else 202))
            && (ending.Off? ==> !t.needsAuth) && (ending.Gone? ==> t.needsAuth == s.needsAuth)
  {
    IdledIsNotSession(cookies[k].name);
  }

  lemma SlowIsHit(cookies: seq<Cookie>, cache: SessionCache, k: nat, a: nat -> CookieAnswers)
    ensures SomeSlow(cookies, cache, 0, k, a) ==> SomeHit(cookies, cache, 0, k, a)
  {
    if SomeSlow(cookies, cache, 0, k, a) {
      var j: nat :| j < k && Slow(cookies, cache, j, a);
      assert LiveHit(cookies, cache, j, a);
    }
  }

  lemma {:induction false} FirstStop(cookies: seq<Cookie>, cache: SessionCache, i: nat, a: nat -> CookieAnswers) returns (k: nat)
    requires i <= |cookies|
    ensures i <= k <= |cookies|
    ensures forall j: nat :: i <= j < k ==> Passes(cookies, cache, j, a)
    ensures k < |cookies| ==> !Passes(cookies, cache, k, a)
    decreases |cookies| - i
  {
    k := i;
    if i < |cookies| && Passes(cookies, cache, i, a) {
      k := FirstStop(cookies, cache, i + 1, a);
    }
  }

  /** Any request without a token, whatever cookies it carries and the cache knows. Let k be the
      first position that does not pass. The request is forwarded exactly if k has a usable session
      of a running pod. The sessions cleared are those of idled cookies before k whose Jenkins
      answered, and the one at k if its pod does not run; only then, or on the loading page, is the
      visit recorded; only the pod at k is unidled. The status is 202 if an idled cookie before k
      met a Jenkins that does not answer, and else decided at k; the browser is sent to auth if
      nothing was known before k and nothing at k or a session whose pod does not run. */
  lemma AnyPlainRequest(site: Site, s: UIState, req: UIRequest, a: UIAnswers) returns (k: nat)
    requires s.resp.status.None? && a.redirectParses && req.tokenJSON.None?
    ensures k <= |req.cookies|
    ensures forall j: nat :: j < k ==> Passes(req.cookies, s.cache, j, a.cookie)
    ensures k < |req.cookies| ==> !Passes(req.cookies, s.cache, k, a.cookie)
    ensures var r := HandleUI(site, s, req, a);
            var cookies, cache := req.cookies, s.cache;
            var live := Live(cookies, cache, k, a.cookie);
            var slow := SomeSlow(cookies, cache, 0, k, a.cookie);
            var unseen := !SomeHit(cookies, cache, 0, k, a.cookie);
            var toAuth := unseen && (k == |cookies| || EndingAt(cookies, cache, k, a.cookie).Gone?);
            && r.state.resp.location == (if toAuth && a.authClient then Some(Auth(RedirectURL(site, req.path))) else s.resp.location)
            && r.state.resp.body == s.resp.body
            && if k == |cookies| then
              && r.target.None? && r.state.cache == live && r.state.stats == s.stats && r.state.unidled == s.unidled
              && r.state.resp.status == (if slow then Some(202) else if !toAuth then None else if a.authClient then Some(307) else Some(500))
            else
              var key, start := cookies[k].value, a.cookie(k).start;
              var item := cache[key];
              var ending := EndingAt(cookies, cache, k, a.cookie);
              && r.target == (if ending.Off? then Some(item) else None)
              && (ending.Off? ==> r.cacheKey == key && r.ns == item.ns)
              && r.state.cache == (if ending.Gone? then live - {key} else live)
              && (if ending.Gone? || ending.Loading? then Recorded(s.stats, r.state.stats, item.ns, a.cookie(k).now, 0, a.cookie(k).stat)
                  else r.state.stats == s.stats)
              && (if item.ns != "" && item.clusterURL != "" then Woke(s.unidled, r.state.unidled, item, start)
                  else r.state.unidled == s.unidled)
              && r.state.resp.status == (
                   if slow then Some(202)
                   else match ending
                        case Off => None
                        case Broken => Some(500)
                        case Gone => if !toAuth then None else if a.authClient then Some(307) else Some(500)
                        case Loading => Some(if start.state.value.Idled? && start.unidle == Some(503) then 503 else 202))
  {
    var cookies, cache := req.cookies, s.cache;
    assert ClearedBefore(cookies, cache, 0, a.cookie) == {};
    assert Live(cookies, cache, 0, a.cookie) == cache;
    k := FirstStop(cookies, cache, 0, a.cookie);
    var t := PassAll(cookies, cache, 0, k, StartScan(s), a.cookie);
    SlowIsHit(cookies, cache, k, a.cookie);
    if k < |cookies| {
      StopOne(cookies, cache, k, t, a.cookie);
    }
  }

  /** For any request at all: a forwarded one goes where its first ready session cookie, at position
      k, leads, and its response is untouched exactly when no idled cookie before that one found a
      Jenkins that does not answer yet. Otherwise 202 is already on its way to the client. */
  lemma ForwardedUntouchedIff(site: Site, s: UIState, req: UIRequest, a: UIAnswers) returns (k: nat)
    requires s.resp.status.None? && HandleUI(site, s, req, a).target.Some?
    ensures Ready(req.cookies, s.cache, k, a.cookie) && forall j: nat :: j < k ==> !Ready(req.cookies, s.cache, j, a.cookie)
    ensures var r := HandleUI(site, s, req, a);
            var key := req.cookies[k].value;
            && key in s.cache && r.target == Some(s.cache[key]) && r.cacheKey == key && r.ns == s.cache[key].ns
            && r.state.stats == s.stats && r.state.unidled == s.unidled && r.state.resp.body == s.resp.body
    ensures HandleUI(site, s, req, a).state.resp.status.None? <==>
              forall j: nat :: j < k ==> !Slow(req.cookies, s.cache, j, a.cookie)
  {
    k := AnyPlainRequest(site, s, req, a);
    forall j: nat | j < k ensures !Ready(req.cookies, s.cache, j, a.cookie) {
      assert Passes(req.cookies, s.cache, j, a.cookie);
      IdledIsNotSession(req.cookies[j].name);
    }
  }

  /** Nothing but an error. */
  predicate OnlyFails(s: UIState, r: UIResult) {
    && r.target.None? && r.state == s.(resp := s.resp.(status := Some(500)))
  }

  /** An address that does not parse, or a token that leads nowhere, changes nothing. */
  lemma OutcomeOfBadRequest(site: Site, s: UIState, req: UIRequest, a: UIAnswers)
    requires s.resp == EMPTY
    requires !a.redirectParses ||
             (req.tokenJSON.Some? &&
              (req.tokenJSON.value == [] || !a.token.openshiftToken
               || forall item :: !LeadsTo(site.clusters, a.authClient, a.token, item)))
    ensures OnlyFails(s, HandleUI(site, s, req, a))
  {
    TokenLeads(site.clusters, a.authClient, a.token);
    var item := ResolveToken(site.clusters, a.authClient, a.token);
    if item.Some? {
      assert LeadsTo(site.clusters, a.authClient, a.token, item.value);
    }
  }

  lemma FirstCookies(cookies: seq<SetCookie>)
    ensures WithCookies(EMPTY, cookies) == EMPTY.(cookies := cookies)
  {
  }

  lemma ParkOutcome(site: Site, s: UIState, req: UIRequest, info: CacheItem, uuid: string)
    requires s.resp == EMPTY
    ensures Park(site, s, req, info, uuid)
            == s.(cache := s.cache[uuid := info],
                  resp := Response(Some(302), ExpiringAll(req.cookies, IsSession) + [SetCookie("JenkinsIdled", uuid, false)],
                                   Some(Here(RedirectURL(site, req.path))), []))
  {
    FirstCookies(ExpiringAll(req.cookies, IsSession));
  }

  lemma LogInOutcome(site: Site, s: UIState, req: UIRequest, info: CacheItem, login: Login)
    requires s.resp == EMPTY && login.status == 200
    ensures var r := LogIn(site, s, req, info, login);
            && r.resp.cookies == ExpiringAll(req.cookies, IsSessionOrIdled) + login.cookies
            && r.stats == s.stats && r.unidled == s.unidled && r.resp.body == []
            && if forall c :: c in login.cookies ==> !IsSession(c.name) then
              && r.cache == s.cache && r.resp.status == Some(500) && r.resp.location.None?
            else
              && r.resp.status == Some(302) && r.resp.location == Some(Here(RedirectURL(site, req.path)))
              && exists i: nat :: IsLastSession(login.cookies, i) && r.cache == s.cache[login.cookies[i].value := info]
  {
    FirstCookies(ExpiringAll(req.cookies, IsSessionOrIdled));
    LastSessionMeaning(login.cookies);
  }

  /** A good token starts the pod of its session. If that fails, an error. If the pod does not run
      yet, the user is remembered under a fresh idled cookie. Else the answer of the login decides:
      only one with status 200 and a session cookie is remembered, under the last such cookie. */
  lemma OutcomeOfToken(site: Site, s: UIState, req: UIRequest, a: UIAnswers, item: CacheItem)
    requires s.resp == EMPTY && a.redirectParses && req.tokenJSON.Some? && req.tokenJSON.value != []
    requires LeadsTo(site.clusters, a.authClient, a.token, item) && a.token.openshiftToken
    ensures var r := HandleUI(site, s, req, a);
            var t, here := a.token, Some(Here(RedirectURL(site, req.path)));
            && r.target.None? && r.ns == item.ns && r.state.stats == s.stats && r.state.resp.body == []
            && Woke(s.unidled, r.state.unidled, item, t.start)
            && if !CanStart(t.start) || (t.start.state.value.Running? && t.login.None?) then
              && r.state.cache == s.cache && r.state.resp.cookies == []
              && r.state.resp.status == Some(500) && r.state.resp.location.None?
            else if !t.start.state.value.Running? then
              && r.state.cache == s.cache[t.uuid := item]
              && r.state.resp.cookies == ExpiringAll(req.cookies, IsSession) + [SetCookie("JenkinsIdled", t.uuid, false)]
              && r.state.resp.status == Some(302) && r.state.resp.location == here
            else if t.login.value.status != 200 then
              && r.state.cache == s.cache && r.state.resp.cookies == []
              && r.state.resp.status == Some(302) && r.state.resp.location == here
            else
              && r.state.resp.cookies == ExpiringAll(req.cookies, IsSessionOrIdled) + t.login.value.cookies
              && if forall c :: c in t.login.value.cookies ==> !IsSession(c.name) then
                && r.state.cache == s.cache && r.state.resp.status == Some(500) && r.state.resp.location.None?
              else
                && r.state.resp.status == Some(302) && r.state.resp.location == here
                && exists i: nat :: IsLastSession(t.login.value.cookies, i)
                                    && r.state.cache == s.cache[t.login.value.cookies[i].value := item]
  {
    TokenLeads(site.clusters, a.authClient, a.token);
    assert ResolveToken(site.clusters, a.authClient, a.token) == Some(item);
    var woken := Wake(s, item, a.token.start);
    ParkOutcome(site, woken, req, item, a.token.uuid);
    if a.token.login.Some? && a.token.login.value.status == 200 {
      LogInOutcome(site, woken, req, item, a.token.login.value);
    }
  }
}
