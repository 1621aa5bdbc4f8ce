/** A browser in front of the proxy: once Jenkins runs, a few requests lead to it. */
module LoginJourney {
  import opened Wrappers
  import opened Http
  import opened Jenkins
  import opened CookieUtil
  import opened UIRequests
  import opened UIOutcomes
  import opened UIRuns

  /** The browser's cookies, by name. */
  type Jar = map<string, string>

  /** The browser takes Set-Cookie headers in order; an expired one removes the cookie. */
  function Absorb(jar: Jar, cookies: seq<SetCookie>): Jar {
    if cookies == [] then jar
    else
      var c := cookies[|cookies| - 1];
      var rest := Absorb(jar, cookies[..|cookies| - 1]);
      if c.expired then rest - {c.name} else rest[c.name := c.value]
  }

  /** A Cookie header lists the jar, in any order. */
  ghost predicate Carries(cookies: seq<Cookie>, jar: Jar) {
    && (forall i, j :: 0 <= i < j < |cookies| ==> cookies[i].name != cookies[j].name)
    && (forall c :: c in cookies ==> c.name in jar && jar[c.name] == c.value)
    && (forall name :: name in jar ==> Cookie(name, jar[name]) in cookies)
  }

  /** What the browser asks for next: the page, or the page with the token that the auth service
      sent it back with. It is done when forwarded to Jenkins, and stuck on an error page. */
  datatype Stage = Plain | WithToken(token: string) | Arrived | Stuck

  datatype Journey = Journey(world: World, jar: Jar, stage: Stage)

  /** One request: the sessions and statistics it finds, which other requests may have changed
      meanwhile, the order of its cookies, the token the auth service would hand out after it, and
      the answers of the outside world. */
  datatype Hop = Hop(world: World, cookies: seq<Cookie>, token: string, a: UIAnswers)

  predicate Browsing(j: Journey) {
    j.stage.Plain? || j.stage.WithToken?
  }

  function RequestOf(j: Journey, path: string, h: Hop): UIRequest
    requires Browsing(j)
  {
    UIRequest(path, if j.stage.Plain? then None else Some([j.stage.token]), h.cookies)
  }

  /** Redirects are followed, through the auth service if need be; an empty 200 is reloaded, and
      the loading page (202 or 503) asks again. */
  function Follow(r: UIResult, token: string): Stage {
    if r.target.Some? then Arrived
    else if r.state.resp.status == Some(307) then WithToken(token)
    else if r.state.resp.status == Some(500) then Stuck
    else Plain
  }

  function Go(site: Site, path: string, j: Journey, h: Hop): Journey
    requires Browsing(j)
  {
    var r := Respond(site, j.world, RequestOf(j, path, h), h.a);
    Journey(World(r.state.cache, r.state.stats), Absorb(j.jar, r.state.resp.cookies), Follow(r, h.token))
  }

  /** The browser as its next request finds the world. */
  function Meanwhile(j: Journey, h: Hop): Journey {
    j.(world := h.world)
  }

  function Browse(site: Site, path: string, j: Journey, hops: seq<Hop>): Journey
    decreases |hops|
  {
    if hops == [] || !Browsing(j) then j
    else Browse(site, path, Go(site, path, Meanwhile(j, hops[0]), hops[0]), hops[1..])
  }

  /** Whatever cookie is looked at, Jenkins runs and its route answers. */
  ghost predicate AllUp(a: nat -> CookieAnswers) {
    forall i: nat :: a(i).start.state == Some(Running) && Answers(a(i).check)
  }

  /** Jenkins stays running and its route answers, the services work, and logging in yields a
      session cookie. Jenkins leaves the proxy's own cookie alone. */
  ghost predicate AllWell(site: Site, a: UIAnswers) {
    && a.redirectParses && a.authClient
    && AllUp(a.cookie)
    && ResolveToken(site.clusters, true, a.token).Some?
    && Usable(ResolveToken(site.clusters, true, a.token).value)
    && a.token.openshiftToken && a.token.start.state == Some(Running)
    && a.token.login.Some? && a.token.login.value.status == 200
    && var cookies := a.token.login.value.cookies;
       && LastSession(cookies).Some? && !LastSession(cookies).value.expired
       && forall c :: c in cookies ==> !IsIdled(c.name)
  }

  /** The session ids that Jenkins hands out are new. */
  ghost predicate FreshSessions(cache: SessionCache, a: UIAnswers)
    requires a.token.login.Some?
  {
    forall c :: c in a.token.login.value.cookies && IsSession(c.name) ==> c.value !in cache
  }

  /** Two caches say the same under the session and idled cookies of a browser. */
  ghost predicate Alike(jar: Jar, cache: SessionCache, cache': SessionCache) {
    forall name :: name in jar && IsSessionOrIdled(name) ==>
                     && (jar[name] in cache <==> jar[name] in cache')
                     && (jar[name] in cache ==> cache[jar[name]] == cache'[jar[name]])
  }

  /** Everything is well for a series of requests: between them anything may happen, but for the
      expiry and the overwriting of this browser's own sessions. */
  ghost predicate Fair(site: Site, path: string, j: Journey, hops: seq<Hop>)
    decreases |hops|
  {
    hops == [] || !Browsing(j) ||
    (&& Carries(hops[0].cookies, j.jar)
     && Alike(j.jar, j.world.cache, hops[0].world.cache)
     && AllWell(site, hops[0].a)
     && FreshSessions(hops[0].world.cache, hops[0].a)
     && Fair(site, path, Go(site, path, Meanwhile(j, hops[0]), hops[0]), hops[1..]))
  }

  /** No session or idled cookie of the browser leads to a session without namespace or cluster. */
  ghost predicate UsableJar(cache: SessionCache, jar: Jar) {
    forall name :: name in jar && IsSessionOrIdled(name) && jar[name] in cache ==> Usable(cache[jar[name]])
  }

  ghost predicate NoSessions(jar: Jar) {
    forall name :: name in jar ==> !IsSessionOrIdled(name)
  }

  lemma {:induction false} AbsorbAppend(jar: Jar, some: seq<SetCookie>, more: seq<SetCookie>)
    ensures Absorb(jar, some + more) == Absorb(Absorb(jar, some), more)
  {
    if more == [] {
      assert some + more == some;
    } else {
      assert (some + more)[..|some + more| - 1] == some + more[..|more| - 1];
      AbsorbAppend(jar, some, more[..|more| - 1]);
    }
  }

  lemma {:induction false} AbsorbExpired(jar: Jar, cookies: seq<SetCookie>)
    requires forall s :: s in cookies ==> s.expired
    ensures Absorb(jar, cookies) == jar - set s | s in cookies :: s.name
  {
    if cookies != [] {
      var init, c := cookies[..|cookies| - 1], cookies[|cookies| - 1];
      assert cookies == init + [c];
      AbsorbExpired(jar, init);
      assert (set s | s in cookies :: s.name) == (set s | s in init :: s.name) + {c.name};
    }
  }

  /** After a login the jar has the last session cookie, and every other session or idled cookie
      in it is one that Jenkins has just set. */
  lemma {:induction false} AbsorbLogin(jar: Jar, cookies: seq<SetCookie>)
    requires NoSessions(jar)
    ensures forall name :: name in Absorb(jar, cookies) && IsSessionOrIdled(name) ==>
              exists s :: s in cookies && s.name == name && s.value == Absorb(jar, cookies)[name]
    ensures LastSession(cookies).Some? && !LastSession(cookies).value.expired ==>
              var c := LastSession(cookies).value;
              c in cookies && IsSession(c.name) && c.name in Absorb(jar, cookies) && Absorb(jar, cookies)[c.name] == c.value
  {
    if cookies != [] {
      var init, c := cookies[..|cookies| - 1], cookies[|cookies| - 1];
      assert cookies == init + [c];
      AbsorbLogin(jar, init);
      forall name | name in Absorb(jar, cookies) && IsSessionOrIdled(name)
        ensures exists s :: s in cookies && s.name == name && s.value == Absorb(jar, cookies)[name]
      {
        if !c.expired && name == c.name {
          assert c in cookies;
        } else {
          var s :| s in init && s.name == name && s.value == Absorb(jar, init)[name];
          assert s in cookies;
        }
      }
    }
  }

  ghost predicate AllExpired(resp: Response) {
    forall s :: s in resp.cookies ==> s.expired
  }

  ghost predicate Covers(resp: Response, cookies: seq<Cookie>) {
    forall c :: c in cookies && IsSessionOrIdled(c.name) ==> Expired(c) in resp.cookies
  }

  lemma ExpireCovers(s: UIState, cookies: seq<Cookie>)
    requires s.resp.status.None? && AllExpired(s.resp)
    ensures var resp := Expire(s, cookies, IsSessionOrIdled).resp; AllExpired(resp) && Covers(resp, cookies)
  {
    ExpiringMeaning(cookies, IsSessionOrIdled);
  }

  ghost predicate UsableHits(cookies: seq<Cookie>, cache: SessionCache) {
    forall i: nat :: Hit(cookies, cache, i) ==> Usable(cache[cookies[i].value])
  }

  /** What the cookie loop keeps while everything is well: the response is open, and unless auth
      is needed every session and idled cookie has been expired. */
  ghost predicate GoesWell(cookies: seq<Cookie>, s: Scan) {
    && UsableHits(cookies, s.state.cache)
    && s.state.resp.status.None? && AllExpired(s.state.resp)
    && (!s.needsAuth ==> Covers(s.state.resp, cookies))
  }

  lemma OneAllWell(cookies: seq<Cookie>, i: nat, s: Scan, a: CookieAnswers)
    requires i < |cookies| && GoesWell(cookies, s)
    requires a.start.state == Some(Running) && Answers(a.check)
    ensures var (s', flow) := ScanOne(cookies, cookies[i], s, a);
            flow.Forward? || (flow.Next? && GoesWell(cookies, s'))
  {
    var (s', flow) := ScanOne(cookies, cookies[i], s, a);
    if Hit(cookies, s.state.cache, i) && IsIdled(cookies[i].name) {
      ExpireCovers(s.state, cookies);
    }
    assert forall k: nat :: Hit(cookies, s'.state.cache, k) ==> Hit(cookies, s.state.cache, k);
  }

  /** Then the cookie loop forwards or ends so. */
  lemma {:induction false} ScanAllWell(cookies: seq<Cookie>, i: nat, s: Scan, a: nat -> CookieAnswers)
    requires i <= |cookies| && AllUp(a) && GoesWell(cookies, s)
    ensures var (end, flow) := ScanFrom(cookies, i, s, a);
            flow.Forward? || (flow.Next? && GoesWell(cookies, end))
    decreases |cookies| - i
  {
    if i < |cookies| {
      OneAllWell(cookies, i, s, a(i));
      var (s', flow) := ScanOne(cookies, cookies[i], s, a(i));
      if flow.Next? {
        ScanAllWell(cookies, i + 1, s', a);
      }
    }
  }

  lemma OneSession(cookies: seq<Cookie>, i: nat, s: Scan, a: CookieAnswers)
    requires i < |cookies| && !IsIdled(cookies[i].name) && UsableHits(cookies, s.state.cache)
    requires a.start.state == Some(Running)
    ensures var (s', flow) := ScanOne(cookies, cookies[i], s, a);
            if Hit(cookies, s.state.cache, i) then flow.Forward? else flow.Next? && s'.state.cache == s.state.cache
  {
  }

  /** Without idled cookies, a known session cookie gets the request forwarded. */
  lemma {:induction false} ScanFindsSession(cookies: seq<Cookie>, i: nat, s: Scan, a: nat -> CookieAnswers, k: nat)
    requires i <= k && Hit(cookies, s.state.cache, k) && AllUp(a)
    requires forall c :: c in cookies ==> !IsIdled(c.name)
    requires UsableHits(cookies, s.state.cache)
    ensures ScanFrom(cookies, i, s, a).1.Forward?
    decreases |cookies| - i
  {
    assert cookies[i] in cookies;
    OneSession(cookies, i, s, a(i));
    if !Hit(cookies, s.state.cache, i) {
      ScanFindsSession(cookies, i + 1, ScanOne(cookies, cookies[i], s, a(i)).0, a, k);
    }
  }

  lemma CarriedHits(cookies: seq<Cookie>, cache: SessionCache, jar: Jar)
    requires Carries(cookies, jar) && UsableJar(cache, jar)
    ensures UsableHits(cookies, cache)
  {
    forall i: nat | Hit(cookies, cache, i) ensures Usable(cache[cookies[i].value]) {
      assert cookies[i] in cookies;
    }
  }

  lemma CoveredJar(cookies: seq<Cookie>, jar: Jar, resp: Response)
    requires Carries(cookies, jar) && AllExpired(resp) && Covers(resp, cookies)
    ensures NoSessions(Absorb(jar, resp.cookies))
  {
    AbsorbExpired(jar, resp.cookies);
    forall name | name in jar && IsSessionOrIdled(name) ensures name !in Absorb(jar, resp.cookies) {
      assert Expired(Cookie(name, jar[name])) in resp.cookies;
    }
  }

  /** A plain request arrives, or reloads with all session and idled cookies gone, or is sent to auth. */
  lemma PlainHop(site: Site, path: string, j: Journey, h: Hop)
    requires j.stage.Plain? && Carries(h.cookies, j.jar) && AllWell(site, h.a) && UsableJar(j.world.cache, j.jar)
    ensures var j' := Go(site, path, j, h);
            j'.stage.Arrived? || j'.stage.WithToken? || (j'.stage.Plain? && NoSessions(j'.jar))
    ensures NoSessions(j.jar) ==> Go(site, path, j, h).stage.WithToken?
  {
    var s := UIState(j.world.cache, j.world.stats, EMPTY, []);
    CarriedHits(h.cookies, j.world.cache, j.jar);
    ScanAllWell(h.cookies, 0, StartScan(s), h.a.cookie);
    var (end, flow) := ScanFrom(h.cookies, 0, StartScan(s), h.a.cookie);
    if flow.Next? && !end.needsAuth {
      CoveredJar(h.cookies, j.jar, end.state.resp);
    }
    if NoSessions(j.jar) {
      forall k: nat | k < |h.cookies| ensures !Hit(h.cookies, j.world.cache, k) {
        assert h.cookies[k] in h.cookies;
      }
      OutcomeWithoutHit(site, s, RequestOf(j, path, h), h.a);
    }
  }

  /** The browser holds a known, usable session, no idled cookie, and no unusable session. */
  ghost predicate LoggedIn(j: Journey) {
    && (exists name :: name in j.jar && IsSession(name) && j.jar[name] in j.world.cache)
    && (forall name :: name in j.jar ==> !IsIdled(name))
    && UsableJar(j.world.cache, j.jar)
  }

  lemma TokenHop(site: Site, path: string, j: Journey, h: Hop)
    requires j.stage.WithToken? && Carries(h.cookies, j.jar)
    requires AllWell(site, h.a) && FreshSessions(j.world.cache, h.a)
    ensures Go(site, path, j, h).stage.Plain? && LoggedIn(Go(site, path, j, h))
  {
    var login := h.a.token.login.value.cookies;
    var c := LastSession(login).value;
    var s := UIState(j.world.cache, j.world.stats, EMPTY, []);
    ExpireCovers(s, h.cookies);
    var cleared := Expire(s, h.cookies, IsSessionOrIdled).resp;
    CoveredJar(h.cookies, j.jar, cleared);
    var jar := Absorb(j.jar, cleared.cookies);
    AbsorbAppend(j.jar, cleared.cookies, login);
    AbsorbLogin(jar, login);
    var j' := Go(site, path, j, h);
    assert j'.jar == Absorb(jar, login);
    assert j'.world.cache == j.world.cache[c.value := ResolveToken(site.clusters, true, h.a.token).value];
    assert c.name in j'.jar && IsSession(c.name) && j'.jar[c.name] in j'.world.cache;
    forall name | name in j'.jar && IsSessionOrIdled(name) ensures !IsIdled(name) {
      var sc :| sc in login && sc.name == name && sc.value == j'.jar[name];
      assert !IsIdled(sc.name);
    }
    forall name | name in j'.jar && IsSessionOrIdled(name) && j'.jar[name] in j'.world.cache
      ensures Usable(j'.world.cache[j'.jar[name]])
    {
      var sc :| sc in login && sc.name == name && sc.value == j'.jar[name];
      assert IsSession(sc.name);
    }
  }

  lemma LoggedInHop(site: Site, path: string, j: Journey, h: Hop)
    requires j.stage.Plain? && LoggedIn(j) && Carries(h.cookies, j.jar) && AllWell(site, h.a)
    ensures Go(site, path, j, h).stage.Arrived?
  {
    var name :| name in j.jar && IsSession(name) && j.jar[name] in j.world.cache;
    var k :| 0 <= k < |h.cookies| && h.cookies[k] == Cookie(name, j.jar[name]);
    CarriedHits(h.cookies, j.world.cache, j.jar);
    ScanFindsSession(h.cookies, 0, StartScan(UIState(j.world.cache, j.world.stats, EMPTY, [])), h.a.cookie, k);
  }

  /** What is known of a browser survives whatever leaves its sessions alone. */
  lemma StillThere(j: Journey, h: Hop)
    requires Alike(j.jar, j.world.cache, h.world.cache)
    ensures UsableJar(j.world.cache, j.jar) ==> UsableJar(h.world.cache, j.jar)
    ensures LoggedIn(j) ==> LoggedIn(Meanwhile(j, h))
    ensures OnlyIdledKnown(j) ==> OnlyIdledKnown(Meanwhile(j, h))
    ensures Parked(j) ==> Parked(Meanwhile(j, h))
  {
    if LoggedIn(j) {
      var name :| name in j.jar && IsSession(name) && j.jar[name] in j.world.cache;
      assert j.jar[name] in h.world.cache;
    }
  }

  lemma FromLoggedIn(site: Site, path: string, j: Journey, hops: seq<Hop>)
    requires j.stage.Plain? && LoggedIn(j) && Fair(site, path, j, hops) && |hops| >= 1
    ensures Browse(site, path, j, hops).stage.Arrived?
  {
    StillThere(j, hops[0]);
    LoggedInHop(site, path, Meanwhile(j, hops[0]), hops[0]);
  }

  lemma FromToken(site: Site, path: string, j: Journey, hops: seq<Hop>)
    requires j.stage.WithToken? && Fair(site, path, j, hops) && |hops| >= 2
    ensures Browse(site, path, j, hops).stage.Arrived?
  {
    TokenHop(site, path, Meanwhile(j, hops[0]), hops[0]);
    FromLoggedIn(site, path, Go(site, path, Meanwhile(j, hops[0]), hops[0]), hops[1..]);
  }

  lemma FromCleared(site: Site, path: string, j: Journey, hops: seq<Hop>)
    requires j.stage.Plain? && NoSessions(j.jar) && Fair(site, path, j, hops) && |hops| >= 3
    ensures Browse(site, path, j, hops).stage.Arrived?
  {
    PlainHop(site, path, Meanwhile(j, hops[0]), hops[0]);
    FromToken(site, path, Go(site, path, Meanwhile(j, hops[0]), hops[0]), hops[1..]);
  }

  /** Four requests are enough, whatever other browsers do between them. */
  lemma ArrivesWithinFour(site: Site, path: string, j: Journey, hops: seq<Hop>)
    requires Browsing(j) && UsableJar(j.world.cache, j.jar) && Fair(site, path, j, hops) && |hops| >= 4
    ensures Browse(site, path, j, hops).stage.Arrived?
  {
    if j.stage.WithToken? {
      FromToken(site, path, j, hops);
    } else {
      StillThere(j, hops[0]);
      PlainHop(site, path, Meanwhile(j, hops[0]), hops[0]);
      var j1 := Go(site, path, Meanwhile(j, hops[0]), hops[0]);
      if j1.stage.WithToken? {
        FromToken(site, path, j1, hops[1..]);
      } else if j1.stage.Plain? {
        FromCleared(site, path, j1, hops[1..]);
      }
    }
  }

  ghost predicate OnlyIdledKnown(j: Journey) {
    && JENKINS_IDLED in j.jar && j.jar[JENKINS_IDLED] in j.world.cache
    && forall name :: name in j.jar && IsSession(name) ==> j.jar[name] !in j.world.cache
  }

  /** Such a browser's first request only clears its cookies. */
  lemma IdledHop(site: Site, path: string, j: Journey, h: Hop)
    requires j.stage.Plain? && OnlyIdledKnown(j)
    requires UsableJar(j.world.cache, j.jar) && Carries(h.cookies, j.jar) && AllWell(site, h.a)
    ensures Go(site, path, j, h).stage.Plain? && NoSessions(Go(site, path, j, h).jar)
  {
    var s := UIState(j.world.cache, j.world.stats, EMPTY, []);
    var k :| 0 <= k < |h.cookies| && h.cookies[k] == Cookie(JENKINS_IDLED, j.jar[JENKINS_IDLED]);
    forall i: nat | i < |h.cookies| && i != k ensures !Hit(h.cookies, s.cache, i) {
      assert h.cookies[i] in h.cookies && h.cookies[i].name != h.cookies[k].name;
    }
    CarriedHits(h.cookies, s.cache, j.jar);
    OutcomeOfIdledHit(site, s, RequestOf(j, path, h), h.a, k);
    PlainHop(site, path, j, h);
  }

  /** Three are not, for a browser with a known idled cookie and no known session cookie. */
  lemma ThreeAreTooFew(site: Site, path: string, j: Journey, hops: seq<Hop>)
    requires j.stage.Plain? && OnlyIdledKnown(j)
    requires UsableJar(j.world.cache, j.jar) && Fair(site, path, j, hops) && |hops| == 3
    ensures Browse(site, path, j, hops).stage.Plain?
  {
    StillThere(j, hops[0]);
    IdledHop(site, path, Meanwhile(j, hops[0]), hops[0]);
    ClearedTakesTwo(site, path, Go(site, path, Meanwhile(j, hops[0]), hops[0]), hops[1..]);
  }

  lemma ClearedTakesTwo(site: Site, path: string, j: Journey, hops: seq<Hop>)
    requires j.stage.Plain? && NoSessions(j.jar) && Fair(site, path, j, hops) && |hops| == 2
    ensures Browse(site, path, j, hops).stage.Plain?
  {
    PlainHop(site, path, Meanwhile(j, hops[0]), hops[0]);
    var j1 := Go(site, path, Meanwhile(j, hops[0]), hops[0]);
    var rest := hops[1..];
    assert Fair(site, path, j1, rest);
    TokenHop(site, path, Meanwhile(j1, rest[0]), rest[0]);
    assert rest[1..] == [];
    assert Browse(site, path, j1, rest) == Go(site, path, Meanwhile(j1, rest[0]), rest[0]);
  }

  /** The browser carries a known, usable idled cookie and no session cookie. */
  ghost predicate Parked(j: Journey) {
    && JENKINS_IDLED in j.jar && j.jar[JENKINS_IDLED] in j.world.cache
    && Usable(j.world.cache[j.jar[JENKINS_IDLED]])
    && forall name :: name in j.jar ==> !IsSession(name)
  }

  /** The pod can be started but does not run yet, and the rest works. */
  ghost predicate NotUpYet(site: Site, a: UIAnswers) {
    && a.redirectParses && a.authClient
    && (forall i: nat :: Starts(a.cookie(i).start) && !a.cookie(i).start.state.value.Running?)
    && ResolveToken(site.clusters, true, a.token).Some?
    && Usable(ResolveToken(site.clusters, true, a.token).value)
    && a.token.openshiftToken && Starts(a.token.start) && !a.token.start.state.value.Running?
  }

  lemma ParkingHop(site: Site, path: string, j: Journey, h: Hop)
    requires j.stage.WithToken? && Carries(h.cookies, j.jar) && NotUpYet(site, h.a)
    ensures Go(site, path, j, h).stage.Plain? && Parked(Go(site, path, j, h))
  {
    var s := UIState(j.world.cache, j.world.stats, EMPTY, []);
    TokenLeads(site.clusters, true, h.a.token);
    OutcomeOfToken(site, s, RequestOf(j, path, h), h.a, ResolveToken(site.clusters, true, h.a.token).value);
    var gone := ExpiringAll(h.cookies, IsSession);
    var idled := SetCookie(JENKINS_IDLED, h.a.token.uuid, false);
    ExpiringMeaning(h.cookies, IsSession);
    AbsorbExpired(j.jar, gone);
    assert (gone + [idled])[..|gone|] == gone;
    NoneLeft(j.jar, h.cookies, gone);
    IdledIsNotSession(JENKINS_IDLED);
    assert Go(site, path, j, h).jar == Absorb(j.jar, gone)[JENKINS_IDLED := h.a.token.uuid];
  }

  lemma NoneLeft(jar: Jar, cookies: seq<Cookie>, gone: seq<SetCookie>)
    requires Carries(cookies, jar) && gone == ExpiringAll(cookies, IsSession)
    ensures forall name :: name in Absorb(jar, gone) ==> !IsSession(name)
  {
    ExpiringMeaning(cookies, IsSession);
    AbsorbExpired(jar, gone);
    forall name | name in jar && IsSession(name) ensures name !in Absorb(jar, gone) {
      assert Cookie(name, jar[name]) in cookies;
      assert Expired(Cookie(name, jar[name])) in gone;
    }
  }

  lemma WaitingHop(site: Site, path: string, j: Journey, h: Hop)
    requires j.stage.Plain? && Parked(j) && Carries(h.cookies, j.jar) && NotUpYet(site, h.a)
    ensures var j' := Go(site, path, j, h);
            j'.stage.Plain? && j'.jar == j.jar && j'.world.cache == j.world.cache
  {
    var s := UIState(j.world.cache, j.world.stats, EMPTY, []);
    var k :| 0 <= k < |h.cookies| && h.cookies[k] == Cookie(JENKINS_IDLED, j.jar[JENKINS_IDLED]);
    forall i: nat | i < |h.cookies| && i != k ensures !IsSessionOrIdled(h.cookies[i].name) {
      assert h.cookies[i] in h.cookies && h.cookies[i].name != h.cookies[k].name;
    }
    OutcomeOfIdledHit(site, s, RequestOf(j, path, h), h.a, k);
    var cookies := Respond(site, j.world, RequestOf(j, path, h), h.a).state.resp.cookies;
    EmptyOrMember(cookies);
  }

  /** While the pod is not up, each request of a parked browser shows the loading page and
      changes nothing of its own. */
  lemma {:induction false} Waiting(site: Site, path: string, j: Journey, hops: seq<Hop>)
    requires j.stage.Plain? && Parked(j)
    requires forall h :: h in hops ==>
                           Carries(h.cookies, j.jar) && Alike(j.jar, j.world.cache, h.world.cache) && NotUpYet(site, h.a)
    ensures var j' := Browse(site, path, j, hops);
            j'.stage.Plain? && j'.jar == j.jar && Alike(j.jar, j.world.cache, j'.world.cache)
    decreases |hops|
  {
    if hops != [] {
      StillThere(j, hops[0]);
      WaitingHop(site, path, Meanwhile(j, hops[0]), hops[0]);
      Waiting(site, path, Go(site, path, Meanwhile(j, hops[0]), hops[0]), hops[1..]);
    }
  }

  /** A cold start: a user who comes with a token while Jenkins is down is kept on the loading
      page for as long as it takes, and arrives within four requests once Jenkins is up. */
  lemma ColdStart(site: Site, path: string, j: Journey, first: Hop, waiting: seq<Hop>, hops: seq<Hop>)
    requires j.stage.WithToken? && first.world == j.world && Carries(first.cookies, j.jar) && NotUpYet(site, first.a)
    requires var parked := Go(site, path, j, first);
             forall h :: h in waiting ==>
                           && Carries(h.cookies, parked.jar)
                           && Alike(parked.jar, parked.world.cache, h.world.cache) && NotUpYet(site, h.a)
    requires Fair(site, path, Browse(site, path, Go(site, path, j, first), waiting), hops) && |hops| >= 4
    ensures Browse(site, path, Browse(site, path, Go(site, path, j, first), waiting), hops).stage.Arrived?
  {
    ParkingHop(site, path, j, first);
    var parked := Go(site, path, j, first);
    Waiting(site, path, parked, waiting);
    ArrivesWithinFour(site, path, Browse(site, path, parked, waiting), hops);
  }

  /** From any reachable session cache and any cookie jar the browser arrives within four requests,
      unless one of its cookies leads to a session without namespace or cluster that some token
      request, event k, stored. */
  lemma BoundedLogin(site: Site, path: string, events: seq<Event>, jar: Jar, stage: Stage, hops: seq<Hop>)
    returns (name: string, k: nat)
    requires stage.Plain? || stage.WithToken?
    requires Fair(site, path, Journey(After(site, events), jar, stage), hops) && |hops| >= 4
    ensures || Browse(site, path, Journey(After(site, events), jar, stage), hops).stage.Arrived?
            || (&& name in jar && IsSessionOrIdled(name) && jar[name] in After(site, events).cache
                && var item := After(site, events).cache[jar[name]];
                   !Usable(item) && StoredAt(site, events, k, jar[name], item))
  {
    var cache := After(site, events).cache;
    name, k := "", 0;
    if UsableJar(cache, jar) {
      ArrivesWithinFour(site, path, Journey(After(site, events), jar, stage), hops);
    } else {
      name :| name in jar && IsSessionOrIdled(name) && jar[name] in cache && !Usable(cache[jar[name]]);
      k := LastStore(site, events, jar[name], cache[jar[name]]);
    }
  }

  /** The jar's cookies in some order that starts with a given one. */
  lemma {:induction false} CarriedFirst(jar: Jar, first: string) returns (cookies: seq<Cookie>)
    requires first in jar
    ensures Carries(cookies, jar) && cookies[0] == Cookie(first, jar[first])
    decreases |jar|
  {
    var rest := jar - {first};
    assert forall name :: name in jar ==> name == first || name in rest;
    cookies := [Cookie(first, jar[first])];
    if rest != map[] {
      var next :| next in rest;
      var others := CarriedFirst(rest, next);
      cookies := cookies + others;
      assert forall c :: c in others ==> c.name in rest;
    }
  }

  /** The browser is sure to arrive within four requests, whatever order it sends its cookies in,
      exactly when none of them leads to a session without namespace or cluster: a request fails
      when its cookie loop reaches such a session. */
  lemma LoginBoundedIff(site: Site, path: string, w: World, jar: Jar, a: UIAnswers)
    requires AllWell(site, a) && FreshSessions(w.cache, a)
    ensures (forall hops :: |hops| == 4 && Fair(site, path, Journey(w, jar, Plain), hops) ==>
                              Browse(site, path, Journey(w, jar, Plain), hops).stage.Arrived?)
            <==> UsableJar(w.cache, jar)
  {
    var j := Journey(w, jar, Plain);
    if UsableJar(w.cache, jar) {
      forall hops | |hops| == 4 && Fair(site, path, j, hops) ensures Browse(site, path, j, hops).stage.Arrived? {
        ArrivesWithinFour(site, path, j, hops);
      }
    } else {
      var hops := StuckHops(site, path, w, jar, a);
    }
  }

  /** The browser sends the cookie of the unusable session first. */
  lemma StuckHops(site: Site, path: string, w: World, jar: Jar, a: UIAnswers) returns (hops: seq<Hop>)
    requires AllWell(site, a) && FreshSessions(w.cache, a) && !UsableJar(w.cache, jar)
    ensures var j := Journey(w, jar, Plain);
            |hops| == 4 && Fair(site, path, j, hops) && Browse(site, path, j, hops).stage.Stuck?
  {
    var name :| name in jar && IsSessionOrIdled(name) && jar[name] in w.cache && !Usable(w.cache[jar[name]]);
    var cookies := CarriedFirst(jar, name);
    var h := Hop(w, cookies, "", a);
    hops := [h, h, h, h];
    UnusableHit(site, path, Journey(w, jar, Plain), h);
  }

  lemma UnusableHit(site: Site, path: string, j: Journey, h: Hop)
    requires j.stage.Plain? && h.cookies != [] && h.a.redirectParses
    requires Hit(h.cookies, j.world.cache, 0) && !Usable(j.world.cache[h.cookies[0].value])
    ensures Go(site, path, j, h) == j.(stage := Stuck)
  {
  }

  /** A user whose Jenkins namespace has an empty name comes while Jenkins is idled. */
  function NamelessLogin(): Event {
    Serve(UIRequest("/", Some(["token"]), []), AnswersWith("", Idled, 200, "u", "s"))
  }

  /** That is enough to get the browser stuck although everything is well from then on. */
  lemma LoginCanGetStuck() returns (jar: Jar, hops: seq<Hop>)
    ensures var j := Journey(After(SOME_SITE, [NamelessLogin()]), jar, Plain);
            Fair(SOME_SITE, "/", j, hops) && |hops| == 4 && Browse(SOME_SITE, "/", j, hops).stage.Stuck?
  {
    var e := NamelessLogin();
    var w := After(SOME_SITE, [e]);
    var item := ResolveToken(SOME_SITE.clusters, true, e.a.token).value;
    assert [] + [e] == [e];
    AfterSnoc(SOME_SITE, [], e);
    TokenLeads(SOME_SITE.clusters, true, e.a.token);
    StoringEvent(SOME_SITE, FRESH, e, "u", item);
    jar := map[JENKINS_IDLED := "u"];
    assert jar[JENKINS_IDLED] in w.cache && !Usable(w.cache[jar[JENKINS_IDLED]]);
    WellAnswers("v", "s");
    hops := StuckHops(SOME_SITE, "/", w, jar, AnswersWith("ns-jenkins", Running, 200, "v", "s"));
  }

  lemma WellAnswers(uuid: string, session: string)
    ensures AllWell(SOME_SITE, AnswersWith("ns-jenkins", Running, 200, uuid, session))
  {
    var login := [SetCookie(SESSION, session, false)];
    IdledIsNotSession(SESSION);
    assert LastSession(login) == Some(login[0]);
  }
}
