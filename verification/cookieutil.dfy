/** Session and idled cookies, and how the proxy expires and sets them. */
module CookieUtil {
  import opened Wrappers
  import opened Http

  const JENKINS_IDLED := "JenkinsIdled"
  const SESSION := "JSESSIONID"

  predicate IsSession(name: string) {
    SESSION <= name
  }

  predicate IsIdled(name: string) {
    name == JENKINS_IDLED
  }

  predicate IsSessionOrIdled(name: string) {
    IsSession(name) || IsIdled(name)
  }

  /** Names are told apart by a prefix and by the whole name. */
  lemma CookieKinds(name: string)
    ensures IsSession(name) <==> |name| >= 10 && name[..10] == "JSESSIONID"
    ensures IsIdled(name) <==> name == "JenkinsIdled"
    ensures IsSessionOrIdled(name) <==> name == "JenkinsIdled" || (|name| >= 10 && name[..10] == "JSESSIONID")
  {
    assert |SESSION| == 10;
  }

  lemma IdledIsNotSession(name: string)
    ensures !(IsIdled(name) && IsSession(name))
  {
    assert SESSION[1] != JENKINS_IDLED[1];
  }

  function Expired(c: Cookie): SetCookie {
    SetCookie(c.name, c.value, true)
  }

  /** The expiring cookies of those that match, in the request's order. */
  function ExpiringAll(cookies: seq<Cookie>, expire: string -> bool): seq<SetCookie> {
    if cookies == [] then []
    else
      var init := ExpiringAll(cookies[..|cookies| - 1], expire);
      var c := cookies[|cookies| - 1];
      if expire(c.name) then init + [Expired(c)] else init
  }

  function WithCookies(r: Response, cookies: seq<SetCookie>): Response {
    if r.status.None? then r.(cookies := r.cookies + cookies) else r
  }

  method ExpireCookie(w: ResponseWriter, c: Cookie)
    modifies w
    ensures w.sent == old(w.sent).AddCookie(Expired(c))
  {
    w.AddCookie(Expired(c));
  }

  method ExpireCookiesMatching(w: ResponseWriter, cookies: seq<Cookie>, expire: string -> bool)
    modifies w
    ensures w.sent == WithCookies(old(w.sent), ExpiringAll(cookies, expire))
  {
    for i := 0 to |cookies|
      invariant w.sent == WithCookies(old(w.sent), ExpiringAll(cookies[..i], expire))
    {
      assert cookies[..i + 1][..i] == cookies[..i];
      if expire(cookies[i].name) {
        ExpireCookie(w, cookies[i]);
      }
    }
    assert cookies[..|cookies|] == cookies;
  }

  function Filter(cookies: seq<Cookie>, keep: string -> bool): seq<Cookie> {
    if cookies == [] then []
    else
      var init := Filter(cookies[..|cookies| - 1], keep);
      var c := cookies[|cookies| - 1];
      if keep(c.name) then init + [c] else init
  }

  method FilterCookies(cookies: seq<Cookie>, keep: string -> bool) returns (filtered: seq<Cookie>)
    ensures filtered == Filter(cookies, keep)
  {
    filtered := [];
    for i := 0 to |cookies|
      invariant filtered == Filter(cookies[..i], keep)
    {
      assert cookies[..i + 1][..i] == cookies[..i];
      if keep(cookies[i].name) {
        filtered := filtered + [cookies[i]];
      }
    }
    assert cookies[..|cookies|] == cookies;
  }

  /** Filtering keeps exactly the cookies at the matching positions, in their order. */
  lemma {:induction false} FilterMeaning(cookies: seq<Cookie>, keep: string -> bool) returns (at: seq<nat>)
    ensures |Filter(cookies, keep)| == |at|
    ensures forall i :: 0 <= i < |at| ==> at[i] < |cookies| && Filter(cookies, keep)[i] == cookies[at[i]]
    ensures forall i, j :: 0 <= i < j < |at| ==> at[i] < at[j]
    ensures forall k: nat :: k in at <==> k < |cookies| && keep(cookies[k].name)
    ensures forall c :: c in Filter(cookies, keep) <==> c in cookies && keep(c.name)
  {
    at := [];
    if cookies != [] {
      var init, c := cookies[..|cookies| - 1], cookies[|cookies| - 1];
      assert cookies == init + [c];
      at := FilterMeaning(init, keep);
      if keep(c.name) {
        at := at + [|init|];
      }
    }
  }

  /** Exactly the matching cookies are expired, in their order. */
  lemma {:induction false} ExpiringMeaning(cookies: seq<Cookie>, expire: string -> bool)
    ensures |ExpiringAll(cookies, expire)| == |Filter(cookies, expire)|
    ensures forall i :: 0 <= i < |Filter(cookies, expire)| ==>
              ExpiringAll(cookies, expire)[i] == SetCookie(Filter(cookies, expire)[i].name, Filter(cookies, expire)[i].value, true)
    ensures forall s :: s in ExpiringAll(cookies, expire) <==>
                        exists c :: c in cookies && expire(c.name) && s == Expired(c)
  {
    if cookies != [] {
      var init, c := cookies[..|cookies| - 1], cookies[|cookies| - 1];
      assert cookies == init + [c];
      ExpiringMeaning(init, expire);
      assert forall d :: d in cookies <==> d in init || d == c;
    }
  }

  method SetIdledCookie(w: ResponseWriter, uuid: string)
    modifies w
    ensures w.sent == old(w.sent).AddCookie(SetCookie(JENKINS_IDLED, uuid, false))
  {
    w.AddCookie(SetCookie(JENKINS_IDLED, uuid, false));
  }

  /** The last session cookie among those that Jenkins sets. */
  function LastSession(cookies: seq<SetCookie>): Option<SetCookie> {
    if cookies == [] then None
    else if IsSession(cookies[|cookies| - 1].name) then Some(cookies[|cookies| - 1])
    else LastSession(cookies[..|cookies| - 1])
  }

  /** Position i has the last session cookie. */
  ghost predicate IsLastSession(cookies: seq<SetCookie>, i: nat) {
    && i < |cookies| && IsSession(cookies[i].name)
    && forall j :: i < j < |cookies| ==> !IsSession(cookies[j].name)
  }

  lemma {:induction false} LastSessionMeaning(cookies: seq<SetCookie>)
    ensures LastSession(cookies).None? <==> forall c :: c in cookies ==> !IsSession(c.name)
    ensures LastSession(cookies).Some? ==>
              exists i: nat :: IsLastSession(cookies, i) && LastSession(cookies).value == cookies[i]
  {
    if cookies != [] {
      var init, c := cookies[..|cookies| - 1], cookies[|cookies| - 1];
      assert cookies == init + [c];
      LastSessionMeaning(init);
      if IsSession(c.name) {
        assert IsLastSession(cookies, |init|);
      } else if LastSession(init).Some? {
        var i: nat :| IsLastSession(init, i) && LastSession(init).value == init[i];
        assert IsLastSession(cookies, i);
      }
    }
  }

  method SetJenkinsCookies(w: ResponseWriter, cookies: seq<SetCookie>) returns (session: Option<SetCookie>)
    modifies w
    ensures w.sent == WithCookies(old(w.sent), cookies)
    ensures session == LastSession(cookies)
  {
    session := None;
    for i := 0 to |cookies|
      invariant w.sent == WithCookies(old(w.sent), cookies[..i])
      invariant session == LastSession(cookies[..i])
    {
      assert cookies[..i + 1][..i] == cookies[..i];
      assert old(w.sent).cookies + cookies[..i + 1] == (old(w.sent).cookies + cookies[..i]) + [cookies[i]];
      w.AddCookie(cookies[i]);
      if IsSession(cookies[i].name) {
        session := Some(cookies[i]);
      }
    }
    assert cookies[..|cookies|] == cookies;
  }
}
