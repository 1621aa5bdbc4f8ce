/** The response recorder that stands between Jenkins and the client. */
module ReverseProxy {
  import opened Wrappers
  import opened Http

  /** What httputil's reverse proxy does with the writer it is given. */
  datatype Call = Header(code: int) | Body(stuff: Bytes) | SetsCookie(cookie: SetCookie)

  /** Gateway errors and a forbidden answer do not reach the client. */
  predicate Blocked(code: int) {
    code == 502 || code == 504 || code == 503 || code == 403
  }

  /** The recorder and the response behind it. */
  datatype Recording = Recording(inner: Response, statusCode: int, err: bool, wroteHeader: bool)

  function Begin(inner: Response): Recording {
    Recording(inner, 200, false, false)
  }

  function Step(r: Recording, call: Call): Recording {
    match call
    case Header(code) =>
      if r.wroteHeader then r
      else Recording(if Blocked(code) then r.inner else r.inner.WriteHeader(code), code, r.err || Blocked(code), true)
    case Body(stuff) => if r.err then r else r.(inner := r.inner.Write(stuff))
    case SetsCookie(c) => r.(inner := r.inner.AddCookie(c))
  }

  function Play(r: Recording, calls: seq<Call>): Recording
    decreases |calls|
  {
    if calls == [] then r else Play(Step(r, calls[0]), calls[1..])
  }

  class ResponseRecorder {
    const inner: ResponseWriter
    var statusCode: int
    var err: bool
    var wroteHeader: bool

    function View(): Recording
      reads this, inner
    {
      Recording(inner.sent, statusCode, err, wroteHeader)
    }

    constructor (inner: ResponseWriter)
      ensures this.inner == inner && View() == Begin(inner.sent)
    {
      this.inner := inner;
      statusCode, err, wroteHeader := 200, false, false;
    }

    method WriteHeader(code: int)
      modifies this, inner
      ensures View() == Step(old(View()), Header(code))
    {
      if wroteHeader {
        return;
      }
      statusCode := code;
      wroteHeader := true;
      if code == 502 || code == 504 || code == 503 {
        err := true;
        return;
      }
      if code == 403 {
        err := true;
        return;
      }
      inner.WriteHeader(code);
    }

    method Write(stuff: Bytes)
      modifies inner
      ensures View() == Step(old(View()), Body(stuff))
    {
      if !err {
        inner.Write(stuff);
      }
    }

    /** The header map is the client's own: the recorder does not hold cookies back. */
    method AddCookie(c: SetCookie)
      modifies inner
      ensures View() == Step(old(View()), SetsCookie(c))
    {
      inner.AddCookie(c);
    }
  }

  /** The upstream's answer, played into a fresh recorder over w. */
  method Forward(w: ResponseWriter, calls: seq<Call>) returns (err: bool, statusCode: int)
    modifies w
    ensures var r := Play(Begin(old(w.sent)), calls);
            w.sent == r.inner && err == r.err && statusCode == r.statusCode
  {
    var rr := new ResponseRecorder(w);
    var i := 0;
    while i < |calls|
      invariant 0 <= i <= |calls|
      invariant rr.inner == w && fresh(rr)
      invariant Play(Begin(old(w.sent)), calls) == Play(rr.View(), calls[i..])
      decreases |calls| - i
    {
      match calls[i] {
        case Header(code) => rr.WriteHeader(code);
        case Body(stuff) => rr.Write(stuff);
        case SetsCookie(c) => rr.AddCookie(c);
      }
      assert calls[i..][1..] == calls[i + 1..];
      i := i + 1;
    }
    return rr.err, rr.statusCode;
  }

  function Written(calls: seq<Call>): Bytes {
    if calls == [] then []
    else (if calls[0].Body? then calls[0].stuff else []) + Written(calls[1..])
  }

  /** The cookies the upstream sets. */
  function CookiesOf(calls: seq<Call>): seq<SetCookie> {
    if calls == [] then []
    else (if calls[0].SetsCookie? then [calls[0].cookie] else []) + CookiesOf(calls[1..])
  }

  /** k is the position of the first status, or the end when there is none. */
  ghost predicate IsFirstHeader(calls: seq<Call>, k: nat) {
    && k <= |calls|
    && (k < |calls| ==> calls[k].Header?)
    && forall j :: 0 <= j < k ==> !calls[j].Header?
  }

  predicate BlockedAt(calls: seq<Call>, k: nat) {
    k < |calls| && calls[k].Header? && Blocked(calls[k].code)
  }

  /** The upstream's first status is at position k, and before it at most cookies are set. */
  ghost predicate StatusFirst(calls: seq<Call>, k: nat) {
    && k < |calls| && IsFirstHeader(calls, k)
    && forall j :: 0 <= j < k ==> !calls[j].Body?
  }

  /** The bytes of one call. */
  function BytesOf(call: Call): Bytes {
    if call.Body? then call.stuff else []
  }

  lemma StepBody(r: Recording, call: Call)
    requires r.wroteHeader || !call.Header?
    ensures var s := Step(r, call);
            && s.err == r.err && s.statusCode == r.statusCode && s.wroteHeader == r.wroteHeader
            && s.inner.body == r.inner.body + (if r.err then [] else BytesOf(call))
            && (r.err || r.inner.status.Some? ==> s.inner.status == r.inner.status)
  {
  }

  lemma WrittenFirst(calls: seq<Call>, body: Bytes)
    requires calls != []
    ensures body + Written(calls) == (body + BytesOf(calls[0])) + Written(calls[1..])
  {
    assert Written(calls) == BytesOf(calls[0]) + Written(calls[1..]);
  }

  lemma {:induction false} PlayHeaded(r: Recording, calls: seq<Call>)
    requires r.wroteHeader
    ensures var p := Play(r, calls);
            && p.err == r.err && p.statusCode == r.statusCode
            && p.inner.body == r.inner.body + (if r.err then [] else Written(calls))
            && (r.err || r.inner.status.Some? ==> p.inner.status == r.inner.status)
    decreases |calls|
  {
    if calls == [] {
      assert r.inner.body + [] == r.inner.body;
    } else {
      StepBody(r, calls[0]);
      WrittenFirst(calls, r.inner.body);
      assert r.inner.body + [] == r.inner.body;
      PlayHeaded(Step(r, calls[0]), calls[1..]);
    }
  }

  lemma {:induction false} PlayFrom(r: Recording, calls: seq<Call>, k: nat)
    requires !r.wroteHeader && !r.err && IsFirstHeader(calls, k)
    ensures var p := Play(r, calls);
            && (p.err <==> BlockedAt(calls, k))
            && p.inner.body == r.inner.body + Written(if p.err then calls[..k] else calls)
    decreases k
  {
    if calls == [] {
      assert r.inner.body + [] == r.inner.body;
    } else if k == 0 {
      FromHeader(r, calls);
    } else {
      StepBody(r, calls[0]);
      PlayFrom(Step(r, calls[0]), calls[1..], k - 1);
      WrittenFirst(calls, r.inner.body);
      WrittenFirst(calls[..k], r.inner.body);
      assert calls[..k][1..] == calls[1..][..k - 1];
    }
  }

  lemma FromHeader(r: Recording, calls: seq<Call>)
    requires !r.wroteHeader && !r.err && calls != [] && calls[0].Header?
    ensures var p := Play(r, calls);
            && p.err == Blocked(calls[0].code)
            && p.inner.body == r.inner.body + Written(if p.err then calls[..0] else calls)
  {
    var s := Step(r, calls[0]);
    PlayHeaded(s, calls[1..]);
    WrittenFirst(calls, r.inner.body);
    assert s.inner.body == r.inner.body;
    assert calls[..0] == [];
    assert r.inner.body + [] == r.inner.body;
  }

  lemma CookiesFirst(calls: seq<Call>, cookies: seq<SetCookie>)
    requires calls != []
    ensures cookies + CookiesOf(calls)
            == (if calls[0].SetsCookie? then cookies + [calls[0].cookie] else cookies) + CookiesOf(calls[1..])
  {
  }

  /** After the first status: cookies still get through if it was blocked, and are lost if it was sent. */
  lemma {:induction false} CookiesHeaded(r: Recording, calls: seq<Call>)
    requires r.wroteHeader && (r.err <==> r.inner.status.None?)
    ensures Play(r, calls).inner.cookies == r.inner.cookies + (if r.err then CookiesOf(calls) else [])
    decreases |calls|
  {
    if calls == [] {
      assert r.inner.cookies + [] == r.inner.cookies;
    } else {
      CookiesFirst(calls, r.inner.cookies);
      CookiesHeaded(Step(r, calls[0]), calls[1..]);
    }
  }

  /** Nothing but headers in the first k calls. */
  ghost predicate OnlyCookies(calls: seq<Call>, k: nat) {
    k <= |calls| && forall j :: 0 <= j < k ==> calls[j].SetsCookie?
  }

  function WithMore(r: Recording, cookies: seq<SetCookie>): Recording {
    r.(inner := r.inner.(cookies := r.inner.cookies + cookies))
  }

  lemma {:induction false} PlayCookies(r: Recording, calls: seq<Call>, k: nat)
    requires r.inner.status.None? && OnlyCookies(calls, k)
    ensures Play(r, calls) == Play(WithMore(r, CookiesOf(calls[..k])), calls[k..])
    decreases k
  {
    if k == 0 {
      assert calls[..0] == [] && calls[0..] == calls;
      assert r.inner.cookies + [] == r.inner.cookies;
    } else {
      var first, rest := Step(r, calls[0]), calls[1..];
      PlayCookies(first, rest, k - 1);
      CookiesFirst(calls[..k], r.inner.cookies);
      assert calls[..k][1..] == rest[..k - 1] && rest[k - 1..] == calls[k..];
      assert WithMore(first, CookiesOf(rest[..k - 1])) == WithMore(r, CookiesOf(calls[..k]));
    }
  }

  lemma CookieSkips(calls: seq<Call>)
    requires calls != [] && calls[0].SetsCookie?
    ensures CookiesOf(calls) == [calls[0].cookie] + CookiesOf(calls[1..]) && Written(calls) == Written(calls[1..])
  {
  }

  lemma Assoc(a: seq<SetCookie>, b: seq<SetCookie>, c: seq<SetCookie>)
    ensures a + (b + c) == (a + b) + c
  {
  }

  lemma {:induction false} SplitCookies(calls: seq<Call>, k: nat)
    requires OnlyCookies(calls, k)
    ensures CookiesOf(calls) == CookiesOf(calls[..k]) + CookiesOf(calls[k..])
    ensures Written(calls) == Written(calls[k..])
    decreases k
  {
    if k == 0 {
      assert calls[..0] == [] && calls[0..] == calls;
    } else {
      var some, rest := calls[..k], calls[1..];
      SplitCookies(rest, k - 1);
      CookieSkips(calls);
      CookieSkips(some);
      assert some[1..] == rest[..k - 1] && rest[k - 1..] == calls[k..];
      Assoc([calls[0].cookie], CookiesOf(some[1..]), CookiesOf(calls[k..]));
    }
  }

  lemma StatusSkips(calls: seq<Call>)
    requires calls != [] && calls[0].Header?
    ensures Written(calls) == Written(calls[1..]) && CookiesOf(calls) == CookiesOf(calls[1..])
  {
  }

  lemma FromStatus(r: Recording, calls: seq<Call>)
    requires !r.wroteHeader && !r.err && r.inner.status.None? && calls != [] && calls[0].Header?
    ensures var p := Play(r, calls);
            var code := calls[0].code;
            && p.statusCode == code && p.err == Blocked(code)
            && p.inner.status == (if Blocked(code) then None else Some(code))
            && p.inner.body == r.inner.body + (if Blocked(code) then [] else Written(calls))
            && p.inner.cookies == r.inner.cookies + (if Blocked(code) then CookiesOf(calls) else [])
  {
    PlayHeaded(Step(r, calls[0]), calls[1..]);
    CookiesHeaded(Step(r, calls[0]), calls[1..]);
    StatusSkips(calls);
  }

  lemma Regroup(before: Response, early: seq<SetCookie>, late: seq<SetCookie>)
    ensures (before.cookies + early) + late == before.cookies + (early + late)
    ensures (before.cookies + early) + [] == before.cookies + early && before.body + [] == before.body
  {
  }

  /** All or nothing: if the upstream writes nothing before its status, setting headers at most,
      then either it is a blocked one and no status and no byte of the upstream reaches the client,
      who gets one redirect instead, or that status and every byte, in order, do. Cookies are not
      held back: the redirect carries all that the upstream set, a status those set before it. */
  lemma RecorderAllOrNothing(before: Response, calls: seq<Call>, k: nat, self: string)
    requires before.status.None? && StatusFirst(calls, k)
    ensures var p := Play(Begin(before), calls);
            var code := calls[k].code;
            && p.statusCode == code
            && if code == 403 || code == 502 || code == 503 || code == 504 then
              var redirect := p.inner.Redirect(Here(self), 302);
              && p.err && p.inner.status.None?
              && redirect.status == Some(302) && redirect.location == Some(Here(self))
              && redirect.body == before.body
              && redirect.cookies == before.cookies + CookiesOf(calls)
            else
              && !p.err && p.inner.status == Some(code) && p.inner.body == before.body + Written(calls)
              && p.inner.cookies == before.cookies + CookiesOf(calls[..k])
  {
    var early, late := CookiesOf(calls[..k]), CookiesOf(calls[k..]);
    PlayCookies(Begin(before), calls, k);
    SplitCookies(calls, k);
    FromStatus(WithMore(Begin(before), early), calls[k..]);
    Regroup(before, early, late);
  }

  /** For any calls at all: upstream bytes slip out although the client is to be redirected
      exactly when some are written before a first status of 403, 502, 503 or 504. */
  lemma BytesLeakIff(before: Response, calls: seq<Call>, k: nat)
    requires IsFirstHeader(calls, k)
    ensures var p := Play(Begin(before), calls);
            (p.err && p.inner.body != before.body) <==>
              (k < |calls| && (calls[k].code == 403 || calls[k].code == 502 || calls[k].code == 503 || calls[k].code == 504)
               && Written(calls[..k]) != [])
  {
    PlayFrom(Begin(before), calls, k);
    assert before.body + [] == before.body;
  }

  /** Bytes written before any status go out under 200, which nothing changes any more. */
  lemma {:induction false} EarlyBytesSay200(before: Response, calls: seq<Call>, j: nat)
    requires before.status.None? && j < |calls| && calls[j].Body?
    requires forall i :: 0 <= i < j ==> calls[i].SetsCookie?
    ensures var p := Play(Begin(before), calls);
            p.inner.status == Some(200) && p.inner.Redirect(Here(""), 302).status == Some(200)
  {
    PlayCookies(Begin(before), calls, j);
    var r := WithMore(Begin(before), CookiesOf(calls[..j]));
    assert calls[j..][0] == calls[j];
    CommittedStays(Step(r, calls[j]), calls[j..][1..]);
  }

  /** Once a status is on its way, nothing the upstream does changes it. */
  lemma {:induction false} CommittedStays(r: Recording, calls: seq<Call>)
    requires r.inner.status.Some?
    ensures Play(r, calls).inner.status == r.inner.status
    decreases |calls|
  {
    if calls != [] {
      CommittedStays(Step(r, calls[0]), calls[1..]);
    }
  }
}
