/** Who owns a repository: codebase search, tenant lookup, retries and the tenant cache. */
module Lookup {
  import opened Wrappers
  import opened ProxyState
  import opened Tenant
  import Wit

  const DEFAULT_RETRY := 15

  /** The answers of the work item tracker and of the tenant service to one lookup. */
  datatype Backends = Backends(
    search: string -> Option<Wit.Document>,
    tenant: string -> Option<seq<Namespace>>)

  /** Unicode's white space. */
  predicate IsSpace(c: char) {
    || '\t' <= c <= '\r' || c == ' ' || c == '\U{85}' || c == '\U{A0}' || c == '\U{1680}'
    || '\U{2000}' <= c <= '\U{200A}' || c == '\U{2028}' || c == '\U{2029}' || c == '\U{202F}'
    || c == '\U{205F}' || c == '\U{3000}'
  }

  predicate Blank(s: string) {
    forall c :: c in s ==> IsSpace(c)
  }

  /** Codebase.Namespace: the Jenkins namespace of the repository's owner. */
  function NamespaceOf(url: string, b: Backends): Option<Namespace> {
    match b.search(url)
    case None => None
    case Some(doc) =>
      if Blank(Wit.Owner(doc)) then None
      else match b.tenant(Wit.Owner(doc))
        case None => None
        case Some(namespaces) => OfKind(namespaces, JENKINS)
  }

  /** How many lookups are made at most. */
  function Attempts(retry: int): nat {
    if retry > 1 then retry else 1
  }

  function FirstSuccess(url: string, b: nat -> Backends, k: nat, n: nat): Option<Namespace>
    requires k <= n
    decreases n - k
  {
    if k == n then None
    else if NamespaceOf(url, b(k)).Some? then NamespaceOf(url, b(k))
    else FirstSuccess(url, b, k + 1, n)
  }

  ghost predicate AllFail(url: string, b: nat -> Backends, k: nat, n: nat) {
    forall j: nat :: k <= j < n ==> NamespaceOf(url, b(j)).None?
  }

  type Cache = map<string, Namespace>

  /** The retrying, cached lookup: its answer and the cache it leaves. */
  function CachedLookup(cache: Cache, url: string, b: nat -> Backends, retry: int): (Option<Namespace>, Cache) {
    if url in cache then (Some(cache[url]), cache)
    else match FirstSuccess(url, b, 0, Attempts(retry))
      case None => (None, cache)
      case Some(n) => (Some(n), cache[url := n])
  }

  method CodebaseNamespace(url: string, b: Backends) returns (r: Option<Namespace>)
    ensures r == NamespaceOf(url, b)
  {
    match b.search(url)
    case None => return None;
    case Some(doc) =>
      var ownedBy := Wit.UnmarshalOwner(doc);
      if Blank(ownedBy) {
        return None;
      }
      match b.tenant(ownedBy)
      case None => return None;
      case Some(namespaces) => r := GetNamespaceByType(namespaces, JENKINS);
  }

  method GetUser(p: Proxy, url: string, b: Backends) returns (r: Option<Namespace>)
    modifies p`tenantCache
    ensures r == if url in old(p.tenantCache) then Some(old(p.tenantCache)[url]) else NamespaceOf(url, b)
    ensures p.tenantCache == if r.Some? then old(p.tenantCache)[url := r.value] else old(p.tenantCache)
  {
    if url in p.tenantCache {
      return Some(p.tenantCache[url]);
    }
    r := CodebaseNamespace(url, b);
    if r.Some? {
      p.tenantCache := p.tenantCache[url := r.value];
    }
  }

  method GetUserWithRetry(p: Proxy, url: string, b: nat -> Backends, retry: int)
    returns (r: Option<Namespace>, calls: nat)
    modifies p`tenantCache
    ensures (r, p.tenantCache) == CachedLookup(old(p.tenantCache), url, b, retry)
    ensures 1 <= calls <= if retry > 1 then retry else 1
    ensures p.tenantCache == if r.Some? then old(p.tenantCache)[url := r.value] else old(p.tenantCache)
    ensures url !in old(p.tenantCache) ==>
              && AllFail(url, b, 0, calls - 1)
              && r == NamespaceOf(url, b(calls - 1))
              && (r.None? ==> calls == if retry > 1 then retry else 1)
  {
    var i := 1;
    while i < retry
      invariant 1 <= i <= Attempts(retry)
      invariant p.tenantCache == old(p.tenantCache)
      invariant i > 1 ==> url !in p.tenantCache
      invariant AllFail(url, b, 0, i - 1)
      invariant FirstSuccess(url, b, 0, Attempts(retry)) == FirstSuccess(url, b, i - 1, Attempts(retry))
    {
      r := GetUser(p, url, b(i - 1));
      if r.Some? {
        assert url in old(p.tenantCache) ==> old(p.tenantCache)[url := r.value] == old(p.tenantCache);
        return r, i;
      }
      i := i + 1;
    }
    r := GetUser(p, url, b(i - 1));
    assert url in old(p.tenantCache) ==> old(p.tenantCache)[url := old(p.tenantCache)[url]] == old(p.tenantCache);
    calls := i;
  }

  /** The lookup fails exactly when every attempt fails, and otherwise gives the first success,
      that of attempt j. */
  lemma {:induction false} FirstSuccessMeaning(url: string, b: nat -> Backends, k: nat, n: nat) returns (j: nat)
    requires k <= n
    ensures FirstSuccess(url, b, k, n).None? <==> AllFail(url, b, k, n)
    ensures FirstSuccess(url, b, k, n).Some? ==>
              k <= j < n && AllFail(url, b, k, j) && FirstSuccess(url, b, k, n) == NamespaceOf(url, b(j))
    decreases n - k
  {
    j := k;
    if k < n && NamespaceOf(url, b(k)).None? {
      j := FirstSuccessMeaning(url, b, k + 1, n);
      OneMoreFails(url, b, k, n);
      OneMoreFails(url, b, k, j);
    }
  }

  lemma OneMoreFails(url: string, b: nat -> Backends, k: nat, n: nat)
    requires NamespaceOf(url, b(k)).None?
    ensures AllFail(url, b, k, n) == AllFail(url, b, k + 1, n)
  {
  }

  /** The backends give the same answer, `look(url)`, on every attempt. */
  ghost predicate Stable(b: nat -> Backends, look: string -> Option<Namespace>) {
    forall url, k: nat :: NamespaceOf(url, b(k)) == look(url)
  }

  /** The cache holds only current answers. Expiry, which removes entries, keeps this. */
  ghost predicate Consistent(cache: Cache, look: string -> Option<Namespace>) {
    forall url :: url in cache ==> look(url) == Some(cache[url])
  }

  /** With stable backends the cached, retried lookup is the plain one, and the cache stays right. */
  lemma CachedLookupRefinesPlain(cache: Cache, url: string, b: nat -> Backends, retry: int, look: string -> Option<Namespace>)
    requires Stable(b, look) && Consistent(cache, look)
    ensures CachedLookup(cache, url, b, retry).0 == look(url)
    ensures Consistent(CachedLookup(cache, url, b, retry).1, look)
  {
    if url !in cache {
      var j := FirstSuccessMeaning(url, b, 0, Attempts(retry));
      assert NamespaceOf(url, b(0)) == look(url);
      assert NamespaceOf(url, b(j)) == look(url);
    }
  }

  /** What a successful plain lookup means in terms of the two services' data. */
  lemma PlainLookupMeaning(url: string, b: Backends)
    ensures NamespaceOf(url, b).Some? <==>
              && b.search(url).Some?
              && !Blank(Wit.Owner(b.search(url).value))
              && b.tenant(Wit.Owner(b.search(url).value)).Some?
              && exists i :: 0 <= i < |b.tenant(Wit.Owner(b.search(url).value)).value|
                             && b.tenant(Wit.Owner(b.search(url).value)).value[i].kind == "jenkins"
    ensures NamespaceOf(url, b).Some? ==>
              var doc := b.search(url).value;
              exists d: nat, i: nat, k: nat ::
                && Wit.IsFirstJoin(doc, d, i)
                && !Blank(doc.included[i].owner)
                && b.tenant(doc.included[i].owner).Some?
                && IsFirstOfKind(b.tenant(doc.included[i].owner).value, "jenkins", k)
                && NamespaceOf(url, b).value == b.tenant(doc.included[i].owner).value[k]
  {
    if NamespaceOf(url, b).Some? {
      var doc := b.search(url).value;
      var namespaces := b.tenant(Wit.Owner(doc)).value;
      Wit.OwnerIsFirstJoin(doc);
      assert Blank("");
      var d: nat, i: nat :| Wit.IsFirstJoin(doc, d, i) && Wit.Owner(doc) == doc.included[i].owner;
      var k: nat :| IsFirstOfKind(namespaces, "jenkins", k) && OfKind(namespaces, "jenkins").value == namespaces[k];
    }
  }
}
