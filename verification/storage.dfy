/** The database: buffered webhooks and usage statistics. Every call may fail; the `ok`
    parameters are the database's answers. */
module Storage {
  import opened Wrappers
  import opened Http

  type ID = nat

  datatype Request = Request(
    id: ID,
    verb: string,
    headers: Bytes,
    payload: Bytes,
    host: string,
    scheme: string,
    path: string,
    namespace: string,
    retries: int)

  datatype Statistics = Statistics(namespace: string, lastAccessed: int, lastBuffered: int)

  /** Rows under their primary key. */
  type Table = m: map<ID, Request> | forall id :: id in m ==> m[id].id == id

  /** The answers to the two calls behind recordStatistics: reading and writing the row. */
  datatype StatAnswers = StatAnswers(read: bool, write: bool)

  predicate NoDuplicates<T(==)>(s: seq<T>) {
    forall i, j :: 0 <= i < j < |s| ==> s[i] != s[j]
  }

  /** `order` lists the rows of a namespace once each, in any order. */
  ghost predicate Lists(order: seq<ID>, m: Table, ns: string) {
    && NoDuplicates(order)
    && (forall id :: id in order <==> id in m && m[id].namespace == ns)
  }

  /** `names` lists the namespaces that have rows once each, in any order. */
  ghost predicate ListsNamespaces(names: seq<string>, m: Table) {
    && NoDuplicates(names)
    && (forall ns :: ns in names <==> exists id :: id in m && m[id].namespace == ns)
  }

  function Snapshot(m: Table, order: seq<ID>): seq<Request>
    requires forall id :: id in order ==> id in m
  {
    seq(|order|, i requires 0 <= i < |order| => m[order[i]])
  }

  /** A call that records an access (`la`) or a buffered webhook (`lb`); 0 stands for neither. */
  function RecordStats(stats: map<string, Statistics>, ns: string, la: int, lb: int, a: StatAnswers)
    : map<string, Statistics>
  {
    if !(a.read && a.write) then stats
    else if ns !in stats then stats[ns := Statistics(ns, la, lb)]
    else stats[ns := stats[ns].(
               lastAccessed := if la != 0 then la else stats[ns].lastAccessed,
               lastBuffered := if lb != 0 then lb else stats[ns].lastBuffered)]
  }

  /** What one recording leaves: if both database calls succeed, the row of the namespace has the
      new times that are not zero, and its old ones (0 in a new row) otherwise; else all is as before. */
  ghost predicate Recorded(before: map<string, Statistics>, after: map<string, Statistics>, ns: string,
                           accessed: int, buffered: int, a: StatAnswers)
  {
    if !a.read || !a.write then after == before
    else
      && ns in after
      && after[ns].lastAccessed == (if accessed != 0 then accessed else if ns in before then before[ns].lastAccessed else 0)
      && after[ns].lastBuffered == (if buffered != 0 then buffered else if ns in before then before[ns].lastBuffered else 0)
      && forall other :: other != ns ==>
           && (other in after <==> other in before)
           && (other in before ==> after[other] == before[other])
  }

  lemma RecordStatsMeaning(stats: map<string, Statistics>, ns: string, la: int, lb: int, a: StatAnswers)
    ensures Recorded(stats, RecordStats(stats, ns, la, lb, a), ns, la, lb, a)
  {
  }

  class DBStore {
    var requests: Table
    var statistics: map<string, Statistics>

    constructor ()
      ensures requests == map[] && statistics == map[]
    {
      requests, statistics := map[], map[];
    }

    /** An id already taken violates the primary key. */
    method CreateRequest(r: Request, ok: bool) returns (err: bool)
      modifies this`requests
      ensures err <==> !ok || r.id in old(requests)
      ensures requests == if err then old(requests) else old(requests)[r.id := r]
    {
      err := !ok || r.id in requests;
      if !err {
        requests := requests[r.id := r];
      }
    }

    method GetUsers(answer: Option<seq<string>>) returns (result: Option<seq<string>>)
      requires answer.Some? ==> ListsNamespaces(answer.value, requests)
      ensures result == answer
    {
      result := answer;
    }

    method GetRequests(ns: string, answer: Option<seq<ID>>) returns (result: Option<seq<Request>>)
      requires answer.Some? ==> Lists(answer.value, requests, ns)
      ensures result.Some? <==> answer.Some?
      ensures result.Some? ==> result.value == Snapshot(requests, answer.value)
    {
      match answer
      case None => result := None;
      case Some(order) => result := Some(Snapshot(requests, order));
    }

    /** gorm's Save inserts a row it does not find. */
    method UpdateRequest(r: Request, ok: bool) returns (err: bool)
      modifies this`requests
      ensures err <==> !ok
      ensures requests == if err then old(requests) else old(requests)[r.id := r]
    {
      err := !ok;
      if ok {
        requests := requests[r.id := r];
      }
    }

    method DeleteRequest(r: Request, ok: bool) returns (err: bool)
      modifies this`requests
      ensures err <==> !ok
      ensures requests == if err then old(requests) else old(requests) - {r.id}
    {
      err := !ok;
      if ok {
        requests := requests - {r.id};
      }
    }

    method IncrementRequestRetry(r: Request, saveOk: bool, deleteOk: bool) returns (errs: nat)
      modifies this`requests
      ensures errs == (if saveOk then 0 else if deleteOk then 1 else 2)
      ensures requests == if saveOk then old(requests)[r.id := r.(retries := r.retries + 1)]
                          else if deleteOk then old(requests) - {r.id}
                          else old(requests)
    {
      errs := 0;
      var bumped := r.(retries := r.retries + 1);
      var err := UpdateRequest(bumped, saveOk);
      if err {
        errs := errs + 1;
        err := DeleteRequest(bumped, deleteOk);
        if err {
          errs := errs + 1;
        }
      }
    }

    method GetStatisticsUser(ns: string, ok: bool) returns (o: Statistics, notFound: bool, err: bool)
      ensures notFound <==> ok && ns !in statistics
      ensures err <==> !ok || notFound
      ensures !err ==> o == statistics[ns]
    {
      o := Statistics("", 0, 0);
      notFound := ok && ns !in statistics;
      err := !ok || notFound;
      if !err {
        o := statistics[ns];
      }
    }

    method CreateStatistics(o: Statistics, ok: bool) returns (err: bool)
      modifies this`statistics
      ensures err <==> !ok || o.namespace in old(statistics)
      ensures statistics == if err then old(statistics) else old(statistics)[o.namespace := o]
    {
      err := !ok || o.namespace in statistics;
      if !err {
        statistics := statistics[o.namespace := o];
      }
    }

    method UpdateStatistics(o: Statistics, ok: bool) returns (err: bool)
      modifies this`statistics
      ensures err <==> !ok
      ensures statistics == if err then old(statistics) else old(statistics)[o.namespace := o]
    {
      err := !ok;
      if ok {
        statistics := statistics[o.namespace := o];
      }
    }
  }

  ghost predicate NamedStats(stats: map<string, Statistics>) {
    forall ns :: ns in stats ==> stats[ns].namespace == ns
  }

  method RecordStatistics(store: DBStore, ns: string, la: int, lb: int, a: StatAnswers) returns (err: bool)
    requires NamedStats(store.statistics)
    modifies store`statistics
    ensures store.statistics == RecordStats(old(store.statistics), ns, la, lb, a)
    ensures NamedStats(store.statistics)
    ensures err <==> !(a.read && a.write)
  {
    var s, notFound, e := store.GetStatisticsUser(ns, a.read);
    if e && !notFound {
      return true;
    }
    if notFound {
      s := Statistics(ns, la, lb);
      err := store.CreateStatistics(s, a.write);
      return;
    }
    if la != 0 {
      s := s.(lastAccessed := la);
    }
    if lb != 0 {
      s := s.(lastBuffered := lb);
    }
    err := store.UpdateStatistics(s, a.write);
  }
}
