/** A webhook as a database row and back again as an HTTP request. */
module RequestCodec {
  import opened Wrappers
  import opened Http
  import opened Storage

  type Headers = map<string, seq<string>>

  datatype Message = Message(
    verb: string,
    scheme: string,
    host: string,
    path: string,
    query: string,
    headers: Headers,
    body: Bytes)

  /** The library codecs: JSON for headers, URL printing and parsing, the verbs net/http
      accepts, and the canonical spelling of a header name. */
  datatype Codec = Codec(
    encode: Headers -> Option<Bytes>,
    decode: Bytes -> Option<Headers>,
    show: (string, string, string) -> string,
    parse: string -> Option<(string, string, string)>,
    validVerb: string -> bool,
    canonical: string -> string)

  ghost predicate Lossless(c: Codec) {
    && (forall h :: c.encode(h).Some? ==> c.decode(c.encode(h).value) == Some(h))
    && (forall s, h, p :: c.parse(c.show(s, h, p)) == Some((s, h, p)))
    && (forall k :: c.canonical(c.canonical(k)) == c.canonical(k))
  }

  method NewRequest(c: Codec, m: Message, ns: string, body: Bytes, id: ID) returns (r: Option<Request>)
    ensures r.Some? <==> c.encode(m.headers).Some?
    ensures r.Some? ==> r.value == RowOf(c, m, ns, body, id)
  {
    match c.encode(m.headers)
    case None => return None;
    case Some(h) => return Some(Request(id, m.verb, h, body, m.host, m.scheme, m.path, ns, 0));
  }

  function RowOf(c: Codec, m: Message, ns: string, body: Bytes, id: ID): Request
    requires c.encode(m.headers).Some?
  {
    Request(id, m.verb, c.encode(m.headers).value, body, m.host, m.scheme, m.path, ns, 0)
  }

  /** http.Header.Add, value by value. */
  function AddValues(h: Headers, key: string, values: seq<string>): Headers {
    if values == [] then h
    else h[key := (if key in h then h[key] else []) + values]
  }

  lemma AddOneMore(h: Headers, key: string, values: seq<string>, j: nat)
    requires j < |values|
    ensures var some := AddValues(h, key, values[..j]);
            AddValues(h, key, values[..j + 1])
            == some[key := (if key in some then some[key] else []) + [values[j]]]
  {
    var earlier := if key in h then h[key] else [];
    var some := AddValues(h, key, values[..j]);
    assert values[..j + 1] == values[..j] + [values[j]];
    assert (if key in some then some[key] else []) == earlier + values[..j];
    assert (earlier + values[..j]) + [values[j]] == earlier + values[..j + 1];
  }

  ghost predicate Enumerates(order: seq<string>, keys: set<string>) {
    NoDuplicates(order) && forall k :: k in order <==> k in keys
  }

  /** The headers that adding the stored ones key by key, in this order, produces. */
  function Readded(c: Codec, h: Headers, order: seq<string>): Headers
    requires forall k :: k in order ==> k in h
  {
    if order == [] then map[]
    else
      var k := order[|order| - 1];
      AddValues(Readded(c, h, order[..|order| - 1]), c.canonical(k), h[k])
  }

  /** A row can be turned into a request. It does not depend on the retry count. */
  predicate Formats(c: Codec, r: Request) {
    && c.validVerb(r.verb)
    && c.parse(c.show(r.scheme, r.host, r.path)).Some?
    && c.decode(r.headers).Some?
  }

  /** net/http reads an empty verb as GET. */
  function VerbOf(verb: string): string {
    if verb == "" then "GET" else verb
  }

  method GetHTTPRequest(c: Codec, r: Request) returns (m: Option<Message>)
    ensures m.Some? <==> Formats(c, r)
    ensures m.Some? ==>
              var (scheme, host, path) := c.parse(c.show(r.scheme, r.host, r.path)).value;
              var stored := c.decode(r.headers).value;
              exists order: seq<string> ::
                Enumerates(order, stored.Keys)
                && m.value == Message(VerbOf(r.verb), scheme, host, path, "", Readded(c, stored, order), r.payload)
  {
    if !c.validVerb(r.verb) || c.parse(c.show(r.scheme, r.host, r.path)).None? {
      return None;
    }
    var (scheme, host, path) := c.parse(c.show(r.scheme, r.host, r.path)).value;
    if c.decode(r.headers).None? {
      return None;
    }
    var stored := c.decode(r.headers).value;
    var headers: Headers := map[];
    ghost var order: seq<string> := [];
    var rest := stored.Keys;
    // Go ranges over a map in any order.
    while rest != {}
      invariant rest <= stored.Keys
      invariant Enumerates(order, stored.Keys - rest)
      invariant headers == Readded(c, stored, order)
    {
      var k :| k in rest;
      var before := headers;
      var j := 0;
      while j < |stored[k]|
        invariant 0 <= j <= |stored[k]|
        invariant headers == AddValues(before, c.canonical(k), stored[k][..j])
      {
        var name := c.canonical(k);
        AddOneMore(before, name, stored[k], j);
        headers := headers[name := (if name in headers then headers[name] else []) + [stored[k][j]]];
        j := j + 1;
      }
      assert stored[k][..j] == stored[k];
      rest := rest - {k};
      assert (order + [k])[..|order|] == order;
      order := order + [k];
    }
    assert stored.Keys - rest == stored.Keys;
    return Some(Message(VerbOf(r.verb), scheme, host, path, "", headers, r.payload));
  }

  lemma {:induction false} ReaddedIsCanonical(c: Codec, h: Headers, order: seq<string>)
    requires Lossless(c)
    requires forall k :: k in order ==> k in h
    ensures forall k :: k in Readded(c, h, order) ==> c.canonical(k) == k && Readded(c, h, order)[k] != []
  {
    if order != [] {
      ReaddedIsCanonical(c, h, order[..|order| - 1]);
    }
  }

  lemma {:induction false} ReaddedIsIdentity(c: Codec, h: Headers, order: seq<string>)
    requires forall k :: k in order ==> k in h
    requires forall k :: k in h ==> c.canonical(k) == k && h[k] != []
    requires NoDuplicates(order)
    ensures Readded(c, h, order) == map k | k in order :: h[k]
  {
    if order != [] {
      var init, last := order[..|order| - 1], order[|order| - 1];
      assert order == init + [last];
      ReaddedIsIdentity(c, h, init);
      assert last !in init;
      assert [] + h[last] == h[last];
      assert Readded(c, h, order) == Readded(c, h, init)[last := h[last]];
      assert forall k :: k in order <==> k in init || k == last;
    }
  }

  ghost predicate CanonicalHeaders(c: Codec, h: Headers) {
    forall k :: k in h ==> c.canonical(k) == k && h[k] != []
  }

  /** Whatever the iteration order, the replayed request is the received one without its query
      exactly when header names are canonical, no header is empty and the verb is spelled out. */
  lemma RoundTrip(c: Codec, m: Message, ns: string, id: ID, order: seq<string>)
    requires Lossless(c) && c.encode(m.headers).Some?
    requires Enumerates(order, m.headers.Keys)
    ensures var row := RowOf(c, m, ns, m.body, id);
            && c.decode(row.headers) == Some(m.headers)
            && (Formats(c, row) <==> c.validVerb(m.verb))
            && c.parse(c.show(row.scheme, row.host, row.path)) == Some((m.scheme, m.host, m.path))
            && (Message(VerbOf(row.verb), m.scheme, m.host, m.path, "", Readded(c, m.headers, order), row.payload)
                == m.(query := "")
                <==> CanonicalHeaders(c, m.headers) && m.verb != "")
  {
    ReaddedIsCanonical(c, m.headers, order);
    if CanonicalHeaders(c, m.headers) {
      ReaddedIsIdentity(c, m.headers, order);
    }
  }
}
