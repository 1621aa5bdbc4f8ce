/** Tenant service data and the search for a tenant's namespace of one type. */
module Tenant {
  import opened Wrappers

  datatype Namespace = Namespace(name: string, clusterURL: string, kind: string)

  const JENKINS := "jenkins"

  ghost predicate IsFirstOfKind(namespaces: seq<Namespace>, kind: string, i: nat) {
    && i < |namespaces|
    && namespaces[i].kind == kind
    && forall j :: 0 <= j < i ==> namespaces[j].kind != kind
  }

  /** The first namespace of a kind, as a value. */
  function OfKind(namespaces: seq<Namespace>, kind: string): (r: Option<Namespace>)
    ensures r.None? <==> forall j :: 0 <= j < |namespaces| ==> namespaces[j].kind != kind
    ensures r.Some? ==> exists i: nat :: IsFirstOfKind(namespaces, kind, i) && r.value == namespaces[i]
  {
    if namespaces == [] then None
    else if namespaces[0].kind == kind then
      assert IsFirstOfKind(namespaces, kind, 0);
      Some(namespaces[0])
    else
      var rest := OfKind(namespaces[1..], kind);
      assert rest.Some? ==> exists i: nat :: IsFirstOfKind(namespaces, kind, i) && rest.value == namespaces[i] by {
        if rest.Some? {
          var i: nat :| IsFirstOfKind(namespaces[1..], kind, i) && rest.value == namespaces[1..][i];
          assert forall j :: 0 < j < i + 1 ==> namespaces[j] == namespaces[1..][j - 1];
          assert IsFirstOfKind(namespaces, kind, i + 1);
        }
      }
      rest
  }

  method GetNamespaceByType(namespaces: seq<Namespace>, kind: string) returns (r: Option<Namespace>)
    ensures r == OfKind(namespaces, kind)
  {
    var i := 0;
    while i < |namespaces|
      invariant 0 <= i <= |namespaces|
      invariant OfKind(namespaces, kind) == OfKind(namespaces[i..], kind)
    {
      if namespaces[i].kind == kind {
        return Some(namespaces[i]);
      }
      i := i + 1;
    }
    return None;
  }
}
