/** Work item tracker: the owner of a codebase, joined out of a search document. */
module Wit {
  import opened Wrappers

  /** `spaces[d]` is the space of the d-th codebase; `included` lists spaces and their owners. */
  datatype Included = Included(id: string, owner: string)
  datatype Document = Document(spaces: seq<string>, included: seq<Included>)

  ghost predicate Joins(doc: Document, d: nat, i: nat) {
    d < |doc.spaces| && i < |doc.included| && doc.spaces[d] == doc.included[i].id
  }

  /** (d, i) is the first joining pair: codebases in order, and for each the spaces in order. */
  ghost predicate IsFirstJoin(doc: Document, d: nat, i: nat) {
    && Joins(doc, d, i)
    && (forall d': nat, i': nat :: Joins(doc, d', i') ==> d < d' || (d == d' && i <= i'))
  }

  function OwnerOfSpace(space: string, included: seq<Included>): Option<string> {
    if included == [] then None
    else if space == included[0].id then Some(included[0].owner)
    else OwnerOfSpace(space, included[1..])
  }

  function Owner(doc: Document): string
    decreases |doc.spaces|
  {
    if doc.spaces == [] then ""
    else match OwnerOfSpace(doc.spaces[0], doc.included)
      case Some(owner) => owner
      case None => Owner(doc.(spaces := doc.spaces[1..]))
  }

  lemma {:induction false} OwnerOfSpaceIsFirst(space: string, included: seq<Included>)
    ensures OwnerOfSpace(space, included).None? <==> forall i :: 0 <= i < |included| ==> included[i].id != space
    ensures OwnerOfSpace(space, included).Some? ==>
              exists i :: 0 <= i < |included| && included[i].id == space
                          && (forall j :: 0 <= j < i ==> included[j].id != space)
                          && OwnerOfSpace(space, included).value == included[i].owner
  {
    if included != [] && space != included[0].id {
      OwnerOfSpaceIsFirst(space, included[1..]);
      assert forall i :: 0 <= i < |included| - 1 ==> included[1..][i] == included[i + 1];
      if OwnerOfSpace(space, included).Some? {
        var i :| 0 <= i < |included| - 1 && included[1..][i].id == space
                 && (forall j :: 0 <= j < i ==> included[1..][j].id != space)
                 && OwnerOfSpace(space, included).value == included[1..][i].owner;
        assert included[i + 1].id == space;
        assert forall j :: 0 < j < i + 1 ==> included[j] == included[1..][j - 1];
      } else {
        assert forall i :: 1 <= i < |included| ==> included[i] == included[1..][i - 1];
      }
    }
  }

  /** The owner is the one of the first joining pair, and empty exactly when nothing joins
      or that pair's owner is empty. */
  lemma {:induction false} OwnerIsFirstJoin(doc: Document)
    ensures (forall d: nat, i: nat :: !Joins(doc, d, i)) ==> Owner(doc) == ""
    ensures (exists d: nat, i: nat :: Joins(doc, d, i)) ==>
              exists d: nat, i: nat :: IsFirstJoin(doc, d, i) && Owner(doc) == doc.included[i].owner
    decreases |doc.spaces|
  {
    if doc.spaces != [] {
      OwnerOfSpaceIsFirst(doc.spaces[0], doc.included);
      var rest := doc.(spaces := doc.spaces[1..]);
      if OwnerOfSpace(doc.spaces[0], doc.included).Some? {
        var i :| 0 <= i < |doc.included| && doc.included[i].id == doc.spaces[0]
                 && (forall j :: 0 <= j < i ==> doc.included[j].id != doc.spaces[0])
                 && Owner(doc) == doc.included[i].owner;
        assert Joins(doc, 0, i);
        assert IsFirstJoin(doc, 0, i);
      } else {
        OwnerIsFirstJoin(rest);
        assert forall d: nat, i: nat :: Joins(rest, d, i) ==> Joins(doc, d + 1, i);
        assert forall d: nat, i: nat :: Joins(doc, d, i) ==> d > 0 && Joins(rest, d - 1, i);
        if d: nat, i: nat :| IsFirstJoin(rest, d, i) && Owner(rest) == doc.included[i].owner {
          assert IsFirstJoin(doc, d + 1, i);
        }
      }
    }
  }

  /** The join loops of Info.UnmarshalJSON. */
  method UnmarshalOwner(doc: Document) returns (ownedBy: string)
    ensures ownedBy == Owner(doc)
  {
    ownedBy := "";
    var d := 0;
    assert doc.(spaces := doc.spaces[0..]) == doc;
    while d < |doc.spaces|
      invariant 0 <= d <= |doc.spaces|
      invariant Owner(doc) == Owner(doc.(spaces := doc.spaces[d..]))
    {
      var i := 0;
      while i < |doc.included|
        invariant 0 <= i <= |doc.included|
        invariant OwnerOfSpace(doc.spaces[d], doc.included) == OwnerOfSpace(doc.spaces[d], doc.included[i..])
      {
        if doc.spaces[d] == doc.included[i].id {
          ownedBy := doc.included[i].owner;
          return;
        }
        i := i + 1;
      }
      assert doc.spaces[d..][1..] == doc.spaces[d + 1..];
      d := d + 1;
    }
  }
}
