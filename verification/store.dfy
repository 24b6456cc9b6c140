/**
 * The document store as the model sees it: a collection is a map from
 * document id to record, and a listing sorted on `createdAt: -1` is a
 * sequence of ids that names every document exactly once, newest first.
 */
module Store {

  /** A document id (the store's ObjectId). */
  type Id = nat

  predicate Distinct(ids: seq<Id>) {
    forall i, j :: 0 <= i < j < |ids| ==> ids[i] != ids[j]
  }

  /** `ids` names exactly the documents of `m`, each once. */
  predicate Enumerates<T>(m: map<Id, T>, ids: seq<Id>) {
    && (forall i :: 0 <= i < |ids| ==> ids[i] in m)
    && (forall k :: k in m ==> k in ids)
    && Distinct(ids)
  }

  /** The documents `ids` names are in descending `createdAt` order. */
  predicate NewestFirst<T>(m: map<Id, T>, ids: seq<Id>, createdAt: T -> int)
    requires forall i :: 0 <= i < |ids| ==> ids[i] in m
  {
    forall i, j :: 0 <= i < j < |ids| ==> createdAt(m[ids[i]]) >= createdAt(m[ids[j]])
  }

  /** Where `k` goes in a newest-first listing: after every strictly newer document. */
  function InsertPosition<T>(m: map<Id, T>, ids: seq<Id>, k: Id, createdAt: T -> int): (p: nat)
    requires forall i :: 0 <= i < |ids| ==> ids[i] in m
    requires k in m
    ensures p <= |ids|
    ensures forall i :: 0 <= i < p ==> createdAt(m[ids[i]]) > createdAt(m[k])
    ensures p < |ids| ==> createdAt(m[k]) >= createdAt(m[ids[p]])
    decreases |ids|
  {
    if |ids| == 0 || createdAt(m[k]) >= createdAt(m[ids[0]]) then 0
    else 1 + InsertPosition(m, ids[1..], k, createdAt)
  }

  /** Inserts `k` into a newest-first listing, before the first document not newer than it. */
  function InsertNewest<T>(m: map<Id, T>, ids: seq<Id>, k: Id, createdAt: T -> int): (r: seq<Id>)
    requires forall i :: 0 <= i < |ids| ==> ids[i] in m
    requires k in m
    requires NewestFirst(m, ids, createdAt)
    ensures |r| == |ids| + 1
    ensures forall x :: x in r <==> x in ids || x == k
    ensures forall i :: 0 <= i < |r| ==> r[i] in m
    ensures NewestFirst(m, r, createdAt)
    ensures Distinct(ids) && k !in ids ==> Distinct(r)
  {
    var p := InsertPosition(m, ids, k, createdAt);
    InsertAtFacts(m, ids, k, p, createdAt);
    ids[..p] + [k] + ids[p..]
  }

  lemma InsertAtFacts<T>(m: map<Id, T>, ids: seq<Id>, k: Id, p: nat, createdAt: T -> int)
    requires forall i :: 0 <= i < |ids| ==> ids[i] in m
    requires k in m
    requires NewestFirst(m, ids, createdAt)
    requires p == InsertPosition(m, ids, k, createdAt)
    ensures var r := ids[..p] + [k] + ids[p..];
      && (forall x :: x in r <==> x in ids || x == k)
      && NewestFirst(m, r, createdAt)
      && (Distinct(ids) && k !in ids ==> Distinct(r))
  {
    var r := ids[..p] + [k] + ids[p..];
    assert ids == ids[..p] + ids[p..];
    InsertAtOrder(m, ids, k, p, createdAt);
    if Distinct(ids) && k !in ids {
      forall i, j | 0 <= i < j < |r|
        ensures r[i] != r[j]
      {
        var x := InsertAtElement(ids, k, p, i);
        var y := InsertAtElement(ids, k, p, j);
      }
    }
  }

  /** The element at position `i` of `ids` with `k` inserted at `p`. */
  lemma InsertAtElement(ids: seq<Id>, k: Id, p: nat, i: nat) returns (x: Id)
    requires p <= |ids| && i <= |ids|
    ensures x == (ids[..p] + [k] + ids[p..])[i]
    ensures i < p ==> x == ids[i]
    ensures i == p ==> x == k
    ensures i > p ==> x == ids[i - 1]
  {
    x := (ids[..p] + [k] + ids[p..])[i];
  }

  lemma InsertAtOrder<T>(m: map<Id, T>, ids: seq<Id>, k: Id, p: nat, createdAt: T -> int)
    requires forall i :: 0 <= i < |ids| ==> ids[i] in m
    requires k in m
    requires NewestFirst(m, ids, createdAt)
    requires p == InsertPosition(m, ids, k, createdAt)
    ensures forall i :: 0 <= i < |ids| + 1 ==> (ids[..p] + [k] + ids[p..])[i] in m
    ensures NewestFirst(m, ids[..p] + [k] + ids[p..], createdAt)
  {
    var r := ids[..p] + [k] + ids[p..];
    forall i | 0 <= i < |r| ensures r[i] in m {
      var x := InsertAtElement(ids, k, p, i);
    }
    forall i, j | 0 <= i < j < |r|
      ensures createdAt(m[r[i]]) >= createdAt(m[r[j]])
    {
      var x := InsertAtElement(ids, k, p, i);
      var y := InsertAtElement(ids, k, p, j);
      if i > p || j < p {
      } else if i == p {
        assert createdAt(m[k]) >= createdAt(m[ids[p]]);
      } else if j > p {
        assert createdAt(m[ids[i]]) > createdAt(m[k]) >= createdAt(m[ids[p]]);
      }
    }
  }

  /**
   * `find(...).sort({ createdAt: -1 })`: every document of `m` once, newest
   * first. Documents with equal timestamps come in an unspecified order.
   */
  method ListNewestFirst<T>(m: map<Id, T>, createdAt: T -> int) returns (ids: seq<Id>)
    ensures Enumerates(m, ids)
    ensures NewestFirst(m, ids, createdAt)
  {
    ids := [];
    var rest := m.Keys;
    while rest != {}
      invariant rest <= m.Keys
      invariant forall i :: 0 <= i < |ids| ==> ids[i] in m && ids[i] !in rest
      invariant forall k :: k in m && k !in rest ==> k in ids
      invariant Distinct(ids)
      invariant NewestFirst(m, ids, createdAt)
      decreases rest
    {
      var k :| k in rest;
      assert k !in ids;
      ids := InsertNewest(m, ids, k, createdAt);
      rest := rest - {k};
    }
  }

  /** The records a listing names, in the listing's order. */
  function Records<T>(m: map<Id, T>, ids: seq<Id>): (r: seq<T>)
    requires forall i :: 0 <= i < |ids| ==> ids[i] in m
    ensures |r| == |ids|
    ensures forall i :: 0 <= i < |ids| ==> r[i] == m[ids[i]]
  {
    seq(|ids|, i requires 0 <= i < |ids| => m[ids[i]])
  }
}
