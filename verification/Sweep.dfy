/** The rotating order in which the presence walk stats claims. */
module Sweep {
  import opened Identity

  /** How far ahead of the cursor an identity lies, going up and wrapping once. */
  function Distance(cursor: Option<ContentId>, x: ContentId): (d: nat)
    ensures d < ID_SPACE
  {
    match cursor
    case None => x
    case Some(c) => if x > c then x - c - 1 else x + ID_SPACE - c - 1
  }

  lemma DistanceInjective(cursor: Option<ContentId>, x: ContentId, y: ContentId)
    requires Distance(cursor, x) == Distance(cursor, y)
    ensures x == y
  {
  }

  /** Moving the cursor onto `c` brings what lay beyond it nearer by the distance
      walked, and sends `c` and what lay before it to the back. */
  lemma DistanceRebase(cursor: Option<ContentId>, c: ContentId, x: ContentId)
    ensures Distance(cursor, x) > Distance(cursor, c) ==>
              Distance(Some(c), x) == Distance(cursor, x) - Distance(cursor, c) - 1
    ensures Distance(cursor, x) <= Distance(cursor, c) ==>
              Distance(Some(c), x) == Distance(cursor, x) + ID_SPACE - Distance(cursor, c) - 1
  {
  }

  ghost predicate Approaching(s: seq<ContentId>, cursor: Option<ContentId>) {
    forall i, j :: 0 <= i < j < |s| ==> Distance(cursor, s[i]) < Distance(cursor, s[j])
  }

  lemma ApproachingDistinct(s: seq<ContentId>, cursor: Option<ContentId>)
    requires Approaching(s, cursor)
    ensures NoDuplicates(s)
  {
  }

  /** The nearest comes first. */
  lemma SameFirst(a: seq<ContentId>, b: seq<ContentId>, cursor: Option<ContentId>)
    requires Approaching(a, cursor) && Approaching(b, cursor) && Elements(a) == Elements(b) && a != [] && b != []
    ensures a[0] == b[0]
  {
    assert a[0] in Elements(b) && b[0] in Elements(a);
    DistanceInjective(cursor, a[0], b[0]);
  }

  /** An approach order is determined by its elements. */
  lemma {:induction false} ApproachUnique(a: seq<ContentId>, b: seq<ContentId>, cursor: Option<ContentId>)
    requires Approaching(a, cursor) && Approaching(b, cursor)
    requires Elements(a) == Elements(b)
    ensures a == b
  {
    ApproachingDistinct(a, cursor);
    ApproachingDistinct(b, cursor);
    DistinctCount(a);
    DistinctCount(b);
    if a != [] {
      SameFirst(a, b, cursor);
      SameRest(a, b);
      ApproachUnique(a[1..], b[1..], cursor);
      assert a == [a[0]] + a[1..] && b == [b[0]] + b[1..];
    }
  }

  /** How many sorted claims are at or before the cursor. */
  function PartitionPoint(claims: seq<ContentId>, cursor: Option<ContentId>): (p: nat)
    requires StrictlyIncreasing(claims)
    ensures p <= |claims|
    ensures cursor == None ==> p == 0
    ensures cursor.Some? ==> forall i :: 0 <= i < p ==> claims[i] <= cursor.value
    ensures cursor.Some? ==> forall i :: p <= i < |claims| ==> cursor.value < claims[i]
  {
    if cursor == None || claims == [] || cursor.value < claims[0] then
      0
    else
      1 + PartitionPoint(claims[1..], cursor)
  }

  /** The claims past the cursor, then the claims up to it. */
  function Rotate(claims: seq<ContentId>, cursor: Option<ContentId>): seq<ContentId>
    requires StrictlyIncreasing(claims)
  {
    var p := PartitionPoint(claims, cursor);
    claims[p..] + claims[..p]
  }

  lemma RotateElements(claims: seq<ContentId>, cursor: Option<ContentId>)
    requires StrictlyIncreasing(claims)
    ensures |Rotate(claims, cursor)| == |claims|
    ensures Elements(Rotate(claims, cursor)) == Elements(claims)
  {
    var p := PartitionPoint(claims, cursor);
    assert claims == claims[..p] + claims[p..];
    ElementsConcat(claims[p..], claims[..p]);
    ElementsConcat(claims[..p], claims[p..]);
  }

  lemma RotateApproaches(claims: seq<ContentId>, cursor: Option<ContentId>)
    requires StrictlyIncreasing(claims)
    ensures Approaching(Rotate(claims, cursor), cursor)
  {
    var p := PartitionPoint(claims, cursor);
    var n := |claims| - p;
    var r := Rotate(claims, cursor);
    assert forall i | 0 <= i < n :: r[i] == claims[p + i];
    assert forall i | n <= i < |claims| :: r[i] == claims[i - n];
  }

  /** The one sequence that meets every claim in order of distance. */
  ghost function Order(claims: set<ContentId>, cursor: Option<ContentId>): seq<ContentId> {
    RotateElements(Enumerate(claims), cursor);
    RotateApproaches(Enumerate(claims), cursor);
    var s: seq<ContentId> :| Approaching(s, cursor) && Elements(s) == claims;
    s
  }

  lemma OrderFacts(claims: set<ContentId>, cursor: Option<ContentId>)
    ensures Approaching(Order(claims, cursor), cursor)
    ensures Elements(Order(claims, cursor)) == claims
    ensures |Order(claims, cursor)| == |claims|
  {
    RotateElements(Enumerate(claims), cursor);
    RotateApproaches(Enumerate(claims), cursor);
    ApproachingDistinct(Order(claims, cursor), cursor);
    DistinctCount(Order(claims, cursor));
  }

  /** The sorted claims past the cursor chained with those before it are that order. */
  lemma OrderIsRotation(claims: set<ContentId>, cursor: Option<ContentId>)
    ensures Rotate(Enumerate(claims), cursor) == Order(claims, cursor)
  {
    OrderFacts(claims, cursor);
    RotateElements(Enumerate(claims), cursor);
    RotateApproaches(Enumerate(claims), cursor);
    ApproachUnique(Rotate(Enumerate(claims), cursor), Order(claims, cursor), cursor);
  }

  /** After walking the first `m` claims and dropping some of them, the order from
      the new cursor is what was not walked, then the walked survivors. */
  lemma AdvancedApproach(r: seq<ContentId>, cursor: Option<ContentId>, m: nat, kept: seq<ContentId>)
    requires Approaching(r, cursor)
    requires 1 <= m <= |r|
    requires Approaching(kept, cursor) && Elements(kept) <= Elements(r[..m])
    ensures Approaching(r[m..] + kept, Some(r[m - 1]))
  {
    var c := r[m - 1];
    var s := r[m..] + kept;
    var n := |r| - m;
    forall i | 0 <= i < |s|
      ensures i < n ==> Distance(Some(c), s[i]) == Distance(cursor, r[m + i]) - Distance(cursor, c) - 1
      ensures i >= n ==> Distance(Some(c), s[i]) == Distance(cursor, kept[i - n]) + ID_SPACE - Distance(cursor, c) - 1
    {
      DistanceRebase(cursor, c, s[i]);
      if i >= n {
        assert kept[i - n] in Elements(r[..m]);
      }
    }
  }

  lemma AdvancedOrder(claims: set<ContentId>, cursor: Option<ContentId>, m: nat, kept: seq<ContentId>, claims': set<ContentId>)
    requires 1 <= m <= |Order(claims, cursor)|
    requires Approaching(kept, cursor) && Elements(kept) <= Elements(Order(claims, cursor)[..m])
    requires claims' == Elements(Order(claims, cursor)[m..]) + Elements(kept)
    ensures Order(claims', Some(Order(claims, cursor)[m - 1])) == Order(claims, cursor)[m..] + kept
  {
    var r := Order(claims, cursor);
    OrderFacts(claims, cursor);
    AdvancedApproach(r, cursor, m, kept);
    ElementsConcat(r[m..], kept);
    OrderFacts(claims', Some(r[m - 1]));
    ApproachUnique(Order(claims', Some(r[m - 1])), r[m..] + kept, Some(r[m - 1]));
  }

  /** Walking `m` claims without reaching `t` brings the cursor closer to it. */
  lemma WalkedCloser(r: seq<ContentId>, cursor: Option<ContentId>, m: nat, t: ContentId)
    requires Approaching(r, cursor)
    requires 1 <= m <= |r|
    requires t in r[m..]
    ensures Distance(Some(r[m - 1]), t) < Distance(cursor, t)
  {
    var k :| 0 <= k < |r[m..]| && r[m..][k] == t;
    assert r[m + k] == t;
    DistanceRebase(cursor, r[m - 1], t);
  }
}
