/** Content and device identities, and the ordered sets built from them. */
module Identity {

  datatype Option<+T> = None | Some(value: T)

  /** An identity is 32 bytes compared bytewise, which is the order of the
      naturals below 2^256. */
  const ID_SPACE: nat := 0x1_0000000000000000_0000000000000000_0000000000000000_0000000000000000

  type Id32 = n: nat | n < ID_SPACE
  type ContentId = Id32
  type DeviceId = Id32

  datatype ObjectKind = Chunk | Tree | Snapshot | Manifest {
    function Byte(): nat {
      match this
      case Chunk => 0
      case Tree => 1
      case Snapshot => 2
      case Manifest => 3
    }
  }

  predicate StrictlyIncreasing(s: seq<Id32>) {
    forall i, j :: 0 <= i < j < |s| ==> s[i] < s[j]
  }

  function Elements<T>(s: seq<T>): set<T> {
    set x | x in s
  }

  predicate NoDuplicates<T(==)>(s: seq<T>) {
    forall i, j :: 0 <= i < j < |s| ==> s[i] != s[j]
  }

  lemma {:induction false} LeastExists(ids: set<Id32>) returns (m: Id32)
    requires ids != {}
    ensures m in ids && forall x | x in ids :: m <= x
  {
    var x :| x in ids;
    var rest := ids - {x};
    assert ids == rest + {x};
    if rest == {} {
      m := x;
    } else {
      var n := LeastExists(rest);
      m := if x < n then x else n;
    }
  }

  /** The first element an ordered set iterates. */
  function Least(ids: set<Id32>): (m: Id32)
    requires ids != {}
    ensures m in ids && forall x | x in ids :: m <= x
  {
    assert exists m :: m in ids && forall x | x in ids :: m <= x by {
      var m := LeastExists(ids);
    }
    var m :| m in ids && forall x | x in ids :: m <= x;
    m
  }

  lemma PrependLeast(m: Id32, rest: seq<Id32>, ids: set<Id32>)
    requires m in ids && forall x | x in ids :: m <= x
    requires StrictlyIncreasing(rest) && Elements(rest) == ids - {m}
    ensures StrictlyIncreasing([m] + rest)
    ensures Elements([m] + rest) == ids
  {
    ElementsConcat([m], rest);
    assert Elements([m]) == {m};
    forall i | 0 <= i < |rest|
      ensures m < rest[i]
    {
      assert rest[i] in Elements(rest);
    }
  }

  /** The iteration order of an ordered set. */
  function Enumerate(ids: set<Id32>): (s: seq<Id32>)
    ensures StrictlyIncreasing(s)
    ensures Elements(s) == ids
    ensures |s| == |ids|
  {
    if ids == {} then
      []
    else
      var m := Least(ids);
      var rest := Enumerate(ids - {m});
      PrependLeast(m, rest, ids);
      [m] + rest
  }

  /** Distinct elements: as many as the set they form. */
  lemma {:induction false} DistinctCount<T>(s: seq<T>)
    requires NoDuplicates(s)
    ensures |Elements(s)| == |s|
  {
    if s == [] {
      assert Elements(s) == {};
    } else {
      var rest := s[1..];
      DistinctCount(rest);
      assert s == [s[0]] + rest;
      assert Elements(s) == {s[0]} + Elements(rest);
    }
  }

  lemma ElementsConcat<T>(a: seq<T>, b: seq<T>)
    ensures Elements(a + b) == Elements(a) + Elements(b)
  {
  }

  lemma PrefixElements<T>(s: seq<T>, i: nat)
    requires i < |s|
    ensures Elements(s[..i + 1]) == Elements(s[..i]) + {s[i]}
  {
    assert s[..i + 1] == s[..i] + [s[i]];
  }

  lemma SubsetSameSize<T>(a: set<T>, b: set<T>)
    requires a <= b && |a| == |b|
    ensures a == b
  {
    assert b == a + (b - a);
    assert |b - a| == 0;
  }

  lemma Associate<T>(a: seq<T>, b: seq<T>, c: seq<T>)
    ensures a + (b + c) == (a + b) + c
  {
  }

  lemma Peel<T>(a: seq<T>, b: seq<T>)
    requires a != []
    ensures a + b == [a[0]] + (a[1..] + b)
  {
  }

  /** Two listings of one set that start alike go on over the same elements. */
  lemma SameRest<T>(a: seq<T>, b: seq<T>)
    requires a != [] && b != [] && a[0] == b[0]
    requires NoDuplicates(a) && NoDuplicates(b) && Elements(a) == Elements(b)
    ensures NoDuplicates(a[1..]) && NoDuplicates(b[1..]) && Elements(a[1..]) == Elements(b[1..])
  {
    forall x ensures x in Elements(a[1..]) <==> x in Elements(b[1..]) {
      RestElements(a, x);
      RestElements(b, x);
      assert x in Elements(a) <==> x in Elements(b);
    }
  }

  lemma RestElements<T>(s: seq<T>, x: T)
    requires s != [] && NoDuplicates(s)
    ensures x in Elements(s[1..]) <==> x in Elements(s) && x != s[0]
  {
    if x in s && x != s[0] {
      var i :| 0 <= i < |s| && s[i] == x;
      assert s[1..][i - 1] == x;
    }
  }

  /** A set has one iteration order. */
  lemma {:induction false} EnumerationUnique(a: seq<Id32>, b: seq<Id32>)
    requires StrictlyIncreasing(a) && StrictlyIncreasing(b)
    requires Elements(a) == Elements(b)
    ensures a == b
  {
    DistinctCount(a);
    DistinctCount(b);
    if a != [] {
      assert a[0] in Elements(b) && b[0] in Elements(a);
      assert a[0] == b[0];
      SameRest(a, b);
      EnumerationUnique(a[1..], b[1..]);
      assert a == [a[0]] + a[1..] && b == [b[0]] + b[1..];
    }
  }
}
