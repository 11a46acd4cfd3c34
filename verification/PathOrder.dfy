/** Paths in the order of their characters. */
module PathOrder {
  /** `a` comes no later than `b`. */
  predicate AtMost(a: string, b: string) {
    a == [] || (b != [] && (a[0] < b[0] || (a[0] == b[0] && AtMost(a[1..], b[1..]))))
  }

  lemma {:induction false} AtMostItself(a: string)
    ensures AtMost(a, a)
  {
    if a != [] {
      AtMostItself(a[1..]);
    }
  }

  lemma {:induction false} AtMostIsTotal(a: string, b: string)
    ensures AtMost(a, b) || AtMost(b, a)
  {
    if a != [] && b != [] && a[0] == b[0] {
      AtMostIsTotal(a[1..], b[1..]);
    }
  }

  lemma {:induction false} AtMostChains(a: string, b: string, c: string)
    requires AtMost(a, b) && AtMost(b, c)
    ensures AtMost(a, c)
  {
    if a != [] && a[0] == b[0] && b[0] == c[0] {
      AtMostChains(a[1..], b[1..], c[1..]);
    }
  }
}
