/** The optional value used across the model in place of `null` and `undefined`. */
module Options {
  datatype Option<+T> = None | Some(value: T)
}

/** Strings compared as JavaScript's `<` compares them: by the first differing code unit, a prefix first. */
module TextOrder {
  predicate Before(a: string, b: string) {
    if b == [] then false
    else if a == [] then true
    else a[0] < b[0] || (a[0] == b[0] && Before(a[1..], b[1..]))
  }

  lemma {:induction false} BeforeIsIrreflexive(a: string)
    ensures !Before(a, a)
  {
    if a != [] {
      BeforeIsIrreflexive(a[1..]);
    }
  }

  lemma {:induction false} BeforeIsTotal(a: string, b: string)
    ensures !(Before(a, b) && Before(b, a))
    ensures Before(a, b) || Before(b, a) || a == b
  {
    if a != [] && b != [] {
      BeforeIsTotal(a[1..], b[1..]);
      assert a == [a[0]] + a[1..] && b == [b[0]] + b[1..];
    }
  }

  lemma {:induction false} BeforeIsTransitive(a: string, b: string, c: string)
    requires Before(a, b) && Before(b, c)
    ensures Before(a, c)
  {
    if a != [] && a[0] == b[0] && b[0] == c[0] {
      BeforeIsTransitive(a[1..], b[1..], c[1..]);
    }
  }
}

/** Tables whose rows are read in the order of their ids. */
module Rows {
  /** The ids below `n` that have a row, in order. */
  function Ids<T>(rows: map<int, T>, n: int): (ids: seq<int>)
    ensures forall i :: 0 <= i < |ids| ==> ids[i] in rows
    ensures forall id :: id in rows && 1 <= id < n ==> id in ids
    decreases n
  {
    if n <= 1 then [] else Ids(rows, n - 1) + (if n - 1 in rows then [n - 1] else [])
  }
}
