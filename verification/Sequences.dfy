/** Facts about sequences that the solver finds more easily away from other definitions. */
module Sequences {
  lemma Assoc<T>(a: seq<T>, b: seq<T>, c: seq<T>)
    ensures a + b + c == a + (b + c)
  {
  }

  lemma Assoc4<T>(a: seq<T>, b: seq<T>, c: seq<T>, d: seq<T>)
    ensures a + b + c + d == a + b + (c + d)
  {
  }

  lemma Unit<T>(a: seq<T>)
    ensures a + [] == a && [] + a == a
  {
  }

  /** The head of a list and the run of `n` elements after it. */
  lemma HeadAndRun<T>(s: seq<T>, n: nat)
    requires n < |s|
    ensures s[1..] == s[1..n + 1] + s[n + 1..]
    ensures [s[0]] + s[1..n + 1] == s[..n + 1]
  {
  }

  lemma RunOfConcat<T>(a: seq<T>, b: seq<T>, n: nat)
    requires n < |a|
    ensures (a + b)[0] == a[0] && (a + b)[1..n + 1] == a[1..n + 1] && (a + b)[n + 1..] == a[n + 1..] + b
  {
  }
}
