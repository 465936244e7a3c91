module Sequences {

  lemma {:induction false} Regroup<T>(a: seq<T>, b: seq<T>, c: seq<T>)
    ensures a + (b + c) == a + b + c
  {
  }

  // Where a recursion from the end meets the seam of two sequences.
  lemma {:induction false} DropLast<T>(a: seq<T>, b: seq<T>)
    requires b != []
    ensures var n := |b| - 1;
      (a + b)[..|a + b| - 1] == a + b[..n] && (a + b)[|a + b| - 1] == b[n] && a + b == a + b[..n] + [b[n]]
  {
  }

  // And a recursion from the front.
  lemma {:induction false} DropFirst<T>(a: seq<T>, b: seq<T>)
    requires a != []
    ensures (a + b)[0] == a[0] && (a + b)[1..] == a[1..] + b
  {
  }

  lemma {:induction false} PrefixOfSum<T>(a: seq<T>, b: seq<T>, c: seq<T>)
    requires a <= b
    ensures a <= b + c
  {
  }

  function Map<A, B>(s: seq<A>, f: A -> B): seq<B> {
    seq(|s|, k requires 0 <= k < |s| => f(s[k]))
  }
}
