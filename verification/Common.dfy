/** Small datatypes and sequence facts shared by the models. */
module Common {
  datatype Option<+T> = None | Some(value: T)

  function Max(a: int, b: int): int {
    if a < b then b else a
  }

  lemma Reassociate<T>(a: seq<T>, b: seq<T>, c: seq<T>)
    ensures a + (b + c) == a + b + c
  {
  }

  lemma HeadOfJoin<T>(a: seq<T>, b: seq<T>)
    requires a != []
    ensures (a + b)[0] == a[0] && (a + b)[1..] == a[1..] + b
  {
  }

  /** a can be had from b by leaving elements out, without reordering. */
  ghost predicate Subsequence<T>(a: seq<T>, b: seq<T>)
    decreases |b|
  {
    a == [] || (b != [] && ((a[0] == b[0] && Subsequence(a[1..], b[1..])) || Subsequence(a, b[1..])))
  }

  lemma SubsequenceRefl<T>(a: seq<T>)
    ensures Subsequence(a, a)
    decreases |a|
  {
    if a != [] { SubsequenceRefl(a[1..]); }
  }

  lemma {:induction false} SubsequencePrepend<T>(p: seq<T>, a: seq<T>, b: seq<T>)
    requires Subsequence(a, b)
    ensures Subsequence(p + a, p + b)
    decreases |p|
  {
    if p == [] {
      assert p + a == a && p + b == b;
    } else {
      assert (p + a)[1..] == p[1..] + a && (p + b)[1..] == p[1..] + b;
      SubsequencePrepend(p[1..], a, b);
    }
  }

  lemma {:induction false} SubsequenceSkip<T>(p: seq<T>, a: seq<T>, b: seq<T>)
    requires Subsequence(a, b)
    ensures Subsequence(a, p + b)
    decreases |p|
  {
    if p == [] {
      assert p + b == b;
    } else {
      assert (p + b)[1..] == p[1..] + b;
      SubsequenceSkip(p[1..], a, b);
    }
  }

  /** Leaving one element more out. */
  lemma {:induction false} SubsequenceWithout<T>(a: seq<T>, x: T, b: seq<T>, c: seq<T>)
    requires Subsequence(a + ([x] + b), c)
    ensures Subsequence(a + b, c)
    decreases |c|
  {
    var l := a + ([x] + b);
    if l[0] == c[0] && Subsequence(l[1..], c[1..]) {
      if a == [] {
        assert l[1..] == b && a + b == b;
      } else {
        assert l[1..] == a[1..] + ([x] + b) && (a + b)[1..] == a[1..] + b;
        SubsequenceWithout(a[1..], x, b, c[1..]);
      }
    } else {
      SubsequenceWithout(a, x, b, c[1..]);
    }
  }
}
