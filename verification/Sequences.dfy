/** Small vocabulary shared by the whole model: optional values and filtered sequences. */
module Sequences {

  datatype Option<+T> = None | Some(value: T)

  /** The elements of `s` that satisfy `p`, in order. */
  function Filter<T>(s: seq<T>, p: T -> bool): (r: seq<T>)
    ensures forall x :: x in r ==> x in s && p(x)
    ensures |r| <= |s|
  {
    if s == [] then [] else if p(s[0]) then [s[0]] + Filter(s[1..], p) else Filter(s[1..], p)
  }

  lemma {:induction false} FilterAppend<T>(a: seq<T>, b: seq<T>, p: T -> bool)
    ensures Filter(a + b, p) == Filter(a, p) + Filter(b, p)
  {
    if a == [] {
      assert a + b == b;
    } else {
      assert (a + b)[1..] == a[1..] + b;
      FilterAppend(a[1..], b, p);
    }
  }

  /** The concatenation of a sequence of sequences. */
  function Concat<T>(ss: seq<seq<T>>): seq<T> {
    if ss == [] then [] else ss[0] + Concat(ss[1..])
  }

  lemma {:induction false} ConcatAppend<T>(a: seq<seq<T>>, b: seq<seq<T>>)
    ensures Concat(a + b) == Concat(a) + Concat(b)
  {
    if a == [] {
      assert a + b == b;
    } else {
      assert (a + b)[1..] == a[1..] + b;
      ConcatAppend(a[1..], b);
    }
  }

  /** Two duplicate-free sequences with the same elements are permutations of each other. */
  lemma {:induction false} SameElementsSameMultiset<T>(a: seq<T>, b: seq<T>)
    requires forall i, j :: 0 <= i < j < |a| ==> a[i] != a[j]
    requires forall i, j :: 0 <= i < j < |b| ==> b[i] != b[j]
    requires forall x :: x in a <==> x in b
    ensures multiset(a) == multiset(b)
  {
    forall x ensures multiset(a)[x] == multiset(b)[x] {
      CountDistinct(a, x);
      CountDistinct(b, x);
    }
  }

  lemma {:induction false} CountDistinct<T>(a: seq<T>, x: T)
    requires forall i, j :: 0 <= i < j < |a| ==> a[i] != a[j]
    ensures multiset(a)[x] == if x in a then 1 else 0
  {
    if a != [] {
      assert a == [a[0]] + a[1..];
      CountDistinct(a[1..], x);
    }
  }

  lemma Exchange<T>(k: multiset<T>, d: multiset<T>, s: multiset<T>, rest: multiset<T>, r: multiset<T>, all: multiset<T>)
    requires k + d == r + rest
    requires rest + s == all
    ensures k + (d + s) == r + all
  {
    assert k + (d + s) == (k + d) + s;
    assert r + (rest + s) == (r + rest) + s;
  }

  /** The sum of the bags `f(x)` over a sequence. */
  function BagSum<T, E>(xs: seq<T>, f: T -> multiset<E>): multiset<E> {
    if xs == [] then multiset{} else f(xs[0]) + BagSum(xs[1..], f)
  }

  lemma {:induction false} BagUpdate<T, E>(xs: seq<T>, i: nat, x: T, f: T -> multiset<E>)
    requires i < |xs|
    ensures BagSum(xs[i := x], f) + f(xs[i]) == BagSum(xs, f) + f(x)
  {
    if i == 0 {
      assert xs[i := x][1..] == xs[1..];
      Commute(f(x), BagSum(xs[1..], f), f(xs[0]));
    } else {
      BagUpdate(xs[1..], i - 1, x, f);
      assert xs[i := x][1..] == xs[1..][i - 1 := x];
      Reassociate(f(xs[0]), BagSum(xs[1..][i - 1 := x], f), f(xs[i]), BagSum(xs[1..], f), f(x));
    }
  }

  lemma {:induction false} BagAppend<T, E>(xs: seq<T>, x: T, f: T -> multiset<E>)
    ensures BagSum(xs + [x], f) == BagSum(xs, f) + f(x)
  {
    if xs == [] {
      assert [x][1..] == [];
    } else {
      assert (xs + [x])[1..] == xs[1..] + [x];
      BagAppend(xs[1..], x, f);
    }
  }

  lemma {:induction false} BagEmpty<T, E>(xs: seq<T>, f: T -> multiset<E>)
    requires forall x :: x in xs ==> f(x) == multiset{}
    ensures BagSum(xs, f) == multiset{}
  {
    if xs != [] {
      BagEmpty(xs[1..], f);
    }
  }

  lemma Commute<E>(a: multiset<E>, b: multiset<E>, c: multiset<E>)
    ensures (a + b) + c == (c + b) + a
  {
  }

  lemma Reassociate<E>(h: multiset<E>, s': multiset<E>, o: multiset<E>, s: multiset<E>, n: multiset<E>)
    requires s' + o == s + n
    ensures (h + s') + o == (h + s) + n
  {
    assert (h + s') + o == h + (s' + o);
    assert (h + s) + n == h + (s + n);
  }

  /** Cancelling in `s' + o == s + n`: the part that gained, and the part that gave away. */
  lemma Gained<E>(s: multiset<E>, s': multiset<E>, o: multiset<E>, n: multiset<E>, d: multiset<E>)
    requires s' + o == s + n && n == o + d
    ensures s' == s + d
  {
    forall x ensures s'[x] == (s + d)[x] {
      assert (s' + o)[x] == (s + n)[x];
      assert n[x] == (o + d)[x];
    }
  }

  lemma Gave<E>(s: multiset<E>, s': multiset<E>, o: multiset<E>, n: multiset<E>, d: multiset<E>)
    requires s' + o == s + n && o == n + d
    ensures s == s' + d
  {
    Gained(s', s, n, o, d);
  }

  lemma BagGained<T, E>(xs: seq<T>, i: nat, x: T, f: T -> multiset<E>, d: multiset<E>)
    requires i < |xs| && f(x) == f(xs[i]) + d
    ensures BagSum(xs[i := x], f) == BagSum(xs, f) + d
  {
    BagUpdate(xs, i, x, f);
    Gained(BagSum(xs, f), BagSum(xs[i := x], f), f(xs[i]), f(x), d);
  }

  lemma BagGave<T, E>(xs: seq<T>, i: nat, x: T, f: T -> multiset<E>, d: multiset<E>)
    requires i < |xs| && f(xs[i]) == f(x) + d
    ensures BagSum(xs, f) == BagSum(xs[i := x], f) + d
  {
    BagUpdate(xs, i, x, f);
    Gave(BagSum(xs, f), BagSum(xs[i := x], f), f(xs[i]), f(x), d);
  }

  lemma CancelOne<E>(a: multiset<E>, b: multiset<E>, x: E)
    requires multiset{x} + a <= b + multiset{x}
    ensures a <= b
  {
    forall y ensures a[y] <= b[y] {
      assert (multiset{x} + a)[y] <= (b + multiset{x})[y];
    }
  }

  lemma {:induction false} BagMember<T, E>(xs: seq<T>, i: nat, f: T -> multiset<E>)
    requires i < |xs|
    ensures f(xs[i]) <= BagSum(xs, f)
  {
    if i > 0 {
      BagMember(xs[1..], i - 1, f);
    }
  }

  lemma Associate<T>(a: seq<T>, b: seq<T>, c: seq<T>)
    ensures (a + b) + c == a + (b + c)
  {
  }
}
