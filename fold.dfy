/**
 * Folding a collection of report rows into an amount of money.
 *
 * `Reduce` is the accumulator fold `rows.reduce((sum, x) => sum + cost(x), acc)`
 * the request handler applies to each row collection; `Sum` is the plain
 * mathematical sum it is proved against.
 */
module Fold {

  /** The exact sum of `cost` over `rows`: the reference meaning of a subtotal. */
  function Sum<T>(rows: seq<T>, cost: T -> real): real
  {
    if rows == [] then 0.0 else cost(rows[0]) + Sum(rows[1..], cost)
  }

  /** A left fold of addition that starts from `acc` and visits the rows in order. */
  function Reduce<T>(rows: seq<T>, cost: T -> real, acc: real): (r: real)
    ensures r == acc + Sum(rows, cost)
  {
    if rows == [] then acc else Reduce(rows[1..], cost, acc + cost(rows[0]))
  }

  /** The sum over two collections placed one after the other adds up. */
  lemma {:induction false} SumConcat<T>(a: seq<T>, b: seq<T>, cost: T -> real)
    ensures Sum(a + b, cost) == Sum(a, cost) + Sum(b, cost)
  {
    if a == [] {
      assert a + b == b;
    } else {
      assert (a + b)[1..] == a[1..] + b;
      SumConcat(a[1..], b, cost);
    }
  }

  /** Appending one row raises the sum by exactly that row's cost. */
  lemma {:induction false} SumAppend<T>(rows: seq<T>, x: T, cost: T -> real)
    ensures Sum(rows + [x], cost) == Sum(rows, cost) + cost(x)
  {
    SumConcat(rows, [x], cost);
    assert [x][1..] == [];
  }

  /** Taking one row out of a collection lowers the sum by that row's cost. */
  lemma SumRemoveAt<T>(b: seq<T>, i: nat, cost: T -> real)
    requires i < |b|
    ensures Sum(b, cost) == cost(b[i]) + Sum(b[..i] + b[i + 1..], cost)
  {
    var l, r := b[..i], b[i + 1..];
    assert b == l + ([b[i]] + r);
    SumConcat(l, [b[i]] + r, cost);
    assert ([b[i]] + r)[1..] == r;
    assert Sum([b[i]] + r, cost) == cost(b[i]) + Sum(r, cost);
    SumConcat(l, r, cost);
  }

  /** Matching the first row of `a` with row `i` of its permutation `b` leaves permutations behind. */
  lemma MultisetRemoveAt<T>(a: seq<T>, b: seq<T>, i: nat)
    requires multiset(a) == multiset(b)
    requires 0 < |a| && i < |b| && b[i] == a[0]
    ensures multiset(a[1..]) == multiset(b[..i] + b[i + 1..])
  {
    assert a == [a[0]] + a[1..];
    assert b == b[..i] + [b[i]] + b[i + 1..];
    calc {
      multiset(a[1..]);
      multiset(a) - multiset{a[0]};
      multiset(b) - multiset{b[i]};
      multiset(b[..i] + b[i + 1..]);
    }
  }

  /** The sum does not depend on the order of the rows. */
  lemma {:induction false} SumPermutation<T>(a: seq<T>, b: seq<T>, cost: T -> real)
    requires multiset(a) == multiset(b)
    ensures Sum(a, cost) == Sum(b, cost)
    decreases |a|
  {
    if a == [] {
      assert |b| == |multiset(b)| == 0;
    } else {
      assert a[0] in multiset(b);
      var i :| 0 <= i < |b| && b[i] == a[0];
      var rest := b[..i] + b[i + 1..];
      MultisetRemoveAt(a, b, i);
      SumPermutation(a[1..], rest, cost);
      SumRemoveAt(b, i, cost);
    }
  }

  /** Two collections of the same length whose rows cost the same pairwise have the same sum. */
  lemma {:induction false} SumPointwise<T, U>(a: seq<T>, f: T -> real, b: seq<U>, g: U -> real)
    requires |a| == |b|
    requires forall i :: 0 <= i < |a| ==> f(a[i]) == g(b[i])
    ensures Sum(a, f) == Sum(b, g)
  {
    if a != [] {
      assert f(a[0]) == g(b[0]);
      SumPointwise(a[1..], f, b[1..], g);
    }
  }
}
