/**
 * The list transformations every store of the storefront is built from:
 * `Array.prototype.filter`, `Array.prototype.map` and a `reduce` that sums.
 */
module Lists {

  /** `s.filter(keep)`: the elements that pass, in their original order. */
  function Filter<T>(s: seq<T>, keep: T -> bool): (r: seq<T>)
    ensures |r| <= |s|

  {
    if s == [] then []
    else (if keep(s[0]) then [s[0]] else []) + Filter(s[1..], keep)
  }

  /** Everything the filter returns comes from the input and passes the predicate. */
  lemma {:induction false} FilterSound<T>(s: seq<T>, keep: T -> bool)
    ensures forall x :: x in Filter(s, keep) ==> x in s && keep(x)
  {
    if s != [] {
      FilterSound(s[1..], keep);
      assert Filter(s, keep) == (if keep(s[0]) then [s[0]] else []) + Filter(s[1..], keep);
    }
  }

  /** Every element that passes the filter is kept. */
  lemma {:induction false} FilterKeepsPassing<T>(s: seq<T>, keep: T -> bool, x: T)
    requires x in s && keep(x)
    ensures x in Filter(s, keep)
  {
    if s[0] != x {
      FilterKeepsPassing(s[1..], keep, x);
    }
  }

  /** `s.map(f)`: one result per element, in the same positions. */
  function Map<T>(s: seq<T>, f: T -> T): (r: seq<T>)
    ensures |r| == |s|
    ensures forall i :: 0 <= i < |s| ==> r[i] == f(s[i])
  {
    if s == [] then [] else [f(s[0])] + Map(s[1..], f)
  }

  /** `s.indexOf(x)`: the first position holding `x`, or -1. */
  function IndexOf<T(==)>(s: seq<T>, x: T): (r: int)
    ensures -1 <= r < |s|
    ensures r >= 0 ==> s[r] == x && forall j :: 0 <= j < r ==> s[j] != x
    ensures r == -1 <==> x !in s
  {
    if s == [] then -1
    else if s[0] == x then 0
    else
      var k := IndexOf(s[1..], x);
      if k == -1 then -1 else k + 1
  }

  /** `s.reduce((acc, x) => acc + w(x), 0)`. */
  function Sum<T>(s: seq<T>, w: T -> int): int
  {
    if s == [] then 0 else w(s[0]) + Sum(s[1..], w)
  }

  /** Filtering distributes over concatenation: what survives of `a + b` is what survives of `a`,
      then what survives of `b`, so the relative order of the survivors is kept. */
  lemma {:induction false} FilterAppend<T>(a: seq<T>, b: seq<T>, keep: T -> bool)
    ensures Filter(a + b, keep) == Filter(a, keep) + Filter(b, keep)
  {
    if a == [] {
      assert a + b == b;
    } else {
      var head := if keep(a[0]) then [a[0]] else [];
      assert (a + b)[0] == a[0] && (a + b)[1..] == a[1..] + b;
      assert Filter(a + b, keep) == head + Filter(a[1..] + b, keep);
      assert Filter(a, keep) == head + Filter(a[1..], keep);
      FilterAppend(a[1..], b, keep);
    }
  }

  /** A filter that rejects nothing returns its input unchanged. */
  lemma {:induction false} FilterKeepsAll<T>(s: seq<T>, keep: T -> bool)
    requires forall i :: 0 <= i < |s| ==> keep(s[i])
    ensures Filter(s, keep) == s
  {
    if s != [] {
      FilterKeepsAll(s[1..], keep);
    }
  }

  /** A filter that rejects every element returns the empty list. */
  lemma {:induction false} FilterKeepsNone<T>(s: seq<T>, keep: T -> bool)
    requires forall i :: 0 <= i < |s| ==> !keep(s[i])
    ensures Filter(s, keep) == []
  {
    if s != [] {
      FilterKeepsNone(s[1..], keep);
    }
  }

  /** Filtering twice with the same predicate is filtering once. */
  lemma FilterIdempotent<T>(s: seq<T>, keep: T -> bool)
    ensures Filter(Filter(s, keep), keep) == Filter(s, keep)
  {
    var r := Filter(s, keep);
    FilterSound(s, keep);
    assert forall i :: 0 <= i < |r| ==> r[i] in r;
    FilterKeepsAll(r, keep);
  }

  /** The survivors and the rejects of a filter together make up the input: nothing is lost or
      duplicated. */
  lemma {:induction false} FilterPartition<T>(s: seq<T>, keep: T -> bool, drop: T -> bool)
    requires forall i :: 0 <= i < |s| ==> drop(s[i]) == !keep(s[i])
    ensures multiset(Filter(s, keep)) + multiset(Filter(s, drop)) == multiset(s)
  {
    if s != [] {
      FilterPartition(s[1..], keep, drop);
      assert s == [s[0]] + s[1..];
    }
  }

  /** A sum over a concatenation is the sum of the two parts. */
  lemma {:induction false} SumAppend<T>(a: seq<T>, b: seq<T>, w: T -> int)
    ensures Sum(a + b, w) == Sum(a, w) + Sum(b, w)
  {
    if a == [] {
      assert a + b == b;
    } else {
      assert (a + b)[1..] == a[1..] + b;
      SumAppend(a[1..], b, w);
    }
  }

  /** A sum of non-negative weights is non-negative. */
  lemma {:induction false} SumNonNegative<T>(s: seq<T>, w: T -> int)
    requires forall x :: x in s ==> w(x) >= 0
    ensures Sum(s, w) >= 0
  {
    if s != [] {
      assert s[0] in s;
      SumNonNegative(s[1..], w);
    }
  }

  /** Summing after a map that leaves every weight alone gives the same sum. */
  lemma {:induction false} SumMapSameWeight<T>(s: seq<T>, f: T -> T, w: T -> int)
    requires forall x :: x in s ==> w(f(x)) == w(x)
    ensures Sum(Map(s, f), w) == Sum(s, w)
  {
    if s != [] {
      assert s[0] in s;
      assert Map(s, f)[1..] == Map(s[1..], f);
      SumMapSameWeight(s[1..], f, w);
    }
  }

  /** Replacing one element changes a sum by exactly the difference of that element's weights. */
  lemma {:induction false} SumReplaceAt<T>(s: seq<T>, k: nat, x: T, w: T -> int)
    requires k < |s|
    ensures Sum(s[k := x], w) == Sum(s, w) - w(s[k]) + w(x)
  {
    if k == 0 {
      assert s[k := x][1..] == s[1..];
    } else {
      assert s[k := x][1..] == s[1..][k - 1 := x];
      SumReplaceAt(s[1..], k - 1, x, w);
    }
  }

  /** Removing one element lowers a sum by exactly that element's weight. */
  lemma {:induction false} SumRemoveAt<T>(s: seq<T>, k: nat, w: T -> int)
    requires k < |s|
    ensures Sum(s[..k] + s[k + 1..], w) == Sum(s, w) - w(s[k])
  {
    var before, after := s[..k], s[k + 1..];
    assert s == before + ([s[k]] + after);
    SumAppend(before, [s[k]] + after, w);
    SumAppend([s[k]], after, w);
    assert Sum([s[k]], w) == w(s[k]) by {
      assert [s[k]][1..] == [];
    }
    SumAppend(before, after, w);
  }

  /** A filter that rejects one element between two runs it keeps returns the two runs. */
  lemma {:induction false} FilterSkipsOne<T>(before: seq<T>, x: T, after: seq<T>, keep: T -> bool)
    requires !keep(x)
    requires forall i :: 0 <= i < |before| ==> keep(before[i])
    requires forall i :: 0 <= i < |after| ==> keep(after[i])
    ensures Filter(before + [x] + after, keep) == before + after
  {
    var s := before + [x] + after;
    if before == [] {
      assert s[1..] == after;
      FilterKeepsAll(after, keep);
    } else {
      var rest := before[1..];
      assert s[0] == before[0] && s[1..] == rest + [x] + after;
      assert keep(s[0]);
      assert Filter(s, keep) == [s[0]] + Filter(s[1..], keep);
      forall i | 0 <= i < |rest| ensures keep(rest[i]) {
        assert rest[i] == before[i + 1];
      }
      FilterSkipsOne(rest, x, after, keep);
      assert [before[0]] + (rest + after) == before + after;
    }
  }

  /** A filter that rejects exactly one position removes exactly that element. */
  lemma {:induction false} FilterDropsOne<T>(s: seq<T>, keep: T -> bool, k: nat)
    requires k < |s| && !keep(s[k])
    requires forall i :: 0 <= i < |s| && i != k ==> keep(s[i])
    ensures Filter(s, keep) == s[..k] + s[k + 1..]
  {
    var before, after := s[..k], s[k + 1..];
    assert s == before + [s[k]] + after;
    forall i | 0 <= i < |before| ensures keep(before[i]) {
      assert before[i] == s[i];
    }
    forall i | 0 <= i < |after| ensures keep(after[i]) {
      assert after[i] == s[k + 1 + i];
    }
    FilterSkipsOne(before, s[k], after, keep);
  }
}
