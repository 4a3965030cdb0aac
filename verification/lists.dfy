/** Operations over sequences shared by several modules: a throwing map, counting, summing. */
module Lists {
  import opened Wrappers

  /**
   * `xs.map(f)` where f may throw (None): the images of all elements in order, or None as
   * soon as one of them throws.
   */
  function MapAll<T, U>(f: T -> Option<U>, xs: seq<T>): (r: Option<seq<U>>)
    ensures r.Some? ==> |r.value| == |xs|
  {
    if xs == [] then Some([])
    else
      match MapAll(f, xs[..|xs| - 1])
      case None => None
      case Some(done) =>
        match f(xs[|xs| - 1])
        case None => None
        case Some(y) => Some(done + [y])
  }

  /** The map succeeds exactly when f succeeds on every element, and holds those images. */
  lemma {:induction false} MapAllSome<T, U>(f: T -> Option<U>, xs: seq<T>)
    ensures MapAll(f, xs).Some? <==> forall i :: 0 <= i < |xs| ==> f(xs[i]).Some?
    ensures MapAll(f, xs).Some? ==> forall i :: 0 <= i < |xs| ==> MapAll(f, xs).value[i] == f(xs[i]).value
  {
    if xs != [] {
      var front := xs[..|xs| - 1];
      MapAllSome(f, front);
      assert forall i :: 0 <= i < |front| ==> front[i] == xs[i];
    }
  }

  /** Extending the mapped prefix by one element. */
  lemma MapAllStep<T, U>(f: T -> Option<U>, xs: seq<T>, i: nat, done: seq<U>)
    requires i < |xs| && MapAll(f, xs[..i]) == Some(done)
    ensures f(xs[i]).None? ==> MapAll(f, xs[..i + 1]).None?
    ensures f(xs[i]).Some? ==> MapAll(f, xs[..i + 1]) == Some(done + [f(xs[i]).value])
  {
    assert xs[..i + 1][..i] == xs[..i];
  }

  /** Once a prefix throws, so does the whole map. */
  lemma {:induction false} MapAllPrefix<T, U>(f: T -> Option<U>, xs: seq<T>, n: nat)
    requires n <= |xs| && MapAll(f, xs[..n]).None?
    ensures MapAll(f, xs).None?
    decreases |xs| - n
  {
    if n < |xs| {
      assert xs[..n + 1][..n] == xs[..n];
      MapAllPrefix(f, xs, n + 1);
    } else {
      assert xs[..n] == xs;
    }
  }

  /** `xs.map(f)`. */
  function Map<T, U>(xs: seq<T>, f: T -> U): (ys: seq<U>)
    ensures |ys| == |xs| && forall i :: 0 <= i < |xs| ==> ys[i] == f(xs[i])
  {
    seq(|xs|, i requires 0 <= i < |xs| => f(xs[i]))
  }

  lemma MapAppend<T, U>(xs: seq<T>, ys: seq<T>, f: T -> U)
    ensures Map(xs + ys, f) == Map(xs, f) + Map(ys, f)
  {
  }

  /** Extending the mapped prefix by one element. */
  lemma MapStep<T, U>(xs: seq<T>, f: T -> U, j: nat)
    requires j < |xs|
    ensures Map(xs[..j + 1], f) == Map(xs[..j], f) + [f(xs[j])]
  {
  }

  /** A log extended twice, by `xs` and then by `ys`, when `on` holds. */
  lemma Extend<S>(before: seq<S>, mid: seq<S>, after: seq<S>, xs: seq<S>, ys: seq<S>, on: bool)
    requires mid == before + (if on then xs else []) && after == mid + (if on then ys else [])
    ensures after == before + (if on then xs + ys else [])
  {
    if on {
      assert (before + xs) + ys == before + (xs + ys);
    } else {
      assert before + [] == before;
    }
  }

  /** `xs.filter(p).length`. */
  function CountWhere<T>(xs: seq<T>, p: T -> bool): (n: nat)
    ensures n <= |xs|
  {
    if xs == [] then 0 else CountWhere(xs[..|xs| - 1], p) + (if p(xs[|xs| - 1]) then 1 else 0)
  }

  /** Counting distributes over concatenation. */
  lemma {:induction false} CountWhereAppend<T>(xs: seq<T>, ys: seq<T>, p: T -> bool)
    ensures CountWhere(xs + ys, p) == CountWhere(xs, p) + CountWhere(ys, p)
    decreases |ys|
  {
    if ys != [] {
      var zs := xs + ys;
      assert zs[..|zs| - 1] == xs + ys[..|ys| - 1];
      CountWhereAppend(xs, ys[..|ys| - 1], p);
    } else {
      assert xs + ys == xs;
    }
  }

  /** No element satisfies p: the count is 0; every element does: it is the length. */
  lemma {:induction false} CountWhereBounds<T>(xs: seq<T>, p: T -> bool)
    ensures (forall i :: 0 <= i < |xs| ==> !p(xs[i])) ==> CountWhere(xs, p) == 0
    ensures (forall i :: 0 <= i < |xs| ==> p(xs[i])) ==> CountWhere(xs, p) == |xs|
  {
    if xs != [] {
      var front := xs[..|xs| - 1];
      CountWhereBounds(front, p);
      assert forall i :: 0 <= i < |front| ==> front[i] == xs[i];
    }
  }

  /** `xs.filter(p)`: the elements satisfying p, in order. */
  function Filter<T>(xs: seq<T>, p: T -> bool): (r: seq<T>)
    ensures |r| <= |xs|
    ensures forall i :: 0 <= i < |r| ==> p(r[i])
  {
    if xs == [] then []
    else Filter(xs[..|xs| - 1], p) + (if p(xs[|xs| - 1]) then [xs[|xs| - 1]] else [])
  }

  /** Filtering keeps every element satisfying p, as often as it occurs, and drops the others. */
  lemma {:induction false} FilterOccurrences<T>(xs: seq<T>, p: T -> bool, x: T)
    ensures multiset(Filter(xs, p))[x] == if p(x) then multiset(xs)[x] else 0
  {
    if xs != [] {
      var front := xs[..|xs| - 1];
      FilterOccurrences(front, p, x);
      assert xs == front + [xs[|xs| - 1]];
    }
  }

  /** The filtered list is as long as the count of elements satisfying p. */
  lemma {:induction false} FilterLength<T>(xs: seq<T>, p: T -> bool)
    ensures |Filter(xs, p)| == CountWhere(xs, p)
  {
    if xs != [] {
      FilterLength(xs[..|xs| - 1], p);
    }
  }

  /** Filtering out an element makes the list strictly shorter. */
  lemma {:induction false} FilterDrops<T>(xs: seq<T>, p: T -> bool, i: nat)
    requires i < |xs| && !p(xs[i])
    ensures |Filter(xs, p)| < |xs|
  {
    var front := xs[..|xs| - 1];
    if i < |front| {
      assert front[i] == xs[i];
      FilterDrops(front, p, i);
    }
  }

  /** A list whose elements all satisfy p is its own filter. */
  lemma {:induction false} FilterAll<T>(xs: seq<T>, p: T -> bool)
    requires forall i :: 0 <= i < |xs| ==> p(xs[i])
    ensures Filter(xs, p) == xs
  {
    if xs != [] {
      var front := xs[..|xs| - 1];
      assert forall i :: 0 <= i < |front| ==> front[i] == xs[i];
      FilterAll(front, p);
    }
  }

  /** A list none of whose elements satisfies p filters to nothing. */
  lemma {:induction false} FilterNone<T>(xs: seq<T>, p: T -> bool)
    requires forall i :: 0 <= i < |xs| ==> !p(xs[i])
    ensures Filter(xs, p) == []
  {
    if xs != [] {
      var front := xs[..|xs| - 1];
      assert forall i :: 0 <= i < |front| ==> front[i] == xs[i];
      FilterNone(front, p);
    }
  }

  /** Filtering distributes over concatenation. */
  lemma {:induction false} FilterAppend<T>(xs: seq<T>, ys: seq<T>, p: T -> bool)
    ensures Filter(xs + ys, p) == Filter(xs, p) + Filter(ys, p)
    decreases |ys|
  {
    if ys != [] {
      var zs := xs + ys;
      assert zs[..|zs| - 1] == xs + ys[..|ys| - 1];
      FilterAppend(xs, ys[..|ys| - 1], p);
    } else {
      assert xs + ys == xs;
    }
  }

  /** Filtering a list with one more element. */
  lemma FilterSnoc<T>(xs: seq<T>, x: T, p: T -> bool)
    ensures Filter(xs + [x], p) == Filter(xs, p) + (if p(x) then [x] else [])
  {
    assert (xs + [x])[..|xs + [x]| - 1] == xs;
  }

  /** `xs.reduce((acc, x) => acc + f(x), 0)`. */
  function Sum<T>(xs: seq<T>, f: T -> real): real {
    if xs == [] then 0.0 else Sum(xs[..|xs| - 1], f) + f(xs[|xs| - 1])
  }

  /** Summing distributes over concatenation. */
  lemma {:induction false} SumAppend<T>(xs: seq<T>, ys: seq<T>, f: T -> real)
    ensures Sum(xs + ys, f) == Sum(xs, f) + Sum(ys, f)
    decreases |ys|
  {
    if ys != [] {
      var zs := xs + ys;
      assert zs[..|zs| - 1] == xs + ys[..|ys| - 1];
      SumAppend(xs, ys[..|ys| - 1], f);
    } else {
      assert xs + ys == xs;
    }
  }

  /** A sum of non-negative terms is non-negative. */
  lemma {:induction false} SumNonNegative<T>(xs: seq<T>, f: T -> real)
    requires forall i :: 0 <= i < |xs| ==> f(xs[i]) >= 0.0
    ensures Sum(xs, f) >= 0.0
  {
    if xs != [] {
      var front := xs[..|xs| - 1];
      assert forall i :: 0 <= i < |front| ==> front[i] == xs[i];
      SumNonNegative(front, f);
    }
  }

  /** Removing the element at k takes its term out of the sum. */
  lemma SumRemove<T>(ys: seq<T>, k: nat, f: T -> real)
    requires k < |ys|
    ensures Sum(ys, f) == Sum(ys[..k] + ys[k + 1..], f) + f(ys[k])
  {
    var front, back := ys[..k], ys[k + 1..];
    assert ys[..k + 1] == front + [ys[k]];
    assert ys == ys[..k + 1] + back;
    assert Sum([ys[k]], f) == f(ys[k]) by {
      assert [ys[k]][..0] == [];
    }
    SumAppend(front + [ys[k]], back, f);
    SumAppend(front, [ys[k]], f);
    SumAppend(front, back, f);
  }

  /** Replacing one element changes the sum by the difference of their terms. */
  lemma SumUpdate<T>(xs: seq<T>, i: nat, y: T, f: T -> real)
    requires i < |xs|
    ensures Sum(xs[i := y], f) == Sum(xs, f) - f(xs[i]) + f(y)
  {
    var ys := xs[i := y];
    SumRemove(xs, i, f);
    SumRemove(ys, i, f);
    assert ys[..i] + ys[i + 1..] == xs[..i] + xs[i + 1..];
  }

  /** Reordering a list does not change its sum. */
  lemma {:induction false} SumPermutation<T>(xs: seq<T>, ys: seq<T>, f: T -> real)
    requires multiset(xs) == multiset(ys)
    ensures Sum(xs, f) == Sum(ys, f)
    decreases |xs|
  {
    if xs == [] {
      assert |ys| == |multiset(ys)| == 0;
    } else {
      var front, x := xs[..|xs| - 1], xs[|xs| - 1];
      assert xs == front + [x];
      assert x in multiset(ys);
      var k :| 0 <= k < |ys| && ys[k] == x;
      var rest := ys[..k] + ys[k + 1..];
      assert ys == ys[..k] + [x] + ys[k + 1..];
      assert multiset(rest) == multiset(ys) - multiset{x};
      SumRemove(ys, k, f);
      SumPermutation(front, rest, f);
    }
  }

  /** The sum over xs splits into the sums over the elements satisfying p and the others. */
  lemma {:induction false} SumPartition<T>(xs: seq<T>, f: T -> real, p: T -> bool, q: T -> bool)
    requires forall x :: q(x) == !p(x)
    ensures Sum(xs, f) == Sum(Filter(xs, p), f) + Sum(Filter(xs, q), f)
  {
    if xs != [] {
      var front, last := xs[..|xs| - 1], xs[|xs| - 1];
      SumPartition(front, f, p, q);
      SumAppend(Filter(front, p), if p(last) then [last] else [], f);
      SumAppend(Filter(front, q), if q(last) then [last] else [], f);
    }
  }

  /** The images that exist, in order: `xs.forEach(x => { const y = f(x); if (y) out.push(y); })`. */
  function FilterMap<T, U>(xs: seq<T>, f: T -> Option<U>): (r: seq<U>)
    ensures |r| <= |xs|
  {
    if xs == [] then []
    else
      var last := f(xs[|xs| - 1]);
      FilterMap(xs[..|xs| - 1], f) + (if last.Some? then [last.value] else [])
  }

  /** Every element of the result is the image of some element of xs. */
  lemma {:induction false} FilterMapFrom<T, U>(xs: seq<T>, f: T -> Option<U>)
    ensures forall j :: 0 <= j < |FilterMap(xs, f)| ==>
      exists i :: 0 <= i < |xs| && f(xs[i]) == Some(FilterMap(xs, f)[j])
  {
    if xs != [] {
      var front := xs[..|xs| - 1];
      FilterMapFrom(front, f);
      var r := FilterMap(xs, f);
      forall j | 0 <= j < |r|
        ensures exists i :: 0 <= i < |xs| && f(xs[i]) == Some(r[j])
      {
        if j < |FilterMap(front, f)| {
          var i :| 0 <= i < |front| && f(front[i]) == Some(FilterMap(front, f)[j]);
          assert f(xs[i]) == Some(r[j]);
        } else {
          assert f(xs[|xs| - 1]) == Some(r[j]);
        }
      }
    } else {
      assert FilterMap(xs, f) == [];
    }
  }

  /** The result has one element per element of xs whose image exists. */
  lemma {:induction false} FilterMapCount<T, U>(xs: seq<T>, f: T -> Option<U>, p: T -> bool)
    requires forall x :: p(x) == f(x).Some?
    ensures |FilterMap(xs, f)| == CountWhere(xs, p)
  {
    if xs != [] {
      FilterMapCount(xs[..|xs| - 1], f, p);
    }
  }

  /** FilterMap distributes over concatenation. */
  lemma {:induction false} FilterMapAppend<T, U>(xs: seq<T>, ys: seq<T>, f: T -> Option<U>)
    ensures FilterMap(xs + ys, f) == FilterMap(xs, f) + FilterMap(ys, f)
    decreases |ys|
  {
    if ys != [] {
      var zs := xs + ys;
      assert zs[..|zs| - 1] == xs + ys[..|ys| - 1];
      FilterMapAppend(xs, ys[..|ys| - 1], f);
    } else {
      assert xs + ys == xs;
    }
  }

  /** Extending the collected prefix by one element. */
  lemma FilterMapStep<T, U>(xs: seq<T>, f: T -> Option<U>, i: nat)
    requires i < |xs|
    ensures FilterMap(xs[..i + 1], f) == FilterMap(xs[..i], f) + (if f(xs[i]).Some? then [f(xs[i]).value] else [])
  {
    assert xs[..i + 1][..i] == xs[..i];
  }

  /** The image of x under build, when x passes `usable` and that image passes `accept`. */
  function Keep<T, U>(usable: T -> bool, build: T -> U, accept: U -> bool): T -> Option<U> {
    x => if usable(x) && accept(build(x)) then Some(build(x)) else None
  }

  /**
   * `xs.forEach(x => { if (usable(x)) { const y = build(x); if (accept(y)) list.push(y); } })`:
   * the list grows by the kept images, in order.
   */
  method PushKept<T, U>(list: seq<U>, xs: seq<T>, usable: T -> bool, build: T -> U, accept: U -> bool)
    returns (out: seq<U>)
    ensures out == list + FilterMap(xs, Keep(usable, build, accept))
  {
    out := list;
    for i := 0 to |xs|
      invariant out == list + FilterMap(xs[..i], Keep(usable, build, accept))
    {
      FilterMapStep(xs, Keep(usable, build, accept), i);
      if usable(xs[i]) {
        var y := build(xs[i]);
        if accept(y) {
          out := out + [y];
        }
      }
    }
    assert xs[..|xs|] == xs;
  }
}
