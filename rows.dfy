/** Lists of fetched rows: `Array.prototype.filter` with a callback that may
    throw, order-preserving subsequences, and `[...new Set(xs)]`. */
module Rows {
  import opened Js

  /** `r` is obtained from `xs` by deleting elements, keeping the order. */
  predicate Subsequence<T(==)>(r: seq<T>, xs: seq<T>)
    decreases |xs|
  {
    if r == [] then true
    else if xs == [] then false
    else if r[0] == xs[0] then Subsequence(r[1..], xs[1..])
    else Subsequence(r, xs[1..])
  }

  lemma {:induction false} SubsequenceMembers<T>(r: seq<T>, xs: seq<T>)
    requires Subsequence(r, xs)
    ensures |r| <= |xs|
    ensures forall x :: x in r ==> x in xs
    decreases |xs|
  {
    if r != [] {
      if r[0] == xs[0] {
        SubsequenceMembers(r[1..], xs[1..]);
        assert forall x :: x in r ==> x == r[0] || x in r[1..];
      } else {
        SubsequenceMembers(r, xs[1..]);
      }
    }
  }

  /** The elements `x` of `xs` whose callback `p(ctx, x)` returned true, in
      order: what `filter` returns when no callback throws. */
  function Kept<C, T>(xs: seq<T>, ctx: C, p: (C, T) -> Option<bool>): seq<T>
    decreases |xs|
  {
    if xs == [] then []
    else if p(ctx, xs[0]) == Some(true) then [xs[0]] + Kept(xs[1..], ctx, p)
    else Kept(xs[1..], ctx, p)
  }

  /** `xs.filter(x => p(ctx, x))`; `None` when some callback throws. */
  function FilterOrThrow<C, T>(xs: seq<T>, ctx: C, p: (C, T) -> Option<bool>): Option<seq<T>>
    decreases |xs|
  {
    if xs == [] then Some([])
    else match p(ctx, xs[0])
      case None => None
      case Some(keep) =>
        match FilterOrThrow(xs[1..], ctx, p)
        case None => None
        case Some(rest) => Some(if keep then [xs[0]] + rest else rest)
  }

  /** The filter throws exactly when the callback throws for some row, and
      otherwise returns the rows the callback accepts. */
  lemma {:induction false} FilterOrThrowSpec<C, T>(xs: seq<T>, ctx: C, p: (C, T) -> Option<bool>)
    ensures FilterOrThrow(xs, ctx, p).None? <==> exists i :: 0 <= i < |xs| && p(ctx, xs[i]).None?
    ensures FilterOrThrow(xs, ctx, p).Some? ==> FilterOrThrow(xs, ctx, p).value == Kept(xs, ctx, p)
    decreases |xs|
  {
    if xs != [] {
      FilterOrThrowSpec(xs[1..], ctx, p);
      assert forall i :: 1 <= i < |xs| ==> xs[1..][i - 1] == xs[i];
    }
  }

  /** What `filter` keeps is an order-preserving subsequence whose members are
      exactly the rows the callback accepts. */
  lemma {:induction false} KeptSpec<C, T>(xs: seq<T>, ctx: C, p: (C, T) -> Option<bool>)
    ensures Subsequence(Kept(xs, ctx, p), xs)
    ensures forall x :: x in Kept(xs, ctx, p) <==> x in xs && p(ctx, x) == Some(true)
    decreases |xs|
  {
    if xs != [] {
      KeptSpec(xs[1..], ctx, p);
      assert forall x :: x in xs <==> x == xs[0] || x in xs[1..];
      if p(ctx, xs[0]) == Some(true) {
        assert ([xs[0]] + Kept(xs[1..], ctx, p))[1..] == Kept(xs[1..], ctx, p);
      } else {
        SkipHead(Kept(xs[1..], ctx, p), xs);
      }
    }
  }

  /** `filter` keeps every copy of an accepted row and no copy of another:
      with the order `KeptSpec` states, this fixes the result. */
  lemma {:induction false} KeptMultiplicity<C, T>(xs: seq<T>, ctx: C, p: (C, T) -> Option<bool>)
    ensures forall x :: multiset(Kept(xs, ctx, p))[x] == if p(ctx, x) == Some(true) then multiset(xs)[x] else 0
    decreases |xs|
  {
    if xs != [] {
      KeptMultiplicity(xs[1..], ctx, p);
      assert xs == [xs[0]] + xs[1..];
    }
  }

  lemma {:induction false} SkipHead<T>(r: seq<T>, xs: seq<T>)
    requires xs != [] && Subsequence(r, xs[1..])
    ensures Subsequence(r, xs)
    decreases |xs|, 0
  {
    if r != [] && r[0] == xs[0] {
      DropFirst(r, xs[1..]);
    }
  }

  lemma {:induction false} DropFirst<T>(r: seq<T>, ys: seq<T>)
    requires r != [] && Subsequence(r, ys)
    ensures Subsequence(r[1..], ys)
    decreases |ys|, 1
  {
    if r[0] == ys[0] {
      SkipHead(r[1..], ys);
    } else {
      DropFirst(r, ys[1..]);
      SkipHead(r[1..], ys);
    }
  }

  /** Filtering what a filter kept, with the same callback, changes nothing. */
  lemma {:induction false} KeptIdempotent<C, T>(xs: seq<T>, ctx: C, p: (C, T) -> Option<bool>)
    ensures Kept(Kept(xs, ctx, p), ctx, p) == Kept(xs, ctx, p)
    decreases |xs|
  {
    if xs != [] {
      KeptIdempotent(xs[1..], ctx, p);
      if p(ctx, xs[0]) == Some(true) {
        assert ([xs[0]] + Kept(xs[1..], ctx, p))[1..] == Kept(xs[1..], ctx, p);
      }
    }
  }

  /** When the callback accepts every row, `filter` returns its input. */
  lemma {:induction false} KeptAll<C, T>(xs: seq<T>, ctx: C, p: (C, T) -> Option<bool>)
    requires forall i :: 0 <= i < |xs| ==> p(ctx, xs[i]) == Some(true)
    ensures FilterOrThrow(xs, ctx, p) == Some(xs)
    decreases |xs|
  {
    if xs != [] {
      assert forall i :: 1 <= i < |xs| ==> xs[1..][i - 1] == xs[i];
      KeptAll(xs[1..], ctx, p);
      assert [xs[0]] + xs[1..] == xs;
    }
  }

  // ---------------------------------------------------------------- de-duplication

  /** No value occurs twice. */
  predicate NoDuplicates<T(==)>(xs: seq<T>) {
    forall i, j :: 0 <= i < j < |xs| ==> xs[i] != xs[j]
  }

  /** The position of the first occurrence of `x` in `xs`. */
  function FirstIndex<T(==)>(xs: seq<T>, x: T): (k: nat)
    requires x in xs
    ensures k < |xs| && xs[k] == x
    ensures forall j :: 0 <= j < k ==> xs[j] != x
    decreases |xs|
  {
    if xs[0] == x then 0 else 1 + FirstIndex(xs[1..], x)
  }

  /** `[...new Set(xs)]`: a Set keeps its values in first-insertion order. */
  function Unique<T(==)>(xs: seq<T>): seq<T>
    decreases |xs|
  {
    if xs == [] then []
    else
      var r := Unique(xs[..|xs| - 1]);
      if xs[|xs| - 1] in r then r else r + [xs[|xs| - 1]]
  }

  /** The unique list holds every input value exactly once, and lists the
      values in the order of their first occurrence in the input. */
  lemma {:induction false} UniqueSpec<T>(xs: seq<T>)
    ensures NoDuplicates(Unique(xs))
    ensures forall x :: x in Unique(xs) <==> x in xs
    ensures forall i, j :: 0 <= i < j < |Unique(xs)| ==>
              FirstIndex(xs, Unique(xs)[i]) < FirstIndex(xs, Unique(xs)[j])
    decreases |xs|
  {
    if xs != [] {
      var init := xs[..|xs| - 1];
      var last := xs[|xs| - 1];
      UniqueSpec(init);
      var r := Unique(init);
      assert forall x :: x in xs <==> x in init || x == last by {
        assert xs == init + [last];
      }
      forall x | x in init
        ensures FirstIndex(xs, x) == FirstIndex(init, x)
      {
        FirstIndexPrefix(init, last, x);
        assert xs == init + [last];
      }
      if last !in r {
        assert FirstIndex(xs, last) == |init| by {
          assert xs == init + [last];
          FirstIndexLast(init, last);
        }
        forall i | 0 <= i < |r|
          ensures FirstIndex(xs, r[i]) < |init|
        {
          assert r[i] in r;
        }
      }
    }
  }

  lemma {:induction false} FirstIndexPrefix<T>(init: seq<T>, last: T, x: T)
    requires x in init
    ensures FirstIndex(init + [last], x) == FirstIndex(init, x)
    decreases |init|
  {
    if init[0] != x {
      assert (init + [last])[1..] == init[1..] + [last];
      FirstIndexPrefix(init[1..], last, x);
    }
  }

  lemma {:induction false} FirstIndexLast<T>(init: seq<T>, last: T)
    requires last !in init
    ensures FirstIndex(init + [last], last) == |init|
    decreases |init|
  {
    if init != [] {
      assert (init + [last])[1..] == init[1..] + [last];
      FirstIndexLast(init[1..], last);
    }
  }
}
