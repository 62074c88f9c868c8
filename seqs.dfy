/** Sequence helpers shared by the data tables: `Array.prototype.filter`
    and the facts about it that the components rely on. */
module Seqs {

  /** `xs.filter(p)`: the elements satisfying `p`, in their original order. */
  function Filter<T>(xs: seq<T>, p: T -> bool): (r: seq<T>)
    ensures |r| <= |xs|
    decreases |xs|
  {
    if xs == [] then []
    else if p(xs[0]) then [xs[0]] + Filter(xs[1..], p)
    else Filter(xs[1..], p)
  }

  /** An element is kept exactly when it occurs in the input and satisfies `p`. */
  lemma {:induction false} FilterMembership<T>(xs: seq<T>, p: T -> bool, x: T)
    ensures x in Filter(xs, p) <==> x in xs && p(x)
    decreases |xs|
  {
    if xs != [] {
      FilterMembership(xs[1..], p, x);
      assert xs == [xs[0]] + xs[1..];
    }
  }

  /** `sub` can be obtained from `xs` by deleting elements. */
  predicate IsSubsequence<T(==)>(sub: seq<T>, xs: seq<T>)
    decreases |xs|
  {
    if sub == [] then true
    else if xs == [] then false
    else if sub[0] == xs[0] then IsSubsequence(sub[1..], xs[1..])
    else IsSubsequence(sub, xs[1..])
  }

  /** Filtering keeps the order of the table: the result is a subsequence. */
  lemma {:induction false} FilterIsSubsequence<T>(xs: seq<T>, p: T -> bool)
    ensures IsSubsequence(Filter(xs, p), xs)
    decreases |xs|
  {
    if xs != [] {
      FilterIsSubsequence(xs[1..], p);
      if p(xs[0]) {
        assert Filter(xs, p) == [xs[0]] + Filter(xs[1..], p);
        assert Filter(xs, p)[1..] == Filter(xs[1..], p);
      } else {
        SubsequenceSkipHead(Filter(xs[1..], p), xs);
      }
    }
  }

  /** A subsequence of the tail is a subsequence of the whole. */
  lemma {:induction false} SubsequenceSkipHead<T>(sub: seq<T>, xs: seq<T>)
    requires xs != [] && IsSubsequence(sub, xs[1..])
    ensures IsSubsequence(sub, xs)
    decreases |xs|, 0
  {
    if sub != [] && sub[0] == xs[0] {
      SubsequenceDropHead(sub, xs[1..]);
    }
  }

  /** Dropping the first element of a subsequence keeps it a subsequence. */
  lemma {:induction false} SubsequenceDropHead<T>(sub: seq<T>, xs: seq<T>)
    requires sub != [] && IsSubsequence(sub, xs)
    ensures IsSubsequence(sub[1..], xs)
    decreases |xs|, 1
  {
    if sub[0] == xs[0] {
      SubsequenceSkipHead(sub[1..], xs);
    } else {
      SubsequenceDropHead(sub, xs[1..]);
      SubsequenceSkipHead(sub[1..], xs);
    }
  }

  /** Filtering distributes over concatenation. */
  lemma {:induction false} FilterAppend<T>(xs: seq<T>, ys: seq<T>, p: T -> bool)
    ensures Filter(xs + ys, p) == Filter(xs, p) + Filter(ys, p)
    decreases |xs|
  {
    if xs == [] {
      assert xs + ys == ys;
    } else {
      assert (xs + ys)[0] == xs[0];
      assert (xs + ys)[1..] == xs[1..] + ys;
      FilterAppend(xs[1..], ys, p);
    }
  }

  /** A block whose elements all satisfy `p` survives unchanged, and a block
      with none disappears. */
  lemma {:induction false} FilterBlock<T>(xs: seq<T>, p: T -> bool, keep: bool)
    requires forall i :: 0 <= i < |xs| ==> p(xs[i]) == keep
    ensures Filter(xs, p) == if keep then xs else []
    decreases |xs|
  {
    if xs != [] {
      FilterBlock(xs[1..], p, keep);
    }
  }

  /** The groups of `gs` laid end to end. */
  function Concat<T>(gs: seq<seq<T>>): (r: seq<T>)
    ensures gs != [] ==> |r| >= |gs[0]|
    decreases |gs|
  {
    if gs == [] then [] else gs[0] + Concat(gs[1..])
  }

  /** Filtering a concatenation of groups that all fail `p` leaves nothing. */
  lemma {:induction false} FilterConcatNone<T>(gs: seq<seq<T>>, p: T -> bool)
    requires forall k, i :: 0 <= k < |gs| && 0 <= i < |gs[k]| ==> !p(gs[k][i])
    ensures Filter(Concat(gs), p) == []
    decreases |gs|
  {
    if gs != [] {
      FilterBlock(gs[0], p, false);
      FilterConcatNone(gs[1..], p);
      FilterAppend(gs[0], Concat(gs[1..]), p);
    }
  }

  /** When exactly group `j` satisfies `p` and every other group fails it,
      filtering the concatenation yields group `j`. */
  lemma {:induction false} FilterConcatOne<T>(gs: seq<seq<T>>, p: T -> bool, j: nat)
    requires j < |gs|
    requires forall k, i :: 0 <= k < |gs| && 0 <= i < |gs[k]| ==> (p(gs[k][i]) <==> k == j)
    ensures Filter(Concat(gs), p) == gs[j]
    decreases |gs|
  {
    FilterAppend(gs[0], Concat(gs[1..]), p);
    if j == 0 {
      FilterBlock(gs[0], p, true);
      FilterConcatNone(gs[1..], p);
    } else {
      FilterBlock(gs[0], p, false);
      FilterConcatOne(gs[1..], p, j - 1);
    }
  }

  /** Group by group, `rank` numbers the elements of `gs` consecutively
      from `base`. */
  ghost predicate RankedFrom<T>(gs: seq<seq<T>>, rank: T -> int, base: int)
    decreases |gs|
  {
    gs == [] ||
    ((forall i :: 0 <= i < |gs[0]| ==> rank(gs[0][i]) == base + i)
     && RankedFrom(gs[1..], rank, base + |gs[0]|))
  }

  /** Prepending a group numbered from `base` to groups numbered from
      where it ends keeps the numbering consecutive. */
  lemma RankedCons<T>(g: seq<T>, gs: seq<seq<T>>, rank: T -> int, base: int)
    requires forall i :: 0 <= i < |g| ==> rank(g[i]) == base + i
    requires RankedFrom(gs, rank, base + |g|)
    ensures RankedFrom([g] + gs, rank, base)
  {
    assert ([g] + gs)[0] == g;
    assert ([g] + gs)[1..] == gs;
  }

  /** Laying a group in front adds its length. */
  lemma ConcatCons<T>(g: seq<T>, gs: seq<seq<T>>)
    ensures Concat([g] + gs) == g + Concat(gs)
  {
    assert ([g] + gs)[0] == g;
    assert ([g] + gs)[1..] == gs;
  }

  /** A consecutive numbering of the groups numbers their concatenation by
      position. */
  lemma {:induction false} RankedConcat<T>(gs: seq<seq<T>>, rank: T -> int, base: int)
    requires RankedFrom(gs, rank, base)
    ensures forall i :: 0 <= i < |Concat(gs)| ==> rank(Concat(gs)[i]) == base + i
    decreases |gs|
  {
    if gs != [] {
      RankedConcat(gs[1..], rank, base + |gs[0]|);
      var r := Concat(gs);
      forall i | 0 <= i < |r| ensures rank(r[i]) == base + i {
        if i >= |gs[0]| {
          assert r[i] == Concat(gs[1..])[i - |gs[0]|];
        }
      }
    }
  }

  /** Number of elements satisfying `p`. */
  function Count<T>(xs: seq<T>, p: T -> bool): nat
    decreases |xs|
  {
    if xs == [] then 0 else (if p(xs[0]) then 1 else 0) + Count(xs[1..], p)
  }

  /** No two positions hold the same value. */
  predicate Distinct<T(==)>(xs: seq<T>) {
    forall i, j :: 0 <= i < j < |xs| ==> xs[i] != xs[j]
  }
}
