/**
 * Order-preserving selection over sequences: the list comprehensions
 * `[x for x in s if p(x)]` and the "append when the test holds" loops of
 * the report builders all compute `Filter(p, s)`.
 */
module Seqs {
  import opened Wrappers

  /** The elements of `s` that satisfy `p`, in their original order. */
  function Filter<T(!new)>(p: T -> bool, s: seq<T>): (r: seq<T>)
    ensures |r| <= |s|
    decreases s
  {
    if s == [] then []
    else if p(s[0]) then [s[0]] + Filter(p, s[1..])
    else Filter(p, s[1..])
  }

  /** The selection holds exactly the elements of `s` that pass. */
  lemma {:induction false} FilterMembers<T(!new)>(p: T -> bool, s: seq<T>)
    ensures forall x :: x in Filter(p, s) <==> x in s && p(x)
    decreases s
  {
    if s != [] {
      FilterMembers(p, s[1..]);
    }
  }

  /** Filtering distributes over concatenation. */
  lemma {:induction false} FilterConcat<T(!new)>(p: T -> bool, a: seq<T>, b: seq<T>)
    ensures Filter(p, a + b) == Filter(p, a) + Filter(p, b)
    decreases a
  {
    if a == [] {
      assert a + b == b;
    } else {
      assert (a + b)[0] == a[0];
      assert (a + b)[1..] == a[1..] + b;
      FilterConcat(p, a[1..], b);
    }
  }

  lemma FilterOne<T(!new)>(p: T -> bool, x: T)
    ensures Filter(p, [x]) == if p(x) then [x] else []
  {
    assert [x][1..] == [];
  }

  /** Appending one element extends the selection by that element exactly when it passes. */
  lemma FilterSnoc<T(!new)>(p: T -> bool, s: seq<T>, x: T)
    ensures Filter(p, s + [x]) == Filter(p, s) + (if p(x) then [x] else [])
  {
    FilterConcat(p, s, [x]);
    assert Filter(p, [x]) == (if p(x) then [x] else []) by {
      assert [x][1..] == [];
    }
  }

  /** A selection is exactly the input when every element passes. */
  lemma {:induction false} FilterAll<T(!new)>(p: T -> bool, s: seq<T>)
    requires forall i :: 0 <= i < |s| ==> p(s[i])
    ensures Filter(p, s) == s
    decreases s
  {
    if s != [] {
      FilterAll(p, s[1..]);
    }
  }

  /** A selection is empty when no element passes. */
  lemma {:induction false} FilterNone<T(!new)>(p: T -> bool, s: seq<T>)
    requires forall i :: 0 <= i < |s| ==> !p(s[i])
    ensures Filter(p, s) == []
    decreases s
  {
    if s != [] {
      FilterNone(p, s[1..]);
    }
  }

  /**
   * Two tests that are complementary on a sequence split it without loss or duplication:
   * the two selections together hold every element with its multiplicity.
   */
  lemma {:induction false} FilterComplement<T(!new)>(p: T -> bool, q: T -> bool, s: seq<T>)
    requires forall i :: 0 <= i < |s| ==> q(s[i]) == !p(s[i])
    ensures |Filter(p, s)| + |Filter(q, s)| == |s|
    ensures multiset(Filter(p, s)) + multiset(Filter(q, s)) == multiset(s)
    decreases s
  {
    if s != [] {
      assert forall i :: 0 <= i < |s[1..]| ==> s[1..][i] == s[i + 1];
      FilterComplement(p, q, s[1..]);
      assert s == [s[0]] + s[1..];
    }
  }

  /** The index of the first element of `s` that satisfies `p`, if any. */
  function FirstIndex<T>(p: T -> bool, s: seq<T>): Option<nat>
    decreases |s|
  {
    if s == [] then None
    else
      match FirstIndex(p, s[..|s| - 1])
      case Some(h) => Some(h)
      case None => if p(s[|s| - 1]) then Some(|s| - 1) else None
  }

  /** `FirstIndex` finds the first element that passes, and finds none exactly when none passes. */
  lemma {:induction false} FirstIndexIsFirst<T>(p: T -> bool, s: seq<T>)
    ensures FirstIndex(p, s).Some? ==>
              var h := FirstIndex(p, s).value;
              h < |s| && p(s[h]) && forall j :: 0 <= j < h ==> !p(s[j])
    ensures FirstIndex(p, s).None? <==> forall j :: 0 <= j < |s| ==> !p(s[j])
    decreases |s|
  {
    if s != [] {
      var prefix := s[..|s| - 1];
      FirstIndexIsFirst(p, prefix);
      if FirstIndex(p, prefix).Some? {
        assert s[FirstIndex(p, prefix).value] == prefix[FirstIndex(p, prefix).value];
      } else {
        assert forall j :: 0 <= j < |prefix| ==> s[j] == prefix[j];
      }
    }
  }

  /** The last element of `s` that satisfies `p`, if any. */
  function LastWhere<T>(p: T -> bool, s: seq<T>): Option<T>
    decreases |s|
  {
    if s == [] then None
    else if p(s[|s| - 1]) then Some(s[|s| - 1])
    else LastWhere(p, s[..|s| - 1])
  }

  /**
   * `LastWhere` finds an element that passes with none passing after it, and
   * finds none exactly when none passes.
   */
  lemma {:induction false} LastWhereIsLast<T>(p: T -> bool, s: seq<T>)
    ensures LastWhere(p, s).None? <==> forall i :: 0 <= i < |s| ==> !p(s[i])
    ensures LastWhere(p, s).Some? ==>
              exists i :: 0 <= i < |s| && s[i] == LastWhere(p, s).value && p(s[i])
                          && forall j :: i < j < |s| ==> !p(s[j])
    decreases |s|
  {
    if s != [] {
      var n := |s| - 1;
      var prefix := s[..n];
      assert forall k :: 0 <= k < n ==> prefix[k] == s[k];
      LastWhereIsLast(p, prefix);
      if p(s[n]) {
        assert s[n] == LastWhere(p, s).value;
      } else if LastWhere(p, prefix).Some? {
        var i :| 0 <= i < n && prefix[i] == LastWhere(p, prefix).value && p(prefix[i])
                 && forall j :: i < j < n ==> !p(prefix[j]);
        assert forall j :: i < j < |s| ==> !p(s[j]);
      } else {
        assert forall i :: 0 <= i < |s| ==> !p(s[i]);
      }
    }
  }

  /** `[f(x) for x in s]`. */
  function Map<T, U>(f: T -> U, s: seq<T>): (r: seq<U>)
    ensures |r| == |s| && forall i :: 0 <= i < |s| ==> r[i] == f(s[i])
  {
    seq(|s|, i requires 0 <= i < |s| => f(s[i]))
  }

  lemma MapSnoc<T, U>(f: T -> U, s: seq<T>, x: T)
    ensures Map(f, s + [x]) == Map(f, s) + [f(x)]
  {
  }

  /**
   * A scan that waits for the first element passing `start` and from then on
   * collects `f(x)` for every element `x` passing `keep`.
   */
  datatype Collecting<U> = Collecting(started: bool, items: seq<U>)

  /** One turn of the scan. */
  function CollectStep<T, U>(start: T -> bool, keep: T -> bool, f: T -> U, st: Collecting<U>, x: T): Collecting<U> {
    if !st.started then Collecting(start(x), st.items)
    else if !keep(x) then st
    else Collecting(true, st.items + [f(x)])
  }

  /** The scan's state after it has consumed `s`. */
  function CollectScan<T, U>(start: T -> bool, keep: T -> bool, f: T -> U, s: seq<T>): Collecting<U>
    decreases |s|
  {
    if s == [] then Collecting(false, [])
    else CollectStep(start, keep, f, CollectScan(start, keep, f, s[..|s| - 1]), s[|s| - 1])
  }

  /** What the scan collects, stated directly: `f` of the kept elements after the first start element. */
  function CollectAfter<T(!new), U>(start: T -> bool, keep: T -> bool, f: T -> U, s: seq<T>): seq<U> {
    FirstIndexIsFirst(start, s);
    match FirstIndex(start, s)
    case None => []
    case Some(h) => Map(f, Filter(keep, s[h + 1..]))
  }

  /** The scan has started exactly when a start element was seen, and it has collected `CollectAfter`. */
  lemma {:induction false} CollectScanMeaning<T(!new), U>(start: T -> bool, keep: T -> bool, f: T -> U, s: seq<T>)
    ensures CollectScan(start, keep, f, s).started <==> FirstIndex(start, s).Some?
    ensures CollectScan(start, keep, f, s).items == CollectAfter(start, keep, f, s)
    decreases |s|
  {
    if s != [] {
      var prefix, x := s[..|s| - 1], s[|s| - 1];
      assert s == prefix + [x];
      CollectScanMeaning(start, keep, f, prefix);
      FirstIndexIsFirst(start, prefix);
      if FirstIndex(start, prefix).Some? {
        var h := FirstIndex(start, prefix).value;
        var before := prefix[h + 1..];
        assert s[h + 1..] == before + [x];
        FilterSnoc(keep, before, x);
        MapSnoc(f, Filter(keep, before), x);
      } else if start(x) {
        assert s[|s|..] == [];
      }
    }
  }

  /**
   * The elements up to and including the first start element contribute
   * nothing: only what follows it is collected.
   */
  lemma CollectAfterPreamble<T(!new), U>(start: T -> bool, keep: T -> bool, f: T -> U, pre: seq<T>, x: T, rest: seq<T>)
    requires forall j :: 0 <= j < |pre| ==> !start(pre[j])
    requires start(x)
    ensures CollectAfter(start, keep, f, pre + [x] + rest) == Map(f, Filter(keep, rest))
  {
    var s := pre + [x] + rest;
    FirstIndexIsFirst(start, s);
    assert s[|pre|] == x;
    assert forall j :: 0 <= j < |pre| ==> s[j] == pre[j];
    assert FirstIndex(start, s) == Some(|pre|);
    assert s[|pre| + 1..] == rest;
  }

  /** A start element followed by one kept element collects that element alone. */
  lemma CollectAfterPair<T(!new), U>(start: T -> bool, keep: T -> bool, f: T -> U, h: T, x: T)
    requires start(h) && keep(x)
    ensures CollectAfter(start, keep, f, [h, x]) == [f(x)]
  {
    CollectAfterPreamble(start, keep, f, [], h, [x]);
    assert [] + [h] + [x] == [h, x];
    FilterOne(keep, x);
  }

  /** Nothing is collected when no element passes `start`. */
  lemma CollectAfterNoStart<T(!new), U>(start: T -> bool, keep: T -> bool, f: T -> U, s: seq<T>)
    requires forall j :: 0 <= j < |s| ==> !start(s[j])
    ensures CollectAfter(start, keep, f, s) == []
  {
    FirstIndexIsFirst(start, s);
  }

  /** The last two pieces of `front + (x + y)`, read from the end. */
  lemma SuffixPieces<T>(front: seq<T>, x: seq<T>, y: seq<T>)
    ensures var r := front + (x + y);
            && |r| == |front| + |x| + |y|
            && r[|r| - |y|..] == y
            && r[|r| - |y| - |x|..|r| - |y|] == x
  {
    var r := front + (x + y);
    assert r[|front|..] == x + y;
  }

  /** Where each of five concatenated pieces sits in the whole. */
  lemma ConcatPieces<T>(a: seq<T>, b: seq<T>, c: seq<T>, d: seq<T>, e: seq<T>)
    ensures var r := a + b + c + d + e;
            && |r| == |a| + |b| + |c| + |d| + |e|
            && r[..|a|] == a
            && r[|a|..|a| + |b|] == b
            && r[|a| + |b|..|a| + |b| + |c|] == c
            && r[|a| + |b| + |c|..|a| + |b| + |c| + |d|] == d
            && r[|r| - |e|..] == e
  {
    var r := a + b + c + d + e;
    assert r == (a + b + c + d) + e;
    assert r[..|a| + |b| + |c| + |d|] == a + b + c + d;
    assert (a + b + c + d)[..|a| + |b| + |c|] == a + b + c;
    assert (a + b + c)[..|a| + |b|] == a + b;
  }

  /** Dropping the first element of five concatenated pieces drops it from the first piece. */
  lemma TailOfPieces<T>(a: seq<T>, b: seq<T>, c: seq<T>, d: seq<T>, e: seq<T>)
    requires a != []
    ensures (a + b + c + d + e)[1..] == a[1..] + b + c + d + e
  {
    assert a + b + c + d + e == [a[0]] + (a[1..] + b + c + d + e);
  }

  /** A slice of a slice is a slice of the whole. */
  lemma SliceOfSlice<T>(r: seq<T>, i: nat, j: nat, k: nat, l: nat)
    requires i <= j <= |r| && k <= l <= j - i
    ensures r[i..j][k..l] == r[i + k..i + l]
  {
    var w := r[i..j];
    forall n | 0 <= n < l - k
      ensures w[k..l][n] == r[i + k..i + l][n]
    {
      assert w[k..l][n] == w[k + n] == r[i + k + n];
    }
  }
}
