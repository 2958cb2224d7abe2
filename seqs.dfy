/** Sequence facts shared by the matcher, the classifier and the visible-list filter. */
module Seqs {

  /** `sub` can be obtained from `s` by deleting elements (keeping the order of the rest).
      Either `sub` is empty, or the first element of `s` is skipped, or it is used to
      match the first element of `sub`. */
  predicate IsSubsequence<T(==)>(sub: seq<T>, s: seq<T>)
    decreases |s|
  {
    sub == [] ||
    (s != [] && ((sub[0] == s[0] && IsSubsequence(sub[1..], s[1..])) || IsSubsequence(sub, s[1..])))
  }

  /** A subsequence is never longer than the sequence it is taken from. */
  lemma {:induction false} SubsequenceLength<T>(sub: seq<T>, s: seq<T>)
    requires IsSubsequence(sub, s)
    ensures |sub| <= |s|
    decreases |s|
  {
    if sub != [] {
      if sub[0] == s[0] && IsSubsequence(sub[1..], s[1..]) {
        SubsequenceLength(sub[1..], s[1..]);
      } else {
        SubsequenceLength(sub, s[1..]);
      }
    }
  }

  /** Dropping the first element of a subsequence keeps it a subsequence. */
  lemma {:induction false} DropFirstOfSubsequence<T>(sub: seq<T>, s: seq<T>)
    requires sub != [] && IsSubsequence(sub, s)
    ensures IsSubsequence(sub[1..], s)
    decreases |s|
  {
    if sub[0] == s[0] && IsSubsequence(sub[1..], s[1..]) {
      assert IsSubsequence(sub[1..], s);
    } else {
      DropFirstOfSubsequence(sub, s[1..]);
    }
  }

  /** Greedy step: when the heads agree, matching them loses nothing. This is what
      justifies a left-to-right scan that advances on every equal pair. */
  lemma GreedyStep<T>(sub: seq<T>, s: seq<T>)
    requires sub != [] && s != [] && sub[0] == s[0]
    ensures IsSubsequence(sub, s) <==> IsSubsequence(sub[1..], s[1..])
  {
    if IsSubsequence(sub, s[1..]) {
      DropFirstOfSubsequence(sub, s[1..]);
    }
  }

  /** Every prefix of a subsequence is a subsequence. */
  lemma {:induction false} PrefixOfSubsequence<T>(sub: seq<T>, s: seq<T>, k: nat)
    requires IsSubsequence(sub, s) && k <= |sub|
    ensures IsSubsequence(sub[..k], s)
    decreases |s|
  {
    if k == 0 {
      assert sub[..k] == [];
    } else if sub[0] == s[0] && IsSubsequence(sub[1..], s[1..]) {
      PrefixOfSubsequence(sub[1..], s[1..], k - 1);
      assert sub[..k][1..] == sub[1..][..k - 1];
    } else {
      PrefixOfSubsequence(sub, s[1..], k);
    }
  }

  /** Inserting an element anywhere into `s` keeps every subsequence of `s` a subsequence. */
  lemma {:induction false} InsertKeepsSubsequence<T>(sub: seq<T>, s: seq<T>, i: nat, x: T)
    requires IsSubsequence(sub, s) && i <= |s|
    ensures IsSubsequence(sub, s[..i] + [x] + s[i..])
    decreases |s|
  {
    var t := s[..i] + [x] + s[i..];
    if i == 0 {
      assert t[1..] == s;
    } else if sub != [] {
      assert t[0] == s[0];
      assert t[1..] == s[1..][..i - 1] + [x] + s[1..][i - 1..];
      if sub[0] == s[0] && IsSubsequence(sub[1..], s[1..]) {
        InsertKeepsSubsequence(sub[1..], s[1..], i - 1, x);
      } else {
        InsertKeepsSubsequence(sub, s[1..], i - 1, x);
      }
    }
  }

  /** The elements of `s` that satisfy `keep`, in their original order. */
  function Filter<T>(s: seq<T>, keep: T -> bool): seq<T> {
    if s == [] then []
    else (if keep(s[0]) then [s[0]] else []) + Filter(s[1..], keep)
  }

  /** The filter keeps exactly the elements that satisfy the predicate, and is no
      longer than its input. */
  lemma {:induction false} FilterMembers<T>(s: seq<T>, keep: T -> bool)
    ensures |Filter(s, keep)| <= |s|
    ensures forall k :: 0 <= k < |Filter(s, keep)| ==> Filter(s, keep)[k] in s && keep(Filter(s, keep)[k])
    ensures forall k :: 0 <= k < |s| && keep(s[k]) ==> s[k] in Filter(s, keep)
  {
    if s != [] {
      FilterMembers(s[1..], keep);
      var r, rest := Filter(s, keep), Filter(s[1..], keep);
      forall k | 0 <= k < |s| && keep(s[k]) ensures s[k] in r {
        if k > 0 {
          assert s[k] == s[1..][k - 1];
        }
      }
    }
  }

  /** Filtering keeps the original order: the result is a subsequence of the input. */
  lemma {:induction false} FilterIsSubsequence<T>(s: seq<T>, keep: T -> bool)
    ensures IsSubsequence(Filter(s, keep), s)
  {
    if s != [] {
      FilterIsSubsequence(s[1..], keep);
      var r := Filter(s, keep);
      if keep(s[0]) {
        assert r[0] == s[0] && r[1..] == Filter(s[1..], keep);
      } else {
        assert r == Filter(s[1..], keep);
      }
    }
  }

  lemma {:induction false} FilterPartitionLength<T>(s: seq<T>, keep: T -> bool, drop: T -> bool)
    requires forall x :: drop(x) == !keep(x)
    ensures |Filter(s, keep)| + |Filter(s, drop)| == |s|
  {
    if s != [] {
      FilterPartitionLength(s[1..], keep, drop);
    }
  }

  lemma {:induction false} FilterPartitionMultiset<T>(s: seq<T>, keep: T -> bool, drop: T -> bool)
    requires forall x :: drop(x) == !keep(x)
    ensures multiset(Filter(s, keep)) + multiset(Filter(s, drop)) == multiset(s)
  {
    if s != [] {
      var x, tail := s[0], s[1..];
      FilterPartitionMultiset(tail, keep, drop);
      assert s == [x] + tail;
      var a, b := Filter(tail, keep), Filter(tail, drop);
      var fk, fd := Filter(s, keep), Filter(s, drop);
      if keep(x) {
        assert fk == [x] + a && fd == b;
        assert multiset(fk) == multiset{x} + multiset(a);
      } else {
        assert !drop(x) == false;
        assert fk == a && fd == [x] + b;
        assert multiset(fd) == multiset{x} + multiset(b);
      }
      assert multiset(s) == multiset{x} + multiset(tail);
    }
  }

  /** Filtering with a predicate and with its negation splits `s` into two parts whose
      lengths add up to `|s|` and whose elements together are exactly those of `s`. */
  lemma FilterPartition<T>(s: seq<T>, keep: T -> bool, drop: T -> bool)
    requires forall x :: drop(x) == !keep(x)
    ensures |Filter(s, keep)| + |Filter(s, drop)| == |s|
    ensures multiset(Filter(s, keep)) + multiset(Filter(s, drop)) == multiset(s)
  {
    FilterPartitionLength(s, keep, drop);
    FilterPartitionMultiset(s, keep, drop);
  }

  /** The two parts of the split share no element. */
  lemma FilterPartitionDisjoint<T>(s: seq<T>, keep: T -> bool, drop: T -> bool)
    requires forall x :: drop(x) == !keep(x)
    ensures forall k :: 0 <= k < |Filter(s, keep)| ==> Filter(s, keep)[k] !in Filter(s, drop)
  {
    FilterMembers(s, keep);
    FilterMembers(s, drop);
  }

  /** Filters with predicates that agree on the elements of `s` give the same result. */
  lemma {:induction false} FilterExtensional<T>(s: seq<T>, f: T -> bool, g: T -> bool)
    requires forall x :: x in s ==> f(x) == g(x)
    ensures Filter(s, f) == Filter(s, g)
  {
    if s != [] {
      FilterExtensional(s[1..], f, g);
    }
  }
}
