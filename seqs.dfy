/** Sequence helpers that model Python list operations used by the game. */
module Seqs {

  /** No element occurs twice. */
  predicate NoDuplicates<T(==)>(s: seq<T>) {
    forall i, j :: 0 <= i < j < |s| ==> s[i] != s[j]
  }

  /** Two duplicate-free sequences with no element in common concatenate without duplicates. */
  lemma AppendDisjoint<T>(a: seq<T>, b: seq<T>)
    requires NoDuplicates(a) && NoDuplicates(b)
    requires forall x :: x in b ==> x !in a
    ensures NoDuplicates(a + b)
  {
    forall i, j | 0 <= i < j < |a + b|
      ensures (a + b)[i] != (a + b)[j]
    {
      if i < |a| <= j {
        assert (a + b)[j] == b[j - |a|] && b[j - |a|] in b;
      }
    }
  }

  /** Cutting a repeat-free list in two gives a repeat-free front that shares nothing with the back. */
  lemma SplitApart<T>(q: seq<T>, b: nat)
    requires NoDuplicates(q) && b <= |q|
    ensures NoDuplicates(q[..b])
    ensures forall x :: x in q[..b] ==> x in q
    ensures forall x :: x in q[b..] ==> x in q && x !in q[..b]
  {
    forall x | x in q[b..]
      ensures x in q && x !in q[..b]
    {
      var k :| b <= k < |q| && q[k] == x;
      assert q[b..][k - b] == x;
    }
  }

  /** Python's `list.index`, with -1 in place of the ValueError for a missing element. */
  function IndexOf<T(==)>(s: seq<T>, x: T): (i: int)
    ensures -1 <= i < |s|
    ensures i == -1 <==> x !in s
    ensures 0 <= i ==> s[i] == x && forall j :: 0 <= j < i ==> s[j] != x
  {
    if s == [] then -1
    else if s[0] == x then 0
    else
      var k := IndexOf(s[1..], x);
      assert x in s <==> x in s[1..] by { assert s == [s[0]] + s[1..]; }
      if k == -1 then -1 else k + 1
  }

  /** Python's guarded `if x in s: s.remove(x)`: drop the first occurrence, or nothing. */
  function RemoveFirst<T(==)>(s: seq<T>, x: T): (r: seq<T>)
    ensures x !in s ==> r == s
    ensures |r| == if x in s then |s| - 1 else |s|
  {
    if s == [] then []
    else
      assert s == [s[0]] + s[1..];
      if s[0] == x then s[1..]
      else [s[0]] + RemoveFirst(s[1..], x)
  }

  lemma {:induction false} RemoveFirstMultiset<T>(s: seq<T>, x: T)
    ensures multiset(RemoveFirst(s, x)) == multiset(s) - multiset{x}
  {
    if s != [] {
      assert s == [s[0]] + s[1..];
      if s[0] != x {
        RemoveFirstMultiset(s[1..], x);
      }
    }
  }

  /** The occurrence removed is the first one, and every other element keeps its order. */
  lemma RemoveFirstAfterPrefix<T>(a: seq<T>, x: T, b: seq<T>)
    requires x !in a
    ensures RemoveFirst(a + [x] + b, x) == a + b
  {
    var s := a + [x] + b;
    forall j | 0 <= j < |a| ensures s[j] != x { assert s[j] == a[j]; }
    RemoveFirstAt(s, x, |a|);
    assert s[..|a|] == a && s[|a| + 1..] == b;
  }

  /** Removing `x` when its first occurrence is at `i` leaves the elements before and after `i`. */
  lemma {:induction false} RemoveFirstAt<T>(s: seq<T>, x: T, i: nat)
    requires i < |s| && s[i] == x
    requires forall j :: 0 <= j < i ==> s[j] != x
    ensures RemoveFirst(s, x) == s[..i] + s[i + 1..]
  {
    if i == 0 {
      assert s[..0] + s[1..] == s[1..];
    } else {
      var t := s[1..];
      RemoveFirstAt(t, x, i - 1);
      assert s[..i] + s[i + 1..] == [s[0]] + (t[..i - 1] + t[i..]);
    }
  }

  lemma {:induction false} RemoveFirstKeepsNoDuplicates<T>(s: seq<T>, x: T)
    requires NoDuplicates(s)
    ensures NoDuplicates(RemoveFirst(s, x))
    ensures x !in RemoveFirst(s, x)
  {
    if s != [] && s[0] != x {
      RemoveFirstKeepsNoDuplicates(s[1..], x);
      var t := RemoveFirst(s[1..], x);
      assert s[0] !in s[1..] by {
        forall k | 0 <= k < |s| - 1 ensures s[1..][k] != s[0] {
          assert s[1..][k] == s[k + 1];
        }
      }
      RemoveFirstMultiset(s[1..], x);
      assert multiset(t)[s[0]] <= multiset(s[1..])[s[0]] == 0;
      assert s[0] !in t;
    }
  }

  /** In a list without repeats, removing `y` keeps exactly the other elements. */
  lemma RemoveFirstMembers<T>(s: seq<T>, y: T)
    requires NoDuplicates(s)
    ensures NoDuplicates(RemoveFirst(s, y))
    ensures forall x :: x in RemoveFirst(s, y) <==> x in s && x != y
  {
    RemoveFirstKeepsNoDuplicates(s, y);
    RemoveFirstMultiset(s, y);
    forall x | x != y
      ensures x in RemoveFirst(s, y) <==> x in s
    {
      assert multiset(RemoveFirst(s, y))[x] == multiset(s)[x];
    }
  }

  /** Removing `ds[0]`, then `ds[1]`, ... up to `ds[n - 1]`, each by its first occurrence if present. */
  function RemoveEachPrefix<T(==)>(s: seq<T>, ds: seq<T>, n: nat): seq<T>
    requires n <= |ds|
  {
    if n == 0 then s else RemoveFirst(RemoveEachPrefix(s, ds, n - 1), ds[n - 1])
  }

  /** Removing each element of `ds` in turn, as guarded `list.remove` calls would. */
  function RemoveEach<T(==)>(s: seq<T>, ds: seq<T>): seq<T> {
    RemoveEachPrefix(s, ds, |ds|)
  }

  /**
   * From a list without repeats, removing the first `n` elements of `ds`
   * keeps exactly the elements not among them, without repeats.
   */
  lemma {:induction false} RemoveEachPrefixMembers<T>(s: seq<T>, ds: seq<T>, n: nat)
    requires NoDuplicates(s) && n <= |ds|
    ensures NoDuplicates(RemoveEachPrefix(s, ds, n))
    ensures forall x :: x in RemoveEachPrefix(s, ds, n) <==> x in s && x !in ds[..n]
  {
    if n > 0 {
      RemoveEachPrefixMembers(s, ds, n - 1);
      RemoveFirstMembers(RemoveEachPrefix(s, ds, n - 1), ds[n - 1]);
      assert ds[..n] == ds[..n - 1] + [ds[n - 1]];
    }
  }

  /** From a list without repeats, `RemoveEach` keeps exactly the elements not in `ds`. */
  lemma RemoveEachMembers<T>(s: seq<T>, ds: seq<T>)
    requires NoDuplicates(s)
    ensures NoDuplicates(RemoveEach(s, ds))
    ensures forall x :: x in RemoveEach(s, ds) <==> x in s && x !in ds
  {
    RemoveEachPrefixMembers(s, ds, |ds|);
    assert ds[..|ds|] == ds;
  }

  /** The elements among the first `n` of `s` that belong to `keep`, in their order in `s`. */
  function FilterPrefix<T>(s: seq<T>, keep: set<T>, n: nat): seq<T>
    requires n <= |s|
  {
    if n == 0 then [] else FilterPrefix(s, keep, n - 1) + (if s[n - 1] in keep then [s[n - 1]] else [])
  }

  /** The elements of `s` that belong to `keep`, in their order in `s`. */
  function Filter<T>(s: seq<T>, keep: set<T>): seq<T> {
    FilterPrefix(s, keep, |s|)
  }

  /**
   * The filtered prefix holds exactly the kept elements of that prefix, is no
   * longer than it, and has no repeats when `s` has none.
   */
  lemma {:induction false} FilterPrefixKeepsExactly<T>(s: seq<T>, keep: set<T>, n: nat)
    requires n <= |s|
    ensures forall x :: x in FilterPrefix(s, keep, n) <==> x in s[..n] && x in keep
    ensures |FilterPrefix(s, keep, n)| <= n
    ensures NoDuplicates(s) ==> NoDuplicates(FilterPrefix(s, keep, n))
  {
    if n > 0 {
      FilterPrefixKeepsExactly(s, keep, n - 1);
      assert s[..n] == s[..n - 1] + [s[n - 1]];
      if NoDuplicates(s) {
        NotInPrefix(s, n - 1);
      }
    }
  }

  /** Filtering keeps exactly the members of `keep`, never grows, and adds no repeats. */
  lemma FilterKeepsExactly<T>(s: seq<T>, keep: set<T>)
    ensures forall x :: x in Filter(s, keep) <==> x in s && x in keep
    ensures |Filter(s, keep)| <= |s|
    ensures NoDuplicates(s) ==> NoDuplicates(Filter(s, keep))
  {
    FilterPrefixKeepsExactly(s, keep, |s|);
    assert s[..|s|] == s;
  }

  /** With no repeats, the element at `i` does not occur before `i`. */
  lemma NotInPrefix<T>(s: seq<T>, i: int)
    requires NoDuplicates(s) && 0 <= i < |s|
    ensures s[i] !in s[..i]
  {
    forall j | 0 <= j < i ensures s[..i][j] != s[i] {
      assert s[..i][j] == s[j];
    }
  }

  /** Splitting a repeat-free sequence around index `i`. */
  lemma SplitAt<T>(s: seq<T>, i: int)
    requires NoDuplicates(s) && 0 <= i < |s|
    ensures s[..i + 1] == s[..i] + [s[i]] && s[i..] == [s[i]] + s[i + 1..]
    ensures s[i] !in s[..i] && s[i] !in s[i + 1..]
  {
    NotInPrefix(s, i);
    var rest := s[i + 1..];
    forall k | 0 <= k < |rest| ensures rest[k] != s[i] {
      assert rest[k] == s[i + 1 + k];
    }
  }

  /**
   * One step of a scan that removes the rejected elements from a list while
   * walking over a copy of it: with the first `i` elements already filtered,
   * the element at `i` stays if kept and is removed by its first occurrence
   * otherwise.
   */
  lemma FilterScanStep<T>(s: seq<T>, keep: set<T>, i: nat, current: seq<T>)
    requires i < |s|
    requires current == FilterPrefix(s, keep, i) + s[i..]
    ensures s[i] in keep ==> current == FilterPrefix(s, keep, i + 1) + s[i + 1..]
    ensures s[i] !in keep ==> RemoveFirst(current, s[i]) == FilterPrefix(s, keep, i + 1) + s[i + 1..]
  {
    var kept := FilterPrefix(s, keep, i);
    FilterPrefixKeepsExactly(s, keep, i);
    assert s[i..] == [s[i]] + s[i + 1..];
    assert current == kept + [s[i]] + s[i + 1..];
    if s[i] !in keep {
      assert FilterPrefix(s, keep, i + 1) == kept;
      RemoveFirstAfterPrefix(kept, s[i], s[i + 1..]);
    }
  }

  /** The elements among the first `n` of `s` whose flag is false, in order. */
  function UnflaggedPrefix<T>(s: seq<T>, flags: seq<bool>, n: nat): (r: seq<T>)
    requires |flags| == |s| && n <= |s|
    ensures |r| <= n
  {
    if n == 0 then [] else UnflaggedPrefix(s, flags, n - 1) + (if flags[n - 1] then [] else [s[n - 1]])
  }

  /** The elements of `s` whose flag is false, in order. */
  function Unflagged<T>(s: seq<T>, flags: seq<bool>): (r: seq<T>)
    requires |flags| == |s|
    ensures |r| <= |s|
  {
    UnflaggedPrefix(s, flags, |s|)
  }

  /** The elements among the first `n` of `s` whose flag is set, in order. */
  function FlaggedPrefix<T>(s: seq<T>, flags: seq<bool>, n: nat): seq<T>
    requires |flags| == |s| && n <= |s|
  {
    if n == 0 then [] else FlaggedPrefix(s, flags, n - 1) + (if flags[n - 1] then [s[n - 1]] else [])
  }

  /** The elements of `s` whose flag is set, in their order in `s`. */
  function Flagged<T>(s: seq<T>, flags: seq<bool>): seq<T>
    requires |flags| == |s|
  {
    FlaggedPrefix(s, flags, |s|)
  }

  /** The unflagged prefix holds exactly the elements of `s[..n]` with a false flag. */
  lemma {:induction false} UnflaggedPrefixMembers<T>(s: seq<T>, flags: seq<bool>, n: nat)
    requires |flags| == |s| && n <= |s|
    ensures forall x :: x in UnflaggedPrefix(s, flags, n) ==> x in s[..n]
    ensures forall k :: 0 <= k < n && !flags[k] ==> s[k] in UnflaggedPrefix(s, flags, n)
  {
    if n > 0 {
      UnflaggedPrefixMembers(s, flags, n - 1);
      assert s[..n] == s[..n - 1] + [s[n - 1]];
    }
  }

  /**
   * From a list without repeats, the unflagged prefix has no repeats and
   * holds no flagged element and none from index `n` on.
   */
  lemma {:induction false} UnflaggedPrefixDistinct<T>(s: seq<T>, flags: seq<bool>, n: nat)
    requires |flags| == |s| && n <= |s| && NoDuplicates(s)
    ensures NoDuplicates(UnflaggedPrefix(s, flags, n))
    ensures forall k :: 0 <= k < |s| && (flags[k] || n <= k) ==> s[k] !in UnflaggedPrefix(s, flags, n)
  {
    if n > 0 {
      UnflaggedPrefixDistinct(s, flags, n - 1);
    }
  }

  /** Unflagged elements are exactly those of `s` with a false flag; no repeats appear. */
  lemma UnflaggedKeeps<T>(s: seq<T>, flags: seq<bool>)
    requires |flags| == |s|
    ensures forall x :: x in Unflagged(s, flags) ==> x in s
    ensures forall k :: 0 <= k < |s| && !flags[k] ==> s[k] in Unflagged(s, flags)
    ensures NoDuplicates(s) ==> NoDuplicates(Unflagged(s, flags)) && forall k :: 0 <= k < |s| && flags[k] ==> s[k] !in Unflagged(s, flags)
    ensures |Unflagged(s, flags)| <= |s|
  {
    UnflaggedPrefixMembers(s, flags, |s|);
    if NoDuplicates(s) {
      UnflaggedPrefixDistinct(s, flags, |s|);
    }
    assert s[..|s|] == s;
  }

  /**
   * One step of a scan that walks over a copy of a repeat-free list and
   * removes the flagged elements from the list itself.
   */
  lemma UnflaggedStep<T>(s: seq<T>, flags: seq<bool>, i: nat, current: seq<T>)
    requires NoDuplicates(s) && i < |s| && |flags| == |s|
    requires current == UnflaggedPrefix(s, flags, i) + s[i..]
    ensures !flags[i] ==> current == UnflaggedPrefix(s, flags, i + 1) + s[i + 1..]
    ensures flags[i] ==> RemoveFirst(current, s[i]) == UnflaggedPrefix(s, flags, i + 1) + s[i + 1..]
  {
    var kept := UnflaggedPrefix(s, flags, i);
    assert s[i..] == [s[i]] + s[i + 1..];
    assert current == kept + [s[i]] + s[i + 1..];
    if flags[i] {
      UnflaggedPrefixDistinct(s, flags, i);
      RemoveFirstAfterPrefix(kept, s[i], s[i + 1..]);
    }
  }

  /** Python's `s[:n]`, including the meaning of a negative `n`. */
  function Prefix<T>(s: seq<T>, n: int): (r: seq<T>)
    ensures 0 <= n ==> |r| == if n < |s| then n else |s|
    ensures n < 0 ==> |r| == if |s| + n < 0 then 0 else |s| + n
    ensures r <= s
  {
    if n >= 0 then (if n < |s| then s[..n] else s)
    else (if |s| + n < 0 then [] else s[..|s| + n])
  }

  /** The index of the first element other than `x`, or `|s|` when there is none. */
  function FirstOther<T(==)>(s: seq<T>, x: T): (k: nat)
    ensures k <= |s|
    ensures forall j :: 0 <= j < k ==> s[j] == x
    ensures k < |s| ==> s[k] != x
  {
    if s == [] || s[0] != x then 0 else 1 + FirstOther(s[1..], x)
  }

  /** Number of occurrences of `x`. */
  function Count<T(==)>(s: seq<T>, x: T): nat {
    multiset(s)[x]
  }
}
