/** Sequence operations standing in for the document database's query operators over a
    collection kept in insertion order: `find` with a filter, `findOne`, `sort`. */
module Seqs {
  import opened Common

  /** The elements of `s` that satisfy `p`, in their stored order (`find(filter)`). */
  function Filter<T>(s: seq<T>, p: T -> bool): (r: seq<T>)
    ensures |r| <= |s|
    ensures forall x | x in r :: x in s && p(x)
    ensures forall x | x in s && p(x) :: x in r
  {
    if s == [] then [] else (if p(s[0]) then [s[0]] else []) + Filter(s[1..], p)
  }

  /** Filtering distributes over concatenation, so a scan may filter record by record. */
  lemma {:induction false} FilterAppend<T>(a: seq<T>, b: seq<T>, p: T -> bool)
    ensures Filter(a + b, p) == Filter(a, p) + Filter(b, p)
  {
    if a == [] {
      assert a + b == b;
    } else {
      assert (a + b)[1..] == a[1..] + b;
      FilterAppend(a[1..], b, p);
    }
  }

  /** A filter that accepts every element returns the sequence itself. */
  lemma {:induction false} FilterAll<T>(s: seq<T>, p: T -> bool)
    requires forall x | x in s :: p(x)
    ensures Filter(s, p) == s
  {
    if s != [] {
      FilterAll(s[1..], p);
    }
  }

  /** Filtering with a stricter predicate after a looser one is filtering with the stricter one. */
  lemma {:induction false} FilterNarrow<T>(s: seq<T>, p: T -> bool, q: T -> bool)
    requires forall x | x in s :: q(x) ==> p(x)
    ensures Filter(Filter(s, p), q) == Filter(s, q)
  {
    if s != [] {
      FilterNarrow(s[1..], p, q);
      if p(s[0]) {
        assert Filter(s, p) == [s[0]] + Filter(s[1..], p);
        assert Filter(Filter(s, p), q) == (if q(s[0]) then [s[0]] else []) + Filter(Filter(s[1..], p), q) by {
          assert Filter(s, p)[1..] == Filter(s[1..], p);
        }
      } else {
        assert Filter(s, p) == Filter(s[1..], p);
        assert !q(s[0]);
      }
    }
  }

  /** Filters that agree on the elements of `s` select the same elements. */
  lemma {:induction false} FilterSamePredicate<T>(s: seq<T>, p: T -> bool, q: T -> bool)
    requires forall x | x in s :: p(x) == q(x)
    ensures Filter(s, p) == Filter(s, q)
  {
    if s != [] {
      FilterSamePredicate(s[1..], p, q);
    }
  }

  /** Filtering one or two elements, spelt out. */
  lemma FilterOne<T>(a: T, p: T -> bool)
    ensures Filter([a], p) == if p(a) then [a] else []
  {
    assert [a][1..] == [];
  }

  lemma FilterTwo<T>(a: T, b: T, p: T -> bool)
    ensures Filter([a, b], p) == (if p(a) then [a] else []) + (if p(b) then [b] else [])
  {
    assert [a, b][1..] == [b];
    FilterOne(b, p);
  }

  /** Filtering a sequence in which exactly position `k` satisfies `p` leaves that one element. */
  lemma {:induction false} OnlyOneMatch<T>(s: seq<T>, p: T -> bool, k: nat)
    requires k < |s| && p(s[k])
    requires forall j | 0 <= j < |s| && j != k :: !p(s[j])
    ensures Filter(s, p) == [s[k]]
  {
    assert s == s[..k] + [s[k]] + s[k + 1..];
    FilterAppend(s[..k] + [s[k]], s[k + 1..], p);
    FilterAppend(s[..k], [s[k]], p);
    FilterOne(s[k], p);
    NoMatch(s[..k], p);
    NoMatch(s[k + 1..], p);
  }

  /** Filtering a sequence in which every position but `k` satisfies `p` removes position `k`. */
  lemma {:induction false} AllButOneMatch<T>(s: seq<T>, p: T -> bool, k: nat)
    requires k < |s| && !p(s[k])
    requires forall j | 0 <= j < |s| && j != k :: p(s[j])
    ensures Filter(s, p) == RemoveAt(s, k)
    decreases k
  {
    var tail := s[1..];
    if k == 0 {
      forall x | x in tail ensures p(x) {
        var j :| 0 <= j < |tail| && tail[j] == x;
        assert s[j + 1] == x;
      }
      FilterAll(tail, p);
      assert RemoveAt(s, 0) == tail;
    } else {
      assert p(s[0]);
      assert forall j | 0 <= j < |tail| && j != k - 1 :: p(tail[j]) by {
        forall j | 0 <= j < |tail| && j != k - 1 ensures p(tail[j]) {
          assert tail[j] == s[j + 1];
        }
      }
      AllButOneMatch(tail, p, k - 1);
      var r, r' := RemoveAt(s, k), [s[0]] + RemoveAt(tail, k - 1);
      assert |r| == |r'|;
      forall j | 0 <= j < |r| ensures r[j] == r'[j] {
        if j > 0 {
          assert r'[j] == RemoveAt(tail, k - 1)[j - 1];
        }
      }
      assert r == r';
    }
  }

  /** Filtering a sequence none of whose elements satisfies `p` leaves nothing. */
  lemma NoMatch<T>(s: seq<T>, p: T -> bool)
    requires forall j | 0 <= j < |s| :: !p(s[j])
    ensures Filter(s, p) == []
  {
  }

  /** The number of elements of `s` that satisfy `p` (`countDocuments(filter)`). */
  function Count<T>(s: seq<T>, p: T -> bool): nat {
    |Filter(s, p)|
  }

  /** Sequences that agree position by position on their predicates have equal counts. */
  lemma {:induction false} CountCorresponds<A, B>(a: seq<A>, p: A -> bool, b: seq<B>, q: B -> bool)
    requires |a| == |b|
    requires forall k | 0 <= k < |a| :: p(a[k]) == q(b[k])
    ensures Count(a, p) == Count(b, q)
  {
    if a != [] {
      CountCorresponds(a[1..], p, b[1..], q);
    }
  }

  /** The position of the first element of `s` that satisfies `p` (`findOne(filter)`). */
  function FindFirst<T>(s: seq<T>, p: T -> bool): (r: Option<nat>)
    ensures r.Some? ==> r.value < |s| && p(s[r.value]) && forall j | 0 <= j < r.value :: !p(s[j])
    ensures r.None? <==> forall j | 0 <= j < |s| :: !p(s[j])
  {
    FindFrom(s, p, 0)
  }

  function FindFrom<T>(s: seq<T>, p: T -> bool, k: nat): (r: Option<nat>)
    requires k <= |s|
    requires forall j | 0 <= j < k :: !p(s[j])
    ensures r.Some? ==> k <= r.value < |s| && p(s[r.value]) && forall j | 0 <= j < r.value :: !p(s[j])
    ensures r.None? <==> forall j | 0 <= j < |s| :: !p(s[j])
    decreases |s| - k
  {
    if k == |s| then None else if p(s[k]) then Some(k) else FindFrom(s, p, k + 1)
  }

  /** `s` with its element at position `i` removed (`findByIdAndDelete`). */
  function RemoveAt<T>(s: seq<T>, i: nat): (r: seq<T>)
    requires i < |s|
    ensures |r| == |s| - 1
    ensures forall j | 0 <= j < i :: r[j] == s[j]
    ensures forall j | i <= j < |r| :: r[j] == s[j + 1]
    ensures multiset(r) == multiset(s) - multiset{s[i]}
  {
    assert s == s[..i] + [s[i]] + s[i + 1..];
    s[..i] + s[i + 1..]
  }

  /** `s` in the opposite order: newest first, for a collection kept in insertion order. */
  function Reverse<T>(s: seq<T>): (r: seq<T>)
    ensures |r| == |s|
    ensures forall i | 0 <= i < |s| :: r[i] == s[|s| - 1 - i]
  {
    if s == [] then [] else Reverse(s[1..]) + [s[0]]
  }

  /** Reversing twice gives the sequence back. */
  lemma ReverseReverse<T>(s: seq<T>)
    ensures Reverse(Reverse(s)) == s
  {
  }

  /** Reversal keeps the elements. */
  lemma ReverseSameElements<T>(s: seq<T>)
    ensures forall x | x in Reverse(s) :: x in s
    ensures forall x | x in s :: x in Reverse(s)
  {
    forall x | x in s ensures x in Reverse(s) {
      var i :| 0 <= i < |s| && s[i] == x;
      assert Reverse(s)[|s| - 1 - i] == x;
    }
  }

  /** `s` is ordered by `key`, largest first: each element's key is at least its successor's. */
  ghost predicate SortedDesc<T>(s: seq<T>, key: T -> int) {
    forall i | 0 < i < |s| :: key(s[i - 1]) >= key(s[i])
  }

  /** In a sequence sorted largest first, every element's key is at least that of every later one. */
  lemma {:induction false} SortedDescPairwise<T>(s: seq<T>, key: T -> int, i: nat, j: nat)
    requires SortedDesc(s, key)
    requires i <= j < |s|
    ensures key(s[i]) >= key(s[j])
    decreases j - i
  {
    if i < j {
      SortedDescPairwise(s, key, i + 1, j);
    }
  }

  /** `x` placed in the descending sequence `s` before the first element with a smaller key. */
  function InsertDesc<T>(x: T, s: seq<T>, key: T -> int): (r: seq<T>)
    requires SortedDesc(s, key)
    ensures multiset(r) == multiset(s) + multiset{x}
    ensures |r| == |s| + 1
    ensures r[0] == x || (s != [] && r[0] == s[0])
    ensures SortedDesc(r, key)
  {
    if s == [] then [x]
    else if key(x) >= key(s[0]) then [x] + s
    else
      var rest := InsertDesc(x, s[1..], key);
      assert s == [s[0]] + s[1..];
      assert multiset([s[0]] + rest) == multiset{s[0]} + multiset(rest);
      [s[0]] + rest
  }

  /** `s` sorted by `key`, largest first (`sort({ key: -1 })`); ties keep their stored order. */
  function SortDesc<T>(s: seq<T>, key: T -> int): (r: seq<T>)
    ensures multiset(r) == multiset(s)
    ensures SortedDesc(r, key)
  {
    if s == [] then []
    else
      assert s == [s[0]] + s[1..];
      InsertDesc(s[0], SortDesc(s[1..], key), key)
  }
}
