/** The list searches the repositories perform: the first element with a
    given key (a for loop that returns on the first match, or
    stream().filter().findFirst()), and keeping or dropping the elements with
    a key (stream().filter(), removeIf). */
module Seqs {

  /** Index of the first element whose key is k, or |s| when there is none. */
  function FirstIndex<T, K(==)>(s: seq<T>, key: T -> K, k: K): (i: nat)
    ensures i <= |s|
    ensures i < |s| ==> key(s[i]) == k
    ensures forall j :: 0 <= j < i ==> key(s[j]) != k
  {
    if s == [] then 0
    else if key(s[0]) == k then 0
    else 1 + FirstIndex(s[1..], key, k)
  }

  /** Some element has key k. */
  predicate HasKey<T, K(==)>(s: seq<T>, key: T -> K, k: K) {
    exists j :: 0 <= j < |s| && key(s[j]) == k
  }

  lemma {:induction false} FirstIndexFound<T, K>(s: seq<T>, key: T -> K, k: K)
    ensures FirstIndex(s, key, k) < |s| <==> HasKey(s, key, k)
  {
  }

  /** Keys are pairwise distinct. */
  ghost predicate DistinctKeys<T, K>(s: seq<T>, key: T -> K) {
    forall i, j :: 0 <= i < j < |s| ==> key(s[i]) != key(s[j])
  }

  /** The elements whose key is k (keep) or is not k (drop), in order. */
  function FilterKey<T, K(==)>(s: seq<T>, key: T -> K, k: K, keep: bool): (r: seq<T>)
    ensures |r| <= |s|
    ensures forall i :: 0 <= i < |r| ==> r[i] in s && (key(r[i]) == k) == keep
    ensures forall i :: 0 <= i < |s| && (key(s[i]) == k) == keep ==> s[i] in r
  {
    if s == [] then []
    else if (key(s[0]) == k) == keep then [s[0]] + FilterKey(s[1..], key, k, keep)
    else FilterKey(s[1..], key, k, keep)
  }

  /** The elements that satisfy p, in order. */
  function Filter<T>(s: seq<T>, p: T -> bool): (r: seq<T>)
    ensures |r| <= |s|
    ensures forall i :: 0 <= i < |r| ==> r[i] in s && p(r[i])
    ensures forall i :: 0 <= i < |s| && p(s[i]) ==> s[i] in r
  {
    if s == [] then []
    else if p(s[0]) then [s[0]] + Filter(s[1..], p)
    else Filter(s[1..], p)
  }

  lemma {:induction false} FilterAppend<T>(a: seq<T>, b: seq<T>, p: T -> bool)
    ensures Filter(a + b, p) == Filter(a, p) + Filter(b, p)
  {
    if a == [] {
      assert a + b == b;
    } else {
      assert (a + b)[1..] == a[1..] + b;
      FilterAppend(a[1..], b, p);
    }
  }

  /** Filtering a list extended by one element extends the filtered list
      by that element exactly when it passes. */
  lemma {:induction false} FilterSnoc<T>(s: seq<T>, i: nat, p: T -> bool)
    requires i < |s|
    ensures Filter(s[..i + 1], p) == Filter(s[..i], p) + (if p(s[i]) then [s[i]] else [])
  {
    assert s[..i + 1] == s[..i] + [s[i]];
    FilterAppend(s[..i], [s[i]], p);
    assert [s[i]][1..] == [];
  }

  /** The i-th element that passes sits at some position k of the list, and
      the elements passing before k are exactly the first i that pass. */
  lemma {:induction false} FilterPosition<T>(s: seq<T>, p: T -> bool, i: nat) returns (k: nat)
    requires i < |Filter(s, p)|
    ensures k < |s| && s[k] == Filter(s, p)[i]
    ensures Filter(s[..k], p) == Filter(s, p)[..i]
  {
    var rest := s[1..];
    if p(s[0]) && i == 0 {
      k := 0;
      assert s[..0] == [];
    } else {
      var j: nat := if p(s[0]) then i - 1 else i;
      var k' := FilterPosition(rest, p, j);
      k := k' + 1;
      var pre := s[..k];
      assert pre[0] == s[0] && pre[1..] == rest[..k'];
      assert Filter(pre, p) == (if p(s[0]) then [s[0]] else []) + Filter(rest[..k'], p);
    }
  }

  lemma {:induction false} FilterKeyAppend<T, K>(a: seq<T>, b: seq<T>, key: T -> K, k: K, keep: bool)
    ensures FilterKey(a + b, key, k, keep) == FilterKey(a, key, k, keep) + FilterKey(b, key, k, keep)
  {
    if a == [] {
      assert a + b == b;
    } else {
      assert (a + b)[1..] == a[1..] + b;
      FilterKeyAppend(a[1..], b, key, k, keep);
    }
  }

  /** Keeping or dropping elements keeps the keys distinct. */
  lemma {:induction false} FilterKeyKeepsDistinct<T, K>(s: seq<T>, key: T -> K, k: K, keep: bool)
    requires DistinctKeys(s, key)
    ensures DistinctKeys(FilterKey(s, key, k, keep), key)
  {
    if s != [] {
      assert DistinctKeys(s[1..], key) by {
        forall i, j | 0 <= i < j < |s[1..]| ensures key(s[1..][i]) != key(s[1..][j]) {
          assert s[1..][i] == s[i + 1] && s[1..][j] == s[j + 1];
        }
      }
      FilterKeyKeepsDistinct(s[1..], key, k, keep);
      var rest := FilterKey(s[1..], key, k, keep);
      forall j | 0 <= j < |rest| ensures key(rest[j]) != key(s[0]) {
        var m :| 0 <= m < |s[1..]| && s[1..][m] == rest[j];
        assert s[m + 1] == rest[j];
      }
    }
  }

  /** Dropping a key that no element carries changes nothing. */
  lemma {:induction false} DropAbsentKey<T, K>(s: seq<T>, key: T -> K, k: K)
    requires !HasKey(s, key, k)
    ensures FilterKey(s, key, k, false) == s
  {
    if s != [] {
      assert key(s[0]) != k;
      assert !HasKey(s[1..], key, k) by {
        forall j | 0 <= j < |s[1..]| ensures key(s[1..][j]) != k {
          assert s[1..][j] == s[j + 1];
        }
      }
      DropAbsentKey(s[1..], key, k);
    }
  }

  /** Dropping a key that some element carries makes the list shorter. */
  lemma {:induction false} DropPresentKey<T, K>(s: seq<T>, key: T -> K, k: K)
    requires HasKey(s, key, k)
    ensures |FilterKey(s, key, k, false)| < |s|
  {
    if key(s[0]) != k {
      var j :| 0 <= j < |s| && key(s[j]) == k;
      assert key(s[1..][j - 1]) == k;
      DropPresentKey(s[1..], key, k);
    }
  }
  /** While keys are distinct, the key of s[i] occurs neither before nor
      after position i. */
  lemma {:induction false} DistinctKeyAlone<T, K>(s: seq<T>, key: T -> K, i: nat)
    requires DistinctKeys(s, key) && i < |s|
    ensures !HasKey(s[..i], key, key(s[i]))
    ensures !HasKey(s[i + 1..], key, key(s[i]))
  {
    var before, after := s[..i], s[i + 1..];
    forall j | 0 <= j < |before| ensures key(before[j]) != key(s[i]) {
      assert before[j] == s[j];
    }
    forall j | 0 <= j < |after| ensures key(after[j]) != key(s[i]) {
      assert after[j] == s[i + 1 + j];
    }
  }

  /** Dropping key k from a list where only x carries it leaves the rest. */
  lemma {:induction false} DropSoleKey<T, K>(before: seq<T>, x: T, after: seq<T>, key: T -> K, k: K)
    requires key(x) == k && !HasKey(before, key, k) && !HasKey(after, key, k)
    ensures FilterKey(before + ([x] + after), key, k, false) == before + after
  {
    assert [x][1..] == [];
    FilterKeyAppend(before, [x] + after, key, k, false);
    FilterKeyAppend([x], after, key, k, false);
    DropAbsentKey(before, key, k);
    DropAbsentKey(after, key, k);
    assert [] + after == after;
  }

  /** While keys are distinct, dropping a key that occurs removes exactly
      the one element that carries it. */
  lemma {:induction false} DropUniqueKey<T, K>(s: seq<T>, key: T -> K, k: K)
    requires DistinctKeys(s, key)
    requires HasKey(s, key, k)
    ensures FirstIndex(s, key, k) < |s|
    ensures FilterKey(s, key, k, false) == s[..FirstIndex(s, key, k)] + s[FirstIndex(s, key, k) + 1..]
  {
    var i := FirstIndex(s, key, k);
    DistinctKeyAlone(s, key, i);
    assert s == s[..i] + ([s[i]] + s[i + 1..]);
    DropSoleKey(s[..i], s[i], s[i + 1..], key, k);
  }
}
