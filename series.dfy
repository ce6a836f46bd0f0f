/** Column operations the lab applies to its observation tables: sorting by a
    key column (sort_values), first-occurrence argmax and argmin (idxmax,
    idxmin), the column sum behind a mean, and removal of exact duplicate rows
    (drop_duplicates). */
module Series {

  /** `s` is in ascending order of `key` (ties allowed). */
  ghost predicate SortedBy<T>(s: seq<T>, key: T -> real)
  {
    forall i, j :: 0 <= i < j < |s| ==> key(s[i]) <= key(s[j])
  }

  /** `s` is in strictly ascending order of `key`. */
  ghost predicate StrictlyAscending<T>(s: seq<T>, key: T -> real)
  {
    forall i, j :: 0 <= i < j < |s| ==> key(s[i]) < key(s[j])
  }

  /** No two elements of `s` share a key. */
  ghost predicate DistinctKeys<T>(s: seq<T>, key: T -> real)
  {
    forall i, j :: 0 <= i < j < |s| ==> key(s[i]) != key(s[j])
  }

  /** No two positions of `s` hold the same element. */
  ghost predicate NoDuplicates<T>(s: seq<T>)
  {
    forall i, j :: 0 <= i < j < |s| ==> s[i] != s[j]
  }

  /** Inserts `x` in front of the first element whose key is not smaller. */
  function Insert<T(==)>(x: T, s: seq<T>, key: T -> real): (r: seq<T>)
    ensures |r| == |s| + 1
    ensures multiset(r) == multiset(s) + multiset{x}
    ensures forall i :: 0 <= i < |r| ==> r[i] == x || r[i] in s
  {
    if s == [] then [x]
    else if key(x) <= key(s[0]) then [x] + s
    else
      var tail := Insert(x, s[1..], key);
      assert s == [s[0]] + s[1..];
      [s[0]] + tail
  }

  /** Inserting into a sorted sequence keeps it sorted. */
  lemma {:induction false} InsertKeepsSorted<T>(x: T, s: seq<T>, key: T -> real)
    requires SortedBy(s, key)
    ensures SortedBy(Insert(x, s, key), key)
  {
    if s != [] && key(x) > key(s[0]) {
      var tail := Insert(x, s[1..], key);
      InsertKeepsSorted(x, s[1..], key);
      TailAboveHead(x, s, key);
      ConsSorted(s[0], tail, key);
    }
  }

  /** A head no larger than every element of a sorted tail gives a sorted sequence. */
  lemma ConsSorted<T>(h: T, tail: seq<T>, key: T -> real)
    requires SortedBy(tail, key)
    requires forall k :: 0 <= k < |tail| ==> key(h) <= key(tail[k])
    ensures SortedBy([h] + tail, key)
  {
    var r := [h] + tail;
    forall i, j | 0 <= i < j < |r| ensures key(r[i]) <= key(r[j]) {
      assert r[j] == tail[j - 1];
      if i > 0 {
        assert r[i] == tail[i - 1];
      }
    }
  }

  /** Inserting `x` past the head of a sorted sequence puts only keys at least
      the head's behind it. */
  lemma TailAboveHead<T>(x: T, s: seq<T>, key: T -> real)
    requires SortedBy(s, key) && s != [] && key(x) > key(s[0])
    ensures forall k :: 0 <= k < |s| ==> key(s[0]) <= key(Insert(x, s[1..], key)[k])
  {
    var tail := Insert(x, s[1..], key);
    forall k | 0 <= k < |tail| ensures key(s[0]) <= key(tail[k]) {
      if tail[k] != x {
        var m :| 0 <= m < |s[1..]| && s[1..][m] == tail[k];
        assert s[m + 1] == tail[k];
      }
    }
  }

  /** The strict counterpart of ConsSorted. */
  lemma ConsStrict<T>(h: T, tail: seq<T>, key: T -> real)
    requires StrictlyAscending(tail, key)
    requires forall k :: 0 <= k < |tail| ==> key(h) < key(tail[k])
    ensures StrictlyAscending([h] + tail, key)
  {
    var r := [h] + tail;
    forall i, j | 0 <= i < j < |r| ensures key(r[i]) < key(r[j]) {
      assert r[j] == tail[j - 1];
      if i > 0 {
        assert r[i] == tail[i - 1];
      }
    }
  }

  /** The strict counterpart of TailAboveHead. */
  lemma TailStrictlyAboveHead<T>(x: T, s: seq<T>, key: T -> real)
    requires StrictlyAscending(s, key) && s != [] && key(x) > key(s[0])
    ensures forall k :: 0 <= k < |s| ==> key(s[0]) < key(Insert(x, s[1..], key)[k])
  {
    var tail := Insert(x, s[1..], key);
    forall k | 0 <= k < |tail| ensures key(s[0]) < key(tail[k]) {
      if tail[k] != x {
        var m :| 0 <= m < |s[1..]| && s[1..][m] == tail[k];
        assert s[m + 1] == tail[k];
      }
    }
  }

  /** Inserting a new key into a strictly ascending sequence keeps it strictly ascending. */
  lemma {:induction false} InsertKeepsStrict<T>(x: T, s: seq<T>, key: T -> real)
    requires StrictlyAscending(s, key)
    requires forall i :: 0 <= i < |s| ==> key(s[i]) != key(x)
    ensures StrictlyAscending(Insert(x, s, key), key)
  {
    if s != [] && key(x) > key(s[0]) {
      var tail := Insert(x, s[1..], key);
      InsertKeepsStrict(x, s[1..], key);
      var r := [s[0]] + tail;
      assert Insert(x, s, key) == r;
      TailStrictlyAboveHead(x, s, key);
      ConsStrict(s[0], tail, key);
    } else if s != [] {
      assert key(x) < key(s[0]);
    }
  }

  /** The rows of `s` reordered by ascending `key`: a permutation of `s`. */
  function SortBy<T(==)>(s: seq<T>, key: T -> real): (r: seq<T>)
    ensures multiset(r) == multiset(s)
    ensures |r| == |s|
  {
    if s == [] then []
    else
      assert s == [s[0]] + s[1..];
      Insert(s[0], SortBy(s[1..], key), key)
  }

  /** The result of SortBy is in key order, strictly when the keys are distinct. */
  lemma {:induction false} SortByOrders<T>(s: seq<T>, key: T -> real)
    ensures SortedBy(SortBy(s, key), key)
    ensures DistinctKeys(s, key) ==> StrictlyAscending(SortBy(s, key), key)
  {
    if s != [] {
      var rest := SortBy(s[1..], key);
      SortByOrders(s[1..], key);
      InsertKeepsSorted(s[0], rest, key);
      if DistinctKeys(s, key) {
        forall i | 0 <= i < |rest| ensures key(rest[i]) != key(s[0]) {
          assert rest[i] in multiset(s[1..]);
          var j :| 0 <= j < |s[1..]| && s[1..][j] == rest[i];
          assert s[j + 1] == rest[i];
        }
        InsertKeepsStrict(s[0], rest, key);
      }
    }
  }

  /** Sorting keeps exactly the elements of `s`. */
  lemma SortByMembers<T>(s: seq<T>, key: T -> real)
    ensures forall i :: 0 <= i < |SortBy(s, key)| ==> SortBy(s, key)[i] in s
    ensures forall i :: 0 <= i < |s| ==> s[i] in SortBy(s, key)
  {
    var r := SortBy(s, key);
    forall i | 0 <= i < |r| ensures r[i] in s {
      assert r[i] in multiset(r);
    }
    forall i | 0 <= i < |s| ensures s[i] in r {
      assert s[i] in multiset(s);
    }
  }

  /** Sorting a sequence that is already in key order leaves it unchanged. */
  lemma {:induction false} SortByOfSorted<T>(s: seq<T>, key: T -> real)
    requires SortedBy(s, key)
    ensures SortBy(s, key) == s
  {
    if s != [] {
      var t := s[1..];
      assert SortedBy(t, key) by {
        forall i, j | 0 <= i < j < |t| ensures key(t[i]) <= key(t[j]) {
          assert t[i] == s[i + 1] && t[j] == s[j + 1];
        }
      }
      SortByOfSorted(t, key);
      assert SortBy(s, key) == Insert(s[0], t, key);
      if t != [] {
        assert key(s[0]) <= key(t[0]);
      }
      assert Insert(s[0], t, key) == [s[0]] + t;
      assert s == [s[0]] + t;
    }
  }

  /** Position of the first maximum of `xs`. */
  function ArgMax(xs: seq<real>): (k: nat)
    requires |xs| > 0
    ensures k < |xs|
    ensures forall j :: 0 <= j < |xs| ==> xs[j] <= xs[k]
    ensures forall j :: 0 <= j < k ==> xs[j] < xs[k]
  {
    if |xs| == 1 then 0
    else
      var k := ArgMax(xs[..|xs| - 1]);
      if xs[|xs| - 1] > xs[k] then |xs| - 1 else k
  }

  /** Position of the first minimum of `xs`. */
  function ArgMin(xs: seq<real>): (k: nat)
    requires |xs| > 0
    ensures k < |xs|
    ensures forall j :: 0 <= j < |xs| ==> xs[k] <= xs[j]
    ensures forall j :: 0 <= j < k ==> xs[k] < xs[j]
  {
    if |xs| == 1 then 0
    else
      var k := ArgMin(xs[..|xs| - 1]);
      if xs[|xs| - 1] < xs[k] then |xs| - 1 else k
  }

  function Sum(xs: seq<real>): real
  {
    if xs == [] then 0.0 else Sum(xs[..|xs| - 1]) + xs[|xs| - 1]
  }

  /** A column whose every entry is at least `b` sums to at least `b` times its length. */
  lemma {:induction false} SumAtLeast(xs: seq<real>, b: real)
    requires forall i :: 0 <= i < |xs| ==> b <= xs[i]
    ensures b * |xs| as real <= Sum(xs)
  {
    if xs != [] {
      var init := xs[..|xs| - 1];
      SumAtLeast(init, b);
      assert b * |xs| as real == b * |init| as real + b;
    }
  }

  /** A column whose every entry is at most `b` sums to at most `b` times its length. */
  lemma {:induction false} SumAtMost(xs: seq<real>, b: real)
    requires forall i :: 0 <= i < |xs| ==> xs[i] <= b
    ensures Sum(xs) <= b * |xs| as real
  {
    if xs != [] {
      var init := xs[..|xs| - 1];
      SumAtMost(init, b);
      assert b * |xs| as real == b * |init| as real + b;
    }
  }

  /** Keeps the first occurrence of every element, in order. */
  function DropDuplicates<T(==)>(s: seq<T>): (r: seq<T>)
    ensures forall i :: 0 <= i < |r| ==> r[i] in s
    ensures forall i :: 0 <= i < |s| ==> s[i] in r
    ensures NoDuplicates(r)
    ensures NoDuplicates(s) ==> r == s
  {
    if s == [] then []
    else
      var init, last := s[..|s| - 1], s[|s| - 1];
      assert s == init + [last];
      if last in init then DropDuplicates(init) else DropDuplicates(init) + [last]
  }
}
