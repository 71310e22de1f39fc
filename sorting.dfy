/** The orderings the services sort by: Python's `sorted` on a text key
  * (ascending) and on a number key (descending), each as an insertion sort
  * whose result is ordered and a permutation of its input. */
module Sorting {
  import opened Common

  /** Ascending by a text key, as `sorted(xs, key=key)` leaves it. */
  predicate SortedBy<T>(s: seq<T>, key: T -> string)
  {
    forall i, j :: 0 <= i < j < |s| ==> StrLeq(key(s[i]), key(s[j]))
  }

  lemma StrLeqTransitive(a: string, b: string, c: string)
    requires StrLeq(a, b) && StrLeq(b, c)
    ensures StrLeq(a, c)
  {
    if a != b && b != c {
      StrLessTransitive(a, b, c);
    }
  }

  /** Puts `x` in its place in an ascending sequence. */
  function InsertBy<T>(x: T, s: seq<T>, key: T -> string): (r: seq<T>)
    requires SortedBy(s, key)
    ensures SortedBy(r, key)
    ensures multiset(r) == multiset(s) + multiset{x}
    ensures |r| == |s| + 1
    ensures forall y :: y in r ==> y == x || y in s
  {
    if s == [] then [x]
    else if StrLeq(key(x), key(s[0])) then
      forall j | 0 <= j < |s| ensures StrLeq(key(x), key(s[j])) {
        if j > 0 { StrLeqTransitive(key(x), key(s[0]), key(s[j])); }
      }
      [x] + s
    else
      assert s == [s[0]] + s[1..];
      var rest := InsertBy(x, s[1..], key);
      InsertByAboveHead(x, s, key, rest);
      [s[0]] + rest
  }

  /** Inserting above the head keeps the head first. */
  lemma InsertByAboveHead<T>(x: T, s: seq<T>, key: T -> string, rest: seq<T>)
    requires s != [] && SortedBy(s, key) && !StrLeq(key(x), key(s[0]))
    requires SortedBy(rest, key)
    requires forall y :: y in rest ==> y == x || y in s[1..]
    ensures SortedBy([s[0]] + rest, key)
  {
    StrLessTotal(key(x), key(s[0]));
    forall k | 0 <= k < |rest|
      ensures StrLeq(key(s[0]), key(rest[k]))
    {
      assert rest[k] in rest;
      if rest[k] != x {
        var j :| 0 <= j < |s[1..]| && s[1..][j] == rest[k];
        assert s[j + 1] == rest[k];
      }
    }
    var r := [s[0]] + rest;
    forall i, j | 0 <= i < j < |r|
      ensures StrLeq(key(r[i]), key(r[j]))
    {
      assert r[j] == rest[j - 1];
      if i > 0 {
        assert r[i] == rest[i - 1];
      }
    }
  }

  /** `sorted(xs, key=key)`. */
  function SortBy<T>(s: seq<T>, key: T -> string): (r: seq<T>)
    ensures SortedBy(r, key)
    ensures multiset(r) == multiset(s)
    ensures |r| == |s|
  {
    if s == [] then []
    else
      assert s == [s[0]] + s[1..];
      InsertBy(s[0], SortBy(s[1..], key), key)
  }

  /** Descending by a number key, as `sort(key=key, reverse=True)` leaves it. */
  predicate SortedDesc<T>(s: seq<T>, key: T -> int)
  {
    forall i, j :: 0 <= i < j < |s| ==> key(s[i]) >= key(s[j])
  }

  function InsertDesc<T>(x: T, s: seq<T>, key: T -> int): (r: seq<T>)
    requires SortedDesc(s, key)
    ensures SortedDesc(r, key)
    ensures multiset(r) == multiset(s) + multiset{x}
    ensures |r| == |s| + 1
    ensures forall y :: y in r ==> y == x || y in s
  {
    if s == [] then [x]
    else if key(x) >= key(s[0]) then [x] + s
    else
      assert s == [s[0]] + s[1..];
      var rest := InsertDesc(x, s[1..], key);
      InsertDescBelowHead(x, s, key, rest);
      [s[0]] + rest
  }

  /** Inserting below the head keeps the head first. */
  lemma InsertDescBelowHead<T>(x: T, s: seq<T>, key: T -> int, rest: seq<T>)
    requires s != [] && SortedDesc(s, key) && key(x) < key(s[0])
    requires SortedDesc(rest, key)
    requires forall y :: y in rest ==> y == x || y in s[1..]
    ensures SortedDesc([s[0]] + rest, key)
  {
    forall k | 0 <= k < |rest|
      ensures key(s[0]) >= key(rest[k])
    {
      assert rest[k] in rest;
      if rest[k] != x {
        var j :| 0 <= j < |s[1..]| && s[1..][j] == rest[k];
        assert s[j + 1] == rest[k];
      }
    }
    var r := [s[0]] + rest;
    forall i, j | 0 <= i < j < |r|
      ensures key(r[i]) >= key(r[j])
    {
      assert r[j] == rest[j - 1];
      if i > 0 {
        assert r[i] == rest[i - 1];
      }
    }
  }

  /** `sorted(xs, key=key, reverse=True)` on a number key. */
  function SortDesc<T>(s: seq<T>, key: T -> int): (r: seq<T>)
    ensures SortedDesc(r, key)
    ensures multiset(r) == multiset(s)
    ensures |r| == |s|
  {
    if s == [] then []
    else
      assert s == [s[0]] + s[1..];
      InsertDesc(s[0], SortDesc(s[1..], key), key)
  }

  /** Newest first by a text key, as `sorted(xs, key=key, reverse=True)`. */
  predicate SortedDescBy<T>(s: seq<T>, key: T -> string)
  {
    forall i, j :: 0 <= i < j < |s| ==> StrLeq(key(s[j]), key(s[i]))
  }

  function InsertDescBy<T>(x: T, s: seq<T>, key: T -> string): (r: seq<T>)
    requires SortedDescBy(s, key)
    ensures SortedDescBy(r, key)
    ensures multiset(r) == multiset(s) + multiset{x}
    ensures |r| == |s| + 1
    ensures forall y :: y in r ==> y == x || y in s
  {
    if s == [] then [x]
    else if StrLeq(key(s[0]), key(x)) then
      forall j | 0 <= j < |s| ensures StrLeq(key(s[j]), key(x)) {
        if j > 0 { StrLeqTransitive(key(s[j]), key(s[0]), key(x)); }
      }
      [x] + s
    else
      assert s == [s[0]] + s[1..];
      var rest := InsertDescBy(x, s[1..], key);
      InsertDescByBelowHead(x, s, key, rest);
      [s[0]] + rest
  }

  /** Inserting below the head keeps the head first: everything inserted
    * after it sorts no higher. */
  lemma InsertDescByBelowHead<T>(x: T, s: seq<T>, key: T -> string, rest: seq<T>)
    requires s != [] && SortedDescBy(s, key) && !StrLeq(key(s[0]), key(x))
    requires SortedDescBy(rest, key)
    requires forall y :: y in rest ==> y == x || y in s[1..]
    ensures SortedDescBy([s[0]] + rest, key)
  {
    StrLessTotal(key(x), key(s[0]));
    forall k | 0 <= k < |rest|
      ensures StrLeq(key(rest[k]), key(s[0]))
    {
      assert rest[k] in rest;
      if rest[k] != x {
        var j :| 0 <= j < |s[1..]| && s[1..][j] == rest[k];
        assert s[j + 1] == rest[k];
      }
    }
    var r := [s[0]] + rest;
    forall i, j | 0 <= i < j < |r|
      ensures StrLeq(key(r[j]), key(r[i]))
    {
      assert r[j] == rest[j - 1];
      if i > 0 {
        assert r[i] == rest[i - 1];
      }
    }
  }

  function SortDescBy<T>(s: seq<T>, key: T -> string): (r: seq<T>)
    ensures SortedDescBy(r, key)
    ensures multiset(r) == multiset(s)
    ensures |r| == |s|
  {
    if s == [] then []
    else
      assert s == [s[0]] + s[1..];
      InsertDescBy(s[0], SortDescBy(s[1..], key), key)
  }

  /** The elements whose key is `k`. */
  function WithKey<T, K(==)>(key: T -> K, k: K): T -> bool
  {
    x => key(x) == k
  }

  /** Inserting `x` behind a head `h` that `p` does not share with it keeps
    * `x` in front of the kept elements of the tail. */
  lemma InsertedBehind<T>(h: T, x: T, rest: seq<T>, t: seq<T>, p: T -> bool)
    requires p(x) ==> !p(h)
    requires Filter(rest, p) == (if p(x) then [x] else []) + Filter(t, p)
    ensures Filter([h] + rest, p) == (if p(x) then [x] else []) + Filter([h] + t, p)
  {
    FilterAppend([h], rest, p);
    FilterAppend([h], t, p);
    FilterOne(h, p);
    if p(x) {
      assert Filter([h], p) == [];
    }
  }

  /** Inserting keeps the order of the elements sharing a key: `x` goes in
    * front of those with its own key. */
  lemma {:induction false} InsertByStable<T>(x: T, s: seq<T>, key: T -> string, k: string)
    requires SortedBy(s, key)
    ensures Filter(InsertBy(x, s, key), WithKey(key, k))
      == (if key(x) == k then [x] else []) + Filter(s, WithKey(key, k))
  {
    var p := WithKey(key, k);
    FilterOne(x, p);
    if s == [] {
      assert InsertBy(x, s, key) == [x];
    } else if !StrLeq(key(x), key(s[0])) {
      var rest := InsertBy(x, s[1..], key);
      InsertByStable(x, s[1..], key, k);
      assert InsertBy(x, s, key) == [s[0]] + rest;
      assert s == [s[0]] + s[1..];
      assert key(x) != key(s[0]);
      InsertedBehind(s[0], x, rest, s[1..], p);
    } else {
      assert InsertBy(x, s, key) == [x] + s;
      FilterAppend([x], s, p);
    }
  }

  /** `sorted` is stable: the elements sharing a key keep their input
    * order. */
  lemma {:induction false} SortByStable<T>(s: seq<T>, key: T -> string, k: string)
    ensures Filter(SortBy(s, key), WithKey(key, k)) == Filter(s, WithKey(key, k))
  {
    if s != [] {
      SortByStable(s[1..], key, k);
      InsertByStable(s[0], SortBy(s[1..], key), key, k);
    }
  }

  lemma {:induction false} InsertDescStable<T>(x: T, s: seq<T>, key: T -> int, k: int)
    requires SortedDesc(s, key)
    ensures Filter(InsertDesc(x, s, key), WithKey(key, k))
      == (if key(x) == k then [x] else []) + Filter(s, WithKey(key, k))
  {
    var p := WithKey(key, k);
    FilterOne(x, p);
    if s == [] {
      assert InsertDesc(x, s, key) == [x];
    } else if key(x) < key(s[0]) {
      var rest := InsertDesc(x, s[1..], key);
      InsertDescStable(x, s[1..], key, k);
      assert InsertDesc(x, s, key) == [s[0]] + rest;
      assert s == [s[0]] + s[1..];
      assert key(x) != key(s[0]);
      InsertedBehind(s[0], x, rest, s[1..], p);
    } else {
      assert InsertDesc(x, s, key) == [x] + s;
      FilterAppend([x], s, p);
    }
  }

  /** `sorted(..., reverse=True)` is stable: the elements sharing a key keep
    * their input order. */
  lemma {:induction false} SortDescStable<T>(s: seq<T>, key: T -> int, k: int)
    ensures Filter(SortDesc(s, key), WithKey(key, k)) == Filter(s, WithKey(key, k))
  {
    if s != [] {
      SortDescStable(s[1..], key, k);
      InsertDescStable(s[0], SortDesc(s[1..], key), key, k);
    }
  }

  lemma {:induction false} InsertDescByStable<T>(x: T, s: seq<T>, key: T -> string, k: string)
    requires SortedDescBy(s, key)
    ensures Filter(InsertDescBy(x, s, key), WithKey(key, k))
      == (if key(x) == k then [x] else []) + Filter(s, WithKey(key, k))
  {
    var p := WithKey(key, k);
    FilterOne(x, p);
    if s == [] {
      assert InsertDescBy(x, s, key) == [x];
    } else if !StrLeq(key(s[0]), key(x)) {
      var rest := InsertDescBy(x, s[1..], key);
      InsertDescByStable(x, s[1..], key, k);
      assert InsertDescBy(x, s, key) == [s[0]] + rest;
      assert s == [s[0]] + s[1..];
      assert key(x) != key(s[0]);
      InsertedBehind(s[0], x, rest, s[1..], p);
    } else {
      assert InsertDescBy(x, s, key) == [x] + s;
      FilterAppend([x], s, p);
    }
  }

  /** `list.sort(key=key, reverse=True)` is stable: the elements sharing a
    * key keep their input order. */
  lemma {:induction false} SortDescByStable<T>(s: seq<T>, key: T -> string, k: string)
    ensures Filter(SortDescBy(s, key), WithKey(key, k)) == Filter(s, WithKey(key, k))
  {
    if s != [] {
      SortDescByStable(s[1..], key, k);
      InsertDescByStable(s[0], SortDescBy(s[1..], key), key, k);
    }
  }

  /** A sequence is sorted ascending as plain text. */
  predicate SortedStrings(s: seq<string>)
  {
    forall i, j :: 0 <= i < j < |s| ==> StrLeq(s[i], s[j])
  }

  /** Sorted and duplicate-free: `sorted(set(xs))`. */
  predicate StrictlySorted(s: seq<string>)
  {
    forall i, j :: 0 <= i < j < |s| ==> StrLess(s[i], s[j])
  }

  /** Inserts `x` into a strictly ascending sequence unless it is there. */
  function InsertUnique(x: string, s: seq<string>): (r: seq<string>)
    requires StrictlySorted(s)
    ensures StrictlySorted(r)
    ensures forall y :: y in r <==> y in s || y == x
  {
    if s == [] then [x]
    else if x == s[0] then s
    else if StrLess(x, s[0]) then
      forall j | 0 <= j < |s| ensures StrLess(x, s[j]) {
        if j > 0 { StrLessTransitive(x, s[0], s[j]); }
      }
      [x] + s
    else
      StrLessTotal(x, s[0]);
      var rest := InsertUnique(x, s[1..]);
      assert forall k :: 0 <= k < |rest| ==> StrLess(s[0], rest[k]) by {
        forall k | 0 <= k < |rest| ensures StrLess(s[0], rest[k]) {
          assert rest[k] in rest;
          if rest[k] != x {
            var j :| 0 <= j < |s[1..]| && s[1..][j] == rest[k];
            assert s[j + 1] == rest[k];
          }
        }
      }
      [s[0]] + rest
  }

  /** `sorted(set(xs))`: each distinct element once, ascending. */
  function SortedSet(xs: seq<string>): (r: seq<string>)
    ensures StrictlySorted(r)
    ensures forall y :: y in r <==> y in xs
  {
    if xs == [] then [] else InsertUnique(xs[|xs| - 1], SortedSet(xs[..|xs| - 1]))
  }
}
