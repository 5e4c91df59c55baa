/** Searching and filtering a list, and a map of lists visited key by key: the nested loops that the topic
  * stores use for searching. */
module Collections {
  import opened Wrappers

  /** `iter().position(p)`: the index of the first element that satisfies `p`, if any. */
  function Position<T>(s: seq<T>, p: T -> bool): (r: Option<nat>)
    ensures r.None? <==> forall j :: 0 <= j < |s| ==> !p(s[j])
    ensures r.Some? ==> r.value < |s| && p(s[r.value]) && forall j :: 0 <= j < r.value ==> !p(s[j])
    decreases |s|
  {
    if s == [] then None
    else if p(s[0]) then Some(0)
    else
      var rest := Position(s[1..], p);
      if rest.None? then None else Some(rest.value + 1)
  }

  /** The elements of `s` that satisfy `p`, in order. */
  function Filter<T>(s: seq<T>, p: T -> bool): seq<T>
    decreases |s|
  {
    if s == [] then [] else Filter(s[..|s| - 1], p) + (if p(s[|s| - 1]) then [s[|s| - 1]] else [])
  }

  /** One more element of `s` considered: it is kept after the others when it satisfies `p`. */
  lemma FilterPrefixStep<T>(s: seq<T>, i: nat, p: T -> bool)
    requires i < |s|
    ensures Filter(s[..i + 1], p) == Filter(s[..i], p) + (if p(s[i]) then [s[i]] else [])
  {
    assert s[..i + 1][..i] == s[..i];
  }

  /** An element is kept exactly when it is in `s` and satisfies `p`. */
  lemma {:induction false} FilterMembers<T>(s: seq<T>, p: T -> bool, e: T)
    ensures e in Filter(s, p) <==> e in s && p(e)
    decreases |s|
  {
    if s != [] {
      FilterMembers(s[..|s| - 1], p, e);
      assert s == s[..|s| - 1] + [s[|s| - 1]];
    }
  }

  /** The elements satisfying `p`, list by list in the order the map's keys are visited. */
  function Select<K, T>(order: seq<K>, lists: map<K, seq<T>>, p: T -> bool): seq<T>
    requires forall k :: k in order ==> k in lists
    decreases |order|
  {
    if order == [] then []
    else Select(order[..|order| - 1], lists, p) + Filter(lists[order[|order| - 1]], p)
  }

  /** An element is selected exactly when one of the visited lists holds it and it satisfies `p`. */
  lemma {:induction false} SelectMembers<K, T>(order: seq<K>, lists: map<K, seq<T>>, p: T -> bool, e: T)
    requires forall k :: k in order ==> k in lists
    ensures e in Select(order, lists, p) <==> p(e) && exists k :: k in order && e in lists[k]
    decreases |order|
  {
    if order != [] {
      var init := order[..|order| - 1];
      var last := order[|order| - 1];
      assert forall k :: k in init ==> k in order;
      SelectMembers(init, lists, p, e);
      FilterMembers(lists[last], p, e);
      if p(e) && exists k :: k in order && e in lists[k] {
        var k :| k in order && e in lists[k];
        if k != last {
          assert k in init;
        }
      }
    }
  }

  /** A visiting order of a map's keys, as a hash map's iteration yields: each key once. */
  ghost predicate VisitOrder<K(!new), V>(order: seq<K>, m: map<K, V>) {
    (forall k :: k in order <==> k in m) && forall i, j :: 0 <= i < j < |order| ==> order[i] != order[j]
  }

  /** The nested loops: every list in visiting order, keeping the elements that satisfy `p`. */
  method Collect<K(!new), T>(order: seq<K>, lists: map<K, seq<T>>, p: T -> bool) returns (results: seq<T>)
    requires VisitOrder(order, lists)
    ensures results == Select(order, lists, p)
    ensures forall e :: e in results <==> p(e) && exists k :: k in lists && e in lists[k]
  {
    results := [];
    var i := 0;
    while i < |order|
      invariant 0 <= i <= |order|
      invariant results == Select(order[..i], lists, p)
    {
      var entries := lists[order[i]];
      var j := 0;
      ghost var before := results;
      while j < |entries|
        invariant 0 <= j <= |entries|
        invariant results == before + Filter(entries[..j], p)
      {
        assert entries[..j + 1][..j] == entries[..j];
        if p(entries[j]) {
          results := results + [entries[j]];
        }
        j := j + 1;
      }
      assert entries[..j] == entries;
      assert order[..i + 1][..i] == order[..i];
      i := i + 1;
    }
    assert order[..i] == order;
    forall e ensures e in results <==> p(e) && exists k :: k in lists && e in lists[k] {
      SelectMembers(order, lists, p, e);
    }
  }

  // ---------------------------------------------------------------- stable insertion

  /** Ordered by `key`. */
  predicate SortedBy<T>(s: seq<T>, key: T -> int) {
    forall i, j :: 0 <= i < j < |s| ==> key(s[i]) <= key(s[j])
  }

  /** How many elements have a key no greater than `k`. */
  function CountNoLater<T>(s: seq<T>, k: int, key: T -> int): (n: nat)
    ensures n <= |s|
    decreases |s|
  {
    if s == [] then 0 else (if key(s[0]) <= k then 1 else 0) + CountNoLater(s[1..], k, key)
  }

  /** A `push` followed by a stable sort by `key`, on a list already sorted by it. Stability puts
    * the new element right after every element whose key is no greater, with the others around
    * it in their old order. */
  function InsertStable<T>(s: seq<T>, x: T, key: T -> int): (r: seq<T>)
    requires SortedBy(s, key)
    ensures var k := CountNoLater(s, key(x), key); r == s[..k] + [x] + s[k..]
    decreases |s|
  {
    if s == [] then [x]
    else if key(x) < key(s[0]) then
      NoneNoLater(s, key(x), key);
      [x] + s
    else
      var rest := InsertStable(s[1..], x, key);
      ConsSplit(s, CountNoLater(s[1..], key(x), key), x);
      [s[0]] + rest
  }

  /** Putting `x` at position `k` of the tail, then the head in front, puts it at `k + 1`. */
  lemma ConsSplit<T>(s: seq<T>, k: nat, x: T)
    requires k < |s|
    ensures [s[0]] + (s[1..][..k] + [x] + s[1..][k..]) == s[..k + 1] + [x] + s[k + 1..]
  {
    assert s[..k + 1] == [s[0]] + s[1..][..k];
    assert s[k + 1..] == s[1..][k..];
  }

  /** In a sorted list whose first key is above `k`, no key is at most `k`. */
  lemma {:induction false} NoneNoLater<T>(s: seq<T>, k: int, key: T -> int)
    requires SortedBy(s, key) && s != [] && k < key(s[0])
    ensures CountNoLater(s, k, key) == 0
    decreases |s|
  {
    if |s| > 1 {
      NoneNoLater(s[1..], k, key);
    }
  }

  /** In a sorted list, the keys at most `k` are exactly those of the first `CountNoLater`. */
  lemma {:induction false} CountSplits<T>(s: seq<T>, k: int, key: T -> int)
    requires SortedBy(s, key)
    ensures var n := CountNoLater(s, k, key);
            (forall i :: 0 <= i < n ==> key(s[i]) <= k) && forall i :: n <= i < |s| ==> key(s[i]) > k
    decreases |s|
  {
    if s != [] {
      if k < key(s[0]) {
        NoneNoLater(s, k, key);
      } else {
        CountSplits(s[1..], k, key);
      }
    }
  }

  /** Insertion keeps the list sorted and adds exactly the new element. */
  lemma InsertStableSorted<T>(s: seq<T>, x: T, key: T -> int)
    requires SortedBy(s, key)
    ensures SortedBy(InsertStable(s, x, key), key)
    ensures multiset(InsertStable(s, x, key)) == multiset(s) + multiset{x}
  {
    var k := CountNoLater(s, key(x), key);
    CountSplits(s, key(x), key);
    InsertAtSorted(s, k, x, key);
    assert s == s[..k] + s[k..];
  }

  /** Putting `x` between the elements whose keys are at most its own and the rest keeps a sorted
    * list sorted. */
  lemma InsertAtSorted<T>(s: seq<T>, k: nat, x: T, key: T -> int)
    requires SortedBy(s, key) && k <= |s|
    requires forall i :: 0 <= i < k ==> key(s[i]) <= key(x)
    requires forall i :: k <= i < |s| ==> key(s[i]) > key(x)
    ensures SortedBy(s[..k] + [x] + s[k..], key)
  {
    var r := s[..k] + [x] + s[k..];
    forall i, j | 0 <= i < j < |r| ensures key(r[i]) <= key(r[j]) {
      if j < k || i > k {
        assert r[i] == s[if i < k then i else i - 1] && r[j] == s[if j < k then j else j - 1];
      } else if i == k {
        assert r[j] == s[j - 1];
      } else if j == k {
        assert r[i] == s[i];
      } else {
        assert r[i] == s[i] && r[j] == s[j - 1];
      }
    }
  }

  // ---------------------------------------------------------------- gathering whole lists

  /** The lists of the keys that satisfy `keep`, concatenated in visiting order. */
  function Gather<K, T>(order: seq<K>, lists: map<K, seq<T>>, keep: K -> bool): seq<T>
    requires forall k :: k in order ==> k in lists
    decreases |order|
  {
    if order == [] then []
    else
      var last := order[|order| - 1];
      Gather(order[..|order| - 1], lists, keep) + (if keep(last) then lists[last] else [])
  }

  /** An element is gathered exactly when some kept key's list holds it. */
  lemma {:induction false} GatherMembers<K, T>(order: seq<K>, lists: map<K, seq<T>>, keep: K -> bool, e: T)
    requires forall k :: k in order ==> k in lists
    ensures e in Gather(order, lists, keep) <==> exists k :: k in order && keep(k) && e in lists[k]
    decreases |order|
  {
    if order != [] {
      var init := order[..|order| - 1];
      var last := order[|order| - 1];
      assert forall k :: k in init ==> k in order;
      GatherMembers(init, lists, keep, e);
      if exists k :: k in order && keep(k) && e in lists[k] {
        var k :| k in order && keep(k) && e in lists[k];
        if k != last {
          assert k in init;
        }
      }
    }
  }

  /** Gathering over two consecutive runs of keys is gathering over each in turn. */
  lemma {:induction false} GatherAppend<K, T>(a: seq<K>, b: seq<K>, lists: map<K, seq<T>>, keep: K -> bool)
    requires forall k :: k in a ==> k in lists
    requires forall k :: k in b ==> k in lists
    ensures forall k :: k in a + b ==> k in lists
    ensures Gather(a + b, lists, keep) == Gather(a, lists, keep) + Gather(b, lists, keep)
    decreases |b|
  {
    if b != [] {
      var init := b[..|b| - 1];
      assert (a + b)[..|a + b| - 1] == a + init;
      assert forall k :: k in init ==> k in b;
      GatherAppend(a, init, lists, keep);
    } else {
      assert a + b == a;
    }
  }

  /** The gathered multiset does not depend on the order in which the keys are visited. */
  lemma {:induction false} GatherPermutation<K, T>(o1: seq<K>, o2: seq<K>, lists: map<K, seq<T>>, keep: K -> bool)
    requires forall k :: k in o1 ==> k in lists
    requires forall k :: k in o2 ==> k in lists
    requires multiset(o1) == multiset(o2)
    ensures multiset(Gather(o1, lists, keep)) == multiset(Gather(o2, lists, keep))
    decreases |o1|
  {
    if o1 == [] {
      assert |o2| == |multiset(o2)| == 0;
    } else {
      var init := o1[..|o1| - 1];
      var x := o1[|o1| - 1];
      assert x in multiset(o2);
      assert x in o2;
      var j :| 0 <= j < |o2| && o2[j] == x;
      var left, right := RemoveMatching(o1, o2, j);
      assert forall k :: k in init ==> k in o1;
      GatherAround(left, x, right, lists, keep);
      GatherPermutation(init, left + right, lists, keep);
      assert Gather([x], lists, keep) == (if keep(x) then lists[x] else []) by {
        assert [x][..0] == [];
      }
      calc {
        multiset(Gather(o1, lists, keep));
        multiset(Gather(init, lists, keep)) + multiset(Gather([x], lists, keep));
        multiset(Gather(left + right, lists, keep)) + multiset(Gather([x], lists, keep));
        multiset(Gather(o2, lists, keep));
      }
    }
  }

  /** Taking the last key of `o1` out of `o2` at position `j` leaves two runs that together
    * permute the rest of `o1`. */
  lemma RemoveMatching<K>(o1: seq<K>, o2: seq<K>, j: nat) returns (left: seq<K>, right: seq<K>)
    requires multiset(o1) == multiset(o2) && o1 != [] && j < |o2| && o2[j] == o1[|o1| - 1]
    ensures o2 == left + [o2[j]] + right
    ensures multiset(o1[..|o1| - 1]) == multiset(left + right)
  {
    left, right := o2[..j], o2[j + 1..];
    var init, x := o1[..|o1| - 1], o1[|o1| - 1];
    assert o2 == left + [x] + right;
    assert o1 == init + [x];
    assert multiset(o2) == multiset(left + right) + multiset{x};
    assert multiset(o1) == multiset(init) + multiset{x};
    forall k ensures multiset(init)[k] == multiset(left + right)[k] {
      assert multiset(o1)[k] == multiset(o2)[k];
    }
  }

  /** Gathering around one key adds that key's contribution to the multiset. */
  lemma GatherAround<K, T>(left: seq<K>, x: K, right: seq<K>, lists: map<K, seq<T>>, keep: K -> bool)
    requires forall k :: k in left + [x] + right ==> k in lists
    ensures forall k :: k in left + right ==> k in lists
    ensures multiset(Gather(left + [x] + right, lists, keep))
         == multiset(Gather(left + right, lists, keep)) + multiset(Gather([x], lists, keep))
  {
    assert forall k :: k in left ==> k in left + [x] + right;
    assert forall k :: k in right ==> k in left + [x] + right;
    GatherAppend(left, right, lists, keep);
    GatherAppend(left, [x], lists, keep);
    GatherAppend(left + [x], right, lists, keep);
  }

  /** Keys visited in two orders that each visit every key once form the same multiset. */
  lemma VisitOrdersPermute<K(!new), V>(o1: seq<K>, o2: seq<K>, m: map<K, V>)
    requires VisitOrder(o1, m) && VisitOrder(o2, m)
    ensures multiset(o1) == multiset(o2)
  {
    forall k ensures multiset(o1)[k] == multiset(o2)[k] {
      DistinctCount(o1, k);
      DistinctCount(o2, k);
    }
  }

  /** In a sequence without repetitions every element occurs once. */
  lemma {:induction false} DistinctCount<K>(s: seq<K>, k: K)
    requires forall i, j :: 0 <= i < j < |s| ==> s[i] != s[j]
    ensures multiset(s)[k] == if k in s then 1 else 0
    decreases |s|
  {
    if s != [] {
      var init := s[..|s| - 1];
      assert s == init + [s[|s| - 1]];
      DistinctCount(init, k);
      if k == s[|s| - 1] {
        assert k !in init;
      }
    }
  }

  /** A visiting order has one entry per key. */
  lemma VisitOrderLength<K(!new), V>(order: seq<K>, m: map<K, V>)
    requires VisitOrder(order, m)
    ensures |order| == |m|
  {
    DistinctCard(order);
    assert m.Keys == set k | k in order;
  }

  /** A sequence without repetitions has as many elements as its set of elements. */
  lemma {:induction false} DistinctCard<K>(s: seq<K>)
    requires forall i, j :: 0 <= i < j < |s| ==> s[i] != s[j]
    ensures |set k | k in s| == |s|
    decreases |s|
  {
    if s != [] {
      var init, last := s[..|s| - 1], s[|s| - 1];
      DistinctCard(init);
      assert last !in init;
      assert (set k | k in s) == (set k | k in init) + {last};
    }
  }
}
