/** Ordering of the loaded list: newest first, by timestamp. */
module Ordering {
  import opened Records

  /** Non-increasing timestamps from left to right. */
  predicate SortedDesc(s: seq<Preference>)
  {
    forall i, j :: 0 <= i < j < |s| ==> s[i].timestamp >= s[j].timestamp
  }

  /** Places `p` after every leading element whose timestamp is at least its own. */
  function Insert(s: seq<Preference>, p: Preference): seq<Preference>
  {
    if s == [] then [p]
    else if s[0].timestamp < p.timestamp then [p] + s
    else [s[0]] + Insert(s[1..], p)
  }

  /**
   * The list after `list.sort((a, b) => b.timestamp - a.timestamp)`: a stable sort,
   * so records with equal timestamps keep their index order.
   */
  function SortByTimestampDesc(s: seq<Preference>): seq<Preference>
  {
    if s == [] then [] else Insert(SortByTimestampDesc(s[..|s| - 1]), s[|s| - 1])
  }

  lemma {:induction false} InsertPermutes(s: seq<Preference>, p: Preference)
    ensures multiset(Insert(s, p)) == multiset(s) + multiset{p}
  {
    if s != [] && s[0].timestamp >= p.timestamp {
      InsertPermutes(s[1..], p);
      assert s == [s[0]] + s[1..];
    }
  }

  lemma {:induction false} InsertKeepsSorted(s: seq<Preference>, p: Preference)
    requires SortedDesc(s)
    ensures SortedDesc(Insert(s, p))
  {
    if s != [] && s[0].timestamp >= p.timestamp {
      var t := Insert(s[1..], p);
      InsertKeepsSorted(s[1..], p);
      InsertPermutes(s[1..], p);
      forall k | 0 <= k < |t| ensures t[k].timestamp <= s[0].timestamp {
        assert t[k] in multiset(t);
        assert t[k] in multiset(s[1..]) || t[k] == p;
        if t[k] != p {
          var m :| 0 <= m < |s[1..]| && s[1..][m] == t[k];
          assert s[m + 1] == t[k];
        }
      }
    }
  }

  /** Inserting into a sorted prefix is splicing `p` in at the first strictly older element. */
  lemma {:induction false} InsertAt(s: seq<Preference>, p: Preference, j: nat)
    requires j <= |s|
    requires forall k :: 0 <= k < j ==> s[k].timestamp >= p.timestamp
    requires j < |s| ==> s[j].timestamp < p.timestamp
    ensures Insert(s, p) == s[..j] + [p] + s[j..]
  {
    if j > 0 {
      InsertAt(s[1..], p, j - 1);
      assert s[1..][..j - 1] == s[..j][1..];
      assert s[1..][j - 1..] == s[j..];
    }
  }

  /** The sorted list is sorted and holds exactly the records it was given. */
  lemma {:induction false} SortIsSortedPermutation(s: seq<Preference>)
    ensures SortedDesc(SortByTimestampDesc(s))
    ensures multiset(SortByTimestampDesc(s)) == multiset(s)
  {
    if s != [] {
      var init := s[..|s| - 1];
      SortIsSortedPermutation(init);
      InsertKeepsSorted(SortByTimestampDesc(init), s[|s| - 1]);
      InsertPermutes(SortByTimestampDesc(init), s[|s| - 1]);
      assert s == init + [s[|s| - 1]];
    }
  }

  /**
   * Sorting a list that is already newest first leaves it as it is; in particular
   * records with equal timestamps keep their order (the sort is stable).
   */
  lemma {:induction false} SortKeepsSortedInput(s: seq<Preference>)
    requires SortedDesc(s)
    ensures SortByTimestampDesc(s) == s
  {
    if s != [] {
      var init := s[..|s| - 1];
      SortKeepsSortedInput(init);
      InsertAt(init, s[|s| - 1], |init|);
      assert init + [s[|s| - 1]] == s;
    }
  }

  /** The records of `s` whose timestamp is `t`, in list order. */
  function WithTimestamp(s: seq<Preference>, t: int): seq<Preference>
  {
    if s == [] then []
    else (if s[0].timestamp == t then [s[0]] else []) + WithTimestamp(s[1..], t)
  }

  lemma {:induction false} WithTimestampAppend(a: seq<Preference>, b: seq<Preference>, t: int)
    ensures WithTimestamp(a + b, t) == WithTimestamp(a, t) + WithTimestamp(b, t)
  {
    if a == [] {
      assert a + b == b;
    } else {
      var head := if a[0].timestamp == t then [a[0]] else [];
      calc {
        WithTimestamp(a + b, t);
        { assert (a + b)[0] == a[0]; assert (a + b)[1..] == a[1..] + b; }
        head + WithTimestamp(a[1..] + b, t);
        { WithTimestampAppend(a[1..], b, t); }
        head + (WithTimestamp(a[1..], t) + WithTimestamp(b, t));
        (head + WithTimestamp(a[1..], t)) + WithTimestamp(b, t);
      }
    }
  }

  lemma {:induction false} WithTimestampNone(s: seq<Preference>, t: int)
    requires forall k :: 0 <= k < |s| ==> s[k].timestamp < t
    ensures WithTimestamp(s, t) == []
  {
    if s != [] {
      WithTimestampNone(s[1..], t);
    }
  }

  lemma {:induction false} InsertStable(s: seq<Preference>, p: Preference, t: int)
    requires SortedDesc(s)
    ensures WithTimestamp(Insert(s, p), t) == WithTimestamp(s, t) + WithTimestamp([p], t)
  {
    if s == [] {
    } else if s[0].timestamp < p.timestamp {
      assert ([p] + s)[1..] == s;
      if p.timestamp == t {
        WithTimestampNone(s, t);
      }
    } else {
      var rest := Insert(s[1..], p);
      InsertStable(s[1..], p, t);
      assert ([s[0]] + rest)[1..] == rest;
    }
  }

  /**
   * The sort is stable: for every timestamp, the records carrying it appear in
   * the sorted list in the same order as in the input.
   */
  lemma {:induction false} SortIsStable(s: seq<Preference>, t: int)
    ensures WithTimestamp(SortByTimestampDesc(s), t) == WithTimestamp(s, t)
  {
    if s != [] {
      var init, last := s[..|s| - 1], s[|s| - 1];
      var sortedInit := SortByTimestampDesc(init);
      calc {
        WithTimestamp(SortByTimestampDesc(s), t);
        WithTimestamp(Insert(sortedInit, last), t);
        { SortIsSortedPermutation(init); InsertStable(sortedInit, last, t); }
        WithTimestamp(sortedInit, t) + WithTimestamp([last], t);
        { SortIsStable(init, t); }
        WithTimestamp(init, t) + WithTimestamp([last], t);
        { WithTimestampAppend(init, [last], t); assert init + [last] == s; }
        WithTimestamp(s, t);
      }
    }
  }

  /** One insertion step: scan the sorted prefix from its end for the slot of `p`. */
  method InsertNewest(sorted: seq<Preference>, p: Preference) returns (r: seq<Preference>)
    requires SortedDesc(sorted)
    ensures r == Insert(sorted, p)
  {
    var j := |sorted|;
    while j > 0 && sorted[j - 1].timestamp < p.timestamp
      invariant 0 <= j <= |sorted|
      invariant forall k :: j <= k < |sorted| ==> sorted[k].timestamp < p.timestamp
    {
      j := j - 1;
    }
    InsertAt(sorted, p, j);
    r := sorted[..j] + [p] + sorted[j..];
  }

  /**
   * `list.sort(...)` on the freshly built list: an insertion sort over the
   * records in list order.
   */
  method SortByTimestamp(list: seq<Preference>) returns (sorted: seq<Preference>)
    ensures sorted == SortByTimestampDesc(list)
    ensures SortedDesc(sorted) && multiset(sorted) == multiset(list)
  {
    sorted := [];
    for i := 0 to |list|
      invariant sorted == SortByTimestampDesc(list[..i])
    {
      SortIsSortedPermutation(list[..i]);
      sorted := InsertNewest(sorted, list[i]);
      assert list[..i + 1][..i] == list[..i];
    }
    assert list[..|list|] == list;
    SortIsSortedPermutation(list);
  }
}
