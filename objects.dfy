/** The sprite list of the raycaster (source/raycaster.cc, GameObject and the
    `objects` list of (int, GameObject) pairs): the end-of-frame
    `remove_if` on the removal flag and the sort by descending key.
    `std::list::sort` is stable, so it is specified here by a stable insertion
    sort: the result is ordered by non-increasing key, is a permutation of its
    input, and keeps the input order of entries whose keys are equal. */
module Objects {
  import opened Vec

  /** A sprite: position, velocity per second, the removal flag, and the index
      of its texture in the texture table (the source holds a pointer to
      textures[i]). */
  datatype GameObject = GameObject(pos: Vec2<real>, v: Vec2<real>, remove: bool, texture: nat)

  /** One list element: the sort key (the truncated distance to the player)
      and the object. */
  datatype Entry = Entry(key: int, obj: GameObject)

  /** The elements `remove_if` keeps: those whose flag is clear, in order. */
  function Survivors(s: seq<Entry>): (r: seq<Entry>)
    ensures |r| <= |s|
    ensures forall e :: e in r <==> e in s && !e.obj.remove
  {
    if s == [] then []
    else
      assert s == [s[0]] + s[1..];
      if s[0].obj.remove then Survivors(s[1..])
      else [s[0]] + Survivors(s[1..])
  }

  /** remove_if keeps the relative order: filtering a concatenation is the
      concatenation of the filtered parts. */
  lemma {:induction false} SurvivorsAppend(a: seq<Entry>, b: seq<Entry>)
    ensures Survivors(a + b) == Survivors(a) + Survivors(b)
    decreases |a|
  {
    if a == [] {
      assert a + b == b;
    } else {
      assert (a + b)[1..] == a[1..] + b;
      SurvivorsAppend(a[1..], b);
    }
  }

  /** An unflagged list survives unchanged. */
  lemma {:induction false} SurvivorsOfUnflagged(s: seq<Entry>)
    requires forall i :: 0 <= i < |s| ==> !s[i].obj.remove
    ensures Survivors(s) == s
    decreases |s|
  {
    if s != [] {
      SurvivorsOfUnflagged(s[1..]);
    }
  }

  /** Ordered by non-increasing key, as the comparator a.first > b.first asks. */
  predicate SortedDesc(s: seq<Entry>)
  {
    forall i, j :: 0 <= i < j < |s| ==> s[i].key >= s[j].key
  }

  /** Inserts `e` into a list ordered by non-increasing key, after every entry
      whose key is at least e's: an entry never overtakes an earlier one with
      the same key. */
  function InsertDesc(t: seq<Entry>, e: Entry): (r: seq<Entry>)
    ensures |r| == |t| + 1
  {
    if t == [] then [e]
    else if t[0].key < e.key then [e] + t
    else [t[0]] + InsertDesc(t[1..], e)
  }

  /** Insertion adds exactly `e`: nothing is lost or duplicated. */
  lemma {:induction false} InsertDescPermutes(t: seq<Entry>, e: Entry)
    ensures multiset(InsertDesc(t, e)) == multiset(t) + multiset{e}
    decreases |t|
  {
    if t != [] && t[0].key >= e.key {
      InsertDescPermutes(t[1..], e);
      assert t == [t[0]] + t[1..];
    }
  }

  /** Insertion keeps a list ordered by non-increasing key. */
  lemma {:induction false} InsertDescSorted(t: seq<Entry>, e: Entry)
    requires SortedDesc(t)
    ensures SortedDesc(InsertDesc(t, e))
    decreases |t|
  {
    if t != [] && t[0].key >= e.key {
      InsertDescSorted(t[1..], e);
      InsertDescPermutes(t[1..], e);
      var r := InsertDesc(t[1..], e);
      forall i | 0 <= i < |r|
        ensures r[i].key <= t[0].key
      {
        assert r[i] in multiset(r);
        if r[i] != e {
          assert r[i] in multiset(t[1..]);
          var j :| 0 <= j < |t[1..]| && t[1..][j] == r[i];
          assert t[j + 1] == r[i];
        }
      }
      ConsSorted(t[0], r);
    }
  }

  /** An entry whose key is at least every key of a sorted list can head it. */
  lemma ConsSorted(x: Entry, r: seq<Entry>)
    requires SortedDesc(r)
    requires forall i :: 0 <= i < |r| ==> r[i].key <= x.key
    ensures SortedDesc([x] + r)
  {
    var s := [x] + r;
    forall i, j | 0 <= i < j < |s|
      ensures s[i].key >= s[j].key
    {
      if i > 0 {
        assert s[i] == r[i - 1] && s[j] == r[j - 1];
      } else {
        assert s[j] == r[j - 1];
      }
    }
  }

  /** The stable sort of `s` by non-increasing key: insertion of each element,
      from first to last, into the sorted prefix. */
  function SortByKeyDesc(s: seq<Entry>): (r: seq<Entry>)
    ensures |r| == |s|
  {
    if s == [] then []
    else InsertDesc(SortByKeyDesc(s[..|s| - 1]), s[|s| - 1])
  }

  /** After the sort the keys never increase along the list. */
  lemma {:induction false} SortByKeyDescSorted(s: seq<Entry>)
    ensures SortedDesc(SortByKeyDesc(s))
    decreases |s|
  {
    if s != [] {
      SortByKeyDescSorted(s[..|s| - 1]);
      InsertDescSorted(SortByKeyDesc(s[..|s| - 1]), s[|s| - 1]);
    }
  }

  /** The sort neither loses nor duplicates an entry. */
  lemma {:induction false} SortByKeyDescPermutes(s: seq<Entry>)
    ensures multiset(SortByKeyDesc(s)) == multiset(s)
    decreases |s|
  {
    if s != [] {
      SortByKeyDescPermutes(s[..|s| - 1]);
      InsertDescPermutes(SortByKeyDesc(s[..|s| - 1]), s[|s| - 1]);
      InitThenLast(s);
    }
  }

  /** A non-empty list is its prefix followed by its last entry. */
  lemma InitThenLast(s: seq<Entry>)
    requires s != []
    ensures s == s[..|s| - 1] + [s[|s| - 1]]
  {
  }

  /** The entries with key k, in list order. */
  function WithKey(s: seq<Entry>, k: int): (r: seq<Entry>)
    ensures forall e :: e in r <==> e in s && e.key == k
  {
    if s == [] then []
    else (if s[0].key == k then [s[0]] else []) + WithKey(s[1..], k)
  }

  lemma {:induction false} WithKeyAppend(a: seq<Entry>, b: seq<Entry>, k: int)
    ensures WithKey(a + b, k) == WithKey(a, k) + WithKey(b, k)
    decreases |a|
  {
    if a == [] {
      assert a + b == b;
    } else {
      assert (a + b)[1..] == a[1..] + b;
      WithKeyAppend(a[1..], b, k);
    }
  }

  /** Inserting into a sorted list puts `e` after every entry with its key. */
  lemma {:induction false} InsertDescWithKey(t: seq<Entry>, e: Entry, k: int)
    requires SortedDesc(t)
    ensures WithKey(InsertDesc(t, e), k) == WithKey(t, k) + (if e.key == k then [e] else [])
    decreases |t|
  {
    if t == [] {
    } else if t[0].key < e.key {
      assert InsertDesc(t, e) == [e] + t;
      if e.key == k {
        NoneWithKey(t, k);
      }
      assert ([e] + t)[1..] == t;
    } else {
      InsertDescWithKey(t[1..], e, k);
      assert InsertDesc(t, e) == [t[0]] + InsertDesc(t[1..], e);
      assert ([t[0]] + InsertDesc(t[1..], e))[1..] == InsertDesc(t[1..], e);
    }
  }

  /** A list ordered by non-increasing key whose first key is below k holds no
      entry with key k. */
  lemma {:induction false} NoneWithKey(t: seq<Entry>, k: int)
    requires SortedDesc(t) && t != [] && t[0].key < k
    ensures WithKey(t, k) == []
    decreases |t|
  {
    if |t| > 1 {
      NoneWithKey(t[1..], k);
    }
  }

  /** The sort is stable: for every key, the entries with that key appear in
      the same order before and after it. */
  lemma {:induction false} SortByKeyDescStable(s: seq<Entry>, k: int)
    ensures WithKey(SortByKeyDesc(s), k) == WithKey(s, k)
    decreases |s|
  {
    if s != [] {
      var init, last := s[..|s| - 1], s[|s| - 1];
      var tail := if last.key == k then [last] else [];
      SortByKeyDescStable(init, k);
      SortByKeyDescSorted(init);
      InsertDescWithKey(SortByKeyDesc(init), last, k);
      assert WithKey(SortByKeyDesc(s), k) == WithKey(init, k) + tail;
      InitThenLast(s);
      WithKeyAppend(init, [last], k);
      assert [last][1..] == [];
      assert WithKey([last], k) == tail;
    }
  }
}
