/** `sorted(games, key=itemgetter(1, 0))`: a stable sort of game records by the
    pair (engine, title), compared as Python compares tuples of strings. */
module EngineTitleSort {
  import opened Records
  import opened Strings

  /** `(g.engine, g.title) <= (h.engine, h.title)` in Python's tuple order. */
  predicate KeyLe(g: Game, h: Game)
  {
    StrLt(g.engine, h.engine) || (g.engine == h.engine && StrLe(g.title, h.title))
  }

  predicate SameKey(g: Game, h: Game)
  {
    g.engine == h.engine && g.title == h.title
  }

  lemma KeyLeTotal(g: Game, h: Game)
    ensures KeyLe(g, h) || KeyLe(h, g)
  {
    StrLeTotal(g.engine, h.engine);
    StrLeTotal(g.title, h.title);
  }

  lemma KeyLeTransitive(f: Game, g: Game, h: Game)
    requires KeyLe(f, g) && KeyLe(g, h)
    ensures KeyLe(f, h)
  {
    if f.engine == g.engine {
      if g.engine == h.engine {
        StrLeTransitive(f.title, g.title, h.title);
      }
    } else if g.engine == h.engine {
    } else {
      StrLeTransitive(f.engine, g.engine, h.engine);
      if f.engine == h.engine {
        StrLeAntisymmetric(f.engine, g.engine);
      }
    }
  }

  /** Two records that are each at most the other have the same key. */
  lemma KeyLeAntisymmetric(g: Game, h: Game)
    requires KeyLe(g, h) && KeyLe(h, g)
    ensures SameKey(g, h)
  {
    if g.engine == h.engine {
      StrLeAntisymmetric(g.title, h.title);
    } else {
      StrLeAntisymmetric(g.engine, h.engine);
    }
  }

  predicate Sorted(s: seq<Game>)
  {
    forall i, j :: 0 <= i < j < |s| ==> KeyLe(s[i], s[j])
  }

  /** The records of `s` whose key is that of `k`, in the order of `s`. */
  function WithKeyOf(s: seq<Game>, k: Game): (r: seq<Game>)
    ensures forall g :: g in r ==> g in s && SameKey(g, k)
    decreases |s|
  {
    if s == [] then []
    else if SameKey(s[0], k) then [s[0]] + WithKeyOf(s[1..], k)
    else WithKeyOf(s[1..], k)
  }

  /** Inserts `x` in front of the first record whose key is not below its key. */
  function Insert(x: Game, s: seq<Game>): (r: seq<Game>)
    ensures |r| == |s| + 1
    ensures multiset(r) == multiset(s) + multiset{x}
    decreases |s|
  {
    if s == [] then [x]
    else if KeyLe(x, s[0]) then [x] + s
    else
      assert s == [s[0]] + s[1..];
      [s[0]] + Insert(x, s[1..])
  }

  /** Every element of a sequence is one of its indexed elements. */
  lemma InMultisetAt(g: Game, s: seq<Game>) returns (j: nat)
    requires g in multiset(s)
    ensures j < |s| && s[j] == g
  {
    assert g in s;
    j :| 0 <= j < |s| && s[j] == g;
  }

  lemma {:induction false} InsertSorted(x: Game, s: seq<Game>)
    requires Sorted(s)
    ensures Sorted(Insert(x, s))
    decreases |s|
  {
    if s == [] {
    } else if KeyLe(x, s[0]) {
      forall j | 0 <= j < |s|
        ensures KeyLe(x, s[j])
      {
        if j > 0 {
          KeyLeTransitive(x, s[0], s[j]);
        }
      }
    } else {
      var rest := Insert(x, s[1..]);
      InsertSorted(x, s[1..]);
      KeyLeTotal(x, s[0]);
      forall k | 0 <= k < |rest|
        ensures KeyLe(s[0], rest[k])
      {
        assert rest[k] in multiset(rest);
        if rest[k] != x {
          var j := InMultisetAt(rest[k], s[1..]);
          assert s[j + 1] == rest[k];
        }
      }
      assert Insert(x, s) == [s[0]] + rest;
    }
  }

  /** `sorted(s, key=itemgetter(1, 0))`. */
  function SortByEngineTitle(s: seq<Game>): (r: seq<Game>)
    ensures |r| == |s|
    ensures multiset(r) == multiset(s)
    decreases |s|
  {
    if s == [] then []
    else
      assert s == [s[0]] + s[1..];
      Insert(s[0], SortByEngineTitle(s[1..]))
  }

  /** The sorted list is in non-decreasing (engine, title) order. */
  lemma {:induction false} SortedBySort(s: seq<Game>)
    ensures Sorted(SortByEngineTitle(s))
    decreases |s|
  {
    if s != [] {
      SortedBySort(s[1..]);
      InsertSorted(s[0], SortByEngineTitle(s[1..]));
    }
  }

  lemma KeyLeReflexive(g: Game)
    ensures KeyLe(g, g)
  {
    StrLeReflexive(g.title);
  }

  /** Inserting `x` adds it in front of the records that share its key. */
  lemma {:induction false} InsertWithKeyOf(x: Game, s: seq<Game>, k: Game)
    ensures WithKeyOf(Insert(x, s), k) == if SameKey(x, k) then [x] + WithKeyOf(s, k) else WithKeyOf(s, k)
    decreases |s|
  {
    if s == [] {
    } else if KeyLe(x, s[0]) {
      assert ([x] + s)[1..] == s;
    } else {
      KeyLeReflexive(x);
      assert !SameKey(x, s[0]);
      InsertWithKeyOf(x, s[1..], k);
      assert ([s[0]] + Insert(x, s[1..]))[1..] == Insert(x, s[1..]);
    }
  }

  /** The sort is stable: records with equal keys keep their input order. */
  lemma {:induction false} SortIsStable(s: seq<Game>, k: Game)
    ensures WithKeyOf(SortByEngineTitle(s), k) == WithKeyOf(s, k)
    decreases |s|
  {
    if s != [] {
      SortIsStable(s[1..], k);
      InsertWithKeyOf(s[0], SortByEngineTitle(s[1..]), k);
    }
  }

  /** Sorting a sorted list changes nothing. */
  lemma {:induction false} SortOfSorted(s: seq<Game>)
    requires Sorted(s)
    ensures SortByEngineTitle(s) == s
    decreases |s|
  {
    if s != [] {
      SortOfSorted(s[1..]);
      if |s| > 1 {
        assert KeyLe(s[0], s[1]);
        assert s[1..][0] == s[1];
      }
      assert [s[0]] + s[1..] == s;
    }
  }

  lemma {:induction false} WithKeyOfHead(s: seq<Game>, k: Game)
    requires s != []
    ensures WithKeyOf(s, k) == if SameKey(s[0], k) then [s[0]] + WithKeyOf(s[1..], k) else WithKeyOf(s[1..], k)
  {
  }

  /** A record is found among the records with its own key. */
  lemma {:induction false} InWithOwnKey(s: seq<Game>, j: nat)
    requires j < |s|
    ensures s[j] in WithKeyOf(s, s[j])
    decreases j
  {
    if j > 0 {
      InWithOwnKey(s[1..], j - 1);
      assert s[1..][j - 1] == s[j];
    }
  }

  lemma SameRecordsPerKeyEmpty(t: seq<Game>, u: seq<Game>)
    requires forall k :: WithKeyOf(t, k) == WithKeyOf(u, k)
    ensures t == [] <==> u == []
  {
    if t != [] {
      InWithOwnKey(t, 0);
      assert WithKeyOf(u, t[0]) != [];
    }
    if u != [] {
      InWithOwnKey(u, 0);
      assert WithKeyOf(t, u[0]) != [];
    }
  }

  lemma SortedHeadIsLeast(t: seq<Game>, g: Game)
    requires Sorted(t) && g in t
    ensures KeyLe(t[0], g)
  {
    var i :| 0 <= i < |t| && t[i] == g;
    if i == 0 {
      KeyLeReflexive(g);
    }
  }

  lemma SameRecordsPerKeyHeadKey(t: seq<Game>, u: seq<Game>)
    requires t != [] && u != [] && Sorted(t) && Sorted(u)
    requires forall k :: WithKeyOf(t, k) == WithKeyOf(u, k)
    ensures SameKey(t[0], u[0])
  {
    InWithOwnKey(u, 0);
    assert u[0] in WithKeyOf(t, u[0]);
    SortedHeadIsLeast(t, u[0]);
    InWithOwnKey(t, 0);
    assert t[0] in WithKeyOf(u, t[0]);
    SortedHeadIsLeast(u, t[0]);
    KeyLeAntisymmetric(t[0], u[0]);
  }

  lemma SameRecordsPerKeyHead(t: seq<Game>, u: seq<Game>)
    requires t != [] && u != [] && SameKey(t[0], u[0])
    requires WithKeyOf(t, t[0]) == WithKeyOf(u, t[0])
    ensures t[0] == u[0]
  {
    WithKeyOfHead(t, t[0]);
    WithKeyOfHead(u, t[0]);
    assert WithKeyOf(t, t[0])[0] == t[0];
    assert WithKeyOf(u, t[0])[0] == u[0];
  }

  lemma SameRecordsPerKeyTail(t: seq<Game>, u: seq<Game>)
    requires t != [] && u != [] && t[0] == u[0]
    requires forall k :: WithKeyOf(t, k) == WithKeyOf(u, k)
    ensures forall k :: WithKeyOf(t[1..], k) == WithKeyOf(u[1..], k)
  {
    forall k
      ensures WithKeyOf(t[1..], k) == WithKeyOf(u[1..], k)
    {
      WithKeyOfHead(t, k);
      WithKeyOfHead(u, k);
      assert WithKeyOf(t, k) == WithKeyOf(u, k);
      if SameKey(t[0], k) {
        assert ([t[0]] + WithKeyOf(t[1..], k))[1..] == WithKeyOf(t[1..], k);
        assert ([u[0]] + WithKeyOf(u[1..], k))[1..] == WithKeyOf(u[1..], k);
      }
    }
  }

  /** Sortedness and the order of equal-key records determine a list:
      two sorted lists with the same records per key are equal. */
  lemma {:induction false} SortedUnique(t: seq<Game>, u: seq<Game>)
    requires Sorted(t) && Sorted(u)
    requires forall k :: WithKeyOf(t, k) == WithKeyOf(u, k)
    ensures t == u
    decreases |t|
  {
    SameRecordsPerKeyEmpty(t, u);
    if t != [] {
      SameRecordsPerKeyHeadKey(t, u);
      SameRecordsPerKeyHead(t, u);
      SameRecordsPerKeyTail(t, u);
      SortedUnique(t[1..], u[1..]);
      assert t == [t[0]] + t[1..] && u == [u[0]] + u[1..];
    }
  }

  /** The sort is Python's `sorted` by (engine, title): its result is the only
      sorted list that keeps, for every key, the input order of the records
      with that key. */
  lemma SortIsTheStableSort(s: seq<Game>, t: seq<Game>)
    requires Sorted(t)
    requires forall k :: WithKeyOf(t, k) == WithKeyOf(s, k)
    ensures t == SortByEngineTitle(s)
  {
    SortedBySort(s);
    forall k
      ensures WithKeyOf(t, k) == WithKeyOf(SortByEngineTitle(s), k)
    {
      SortIsStable(s, k);
    }
    SortedUnique(t, SortByEngineTitle(s));
  }
}
