/** Stable sorting by a two-part integer key, and filtering: the list facts the shop overlay needs. */
module StableSort {

  datatype Key = Key(major: int, minor: int)

  predicate AtMost(a: Key, b: Key) {
    a.major < b.major || (a.major == b.major && a.minor <= b.minor)
  }

  predicate Sorted<T>(s: seq<T>, key: T -> Key) {
    forall i, j | 0 <= i < j < |s| :: AtMost(key(s[i]), key(s[j]))
  }

  /** `x` goes before the first element that is not smaller: it came first among its equals. */
  function Insert<T>(x: T, s: seq<T>, key: T -> Key): (r: seq<T>)
    ensures multiset(r) == multiset{x} + multiset(s)
  {
    if s == [] || AtMost(key(x), key(s[0])) then [x] + s
    else
      assert s == [s[0]] + s[1..];
      [s[0]] + Insert(x, s[1..], key)
  }

  /** `sort_by_key`. */
  function Sort<T>(s: seq<T>, key: T -> Key): (r: seq<T>)
    ensures multiset(r) == multiset(s)
  {
    if s == [] then []
    else
      assert s == [s[0]] + s[1..];
      Insert(s[0], Sort(s[1..], key), key)
  }

  lemma {:induction false} InsertSorts<T>(x: T, s: seq<T>, key: T -> Key)
    requires Sorted(s, key)
    ensures Sorted(Insert(x, s, key), key)
  {
    if s != [] && !AtMost(key(x), key(s[0])) {
      var rest := Insert(x, s[1..], key);
      InsertSorts(x, s[1..], key);
      forall j | 0 <= j < |rest| ensures AtMost(key(s[0]), key(rest[j])) {
        assert rest[j] in multiset(rest);
        if rest[j] != x {
          assert rest[j] in s[1..];
        }
      }
    }
  }

  lemma {:induction false} SortSorts<T>(s: seq<T>, key: T -> Key)
    ensures Sorted(Sort(s, key), key)
  {
    if s != [] {
      SortSorts(s[1..], key);
      InsertSorts(s[0], Sort(s[1..], key), key);
    }
  }

  lemma {:induction false} SortOfSorted<T>(s: seq<T>, key: T -> Key)
    requires Sorted(s, key)
    ensures Sort(s, key) == s
  {
    if s != [] {
      SortOfSorted(s[1..], key);
      assert s == [s[0]] + s[1..];
    }
  }

  /** The elements of `s` that satisfy `p`, in order. */
  function Keep<T>(s: seq<T>, p: T -> bool): (r: seq<T>)
    ensures forall i | 0 <= i < |r| :: r[i] in s && p(r[i])
  {
    if s == [] then [] else (if p(s[0]) then [s[0]] else []) + Keep(s[1..], p)
  }

  lemma KeepCons<T>(x: T, s: seq<T>, p: T -> bool)
    ensures Keep([x] + s, p) == (if p(x) then [x] else []) + Keep(s, p)
  {
    assert ([x] + s)[1..] == s;
  }

  lemma KeepHead<T>(s: seq<T>, p: T -> bool)
    requires s != []
    ensures Keep(s, p) == (if p(s[0]) then [s[0]] else []) + Keep(s[1..], p)
  {
  }

  lemma {:induction false} KeepConcat<T>(a: seq<T>, b: seq<T>, p: T -> bool)
    ensures Keep(a + b, p) == Keep(a, p) + Keep(b, p)
  {
    if a == [] {
      assert a + b == b;
    } else {
      hide Keep;
      KeepConcat(a[1..], b, p);
      assert a + b == [a[0]] + (a[1..] + b);
      KeepCons(a[0], a[1..] + b, p);
      KeepHead(a, p);
    }
  }

  lemma {:induction false} KeepNone<T>(s: seq<T>, p: T -> bool)
    requires forall x | x in s :: !p(x)
    ensures Keep(s, p) == []
  {
    if s != [] {
      KeepNone(s[1..], p);
    }
  }

  lemma {:induction false} KeepAll<T>(s: seq<T>, p: T -> bool)
    requires forall x | x in s :: p(x)
    ensures Keep(s, p) == s
  {
    if s != [] {
      KeepAll(s[1..], p);
      assert s == [s[0]] + s[1..];
    }
  }

  lemma InsertFront<T>(x: T, s: seq<T>, kept: seq<T>, key: T -> Key)
    requires Sorted(s, key) && s != [] && AtMost(key(x), key(s[0]))
    requires forall i | 0 <= i < |kept| :: kept[i] in s
    ensures Insert(x, kept, key) == [x] + kept
  {
    if kept != [] {
      var i :| 0 <= i < |s| && s[i] == kept[0];
      assert i > 0 ==> AtMost(key(s[0]), key(s[i]));
    }
  }

  lemma InsertStep<T>(x: T, s: seq<T>, key: T -> Key)
    ensures s == [] || AtMost(key(x), key(s[0])) ==> Insert(x, s, key) == [x] + s
    ensures s != [] && !AtMost(key(x), key(s[0])) ==> Insert(x, s, key) == [s[0]] + Insert(x, s[1..], key)
  {
  }

  lemma {:induction false} InsertKeep<T>(x: T, s: seq<T>, key: T -> Key, p: T -> bool)
    requires Sorted(s, key)
    ensures Keep(Insert(x, s, key), p) == if p(x) then Insert(x, Keep(s, p), key) else Keep(s, p)
  {
    hide Keep, Insert, AtMost;
    InsertStep(x, s, key);
    if s == [] {
      NothingToSort(key, p);
      KeepCons(x, s, p);
      InsertStep(x, Keep(s, p), key);
    } else if AtMost(key(x), key(s[0])) {
      KeepCons(x, s, p);
      InsertFront(x, s, Keep(s, p), key);
      assert [] + Keep(s, p) == Keep(s, p);
    } else {
      var rest, kept := Insert(x, s[1..], key), Keep(s[1..], p);
      InsertKeep(x, s[1..], key, p);
      KeepCons(s[0], rest, p);
      KeepHead(s, p);
      if p(s[0]) {
        InsertBehind(x, s[0], kept, key);
      } else {
        assert [] + kept == kept && [] + Keep(rest, p) == Keep(rest, p);
      }
    }
  }

  lemma InsertBehind<T>(x: T, first: T, rest: seq<T>, key: T -> Key)
    requires !AtMost(key(x), key(first))
    ensures Insert(x, [first] + rest, key) == [first] + Insert(x, rest, key)
  {
    assert ([first] + rest)[1..] == rest;
  }

  /** Stability: filtering commutes with sorting. */
  lemma {:induction false} SortKeep<T>(s: seq<T>, key: T -> Key, p: T -> bool)
    ensures Keep(Sort(s, key), p) == Sort(Keep(s, p), key)
  {
    hide Keep, Insert, Sort, Sorted;
    if s == [] {
      NothingToSort(key, p);
    } else {
      var first, rest := s[0], s[1..];
      var kept := Keep(rest, p);
      assert s == [first] + rest;
      SortKeep(rest, key, p);
      SortSorts(rest, key);
      SortCons(first, rest, key);
      InsertKeep(first, Sort(rest, key), key, p);
      KeepHead(s, p);
      if p(first) {
        SortCons(first, kept, key);
      } else {
        assert [] + kept == kept;
      }
    }
  }

  lemma NothingToSort<T>(key: T -> Key, p: T -> bool)
    ensures Sort([], key) == [] && Keep([], p) == []
  {
  }

  lemma SortCons<T>(x: T, s: seq<T>, key: T -> Key)
    ensures Sort([x] + s, key) == Insert(x, Sort(s, key), key)
  {
    assert ([x] + s)[1..] == s;
  }
}
