/** Sorting twice by a stable sort. */
module StableSort {

  /** x goes before the first element it may stand before. */
  function Insert<T>(x: T, s: seq<T>, ge: (T, T) -> bool): seq<T> {
    if s == [] || ge(x, s[0]) then [x] + s else [s[0]] + Insert(x, s[1..], ge)
  }

  /** sorted(s, reverse=True): descending, and elements that tie stay in the order they were in. */
  function Sort<T>(s: seq<T>, ge: (T, T) -> bool): seq<T> {
    if s == [] then [] else Insert(s[0], Sort(s[1..], ge), ge)
  }

  ghost predicate Order<T(!new)>(ge: (T, T) -> bool) {
    && (forall x, y :: ge(x, y) || ge(y, x))
    && (forall x, y, z :: ge(x, y) && ge(y, z) ==> ge(x, z))
  }

  ghost predicate Descending<T>(s: seq<T>, ge: (T, T) -> bool) {
    forall i, j :: 0 <= i < j < |s| ==> ge(s[i], s[j])
  }

  lemma {:induction false} InsertKeeps<T(!new)>(x: T, s: seq<T>, ge: (T, T) -> bool)
    ensures multiset(Insert(x, s, ge)) == multiset(s) + multiset{x}
    ensures Order(ge) && Descending(s, ge) ==> Descending(Insert(x, s, ge), ge)
    decreases |s|
  {
    if s != [] && !ge(x, s[0]) {
      var t := s[1..];
      InsertKeeps(x, t, ge);
      assert s == [s[0]] + t;
      var r := Insert(x, t, ge);
      if Order(ge) && Descending(s, ge) {
        forall k | 0 <= k < |r| ensures ge(s[0], r[k]) {
          assert r[k] in multiset(r);
          if r[k] != x { assert r[k] in multiset(t); var m :| 0 <= m < |t| && t[m] == r[k]; assert s[m + 1] == r[k]; }
        }
      }
    }
  }

  /** The result is a descending permutation. */
  lemma {:induction false} SortSorts<T(!new)>(s: seq<T>, ge: (T, T) -> bool)
    requires Order(ge)
    ensures multiset(Sort(s, ge)) == multiset(s) && Descending(Sort(s, ge), ge)
    decreases |s|
  {
    if s != [] {
      SortSorts(s[1..], ge);
      InsertKeeps(s[0], Sort(s[1..], ge), ge);
      assert s == [s[0]] + s[1..];
    }
  }

  // ---- ties --------------------------------------------------------------------------

  predicate Tie<T>(x: T, y: T, ge: (T, T) -> bool) {
    ge(x, y) && ge(y, x)
  }

  function Ties<T>(s: seq<T>, x: T, ge: (T, T) -> bool): seq<T> {
    if s == [] then [] else (if Tie(s[0], x, ge) then [s[0]] else []) + Ties(s[1..], x, ge)
  }

  lemma TiesCons<T>(z: T, t: seq<T>, x: T, ge: (T, T) -> bool)
    ensures Ties([z] + t, x, ge) == (if Tie(z, x, ge) then [z] else []) + Ties(t, x, ge)
  {
    assert ([z] + t)[1..] == t;
  }

  lemma {:induction false} InsertTies<T(!new)>(y: T, s: seq<T>, x: T, ge: (T, T) -> bool)
    requires Order(ge)
    ensures Ties(Insert(y, s, ge), x, ge) == (if Tie(y, x, ge) then [y] else []) + Ties(s, x, ge)
    decreases |s|
  {
    hide Order;
    hide Ties;
    if s == [] || ge(y, s[0]) {
      TiesCons(y, s, x, ge);
    } else {
      var z, t := s[0], s[1..];
      InsertTies(y, t, x, ge);
      assert s == [z] + t;
      TiesCons(z, t, x, ge);
      TiesCons(z, Insert(y, t, ge), x, ge);
      Transits(y, x, z, ge);
      assert Tie(y, x, ge) ==> !Tie(z, x, ge);
    }
  }

  lemma Transits<T(!new)>(x: T, y: T, z: T, ge: (T, T) -> bool)
    requires Order(ge)
    ensures ge(x, y) && ge(y, z) ==> ge(x, z)
  {}

  /** Elements that tie keep their order. */
  lemma {:induction false} SortIsStable<T(!new)>(s: seq<T>, x: T, ge: (T, T) -> bool)
    requires Order(ge)
    ensures Ties(Sort(s, ge), x, ge) == Ties(s, x, ge)
    decreases |s|
  {
    if s != [] {
      SortIsStable(s[1..], x, ge);
      InsertTies(s[0], Sort(s[1..], ge), x, ge);
    }
  }

  // ---- twice -------------------------------------------------------------------------

  /** By `first`; where that ties, by `second`. */
  function Then<T>(first: T -> int, second: (T, T) -> bool): (T, T) -> bool {
    (x: T, y: T) => first(x) > first(y) || (first(x) == first(y) && second(x, y))
  }

  function By<T>(first: T -> int): (T, T) -> bool {
    (x: T, y: T) => first(x) >= first(y)
  }

  /** Against elements x may stand before, the second criterion makes no difference. */
  lemma {:induction false} InsertAmongLower<T(!new)>(x: T, u: seq<T>, first: T -> int, second: (T, T) -> bool)
    requires forall k :: 0 <= k < |u| ==> second(x, u[k])
    ensures Insert(x, u, By(first)) == Insert(x, u, Then(first, second))
    decreases |u|
  {
    if u != [] { InsertAmongLower(x, u[1..], first, second); }
  }

  /** a stands strictly before x by the second criterion: it does not matter which is inserted first. */
  lemma {:induction false} InsertsCommute<T(!new)>(a: T, x: T, u: seq<T>, first: T -> int, second: (T, T) -> bool)
    requires second(a, x) && !second(x, a)
    ensures Insert(a, Insert(x, u, Then(first, second)), By(first)) == Insert(x, Insert(a, u, By(first)), Then(first, second))
    decreases |u|
  {
    var p, c := Then(first, second), By(first);
    if u == [] {
      assert Insert(a, [x], c) == if c(a, x) then [a, x] else [x, a] by { assert [x][1..] == []; }
      assert Insert(x, [a], p) == if p(x, a) then [x, a] else [a, x] by { assert [a][1..] == []; }
    } else {
      var y, v := u[0], u[1..];
      InsertsCommute(a, x, v, first, second);
      assert u == [y] + v;
      assert ([y] + Insert(x, v, p))[1..] == Insert(x, v, p) && ([y] + Insert(a, v, c))[1..] == Insert(a, v, c);
      assert ([x] + u)[1..] == u && ([a] + u)[1..] == u;
    }
  }

  lemma {:induction false} SortInserted<T(!new)>(x: T, t: seq<T>, first: T -> int, second: (T, T) -> bool)
    requires Order(second) && Descending(t, second)
    ensures Sort(Insert(x, t, second), By(first)) == Insert(x, Sort(t, By(first)), Then(first, second))
    decreases |t|
  {
    var c := By(first);
    if t == [] {
      assert [x][1..] == [];
    } else if second(x, t[0]) {
      assert ([x] + t)[1..] == t;
      var u := Sort(t, c);
      ByIsOrder(first);
      SortSorts(t, c);
      forall k | 0 <= k < |u| ensures second(x, u[k]) {
        assert u[k] in multiset(u);
        assert u[k] in t;
      }
      InsertAmongLower(x, u, first, second);
    } else {
      SortInserted(x, t[1..], first, second);
      assert ([t[0]] + Insert(x, t[1..], second))[1..] == Insert(x, t[1..], second);
      InsertsCommute(t[0], x, Sort(t[1..], c), first, second);
    }
  }

  lemma ByIsOrder<T(!new)>(first: T -> int)
    ensures Order(By(first))
  {}

  lemma ThenIsOrder<T(!new)>(first: T -> int, second: (T, T) -> bool)
    requires Order(second)
    ensures Order(Then(first, second))
  {}

  /** Sorting by the tie-break and then by the criterion is sorting by both at once. */
  lemma {:induction false} TwoSortsAreOne<T(!new)>(s: seq<T>, first: T -> int, second: (T, T) -> bool)
    requires Order(second)
    ensures Sort(Sort(s, second), By(first)) == Sort(s, Then(first, second))
    decreases |s|
  {
    if s != [] {
      TwoSortsAreOne(s[1..], first, second);
      SortSorts(s[1..], second);
      SortInserted(s[0], Sort(s[1..], second), first, second);
    }
  }
}
