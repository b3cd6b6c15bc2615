/** Requests and query results as sequences. */
module Lists {

  function Elements<T>(s: seq<T>): set<T> {
    set x | x in s
  }

  predicate Distinct<T(==)>(s: seq<T>) {
    forall i, j :: 0 <= i < j < |s| ==> s[i] != s[j]
  }

  /** The rows of a query, in some order and each once. */
  method Rows<T(==)>(s: set<T>) returns (r: seq<T>)
    ensures Elements(r) == s && Distinct(r)
  {
    r := [];
    var todo := s;
    while todo != {}
      invariant todo <= s && Elements(r) == s - todo && Distinct(r)
      decreases todo
    {
      var x :| x in todo;
      assert x !in Elements(r);
      assert Elements(r + [x]) == Elements(r) + {x};
      r := r + [x];
      todo := todo - {x};
    }
  }

  /** The request without what was found, in order. */
  function Failed<T(==)>(us: seq<T>, found: set<T>): seq<T> {
    if us == [] then []
    else if us[|us| - 1] in found then Failed(us[..|us| - 1], found)
    else Failed(us[..|us| - 1], found) + [us[|us| - 1]]
  }

  /** `rest` is what remains of a list without the given elements: all the others, as often as
      they occur, and in their order. */
  ghost predicate Remains<T(!new)>(us: seq<T>, found: set<T>, rest: seq<T>) {
    && (forall x :: multiset(rest)[x] == if x in found then 0 else multiset(us)[x])
    && exists places :: InOrder(us, rest, places)
  }

  /** The elements of `rest` are found in `us` at increasing places. */
  ghost predicate InOrder<T>(us: seq<T>, rest: seq<T>, places: seq<nat>) {
    && |places| == |rest|
    && (forall i :: 0 <= i < |places| ==> places[i] < |us| && us[places[i]] == rest[i])
    && (forall i, j :: 0 <= i < j < |places| ==> places[i] < places[j])
  }

  ghost function Places<T>(us: seq<T>, found: set<T>): seq<nat> {
    if us == [] then []
    else if us[|us| - 1] in found then Places(us[..|us| - 1], found)
    else Places(us[..|us| - 1], found) + [|us| - 1]
  }

  lemma {:induction false} FailedInOrder<T>(us: seq<T>, found: set<T>)
    ensures InOrder(us, Failed(us, found), Places(us, found))
    decreases |us|
  {
    if us != [] {
      var before := us[..|us| - 1];
      FailedInOrder(before, found);
      assert forall i :: 0 <= i < |before| ==> us[i] == before[i];
    }
  }

  lemma {:induction false} FailedCounts<T>(us: seq<T>, found: set<T>, x: T)
    ensures multiset(Failed(us, found))[x] == if x in found then 0 else multiset(us)[x]
    decreases |us|
  {
    if us != [] {
      FailedCounts(us[..|us| - 1], found, x);
      assert us == us[..|us| - 1] + [us[|us| - 1]];
    }
  }

  lemma FailedRemains<T(!new)>(us: seq<T>, found: set<T>)
    ensures Remains(us, found, Failed(us, found))
  {
    FailedInOrder(us, found);
    forall x ensures multiset(Failed(us, found))[x] == if x in found then 0 else multiset(us)[x] {
      FailedCounts(us, found, x);
    }
  }

  /** What every batch call promises about its failures. */
  ghost predicate FailedIs<T(!new)>(us: seq<T>, found: set<T>, failed: seq<T>) {
    failed == Failed(us, found) && Remains(us, found, failed)
  }

  method Unfound<T(==, !new)>(us: seq<T>, found: set<T>) returns (failed: seq<T>)
    ensures FailedIs(us, found, failed)
  {
    failed := [];
    for i := 0 to |us|
      invariant failed == Failed(us[..i], found)
    {
      assert us[..i + 1][..i] == us[..i];
      if us[i] !in found { failed := failed + [us[i]]; }
    }
    assert us[..|us|] == us;
    FailedRemains(us, found);
  }

  lemma DistinctAppend<T>(a: seq<T>, b: seq<T>)
    requires Distinct(a) && Distinct(b) && Elements(a) !! Elements(b)
    ensures Distinct(a + b) && Elements(a + b) == Elements(a) + Elements(b)
  {
    forall i, j | 0 <= i < j < |a + b| ensures (a + b)[i] != (a + b)[j] {
      if i < |a| <= j {
        assert a[i] in Elements(a) && b[j - |a|] in Elements(b);
      }
    }
  }

  lemma DistinctSize<T>(r: seq<T>)
    requires Distinct(r)
    ensures |Elements(r)| == |r|
  {
    if r != [] {
      var last := r[|r| - 1];
      DistinctSize(r[..|r| - 1]);
      assert Elements(r) == Elements(r[..|r| - 1]) + {last};
      assert last !in Elements(r[..|r| - 1]);
    }
  }
}
