/** The forced shutdowns: by filter, by uuid and worker by worker. They release tasks through
    different columns and offer them at different moments, and end in the same state. */
module Shutdown {
  import opened Schema
  import opened Lists
  import opened Tables
  import opened Invariants
  import opened Dispatcher
  import opened Protocol
  import opened Scheduling

  /** What the shutdown by filter makes of a state. */
  function Forced(s: State, ws: set<WorkerId>): State {
    var db' := Evict(s.db, ws);
    s.(db := db', queues := OfferAll(s.queues, db', HeldTasks(s.db, ws)) - ws,
       inflight := KeptCandidates(s.inflight, db'), beats := s.beats - ws)
  }

  lemma FilterIsForced(s: State, ws: set<WorkerId>)
    ensures Apply(s, ForceShutdown(ws)) == Forced(s, ws)
  {
  }

  lemma EvictTwice(db: Db, a: set<WorkerId>, b: set<WorkerId>)
    ensures Evict(Evict(db, a), b) == Evict(db, a + b)
    ensures HeldTasks(db, a + b) == HeldTasks(db, a) + HeldTasks(Evict(db, a), b)
  {
    var mid := Evict(db, a);
    assert forall t :: t in HeldTasks(mid, b) <==> t in HeldTasks(db, b) && t !in HeldTasks(db, a);
    assert Evict(mid, b).active == Evict(db, a + b).active;
    assert db.workers - a - b == db.workers - (a + b);
    assert db.groupWorker - a - b == db.groupWorker - (a + b);
  }

  /** Which tasks a surviving worker is offered does not depend on how many of the others are
      already gone. */
  lemma RunnableSettles(db: Db, a: set<WorkerId>, b: set<WorkerId>, v: WorkerId, ts: set<TaskId>)
    requires v !in a + b && ts <= HeldTasks(db, a)
    ensures Runnable(Evict(db, a), v, ts) == Runnable(Evict(db, a + b), v, ts)
  {
    var mid, end := Evict(db, a), Evict(db, a + b);
    assert forall t :: t in ts ==> mid.active[t] == end.active[t];
    assert forall t :: t in ts ==> (CanRun(mid, v, mid.active[t]) <==> CanRun(end, v, end.active[t]));
  }

  lemma RunnableSplits(db: Db, v: WorkerId, a: set<TaskId>, b: set<TaskId>, q: Queue)
    ensures q + Runnable(db, v, a) + Runnable(db, v, b) == q + Runnable(db, v, a + b)
  {
  }

  lemma OfferTwice(db: Db, qs: Queues, a: set<WorkerId>, b: set<WorkerId>, end: Db, tb: set<TaskId>)
    requires end == Evict(db, a + b)
    ensures var ta := HeldTasks(db, a);
      OfferAll(OfferAll(qs, Evict(db, a), ta) - a, end, tb) - b == OfferAll(qs, end, ta + tb) - (a + b)
  {
    var mid, ta := Evict(db, a), HeldTasks(db, a);
    forall v | v in qs && v !in a + b
      ensures qs[v] + Runnable(mid, v, ta) + Runnable(end, v, tb) == qs[v] + Runnable(end, v, ta + tb)
    {
      RunnableSettles(db, a, b, v, ta);
      RunnableSplits(end, v, ta, tb, qs[v]);
    }
    OfferParts(qs, mid, end, ta, tb, a, b);
  }

  lemma OfferParts(qs: Queues, mid: Db, end: Db, ta: set<TaskId>, tb: set<TaskId>,
                   a: set<WorkerId>, b: set<WorkerId>)
    requires forall v :: v in qs && v !in a + b ==>
      qs[v] + Runnable(mid, v, ta) + Runnable(end, v, tb) == qs[v] + Runnable(end, v, ta + tb)
    ensures OfferAll(OfferAll(qs, mid, ta) - a, end, tb) - b == OfferAll(qs, end, ta + tb) - (a + b)
  {
  }

  lemma DropTwice<K, V>(m: map<K, V>, a: set<K>, b: set<K>)
    ensures m - a - b == m - (a + b)
  {
  }

  lemma CandidatesTwice(inflight: Candidates, mid: Db, end: Db)
    requires end.workers.Keys <= mid.workers.Keys
    ensures KeptCandidates(KeptCandidates(inflight, mid), end) == KeptCandidates(inflight, end)
  {
  }

  /** Forcing out one set and then another is forcing out both. */
  lemma ForcedTwice(s: State, a: set<WorkerId>, b: set<WorkerId>)
    ensures Forced(Forced(s, a), b) == Forced(s, a + b)
  {
    var mid, end := Evict(s.db, a), Evict(s.db, a + b);
    assert Evict(mid, b) == end && HeldTasks(s.db, a + b) == HeldTasks(s.db, a) + HeldTasks(mid, b) by {
      EvictTwice(s.db, a, b);
    }
    assert end.workers.Keys <= mid.workers.Keys;
    OfferTwice(s.db, s.queues, a, b, end, HeldTasks(mid, b));
    CandidatesTwice(s.inflight, mid, end);
    DropTwice(s.beats, a, b);
  }

  lemma RemovalIsForced(s: State, w: WorkerId)
    requires Holding(s.db)
    ensures Apply(s, RemoveWorker(w)) == Forced(s, {w})
  {
    RemovalState(s, RemoveWorker(w));
  }

  lemma UuidsIsForced(s: State, ws: set<WorkerId>)
    requires Holding(s.db)
    ensures Apply(s, ForceShutdownByUuids(ws)) == Forced(s, ws)
  {
    RemovalState(s, ForceShutdownByUuids(ws));
  }

  function Removals(order: seq<WorkerId>): seq<Step> {
    seq(|order|, i requires 0 <= i < |order| => RemoveWorker(order[i]))
  }

  /** What removal one by one relies on, kept by every forced shutdown. */
  ghost predicate Agreeing(s: State) {
    Holding(s.db) && Fetching(s.db, s.inflight) && Keyed(s.db)
  }

  lemma ForcedAgrees(s: State, ws: set<WorkerId>)
    requires Agreeing(s)
    ensures Agreeing(Forced(s, ws)) && Forced(s, ws).db.workers == s.db.workers - ws
  {
    EvictHolding(s.db, ws);
    assert Ids(Evict(s.db, ws)) == Ids(s.db);
  }

  lemma ForcedNone(s: State)
    requires Agreeing(s)
    ensures Forced(s, {}) == s
  {
    assert HeldTasks(s.db, {}) == {};
    assert Evict(s.db, {}).active == s.db.active;
    assert Evict(s.db, {}) == s.db;
    assert forall w :: w in s.queues ==> s.queues[w] + Runnable(s.db, w, {}) == s.queues[w];
    assert OfferAll(s.queues, s.db, {}) == s.queues;
    Unfetched(s.db, s.db, s.inflight);
  }

  lemma RemovalsUnroll(order: seq<WorkerId>)
    requires order != []
    ensures Removals(order)[0] == RemoveWorker(order[0]) && Removals(order)[1..] == Removals(order[1..])
    ensures Elements(order) == {order[0]} + Elements(order[1..])
  {
  }

  lemma {:induction false} OneByOneIsForced(s: State, order: seq<WorkerId>)
    requires Agreeing(s) && Distinct(order) && forall w :: w in order ==> w in s.db.workers
    ensures Legal(s, Removals(order)) && Run(s, Removals(order)) == Forced(s, Elements(order))
    decreases |order|
  {
    if order == [] {
      ForcedNone(s);
      assert Elements(order) == {};
    } else {
      var w, rest := order[0], order[1..];
      RemovalsUnroll(order);
      RemovalIsForced(s, w);
      ForcedAgrees(s, {w});
      OneByOneIsForced(Forced(s, {w}), rest);
      ForcedTwice(s, {w}, Elements(rest));
    }
  }

  /** For any set of live workers, in any order, the three forms end in the same tables, the
      same queues and the same deadlines. */
  lemma ShutdownFormsAgree(s: State, order: seq<WorkerId>)
    requires Sound(s) && Distinct(order) && forall w :: w in order ==> w in s.db.workers
    ensures Legal(s, Removals(order))
    ensures Run(s, Removals(order)) == Apply(s, ForceShutdown(Elements(order)))
    ensures Apply(s, ForceShutdownByUuids(Elements(order))) == Apply(s, ForceShutdown(Elements(order)))
  {
    OneByOneIsForced(s, order);
    FilterIsForced(s, Elements(order));
    UuidsIsForced(s, Elements(order));
  }
}
