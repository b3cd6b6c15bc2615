/** The heartbeat queue: one deadline per worker, earliest first. */
module Heartbeats {
  import opened Schema
  import opened Protocol

  type Deadlines = map<WorkerId, nat>

  /** A queue that is not empty has an earliest deadline. */
  lemma {:induction false} EarliestExists(beats: Deadlines)
    requires beats != map[]
    ensures exists w :: IsEarliest(beats, w)
    decreases |beats|
  {
    var k :| k in beats;
    var rest := beats - {k};
    assert forall v :: v in beats && v != k ==> v in rest && rest[v] == beats[v];
    if rest == map[] {
      assert IsEarliest(beats, k);
    } else {
      EarliestExists(rest);
      var w :| IsEarliest(rest, w);
      if beats[k] < beats[w] { assert IsEarliest(beats, k); } else { assert IsEarliest(beats, w); }
    }
  }

  class HeartbeatQueue {
    var workers: Deadlines
    const timeout: nat
    /** When the last heartbeat of a worker was handled. */
    ghost var heard: map<WorkerId, nat>

    constructor (timeout: nat)
      ensures workers == map[] && heard == map[] && this.timeout == timeout
    {
      this.timeout := timeout;
      workers, heard := map[], map[];
    }

    method Heartbeat(w: WorkerId, now: nat)
      modifies this
      ensures workers == old(workers)[w := now + timeout] && heard == old(heard)[w := now]
    {
      workers := workers[w := now + timeout];
      heard := heard[w := now];
    }

    method UnregisterWorker(w: WorkerId)
      modifies this`workers
      ensures workers == old(workers) - {w}
    {
      workers := workers - {w};
    }

    /** The worker to evict at this moment: the one with the earliest deadline, once that has
        passed. Nobody is evicted exactly when no deadline has passed. */
    method PopExpired(now: nat) returns (r: Option<WorkerId>)
      modifies this`workers
      ensures r.Some? ==> IsEarliest(old(workers), r.value) && old(workers)[r.value] <= now
                          && workers == old(workers) - {r.value}
      ensures r.None? <==> forall w :: w in old(workers) ==> now < old(workers)[w]
      ensures r.None? ==> workers == old(workers)
    {
      r := None;
      if workers != map[] {
        EarliestExists(workers);
        var w :| IsEarliest(workers, w);
        if workers[w] <= now {
          workers := workers - {w};
          r := Some(w);
        }
      }
    }

    /** How long `run` sleeps before it looks at the queue again: until the earliest deadline,
        or the full timeout when nobody is queued. A deadline that has passed means no wait. */
    method NextWait(now: nat) returns (wait: nat)
      ensures workers == map[] ==> wait == timeout
      ensures workers != map[] ==> exists w :: IsEarliest(workers, w) && wait == Until(workers[w], now)
      ensures forall w :: w in workers ==> wait <= Until(workers[w], now)
    {
      if workers == map[] {
        wait := timeout;
      } else {
        EarliestExists(workers);
        var w :| IsEarliest(workers, w);
        wait := Until(workers[w], now);
      }
    }
  }

  /** Subtracting instants saturates at zero. */
  function Until(deadline: nat, now: nat): nat {
    if deadline <= now then 0 else deadline - now
  }
}
