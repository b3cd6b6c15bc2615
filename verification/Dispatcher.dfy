/** The in-memory dispatcher: one priority queue of task ids per worker. A queue of the
    library is a map from item to priority whose pop removes an item of greatest priority;
    pushing an item that is already there replaces its priority. */
module Dispatcher {
  import opened Schema
  import opened Lists

  type Queue = map<TaskId, int>
  type Queues = map<WorkerId, Queue>

  predicate IsTop(q: Queue, t: TaskId) {
    t in q && forall k :: k in q ==> q[k] <= q[t]
  }

  // ----- what each operation does to the queues, independently of any order of pushes

  function Put(q: Queue, t: TaskId, p: int): Queue {
    q[t := p]
  }

  function Registered(qs: Queues, w: WorkerId): Queues {
    if w in qs then qs else qs[w := map[]]
  }

  function Pushed(qs: Queues, w: WorkerId, t: TaskId, p: int): Queues {
    if w in qs then qs[w := Put(qs[w], t, p)] else qs
  }

  function BatchAdded(qs: Queues, ws: set<WorkerId>, t: TaskId, p: int): Queues {
    map w | w in qs :: if w in ws then Put(qs[w], t, p) else qs[w]
  }

  function Merged(qs: Queues, w: WorkerId, tasks: Queue): Queues {
    if w in qs then qs[w := qs[w] + tasks] else qs
  }

  function Removed(qs: Queues, ts: set<TaskId>): Queues {
    map w | w in qs :: qs[w] - ts
  }

  function Popped(qs: Queues, w: WorkerId, t: TaskId): Queues
    requires w in qs
  {
    qs[w := qs[w] - {t}]
  }

  /** The entries a list of pushes leaves behind: the last push of an id wins. */
  function Entries(tasks: seq<(TaskId, int)>): Queue {
    if tasks == [] then map[]
    else Put(Entries(tasks[..|tasks| - 1]), tasks[|tasks| - 1].0, tasks[|tasks| - 1].1)
  }

  /** A list without repeated ids, such as the rows of a query, leaves exactly its pairs. */
  lemma {:induction false} EntriesOfRows(tasks: seq<(TaskId, int)>, rows: Queue)
    requires forall i :: 0 <= i < |tasks| ==> tasks[i].0 in rows && rows[tasks[i].0] == tasks[i].1
    requires forall t :: t in rows ==> exists i :: 0 <= i < |tasks| && tasks[i].0 == t
    ensures Entries(tasks) == rows
  {
    EntriesWithin(tasks, rows);
    forall t | t in rows ensures t in Entries(tasks) {
      var i :| 0 <= i < |tasks| && tasks[i].0 == t;
      EntriesCover(tasks, i);
    }
  }

  lemma {:induction false} EntriesWithin(tasks: seq<(TaskId, int)>, rows: Queue)
    requires forall i :: 0 <= i < |tasks| ==> tasks[i].0 in rows && rows[tasks[i].0] == tasks[i].1
    ensures forall t :: t in Entries(tasks) ==> t in rows && Entries(tasks)[t] == rows[t]
    decreases |tasks|
  {
    if tasks != [] { EntriesWithin(tasks[..|tasks| - 1], rows); }
  }

  lemma {:induction false} EntriesCover(tasks: seq<(TaskId, int)>, i: nat)
    requires i < |tasks|
    ensures tasks[i].0 in Entries(tasks)
    decreases |tasks|
  {
    if i < |tasks| - 1 { EntriesCover(tasks[..|tasks| - 1], i); }
  }

  /** A queue that is not empty has an item to pop. */
  lemma {:induction false} TopExists(q: Queue)
    requires q != map[]
    ensures exists t :: IsTop(q, t)
    decreases |q|
  {
    var k :| k in q;
    var rest := q - {k};
    if rest == map[] {
      assert forall j :: j in q && j != k ==> j in rest;
      assert IsTop(q, k);
    } else {
      TopExists(rest);
      var t :| IsTop(rest, t);
      assert forall j :: j in q ==> j == k || j in rest;
      if q[t] < q[k] { assert IsTop(q, k); } else { assert IsTop(q, t); }
    }
  }

  datatype Op =
    | RegisterOp(w: WorkerId)
    | UnregisterOp(w: WorkerId)
    | AddTaskOp(w: WorkerId, t: TaskId, p: int)
    | AddTasksOp(w: WorkerId, tasks: seq<(TaskId, int)>)
    | BatchAddTaskOp(ws: seq<WorkerId>, t: TaskId, p: int)
    | BatchAddTasksOp(ws: seq<WorkerId>, tasks: seq<(TaskId, int)>)
    | RemoveTaskOp(t: TaskId)
    | FetchTaskOp(w: WorkerId)

  lemma MergedNext(qs: Queues, w: WorkerId, tasks: seq<(TaskId, int)>, i: nat)
    requires w in qs && i < |tasks|
    ensures Merged(qs, w, Entries(tasks[..i + 1]))
         == Pushed(Merged(qs, w, Entries(tasks[..i])), w, tasks[i].0, tasks[i].1)
  {
    assert tasks[..i + 1][..i] == tasks[..i];
    assert qs[w] + Entries(tasks[..i + 1]) == Put(qs[w] + Entries(tasks[..i]), tasks[i].0, tasks[i].1);
  }

  lemma BatchAddedNext(qs: Queues, ws: seq<WorkerId>, t: TaskId, p: int, i: nat)
    requires i < |ws|
    ensures BatchAdded(qs, Elements(ws[..i + 1]), t, p)
         == Pushed(BatchAdded(qs, Elements(ws[..i]), t, p), ws[i], t, p)
  {
    assert Elements(ws[..i + 1]) == Elements(ws[..i]) + {ws[i]};
    assert forall w :: w in qs ==> Put(Put(qs[w], t, p), t, p) == Put(qs[w], t, p);
  }

  /** What a message does to the queues, apart from a fetch, which may pop any top entry. */
  function Applied(qs: Queues, op: Op): Queues
    requires !op.FetchTaskOp?
  {
    match op
    case RegisterOp(w) => Registered(qs, w)
    case UnregisterOp(w) => qs - {w}
    case AddTaskOp(w, t, p) => Pushed(qs, w, t, p)
    case AddTasksOp(w, tasks) => Merged(qs, w, Entries(tasks))
    case BatchAddTaskOp(ws, t, p) => BatchAdded(qs, Elements(ws), t, p)
    case BatchAddTasksOp(ws, tasks) =>
      map w | w in qs :: if w in ws then qs[w] + Entries(tasks) else qs[w]
    case RemoveTaskOp(t) => Removed(qs, {t})
  }

  class TaskDispatcher {
    var workers: Queues

    constructor ()
      ensures workers == map[]
    {
      workers := map[];
    }

    method RegisterWorker(w: WorkerId)
      modifies this
      ensures workers == Registered(old(workers), w)
    {
      if w !in workers {
        workers := workers[w := map[]];
      }
    }

    method UnregisterWorker(w: WorkerId)
      modifies this
      ensures workers == old(workers) - {w}
    {
      workers := workers - {w};
    }

    method AddTask(w: WorkerId, t: TaskId, p: int)
      modifies this
      ensures workers == Pushed(old(workers), w, t, p)
    {
      if w in workers {
        workers := workers[w := Put(workers[w], t, p)];
      }
    }

    method AddTasks(w: WorkerId, tasks: seq<(TaskId, int)>)
      modifies this
      ensures workers == Merged(old(workers), w, Entries(tasks))
    {
      if w in workers {
        assert workers[w] + Entries(tasks[..0]) == workers[w];
        for i := 0 to |tasks|
          invariant w in workers && workers == Merged(old(workers), w, Entries(tasks[..i]))
        {
          MergedNext(old(workers), w, tasks, i);
          workers := workers[w := Put(workers[w], tasks[i].0, tasks[i].1)];
        }
        assert tasks[..|tasks|] == tasks;
      }
    }

    method BatchAddTask(ws: seq<WorkerId>, t: TaskId, p: int)
      modifies this
      ensures workers == BatchAdded(old(workers), Elements(ws), t, p)
    {
      for i := 0 to |ws|
        invariant workers == BatchAdded(old(workers), Elements(ws[..i]), t, p)
      {
        BatchAddedNext(old(workers), ws, t, p, i);
        AddTask(ws[i], t, p);
      }
      assert ws[..|ws|] == ws;
    }

    method BatchAddTasks(ws: seq<WorkerId>, tasks: seq<(TaskId, int)>)
      modifies this
      ensures workers == Applied(old(workers), BatchAddTasksOp(ws, tasks))
    {
      for i := 0 to |ws|
        invariant workers == Applied(old(workers), BatchAddTasksOp(ws[..i], tasks))
      {
        assert forall w :: w in ws[..i + 1] <==> w in ws[..i] || w == ws[i];
        assert forall w :: w in old(workers) ==>
          old(workers)[w] + Entries(tasks) + Entries(tasks) == old(workers)[w] + Entries(tasks);
        AddTasks(ws[i], tasks);
      }
      assert ws[..|ws|] == ws;
    }

    method RemoveTask(t: TaskId)
      modifies this
      ensures workers == Removed(old(workers), {t})
    {
      var todo := workers.Keys;
      while todo != {}
        invariant todo <= workers.Keys == old(workers).Keys
        invariant forall w :: w in workers ==>
          workers[w] == if w in todo then old(workers)[w] else old(workers)[w] - {t}
        decreases todo
      {
        var w :| w in todo;
        workers := workers[w := workers[w] - {t}];
        todo := todo - {w};
      }
    }

    /** An unknown worker and an empty queue are answered alike. */
    method FetchTask(w: WorkerId) returns (r: Option<TaskId>)
      modifies this
      ensures r.Some? ==> w in old(workers) && IsTop(old(workers)[w], r.value)
                          && workers == Popped(old(workers), w, r.value)
      ensures r.None? ==> workers == old(workers) && (w !in workers || workers[w] == map[])
    {
      r := None;
      if w in workers && workers[w] != map[] {
        TopExists(workers[w]);
        var t :| IsTop(workers[w], t);
        workers := workers[w := workers[w] - {t}];
        r := Some(t);
      }
    }

    /** Operations arrive through one channel and are handled in the order they were sent. The
        dispatcher stops when the channel is closed or the answer to a fetch cannot be
        delivered. */
    method HandleOp(op: Option<Op>, delivered: bool) returns (stop: bool, answer: Option<TaskId>)
      modifies this
      ensures op.None? ==> workers == old(workers)
      ensures op.Some? && !op.value.FetchTaskOp? ==> workers == Applied(old(workers), op.value)
      ensures op.Some? && op.value.FetchTaskOp? && answer.Some? ==>
        && op.value.w in old(workers) && IsTop(old(workers)[op.value.w], answer.value)
        && workers == Popped(old(workers), op.value.w, answer.value)
      ensures op.Some? && op.value.FetchTaskOp? && answer.None? ==>
        workers == old(workers) && (op.value.w !in workers || workers[op.value.w] == map[])
      ensures stop <==> op.None? || (op.value.FetchTaskOp? && !delivered)
    {
      stop, answer := false, None;
      if op.None? {
        stop := true;
        return;
      }
      match op.value
      case RegisterOp(w) => RegisterWorker(w);
      case UnregisterOp(w) => UnregisterWorker(w);
      case AddTaskOp(w, t, p) => AddTask(w, t, p);
      case AddTasksOp(w, tasks) => AddTasks(w, tasks);
      case BatchAddTaskOp(ws, t, p) => BatchAddTask(ws, t, p);
      case BatchAddTasksOp(ws, tasks) => BatchAddTasks(ws, tasks);
      case RemoveTaskOp(t) => RemoveTask(t);
      case FetchTaskOp(w) =>
        answer := FetchTask(w);
        stop := !delivered;
    }
  }
}
