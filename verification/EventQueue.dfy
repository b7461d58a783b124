// The orchestrator's event queue and the worker that drains it
// (backend/task_queue.py, backend/queue_worker.py).
module EventQueue {
  import opened Options

  datatype Item = Item(id: nat, event: nat, attempt: int, maxRetries: int,
                       result: Option<nat>, healing: Option<string>)

  datatype Status = Queued | Running | Completed | Retrying | Failed

  datatype StatusEntry = StatusEntry(status: Status, event: nat, attempt: int, maxRetries: int,
                                     message: string, result: Option<nat>, healing: Option<string>)

  // What Redis holds: the list and the status keys.
  datatype Store = Store(queue: seq<Item>, status: map<nat, StatusEntry>)

  // How one execution of an event ends. Unacknowledged: it returned, but recording that raised.
  datatype Outcome = Return(value: nat) | Raise(message: string) | Unacknowledged(value: nat, message: string)

  function NewItem(id: nat, event: nat, maxRetries: int): Item {
    Item(id, event, 0, maxRetries, None, None)
  }

  // RPUSH
  function Rpush(s: Store, item: Item): Store {
    s.(queue := s.queue + [item])
  }

  // SETEX of the status key
  function SetStatus(s: Store, status: Status, item: Item, message: string): Store {
    s.(status := s.status[item.id := StatusEntry(status, item.event, item.attempt, item.maxRetries,
                                                 message, item.result, item.healing)])
  }

  function Pushed(s: Store, item: Item): Store {
    SetStatus(Rpush(s, item), Queued, item, "")
  }

  // The store after a raised exception has been dealt with.
  function Healed(s: Store, item: Item, message: string): Store {
    if item.attempt < item.maxRetries then
      var again := item.(attempt := item.attempt + 1);
      SetStatus(Rpush(s, again), Retrying, again, message)
    else SetStatus(s, Failed, item, message)
  }

  function Ended(s: Store, item: Item, outcome: Outcome): Store {
    match outcome
    case Return(v) => SetStatus(s, Completed, item.(result := Some(v)), "")
    case Raise(m) => Healed(s, item.(healing := Some(m)), m)
    case Unacknowledged(v, m) => Healed(s, item.(result := Some(v), healing := Some(m)), m)
  }

  // The store after one call of process_next_event.
  function Processed(s: Store, outcome: Outcome): Store {
    if s.queue == [] then s
    else Ended(SetStatus(s.(queue := s.queue[1..]), Running, s.queue[0], ""), s.queue[0], outcome)
  }

  function Max(a: int, b: int): int {
    if a < b then b else a
  }

  // How many executions an item can still cause.
  function Budget(item: Item): nat {
    Max(0, item.maxRetries - item.attempt) + 1
  }

  function TotalBudget(queue: seq<Item>): nat {
    if queue == [] then 0 else Budget(queue[0]) + TotalBudget(queue[1..])
  }

  lemma {:induction false} TotalBudgetAppend(queue: seq<Item>, item: Item)
    ensures TotalBudget(queue + [item]) == TotalBudget(queue) + Budget(item)
  {
    if queue == [] {
    } else {
      TotalBudgetAppend(queue[1..], item);
      assert (queue + [item])[1..] == queue[1..] + [item];
    }
  }

  // Every execution uses up budget; it uses exactly one unit when it fails.
  lemma ProcessedBudget(s: Store, outcome: Outcome)
    requires s.queue != []
    ensures TotalBudget(Processed(s, outcome).queue) < TotalBudget(s.queue)
    ensures !outcome.Return? ==> TotalBudget(Processed(s, outcome).queue) == TotalBudget(s.queue) - 1
  {
    forall again: Item { TotalBudgetAppend(s.queue[1..], again); }
  }

  // Drains the queue; the k-th execution ends as oracle(k) says. Returns how many there were.
  function Drained(s: Store, oracle: nat -> Outcome, k: nat): (r: (Store, nat))
    decreases TotalBudget(s.queue)
  {
    if s.queue == [] then (s, 0)
    else
      ProcessedBudget(s, oracle(k));
      var rest := Drained(Processed(s, oracle(k)), oracle, k + 1);
      (rest.0, rest.1 + 1)
  }

  // Whatever the executors do, draining ends with an empty queue after at most one execution per
  // unit of budget. The bound is reached when everything fails; when nothing fails every item runs once.
  lemma {:induction false} DrainExecutions(s: Store, oracle: nat -> Outcome, k: nat)
    ensures Drained(s, oracle, k).0.queue == []
    ensures Drained(s, oracle, k).1 <= TotalBudget(s.queue)
    ensures (forall i: nat :: i >= k ==> !oracle(i).Return?) ==> Drained(s, oracle, k).1 == TotalBudget(s.queue)
    ensures (forall i: nat :: i >= k ==> oracle(i).Return?) ==> Drained(s, oracle, k).1 == |s.queue|
    decreases TotalBudget(s.queue)
  {
    if s.queue == [] {
    } else {
      ProcessedBudget(s, oracle(k));
      DrainExecutions(Processed(s, oracle(k)), oracle, k + 1);
    }
  }

  // ---- what a drain leaves on record ----

  // The entry says how the j-th execution ended: completed with its value, or failed with its message, all retries used.
  ghost predicate EndedAs(e: StatusEntry, outcome: Outcome) {
    match outcome
    case Return(v) => e.status == Completed && e.result == Some(v) && e.message == ""
    case Raise(m) => e.status == Failed && e.message == m && e.healing == Some(m) && e.attempt >= e.maxRetries
    case Unacknowledged(v, m) =>
      e.status == Failed && e.result == Some(v) && e.message == m && e.healing == Some(m) && e.attempt >= e.maxRetries
  }

  ghost predicate EndedBy(e: StatusEntry, oracle: nat -> Outcome, k: nat) {
    exists j: nat :: j >= k && EndedAs(e, oracle(j))
  }

  lemma HeadLeft(s: Store, outcome: Outcome)
    requires s.queue != []
    ensures var t, item := Processed(s, outcome), s.queue[0];
            && item.id in t.status
            && (t.queue == s.queue[1..] ==> EndedAs(t.status[item.id], outcome))
            && (t.queue == s.queue[1..] || (|t.queue| == |s.queue| && t.queue[..|s.queue| - 1] == s.queue[1..]
                                            && t.queue[|s.queue| - 1].id == item.id))
            && forall id :: id != item.id ==> (id in t.status <==> id in s.status) && (id in s.status ==> t.status[id] == s.status[id])
  {
  }

  lemma InQueueOrHead(s: Store, outcome: Outcome, id: nat)
    requires s.queue != []
    ensures InQueue(Processed(s, outcome), id) ==> InQueue(s, id)
    ensures InQueue(s, id) ==> InQueue(Processed(s, outcome), id) || s.queue[0].id == id
    ensures !InQueue(Processed(s, outcome), id) && s.queue[0].id == id ==> Processed(s, outcome).queue == s.queue[1..]
  {
    var t := Processed(s, outcome);
    HeadLeft(s, outcome);
    if i :| 0 <= i < |t.queue| && t.queue[i].id == id {
      if i < |s.queue| - 1 {
        assert t.queue[i] == t.queue[..|s.queue| - 1][i] == s.queue[i + 1];
      }
    }
    if i :| 0 < i < |s.queue| && s.queue[i].id == id {
      assert t.queue[i - 1] == t.queue[..|s.queue| - 1][i - 1] == s.queue[i];
    }
    if t.queue != s.queue[1..] { assert t.queue[|s.queue| - 1].id == s.queue[0].id; }
  }

  // Draining changes no entry of an event that is not queued.
  lemma {:induction false} DrainLeaves(s: Store, oracle: nat -> Outcome, k: nat, id: nat)
    requires !InQueue(s, id)
    ensures var t := Drained(s, oracle, k).0;
            (id in t.status <==> id in s.status) && (id in s.status ==> t.status[id] == s.status[id])
    decreases TotalBudget(s.queue)
  {
    if s.queue == [] {
    } else {
      ProcessedBudget(s, oracle(k));
      HeadLeft(s, oracle(k));
      InQueueOrHead(s, oracle(k), id);
      DrainLeaves(Processed(s, oracle(k)), oracle, k + 1, id);
    }
  }

  // After a drain every event that was queued is on record as its last execution ended.
  lemma {:induction false} DrainRecords(s: Store, oracle: nat -> Outcome, k: nat, id: nat)
    requires InQueue(s, id)
    ensures var t := Drained(s, oracle, k).0; id in t.status && EndedBy(t.status[id], oracle, k)
    decreases TotalBudget(s.queue)
  {
    var next := Processed(s, oracle(k));
    ProcessedBudget(s, oracle(k));
    InQueueOrHead(s, oracle(k), id);
    if InQueue(next, id) {
      DrainRecords(next, oracle, k + 1, id);
      var e := Drained(s, oracle, k).0.status[id];
      var j: nat :| j >= k + 1 && EndedAs(e, oracle(j));
      assert EndedBy(e, oracle, k);
    } else {
      HeadLeft(s, oracle(k));
      DrainLeaves(next, oracle, k + 1, id);
      assert EndedAs(next.status[id], oracle(k));
    }
  }

  // ---- serial use: one worker, pushes between its calls ----

  ghost predicate DistinctIds(queue: seq<Item>) {
    forall i, j :: 0 <= i < j < |queue| ==> queue[i].id != queue[j].id
  }

  ghost predicate InQueue(s: Store, id: nat) {
    exists i :: 0 <= i < |s.queue| && s.queue[i].id == id
  }

  ghost predicate WithinRetries(item: Item) {
    0 <= item.attempt <= Max(0, item.maxRetries)
  }

  ghost predicate Waiting(e: StatusEntry, item: Item) {
    && e.status == (if item.attempt == 0 then Queued else Retrying)
    && e.attempt == item.attempt && e.maxRetries == item.maxRetries && e.event == item.event
  }

  ghost predicate Finished(e: StatusEntry) {
    e.status in {Completed, Failed} && e.attempt <= Max(0, e.maxRetries)
  }

  // Apart from the events in flight, each known event is queued once and its status says so, or it is
  // finished and its status says so.
  ghost predicate Consistent(s: Store, inFlight: set<nat>) {
    && DistinctIds(s.queue)
    && (forall i :: 0 <= i < |s.queue| ==> WithinRetries(s.queue[i]) && s.queue[i].id !in inFlight &&
                                           s.queue[i].id in s.status && Waiting(s.status[s.queue[i].id], s.queue[i]))
    && (forall id :: id in s.status && id !in inFlight && !InQueue(s, id) ==> Finished(s.status[id]))
  }

  lemma RpushIn(s: Store, item: Item, id: nat)
    ensures InQueue(Rpush(s, item), id) <==> InQueue(s, id) || id == item.id
  {
    var q := Rpush(s, item).queue;
    assert q[|s.queue|] == item;
    assert forall i :: 0 <= i < |s.queue| ==> q[i] == s.queue[i];
  }

  lemma PopOut(s: Store, id: nat)
    requires s.queue != [] && DistinctIds(s.queue)
    ensures InQueue(s.(queue := s.queue[1..]), id) <==> InQueue(s, id) && id != s.queue[0].id
  {
    var q := s.queue[1..];
    assert forall i :: 0 <= i < |q| ==> q[i] == s.queue[i + 1];
    if InQueue(s, id) && id != s.queue[0].id {
      var i :| 0 <= i < |s.queue| && s.queue[i].id == id;
      assert q[i - 1].id == id;
    }
  }

  // Putting an event in the queue and announcing it.
  lemma AnnouncedConsistent(s: Store, item: Item, status: Status, message: string, inFlight: set<nat>)
    requires Consistent(s, inFlight + {item.id}) && !InQueue(s, item.id) && item.id !in inFlight
    requires WithinRetries(item) && status == (if item.attempt == 0 then Queued else Retrying)
    ensures Consistent(SetStatus(Rpush(s, item), status, item, message), inFlight)
  {
    var t := SetStatus(Rpush(s, item), status, item, message);
    assert forall i :: 0 <= i < |s.queue| ==> s.queue[i].id != item.id;
    forall id | id in t.status && id !in inFlight && !InQueue(t, id) ensures Finished(t.status[id]) {
      RpushIn(s, item, id);
    }
  }

  lemma PushKeepsConsistent(s: Store, item: Item)
    requires Consistent(s, {}) && item.id !in s.status && item.attempt == 0
    ensures Consistent(Pushed(s, item), {})
    ensures Pushed(s, item).status.Keys == s.status.Keys + {item.id}
  {
    assert !InQueue(s, item.id);
    AnnouncedConsistent(s, item, Queued, "", {});
  }

  lemma PopKeepsConsistent(s: Store, message: string)
    requires Consistent(s, {}) && s.queue != []
    ensures var head, rest := s.queue[0], s.(queue := s.queue[1..]);
            !InQueue(rest, head.id) && Consistent(SetStatus(rest, Running, head, message), {head.id})
  {
    var head := s.queue[0];
    var t := SetStatus(s.(queue := s.queue[1..]), Running, head, message);
    forall id { PopOut(s, id); }
    assert forall i :: 0 <= i < |t.queue| ==> t.queue[i] == s.queue[i + 1];
    forall id | id in t.status && id !in {head.id} && !InQueue(t, id) ensures Finished(t.status[id]) {
      assert !InQueue(s.(queue := s.queue[1..]), id);
    }
  }

  lemma FinalKeepsConsistent(s: Store, item: Item, outcome: Outcome)
    requires Consistent(s, {item.id}) && !InQueue(s, item.id) && WithinRetries(item)
    requires outcome.Return? || item.attempt >= item.maxRetries
    ensures Consistent(Ended(s, item, outcome), {})
  {
    var t := Ended(s, item, outcome);
    assert t.queue == s.queue;
    forall id | id in t.status && !InQueue(t, id) ensures Finished(t.status[id]) {
      assert InQueue(t, id) <==> InQueue(s, id);
    }
  }

  lemma HealedKeepsConsistent(s: Store, item: Item, message: string)
    requires Consistent(s, {item.id}) && !InQueue(s, item.id) && WithinRetries(item) && item.attempt < item.maxRetries
    ensures Consistent(Healed(s, item, message), {})
  {
    var none: set<nat> := {};
    assert none + {item.id} == {item.id};
    AnnouncedConsistent(s, item.(attempt := item.attempt + 1), Retrying, message, none);
  }

  lemma EndKeepsConsistent(s: Store, item: Item, outcome: Outcome)
    requires Consistent(s, {item.id}) && !InQueue(s, item.id) && WithinRetries(item)
    ensures Consistent(Ended(s, item, outcome), {})
  {
    if outcome.Return? || item.attempt >= item.maxRetries {
      FinalKeepsConsistent(s, item, outcome);
    } else {
      match outcome
      case Raise(m) => HealedKeepsConsistent(s, item.(healing := Some(m)), m);
      case Unacknowledged(v, m) => HealedKeepsConsistent(s, item.(result := Some(v), healing := Some(m)), m);
    }
  }

  // A call of the worker loses no event and invents none, and every status stays truthful.
  lemma ProcessKeepsConsistent(s: Store, outcome: Outcome)
    requires Consistent(s, {})
    ensures Consistent(Processed(s, outcome), {})
    ensures Processed(s, outcome).status.Keys == s.status.Keys
  {
    if s.queue != [] {
      PopKeepsConsistent(s, "");
      EndKeepsConsistent(SetStatus(s.(queue := s.queue[1..]), Running, s.queue[0], ""), s.queue[0], outcome);
    }
  }

  // The queue as Redis holds it: a shared list and shared status keys, changed in place.
  class OrchestratorQueue {
    var queue: seq<Item>
    var status: map<nat, StatusEntry>

    ghost function Contents(): Store
      reads this
    {
      Store(queue, status)
    }

    constructor ()
      ensures Contents() == Store([], map[])
    {
      queue, status := [], map[];
    }

    method UpdateEventStatus(s: Status, item: Item, message: string)
      modifies this
      ensures Contents() == SetStatus(old(Contents()), s, item, message)
    {
      status := status[item.id := StatusEntry(s, item.event, item.attempt, item.maxRetries,
                                              message, item.result, item.healing)];
    }

    method PushQueue(id: nat, event: nat, maxRetries: int) returns (item: Item)
      modifies this
      ensures item == NewItem(id, event, maxRetries)
      ensures Contents() == Pushed(old(Contents()), item)
    {
      item := Item(id, event, 0, maxRetries, None, None);
      queue := queue + [item];
      UpdateEventStatus(Queued, item, "");
    }

    method PopQueue() returns (item: Option<Item>)
      modifies this
      ensures status == old(status)
      ensures old(queue) == [] ==> item == None && queue == []
      ensures old(queue) != [] ==> item.Some? && old(queue) == [item.value] + queue
    {
      if |queue| == 0 { return None; }
      item := Some(queue[0]);
      queue := queue[1..];
    }

    method RequeueEvent(item: Item, message: string) returns (again: Item)
      modifies this
      ensures again == item.(attempt := item.attempt + 1)
      ensures Contents() == SetStatus(Rpush(old(Contents()), again), Retrying, again, message)
    {
      again := item.(attempt := item.attempt + 1);
      queue := queue + [again];
      UpdateEventStatus(Retrying, again, message);
    }

    method ProcessNextEvent(outcome: Outcome) returns (done: bool)
      modifies this
      ensures Contents() == Processed(old(Contents()), outcome)
      ensures done <==> old(queue) != [] && outcome.Return?
    {
      var popped := PopQueue();
      if popped == None { return false; }
      var item := popped.value;
      UpdateEventStatus(Running, item, "");
      if outcome.Return? {
        item := item.(result := Some(outcome.value));
        UpdateEventStatus(Completed, item, "");
        return true;
      }
      if outcome.Unacknowledged? {
        item := item.(result := Some(outcome.value));
      }
      item := item.(healing := Some(outcome.message));
      if item.attempt < item.maxRetries {
        var _ := RequeueEvent(item, outcome.message);
      } else {
        UpdateEventStatus(Failed, item, outcome.message);
      }
      return false;
    }

    // The worker's loop, run until the queue is empty.
    method Drain(oracle: nat -> Outcome) returns (executions: nat)
      modifies this
      ensures (Contents(), executions) == Drained(old(Contents()), oracle, 0)
      ensures queue == [] && executions <= TotalBudget(old(queue))
    {
      executions := 0;
      ghost var start := Contents();
      while |queue| > 0
        invariant Drained(start, oracle, 0) ==
                  (var rest := Drained(Contents(), oracle, executions); (rest.0, rest.1 + executions))
        decreases TotalBudget(queue)
      {
        ProcessedBudget(Contents(), oracle(executions));
        var _ := ProcessNextEvent(oracle(executions));
        executions := executions + 1;
      }
      DrainExecutions(start, oracle, 0);
    }
  }
}
