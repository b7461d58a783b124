// The task queue whose executions are retried and also spawn successors
// (backend/queue.py; backend/worker.py, _handle_task_direct and what it calls).
module FlowQueue {
  import opened Options
  import opened Ownership

  // What the worker reads from a task's split_plan.
  datatype Plan =
    | Flow(flowId: nat, steps: seq<string>, index: Option<nat>)
    | Loop(loopId: nat, autoOptimize: bool, iteration: int)

  datatype TaskStatus = Assigned | TaskRunning | TaskCompleted

  // A row of the task centre.
  datatype Task = Task(plan: Plan, owner: Owner, status: TaskStatus, parent: Option<nat>, assignedTo: string)

  datatype Kind = Sprint17 | Sprint18 | Collector | Unknown

  datatype Item = Item(id: nat, kind: Kind, center: nat, ownership: Option<Owner>, attempt: int, maxRetries: int)

  datatype Status = Queued | Running | Retrying | Success | Failed

  datatype Update = Update(item: nat, status: Status, attempt: int)

  datatype World = World(queue: seq<Item>, statuses: map<nat, Update>, recent: seq<Update>,
                         tasks: map<nat, Task>, nextTask: nat, nextItem: nat)

  const RECENT: nat := 200
  const STRATEGIST: string := "tiance_strategy"

  // Where one execution goes wrong, if it does.
  datatype Outcome =
    | Lost           // before the try block: the item is gone
    | FailExecute    // before the result is committed
    | FailSpawn      // result committed, the successor's commit fails
    | FailEnqueue    // successor committed, queueing it fails
    | FailLate       // successor committed and queued, then something raises
    | Succeed

  // ---- queue.py ----

  // LPUSH then LTRIM 0 199
  function Recorded(recent: seq<Update>, u: Update): seq<Update> {
    var all := [u] + recent;
    if |all| <= RECENT then all else all[..RECENT]
  }

  function Noted(w: World, item: Item, status: Status): World {
    var u := Update(item.id, status, item.attempt);
    w.(statuses := w.statuses[item.id := u], recent := Recorded(w.recent, u))
  }

  function Enqueued(w: World, kind: Kind, center: nat, ownership: Option<Owner>, maxRetries: int): World {
    var item := Item(w.nextItem, kind, center, ownership, 0, maxRetries);
    Noted(w.(queue := w.queue + [item], nextItem := w.nextItem + 1), item, Queued)
  }

  function Requeued(w: World, item: Item): World {
    var again := item.(attempt := item.attempt + 1);
    Noted(w.(queue := w.queue + [again]), again, Retrying)
  }

  // ---- worker.py ----

  // The plan and employee of the successor, if the plan asks for one.
  function Successor(kind: Kind, plan: Plan): Option<(Plan, string)> {
    match (kind, plan)
    case (Sprint17, Flow(id, steps, Some(index))) =>
      if steps == [] || index >= |steps| - 1 then None
      else Some((Flow(id, steps, Some(index + 1)), steps[index + 1]))
    case (Sprint18, Loop(id, auto, iteration)) =>
      if !auto || iteration >= 1 then None
      else Some((Loop(id, false, iteration + 1), STRATEGIST))
    case _ => None
  }

  predicate Owned(w: World, item: Item) {
    item.center in w.tasks && OwnedBy(w.tasks[item.center].owner, item.ownership)
  }

  predicate HasTask(item: Item) {
    item.kind.Sprint17? || item.kind.Sprint18?
  }

  function SetTaskStatus(w: World, center: nat, status: TaskStatus): World
    requires center in w.tasks
  {
    w.(tasks := w.tasks[center := w.tasks[center].(status := status)])
  }

  // create_next_flow_task_if_needed and create_sprint18_feedback_task_if_needed
  function Spawned(w: World, kind: Kind, center: nat, outcome: Outcome): World
    requires center in w.tasks
  {
    var task := w.tasks[center];
    var next := Successor(kind, task.plan);
    var owner := BoundFrom(task.owner);
    if next.None? || owner.None? || outcome.FailSpawn? then w
    else
      var child := Task(next.value.0, owner.value, Assigned, Some(center), next.value.1);
      var added := w.(tasks := w.tasks[w.nextTask := child], nextTask := w.nextTask + 1);
      if outcome.FailEnqueue? then added
      else Enqueued(added, kind, w.nextTask, ContextOf(owner.value), 1)
  }

  // execute_sprint17_task and execute_sprint18_business_loop
  function Executed(w: World, item: Item, outcome: Outcome): World
    requires item.center in w.tasks
  {
    if outcome.FailExecute? then SetTaskStatus(w, item.center, TaskRunning)
    else Spawned(SetTaskStatus(w, item.center, TaskCompleted), item.kind, item.center, outcome)
  }

  // _handle_task_direct on an item. One whose ownership does not match is refused before the try block, so nothing is
  // queued for it; that the event that brought it is delivered again is in FlowDelivery.
  function Handled(w: World, item: Item, outcome: Outcome): World {
    if (HasTask(item) && !Owned(w, item)) || outcome.Lost? then w
    else
      var started := Noted(w, item, Running);
      var done := if HasTask(item) then Executed(started, item, outcome) else started;
      if outcome.Succeed? && !item.kind.Unknown? then Noted(done, item, Success)
      else if item.attempt < item.maxRetries then Requeued(done, item)
      else Noted(done, item, Failed)
  }

  function Processed(w: World, outcome: Outcome): World {
    if w.queue == [] then w else Handled(w.(queue := w.queue[1..]), w.queue[0], outcome)
  }

  // ---- the weighted measure ----

  // How many successors of successors a plan can still have.
  function Depth(kind: Kind, plan: Plan): nat {
    match (kind, plan)
    case (Sprint17, Flow(_, steps, Some(index))) => if index < |steps| then |steps| - 1 - index else 0
    case (Sprint18, Loop(_, auto, iteration)) => if auto && iteration < 1 then 1 else 0
    case _ => 0
  }

  lemma SuccessorDepth(kind: Kind, plan: Plan)
    ensures Successor(kind, plan).Some? <==> Depth(kind, plan) > 0
    ensures Successor(kind, plan).Some? ==> Depth(kind, Successor(kind, plan).value.0) == Depth(kind, plan) - 1
  {
  }

  function Pow2(n: nat): nat {
    if n == 0 then 1 else 2 * Pow2(n - 1)
  }

  function Tries(item: Item): nat {
    1 + if item.attempt < item.maxRetries then item.maxRetries - item.attempt else 0
  }

  // Executions caused by one execution at a given depth: itself, and a successor tried twice.
  function Tree(depth: nat): nat {
    if depth == 0 then 1 else 1 + 2 * Tree(depth - 1)
  }

  // Tasks created by one execution at a given depth.
  function Brood(depth: nat): nat {
    if depth == 0 then 0 else 1 + 2 * Brood(depth - 1)
  }

  lemma {:induction false} ClosedForms(depth: nat)
    ensures Tree(depth) == Pow2(depth + 1) - 1
    ensures Brood(depth) == Pow2(depth) - 1
  {
    if depth == 0 {
    } else {
      ClosedForms(depth - 1);
    }
  }

  function DepthOf(w: World, item: Item): nat {
    if HasTask(item) && Owned(w, item) then Depth(item.kind, w.tasks[item.center].plan) else 0
  }

  // A refused item is looked at once.
  function TriesOf(w: World, item: Item): nat {
    if HasTask(item) && !Owned(w, item) then 1 else Tries(item)
  }

  function Weight(w: World, item: Item): nat {
    TriesOf(w, item) * Tree(DepthOf(w, item))
  }

  function Births(w: World, item: Item): nat {
    TriesOf(w, item) * Brood(DepthOf(w, item))
  }

  function TotalWeight(w: World, queue: seq<Item>): nat {
    if queue == [] then 0 else Weight(w, queue[0]) + TotalWeight(w, queue[1..])
  }

  function TotalBirths(w: World, queue: seq<Item>): nat {
    if queue == [] then 0 else Births(w, queue[0]) + TotalBirths(w, queue[1..])
  }

  // What the queue takes when nothing fails.
  function TotalLength(w: World, queue: seq<Item>): nat {
    if queue == [] then 0 else 1 + DepthOf(w, queue[0]) + TotalLength(w, queue[1..])
  }

  // Ids are handed out in order: nothing refers to a task that is yet to come.
  ghost predicate Sane(w: World) {
    && (forall id :: id in w.tasks ==> id < w.nextTask)
    && (forall i :: 0 <= i < |w.queue| ==> w.queue[i].center < w.nextTask)
  }

  // Plans and owners of tasks known before are as they were.
  ghost predicate Grown(w: World, t: World) {
    && w.nextTask <= t.nextTask
    && (forall id :: id < w.nextTask ==> (id in w.tasks <==> id in t.tasks))
    && (forall id :: id < w.nextTask && id in w.tasks ==>
          t.tasks[id].plan == w.tasks[id].plan && t.tasks[id].owner == w.tasks[id].owner)
  }

  lemma {:induction false} TotalsFrame(w: World, t: World, queue: seq<Item>)
    requires Grown(w, t) && forall i :: 0 <= i < |queue| ==> queue[i].center < w.nextTask
    ensures TotalWeight(t, queue) == TotalWeight(w, queue)
    ensures TotalBirths(t, queue) == TotalBirths(w, queue)
    ensures TotalLength(t, queue) == TotalLength(w, queue)
  {
    if queue == [] {
    } else {
      TotalsFrame(w, t, queue[1..]);
    }
  }

  // ---- what one execution does ----

  predicate Refused(w: World, item: Item) {
    HasTask(item) && !Owned(w, item)
  }

  predicate SpawnsTask(w: World, item: Item, outcome: Outcome) {
    !outcome.Lost? && !outcome.FailExecute? && !outcome.FailSpawn? && DepthOf(w, item) > 0
  }

  predicate Retries(w: World, item: Item, outcome: Outcome) {
    !Refused(w, item) && !outcome.Lost? && (!outcome.Succeed? || item.kind.Unknown?) && item.attempt < item.maxRetries
  }

  function Child(w: World, item: Item): Item
    requires item.center in w.tasks
  {
    Item(w.nextItem, item.kind, w.nextTask, Some(w.tasks[item.center].owner.(canonicalRun := None)), 0, 1)
  }

  function Again(item: Item): Item {
    item.(attempt := item.attempt + 1)
  }

  function Left(w: World, item: Item, outcome: Outcome): seq<Item> {
    (if SpawnsTask(w, item, outcome) && !outcome.FailEnqueue? then [Child(w, item)] else [])
    + if Retries(w, item, outcome) then [Again(item)] else []
  }

  lemma HandledQueue(w: World, item: Item, outcome: Outcome)
    requires Sane(w) && item.center < w.nextTask
    ensures var t := Handled(w, item, outcome);
            && t.queue == w.queue + Left(w, item, outcome)
            && t.nextTask == w.nextTask + (if SpawnsTask(w, item, outcome) then 1 else 0)
  {
    if !Refused(w, item) && !outcome.Lost? && HasTask(item) {
      SuccessorDepth(item.kind, w.tasks[item.center].plan);
      BoundIsOwned(w.tasks[item.center].owner);
    }
  }

  // The tasks as the status writes of the queue leave them.
  lemma SpawnedGrown(w: World, item: Item, outcome: Outcome)
    requires (forall id :: id in w.tasks ==> id < w.nextTask) && item.center in w.tasks
    ensures var t := Executed(w, item, outcome); Grown(w, t) && forall id :: id in t.tasks ==> id < t.nextTask
  {
  }

  lemma HandledGrown(w: World, item: Item, outcome: Outcome)
    requires Sane(w) && item.center < w.nextTask
    ensures Grown(w, Handled(w, item, outcome)) && forall id :: id in Handled(w, item, outcome).tasks ==> id < Handled(w, item, outcome).nextTask
  {
    var t, started := Handled(w, item, outcome), Noted(w, item, Running);
    if HasTask(item) && Owned(w, item) && !outcome.Lost? {
      var done := Executed(started, item, outcome);
      assert t.tasks == done.tasks && t.nextTask == done.nextTask;
      SpawnedGrown(started, item, outcome);
    } else {
      assert t.tasks == w.tasks && t.nextTask == w.nextTask;
    }
  }

  lemma HandledSane(w: World, item: Item, outcome: Outcome)
    requires Sane(w) && item.center < w.nextTask
    ensures Sane(Handled(w, item, outcome))
  {
    HandledQueue(w, item, outcome);
    HandledGrown(w, item, outcome);
    forall i | 0 <= i < |w.queue + Left(w, item, outcome)|
      ensures (w.queue + Left(w, item, outcome))[i].center < Handled(w, item, outcome).nextTask
    {
    }
  }

  lemma HandledShape(w: World, item: Item, outcome: Outcome)
    requires Sane(w) && item.center < w.nextTask
    ensures var t := Handled(w, item, outcome);
            && t.queue == w.queue + Left(w, item, outcome)
            && t.nextTask == w.nextTask + (if SpawnsTask(w, item, outcome) then 1 else 0)
            && Grown(w, t) && Sane(t)
    ensures SpawnsTask(w, item, outcome) ==>
              var t, parent := Handled(w, item, outcome), w.tasks[item.center];
              && w.nextTask in t.tasks
              && t.tasks[w.nextTask].owner == parent.owner.(canonicalRun := None)
              && t.tasks[w.nextTask].parent == Some(item.center)
              && (t.tasks[w.nextTask].plan, t.tasks[w.nextTask].assignedTo) == Successor(item.kind, parent.plan).value
  {
    HandledQueue(w, item, outcome);
    HandledGrown(w, item, outcome);
    HandledSane(w, item, outcome);
    if SpawnsTask(w, item, outcome) {
      SuccessorDepth(item.kind, w.tasks[item.center].plan);
      OwnedIffOwnContext(w.tasks[item.center].owner, item.ownership);
    }
  }

  // The child opens its task and weighs as much as two executions one level down.
  lemma ChildWeight(w: World, item: Item, outcome: Outcome)
    requires Sane(w) && item.center < w.nextTask && SpawnsTask(w, item, outcome)
    ensures var t, c := Handled(w, item, outcome), Child(w, item);
            && Owned(t, c) && DepthOf(t, c) == DepthOf(w, item) - 1
            && Weight(t, c) == Tree(DepthOf(w, item)) - 1 && Births(t, c) == Brood(DepthOf(w, item)) - 1
  {
    HandledShape(w, item, outcome);
    SuccessorDepth(item.kind, w.tasks[item.center].plan);
    assert Tries(Child(w, item)) == 2;
  }

  lemma AgainWeight(w: World, t: World, item: Item)
    requires Grown(w, t) && item.center < w.nextTask && !Refused(w, item) && item.attempt < item.maxRetries
    ensures Weight(t, Again(item)) == Weight(w, item) - Tree(DepthOf(w, item))
    ensures Births(t, Again(item)) == Births(w, item) - Brood(DepthOf(w, item))
  {
    var d := DepthOf(w, item);
    assert DepthOf(t, Again(item)) == d && TriesOf(t, Again(item)) == Tries(item) - 1;
    assert (Tries(item) - 1) * Tree(d) == Tries(item) * Tree(d) - Tree(d);
    assert (Tries(item) - 1) * Brood(d) == Tries(item) * Brood(d) - Brood(d);
  }

  lemma AtLeastOnce(w: World, item: Item)
    ensures Weight(w, item) >= Tree(DepthOf(w, item)) >= 1
    ensures Births(w, item) >= Brood(DepthOf(w, item))
    ensures TriesOf(w, item) == 1 ==> Weight(w, item) == Tree(DepthOf(w, item)) && Births(w, item) == Brood(DepthOf(w, item))
  {
    var d, n := DepthOf(w, item), TriesOf(w, item);
    assert n * Tree(d) == Tree(d) + (n - 1) * Tree(d) && n * Brood(d) == Brood(d) + (n - 1) * Brood(d);
  }

  lemma TotalsLeft(w: World, item: Item, outcome: Outcome)
    requires Sane(w) && item.center < w.nextTask
    ensures var t, left := Handled(w, item, outcome), Left(w, item, outcome);
            && TotalWeight(t, left) < Weight(w, item)
            && TotalBirths(t, left) + (t.nextTask - w.nextTask) <= Births(w, item)
            && (outcome.FailLate? ==> TotalWeight(t, left) == Weight(w, item) - 1)
            && (outcome.FailLate? ==> TotalBirths(t, left) + (t.nextTask - w.nextTask) == Births(w, item))
            && (outcome.Succeed? && !item.kind.Unknown? ==> TotalLength(t, left) == DepthOf(w, item))
  {
    var t, left := Handled(w, item, outcome), Left(w, item, outcome);
    HandledShape(w, item, outcome);
    AtLeastOnce(w, item);
    if SpawnsTask(w, item, outcome) { ChildWeight(w, item, outcome); }
    if Retries(w, item, outcome) { AgainWeight(w, t, item); }
    TotalsPair(t, left);
  }

  lemma TotalsPair(t: World, left: seq<Item>)
    requires |left| <= 2
    ensures |left| == 0 ==> TotalWeight(t, left) == 0 && TotalBirths(t, left) == 0 && TotalLength(t, left) == 0
    ensures |left| == 1 ==> TotalWeight(t, left) == Weight(t, left[0]) && TotalBirths(t, left) == Births(t, left[0]) &&
                            TotalLength(t, left) == 1 + DepthOf(t, left[0])
    ensures |left| == 2 ==> TotalWeight(t, left) == Weight(t, left[0]) + Weight(t, left[1]) &&
                            TotalBirths(t, left) == Births(t, left[0]) + Births(t, left[1])
  {
    if |left| == 2 { assert left[1..] == [left[1]]; }
  }

  lemma {:induction false} TotalsConcat(w: World, a: seq<Item>, b: seq<Item>)
    ensures TotalWeight(w, a + b) == TotalWeight(w, a) + TotalWeight(w, b)
    ensures TotalBirths(w, a + b) == TotalBirths(w, a) + TotalBirths(w, b)
    ensures TotalLength(w, a + b) == TotalLength(w, a) + TotalLength(w, b)
  {
    if a == [] { assert a + b == b; }
    else {
      TotalsConcat(w, a[1..], b);
      assert (a + b)[1..] == a[1..] + b;
    }
  }

  // One execution takes its item out of the sums and puts what it leaves into them.
  lemma ProcessedSums(w: World, outcome: Outcome)
    requires Sane(w) && w.queue != []
    ensures var t, item, left := Processed(w, outcome), w.queue[0], Left(w.(queue := w.queue[1..]), w.queue[0], outcome);
            && TotalWeight(t, t.queue) == TotalWeight(w, w.queue) - Weight(w, item) + TotalWeight(t, left)
            && TotalBirths(t, t.queue) == TotalBirths(w, w.queue) - Births(w, item) + TotalBirths(t, left)
            && TotalLength(t, t.queue) == TotalLength(w, w.queue) - 1 - DepthOf(w, item) + TotalLength(t, left)
  {
    var item, rest := w.queue[0], w.(queue := w.queue[1..]);
    var t := Handled(rest, item, outcome);
    HandledShape(rest, item, outcome);
    TotalsFrame(w, t, rest.queue);
    TotalsConcat(t, rest.queue, Left(rest, item, outcome));
  }

  // One execution uses up weight, whatever goes wrong in it; failing as late as possible uses up the least.
  lemma ProcessedTotals(w: World, outcome: Outcome)
    requires Sane(w) && w.queue != []
    ensures var t := Processed(w, outcome);
            && Sane(t) && w.nextTask <= t.nextTask
            && TotalWeight(t, t.queue) < TotalWeight(w, w.queue)
            && TotalBirths(t, t.queue) + (t.nextTask - w.nextTask) <= TotalBirths(w, w.queue)
            && (outcome.FailLate? ==> TotalWeight(t, t.queue) == TotalWeight(w, w.queue) - 1)
            && (outcome.FailLate? ==> TotalBirths(t, t.queue) + (t.nextTask - w.nextTask) == TotalBirths(w, w.queue))
            && (outcome.Succeed? && !w.queue[0].kind.Unknown? ==>
                  TotalLength(t, t.queue) == TotalLength(w, w.queue) - 1)
  {
    var item, rest := w.queue[0], w.(queue := w.queue[1..]);
    var t := Handled(rest, item, outcome);
    HandledShape(rest, item, outcome);
    TotalsLeft(rest, item, outcome);
    ProcessedSums(w, outcome);
  }

  // ---- draining ----

  // Drains the queue; the k-th execution goes as oracle(k) says. Returns how many there were.
  function Drained(w: World, oracle: nat -> Outcome, k: nat): (World, nat)
    requires Sane(w)
    decreases TotalWeight(w, w.queue)
  {
    if w.queue == [] then (w, 0)
    else
      ProcessedTotals(w, oracle(k));
      var rest := Drained(Processed(w, oracle(k)), oracle, k + 1);
      (rest.0, rest.1 + 1)
  }

  // Draining ends for every failure pattern, within the weight of the queue; if everything fails as
  // late as it can, the bounds are met exactly.
  lemma {:induction false} DrainBounds(w: World, oracle: nat -> Outcome, k: nat)
    requires Sane(w)
    ensures var (t, executions) := Drained(w, oracle, k);
            && t.queue == [] && w.nextTask <= t.nextTask
            && executions <= TotalWeight(w, w.queue)
            && t.nextTask - w.nextTask <= TotalBirths(w, w.queue)
    ensures (forall i: nat :: i >= k ==> oracle(i).FailLate?) ==>
              var (t, executions) := Drained(w, oracle, k);
              executions == TotalWeight(w, w.queue) && t.nextTask - w.nextTask == TotalBirths(w, w.queue)
    decreases TotalWeight(w, w.queue)
  {
    if w.queue == [] {
    } else {
      ProcessedTotals(w, oracle(k));
      DrainBounds(Processed(w, oracle(k)), oracle, k + 1);
    }
  }

  // When nothing fails, every queued item and every successor runs exactly once.
  lemma {:induction false} DrainWithoutFailures(w: World, oracle: nat -> Outcome, k: nat)
    requires Sane(w) && forall i: nat :: i >= k ==> oracle(i).Succeed?
    requires forall i :: 0 <= i < |w.queue| ==> !w.queue[i].kind.Unknown?
    ensures var (t, executions) := Drained(w, oracle, k);
            executions == TotalLength(w, w.queue) && t.nextTask - w.nextTask == executions - |w.queue|
    decreases TotalWeight(w, w.queue)
  {
    if w.queue == [] {
    } else {
      ProcessedTotals(w, oracle(k));
      SuccessStep(w);
      DrainWithoutFailures(Processed(w, oracle(k)), oracle, k + 1);
    }
  }

  lemma SuccessStep(w: World)
    requires Sane(w) && w.queue != [] && forall i :: 0 <= i < |w.queue| ==> !w.queue[i].kind.Unknown?
    ensures var t := Processed(w, Succeed);
            && t.nextTask - |t.queue| == w.nextTask - |w.queue| + 1
            && forall i :: 0 <= i < |t.queue| ==> !t.queue[i].kind.Unknown?
  {
    var item, rest := w.queue[0], w.(queue := w.queue[1..]);
    HandledShape(rest, item, Succeed);
    assert forall i :: 0 <= i < |rest.queue| ==> rest.queue[i] == w.queue[i + 1];
  }

  // A fresh flow of n steps, queued as the scheduler and the routers queue it.
  ghost predicate FreshFlow(w: World, n: nat) {
    && Sane(w) && |w.queue| == 1
    && var item := w.queue[0];
       && item.kind.Sprint17? && item.attempt == 0 && item.maxRetries == 1 && Owned(w, item)
       && var plan := w.tasks[item.center].plan;
          plan.Flow? && |plan.steps| == n && plan.index == Some(0)
  }

  // A flow of n steps costs at most 2^(n+1)-2 executions and 2^n-1 tasks, whatever fails; both are
  // reached when everything fails late; n of each when nothing fails.
  lemma FlowBounds(w: World, oracle: nat -> Outcome, n: nat)
    requires n > 0 && FreshFlow(w, n)
    ensures var (t, executions) := Drained(w, oracle, 0);
            var tasks := 1 + t.nextTask - w.nextTask;
            && executions <= Pow2(n + 1) - 2 && tasks <= Pow2(n) - 1
            && ((forall i: nat :: oracle(i).FailLate?) ==> executions == Pow2(n + 1) - 2 && tasks == Pow2(n) - 1)
            && ((forall i: nat :: oracle(i).Succeed?) ==> executions == n && tasks == n)
  {
    FreshFlowTotals(w, n);
    DrainBounds(w, oracle, 0);
    if forall i: nat :: oracle(i).Succeed? { DrainWithoutFailures(w, oracle, 0); }
  }

  lemma FreshFlowTotals(w: World, n: nat)
    requires n > 0 && FreshFlow(w, n)
    ensures TotalWeight(w, w.queue) == Pow2(n + 1) - 2 && TotalBirths(w, w.queue) == Pow2(n) - 2
    ensures TotalLength(w, w.queue) == n
  {
    var item := w.queue[0];
    ClosedForms(n - 1);
    assert DepthOf(w, item) == n - 1 && TriesOf(w, item) == 2;
    assert w.queue[1..] == [];
  }

  // ---- ownership along a flow ----

  // Everything queued or created since task `base` belongs to the owner of the root, and every queued
  // item opens its task.
  ghost predicate Lineage(w: World, root: Owner, base: nat) {
    && (forall i :: 0 <= i < |w.queue| && HasTask(w.queue[i]) ==>
          Owned(w, w.queue[i]) && w.tasks[w.queue[i].center].owner.SameFields(root))
    && (forall id :: id in w.tasks && id >= base ==>
          && w.tasks[id].owner.SameFields(root) && w.tasks[id].owner.canonicalRun == None
          && w.tasks[id].parent.Some? && w.tasks[id].parent.value in w.tasks)
  }

  lemma LineageKept(w: World, outcome: Outcome, root: Owner, base: nat)
    requires Sane(w) && base <= w.nextTask && Lineage(w, root, base)
    ensures Lineage(Processed(w, outcome), root, base)
  {
    if w.queue != [] {
      var item, rest := w.queue[0], w.(queue := w.queue[1..]);
      var t := Handled(rest, item, outcome);
      HandledShape(rest, item, outcome);
      forall i | 0 <= i < |t.queue| && HasTask(t.queue[i])
        ensures Owned(t, t.queue[i]) && t.tasks[t.queue[i].center].owner.SameFields(root)
      {
        if i < |rest.queue| {
          assert t.queue[i] == w.queue[i + 1];
        } else if SpawnsTask(rest, item, outcome) && !outcome.FailEnqueue? && i == |rest.queue| {
          ChildWeight(rest, item, outcome);
          assert t.queue[i] == Child(rest, item);
        } else {
          assert t.queue[i] == Again(item);
        }
      }
      forall id | id in t.tasks && id >= base
        ensures t.tasks[id].owner.SameFields(root) && t.tasks[id].owner.canonicalRun == None &&
                t.tasks[id].parent.Some? && t.tasks[id].parent.value in t.tasks
      {
        TaskHistory(rest, item, outcome, id);
      }
    }
  }

  // A task of the new world is a known task with its plan, owner and parent, or the one just spawned.
  lemma TaskHistory(w: World, item: Item, outcome: Outcome, id: nat)
    requires Sane(w) && item.center < w.nextTask && id in Handled(w, item, outcome).tasks
    ensures (id in w.tasks && Handled(w, item, outcome).tasks[id].(status := w.tasks[id].status) == w.tasks[id])
            || (id == w.nextTask && SpawnsTask(w, item, outcome))
  {
    if !Refused(w, item) && !outcome.Lost? && HasTask(item) {
      SuccessorDepth(item.kind, w.tasks[item.center].plan);
      BoundIsOwned(w.tasks[item.center].owner);
    }
  }

  // Every task a drain creates carries the five ownership fields of the flow's root, and none is
  // turned away for its ownership.
  lemma {:induction false} DrainKeepsOwner(w: World, oracle: nat -> Outcome, k: nat, root: Owner, base: nat)
    requires Sane(w) && base <= w.nextTask && Lineage(w, root, base)
    ensures Lineage(Drained(w, oracle, k).0, root, base)
    decreases TotalWeight(w, w.queue)
  {
    if w.queue == [] {
    } else {
      ProcessedTotals(w, oracle(k));
      LineageKept(w, oracle(k), root, base);
      DrainKeepsOwner(Processed(w, oracle(k)), oracle, k + 1, root, base);
    }
  }

  // ---- the plan along a flow ----

  // The next step of a flow, for the employee of that step, or the one feedback row of a business loop, for the
  // strategist and with no further optimisation.
  ghost predicate Follows(parent: Task, child: Task) {
    match (parent.plan, child.plan)
    case (Flow(id, steps, Some(i)), Flow(childId, childSteps, Some(j))) =>
      && childId == id && childSteps == steps && j == i + 1 < |steps| && child.assignedTo == steps[j]
    case (Loop(id, auto, i), Loop(childId, childAuto, j)) =>
      && childId == id && auto && i < 1 && !childAuto && j == i + 1 && child.assignedTo == "tiance_strategy"
    case _ => false
  }

  // Every row created since row `base` follows the row it names as its parent, an older one.
  ghost predicate Planned(tasks: map<nat, Task>, base: nat) {
    forall id :: id in tasks && id >= base ==>
      tasks[id].parent.Some? && tasks[id].parent.value < id && tasks[id].parent.value in tasks
      && Follows(tasks[tasks[id].parent.value], tasks[id])
  }

  lemma SpawnedFollows(w: World, item: Item, outcome: Outcome)
    requires Sane(w) && item.center < w.nextTask && SpawnsTask(w, item, outcome)
    ensures var t := Handled(w, item, outcome);
            && w.nextTask in t.tasks && t.tasks[w.nextTask].parent == Some(item.center) && item.center in w.tasks
            && Follows(w.tasks[item.center], t.tasks[w.nextTask])
  {
    HandledShape(w, item, outcome);
  }

  lemma HandledPlanned(w: World, item: Item, outcome: Outcome, base: nat)
    requires Sane(w) && item.center < w.nextTask && Planned(w.tasks, base)
    ensures Planned(Handled(w, item, outcome).tasks, base)
  {
    var t := Handled(w, item, outcome);
    HandledGrown(w, item, outcome);
    forall id | id in t.tasks && id >= base
      ensures t.tasks[id].parent.Some? && t.tasks[id].parent.value < id && t.tasks[id].parent.value in t.tasks
      ensures Follows(t.tasks[t.tasks[id].parent.value], t.tasks[id])
    {
      TaskHistory(w, item, outcome, id);
      if id == w.nextTask && SpawnsTask(w, item, outcome) { SpawnedFollows(w, item, outcome); }
    }
  }

  // Whatever fails, every row that a drain creates has its parent's flow and steps, the parent's index plus one,
  // and the employee of that step.
  lemma {:induction false} DrainKeepsPlan(w: World, oracle: nat -> Outcome, k: nat, base: nat)
    requires Sane(w) && Planned(w.tasks, base)
    ensures Planned(Drained(w, oracle, k).0.tasks, base)
    decreases TotalWeight(w, w.queue)
  {
    if w.queue == [] {
    } else {
      ProcessedTotals(w, oracle(k));
      HandledPlanned(w.(queue := w.queue[1..]), w.queue[0], oracle(k), base);
      DrainKeepsPlan(Processed(w, oracle(k)), oracle, k + 1, base);
    }
  }

  // The employees whose rows a drain executes, one after the other.
  function Employees(w: World, oracle: nat -> Outcome, k: nat): seq<string>
    requires Sane(w)
    decreases TotalWeight(w, w.queue)
  {
    if w.queue == [] then []
    else
      ProcessedTotals(w, oracle(k));
      var rest := Employees(Processed(w, oracle(k)), oracle, k + 1);
      var item := w.queue[0];
      if item.center in w.tasks then [w.tasks[item.center].assignedTo] + rest else rest
  }

  // The item's row is step i of this flow and belongs to that step's employee.
  ghost predicate AtStep(w: World, item: Item, id: nat, steps: seq<string>, i: nat) {
    && item.kind.Sprint17? && Owned(w, item) && i < |steps|
    && w.tasks[item.center].plan == Flow(id, steps, Some(i)) && w.tasks[item.center].assignedTo == steps[i]
  }

  // Success queues the item of the next step, and nothing behind the last.
  lemma NextStep(w: World, item: Item, id: nat, steps: seq<string>, i: nat)
    requires Sane(w) && item.center < w.nextTask && AtStep(w, item, id, steps, i)
    ensures var t := Handled(w, item, Succeed);
            if i + 1 < |steps| then t.queue == w.queue + [Child(w, item)] && AtStep(t, Child(w, item), id, steps, i + 1)
            else t.queue == w.queue
  {
    HandledShape(w, item, Succeed);
    if i + 1 < |steps| {
      ChildWeight(w, item, Succeed);
      SpawnedFollows(w, item, Succeed);
    }
  }

  lemma {:induction false} StepsInOrder(w: World, oracle: nat -> Outcome, k: nat, id: nat, steps: seq<string>, i: nat)
    requires Sane(w) && |w.queue| == 1 && AtStep(w, w.queue[0], id, steps, i)
    requires forall j: nat :: j >= k ==> oracle(j).Succeed?
    ensures Employees(w, oracle, k) == steps[i..]
    decreases |steps| - i
  {
    var item, rest := w.queue[0], w.(queue := w.queue[1..]);
    assert rest.queue == [];
    ProcessedTotals(w, oracle(k));
    NextStep(rest, item, id, steps, i);
    if i + 1 < |steps| {
      StepsInOrder(Processed(w, oracle(k)), oracle, k + 1, id, steps, i + 1);
    }
  }

  // When nothing fails, a flow handed to the employee of its first step is worked on by the employees of its steps,
  // once each and in their order.
  lemma FlowRunsInOrder(w: World, oracle: nat -> Outcome, n: nat)
    requires n > 0 && FreshFlow(w, n) && forall i: nat :: oracle(i).Succeed?
    requires var root := w.tasks[w.queue[0].center]; root.assignedTo == root.plan.steps[0]
    ensures Employees(w, oracle, 0) == w.tasks[w.queue[0].center].plan.steps
  {
    var plan := w.tasks[w.queue[0].center].plan;
    StepsInOrder(w, oracle, 0, plan.flowId, plan.steps, 0);
  }

  // ---- what a handled item leaves ----

  // The last word on the item; the status of no other item changes but that of a successor's.
  lemma HandledStatus(w: World, item: Item, outcome: Outcome)
    requires Sane(w) && item.center < w.nextTask && !Refused(w, item) && !outcome.Lost?
    ensures var t, good := Handled(w, item, outcome), outcome.Succeed? && !item.kind.Unknown?;
            && item.id in t.statuses
            && t.statuses[item.id] == (if good then Update(item.id, Success, item.attempt)
                                       else if item.attempt < item.maxRetries then Update(item.id, Retrying, item.attempt + 1)
                                       else Update(item.id, Failed, item.attempt))
            && t.recent != [] && t.recent[0] == t.statuses[item.id]
    ensures forall id :: id in w.statuses && id !in {item.id, w.nextItem} ==>
              id in Handled(w, item, outcome).statuses && Handled(w, item, outcome).statuses[id] == w.statuses[id]
  {
  }

  lemma RecordedShifts(recent: seq<Update>, u: Update)
    ensures var t := Recorded(recent, u); t != [] && t[0] == u && forall i :: 0 <= i < |recent| && i < 199 ==> i + 1 < |t| && t[i + 1] == recent[i]
  {
  }

  // Before that, the item was reported as running.
  lemma HandledAnnounced(w: World, item: Item, outcome: Outcome)
    requires !Refused(w, item) && !outcome.Lost?
    ensures Update(item.id, Running, item.attempt) in Handled(w, item, outcome).recent
  {
    var t, started := Handled(w, item, outcome), Noted(w, item, Running);
    var done := if HasTask(item) then Executed(started, item, outcome) else started;
    RecordedShifts(w.recent, Update(item.id, Running, item.attempt));
    var queued := Update(w.nextItem, Queued, 0);
    RecordedShifts(started.recent, queued);
    assert done.recent == started.recent || done.recent == Recorded(started.recent, queued);
    RecordedShifts(done.recent, t.recent[0]);
    assert t.recent == Recorded(done.recent, t.recent[0]);
    assert Update(item.id, Running, item.attempt) == (if done.recent == started.recent then t.recent[1] else t.recent[2]);
  }

  // The status of the item's row, of a successor's, and of the successor's item.
  lemma HandledRows(w: World, item: Item, outcome: Outcome)
    requires Sane(w) && item.center < w.nextTask && !Refused(w, item) && !outcome.Lost?
    ensures var t := Handled(w, item, outcome);
            if item.kind in {Sprint17, Sprint18}
            then t.tasks[item.center].status == (if outcome.FailExecute? then TaskRunning else TaskCompleted)
            else t.tasks == w.tasks
    ensures SpawnsTask(w, item, outcome) ==> Handled(w, item, outcome).tasks[w.nextTask].status == Assigned
    ensures SpawnsTask(w, item, outcome) && !outcome.FailEnqueue? && item.id != w.nextItem ==>
              var t := Handled(w, item, outcome);
              w.nextItem in t.statuses && t.statuses[w.nextItem] == Update(w.nextItem, Queued, 0)
  {
    HandledShape(w, item, outcome);
  }

  // An item of a flow or a loop that does not carry its row's own ownership context changes nothing; one of another
  // kind is never refused.
  lemma RefusedExactly(w: World, item: Item, outcome: Outcome)
    ensures Refused(w, item) <==>
              item.kind in {Sprint17, Sprint18}
              && !(item.center in w.tasks && item.ownership.Some? && ContextOf(w.tasks[item.center].owner) == item.ownership)
    ensures Refused(w, item) ==> Handled(w, item, outcome) == w
  {
    if item.center in w.tasks { OwnedIffOwnContext(w.tasks[item.center].owner, item.ownership); }
  }

  // Ids below n, and no two items share one.
  ghost predicate Ids(queue: seq<Item>, n: nat) {
    && (forall i :: 0 <= i < |queue| ==> queue[i].id < n)
    && (forall i, j :: 0 <= i < j < |queue| ==> queue[i].id != queue[j].id)
  }

  lemma IdsJoin(a: seq<Item>, b: seq<Item>, n: nat)
    requires Ids(a, n) && Ids(b, n)
    requires forall i, j :: 0 <= i < |a| && 0 <= j < |b| ==> a[i].id != b[j].id
    ensures Ids(a + b, n)
  {
  }

  // A successor gets an id that has not been handed out before; a retry keeps the one its item had.
  lemma IdsKept(w: World, outcome: Outcome)
    requires Sane(w) && Ids(w.queue, w.nextItem) && w.queue != []
    ensures w.nextItem <= Processed(w, outcome).nextItem && Ids(Processed(w, outcome).queue, Processed(w, outcome).nextItem)
  {
    var item, rest := w.queue[0], w.(queue := w.queue[1..]);
    HandledQueue(rest, item, outcome);
    NextItem(rest, item, outcome);
    forall i | 0 <= i < |rest.queue| ensures rest.queue[i].id != item.id && rest.queue[i].id < w.nextItem {
      assert rest.queue[i] == w.queue[i + 1];
    }
    var left := Left(rest, item, outcome);
    assert forall j :: 0 <= j < |left| ==> left[j].id == item.id || left[j] == Child(rest, item);
    IdsJoin(rest.queue, left, Processed(w, outcome).nextItem);
  }

  lemma NextItem(w: World, item: Item, outcome: Outcome)
    requires Sane(w) && item.center < w.nextTask
    ensures Handled(w, item, outcome).nextItem ==
              w.nextItem + if SpawnsTask(w, item, outcome) && !outcome.FailEnqueue? then 1 else 0
  {
    if !Refused(w, item) && !outcome.Lost? && HasTask(item) {
      SuccessorDepth(item.kind, w.tasks[item.center].plan);
      BoundIsOwned(w.tasks[item.center].owner);
    }
  }

  // An id handed out to an item that is not queued any more.
  ghost predicate Past(w: World, id: nat) {
    id < w.nextItem && forall i :: 0 <= i < |w.queue| ==> w.queue[i].id != id
  }

  lemma PastKept(w: World, outcome: Outcome, id: nat)
    requires Sane(w) && Past(w, id) && id in w.statuses && w.queue != []
    ensures var t := Processed(w, outcome); Past(t, id) && id in t.statuses && t.statuses[id] == w.statuses[id]
  {
    var item, rest := w.queue[0], w.(queue := w.queue[1..]);
    HandledQueue(rest, item, outcome);
    NextItem(rest, item, outcome);
    if !Refused(rest, item) && !outcome.Lost? { HandledStatus(rest, item, outcome); }
    forall i | 0 <= i < |rest.queue| ensures rest.queue[i].id != id {
      assert rest.queue[i] == w.queue[i + 1];
    }
  }

  // What is on record of an item that has left the queue stays as it is.
  lemma {:induction false} PastStays(w: World, oracle: nat -> Outcome, k: nat, id: nat)
    requires Sane(w) && Past(w, id) && id in w.statuses
    ensures var t := Drained(w, oracle, k).0; id in t.statuses && t.statuses[id] == w.statuses[id]
    decreases TotalWeight(w, w.queue)
  {
    if w.queue == [] {
    } else {
      ProcessedTotals(w, oracle(k));
      PastKept(w, oracle(k), id);
      PastStays(Processed(w, oracle(k)), oracle, k + 1, id);
    }
  }

  // ---- the recent-status list ----

  function RecordedAll(updates: seq<Update>): seq<Update> {
    if updates == [] then [] else Recorded(RecordedAll(updates[..|updates| - 1]), updates[|updates| - 1])
  }

  // The list holds the last 200 updates, the newest first.
  lemma {:induction false} RecentIsNewest(updates: seq<Update>)
    ensures |RecordedAll(updates)| == if |updates| < RECENT then |updates| else RECENT
    ensures forall i :: 0 <= i < |RecordedAll(updates)| ==> RecordedAll(updates)[i] == updates[|updates| - 1 - i]
  {
    if updates == [] {
    } else {
      RecentIsNewest(updates[..|updates| - 1]);
    }
  }

  // ---- the worker ----

  class Worker {
    var queue: seq<Item>
    var statuses: map<nat, Update>
    var recent: seq<Update>
    var tasks: map<nat, Task>
    var nextTask: nat
    var nextItem: nat

    ghost function State(): World
      reads this
    {
      World(queue, statuses, recent, tasks, nextTask, nextItem)
    }

    method UpdateTaskStatus(item: Item, status: Status)
      modifies this
      ensures State() == Noted(old(State()), item, status)
    {
      var u := Update(item.id, status, item.attempt);
      statuses := statuses[item.id := u];
      recent := [u] + recent;
      if |recent| > RECENT { recent := recent[..RECENT]; }
    }

    method EnqueueTask(kind: Kind, center: nat, ownership: Option<Owner>, maxRetries: int)
      modifies this
      ensures State() == Enqueued(old(State()), kind, center, ownership, maxRetries)
    {
      var item := Item(nextItem, kind, center, ownership, 0, maxRetries);
      nextItem := nextItem + 1;
      queue := queue + [item];
      UpdateTaskStatus(item, Queued);
    }

    method RequeueTask(item: Item)
      modifies this
      ensures State() == Requeued(old(State()), item)
    {
      var again := item.(attempt := item.attempt + 1);
      queue := queue + [again];
      UpdateTaskStatus(again, Retrying);
    }

    method DequeueTask() returns (item: Option<Item>)
      modifies this
      ensures old(queue) == [] ==> item == None && State() == old(State())
      ensures old(queue) != [] ==> item == Some(old(queue)[0]) && State() == old(State()).(queue := old(queue)[1..])
    {
      if |queue| == 0 { return None; }
      item := Some(queue[0]);
      queue := queue[1..];
    }

    method SetStatus(center: nat, status: TaskStatus)
      requires center in tasks
      modifies this
      ensures State() == SetTaskStatus(old(State()), center, status)
    {
      tasks := tasks[center := tasks[center].(status := status)];
    }

    method CreateSuccessorIfNeeded(kind: Kind, center: nat, outcome: Outcome)
      requires center in tasks
      modifies this
      ensures State() == Spawned(old(State()), kind, center, outcome)
      ensures nextTask == old(nextTask)
              || (&& nextTask == old(nextTask) + 1 && old(nextTask) in tasks && tasks[old(nextTask)].parent == Some(center)
                  && tasks[old(nextTask)].status == Assigned && Follows(old(tasks)[center], tasks[old(nextTask)]))
    {
      var task := tasks[center];
      var next := Successor(kind, task.plan);
      if next.None? { return; }
      var owner := BoundFrom(task.owner);
      if owner.None? || outcome.FailSpawn? { return; }
      var child := nextTask;
      tasks := tasks[child := Task(next.value.0, owner.value, Assigned, Some(center), next.value.1)];
      nextTask := nextTask + 1;
      if outcome.FailEnqueue? { return; }
      EnqueueTask(kind, child, ContextOf(owner.value), 1);
    }

    method Execute(item: Item, outcome: Outcome)
      requires item.center in tasks
      modifies this
      ensures State() == Executed(old(State()), item, outcome)
    {
      SetStatus(item.center, TaskRunning);
      if outcome.FailExecute? { return; }
      SetStatus(item.center, TaskCompleted);
      CreateSuccessorIfNeeded(item.kind, item.center, outcome);
    }

    method HandleTaskDirect(item: Item, outcome: Outcome)
      modifies this
      ensures State() == Handled(old(State()), item, outcome)
    {
      if item.kind.Sprint17? || item.kind.Sprint18? {
        if item.center !in tasks || !OwnedBy(tasks[item.center].owner, item.ownership) { return; }
      }
      if outcome.Lost? { return; }
      UpdateTaskStatus(item, Running);
      var raised := !outcome.Succeed?;
      match item.kind {
        case Sprint17 => Execute(item, outcome);
        case Sprint18 => Execute(item, outcome);
        case Collector =>
        case Unknown => raised := true;
      }
      if !raised {
        UpdateTaskStatus(item, Success);
      } else if item.attempt < item.maxRetries {
        RequeueTask(item);
      } else {
        UpdateTaskStatus(item, Failed);
      }
    }

    // The worker's loop, run until the queue is empty.
    method Drain(oracle: nat -> Outcome) returns (executions: nat)
      requires Sane(State())
      modifies this
      ensures (State(), executions) == Drained(old(State()), oracle, 0)
      ensures queue == [] && executions <= old(TotalWeight(State(), queue))
    {
      executions := 0;
      ghost var start := State();
      while |queue| > 0
        invariant Sane(State())
        invariant Drained(start, oracle, 0) ==
                  (var rest := Drained(State(), oracle, executions); (rest.0, rest.1 + executions))
        decreases TotalWeight(State(), queue)
      {
        ProcessedTotals(State(), oracle(executions));
        var item := DequeueTask();
        HandleTaskDirect(item.value, oracle(executions));
        executions := executions + 1;
      }
      DrainBounds(start, oracle, 0);
    }
  }
}
