// The way from the task queue to the handler: the worker wraps each item it takes in an event of the orchestrator's
// queue, and that queue delivers an event again when the handler raises
// (backend/worker.py, process_next_task and handle_task; backend/task_queue.py; backend/queue_worker.py).
module FlowDelivery {
  import opened Options
  import opened Ownership
  import opened FlowQueue

  // An item on its way to the handler, and how often its event has been delivered already.
  datatype Delivery = Delivery(item: Item, attempt: nat)

  datatype Floor = Floor(world: World, events: seq<Delivery>)

  datatype Move = Take | Deliver(outcome: Outcome)

  // push_queue's default for max_retries.
  const REDELIVERIES: nat := 3

  // The handler raises whatever it has made of the item, a queued retry included.
  predicate Raises(w: World, item: Item, outcome: Outcome) {
    Refused(w, item) || !outcome.Succeed? || item.kind.Unknown?
  }

  // requeue_task counts the attempt on the very object that the event carries.
  function Carried(w: World, item: Item, outcome: Outcome): Item {
    if Retries(w, item, outcome) then Again(item) else item
  }

  function Redelivered(w: World, d: Delivery, outcome: Outcome): seq<Delivery> {
    if Raises(w, d.item, outcome) && d.attempt < REDELIVERIES
    then [Delivery(Carried(w, d.item, outcome), d.attempt + 1)] else []
  }

  predicate Possible(f: Floor, m: Move) {
    if m.Take? then f.world.queue != [] else f.events != []
  }

  function Moved(f: Floor, m: Move): Floor
    requires Possible(f, m)
  {
    match m
    case Take =>
      Floor(f.world.(queue := f.world.queue[1..]), f.events + [Delivery(f.world.queue[0], 0)])
    case Deliver(outcome) =>
      var d := f.events[0];
      Floor(Handled(f.world, d.item, outcome), f.events[1..] + Redelivered(f.world, d, outcome))
  }

  predicate PossibleAll(f: Floor, moves: seq<Move>)
    decreases |moves|
  {
    moves == [] || (Possible(f, moves[0]) && PossibleAll(Moved(f, moves[0]), moves[1..]))
  }

  function After(f: Floor, moves: seq<Move>): Floor
    requires PossibleAll(f, moves)
    decreases |moves|
  {
    if moves == [] then f else After(Moved(f, moves[0]), moves[1..])
  }

  function Deliveries(moves: seq<Move>): nat {
    if moves == [] then 0 else (if moves[0].Deliver? then 1 else 0) + Deliveries(moves[1..])
  }

  // ---- the measure ----

  function TriesLeft(item: Item): nat {
    if item.attempt < item.maxRetries then item.maxRetries - item.attempt else 0
  }

  function DeliveriesLeft(d: Delivery): nat {
    if d.attempt < REDELIVERIES then REDELIVERIES - d.attempt else 0
  }

  // Deliveries of one item that may be queued again so often, on an event that may be delivered again so often.
  // A failure can lead to both, and both then carry the higher attempt.
  function Looks(tries: nat, left: nat): (n: nat)
    ensures n >= 1
  {
    1 + (if tries > 0 then Looks(tries - 1, REDELIVERIES) else 0)
    + if left > 0 then Looks(if tries > 0 then tries - 1 else 0, left - 1) else 0
  }

  // Deliveries caused by one that is executed at a given depth: itself, and all of a successor with one retry.
  function Cost(depth: nat): nat {
    if depth == 0 then 1 else 1 + Looks(1, REDELIVERIES) * Cost(depth - 1)
  }

  // Tasks created by one execution at a given depth.
  function Offspring(depth: nat): nat {
    if depth == 0 then 0 else 1 + Looks(1, REDELIVERIES) * Offspring(depth - 1)
  }

  function LooksOf(w: World, d: Delivery): nat {
    if Refused(w, d.item) then 1 + DeliveriesLeft(d) else Looks(TriesLeft(d.item), DeliveriesLeft(d))
  }

  function Times(a: nat, b: nat): nat {
    a * b
  }

  function CostOf(w: World, d: Delivery): nat {
    Times(LooksOf(w, d), Cost(DepthOf(w, d.item)))
  }

  function OffspringOf(w: World, d: Delivery): nat {
    Times(LooksOf(w, d), Offspring(DepthOf(w, d.item)))
  }

  function LengthOf(w: World, d: Delivery): nat {
    1 + DepthOf(w, d.item)
  }

  // A quantity of deliveries, added up.
  function Sum(of: (World, Delivery) -> nat, w: World, ds: seq<Delivery>): nat {
    if ds == [] then 0 else of(w, ds[0]) + Sum(of, w, ds[1..])
  }

  function Wrapped(queue: seq<Item>): seq<Delivery> {
    seq(|queue|, i requires 0 <= i < |queue| => Delivery(queue[i], 0))
  }

  // Everything that is still to be delivered.
  function Pending(f: Floor): seq<Delivery> {
    f.events + Wrapped(f.world.queue)
  }

  ghost predicate Tidy(f: Floor) {
    Sane(f.world) && forall i :: 0 <= i < |f.events| ==> f.events[i].item.center < f.world.nextTask
  }

  lemma {:induction false} SumConcat(of: (World, Delivery) -> nat, w: World, a: seq<Delivery>, b: seq<Delivery>)
    ensures Sum(of, w, a + b) == Sum(of, w, a) + Sum(of, w, b)
  {
    if a == [] {
      assert a + b == b;
    } else {
      SumConcat(of, w, a[1..], b);
      assert (a + b)[1..] == a[1..] + b;
    }
  }

  lemma {:induction false} SumFrame(of: (World, Delivery) -> nat, w: World, t: World, ds: seq<Delivery>)
    requires of in {CostOf, OffspringOf, LengthOf}
    requires Grown(w, t) && forall i :: 0 <= i < |ds| ==> ds[i].item.center < w.nextTask
    ensures Sum(of, t, ds) == Sum(of, w, ds)
  {
    if ds == [] {
    } else {
      SumFrame(of, w, t, ds[1..]);
    }
  }

  // ---- what one delivery leaves to be delivered ----

  lemma {:induction false} OneLookMore(tries: nat, left: nat)
    requires left > 0
    ensures Looks(tries, left) > Looks(tries, left - 1)
  {
    if tries == 0 || left == 1 {
    } else {
      OneLookMore(tries - 1, left - 1);
    }
  }

  // What a delivery of `d` leaves: its event again, the successor, the retry.
  function Leaves(w: World, d: Delivery, outcome: Outcome): seq<Delivery> {
    Redelivered(w, d, outcome) + Wrapped(Left(w, d.item, outcome))
  }

  predicate QueuesChild(w: World, item: Item, outcome: Outcome) {
    SpawnsTask(w, item, outcome) && !outcome.FailEnqueue?
  }

  lemma LeavesSum(of: (World, Delivery) -> nat, w: World, t: World, d: Delivery, outcome: Outcome)
    requires SpawnsTask(w, d.item, outcome) ==> d.item.center in w.tasks
    ensures Sum(of, t, Leaves(w, d, outcome))
            == (if Redelivered(w, d, outcome) == [] then 0 else of(t, Redelivered(w, d, outcome)[0]))
               + (if QueuesChild(w, d.item, outcome) then of(t, Delivery(Child(w, d.item), 0)) else 0)
               + (if Retries(w, d.item, outcome) then of(t, Delivery(Again(d.item), 0)) else 0)
  {
    var child := if QueuesChild(w, d.item, outcome) then [Delivery(Child(w, d.item), 0)] else [];
    var again := if Retries(w, d.item, outcome) then [Delivery(Again(d.item), 0)] else [];
    assert Wrapped(Left(w, d.item, outcome)) == child + again;
    SumConcat(of, t, child, again);
    SumConcat(of, t, Redelivered(w, d, outcome), child + again);
  }

  lemma RefusedLeaves(w: World, d: Delivery, outcome: Outcome)
    requires Sane(w) && d.item.center < w.nextTask && Refused(w, d.item)
    ensures var t := Handled(w, d.item, outcome);
            && Sum(CostOf, t, Leaves(w, d, outcome)) == CostOf(w, d) - 1
            && Sum(OffspringOf, t, Leaves(w, d, outcome)) == OffspringOf(w, d) == 0 && t.nextTask == w.nextTask
  {
    LeavesSum(CostOf, w, w, d, outcome);
    LeavesSum(OffspringOf, w, w, d, outcome);
  }

  // The event of an executed item, if it is delivered again: the same depth, and what is left of its tries.
  lemma RedeliveredLooks(w: World, t: World, d: Delivery, outcome: Outcome)
    requires Grown(w, t) && d.item.center < w.nextTask && !Refused(w, d.item) && Redelivered(w, d, outcome) != []
    ensures var e := Redelivered(w, d, outcome)[0];
            && DepthOf(t, e.item) == DepthOf(w, d.item)
            && LooksOf(t, e) == Looks(TriesLeft(d.item) - if Retries(w, d.item, outcome) then 1 else 0, DeliveriesLeft(d) - 1)
  {
  }

  lemma RetryLooks(w: World, t: World, d: Delivery, outcome: Outcome)
    requires Grown(w, t) && d.item.center < w.nextTask && Retries(w, d.item, outcome)
    ensures var e := Delivery(Again(d.item), 0);
            DepthOf(t, e.item) == DepthOf(w, d.item) && LooksOf(t, e) == Looks(TriesLeft(d.item) - 1, REDELIVERIES)
  {
  }

  lemma ChildLooks(w: World, d: Delivery, outcome: Outcome)
    requires Sane(w) && d.item.center < w.nextTask && QueuesChild(w, d.item, outcome)
    ensures var t, c := Handled(w, d.item, outcome), Delivery(Child(w, d.item), 0);
            && DepthOf(t, c.item) == DepthOf(w, d.item) - 1 && LooksOf(t, c) == Looks(1, REDELIVERIES)
            && CostOf(t, c) == Cost(DepthOf(w, d.item)) - 1 && OffspringOf(t, c) == Offspring(DepthOf(w, d.item)) - 1
  {
    ChildWeight(w, d.item, outcome);
  }

  // How many looks an executed delivery leaves at its own depth.
  function LooksLeft(w: World, d: Delivery, outcome: Outcome): nat
    requires !Refused(w, d.item)
  {
    var tries, left := TriesLeft(d.item), DeliveriesLeft(d);
    (if Raises(w, d.item, outcome) && left > 0
     then Looks(if Retries(w, d.item, outcome) then tries - 1 else tries, left - 1) else 0)
    + if Retries(w, d.item, outcome) then Looks(tries - 1, REDELIVERIES) else 0
  }

  lemma LooksUsedUp(w: World, d: Delivery, outcome: Outcome)
    requires !Refused(w, d.item)
    ensures LooksLeft(w, d, outcome) < LooksOf(w, d)
    ensures outcome.FailLate? ==> LooksLeft(w, d, outcome) == LooksOf(w, d) - 1
  {
    if DeliveriesLeft(d) > 0 { OneLookMore(TriesLeft(d.item), DeliveriesLeft(d)); }
  }

  lemma Distributes(a: nat, b: nat, c: nat)
    ensures (a + b) * c == a * c + b * c
  {
  }

  lemma Scaled(a: nat, b: nat, c: nat)
    requires a < b
    ensures a * c + c <= b * c
    ensures a == b - 1 ==> a * c + c == b * c
  {
    Distributes(a, 1, c);
    Distributes(a + 1, b - a - 1, c);
  }

  // `per` is what one execution at a depth amounts to, `of` what a delivery does.
  ghost predicate Scales(of: (World, Delivery) -> nat, per: nat -> nat) {
    forall w, d :: of(w, d) == LooksOf(w, d) * per(DepthOf(w, d.item))
  }

  lemma ExecutedLeaves(of: (World, Delivery) -> nat, per: nat -> nat, w: World, t: World, d: Delivery, outcome: Outcome)
    requires Grown(w, t) && d.item.center < w.nextTask && !Refused(w, d.item) && Scales(of, per)
    ensures Sum(of, t, Leaves(w, d, outcome))
            == LooksLeft(w, d, outcome) * per(DepthOf(w, d.item))
               + (if QueuesChild(w, d.item, outcome) then of(t, Delivery(Child(w, d.item), 0)) else 0)
  {
    LeavesSum(of, w, t, d, outcome);
    var again, retry := 0, 0;
    if Redelivered(w, d, outcome) != [] {
      RedeliveredLooks(w, t, d, outcome);
      again := LooksOf(t, Redelivered(w, d, outcome)[0]);
    }
    if Retries(w, d.item, outcome) {
      RetryLooks(w, t, d, outcome);
      retry := LooksOf(t, Delivery(Again(d.item), 0));
    }
    assert LooksLeft(w, d, outcome) == again + retry;
    Distributes(again, retry, per(DepthOf(w, d.item)));
  }

  lemma ExecutedCost(w: World, t: World, d: Delivery, outcome: Outcome)
    requires Grown(w, t) && d.item.center < w.nextTask && !Refused(w, d.item)
    ensures Sum(CostOf, t, Leaves(w, d, outcome))
            == LooksLeft(w, d, outcome) * Cost(DepthOf(w, d.item))
               + if QueuesChild(w, d.item, outcome) then CostOf(t, Delivery(Child(w, d.item), 0)) else 0
  {
    ExecutedLeaves(CostOf, Cost, w, t, d, outcome);
  }

  lemma ExecutedOffspring(w: World, t: World, d: Delivery, outcome: Outcome)
    requires Grown(w, t) && d.item.center < w.nextTask && !Refused(w, d.item)
    ensures Sum(OffspringOf, t, Leaves(w, d, outcome))
            == LooksLeft(w, d, outcome) * Offspring(DepthOf(w, d.item))
               + if QueuesChild(w, d.item, outcome) then OffspringOf(t, Delivery(Child(w, d.item), 0)) else 0
  {
    ExecutedLeaves(OffspringOf, Offspring, w, t, d, outcome);
  }

  // Looks left and looks there were, of a delivery at which one execution is worth c; `child` is what it spawns.
  lemma Spent(left: nat, looks: nat, c: nat, child: nat)
    requires left < looks && child <= c
    ensures left * c + child <= looks * c
    ensures left == looks - 1 && child == c ==> left * c + child == looks * c
  {
    Scaled(left, looks, c);
  }

  // One delivery uses up at least one unit of the cost, and exactly one when it fails as late as it can.
  lemma CostLeft(w: World, d: Delivery, outcome: Outcome)
    requires Sane(w) && d.item.center < w.nextTask
    ensures var t := Handled(w, d.item, outcome);
            && Sum(CostOf, t, Leaves(w, d, outcome)) < CostOf(w, d)
            && (outcome.FailLate? ==> Sum(CostOf, t, Leaves(w, d, outcome)) == CostOf(w, d) - 1)
  {
    if Refused(w, d.item) {
      RefusedLeaves(w, d, outcome);
    } else {
      var t, c := Handled(w, d.item, outcome), Cost(DepthOf(w, d.item));
      HandledShape(w, d.item, outcome);
      ExecutedCost(w, t, d, outcome);
      var child := if QueuesChild(w, d.item, outcome) then CostOf(t, Delivery(Child(w, d.item), 0)) else 0;
      CostOfChild(w, d, outcome);
      LooksUsedUp(w, d, outcome);
      Spent(LooksLeft(w, d, outcome), LooksOf(w, d), c, child + 1);
    }
  }

  lemma CostOfChild(w: World, d: Delivery, outcome: Outcome)
    requires Sane(w) && d.item.center < w.nextTask && !Refused(w, d.item)
    ensures var c := Cost(DepthOf(w, d.item));
            if QueuesChild(w, d.item, outcome)
            then 1 + CostOf(Handled(w, d.item, outcome), Delivery(Child(w, d.item), 0)) == c
            else c >= 1 && (outcome.FailLate? ==> c == 1)
  {
    if QueuesChild(w, d.item, outcome) { ChildLooks(w, d, outcome); }
  }

  lemma OffspringOfChild(w: World, d: Delivery, outcome: Outcome)
    requires Sane(w) && d.item.center < w.nextTask && !Refused(w, d.item)
    ensures var o, born := Offspring(DepthOf(w, d.item)), if SpawnsTask(w, d.item, outcome) then 1 else 0;
            if QueuesChild(w, d.item, outcome)
            then born + OffspringOf(Handled(w, d.item, outcome), Delivery(Child(w, d.item), 0)) == o
            else o >= born && (outcome.FailLate? ==> o == born == 0)
  {
    if QueuesChild(w, d.item, outcome) { ChildLooks(w, d, outcome); }
  }

  lemma OffspringLeft(w: World, d: Delivery, outcome: Outcome)
    requires Sane(w) && d.item.center < w.nextTask
    ensures var t := Handled(w, d.item, outcome);
            && Sum(OffspringOf, t, Leaves(w, d, outcome)) + (t.nextTask - w.nextTask) <= OffspringOf(w, d)
            && (outcome.FailLate? ==> Sum(OffspringOf, t, Leaves(w, d, outcome)) + (t.nextTask - w.nextTask) == OffspringOf(w, d))
  {
    HandledShape(w, d.item, outcome);
    if Refused(w, d.item) {
      RefusedLeaves(w, d, outcome);
    } else {
      var t, o := Handled(w, d.item, outcome), Offspring(DepthOf(w, d.item));
      ExecutedOffspring(w, t, d, outcome);
      var child := if QueuesChild(w, d.item, outcome) then OffspringOf(t, Delivery(Child(w, d.item), 0)) else 0;
      OffspringOfChild(w, d, outcome);
      LooksUsedUp(w, d, outcome);
      Spent(LooksLeft(w, d, outcome), LooksOf(w, d), o, child + if SpawnsTask(w, d.item, outcome) then 1 else 0);
    }
  }

  // ---- one move ----

  lemma WrappedConcat(a: seq<Item>, b: seq<Item>)
    ensures Wrapped(a + b) == Wrapped(a) + Wrapped(b)
  {
  }

  lemma SamePending(f: Floor)
    requires f.world.queue != []
    ensures Pending(Moved(f, Take)) == Pending(f)
  {
    var head := [Delivery(f.world.queue[0], 0)];
    assert Wrapped(f.world.queue) == head + Wrapped(f.world.queue[1..]);
  }

  lemma TakenTidy(f: Floor)
    requires Tidy(f) && f.world.queue != []
    ensures Tidy(Moved(f, Take)) && Grown(f.world, Moved(f, Take).world)
  {
  }

  lemma TakenSum(of: (World, Delivery) -> nat, f: Floor)
    requires of in {CostOf, OffspringOf, LengthOf} && Tidy(f) && f.world.queue != []
    ensures var t := Moved(f, Take);
            Tidy(t) && t.world.nextTask == f.world.nextTask && Sum(of, t.world, Pending(t)) == Sum(of, f.world, Pending(f))
  {
    SamePending(f);
    SumFrame(of, f.world, Moved(f, Take).world, Pending(f));
  }

  lemma FourParts(of: (World, Delivery) -> nat, w: World, a: seq<Delivery>, b: seq<Delivery>, c: seq<Delivery>, d: seq<Delivery>)
    ensures Sum(of, w, (a + b) + (c + d)) == Sum(of, w, a) + Sum(of, w, c) + Sum(of, w, b + d)
  {
    SumConcat(of, w, a + b, c + d);
    SumConcat(of, w, a, b);
    SumConcat(of, w, c, d);
    SumConcat(of, w, b, d);
  }

  lemma DeliveredTidy(f: Floor, outcome: Outcome)
    requires Tidy(f) && f.events != []
    ensures var t, d := Moved(f, Deliver(outcome)), f.events[0];
            && Tidy(t) && Grown(f.world, t.world)
            && Pending(t) == (f.events[1..] + Redelivered(f.world, d, outcome))
                             + (Wrapped(f.world.queue) + Wrapped(Left(f.world, d.item, outcome)))
  {
    var d := f.events[0];
    HandledShape(f.world, d.item, outcome);
    WrappedConcat(f.world.queue, Left(f.world, d.item, outcome));
  }

  lemma DeliveredSum(of: (World, Delivery) -> nat, f: Floor, outcome: Outcome)
    requires of in {CostOf, OffspringOf, LengthOf} && Tidy(f) && f.events != []
    ensures var t, d := Moved(f, Deliver(outcome)), f.events[0];
            Sum(of, t.world, Pending(t)) == Sum(of, f.world, Pending(f)) - of(f.world, d) + Sum(of, t.world, Leaves(f.world, d, outcome))
  {
    var t, d := Moved(f, Deliver(outcome)), f.events[0];
    DeliveredTidy(f, outcome);
    FourParts(of, t.world, f.events[1..], Redelivered(f.world, d, outcome), Wrapped(f.world.queue), Wrapped(Left(f.world, d.item, outcome)));
    SumConcat(of, f.world, f.events, Wrapped(f.world.queue));
    SumFrame(of, f.world, t.world, f.events[1..]);
    SumFrame(of, f.world, t.world, Wrapped(f.world.queue));
  }

  lemma MovedCost(f: Floor, m: Move)
    requires Tidy(f) && Possible(f, m)
    ensures var t := Moved(f, m);
            && Tidy(t) && f.world.nextTask <= t.world.nextTask
            && Sum(CostOf, t.world, Pending(t)) + (if m.Deliver? then 1 else 0) <= Sum(CostOf, f.world, Pending(f))
            && (m.Take? || m.outcome.FailLate? ==>
                  Sum(CostOf, t.world, Pending(t)) + (if m.Deliver? then 1 else 0) == Sum(CostOf, f.world, Pending(f)))
  {
    match m
    case Take => TakenSum(CostOf, f);
    case Deliver(outcome) =>
      DeliveredTidy(f, outcome);
      DeliveredSum(CostOf, f, outcome);
      CostLeft(f.world, f.events[0], outcome);
  }

  lemma MovedOffspring(f: Floor, m: Move)
    requires Tidy(f) && Possible(f, m)
    ensures var t := Moved(f, m);
            && Sum(OffspringOf, t.world, Pending(t)) + (t.world.nextTask - f.world.nextTask) <= Sum(OffspringOf, f.world, Pending(f))
            && (m.Take? || m.outcome.FailLate? ==>
                  Sum(OffspringOf, t.world, Pending(t)) + (t.world.nextTask - f.world.nextTask) == Sum(OffspringOf, f.world, Pending(f)))
  {
    match m
    case Take => TakenSum(OffspringOf, f);
    case Deliver(outcome) =>
      DeliveredSum(OffspringOf, f, outcome);
      OffspringLeft(f.world, f.events[0], outcome);
  }

  // ---- whole runs ----

  // However the two queues are worked off and whatever fails, there are no more deliveries and tasks than the sums
  // say; when everything fails late and nothing is left to deliver, there are exactly that many.
  lemma {:induction false} RunBounds(f: Floor, moves: seq<Move>)
    requires Tidy(f) && PossibleAll(f, moves)
    ensures var t := After(f, moves);
            && f.world.nextTask <= t.world.nextTask
            && Deliveries(moves) <= Sum(CostOf, f.world, Pending(f))
            && t.world.nextTask - f.world.nextTask <= Sum(OffspringOf, f.world, Pending(f))
            && (AllLate(moves) && Pending(t) == [] ==>
                  Deliveries(moves) == Sum(CostOf, f.world, Pending(f))
                  && t.world.nextTask - f.world.nextTask == Sum(OffspringOf, f.world, Pending(f)))
    decreases |moves|
  {
    if moves == [] {
    } else {
      MovedCost(f, moves[0]);
      MovedOffspring(f, moves[0]);
      RunBounds(Moved(f, moves[0]), moves[1..]);
      assert AllLate(moves) ==> AllLate(moves[1..]);
    }
  }

  predicate AllLate(moves: seq<Move>) {
    forall m :: m in moves ==> m.Take? || m.outcome.FailLate?
  }

  predicate AllSucceed(moves: seq<Move>) {
    forall m :: m in moves ==> m.Take? || m.outcome.Succeed?
  }

  // Everything on its way is of a known kind and opens its task.
  ghost predicate Welcome(f: Floor) {
    forall i :: 0 <= i < |Pending(f)| ==> !Pending(f)[i].item.kind.Unknown? && !Refused(f.world, Pending(f)[i].item)
  }

  lemma SuccessLeaves(w: World, d: Delivery)
    requires Sane(w) && d.item.center < w.nextTask && !d.item.kind.Unknown? && !Refused(w, d.item)
    ensures var t, left := Handled(w, d.item, Succeed), Leaves(w, d, Succeed);
            && Sum(LengthOf, t, left) == LengthOf(w, d) - 1 && t.nextTask - |left| == w.nextTask
            && forall i :: 0 <= i < |left| ==> !left[i].item.kind.Unknown? && !Refused(t, left[i].item)
  {
    HandledShape(w, d.item, Succeed);
    LeavesSum(LengthOf, w, Handled(w, d.item, Succeed), d, Succeed);
    if QueuesChild(w, d.item, Succeed) {
      ChildLooks(w, d, Succeed);
      ChildWeight(w, d.item, Succeed);
    }
  }

  lemma StaysWelcome(f: Floor)
    requires Tidy(f) && Welcome(f) && f.events != []
    ensures Welcome(Moved(f, Deliver(Succeed)))
  {
    var t, d := Moved(f, Deliver(Succeed)), f.events[0];
    assert Pending(f)[0] == d;
    DeliveredTidy(f, Succeed);
    SuccessLeaves(f.world, d);
    forall i | 0 <= i < |Pending(t)| ensures !Pending(t)[i].item.kind.Unknown? && !Refused(t.world, Pending(t)[i].item) {
      assert Pending(t)[i] in Leaves(f.world, d, Succeed) || Pending(t)[i] in Pending(f);
    }
  }

  lemma MovedSuccess(f: Floor, m: Move)
    requires Tidy(f) && Welcome(f) && Possible(f, m) && (m.Take? || m.outcome.Succeed?)
    ensures var t := Moved(f, m);
            && Tidy(t) && Welcome(t)
            && Sum(LengthOf, t.world, Pending(t)) + (if m.Deliver? then 1 else 0) == Sum(LengthOf, f.world, Pending(f))
            && t.world.nextTask - |Pending(t)| == f.world.nextTask - |Pending(f)| + if m.Deliver? then 1 else 0
  {
    var t := Moved(f, m);
    match m
    case Take =>
      TakenSum(LengthOf, f);
      SamePending(f);
    case Deliver(outcome) =>
      var d := f.events[0];
      assert Pending(f)[0] == d;
      DeliveredTidy(f, outcome);
      DeliveredSum(LengthOf, f, outcome);
      SuccessLeaves(f.world, d);
      StaysWelcome(f);
  }

  // When nothing fails, every item on its way and every successor is delivered once.
  lemma {:induction false} RunLength(f: Floor, moves: seq<Move>)
    requires Tidy(f) && Welcome(f) && PossibleAll(f, moves) && AllSucceed(moves)
    ensures var t := After(f, moves);
            && Deliveries(moves) + Sum(LengthOf, t.world, Pending(t)) == Sum(LengthOf, f.world, Pending(f))
            && t.world.nextTask - |Pending(t)| == f.world.nextTask - |Pending(f)| + Deliveries(moves)
    decreases |moves|
  {
    if moves == [] {
    } else {
      MovedSuccess(f, moves[0]);
      RunLength(Moved(f, moves[0]), moves[1..]);
    }
  }

  // Any outcome can be had all the way until both queues are empty.
  lemma {:induction false} Drain(f: Floor, outcome: Outcome) returns (moves: seq<Move>)
    requires Tidy(f)
    ensures PossibleAll(f, moves) && Pending(After(f, moves)) == []
    ensures forall m :: m in moves ==> m in {Take, Deliver(outcome)}
    decreases Sum(CostOf, f.world, Pending(f)), |f.world.queue|
  {
    if Pending(f) == [] {
      moves := [];
    } else {
      var m := if f.events != [] then Deliver(outcome) else Take;
      assert f.events == [] ==> |Wrapped(f.world.queue)| > 0;
      MovedCost(f, m);
      var rest := Drain(Moved(f, m), outcome);
      moves := [m] + rest;
      assert moves[1..] == rest;
    }
  }

  function Pow8(n: nat): nat {
    if n == 0 then 1 else 8 * Pow8(n - 1)
  }

  // An item with one retry on a fresh event: 1 + 4 + 3.
  lemma EightLooks()
    ensures Looks(1, REDELIVERIES) == 8
  {
    assert Looks(0, 3) == 4 && Looks(0, 2) == 3;
  }

  lemma {:induction false} Geometric(depth: nat)
    ensures 7 * Cost(depth) == Pow8(depth + 1) - 1
    ensures 7 * Offspring(depth) == Pow8(depth) - 1
  {
    EightLooks();
    if depth == 0 {
      assert Pow8(1) == 8 * Pow8(0);
    } else {
      Geometric(depth - 1);
    }
  }

  lemma FreshFlowSums(w: World, n: nat)
    requires n > 0 && FreshFlow(w, n)
    ensures var f := Floor(w, []);
            && Tidy(f) && Welcome(f) && |Pending(f)| == 1
            && 7 * Sum(CostOf, w, Pending(f)) == Pow8(n + 1) - 8
            && 7 * Sum(OffspringOf, w, Pending(f)) == Pow8(n) - 8
            && Sum(LengthOf, w, Pending(f)) == n
  {
    var d := Delivery(w.queue[0], 0);
    assert Pending(Floor(w, [])) == [d];
    SumOne(CostOf, w, d);
    SumOne(OffspringOf, w, d);
    SumOne(LengthOf, w, d);
    RootLooks(w, d, n);
    Geometric(n - 1);
  }

  lemma SumOne(of: (World, Delivery) -> nat, w: World, d: Delivery)
    ensures Sum(of, w, [d]) == of(w, d)
  {
  }

  lemma RootLooks(w: World, d: Delivery, n: nat)
    requires n > 0 && FreshFlow(w, n) && d == Delivery(w.queue[0], 0)
    ensures !Refused(w, d.item) && DepthOf(w, d.item) == n - 1 && LooksOf(w, d) == 8
  {
    EightLooks();
  }

  // Through both queues a flow of n steps takes at most (8^(n+1)-8)/7 deliveries and (8^n-1)/7 tasks, in whatever
  // order the queues are worked off and whatever fails; both are reached when everything fails late, and
  // n of each when nothing fails.
  lemma FlowDeliveries(w: World, n: nat, moves: seq<Move>)
    requires n > 0 && FreshFlow(w, n) && PossibleAll(Floor(w, []), moves)
    ensures var t := After(Floor(w, []), moves);
            var tasks := 1 + t.world.nextTask - w.nextTask;
            && 7 * Deliveries(moves) <= Pow8(n + 1) - 8 && 7 * tasks <= Pow8(n) - 1
            && (AllLate(moves) && Pending(t) == [] ==>
                  7 * Deliveries(moves) == Pow8(n + 1) - 8 && 7 * tasks == Pow8(n) - 1)
            && (AllSucceed(moves) && Pending(t) == [] ==> Deliveries(moves) == n && tasks == n)
  {
    FreshFlowSums(w, n);
    RunBounds(Floor(w, []), moves);
    if AllSucceed(moves) { RunLength(Floor(w, []), moves); }
  }

  // ---- the plan along a flow ----

  // In whatever order the queues are worked off and whatever fails, every row created has its parent's flow and steps,
  // the parent's index plus one, and the employee of that step.
  lemma {:induction false} RunKeepsPlan(f: Floor, moves: seq<Move>, base: nat)
    requires Tidy(f) && PossibleAll(f, moves) && Planned(f.world.tasks, base)
    ensures Planned(After(f, moves).world.tasks, base)
    decreases |moves|
  {
    if moves == [] {
    } else {
      MovedCost(f, moves[0]);
      if moves[0].Deliver? { HandledPlanned(f.world, f.events[0].item, moves[0].outcome, base); }
      RunKeepsPlan(Moved(f, moves[0]), moves[1..], base);
    }
  }

  // The employees whose rows the deliveries are about, one after the other.
  function Delivered(f: Floor, moves: seq<Move>): seq<string>
    requires PossibleAll(f, moves)
    decreases |moves|
  {
    if moves == [] then []
    else
      var rest := Delivered(Moved(f, moves[0]), moves[1..]);
      if moves[0].Deliver? && f.events[0].item.center in f.world.tasks
      then [f.world.tasks[f.events[0].item.center].assignedTo] + rest else rest
  }

  // The one thing on its way is the item of step i; behind the last step there is nothing.
  ghost predicate OnStep(f: Floor, id: nat, steps: seq<string>, i: nat) {
    && Tidy(f) && i <= |steps|
    && if i == |steps| then Pending(f) == []
       else |Pending(f)| == 1 && AtStep(f.world, Pending(f)[0].item, id, steps, i)
  }

  lemma MovedOnStep(f: Floor, m: Move, id: nat, steps: seq<string>, i: nat)
    requires OnStep(f, id, steps, i) && Possible(f, m) && (m.Take? || m.outcome.Succeed?)
    ensures OnStep(Moved(f, m), id, steps, if m.Take? then i else i + 1)
    ensures i < |steps|
    ensures m.Deliver? ==> f.events[0].item.center in f.world.tasks && f.world.tasks[f.events[0].item.center].assignedTo == steps[i]
  {
    assert |Pending(f)| == |f.events| + |f.world.queue|;
    match m
    case Take =>
      TakenTidy(f);
      SamePending(f);
    case Deliver(outcome) =>
      var d := f.events[0];
      assert Pending(f)[0] == d;
      DeliveredTidy(f, outcome);
      NextStep(f.world, d.item, id, steps, i);
      assert Redelivered(f.world, d, Succeed) == [];
  }

  lemma {:induction false} StaysOnStep(f: Floor, moves: seq<Move>, id: nat, steps: seq<string>, i: nat)
    requires OnStep(f, id, steps, i) && PossibleAll(f, moves) && AllSucceed(moves)
    ensures OnStep(After(f, moves), id, steps, i + Deliveries(moves))
    decreases |moves|
  {
    if moves == [] {
    } else {
      MovedOnStep(f, moves[0], id, steps, i);
      var t, next := Moved(f, moves[0]), if moves[0].Take? then i else i + 1;
      assert AllSucceed(moves[1..]);
      StaysOnStep(t, moves[1..], id, steps, next);
    }
  }

  lemma DeliveredFirst(f: Floor, moves: seq<Move>, steps: seq<string>, i: nat)
    requires PossibleAll(f, moves) && moves != [] && i < |steps|
    requires moves[0].Deliver? ==>
               f.events[0].item.center in f.world.tasks && f.world.tasks[f.events[0].item.center].assignedTo == steps[i]
    requires var next, n := if moves[0].Take? then i else i + 1, Deliveries(moves[1..]);
             next + n <= |steps| && Delivered(Moved(f, moves[0]), moves[1..]) == steps[next..next + n]
    ensures i + Deliveries(moves) <= |steps| && Delivered(f, moves) == steps[i..i + Deliveries(moves)]
  {
    var n := Deliveries(moves[1..]);
    if moves[0].Deliver? { assert [steps[i]] + steps[i + 1..i + 1 + n] == steps[i..i + 1 + n]; }
  }

  lemma {:induction false} DeliveriesInOrder(f: Floor, moves: seq<Move>, id: nat, steps: seq<string>, i: nat)
    requires OnStep(f, id, steps, i) && PossibleAll(f, moves) && AllSucceed(moves)
    ensures i + Deliveries(moves) <= |steps| && Delivered(f, moves) == steps[i..i + Deliveries(moves)]
    decreases |moves|
  {
    if moves == [] {
    } else {
      MovedOnStep(f, moves[0], id, steps, i);
      assert AllSucceed(moves[1..]);
      DeliveriesInOrder(Moved(f, moves[0]), moves[1..], id, steps, if moves[0].Take? then i else i + 1);
      DeliveredFirst(f, moves, steps, i);
    }
  }

  // While nothing fails, what has been delivered of a fresh flow is the work of its first steps, once each and in their
  // order, and of all its steps once both queues are empty.
  lemma FlowDeliveredInOrder(w: World, n: nat, moves: seq<Move>)
    requires n > 0 && FreshFlow(w, n) && PossibleAll(Floor(w, []), moves) && AllSucceed(moves)
    requires var root := w.tasks[w.queue[0].center]; root.assignedTo == root.plan.steps[0]
    ensures var steps := w.tasks[w.queue[0].center].plan.steps;
            && Delivered(Floor(w, []), moves) <= steps
            && (Pending(After(Floor(w, []), moves)) == [] ==> Delivered(Floor(w, []), moves) == steps)
  {
    var plan := w.tasks[w.queue[0].center].plan;
    assert Pending(Floor(w, [])) == [Delivery(w.queue[0], 0)];
    StaysOnStep(Floor(w, []), moves, plan.flowId, plan.steps, 0);
    DeliveriesInOrder(Floor(w, []), moves, plan.flowId, plan.steps, 0);
  }
}
