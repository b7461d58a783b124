// The daily scheduler and the workers that take what it enqueues: the item of a daily flow can be on its way
// before the row it is about is committed (backend/worker.py, run_daily_scheduler and _handle_task_direct).
module FlowHandoff {
  import opened Options
  import opened Ownership
  import opened FlowQueue
  import opened FlowDelivery
  import opened RedisKeys
  import S = DailyScheduler

  // `rows` has the id that a section's last flush gave its row. The rows a section would commit come with the run
  // as a function from slots to tasks.
  datatype State = State(scheduler: S.State, rows: map<nat, nat>, floor: Floor)

  datatype Action = Schedule(step: S.Action) | Work(move: Move)

  // A row bound to a complete ownership source.
  ghost predicate Bound(daily: nat -> Task) {
    forall slot :: daily(slot).owner.Complete() && daily(slot).status == Assigned
  }

  function Row(s: State, p: nat): nat {
    if p in s.rows then s.rows[p] else 0
  }

  function Slot(s: State, p: nat): nat {
    if S.In(s.scheduler, p) then s.scheduler.workers[p].slot else 0
  }

  predicate Flushed(s: State, p: nat) {
    S.In(s.scheduler, p) && s.scheduler.workers[p].Flushed?
  }

  // The row is pending in the section's transaction.
  predicate Writing(s: State, p: nat) {
    S.In(s.scheduler, p) && (s.scheduler.workers[p].Flushed? || s.scheduler.workers[p].Enqueued? || s.scheduler.workers[p].Marked?)
  }

  function FlowItem(daily: nat -> Task, s: State, p: nat): Item {
    Item(s.floor.world.nextItem, Sprint17, Row(s, p), ContextOf(daily(Slot(s, p)).owner), 0, 1)
  }

  function Rpushed(w: World, item: Item): World {
    w.(queue := w.queue + [item], nextItem := w.nextItem + 1)
  }

  // A step at which the item of section p gets into the queue.
  predicate Enqueues(s: State, a: Action, p: nat) {
    && a.Schedule? && Flushed(s, p)
    && a.step in {S.Enqueue(p), S.Raise(p, true)}
  }

  // A step at which a commit takes effect that has row c.
  predicate CommitsRow(s: State, a: Action, c: nat) {
    a.Schedule? && (a.step.Commit? || a.step.CommitUnacknowledged?) && Row(s, a.step.w) == c
  }

  // What a step of the scheduler does to the database and to the task queue.
  function Written(daily: nat -> Task, s: State, step: S.Action): World {
    var w := s.floor.world;
    match step
    case Flush(_) => w.(nextTask := w.nextTask + 1)
    case Enqueue(p) => Noted(Rpushed(w, FlowItem(daily, s, p)), FlowItem(daily, s, p), Queued)
    case Raise(p, applied) => if applied && Flushed(s, p) then Rpushed(w, FlowItem(daily, s, p)) else w
    case Commit(p) => w.(tasks := w.tasks[Row(s, p) := daily(Slot(s, p))])
    case CommitUnacknowledged(p) => w.(tasks := w.tasks[Row(s, p) := daily(Slot(s, p))])
    case _ => w
  }

  ghost predicate Next(daily: nat -> Task, s: State, a: Action, t: State) {
    match a
    case Schedule(step) =>
      && S.Step(s.scheduler, step, t.scheduler)
      && t.rows == (if step.Flush? then s.rows[step.w := s.floor.world.nextTask] else s.rows)
      && t.floor == s.floor.(world := Written(daily, s, step))
    case Work(move) => Possible(s.floor, move) && t == s.(floor := Moved(s.floor, move))
  }

  // Items are numbered in order, as tasks are.
  ghost predicate Numbered(f: Floor) {
    Tidy(f) && forall i :: 0 <= i < |Pending(f)| ==> Pending(f)[i].item.id < f.world.nextItem
  }

  ghost predicate Run(daily: nat -> Task, states: seq<State>, actions: seq<Action>) {
    && Bound(daily) && |states| == |actions| + 1
    && S.Init(states[0].scheduler) && Numbered(states[0].floor)
    && forall i :: 0 <= i < |actions| ==> Next(daily, states[i], actions[i], states[i + 1])
  }

  // ---- rows that are pending in a transaction ----

  ghost predicate RowPending(s: State, p: nat) {
    && p in s.rows && s.rows[p] < s.floor.world.nextTask && s.rows[p] !in s.floor.world.tasks
    && (Flushed(s, p) ==> forall i :: 0 <= i < |Pending(s.floor)| ==> Pending(s.floor)[i].item.center != s.rows[p])
  }

  ghost predicate Sections(s: State) {
    && Numbered(s.floor)
    && (forall p :: Writing(s, p) ==> RowPending(s, p))
    && (forall p, q :: Writing(s, p) && Writing(s, q) && p != q ==> Row(s, p) != Row(s, q))
  }

  // What a move of the workers does to ids: it hands out new ones only, and what is on its way then was on its
  // way before, or is a retry or the successor of what was delivered.
  ghost predicate KeepsIds(f: Floor, t: Floor) {
    && Numbered(t) && f.world.nextItem <= t.world.nextItem && Grown(f.world, t.world)
    && forall i :: 0 <= i < |Pending(t)| ==> OldOrNew(f, Pending(t)[i].item)
  }

  ghost predicate OldOrNew(f: Floor, item: Item) {
    || (item.center >= f.world.nextTask && item.id >= f.world.nextItem)
    || exists j :: 0 <= j < |Pending(f)| && Pending(f)[j].item.id == item.id && Pending(f)[j].item.center == item.center
  }

  lemma HandledItems(w: World, item: Item, outcome: Outcome)
    requires Sane(w) && item.center < w.nextTask
    ensures Handled(w, item, outcome).nextItem == w.nextItem + if QueuesChild(w, item, outcome) then 1 else 0
  {
    if !Refused(w, item) && !outcome.Lost? && HasTask(item) {
      SuccessorDepth(item.kind, w.tasks[item.center].plan);
      BoundIsOwned(w.tasks[item.center].owner);
    }
  }

  lemma InParts(a: seq<Delivery>, b: seq<Delivery>, c: seq<Delivery>, d: seq<Delivery>, i: nat)
    requires i < |(a + b) + (c + d)|
    ensures ((a + b) + (c + d))[i] in a || ((a + b) + (c + d))[i] in b || ((a + b) + (c + d))[i] in c || ((a + b) + (c + d))[i] in d
  {
  }

  lemma OldItem(f: Floor, d: Delivery)
    requires Numbered(f) && (d in f.events || d in Wrapped(f.world.queue))
    ensures OldOrNew(f, d.item) && d.item.id < f.world.nextItem
  {
    assert d in Pending(f);
  }

  lemma DeliveredItem(f: Floor, outcome: Outcome, i: nat)
    requires Numbered(f) && f.events != [] && i < |Pending(Moved(f, Deliver(outcome)))|
    ensures OldOrNew(f, Pending(Moved(f, Deliver(outcome)))[i].item)
    ensures Pending(Moved(f, Deliver(outcome)))[i].item.id < f.world.nextItem + if QueuesChild(f.world, f.events[0].item, outcome) then 1 else 0
  {
    var t, d := Moved(f, Deliver(outcome)), f.events[0];
    var more, left := Redelivered(f.world, d, outcome), Wrapped(Left(f.world, d.item, outcome));
    var e := Pending(t)[i];
    DeliveredTidy(f, outcome);
    InParts(f.events[1..], more, Wrapped(f.world.queue), left, i);
    if e in f.events[1..] || e in Wrapped(f.world.queue) { OldItem(f, e); } else { LeftItem(f, outcome, e); }
  }

  lemma LeftItem(f: Floor, outcome: Outcome, e: Delivery)
    requires Numbered(f) && f.events != []
    requires e in Redelivered(f.world, f.events[0], outcome) || e in Wrapped(Left(f.world, f.events[0].item, outcome))
    ensures OldOrNew(f, e.item)
    ensures e.item.id < f.world.nextItem + if QueuesChild(f.world, f.events[0].item, outcome) then 1 else 0
  {
    assert Pending(f)[0] == f.events[0];
  }

  lemma DeliverKeepsIds(f: Floor, outcome: Outcome)
    requires Numbered(f) && f.events != []
    ensures KeepsIds(f, Moved(f, Deliver(outcome)))
  {
    var t := Moved(f, Deliver(outcome));
    DeliveredTidy(f, outcome);
    HandledItems(f.world, f.events[0].item, outcome);
    var next := f.world.nextItem + if QueuesChild(f.world, f.events[0].item, outcome) then 1 else 0;
    assert t.world.nextItem == next;
    forall i | 0 <= i < |Pending(t)| ensures OldOrNew(f, Pending(t)[i].item) && Pending(t)[i].item.id < next {
      DeliveredItem(f, outcome, i);
    }
  }

  lemma TakeKeepsIds(f: Floor)
    requires Numbered(f) && f.world.queue != []
    ensures KeepsIds(f, Moved(f, Take)) && Pending(Moved(f, Take)) == Pending(f)
  {
    SamePending(f);
    TakenTidy(f);
    forall i | 0 <= i < |Pending(f)| ensures OldOrNew(f, Pending(f)[i].item) { }
  }

  lemma MoveKeepsIds(f: Floor, m: Move)
    requires Numbered(f) && Possible(f, m)
    ensures KeepsIds(f, Moved(f, m))
  {
    if m.Take? { TakeKeepsIds(f); } else { DeliverKeepsIds(f, m.outcome); }
  }

  lemma RpushedPending(f: Floor, w: World, item: Item)
    requires w.queue == f.world.queue + [item]
    ensures Pending(f.(world := w)) == Pending(f) + [Delivery(item, 0)]
  {
    WrappedConcat(f.world.queue, [item]);
  }

  lemma ScheduleNumbered(daily: nat -> Task, s: State, a: Action, t: State)
    requires Sections(s) && a.Schedule? && Next(daily, s, a, t)
    ensures Numbered(t.floor) && s.floor.world.nextItem <= t.floor.world.nextItem
    ensures if exists p :: Enqueues(s, a, p)
            then Pending(t.floor) == Pending(s.floor) + [Delivery(FlowItem(daily, s, a.step.w), 0)]
            else Pending(t.floor) == Pending(s.floor)
  {
    if p :| Enqueues(s, a, p) {
      assert Writing(s, p);
      RpushedPending(s.floor, t.floor.world, FlowItem(daily, s, p));
    } else if a.step.Enqueue? {
      assert Enqueues(s, a, a.step.w);
    } else if a.step.Raise? {
      assert Enqueues(s, a, a.step.w) <==> a.step.applied && Flushed(s, a.step.w);
    } else if a.step.Commit? || a.step.CommitUnacknowledged? {
      assert Writing(s, a.step.w) && RowPending(s, a.step.w);
      assert forall id :: id in t.floor.world.tasks ==> id < t.floor.world.nextTask;
      assert Pending(t.floor) == Pending(s.floor);
    } else {
      assert Pending(t.floor) == Pending(s.floor);
    }
  }

  lemma SectionKept(daily: nat -> Task, s: State, a: Action, t: State, p: nat)
    requires Sections(s) && a.Schedule? && Next(daily, s, a, t) && Writing(t, p)
    ensures RowPending(t, p)
  {
    ScheduleNumbered(daily, s, a, t);
    SectionGoesOn(daily, s, a, t, p);
    if a.step.Flush? && a.step.w == p {
    } else if q :| Enqueues(s, a, q) {
      assert Writing(s, q) && RowPending(s, p);
    } else {
      assert RowPending(s, p) && Pending(t.floor) == Pending(s.floor);
    }
  }

  // A section with a pending row has just flushed it, or had it pending before.
  lemma SectionBefore(s: S.State, step: S.Action, t: S.State, p: nat)
    requires S.Step(s, step, t) && S.In(t, p) && (t.workers[p].Flushed? || t.workers[p].Enqueued? || t.workers[p].Marked?)
    ensures if step.Flush? && step.w == p then S.In(s, p) && s.workers[p].Missing? && t.workers[p].Flushed?
            else && S.In(s, p) && (s.workers[p].Flushed? || s.workers[p].Enqueued? || s.workers[p].Marked?)
                 && s.workers[p].slot == t.workers[p].slot
                 && (t.workers[p].Flushed? ==> s.workers[p] == t.workers[p] && step !in {S.Enqueue(p), S.Raise(p, true)})
                 && step !in {S.Commit(p), S.CommitUnacknowledged(p)}
    ensures step.Commit? || step.CommitUnacknowledged? ==> S.In(s, step.w) && s.workers[step.w].Marked?
  {
  }

  // And what is pending is not what the step commits.
  lemma SectionGoesOn(daily: nat -> Task, s: State, a: Action, t: State, p: nat)
    requires Sections(s) && a.Schedule? && Next(daily, s, a, t) && Writing(t, p)
    ensures s.floor.world.nextTask <= t.floor.world.nextTask && Row(t, p) !in t.floor.world.tasks
    ensures if a.step.Flush? && a.step.w == p
            then Row(t, p) == s.floor.world.nextTask < t.floor.world.nextTask && p in t.rows
            else Writing(s, p) && (Flushed(t, p) ==> Flushed(s, p) && !Enqueues(s, a, p)) && p in t.rows && t.rows[p] == s.rows[p]
  {
    SectionBefore(s.scheduler, a.step, t.scheduler, p);
    if a.step.Flush? && a.step.w == p {
    } else {
      assert Writing(s, p) && RowPending(s, p);
      if a.step.Commit? || a.step.CommitUnacknowledged? { assert Writing(s, a.step.w); }
    }
  }

  lemma ScheduleSections(daily: nat -> Task, s: State, a: Action, t: State)
    requires Sections(s) && a.Schedule? && Next(daily, s, a, t)
    ensures Sections(t)
  {
    ScheduleNumbered(daily, s, a, t);
    forall p | Writing(t, p) ensures RowPending(t, p) { SectionKept(daily, s, a, t, p); }
    forall p, q | Writing(t, p) && Writing(t, q) && p != q ensures Row(t, p) != Row(t, q) {
      assert (a.step.Flush? && a.step.w == p) || Writing(s, p);
      assert (a.step.Flush? && a.step.w == q) || Writing(s, q);
    }
  }

  lemma WorkSections(s: State, m: Move)
    requires Sections(s) && Possible(s.floor, m)
    ensures Sections(s.(floor := Moved(s.floor, m)))
  {
    var t := s.(floor := Moved(s.floor, m));
    MoveKeepsIds(s.floor, m);
    forall p | Writing(t, p) ensures RowPending(t, p) { assert Writing(s, p) && RowPending(s, p); }
    forall p, q | Writing(t, p) && Writing(t, q) && p != q ensures Row(t, p) != Row(t, q) {
      assert Writing(s, p) && Writing(s, q);
    }
  }

  lemma SectionsStep(daily: nat -> Task, s: State, a: Action, t: State)
    requires Sections(s) && Next(daily, s, a, t)
    ensures Sections(t)
  {
    match a
    case Work(move) => WorkSections(s, move);
    case Schedule(_) => ScheduleSections(daily, s, a, t);
  }

  // ---- one item, from the step that enqueues it ----

  function Carrying(ds: seq<Delivery>, id: nat): seq<Delivery> {
    if ds == [] then []
    else if ds[0].item.id == id then [ds[0]] + Carrying(ds[1..], id)
    else Carrying(ds[1..], id)
  }

  lemma {:induction false} CarryingConcat(a: seq<Delivery>, b: seq<Delivery>, id: nat)
    ensures Carrying(a + b, id) == Carrying(a, id) + Carrying(b, id)
  {
    if a == [] {
      assert a + b == b;
    } else {
      CarryingConcat(a[1..], b, id);
      assert (a + b)[1..] == a[1..] + b;
    }
  }

  lemma {:induction false} CarryingNone(ds: seq<Delivery>, id: nat)
    requires forall i :: 0 <= i < |ds| ==> ds[i].item.id != id
    ensures Carrying(ds, id) == []
  {
    if ds == [] {
    } else {
      CarryingNone(ds[1..], id);
    }
  }

  // The item of slot `slot` has been enqueued: nothing else is about its row, nobody else will write that row.
  ghost predicate Tracked(daily: nat -> Task, s: State, item: Item, slot: nat) {
    && item.id < s.floor.world.nextItem && item.center < s.floor.world.nextTask
    && item == Item(item.id, Sprint17, item.center, ContextOf(daily(slot).owner), 0, 1)
    && (forall p :: Writing(s, p) && Row(s, p) == item.center ==> Slot(s, p) == slot && !Flushed(s, p))
    && (item.center in s.floor.world.tasks ==> s.floor.world.tasks[item.center].owner == daily(slot).owner)
    && (forall i :: 0 <= i < |Pending(s.floor)| && Pending(s.floor)[i].item.center == item.center ==> Pending(s.floor)[i].item.id == item.id)
  }

  // The item has been refused `looks` times and not accepted: its next delivery, if there is one, carries that count.
  ghost predicate Unaccepted(s: State, item: Item, looks: nat) {
    Carrying(Pending(s.floor), item.id) == if looks <= REDELIVERIES then [Delivery(item, looks)] else []
  }

  predicate LooksAt(s: State, a: Action, item: Item) {
    a.Work? && a.move.Deliver? && s.floor.events != [] && s.floor.events[0].item.id == item.id
  }

  lemma TrackedStart(daily: nat -> Task, s: State, a: Action, t: State, p: nat)
    requires Sections(s) && Enqueues(s, a, p) && Next(daily, s, a, t)
    ensures var item := FlowItem(daily, s, p); Tracked(daily, t, item, Slot(s, p)) && Unaccepted(t, item, 0)
    ensures FlowItem(daily, s, p).center !in t.floor.world.tasks
  {
    var item := FlowItem(daily, s, p);
    assert Writing(s, p) && RowPending(s, p);
    ScheduleNumbered(daily, s, a, t);
    CarryingNone(Pending(s.floor), item.id);
    CarryingConcat(Pending(s.floor), [Delivery(item, 0)], item.id);
    forall q | Writing(t, q) && Row(t, q) == item.center ensures Slot(t, q) == Slot(s, p) && !Flushed(t, q) {
      assert Writing(s, q) && q == p;
    }
  }

  lemma ScheduleTracked(daily: nat -> Task, s: State, a: Action, t: State, item: Item, slot: nat)
    requires Sections(s) && a.Schedule? && Next(daily, s, a, t) && Tracked(daily, s, item, slot)
    ensures Tracked(daily, t, item, slot)
    ensures Carrying(Pending(t.floor), item.id) == Carrying(Pending(s.floor), item.id)
  {
    ScheduleNumbered(daily, s, a, t);
    forall p | Writing(t, p) && Row(t, p) == item.center ensures Slot(t, p) == slot && !Flushed(t, p) {
      SectionGoesOn(daily, s, a, t, p);
      assert Writing(s, p);
    }
    if q :| Enqueues(s, a, q) {
      assert Writing(s, q) && Row(s, q) != item.center;
      CarryingConcat(Pending(s.floor), [Delivery(FlowItem(daily, s, q), 0)], item.id);
    } else if a.step.Commit? || a.step.CommitUnacknowledged? {
      assert Writing(s, a.step.w);
    }
  }

  lemma WorkTracked(daily: nat -> Task, s: State, m: Move, item: Item, slot: nat)
    requires Sections(s) && Possible(s.floor, m) && Tracked(daily, s, item, slot)
    ensures Tracked(daily, s.(floor := Moved(s.floor, m)), item, slot)
  {
    var t := s.(floor := Moved(s.floor, m));
    MoveKeepsIds(s.floor, m);
    forall p | Writing(t, p) && Row(t, p) == item.center ensures Slot(t, p) == slot && !Flushed(t, p) {
      assert Writing(s, p) && Row(s, p) == item.center;
    }
    forall i | 0 <= i < |Pending(t.floor)| && Pending(t.floor)[i].item.center == item.center
      ensures Pending(t.floor)[i].item.id == item.id
    {
      assert OldOrNew(s.floor, Pending(t.floor)[i].item);
    }
  }

  lemma TrackedStep(daily: nat -> Task, s: State, a: Action, t: State, item: Item, slot: nat)
    requires Sections(s) && Next(daily, s, a, t) && Tracked(daily, s, item, slot)
    ensures Tracked(daily, t, item, slot)
  {
    match a
    case Work(move) => WorkTracked(daily, s, move, item, slot);
    case Schedule(_) => ScheduleTracked(daily, s, a, t, item, slot);
  }

  // What a delivery makes of the deliveries that carry the item.
  lemma DeliveredCarrying(f: Floor, outcome: Outcome, id: nat)
    requires Numbered(f) && f.events != []
    ensures var d := f.events[0];
            && Carrying(Pending(f), id) == (if d.item.id == id then [d] else []) + Carrying(f.events[1..], id) + Carrying(Wrapped(f.world.queue), id)
            && Carrying(Pending(Moved(f, Deliver(outcome))), id)
               == Carrying(f.events[1..], id) + Carrying(Redelivered(f.world, d, outcome), id)
                  + (Carrying(Wrapped(f.world.queue), id) + Carrying(Wrapped(Left(f.world, d.item, outcome)), id))
  {
    var d := f.events[0];
    DeliveredTidy(f, outcome);
    CarryingConcat(f.events, Wrapped(f.world.queue), id);
    CarryingConcat(f.events[1..] + Redelivered(f.world, d, outcome), Wrapped(f.world.queue) + Wrapped(Left(f.world, d.item, outcome)), id);
    CarryingConcat(f.events[1..], Redelivered(f.world, d, outcome), id);
    CarryingConcat(Wrapped(f.world.queue), Wrapped(Left(f.world, d.item, outcome)), id);
  }

  // A delivery of something else.
  lemma OtherDelivered(f: Floor, outcome: Outcome, id: nat)
    requires Numbered(f) && f.events != [] && f.events[0].item.id != id && id < f.world.nextItem
    ensures Carrying(Pending(Moved(f, Deliver(outcome))), id) == Carrying(Pending(f), id)
  {
    DeliveredCarrying(f, outcome, id);
    LeavesNone(f.world, f.events[0], outcome, id);
  }

  lemma LeavesNone(w: World, d: Delivery, outcome: Outcome, id: nat)
    requires d.item.id != id && id < w.nextItem
    requires SpawnsTask(w, d.item, outcome) ==> d.item.center in w.tasks
    ensures Carrying(Redelivered(w, d, outcome), id) == [] && Carrying(Wrapped(Left(w, d.item, outcome)), id) == []
  {
    CarryingNone(Redelivered(w, d, outcome), id);
    CarryingNone(Wrapped(Left(w, d.item, outcome)), id);
  }

  // A delivery of the item itself before its row is there.
  lemma RefusedDelivered(s: State, outcome: Outcome, item: Item, looks: nat)
    requires Numbered(s.floor) && Unaccepted(s, item, looks) && LooksAt(s, Work(Deliver(outcome)), item)
    ensures looks <= REDELIVERIES && s.floor.events[0] == Delivery(item, looks)
    ensures Refused(s.floor.world, item) ==> Unaccepted(s.(floor := Moved(s.floor, Deliver(outcome))), item, looks + 1)
  {
    var f, d := s.floor, s.floor.events[0];
    DeliveredCarrying(f, outcome, item.id);
    var before := Carrying(f.events[1..], item.id) + Carrying(Wrapped(f.world.queue), item.id);
    assert Carrying(Pending(f), item.id) == [d] + before;
    assert d == Carrying(Pending(f), item.id)[0] && before == [];
    if Refused(f.world, item) {
      assert Left(f.world, item, outcome) == [];
      assert Wrapped([]) == [];
    }
  }

  // The row decides.
  lemma RefusedUnlessThere(daily: nat -> Task, s: State, item: Item, slot: nat)
    requires Bound(daily) && Tracked(daily, s, item, slot)
    ensures Refused(s.floor.world, item) <==> item.center !in s.floor.world.tasks
  {
    OwnedIffOwnContext(daily(slot).owner, item.ownership);
  }

  lemma UnacceptedStep(daily: nat -> Task, s: State, a: Action, t: State, item: Item, slot: nat, looks: nat)
    requires Bound(daily) && Sections(s) && Next(daily, s, a, t) && Tracked(daily, s, item, slot) && Unaccepted(s, item, looks)
    ensures !LooksAt(s, a, item) ==> Unaccepted(t, item, looks)
    ensures LooksAt(s, a, item) ==> looks <= REDELIVERIES
    ensures LooksAt(s, a, item) && item.center !in s.floor.world.tasks ==> Unaccepted(t, item, looks + 1)
  {
    if a.Schedule? {
      ScheduleTracked(daily, s, a, t, item, slot);
    } else if a.move.Take? {
      SamePending(s.floor);
    } else if LooksAt(s, a, item) {
      RefusedDelivered(s, a.move.outcome, item, looks);
      RefusedUnlessThere(daily, s, item, slot);
    } else {
      OtherDelivered(s.floor, a.move.outcome, item.id);
    }
  }

  // ---- whole runs ----

  lemma {:induction false} SectionsRun(daily: nat -> Task, states: seq<State>, actions: seq<Action>, n: nat)
    requires Run(daily, states, actions) && n < |states|
    ensures Sections(states[n])
  {
    if n == 0 {
    } else {
      SectionsRun(daily, states, actions, n - 1);
      SectionsStep(daily, states[n - 1], actions[n - 1], states[n]);
    }
  }

  lemma {:induction false} TrackedRun(daily: nat -> Task, states: seq<State>, actions: seq<Action>, e: nat, p: nat, n: nat)
    requires Run(daily, states, actions) && e < n < |states| && Enqueues(states[e], actions[e], p)
    ensures Sections(states[n]) && Tracked(daily, states[n], FlowItem(daily, states[e], p), Slot(states[e], p))
  {
    SectionsRun(daily, states, actions, n);
    SectionsRun(daily, states, actions, n - 1);
    if n == e + 1 {
      TrackedStart(daily, states[e], actions[e], states[n], p);
    } else {
      TrackedRun(daily, states, actions, e, p, n - 1);
      TrackedStep(daily, states[n - 1], actions[n - 1], states[n], FlowItem(daily, states[e], p), Slot(states[e], p));
    }
  }

  // The commit of row c has taken effect between step e and state n.
  ghost predicate Committed(states: seq<State>, actions: seq<Action>, c: nat, e: nat, n: nat)
    requires e < n < |states| == |actions| + 1
  {
    exists j: nat :: e < j < n && CommitsRow(states[j], actions[j], c)
  }

  lemma ThereStep(daily: nat -> Task, s: State, a: Action, t: State, item: Item, slot: nat)
    requires Sections(s) && Next(daily, s, a, t) && Tracked(daily, s, item, slot)
    ensures item.center in t.floor.world.tasks <==> item.center in s.floor.world.tasks || CommitsRow(s, a, item.center)
  {
    if a.Work? { MoveKeepsIds(s.floor, a.move); }
  }

  lemma {:induction false} ThereIffCommitted(daily: nat -> Task, states: seq<State>, actions: seq<Action>, e: nat, p: nat, n: nat)
    requires Run(daily, states, actions) && e < n < |states| && Enqueues(states[e], actions[e], p)
    ensures Row(states[e], p) in states[n].floor.world.tasks <==> Committed(states, actions, Row(states[e], p), e, n)
  {
    var c := Row(states[e], p);
    if n == e + 1 {
      SectionsRun(daily, states, actions, e);
      TrackedStart(daily, states[e], actions[e], states[n], p);
    } else {
      ThereIffCommitted(daily, states, actions, e, p, n - 1);
      TrackedRun(daily, states, actions, e, p, n - 1);
      ThereStep(daily, states[n - 1], actions[n - 1], states[n], FlowItem(daily, states[e], p), Slot(states[e], p));
      CommittedNext(states, actions, c, e, n - 1);
    }
  }

  lemma CommittedNext(states: seq<State>, actions: seq<Action>, c: nat, e: nat, n: nat)
    requires e < n < |actions| && |states| == |actions| + 1
    ensures Committed(states, actions, c, e, n + 1) <==> Committed(states, actions, c, e, n) || CommitsRow(states[n], actions[n], c)
  {
  }

  // How often the item was delivered before its commit had taken effect.
  ghost function EarlyLooks(states: seq<State>, actions: seq<Action>, item: Item, e: nat, n: nat): nat
    requires e < n < |states| == |actions| + 1
    decreases n
  {
    if n == e + 1 then 0
    else EarlyLooks(states, actions, item, e, n - 1)
         + if LooksAt(states[n - 1], actions[n - 1], item) && !Committed(states, actions, item.center, e, n - 1) then 1 else 0
  }

  // The item was delivered when its commit had taken effect.
  ghost predicate Accepted(states: seq<State>, actions: seq<Action>, item: Item, e: nat, n: nat)
    requires e < n < |states| == |actions| + 1
  {
    exists k: nat :: e < k < n && LooksAt(states[k], actions[k], item) && Committed(states, actions, item.center, e, k)
  }

  lemma AcceptedNext(states: seq<State>, actions: seq<Action>, item: Item, e: nat, n: nat)
    requires e < n < |actions| && |states| == |actions| + 1
    ensures Accepted(states, actions, item, e, n + 1) <==>
              || Accepted(states, actions, item, e, n)
              || (LooksAt(states[n], actions[n], item) && Committed(states, actions, item.center, e, n))
    ensures Accepted(states, actions, item, e, n) ==> Committed(states, actions, item.center, e, n)
  {
  }

  // What step k makes of an item that has been refused so often.
  ghost predicate LookMoves(states: seq<State>, actions: seq<Action>, item: Item, e: nat, k: nat)
    requires e < k < |actions| && |states| == |actions| + 1
  {
    forall looks: nat :: Unaccepted(states[k], item, looks) ==>
      if !LooksAt(states[k], actions[k], item) then Unaccepted(states[k + 1], item, looks)
      else looks <= REDELIVERIES && (!Committed(states, actions, item.center, e, k) ==> Unaccepted(states[k + 1], item, looks + 1))
  }

  lemma LookStep(daily: nat -> Task, states: seq<State>, actions: seq<Action>, e: nat, p: nat, k: nat)
    requires Run(daily, states, actions) && e < k < |actions| && Enqueues(states[e], actions[e], p)
    ensures LookMoves(states, actions, FlowItem(daily, states[e], p), e, k)
  {
    var item, slot := FlowItem(daily, states[e], p), Slot(states[e], p);
    TrackedRun(daily, states, actions, e, p, k);
    ThereIffCommitted(daily, states, actions, e, p, k);
    forall looks: nat | Unaccepted(states[k], item, looks) {
      UnacceptedStep(daily, states[k], actions[k], states[k + 1], item, slot, looks);
    }
  }

  lemma {:induction false} FateThrough(states: seq<State>, actions: seq<Action>, item: Item, e: nat, n: nat)
    requires e < n < |states| == |actions| + 1 && Unaccepted(states[e + 1], item, 0)
    requires forall k :: e < k < |actions| ==> LookMoves(states, actions, item, e, k)
    ensures var early := EarlyLooks(states, actions, item, e, n);
            && early <= 1 + REDELIVERIES
            && if Accepted(states, actions, item, e, n) then early <= REDELIVERIES else Unaccepted(states[n], item, early)
  {
    if n == e + 1 {
    } else {
      FateThrough(states, actions, item, e, n - 1);
      AcceptedNext(states, actions, item, e, n - 1);
      assert LookMoves(states, actions, item, e, n - 1);
    }
  }

  // Until it is accepted, the item is on its way exactly once, with the early deliveries it has had counted; after
  // the fourth of them it is gone.
  lemma Fate(daily: nat -> Task, states: seq<State>, actions: seq<Action>, e: nat, p: nat, n: nat)
    requires Run(daily, states, actions) && e < n < |states| && Enqueues(states[e], actions[e], p)
    ensures var item := FlowItem(daily, states[e], p);
            var early := EarlyLooks(states, actions, item, e, n);
            && early <= 1 + REDELIVERIES
            && if Accepted(states, actions, item, e, n) then early <= REDELIVERIES else Unaccepted(states[n], item, early)
  {
    var item := FlowItem(daily, states[e], p);
    SectionsRun(daily, states, actions, e);
    TrackedStart(daily, states[e], actions[e], states[e + 1], p);
    forall k | e < k < |actions| ensures LookMoves(states, actions, item, e, k) { LookStep(daily, states, actions, e, p, k); }
    FateThrough(states, actions, item, e, n);
  }

  // Nothing on its way carries the item and it was never accepted.
  ghost predicate Lost(states: seq<State>, actions: seq<Action>, item: Item, e: nat, n: nat)
    requires e < n < |states| == |actions| + 1
  {
    Carrying(Pending(states[n].floor), item.id) == [] && !Accepted(states, actions, item, e, n)
  }

  // The item of a daily flow is lost exactly when its first delivery and all three redeliveries come before the
  // commit of its row has taken effect, be it late or never.
  lemma LostExactly(daily: nat -> Task, states: seq<State>, actions: seq<Action>, e: nat, p: nat, n: nat)
    requires Run(daily, states, actions) && e < n < |states| && Enqueues(states[e], actions[e], p)
    ensures var item := FlowItem(daily, states[e], p);
            Lost(states, actions, item, e, n) <==> EarlyLooks(states, actions, item, e, n) == 1 + REDELIVERIES
  {
    Fate(daily, states, actions, e, p, n);
  }

  // The delivery that finds the row committed is let in; one that does not is refused.
  lemma LetInIffCommitted(daily: nat -> Task, states: seq<State>, actions: seq<Action>, e: nat, p: nat, n: nat)
    requires Run(daily, states, actions) && e < n < |actions| && Enqueues(states[e], actions[e], p)
    requires var item := FlowItem(daily, states[e], p);
             LooksAt(states[n], actions[n], item) && !Accepted(states, actions, item, e, n)
    ensures var s, item := states[n], FlowItem(daily, states[e], p);
            && s.floor.events[0].item == item
            && (Refused(s.floor.world, item) <==> !Committed(states, actions, item.center, e, n))
  {
    var item, slot := FlowItem(daily, states[e], p), Slot(states[e], p);
    Fate(daily, states, actions, e, p, n);
    TrackedRun(daily, states, actions, e, p, n);
    ThereIffCommitted(daily, states, actions, e, p, n);
    RefusedUnlessThere(daily, states[n], item, slot);
    RefusedDelivered(states[n], actions[n].move.outcome, item, EarlyLooks(states, actions, item, e, n));
  }

  // ---- what becomes of a lost flow ----

  lemma {:induction false} EarlyLooksGrow(states: seq<State>, actions: seq<Action>, item: Item, e: nat, n: nat, m: nat)
    requires e < n <= m < |states| == |actions| + 1
    ensures EarlyLooks(states, actions, item, e, n) <= EarlyLooks(states, actions, item, e, m)
  {
    if n == m {
    } else {
      EarlyLooksGrow(states, actions, item, e, n, m - 1);
    }
  }

  ghost predicate StillAssigned(s: State, c: nat) {
    c in s.floor.world.tasks ==> s.floor.world.tasks[c].status == Assigned
  }

  lemma HandledElsewhere(w: World, item: Item, outcome: Outcome, id: nat)
    requires Sane(w) && item.center < w.nextTask && id < w.nextTask && id != item.center && id in w.tasks
    ensures id in Handled(w, item, outcome).tasks && Handled(w, item, outcome).tasks[id] == w.tasks[id]
  {
    TaskHistory(w, item, outcome, id);
  }

  // Only a delivery of the item itself touches a row that is there.
  lemma AssignedStep(daily: nat -> Task, s: State, a: Action, t: State, item: Item, slot: nat)
    requires Bound(daily) && Sections(s) && Next(daily, s, a, t) && Tracked(daily, s, item, slot) && StillAssigned(s, item.center)
    requires LooksAt(s, a, item) ==> item.center !in s.floor.world.tasks
    ensures StillAssigned(t, item.center)
  {
    ThereStep(daily, s, a, t, item, slot);
    if a.Work? && a.move.Deliver? && item.center in s.floor.world.tasks {
      assert Pending(s.floor)[0] == s.floor.events[0];
      HandledElsewhere(s.floor.world, s.floor.events[0].item, a.move.outcome, item.center);
    }
  }

  ghost predicate AssignmentKept(states: seq<State>, actions: seq<Action>, item: Item, e: nat, k: nat)
    requires e < k < |actions| && |states| == |actions| + 1
  {
    StillAssigned(states[k], item.center) && !(LooksAt(states[k], actions[k], item) && Committed(states, actions, item.center, e, k)) ==>
      StillAssigned(states[k + 1], item.center)
  }

  lemma KeepsAssignment(daily: nat -> Task, states: seq<State>, actions: seq<Action>, e: nat, p: nat, k: nat)
    requires Run(daily, states, actions) && e < k < |actions| && Enqueues(states[e], actions[e], p)
    ensures AssignmentKept(states, actions, FlowItem(daily, states[e], p), e, k)
  {
    var item, slot := FlowItem(daily, states[e], p), Slot(states[e], p);
    TrackedRun(daily, states, actions, e, p, k);
    ThereIffCommitted(daily, states, actions, e, p, k);
    if StillAssigned(states[k], item.center) && !(LooksAt(states[k], actions[k], item) && Committed(states, actions, item.center, e, k)) {
      AssignedStep(daily, states[k], actions[k], states[k + 1], item, slot);
    }
  }

  lemma {:induction false} AssignedThrough(states: seq<State>, actions: seq<Action>, item: Item, e: nat, n: nat)
    requires e < n < |states| == |actions| + 1 && StillAssigned(states[e + 1], item.center)
    requires forall k :: e < k < |actions| ==> AssignmentKept(states, actions, item, e, k)
    requires !Accepted(states, actions, item, e, n)
    ensures StillAssigned(states[n], item.center)
  {
    if n == e + 1 {
    } else {
      AcceptedNext(states, actions, item, e, n - 1);
      AssignedThrough(states, actions, item, e, n - 1);
      assert AssignmentKept(states, actions, item, e, n - 1);
    }
  }

  lemma AssignedUntilAccepted(daily: nat -> Task, states: seq<State>, actions: seq<Action>, e: nat, p: nat, n: nat)
    requires Run(daily, states, actions) && e < n < |states| && Enqueues(states[e], actions[e], p)
    requires !Accepted(states, actions, FlowItem(daily, states[e], p), e, n)
    ensures StillAssigned(states[n], Row(states[e], p))
  {
    var item := FlowItem(daily, states[e], p);
    SectionsRun(daily, states, actions, e);
    TrackedStart(daily, states[e], actions[e], states[e + 1], p);
    forall k | e < k < |actions| ensures AssignmentKept(states, actions, item, e, k) { KeepsAssignment(daily, states, actions, e, p, k); }
    AssignedThrough(states, actions, item, e, n);
  }

  // A lost flow stays lost: its row, committed or not by then, is never anything but assigned.
  lemma LostFlowNeverRuns(daily: nat -> Task, states: seq<State>, actions: seq<Action>, e: nat, p: nat, n: nat, m: nat)
    requires Run(daily, states, actions) && e < n <= m < |states| && Enqueues(states[e], actions[e], p)
    requires Lost(states, actions, FlowItem(daily, states[e], p), e, n)
    ensures Lost(states, actions, FlowItem(daily, states[e], p), e, m)
    ensures var c, tasks := Row(states[e], p), states[m].floor.world.tasks;
            && (c in tasks <==> Committed(states, actions, c, e, m)) && (c in tasks ==> tasks[c].status == Assigned)
  {
    var item := FlowItem(daily, states[e], p);
    LostExactly(daily, states, actions, e, p, n);
    EarlyLooksGrow(states, actions, item, e, n, m);
    Fate(daily, states, actions, e, p, m);
    LostExactly(daily, states, actions, e, p, m);
    ThereIffCommitted(daily, states, actions, e, p, m);
    AssignedUntilAccepted(daily, states, actions, e, p, m);
  }

  // ---- a run that loses a flow ----

  const EMPTY := Floor(World([], map[], [], map[], 0, 0), [])

  // The scheduler's side: a section takes the key of slot 7, sees no task, flushes a row, enqueues its item, marks
  // the key and commits.
  const R0 := S.State(0, map[], multiset{}, map[0 := S.Outside])
  const R1 := S.At(R0, 0, S.Acquired(7, S.TTL)).(keys := map[7 := Entry("pending", S.TTL)])
  const R2 := S.At(R1, 0, S.Missing(7, S.TTL))
  const R3 := S.At(R2, 0, S.Flushed(7, S.TTL))
  const R4 := S.At(R3, 0, S.Enqueued(7, S.TTL))
  const R5 := S.At(R4, 0, S.Marked(7, S.TTL)).(keys := map[7 := Entry("created", S.TTL)])
  const R6 := S.At(R5, 0, S.Outside).(tasks := multiset{7})

  lemma SectionToEnqueue()
    ensures S.Init(R0) && S.Step(R0, S.TakeKey(0, 7), R1) && S.Step(R1, S.Look(0), R2)
    ensures S.Step(R2, S.Flush(0), R3) && S.Step(R3, S.Enqueue(0), R4)
  {
  }

  lemma SectionToCommit()
    ensures S.Step(R4, S.Mark(0), R5) && S.Step(R5, S.Commit(0), R6)
  {
    assert R4.keys[7 := Entry("created", S.TTL)] == R5.keys;
  }

  function Root(daily: nat -> Task): Item {
    Item(0, Sprint17, 0, ContextOf(daily(7).owner), 0, 1)
  }

  // The world from the enqueue to the commit, but for what is queued.
  function Before(daily: nat -> Task, queue: seq<Item>): World {
    Noted(EMPTY.world.(queue := [Root(daily)], nextItem := 1, nextTask := 1), Root(daily), Queued).(queue := queue)
  }

  // The section up to its flush, and with its item enqueued.
  function AtFlush(): State {
    State(R3, map[0 := 0], EMPTY.(world := EMPTY.world.(nextTask := 1)))
  }

  function AtEnqueue(daily: nat -> Task, queue: seq<Item>, events: seq<Delivery>): State {
    State(R4, map[0 := 0], Floor(Before(daily, queue), events))
  }

  function LosingState(daily: nat -> Task, i: nat): State {
    if i == 0 then State(R0, map[], EMPTY)
    else if i == 1 then State(R1, map[], EMPTY)
    else if i == 2 then State(R2, map[], EMPTY)
    else if i == 3 then AtFlush()
    else if i == 4 then AtEnqueue(daily, [Root(daily)], [])
    else if i < 9 then AtEnqueue(daily, [], [Delivery(Root(daily), i - 5)])
    else if i == 9 then AtEnqueue(daily, [], [])
    else if i == 10 then State(R5, map[0 := 0], Floor(Before(daily, []), []))
    else State(R6, map[0 := 0], Floor(Before(daily, []).(tasks := map[0 := daily(7)]), []))
  }

  const LOSING: seq<Action> :=
    [Schedule(S.TakeKey(0, 7)), Schedule(S.Look(0)), Schedule(S.Flush(0)), Schedule(S.Enqueue(0)), Work(Take),
     Work(Deliver(Succeed)), Work(Deliver(Succeed)), Work(Deliver(Succeed)), Work(Deliver(Succeed)),
     Schedule(S.Mark(0)), Schedule(S.Commit(0))]

  lemma LosingFlush(daily: nat -> Task, i: nat)
    requires i < 3
    ensures Next(daily, LosingState(daily, i), LOSING[i], LosingState(daily, i + 1))
  {
    SectionToEnqueue();
  }

  lemma LosingEnqueue(daily: nat -> Task)
    ensures Next(daily, LosingState(daily, 3), LOSING[3], LosingState(daily, 4))
  {
    SectionToEnqueue();
  }

  lemma LosingCommit(daily: nat -> Task, i: nat)
    requires 9 <= i < 11
    ensures Next(daily, LosingState(daily, i), LOSING[i], LosingState(daily, i + 1))
  {
    SectionToCommit();
  }

  // The item is taken, and delivered before its row is there.
  lemma LosingWork(daily: nat -> Task, i: nat)
    requires 4 <= i < 9
    ensures Next(daily, LosingState(daily, i), LOSING[i], LosingState(daily, i + 1))
  {
    if i > 4 { assert LOSING[i] == Work(Deliver(Succeed)); }
  }

  // Workers deliver the item four times while its section is on the way to the commit; the commit then leaves an
  // assigned row with nothing queued for it.
  lemma FlowLost(daily: nat -> Task) returns (states: seq<State>)
    requires Bound(daily)
    ensures Run(daily, states, LOSING)
    ensures Enqueues(states[3], LOSING[3], 0) && CommitsRow(states[10], LOSING[10], Row(states[3], 0))
    ensures states[11].floor.world.tasks == map[0 := daily(7)] && Pending(states[11].floor) == []
  {
    states := seq(12, i requires 0 <= i < 12 => LosingState(daily, i));
    assert S.Init(R0) && Pending(EMPTY) == [] by { SectionToEnqueue(); }
    forall i | 0 <= i < 11 ensures Next(daily, states[i], LOSING[i], states[i + 1]) {
      if i < 3 { LosingFlush(daily, i); }
      else if i == 3 { LosingEnqueue(daily); }
      else if i < 9 { LosingWork(daily, i); }
      else { LosingCommit(daily, i); }
    }
  }
}
