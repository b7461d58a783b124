// Any number of producers and queue workers sharing the event queue, one Redis command per step
// (backend/task_queue.py, backend/queue_worker.py).
module EventWorkers {
  import opened Options
  import opened EventQueue

  datatype Process =
    | Idle
    | Announcing(item: Item, status: Status, message: string)  // after RPUSH, before the status SETEX
    | Popped(item: Item)                                       // before the status is set to running
    | Executing(item: Item)

  datatype State = State(store: Store, processes: map<nat, Process>, pushed: set<nat>, done: set<nat>)

  datatype Action =
    | Push(p: nat, id: nat, event: nat, maxRetries: int)
    | Announce(p: nat)
    | Pop(p: nat)
    | MarkRunning(p: nat)
    | Complete(p: nat, value: nat)
    | Retry(p: nat, message: string)
    | GiveUp(p: nat, message: string)

  predicate Holds(pr: Process) {
    pr.Popped? || pr.Executing?
  }

  predicate Enabled(s: State, a: Action) {
    && a.p in s.processes
    && var pr := s.processes[a.p];
       match a
       case Push(_, id, _, _) => pr.Idle? && id !in s.pushed
       case Announce(_) => pr.Announcing?
       case Pop(_) => pr.Idle? && s.store.queue != []
       case MarkRunning(_) => pr.Popped?
       case Complete(_, _) => pr.Executing?
       case Retry(_, _) => Holds(pr) && pr.item.attempt < pr.item.maxRetries
       case GiveUp(_, _) => Holds(pr) && pr.item.attempt >= pr.item.maxRetries
  }

  function Become(s: State, p: nat, pr: Process, store: Store): State {
    s.(processes := s.processes[p := pr], store := store)
  }

  function Again(item: Item, message: string): Item {
    item.(attempt := item.attempt + 1, healing := Some(message))
  }

  function Next(s: State, a: Action): State
    requires Enabled(s, a)
  {
    var pr := s.processes[a.p];
    match a
    case Push(p, id, event, maxRetries) =>
      var item := NewItem(id, event, maxRetries);
      Become(s, p, Announcing(item, Queued, ""), Rpush(s.store, item)).(pushed := s.pushed + {id})
    case Announce(p) => Become(s, p, Idle, SetStatus(s.store, pr.status, pr.item, pr.message))
    case Pop(p) => Become(s, p, Popped(s.store.queue[0]), s.store.(queue := s.store.queue[1..]))
    case MarkRunning(p) => Become(s, p, Executing(pr.item), SetStatus(s.store, Running, pr.item, ""))
    case Complete(p, value) =>
      Become(s, p, Idle, SetStatus(s.store, Completed, pr.item.(result := Some(value)), "")).(done := s.done + {pr.item.id})
    case Retry(p, message) =>
      var again := Again(pr.item, message);
      Become(s, p, Announcing(again, Retrying, message), Rpush(s.store, again))
    case GiveUp(p, message) =>
      Become(s, p, Idle, SetStatus(s.store, Failed, pr.item.(healing := Some(message)), message)).(done := s.done + {pr.item.id})
  }

  predicate Init(s: State) {
    && s.store == Store([], map[]) && s.pushed == {} && s.done == {}
    && forall p :: p in s.processes ==> s.processes[p].Idle?
  }

  ghost predicate Run(states: seq<State>, actions: seq<Action>) {
    && |states| == |actions| + 1 && Init(states[0])
    && forall i :: 0 <= i < |actions| ==> Enabled(states[i], actions[i]) && states[i + 1] == Next(states[i], actions[i])
  }

  ghost predicate HeldBy(s: State, p: nat, id: nat) {
    p in s.processes && Holds(s.processes[p]) && s.processes[p].item.id == id
  }

  ghost predicate InFlight(s: State, id: nat) {
    exists p :: HeldBy(s, p, id)
  }

  // ---- conservation, over every interleaving ----

  // No event is in two places: twice in the queue, with two workers, queued and with a worker, or
  // finished and still somewhere.
  ghost predicate OnePlace(s: State) {
    && DistinctIds(s.store.queue)
    && (forall p, q, id :: HeldBy(s, p, id) && HeldBy(s, q, id) ==> p == q)
    && (forall p, id :: HeldBy(s, p, id) ==> !InQueue(s.store, id) && id !in s.done)
    && (forall id :: InQueue(s.store, id) ==> id !in s.done)
  }

  // Every place holds pushed events only, and every pushed event has a place.
  ghost predicate SomePlace(s: State) {
    forall id :: id in s.pushed <==> InQueue(s.store, id) || InFlight(s, id) || id in s.done
  }

  ghost predicate RetriesBounded(s: State) {
    && (forall i :: 0 <= i < |s.store.queue| ==> WithinRetries(s.store.queue[i]))
    && (forall p :: p in s.processes && !s.processes[p].Idle? ==> WithinRetries(s.processes[p].item))
  }

  ghost predicate Conserved(s: State) {
    OnePlace(s) && SomePlace(s) && RetriesBounded(s)
  }

  // How a step moves one event between the three places.
  lemma Moves(s: State, a: Action, id: nat)
    requires Enabled(s, a) && OnePlace(s)
    ensures var t := Next(s, a);
            InQueue(t.store, id) <==>
              match a
              case Push(_, added, _, _) => InQueue(s.store, id) || id == added
              case Pop(_) => InQueue(s.store, id) && id != s.store.queue[0].id
              case Retry(p, _) => InQueue(s.store, id) || id == s.processes[p].item.id
              case _ => InQueue(s.store, id)
    ensures forall q :: HeldBy(Next(s, a), q, id) <==>
              match a
              case Pop(p) => if q == p then id == s.store.queue[0].id else HeldBy(s, q, id)
              case MarkRunning(_) => HeldBy(s, q, id)
              case _ => q != a.p && HeldBy(s, q, id)
  {
    var t := Next(s, a);
    match a
    case Push(_, added, event, maxRetries) => RpushIn(s.store, NewItem(added, event, maxRetries), id);
    case Pop(_) => PopOut(s.store, id);
    case Retry(p, message) => RpushIn(s.store, Again(s.processes[p].item, message), id);
    case _ => assert t.store.queue == s.store.queue;
  }

  lemma OnePlaceStep(s: State, a: Action)
    requires Enabled(s, a) && Conserved(s)
    ensures OnePlace(Next(s, a))
  {
    forall id { Moves(s, a, id); }
    var t := Next(s, a);
    assert Holds(s.processes[a.p]) ==> HeldBy(s, a.p, s.processes[a.p].item.id);
    assert a.Pop? ==> InQueue(s.store, s.store.queue[0].id);
    forall p, q, id | HeldBy(t, p, id) && HeldBy(t, q, id) ensures p == q {
      Moves(s, a, id);
      assert !a.Pop? || p != a.p ==> HeldBy(s, p, id);
      assert !a.Pop? || q != a.p ==> HeldBy(s, q, id);
    }
    forall i, j | 0 <= i < j < |t.store.queue| ensures t.store.queue[i].id != t.store.queue[j].id {
      if j < |s.store.queue| && !a.Pop? {
      } else if !a.Pop? {
        assert InQueue(s.store, t.store.queue[i].id);
      }
    }
  }

  lemma SomePlaceStep(s: State, a: Action)
    requires Enabled(s, a) && Conserved(s)
    ensures SomePlace(Next(s, a))
  {
    var t := Next(s, a);
    forall id ensures id in t.pushed <==> InQueue(t.store, id) || InFlight(t, id) || id in t.done {
      Moves(s, a, id);
      assert Holds(s.processes[a.p]) ==> HeldBy(s, a.p, s.processes[a.p].item.id);
      if a.Pop? {
        assert InQueue(s.store, s.store.queue[0].id);
        assert HeldBy(t, a.p, id) <==> id == s.store.queue[0].id;
      }
      if InFlight(s, id) {
        var q :| HeldBy(s, q, id);
        assert HeldBy(t, q, id) || (q == a.p && !a.Pop? && !a.MarkRunning?);
      }
    }
  }

  lemma RetriesBoundedStep(s: State, a: Action)
    requires Enabled(s, a) && RetriesBounded(s)
    ensures RetriesBounded(Next(s, a))
  {
  }

  // Without crashes every pushed event is at all times in exactly one of: the queue (once), the hands
  // of one worker, the finished events; and no attempt number ever exceeds its limit.
  lemma {:induction false} Conservation(states: seq<State>, actions: seq<Action>, n: nat)
    requires Run(states, actions) && n < |states|
    ensures Conserved(states[n])
  {
    if n == 0 {
    } else {
      Conservation(states, actions, n - 1);
      OnePlaceStep(states[n - 1], actions[n - 1]);
      SomePlaceStep(states[n - 1], actions[n - 1]);
      RetriesBoundedStep(states[n - 1], actions[n - 1]);
    }
  }

  // ---- how often an event is taken ----

  predicate Takes(s: State, a: Action, id: nat) {
    a.Pop? && s.store.queue != [] && s.store.queue[0].id == id
  }

  function Taken(states: seq<State>, actions: seq<Action>, id: nat, n: nat): nat
    requires n <= |actions| < |states|
  {
    if n == 0 then 0
    else Taken(states, actions, id, n - 1) + if Takes(states[n - 1], actions[n - 1], id) then 1 else 0
  }

  // The attempt of an event counts how often it has been taken before.
  ghost predicate Counted(s: State, id: nat, taken: nat) {
    && (id !in s.pushed ==> taken == 0)
    && (forall i :: 0 <= i < |s.store.queue| && s.store.queue[i].id == id ==> s.store.queue[i].attempt == taken)
    && (forall p :: HeldBy(s, p, id) ==> s.processes[p].item.attempt + 1 == taken)
  }

  lemma CountedStep(s: State, a: Action, id: nat, taken: nat)
    requires Enabled(s, a) && Conserved(s) && Counted(s, id, taken)
    ensures Counted(Next(s, a), id, taken + if Takes(s, a, id) then 1 else 0)
  {
    var t := Next(s, a);
    Moves(s, a, id);
    assert a.Retry? && About(s, a) == id ==> HeldBy(s, a.p, id);
    assert a.Pop? ==> InQueue(s.store, s.store.queue[0].id);
    forall i | 0 <= i < |t.store.queue| && t.store.queue[i].id == id
      ensures !Takes(s, a, id) && t.store.queue[i].attempt == taken
    {
      if a.Pop? { assert t.store.queue[i] == s.store.queue[i + 1]; }
    }
  }

  lemma {:induction false} CountedRun(states: seq<State>, actions: seq<Action>, id: nat, n: nat)
    requires Run(states, actions) && n < |states|
    ensures Counted(states[n], id, Taken(states, actions, id, n))
  {
    if n == 0 {
    } else {
      Conservation(states, actions, n - 1);
      CountedRun(states, actions, id, n - 1);
      CountedStep(states[n - 1], actions[n - 1], id, Taken(states, actions, id, n - 1));
    }
  }

  // No event is taken more often than once for each retry and once more, and none is given up before that.
  lemma GivenUpWhenExhausted(states: seq<State>, actions: seq<Action>, n: nat)
    requires Run(states, actions) && n < |actions| && (actions[n].Complete? || actions[n].GiveUp?)
    ensures var item := states[n].processes[actions[n].p].item;
            var taken := Taken(states, actions, item.id, n);
            taken <= Max(0, item.maxRetries) + 1 && (actions[n].GiveUp? ==> taken == Max(0, item.maxRetries) + 1)
  {
    var s, p := states[n], actions[n].p;
    Conservation(states, actions, n);
    CountedRun(states, actions, s.processes[p].item.id, n);
    assert HeldBy(s, p, s.processes[p].item.id);
  }

  // What is on record of an event when it is finished, and what goes with it into the queue when it is not.
  lemma RecordedEnds(s: State, a: Action)
    requires Enabled(s, a)
    ensures a.Complete? ==>
              var item, status := s.processes[a.p].item, Next(s, a).store.status;
              item.id in status && status[item.id] == StatusEntry(Completed, item.event, item.attempt, item.maxRetries, "",
                                                                  Some(a.value), item.healing)
    ensures a.GiveUp? ==>
              var item, status := s.processes[a.p].item, Next(s, a).store.status;
              item.id in status && status[item.id] == StatusEntry(Failed, item.event, item.attempt, item.maxRetries, a.message,
                                                                  item.result, Some(a.message))
    ensures a.Retry? ==>
              var item, t := s.processes[a.p].item, Next(s, a);
              var again := Item(item.id, item.event, item.attempt + 1, item.maxRetries, item.result, Some(a.message));
              t.store.queue == s.store.queue + [again] && t.processes[a.p] == Announcing(again, Retrying, a.message)
  {
  }

  // ---- truthful statuses ----

  // The event a step is about.
  function About(s: State, a: Action): nat
    requires Enabled(s, a)
  {
    match a
    case Push(_, id, _, _) => id
    case Pop(_) => s.store.queue[0].id
    case _ => s.processes[a.p].item.id
  }

  predicate Announces(s: State, p: nat, item: Item) {
    p in s.processes && s.processes[p].Announcing? && s.processes[p].item == item
  }

  // A queued item's status says that it waits, or is about to be written.
  ghost predicate Told(s: State, item: Item) {
    (exists p :: Announces(s, p, item)) || (item.id in s.store.status && Waiting(s.store.status[item.id], item))
  }

  // The stored status names the place the event is in, unless the announcement of where it is queued is still to come.
  ghost predicate TruthfulAbout(s: State, id: nat) {
    && (forall i :: 0 <= i < |s.store.queue| && s.store.queue[i].id == id ==> Told(s, s.store.queue[i]))
    && (forall p :: HeldBy(s, p, id) && s.processes[p].Executing? ==>
          id in s.store.status && s.store.status[id].status == Running)
    && (id in s.done ==> id in s.store.status && Finished(s.store.status[id]))
  }

  ghost predicate Truthful(s: State) {
    forall id :: TruthfulAbout(s, id)
  }

  ghost predicate ExecutingNow(s: State, id: nat) {
    exists p :: HeldBy(s, p, id) && s.processes[p].Executing?
  }

  ghost predicate QueuedAfresh(s: State, item: Item, i: nat) {
    && i < |s.store.queue| && s.store.queue[i].id == item.id && s.store.queue[i].attempt != item.attempt
    && forall p :: !Announces(s, p, s.store.queue[i])
  }

  // An announcement that has been overtaken: its event is being executed, is finished, or is queued for a later
  // attempt that has been announced already.
  ghost predicate Misleads(s: State, a: Action) {
    a.Announce? && Enabled(s, a) &&
    var item := s.processes[a.p].item;
    ExecutingNow(s, item.id) || item.id in s.done || exists i :: QueuedAfresh(s, item, i)
  }

  // ---- announcements are never newer than what they announce ----

  predicate NotNewer(item: Item, current: Item) {
    item.id == current.id ==> item == current || item.attempt < current.attempt
  }

  ghost predicate NotNewerThanAny(s: State, item: Item) {
    && (forall i :: 0 <= i < |s.store.queue| ==> NotNewer(item, s.store.queue[i]))
    && (forall q :: q in s.processes && Holds(s.processes[q]) ==> NotNewer(item, s.processes[q].item))
  }

  ghost predicate Aged(s: State) {
    forall p :: p in s.processes && s.processes[p].Announcing? ==>
      && s.processes[p].item.id in s.pushed
      && s.processes[p].status == (if s.processes[p].item.attempt == 0 then Queued else Retrying)
      && NotNewerThanAny(s, s.processes[p].item)
  }

  // What somebody else is announcing stays no newer than anything.
  lemma OthersAge(s: State, a: Action, p: nat)
    requires Enabled(s, a) && Conserved(s) && Aged(s) && p in s.processes && s.processes[p].Announcing? && p != a.p
    ensures NotNewerThanAny(Next(s, a), s.processes[p].item)
  {
    var t, item := Next(s, a), s.processes[p].item;
    forall i | 0 <= i < |t.store.queue| ensures NotNewer(item, t.store.queue[i]) {
      if a.Pop? { assert t.store.queue[i] == s.store.queue[i + 1]; }
    }
  }

  // What a process begins to announce is newer than anything else of its event.
  lemma NewcomerIsNewest(s: State, a: Action)
    requires Enabled(s, a) && Conserved(s) && (a.Push? || a.Retry?)
    ensures NotNewerThanAny(Next(s, a), Next(s, a).processes[a.p].item)
  {
    var t, id := Next(s, a), About(s, a);
    Moves(s, a, id);
    assert a.Retry? ==> HeldBy(s, a.p, id);
    assert !InQueue(s.store, id);
    forall i | 0 <= i < |t.store.queue| ensures NotNewer(t.processes[a.p].item, t.store.queue[i]) {
      if i < |s.store.queue| { assert s.store.queue[i].id != id; }
    }
    forall q | q in t.processes && Holds(t.processes[q]) ensures NotNewer(t.processes[a.p].item, t.processes[q].item) {
      assert !HeldBy(t, q, id);
    }
  }

  lemma AgedStep(s: State, a: Action)
    requires Enabled(s, a) && Conserved(s) && Aged(s)
    ensures Aged(Next(s, a))
  {
    var t := Next(s, a);
    forall p | p in t.processes && t.processes[p].Announcing?
      ensures t.processes[p].item.id in t.pushed && NotNewerThanAny(t, t.processes[p].item)
    {
      if p == a.p {
        NewcomerIsNewest(s, a);
        if a.Retry? { assert HeldBy(s, p, About(s, a)) && InFlight(s, About(s, a)); }
      } else {
        OthersAge(s, a, p);
      }
    }
  }

  lemma {:induction false} AgedRun(states: seq<State>, actions: seq<Action>, n: nat)
    requires Run(states, actions) && n < |states|
    ensures Conserved(states[n]) && Aged(states[n])
  {
    Conservation(states, actions, n);
    if n == 0 {
    } else {
      AgedRun(states, actions, n - 1);
      AgedStep(states[n - 1], actions[n - 1]);
    }
  }

  // ---- what one step does to the truth about one event ----

  lemma OthersUntouched(s: State, a: Action, id: nat)
    requires Enabled(s, a) && Conserved(s) && id != About(s, a)
    ensures TruthfulAbout(Next(s, a), id) <==> TruthfulAbout(s, id)
  {
    var t := Next(s, a);
    assert id in t.store.status <==> id in s.store.status;
    assert id in s.store.status ==> t.store.status[id] == s.store.status[id];
    forall item: Item | item.id == id ensures Told(t, item) <==> Told(s, item) {
      forall p ensures Announces(t, p, item) <==> Announces(s, p, item) { }
    }
    forall p ensures HeldBy(t, p, id) && t.processes[p].Executing? <==> HeldBy(s, p, id) && s.processes[p].Executing? { }
    SameQueueOf(s, a, id);
  }

  // The items of other events stay in the queue and no others come.
  lemma SameQueueOf(s: State, a: Action, id: nat)
    requires Enabled(s, a) && id != About(s, a)
    ensures forall item: Item :: item.id == id ==> (item in Next(s, a).store.queue <==> item in s.store.queue)
  {
    var q, r := s.store.queue, Next(s, a).store.queue;
    if a.Pop? {
      assert q == [q[0]] + r;
    } else if a.Push? || a.Retry? {
      assert r == q + [r[|q|]];
    }
  }

  // Any step but an announcement leaves the truth about its event.
  lemma OwnStep(s: State, a: Action)
    requires Enabled(s, a) && Conserved(s) && !a.Announce?
    ensures TruthfulAbout(Next(s, a), About(s, a))
  {
    var t, id := Next(s, a), About(s, a);
    Moves(s, a, id);
    assert !a.Push? && !a.Pop? ==> HeldBy(s, a.p, id);
    if a.Pop? { assert InQueue(s.store, id); }
    assert !a.Pop? ==> !InQueue(s.store, id);
    forall i | 0 <= i < |t.store.queue| && t.store.queue[i].id == id ensures Told(t, t.store.queue[i]) {
      assert InQueue(t.store, id);
      assert Announces(t, a.p, t.store.queue[i]);
    }
    forall p | HeldBy(t, p, id) && t.processes[p].Executing? ensures p == a.p && a.MarkRunning? {
      assert p != a.p ==> HeldBy(s, p, id);
    }
  }

  // An announcement leaves the truth about its event exactly when it has not been overtaken.
  lemma OwnAnnouncement(s: State, a: Action)
    requires Enabled(s, a) && Conserved(s) && Aged(s) && a.Announce?
    ensures TruthfulAbout(Next(s, a), About(s, a)) <==> !Misleads(s, a)
  {
    var t, item := Next(s, a), s.processes[a.p].item;
    assert t.store.status[item.id].status in {Queued, Retrying};
    if p :| HeldBy(s, p, item.id) && s.processes[p].Executing? { assert HeldBy(t, p, item.id) && t.processes[p].Executing?; }
    forall i | 0 <= i < |s.store.queue| && s.store.queue[i].id == item.id
      ensures Told(t, s.store.queue[i]) <==> !QueuedAfresh(s, item, i)
    {
      AnnouncedItem(s, a, i);
    }
    forall p | HeldBy(t, p, item.id) && t.processes[p].Executing? ensures ExecutingNow(s, item.id) {
      assert HeldBy(s, p, item.id);
    }
  }

  lemma AnnouncedItem(s: State, a: Action, i: nat)
    requires Enabled(s, a) && Aged(s) && a.Announce?
    requires i < |s.store.queue| && s.store.queue[i].id == s.processes[a.p].item.id
    ensures Told(Next(s, a), s.store.queue[i]) <==> !QueuedAfresh(s, s.processes[a.p].item, i)
  {
    var t, item, queued := Next(s, a), s.processes[a.p].item, s.store.queue[i];
    assert NotNewer(item, queued);
    if item != queued {
      if p :| Announces(s, p, queued) { assert Announces(t, p, queued); }
      if p :| Announces(t, p, queued) { assert Announces(s, p, queued); }
    }
  }

  // The truth about an event after a step: the step was about it and did not mislead, or it was about another
  // event and the truth was there before.
  lemma TruthStep(s: State, a: Action, id: nat)
    requires Enabled(s, a) && Conserved(s) && Aged(s)
    ensures TruthfulAbout(Next(s, a), id) <==> if About(s, a) == id then !Misleads(s, a) else TruthfulAbout(s, id)
  {
    if About(s, a) != id { OthersUntouched(s, a, id); }
    else if a.Announce? { OwnAnnouncement(s, a); }
    else { OwnStep(s, a); }
  }

  // ---- and over whole runs ----

  ghost predicate MisledAt(states: seq<State>, actions: seq<Action>, k: nat, n: nat, id: nat)
    requires Run(states, actions) && k < n < |states|
  {
    && Misleads(states[k], actions[k]) && About(states[k], actions[k]) == id
    && forall m :: k < m < n ==> About(states[m], actions[m]) != id
  }

  // The last step about the event was an overtaken announcement.
  ghost predicate Misled(states: seq<State>, actions: seq<Action>, n: nat, id: nat)
    requires Run(states, actions) && n < |states|
  {
    exists k: nat :: k < n && MisledAt(states, actions, k, n, id)
  }

  lemma MisledNext(states: seq<State>, actions: seq<Action>, n: nat, id: nat)
    requires Run(states, actions) && n < |actions|
    ensures Misled(states, actions, n + 1, id) <==>
              if About(states[n], actions[n]) == id then Misleads(states[n], actions[n]) else Misled(states, actions, n, id)
  {
    if Misled(states, actions, n + 1, id) {
      var k: nat :| k < n + 1 && MisledAt(states, actions, k, n + 1, id);
      assert k < n ==> About(states[n], actions[n]) != id && MisledAt(states, actions, k, n, id);
    }
    if About(states[n], actions[n]) != id && Misled(states, actions, n, id) {
      var k: nat :| k < n && MisledAt(states, actions, k, n, id);
      assert MisledAt(states, actions, k, n + 1, id);
    }
    if About(states[n], actions[n]) == id && Misleads(states[n], actions[n]) { assert MisledAt(states, actions, n, n + 1, id); }
  }

  // In every state of every run: the stored status of an event is truthful, unless the last step about that event
  // was the announcement of it by a process that somebody had overtaken.
  lemma {:induction false} TruthfulExactly(states: seq<State>, actions: seq<Action>, n: nat, id: nat)
    requires Run(states, actions) && n < |states|
    ensures TruthfulAbout(states[n], id) <==> !Misled(states, actions, n, id)
  {
    if n == 0 {
    } else {
      TruthfulExactly(states, actions, n - 1, id);
      AgedRun(states, actions, n - 1);
      TruthStep(states[n - 1], actions[n - 1], id);
      MisledNext(states, actions, n - 1, id);
    }
  }

  // A step keeps the statuses truthful exactly when it is not such an announcement.
  lemma TruthfulNext(states: seq<State>, actions: seq<Action>, n: nat)
    requires Run(states, actions) && n < |actions| && Truthful(states[n])
    ensures Truthful(states[n + 1]) <==> !Misleads(states[n], actions[n])
  {
    AgedRun(states, actions, n);
    forall id { TruthStep(states[n], actions[n], id); }
    assert Enabled(states[n], actions[n]) && states[n + 1] == Next(states[n], actions[n]);
    assert TruthfulAbout(states[n + 1], About(states[n], actions[n])) <==> !Misleads(states[n], actions[n]);
  }

  // The statuses are truthful all along exactly in the runs without an overtaken announcement.
  lemma {:induction false} StatusesTruthful(states: seq<State>, actions: seq<Action>, n: nat)
    requires Run(states, actions) && n < |states|
    ensures (forall i :: 0 <= i <= n ==> Truthful(states[i])) <==> forall i :: 0 <= i < n ==> !Misleads(states[i], actions[i])
  {
    if n == 0 {
      forall id ensures TruthfulAbout(states[0], id) { }
    } else {
      StatusesTruthful(states, actions, n - 1);
      if Truthful(states[n - 1]) { TruthfulNext(states, actions, n - 1); }
    }
  }

  // Once it is finished, an event with an untruthful status keeps one: nothing writes it any more but further announcements.
  lemma {:induction false} FinishedStaysMisled(states: seq<State>, actions: seq<Action>, j: nat, k: nat, id: nat)
    requires Run(states, actions) && j <= k < |states| && id in states[j].done && !TruthfulAbout(states[j], id)
    ensures id in states[k].done && !TruthfulAbout(states[k], id)
  {
    if j == k {
    } else {
      FinishedStaysMisled(states, actions, j, k - 1, id);
      FinishedStep(states, actions, k - 1, id);
    }
  }

  lemma FinishedStep(states: seq<State>, actions: seq<Action>, k: nat, id: nat)
    requires Run(states, actions) && k < |actions| && id in states[k].done && !TruthfulAbout(states[k], id)
    ensures id in states[k + 1].done && !TruthfulAbout(states[k + 1], id)
  {
    var s, a := states[k], actions[k];
    AgedRun(states, actions, k);
    TruthStep(s, a, id);
    if About(s, a) == id {
      assert id in s.pushed;
      assert a.Pop? ==> InQueue(s.store, id);
      assert !a.Push? && !a.Pop? && !a.Announce? ==> HeldBy(s, a.p, id);
    }
  }

  // RPUSH comes before the status is written, so a quick worker can finish an event first and the
  // late announcement then leaves "queued" behind, for an event that is finished and queued nowhere.
  lemma OvertakenAnnouncement() returns (states: seq<State>, actions: seq<Action>)
    ensures Run(states, actions)
    ensures var last := states[|states| - 1];
            5 in last.done && 5 in last.store.status && last.store.status[5].status == Queued &&
            last.store.queue == [] && forall p :: p in last.processes ==> last.processes[p].Idle?
  {
    var s0 := State(Store([], map[]), map[0 := Idle, 1 := Idle], {}, {});
    actions := [Push(0, 5, 9, 3), Pop(1), MarkRunning(1), Complete(1, 8), Announce(0)];
    var s1 := Next(s0, actions[0]);
    assert s1.store.queue == [NewItem(5, 9, 3)];
    var s2 := Next(s1, actions[1]);
    var s3 := Next(s2, actions[2]);
    var s4 := Next(s3, actions[3]);
    states := [s0, s1, s2, s3, s4, Next(s4, actions[4])];
  }
}
