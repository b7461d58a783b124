// The per-task execution lock at the granularity of single Redis commands
// (backend/execution_engine.py, acquire_execution_lock and release_execution_lock, as
// process_next_execution_task uses them).
module ExecutionLock {
  import opened Options
  import opened RedisKeys

  const TTL: nat := 10 * 60

  // What one worker is doing. `until` is when the lock it took expires.
  datatype Phase =
    | Outside
    | Executing(task: nat, until: nat)
    | Releasing(task: nat, until: nat)   // about to GET
    | Deleting(task: nat, until: nat)    // GET done, about to DELETE

  // `names` gives each worker process the owner string it writes; several may share one.
  datatype State = State(now: nat, keys: Keys, names: map<nat, string>, workers: map<nat, Phase>)

  datatype Action =
    | Tick(seconds: nat)
    | Acquire(w: nat, task: nat)
    | AcquireError(w: nat, task: nat, applied: bool)  // Redis reports an error; SET may have happened
    | Finish(w: nat)
    | ReadOwner(w: nat)
    | ReadError(w: nat)
    | DeleteKey(w: nat)
    | DeleteError(w: nat, applied: bool)
    | Crash(w: nat)

  predicate Known(s: State, w: nat) {
    w in s.workers && w in s.names
  }

  function At(s: State, w: nat, p: Phase): State {
    s.(workers := s.workers[w := p])
  }

  predicate Step(s: State, a: Action, s': State) {
    match a
    case Tick(seconds) => s' == s.(now := s.now + seconds)
    case Acquire(w, task) =>
      && Known(s, w) && s.workers[w].Outside?
      && s' == if Live(s.keys, task, s.now) then s
               else At(s, w, Executing(task, s.now + TTL)).(keys := SetNx(s.keys, task, s.names[w], s.now, TTL))
    case AcquireError(w, task, applied) =>
      && Known(s, w) && s.workers[w].Outside?
      && s' == s.(keys := if applied then SetNx(s.keys, task, s.names[w], s.now, TTL) else s.keys)
    case Finish(w) =>
      && Known(s, w) && s.workers[w].Executing?
      && s' == At(s, w, Releasing(s.workers[w].task, s.workers[w].until))
    case ReadOwner(w) =>
      && Known(s, w) && s.workers[w].Releasing?
      && var p := s.workers[w];
         s' == At(s, w, if Get(s.keys, p.task, s.now) in {Some(s.names[w]), None}
                        then Deleting(p.task, p.until) else Outside)
    case ReadError(w) => Known(s, w) && s.workers[w].Releasing? && s' == At(s, w, Outside)
    case DeleteKey(w) =>
      && Known(s, w) && s.workers[w].Deleting?
      && s' == At(s, w, Outside).(keys := Delete(s.keys, s.workers[w].task))
    case DeleteError(w, applied) =>
      && Known(s, w) && s.workers[w].Deleting?
      && s' == At(s, w, Outside).(keys := if applied then Delete(s.keys, s.workers[w].task) else s.keys)
    case Crash(w) => Known(s, w) && s' == At(s, w, Outside)
  }

  predicate Init(s: State) {
    forall w :: w in s.workers ==> s.workers[w].Outside?
  }

  ghost predicate Run(states: seq<State>, actions: seq<Action>) {
    && |states| == |actions| + 1 && Init(states[0])
    && forall i :: 0 <= i < |actions| ==> Step(states[i], actions[i], states[i + 1])
  }

  // Every worker that took a lock is done with it, releasing included, before it expires.
  ghost predicate Timely(s: State) {
    forall w :: w in s.workers && !s.workers[w].Outside? ==> s.now < s.workers[w].until
  }

  // No two workers are inside the execution section of one task.
  ghost predicate Exclusive(s: State) {
    forall v, w :: v in s.workers && w in s.workers && v != w && s.workers[v].Executing? && s.workers[w].Executing?
      ==> s.workers[v].task != s.workers[w].task
  }

  // A worker that is not outside holds the key of its task, and holds it alone.
  ghost predicate Held(s: State) {
    && (forall w :: w in s.workers && !s.workers[w].Outside? ==>
          s.workers[w].task in s.keys && s.keys[s.workers[w].task].expires == s.workers[w].until)
    && (forall v, w :: v in s.workers && w in s.workers && v != w && !s.workers[v].Outside? && !s.workers[w].Outside?
          ==> s.workers[v].task != s.workers[w].task)
  }

  lemma HeldStep(s: State, a: Action, s': State)
    requires Held(s) && Timely(s) && Step(s, a, s')
    ensures Held(s')
  {
  }

  lemma {:induction false} HeldRun(states: seq<State>, actions: seq<Action>, n: nat)
    requires Run(states, actions) && n < |states|
    requires forall i :: 0 <= i < n ==> Timely(states[i])
    ensures Held(states[n])
  {
    if n == 0 {
    } else {
      HeldRun(states, actions, n - 1);
      HeldStep(states[n - 1], actions[n - 1], states[n]);
    }
  }

  // Mutual exclusion over every interleaving of any number of workers, Redis errors and crashes
  // included, up to the first state in which somebody has outlived its lock.
  lemma MutualExclusion(states: seq<State>, actions: seq<Action>, n: nat)
    requires Run(states, actions) && n < |states|
    requires forall i :: 0 <= i < n ==> Timely(states[i])
    ensures Exclusive(states[n])
  {
    HeldRun(states, actions, n);
  }

  lemma Extend(states: seq<State>, actions: seq<Action>, a: Action, s: State) returns (states': seq<State>, actions': seq<Action>)
    requires Run(states, actions) && Step(states[|states| - 1], a, s)
    ensures Run(states', actions') && states' == states + [s] && actions' == actions + [a]
  {
    states', actions' := states + [s], actions + [a];
    forall i | 0 <= i < |actions'| ensures Step(states'[i], actions'[i], states'[i + 1]) {
      if i < |actions| { assert Step(states[i], actions[i], states[i + 1]); }
    }
  }

  // ---- whose key it is ----

  // The action sets the key of this row, with its reply heard or not.
  predicate Sets(s: State, a: Action, task: nat) {
    && (a.Acquire? || (a.AcquireError? && a.applied)) && a.task == task
    && (task in s.keys ==> s.keys[task].expires <= s.now)
  }

  predicate Deletes(s: State, a: Action, task: nat) {
    && (a.DeleteKey? || (a.DeleteError? && a.applied))
    && a.w in s.workers && s.workers[a.w].Deleting? && s.workers[a.w].task == task
  }

  // A key is set for ten minutes where none is live, deleted by a worker that is past its GET, and left alone otherwise.
  lemma KeyMoves(s: State, a: Action, s': State, task: nat)
    requires Step(s, a, s')
    ensures if Sets(s, a, task) then a.w in s.names && task in s'.keys && s'.keys[task] == Entry(s.names[a.w], s.now + 600)
            else if Deletes(s, a, task) then task !in s'.keys
            else task in s'.keys <==> task in s.keys
    ensures !Sets(s, a, task) && !Deletes(s, a, task) && task in s.keys ==> s'.keys[task] == s.keys[task]
  {
  }

  // What GET may show a worker that then deletes: nothing, or the name it writes itself.
  ghost predicate ReadsOwn(s: State, a: Action, w: nat, task: nat) {
    && a == ReadOwner(w) && w in s.names && w in s.workers && s.workers[w].Releasing? && s.workers[w].task == task
    && (task in s.keys && s.now < s.keys[task].expires ==> s.keys[task].value == s.names[w])
  }

  // A GET that shows another's name ends the release, with the key as it is.
  lemma AnothersKeyIsLeft(s: State, w: nat, s': State)
    requires Step(s, ReadOwner(w), s')
    ensures s'.keys == s.keys
    ensures s'.workers[w] == (if ReadsOwn(s, ReadOwner(w), w, s.workers[w].task)
                              then Deleting(s.workers[w].task, s.workers[w].until) else Outside)
  {
  }

  ghost predicate DeletingMoves(s: State, a: Action, s': State, w: nat) {
    w in s'.workers && s'.workers[w].Deleting? ==>
      (w in s.workers && s.workers[w] == s'.workers[w]) || ReadsOwn(s, a, w, s'.workers[w].task)
  }

  ghost predicate AllDeletingMoves(states: seq<State>, actions: seq<Action>, w: nat) {
    && |states| == |actions| + 1 && (w in states[0].workers ==> states[0].workers[w].Outside?)
    && forall i :: 0 <= i < |actions| ==> DeletingMoves(states[i], actions[i], states[i + 1], w)
  }

  lemma RunDeletingMoves(states: seq<State>, actions: seq<Action>, w: nat)
    requires Run(states, actions)
    ensures AllDeletingMoves(states, actions, w)
  {
    forall i | 0 <= i < |actions| ensures DeletingMoves(states[i], actions[i], states[i + 1], w) {
      assert Step(states[i], actions[i], states[i + 1]);
    }
  }

  lemma {:induction false} DeletingSince(states: seq<State>, actions: seq<Action>, n: nat, w: nat) returns (j: nat)
    requires AllDeletingMoves(states, actions, w) && n < |states|
    requires w in states[n].workers && states[n].workers[w].Deleting?
    ensures j < n && ReadsOwn(states[j], actions[j], w, states[n].workers[w].task)
    ensures forall i :: j < i <= n ==> w in states[i].workers && states[i].workers[w] == states[n].workers[w]
  {
    assert n > 0 && DeletingMoves(states[n - 1], actions[n - 1], states[n - 1 + 1], w);
    if ReadsOwn(states[n - 1], actions[n - 1], w, states[n].workers[w].task) {
      j := n - 1;
    } else {
      j := DeletingSince(states, actions, n - 1, w);
    }
  }

  // In every run a worker deletes a row's key only if its last GET showed it nothing or its own name.
  lemma DeletesWhatItRead(states: seq<State>, actions: seq<Action>, n: nat, task: nat) returns (j: nat)
    requires Run(states, actions) && n < |actions| && task in states[n].keys && task !in states[n + 1].keys
    ensures j < n && (actions[n].DeleteKey? || actions[n].DeleteError?)
    ensures ReadsOwn(states[j], actions[j], actions[n].w, task)
    ensures forall i :: j < i <= n ==>
              actions[n].w in states[i].workers && states[i].workers[actions[n].w] == states[n].workers[actions[n].w]
  {
    assert Step(states[n], actions[n], states[n + 1]);
    KeyMoves(states[n], actions[n], states[n + 1], task);
    RunDeletingMoves(states, actions, actions[n].w);
    j := DeletingSince(states, actions, n, actions[n].w);
  }

  // ---- from the first state that is not timely ----

  // Worker w is not done with the lock it took, and the lock has expired.
  predicate Overstays(s: State, w: nat) {
    Known(s, w) && !s.workers[w].Outside? && s.workers[w].until <= s.now
  }

  // An attempt on a key that is not live succeeds.
  lemma TakeExpired(states: seq<State>, actions: seq<Action>, w: nat, task: nat)
    returns (states': seq<State>, actions': seq<Action>)
    requires Run(states, actions)
    requires var s := states[|states| - 1]; Known(s, w) && s.workers[w].Outside? && !Live(s.keys, task, s.now)
    ensures var s := states[|states| - 1];
            var t := At(s, w, Executing(task, s.now + TTL)).(keys := SetNx(s.keys, task, s.names[w], s.now, TTL));
            Run(states', actions') && states' == states + [t] && actions' == actions + [Acquire(w, task)]
  {
    var s := states[|states| - 1];
    var t := At(s, w, Executing(task, s.now + TTL)).(keys := SetNx(s.keys, task, s.names[w], s.now, TTL));
    states', actions' := Extend(states, actions, Acquire(w, task), t);
  }

  // About to delete: v takes the expired lock, w deletes v's key and takes the lock again.
  lemma DeletesAnothersKey(states: seq<State>, actions: seq<Action>, w: nat, v: nat)
    returns (states': seq<State>, actions': seq<Action>)
    requires Run(states, actions) && v != w
    requires var s := states[|states| - 1];
             && Known(s, w) && s.workers[w].Deleting? && !Live(s.keys, s.workers[w].task, s.now)
             && Known(s, v) && s.workers[v].Outside?
    ensures var task := states[|states| - 1].workers[w].task;
            && Run(states', actions') && actions' == actions + [Acquire(v, task), DeleteKey(w), Acquire(w, task)]
            && states <= states' && !Exclusive(states'[|states'| - 1])
  {
    var task := states[|states| - 1].workers[w].task;
    states', actions' := TakeExpired(states, actions, v, task);
    var s := states'[|states'| - 1];
    states', actions' := Extend(states', actions', DeleteKey(w), At(s, w, Outside).(keys := Delete(s.keys, task)));
    states', actions' := TakeExpired(states', actions', w, task);
    var t := states'[|states'| - 1];
    assert t.workers[v].Executing? && t.workers[w].Executing?;
  }

  // Whatever the worker that overstays is about to do, another one that is outside can join it in the section.
  lemma JoinsOverstayer(states: seq<State>, actions: seq<Action>, w: nat, v: nat)
    returns (states': seq<State>, more: seq<Action>)
    requires Run(states, actions) && v != w
    requires var s := states[|states| - 1]; Held(s) && Overstays(s, w) && Known(s, v) && s.workers[v].Outside?
    ensures Run(states', actions + more) && states <= states' && !Exclusive(states'[|states'| - 1])
    ensures forall a :: a in more ==> a.Acquire? || a.ReadOwner? || a.DeleteKey?
  {
    var s := states[|states| - 1];
    var task := s.workers[w].task;
    var actions';
    match s.workers[w]
    case Executing(_, _) =>
      states', actions' := TakeExpired(states, actions, v, task);
      assert states'[|states|].workers[v].Executing? && states'[|states|].workers[w].Executing?;
      more := [Acquire(v, task)];
    case Releasing(_, until) =>
      states', actions' := Extend(states, actions, ReadOwner(w), At(s, w, Deleting(task, until)));
      states', actions' := DeletesAnothersKey(states', actions', w, v);
      more := [ReadOwner(w), Acquire(v, task), DeleteKey(w), Acquire(w, task)];
    case Deleting(_, _) =>
      states', actions' := DeletesAnothersKey(states, actions, w, v);
      more := [Acquire(v, task), DeleteKey(w), Acquire(w, task)];
    assert actions' == actions + more;
  }

  // And exactly up to then: from the first state in which a worker has outlived its lock, any other worker can be
  // brought into the section beside it, without an error and without a crash but that of a worker that is busy.
  lemma OverstayingBreaksExclusion(states: seq<State>, actions: seq<Action>, w: nat, v: nat)
    returns (states': seq<State>, more: seq<Action>)
    requires Run(states, actions) && forall i :: 0 <= i < |states| - 1 ==> Timely(states[i])
    requires Overstays(states[|states| - 1], w) && Known(states[|states| - 1], v) && v != w
    ensures Run(states', actions + more) && states <= states' && !Exclusive(states'[|states'| - 1])
    ensures forall a :: a in more ==> a.Acquire? || a.ReadOwner? || a.DeleteKey?
                                      || (a == Crash(v) && !states[|states| - 1].workers[v].Outside?)
  {
    var s := states[|states| - 1];
    HeldRun(states, actions, |states| - 1);
    if s.workers[v].Outside? {
      states', more := JoinsOverstayer(states, actions, w, v);
    } else {
      var actions';
      states', actions' := Extend(states, actions, Crash(v), At(s, v, Outside));
      states', more := JoinsOverstayer(states', actions', w, v);
      assert actions + ([Crash(v)] + more) == actions' + more;
      more := [Crash(v)] + more;
    }
  }

  // The first worker has read its own name and is about to delete, when the key expires.
  lemma DeletingAtExpiry(names: map<nat, string>) returns (states: seq<State>, actions: seq<Action>)
    requires names.Keys == {0, 1, 2}
    ensures Run(states, actions) && states[0].names == names
    ensures actions == [Acquire(0, 7), Finish(0), ReadOwner(0), Tick(TTL)]
    ensures var s := states[|states| - 1];
            && s.now == TTL && s.names == names && s.workers == map[0 := Deleting(7, TTL), 1 := Outside, 2 := Outside]
            && 7 in s.keys && s.keys[7].expires == TTL
  {
    var s0 := State(0, map[], names, map[0 := Outside, 1 := Outside, 2 := Outside]);
    var s1 := At(s0, 0, Executing(7, TTL)).(keys := SetNx(s0.keys, 7, names[0], 0, TTL));
    var s2 := At(s1, 0, Releasing(7, TTL));
    var s3 := At(s2, 0, Deleting(7, TTL));
    states, actions := [s0], [];
    states, actions := Extend(states, actions, Acquire(0, 7), s1);
    states, actions := Extend(states, actions, Finish(0), s2);
    states, actions := Extend(states, actions, ReadOwner(0), s3);
    states, actions := Extend(states, actions, Tick(TTL), s3.(now := TTL));
  }

  // The owner check does not help: the GET of a slow worker and its DELETE straddle
  // the expiry, and the DELETE removes the lock of the next worker. Distinct owner names change nothing.
  lemma LateReleaseBreaksExclusion(x: string, y: string, z: string) returns (states: seq<State>, actions: seq<Action>)
    ensures Run(states, actions)
    ensures states[0].names == map[0 := x, 1 := y, 2 := z]
    ensures forall i :: 0 <= i < |actions| ==> !actions[i].Crash? && !actions[i].AcquireError? && !actions[i].DeleteError?
    ensures !Exclusive(states[|states| - 1])
  {
    states, actions := DeletingAtExpiry(map[0 := x, 1 := y, 2 := z]);
    var s4 := states[|states| - 1];
    var s5 := At(s4, 1, Executing(7, TTL + TTL)).(keys := SetNx(s4.keys, 7, y, TTL, TTL));
    var s6 := At(s5, 0, Outside).(keys := Delete(s5.keys, 7));
    var s7 := At(s6, 2, Executing(7, TTL + TTL)).(keys := SetNx(s6.keys, 7, z, TTL, TTL));
    states, actions := Extend(states, actions, Acquire(1, 7), s5);
    states, actions := Extend(states, actions, DeleteKey(0), s6);
    states, actions := Extend(states, actions, Acquire(2, 7), s7);
    assert s7.workers[1].Executing? && s7.workers[2].Executing?;
  }

  // A lock left by a crash or by a SET whose reply was lost only delays: until it expires no worker
  // starts on the task, and afterwards the next attempt succeeds.
  lemma OrphanBlocksUntilExpiry(s: State, a: Action, s': State, task: nat)
    requires Step(s, a, s') && Live(s.keys, task, s.now)
    requires forall w :: w in s.workers && !s.workers[w].Outside? ==> s.workers[w].task != task
    ensures forall w :: w in s'.workers && !s'.workers[w].Outside? ==> s'.workers[w].task != task
    ensures task in s'.keys && s'.keys[task] == s.keys[task]
  {
  }

  lemma ExpiredLockIsTaken(s: State, w: nat, task: nat, s': State)
    requires Step(s, Acquire(w, task), s')
    ensures s'.workers[w] == (if Live(s.keys, task, s.now) then Outside else Executing(task, s.now + TTL))
    ensures Live(s'.keys, task, s'.now)
  {
  }
}
