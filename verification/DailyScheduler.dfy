// The daily scheduler's SET-NX protocol with rollback, one Redis or database command per step
// (backend/worker.py, run_daily_scheduler).
module DailyScheduler {
  import opened RedisKeys

  const TTL: nat := 36 * 3600

  // A slot is one (day, ownership scope); it names both the Redis key and the daily flow task.
  datatype Phase =
    | Outside
    | Acquired(slot: nat, until: nat)    // SET NX succeeded, about to look for the task
    | Found(slot: nat, until: nat)       // the task exists, about to mark the key
    | Missing(slot: nat, until: nat)     // no task, about to add it
    | Flushed(slot: nat, until: nat)     // task pending in the transaction, about to enqueue
    | Enqueued(slot: nat, until: nat)    // about to mark the key
    | Marked(slot: nat, until: nat)      // about to commit
    | RolledBack(slot: nat, until: nat)  // an exception was rolled back, about to delete the key

  // `tasks` holds the committed daily flow tasks, one occurrence of the slot for each. What an enqueued item comes
  // to is told in FlowHandoff.
  datatype State = State(now: nat, keys: Keys, tasks: multiset<nat>, workers: map<nat, Phase>)

  datatype Action =
    | Tick(seconds: nat)
    | TakeKey(w: nat, slot: nat)
    | TakeKeyError(w: nat, slot: nat, applied: bool)
    | Look(w: nat)
    | MarkFound(w: nat)
    | Flush(w: nat)
    | Enqueue(w: nat)
    | Mark(w: nat)
    | Commit(w: nat)
    | CommitUnacknowledged(w: nat)            // the commit takes effect but raises
    | Raise(w: nat, applied: bool)            // the pending command raises; an RPUSH or SETEX may have happened
    | DropKey(w: nat)
    | DropKeyError(w: nat, applied: bool)
    | Crash(w: nat)

  predicate In(s: State, w: nat) {
    w in s.workers && !s.workers[w].Outside?
  }

  function At(s: State, w: nat, p: Phase): State {
    s.(workers := s.workers[w := p])
  }

  function Refreshed(s: State, slot: nat): Keys {
    SetEx(s.keys, slot, "created", s.now, TTL)
  }

  predicate Step(s: State, a: Action, s': State) {
    match a
    case Tick(seconds) => s' == s.(now := s.now + seconds)
    case TakeKey(w, slot) =>
      && w in s.workers && s.workers[w].Outside?
      && s' == if Live(s.keys, slot, s.now) then s
               else At(s, w, Acquired(slot, s.now + TTL)).(keys := SetNx(s.keys, slot, "pending", s.now, TTL))
    case TakeKeyError(w, slot, applied) =>
      && w in s.workers && s.workers[w].Outside?
      && s' == s.(keys := if applied then SetNx(s.keys, slot, "pending", s.now, TTL) else s.keys)
    case Look(w) =>
      && In(s, w) && s.workers[w].Acquired?
      && var p := s.workers[w];
         s' == At(s, w, if s.tasks[p.slot] > 0 then Found(p.slot, p.until) else Missing(p.slot, p.until))
    case MarkFound(w) =>
      && In(s, w) && s.workers[w].Found?
      && s' == At(s, w, Outside).(keys := Refreshed(s, s.workers[w].slot))
    case Flush(w) =>
      && In(s, w) && s.workers[w].Missing?
      && s' == At(s, w, Flushed(s.workers[w].slot, s.workers[w].until))
    case Enqueue(w) =>
      && In(s, w) && s.workers[w].Flushed?
      && s' == At(s, w, Enqueued(s.workers[w].slot, s.workers[w].until))
    case Mark(w) =>
      && In(s, w) && s.workers[w].Enqueued?
      && s' == At(s, w, Marked(s.workers[w].slot, s.now + TTL)).(keys := Refreshed(s, s.workers[w].slot))
    case Commit(w) =>
      && In(s, w) && s.workers[w].Marked?
      && s' == At(s, w, Outside).(tasks := s.tasks + multiset{s.workers[w].slot})
    case CommitUnacknowledged(w) =>
      && In(s, w) && s.workers[w].Marked?
      && s' == At(s, w, RolledBack(s.workers[w].slot, s.workers[w].until)).(tasks := s.tasks + multiset{s.workers[w].slot})
    case Raise(w, applied) =>
      && In(s, w) && !s.workers[w].RolledBack?
      && var p := s.workers[w];
         s' == if applied && (p.Found? || p.Enqueued?)
               then At(s, w, RolledBack(p.slot, s.now + TTL)).(keys := Refreshed(s, p.slot))
               else At(s, w, RolledBack(p.slot, p.until))
    case DropKey(w) =>
      && In(s, w) && s.workers[w].RolledBack?
      && s' == At(s, w, Outside).(keys := Delete(s.keys, s.workers[w].slot))
    case DropKeyError(w, applied) =>
      && In(s, w) && s.workers[w].RolledBack?
      && s' == At(s, w, Outside).(keys := if applied then Delete(s.keys, s.workers[w].slot) else s.keys)
    case Crash(w) => w in s.workers && s' == At(s, w, Outside)
  }

  predicate Init(s: State) {
    && (forall w :: w in s.workers ==> s.workers[w].Outside?)
    && (forall slot :: slot in s.tasks ==> s.tasks[slot] <= 1)
  }

  ghost predicate Run(states: seq<State>, actions: seq<Action>) {
    && |states| == |actions| + 1 && Init(states[0])
    && forall i :: 0 <= i < |actions| ==> Step(states[i], actions[i], states[i + 1])
  }

  // No section outlives its key while its slot has no task.
  ghost predicate Timely(s: State) {
    forall w :: Open(s, w) ==> s.now < s.workers[w].until
  }

  // Inside a section whose slot has no committed task.
  predicate Open(s: State, w: nat) {
    In(s, w) && s.tasks[s.workers[w].slot] == 0
  }

  predicate Creating(p: Phase) {
    p.Missing? || p.Flushed? || p.Enqueued? || p.Marked?
  }

  // The key of such a section is its worker's.
  ghost predicate KeyHeld(s: State) {
    forall w :: Open(s, w) ==> s.workers[w].slot in s.keys && s.keys[s.workers[w].slot].expires == s.workers[w].until
  }

  ghost predicate Alone(s: State) {
    forall v, w :: Open(s, v) && In(s, w) && v != w ==> s.workers[v].slot != s.workers[w].slot
  }

  // A worker about to create the task is right that it is missing.
  ghost predicate TrulyMissing(s: State) {
    forall w :: In(s, w) && Creating(s.workers[w]) ==> s.tasks[s.workers[w].slot] == 0
  }

  ghost predicate TrulyFound(s: State) {
    forall w :: In(s, w) && s.workers[w].Found? ==> s.tasks[s.workers[w].slot] > 0
  }

  ghost predicate Single(s: State) {
    forall slot :: slot in s.tasks ==> s.tasks[slot] <= 1
  }

  ghost predicate Sound(s: State) {
    KeyHeld(s) && Alone(s) && TrulyMissing(s) && TrulyFound(s) && Single(s)
  }

  lemma AloneStep(s: State, a: Action, s': State)
    requires KeyHeld(s) && Alone(s) && Timely(s) && Step(s, a, s')
    ensures Alone(s')
  {
  }

  // Who is inside the section of a slot without a task was so before, or has just taken the key.
  lemma OpenBefore(s: State, a: Action, s': State, w: nat)
    requires Step(s, a, s') && Open(s', w)
    ensures s.tasks[s'.workers[w].slot] == 0
    ensures (Open(s, w) && s.workers[w].slot == s'.workers[w].slot) || a == TakeKey(w, s'.workers[w].slot)
  {
  }

  lemma KeyHeldStep(s: State, a: Action, s': State)
    requires KeyHeld(s) && Alone(s) && Timely(s) && TrulyFound(s) && Step(s, a, s')
    ensures KeyHeld(s')
  {
    forall w | Open(s', w) ensures s'.workers[w].slot in s'.keys && s'.keys[s'.workers[w].slot].expires == s'.workers[w].until {
      OpenBefore(s, a, s', w);
    }
  }

  lemma TrulyMissingStep(s: State, a: Action, s': State)
    requires Alone(s) && TrulyMissing(s) && Step(s, a, s')
    ensures TrulyMissing(s')
  {
  }

  lemma TrulyFoundStep(s: State, a: Action, s': State)
    requires TrulyFound(s) && Step(s, a, s')
    ensures TrulyFound(s')
  {
  }

  lemma SoundStep(s: State, a: Action, s': State)
    requires Sound(s) && Timely(s) && Step(s, a, s')
    ensures Sound(s')
  {
    AloneStep(s, a, s');
    KeyHeldStep(s, a, s');
    TrulyMissingStep(s, a, s');
    TrulyFoundStep(s, a, s');
  }

  lemma {:induction false} SoundRun(states: seq<State>, actions: seq<Action>, n: nat)
    requires Run(states, actions) && n < |states|
    requires forall i :: 0 <= i < n ==> Timely(states[i])
    ensures Sound(states[n])
  {
    if n == 0 {
    } else {
      SoundRun(states, actions, n - 1);
      SoundStep(states[n - 1], actions[n - 1], states[n]);
    }
  }

  // Over every interleaving of scheduler workers, with errors, unacknowledged commits and crashes after any
  // command, a day and scope never gets a second daily flow task, up to the first state in which a section whose
  // slot has no task has outlived its key.
  lemma OneTaskPerDayAndScope(states: seq<State>, actions: seq<Action>, n: nat, slot: nat)
    requires Run(states, actions) && n < |states|
    requires forall i :: 0 <= i < n ==> Timely(states[i])
    ensures states[n].tasks[slot] <= 1
  {
    SoundRun(states, actions, n);
  }

  // A task, once committed, is never taken back by a rollback.
  lemma {:induction false} CommittedStays(states: seq<State>, actions: seq<Action>, m: nat, n: nat)
    requires Run(states, actions) && m <= n < |states|
    ensures states[m].tasks <= states[n].tasks
  {
    if m == n {
    } else {
      CommittedStays(states, actions, m, n - 1);
    }
  }

  lemma Extend(states: seq<State>, actions: seq<Action>, a: Action, s: State) returns (states': seq<State>, actions': seq<Action>)
    requires Run(states, actions) && Step(states[|states| - 1], a, s)
    ensures Run(states', actions') && states' == states + [s] && actions' == actions + [a]
  {
    states', actions' := states + [s], actions + [a];
    forall i | 0 <= i < |actions'| ensures Step(states'[i], actions'[i], states'[i + 1]) {
      if i < |actions| { assert Step(states[i], actions[i], states[i + 1]); }
    }
  }

  // A key nobody works under (left by a crash, by a failed DEL or by a SET whose reply was lost) loses the day until
  // it expires: while it is live, no step brings anybody in, creates the task or frees the key.
  lemma CrashLosesTheSlot(s: State, a: Action, s': State, slot: nat)
    requires Step(s, a, s') && Live(s.keys, slot, s.now)
    requires forall w :: In(s, w) ==> s.workers[w].slot != slot
    ensures forall w :: In(s', w) ==> s'.workers[w].slot != slot
    ensures s'.tasks[slot] == s.tasks[slot]
    ensures slot in s'.keys && s'.keys[slot] == s.keys[slot]
  {
  }

  // ---- what happens to a key ----

  predicate Sets(s: State, a: Action, slot: nat) {
    (a.TakeKey? || (a.TakeKeyError? && a.applied)) && a.slot == slot && (slot in s.keys ==> s.keys[slot].expires <= s.now)
  }

  predicate Marks(s: State, a: Action, slot: nat) {
    && (a.MarkFound? || a.Mark? || (a.Raise? && a.applied)) && a.w in s.workers
    && (s.workers[a.w].Found? || s.workers[a.w].Enqueued?) && s.workers[a.w].slot == slot
  }

  predicate Drops(s: State, a: Action, slot: nat) {
    && (a.DropKey? || (a.DropKeyError? && a.applied))
    && a.w in s.workers && s.workers[a.w].RolledBack? && s.workers[a.w].slot == slot
  }

  // It is set where none is live, marked by a worker that has found the task or enqueued it, dropped after a rollback,
  // and otherwise left alone; set or marked, it lasts for 36 hours.
  lemma KeyMoves(s: State, a: Action, s': State, slot: nat)
    requires Step(s, a, s')
    ensures if Sets(s, a, slot) then slot in s'.keys && s'.keys[slot] == Entry("pending", s.now + 129600)
            else if Marks(s, a, slot) then slot in s'.keys && s'.keys[slot] == Entry("created", s.now + 129600)
            else if Drops(s, a, slot) then slot !in s'.keys
            else (slot in s'.keys <==> slot in s.keys) && (slot in s.keys ==> s'.keys[slot] == s.keys[slot])
    ensures s'.tasks[slot] == s.tasks[slot] +
              if (a.Commit? || a.CommitUnacknowledged?) && s.workers[a.w].slot == slot then 1 else 0
    ensures a.Mark? && Marks(s, a, slot) ==> s'.workers[a.w] == Marked(slot, s.now + 129600)
  {
  }

  // Nobody is inside the slot's section, and its key is live until then.
  ghost predicate ClosedUntil(s: State, slot: nat, until: nat) {
    (forall w :: In(s, w) ==> s.workers[w].slot != slot) && slot in s.keys && s.keys[slot].expires == until
  }

  lemma {:induction false} StaysClosed(states: seq<State>, actions: seq<Action>, m: nat, n: nat, slot: nat, until: nat)
    requires Run(states, actions) && m <= n < |states| && ClosedUntil(states[m], slot, until)
    requires states[n].now < until
    ensures ClosedUntil(states[n], slot, until) && states[n].tasks[slot] == states[m].tasks[slot]
    decreases n - m
  {
    if m < n {
      assert Step(states[m], actions[m], states[m + 1]);
      NowGrows(states, actions, m, n);
      CrashLosesTheSlot(states[m], actions[m], states[m + 1], slot);
      StaysClosed(states, actions, m + 1, n, slot, until);
    }
  }

  lemma {:induction false} NowGrows(states: seq<State>, actions: seq<Action>, m: nat, n: nat)
    requires Run(states, actions) && m <= n < |states|
    ensures states[m].now <= states[n].now
  {
    if m == n {
    } else {
      NowGrows(states, actions, m, n - 1);
    }
  }

  // Once the flow is committed in good order, its slot is closed until the mark expires: nobody enters the section,
  // frees the key or adds a flow.
  lemma CommitClosesTheSlot(states: seq<State>, actions: seq<Action>, m: nat, n: nat, w: nat, slot: nat, until: nat)
    requires Run(states, actions) && m < |actions| && m < n < |states| && actions[m] == Commit(w)
    requires w in states[m].workers && states[m].workers[w] == Marked(slot, until) && states[n].now < until
    requires forall i :: 0 <= i <= m ==> Timely(states[i])
    ensures ClosedUntil(states[n], slot, until) && states[n].tasks[slot] == 1
  {
    assert Step(states[m], actions[m], states[m + 1]);
    SoundRun(states, actions, m);
    assert Open(states[m], w);
    StaysClosed(states, actions, m + 1, n, slot, until);
  }

  // ---- from the first state that is not timely ----

  // Nothing after the look checks again: a worker that saw no task can always go on to commit one.
  lemma Create(states: seq<State>, actions: seq<Action>, w: nat) returns (states': seq<State>, actions': seq<Action>)
    requires Run(states, actions)
    requires var s := states[|states| - 1]; In(s, w) && Creating(s.workers[w])
    ensures Run(states', actions') && states <= states' && actions <= actions'
    ensures forall i :: |actions| <= i < |actions'| ==> Plain(actions'[i])
    ensures var s, t := states[|states| - 1], states'[|states'| - 1];
            t.now == s.now && t.tasks == s.tasks + multiset{s.workers[w].slot} && t.workers == s.workers[w := Outside]
  {
    states', actions' := states, actions;
    var s := states[|states| - 1];
    var slot := s.workers[w].slot;
    if s.workers[w].Missing? {
      s := At(s, w, Flushed(slot, s.workers[w].until));
      states', actions' := Extend(states', actions', Flush(w), s);
    }
    if s.workers[w].Flushed? {
      s := At(s, w, Enqueued(slot, s.workers[w].until));
      states', actions' := Extend(states', actions', Enqueue(w), s);
    }
    if s.workers[w].Enqueued? {
      s := At(s, w, Marked(slot, s.now + TTL)).(keys := Refreshed(s, slot));
      states', actions' := Extend(states', actions', Mark(w), s);
    }
    s := At(s, w, Outside).(tasks := s.tasks + multiset{slot});
    states', actions' := Extend(states', actions', Commit(w), s);
  }

  // A command that does what it should.
  predicate Plain(a: Action) {
    a.TakeKey? || a.Look? || a.Flush? || a.Enqueue? || a.Mark? || a.Commit? || a.DropKey?
  }

  // A worker takes the key of a slot that has no live one and no task, and sees that there is none.
  lemma Enter(states: seq<State>, actions: seq<Action>, v: nat, slot: nat) returns (states': seq<State>, actions': seq<Action>)
    requires Run(states, actions)
    requires var s := states[|states| - 1];
             v in s.workers && s.workers[v].Outside? && !Live(s.keys, slot, s.now) && s.tasks[slot] == 0
    ensures Run(states', actions') && states <= states' && actions' == actions + [TakeKey(v, slot), Look(v)]
    ensures var s, t := states[|states| - 1], states'[|states'| - 1];
            t.now == s.now && t.tasks == s.tasks && t.workers == s.workers[v := Missing(slot, s.now + TTL)]
  {
    var s := states[|states| - 1];
    var s1 := At(s, v, Acquired(slot, s.now + TTL)).(keys := SetNx(s.keys, slot, "pending", s.now, TTL));
    var s2 := At(s1, v, Missing(slot, s.now + TTL));
    states', actions' := Extend(states, actions, TakeKey(v, slot), s1);
    states', actions' := Extend(states', actions', Look(v), s2);
    assert s2.workers == s.workers[v := Missing(slot, s.now + TTL)];
  }

  // The two of them have seen no task and each commits one.
  lemma BothCreate(states: seq<State>, actions: seq<Action>, v: nat, w: nat) returns (states': seq<State>, actions': seq<Action>)
    requires Run(states, actions) && v != w
    requires var s := states[|states| - 1];
             && In(s, v) && In(s, w) && Creating(s.workers[v]) && Creating(s.workers[w])
             && s.workers[v].slot == s.workers[w].slot && s.tasks[s.workers[w].slot] == 0
    ensures Run(states', actions') && states <= states' && actions <= actions'
    ensures forall i :: |actions| <= i < |actions'| ==> Plain(actions'[i])
    ensures states'[|states'| - 1].tasks[states[|states| - 1].workers[w].slot] == 2
  {
    states', actions' := Create(states, actions, v);
    states', actions' := Create(states', actions', w);
  }

  // Worker w is inside the section of a slot without a task, and its key has expired.
  predicate Overstays(s: State, w: nat) {
    Open(s, w) && s.workers[w].until <= s.now
  }

  // Rolled back, w is about to delete a key that is v's by now; it does, and enters again itself.
  lemma ReenterAfterRollback(states: seq<State>, actions: seq<Action>, w: nat, slot: nat)
    returns (states': seq<State>, actions': seq<Action>)
    requires Run(states, actions)
    requires var s := states[|states| - 1]; In(s, w) && s.workers[w].RolledBack? && s.workers[w].slot == slot && s.tasks[slot] == 0
    ensures Run(states', actions') && states <= states' && actions' == actions + [DropKey(w), TakeKey(w, slot), Look(w)]
    ensures var s, t := states[|states| - 1], states'[|states'| - 1];
            t.tasks == s.tasks && t.workers == s.workers[w := Missing(slot, s.now + TTL)]
  {
    var s := states[|states| - 1];
    states', actions' := Extend(states, actions, DropKey(w), At(s, w, Outside).(keys := Delete(s.keys, slot)));
    states', actions' := Enter(states', actions', w, slot);
    assert s.workers[w := Outside][w := Missing(slot, s.now + TTL)] == s.workers[w := Missing(slot, s.now + TTL)];
  }

  // About to look, w does so beside v.
  lemma LookBeside(states: seq<State>, actions: seq<Action>, w: nat, v: nat, slot: nat)
    returns (states': seq<State>, actions': seq<Action>)
    requires Run(states, actions) && v != w
    requires var s := states[|states| - 1];
             && In(s, w) && s.workers[w].Acquired? && s.workers[w].slot == slot && s.tasks[slot] == 0
             && v in s.workers && s.workers[v].Outside? && !Live(s.keys, slot, s.now)
    ensures Run(states', actions') && states <= states' && actions' == actions + [TakeKey(v, slot), Look(v), Look(w)]
    ensures var s, t := states[|states| - 1], states'[|states'| - 1];
            && t.tasks == s.tasks
            && t.workers == s.workers[v := Missing(slot, s.now + TTL)][w := Missing(slot, s.workers[w].until)]
  {
    states', actions' := Enter(states, actions, v, slot);
    var s := states'[|states'| - 1];
    states', actions' := Extend(states', actions', Look(w), At(s, w, Missing(slot, s.workers[w].until)));
  }

  // Another worker outside all sections enters beside the one that overstays, and both come to a commit.
  lemma JoinsOverstayer(states: seq<State>, actions: seq<Action>, w: nat, v: nat)
    returns (states': seq<State>, actions': seq<Action>)
    requires Run(states, actions)
    requires var s := states[|states| - 1];
             KeyHeld(s) && TrulyFound(s) && Overstays(s, w) && v in s.workers && s.workers[v].Outside?
    ensures Run(states', actions') && states <= states' && actions <= actions'
    ensures forall i :: |actions| <= i < |actions'| ==> Plain(actions'[i])
    ensures states'[|states'| - 1].tasks[states[|states| - 1].workers[w].slot] == 2
  {
    var slot := states[|states| - 1].workers[w].slot;
    match states[|states| - 1].workers[w] {
      case Acquired(_, _) =>
        states', actions' := LookBeside(states, actions, w, v, slot);
      case RolledBack(_, _) =>
        states', actions' := Enter(states, actions, v, slot);
        states', actions' := ReenterAfterRollback(states', actions', w, slot);
      case _ =>
        states', actions' := Enter(states, actions, v, slot);
    }
    states', actions' := BothCreate(states', actions', v, w);
  }

  // And exactly up to then: from the first state in which such a section has outlived its key, any other worker
  // can bring about a second task, without an error and without a crash but that of a worker that is busy.
  lemma OverstayingCanDuplicate(states: seq<State>, actions: seq<Action>, w: nat, v: nat)
    returns (states': seq<State>, actions': seq<Action>)
    requires Run(states, actions) && forall i :: 0 <= i < |states| - 1 ==> Timely(states[i])
    requires Overstays(states[|states| - 1], w) && v in states[|states| - 1].workers && v != w
    ensures Run(states', actions') && states <= states' && actions <= actions'
    ensures forall i :: |actions| <= i < |actions'| ==>
              Plain(actions'[i]) || (actions'[i] == Crash(v) && In(states[|states| - 1], v))
    ensures states'[|states'| - 1].tasks[states[|states| - 1].workers[w].slot] == 2
  {
    SoundRun(states, actions, |states| - 1);
    var s := states[|states| - 1];
    if In(s, v) {
      CrashKeepsSound(s, v);
      states', actions' := Extend(states, actions, Crash(v), At(s, v, Outside));
      states', actions' := JoinsOverstayer(states', actions', w, v);
    } else {
      states', actions' := JoinsOverstayer(states, actions, w, v);
    }
  }

  lemma CrashKeepsSound(s: State, v: nat)
    requires Sound(s)
    ensures Sound(At(s, v, Outside))
    ensures forall w :: w != v && Overstays(s, w) ==> Overstays(At(s, v, Outside), w)
  {
  }

  // A worker that stalls past the expiry between its look and its commit leads to a second task.
  lemma OverstayingDuplicates() returns (states: seq<State>, actions: seq<Action>)
    ensures Run(states, actions) && states[0].tasks == multiset{}
    ensures states[|states| - 1].tasks[3] == 2
  {
    var s0 := State(0, map[], multiset{}, map[0 := Outside, 1 := Outside]);
    var s1 := At(s0, 0, Acquired(3, TTL)).(keys := SetNx(s0.keys, 3, "pending", 0, TTL));
    var s2 := At(s1, 0, Missing(3, TTL));
    states, actions := [s0], [];
    states, actions := Extend(states, actions, TakeKey(0, 3), s1);
    states, actions := Extend(states, actions, Look(0), s2);
    states, actions := Extend(states, actions, Tick(TTL), s2.(now := TTL));
    states, actions := OverstayingCanDuplicate(states, actions, 0, 1);
  }
}
