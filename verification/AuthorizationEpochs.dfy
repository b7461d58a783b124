// Authorization epochs of the front end (frontend/rbac-navigation.js): guards and activation loops interleave
// at every await; a reset starts a new epoch, in which nothing begun in an older one may act any more.
module AuthorizationEpochs {
  import opened Options
  import opened Text

  datatype Event = Click | Change | Input | OtherEvent(name: string)

  datatype Binding = Binding(event: Event, handler: nat)

  // The session's variables. `promise` is the activation loop behind activationPromise, `revalidating` the
  // guard behind revalidationPromise.
  datatype Session = Session(authorized: bool, activated: bool, promise: Option<nat>, epoch: nat,
                             fingerprint: Option<string>, revalidating: Option<nat>)

  // The Maps and Sets of the action registry, and whether a MutationObserver is at work.
  datatype Registry = Registry(bound: set<Event>, actions: map<string, Binding>, pending: map<string, Binding>,
                               dynamicIds: set<string>, observing: bool, flushQueued: bool, sequence: nat)

  // ---- the action registry ----

  predicate Business(e: Event) {
    !e.OtherEvent?
  }

  predicate IdChar(c: char) {
    'a' <= c <= 'z' || 'A' <= c <= 'Z' || '0' <= c <= '9' || c == '-'
  }

  predicate ValidId(id: string) {
    id != "" && forall i :: 0 <= i < |id| ==> IdChar(id[i])
  }

  predicate MayRegister(authorized: bool, id: string, b: Binding) {
    authorized && ValidId(id) && Business(b.event)
  }

  // registerAction; where it throws nothing has changed.
  function Registered(r: Registry, authorized: bool, id: string, b: Binding): Registry {
    if MayRegister(authorized, id, b) then r.(actions := r.actions[id := b], bound := r.bound + {b.event}) else r
  }

  function DynamicId(handlerId: string, n: nat): string {
    Numbered(handlerId, '-', n)
  }

  function DynamicallyRegistered(r: Registry, authorized: bool, handlerId: string, b: Binding): Registry {
    if MayRegister(authorized, handlerId, b)
    then r.(sequence := r.sequence + 1, pending := r.pending[DynamicId(handlerId, r.sequence + 1) := b], flushQueued := true)
    else r
  }

  // flushDynamicActions over a page that holds the action ids `dom`: what was pending and is on the page becomes
  // an action, dynamic actions that have left the page are dropped, and nothing stays pending.
  ghost predicate Flushes(r: Registry, authorized: bool, dom: set<string>, t: Registry) {
    && t == r.(flushQueued := false, pending := map[], actions := t.actions, bound := t.bound, dynamicIds := t.dynamicIds)
    && (!authorized ==> t.actions == r.actions && t.bound == r.bound && t.dynamicIds == r.dynamicIds)
    && (authorized ==>
          && (forall id :: id in t.dynamicIds <==> (id in r.dynamicIds || id in r.pending) && id in dom)
          && (forall e :: e in t.bound <==> e in r.bound || Arrives(r, dom, e))
          && (forall id :: FlushedAction(r, dom, t, id)))
  }

  ghost predicate Arrives(r: Registry, dom: set<string>, e: Event) {
    exists id :: id in r.pending && id in dom && r.pending[id].event == e
  }

  ghost predicate FlushedAction(r: Registry, dom: set<string>, t: Registry, id: string) {
    if id in r.pending && id in dom then id in t.actions && t.actions[id] == r.pending[id]
    else if (id in r.dynamicIds && id !in dom) || id !in r.actions then id !in t.actions
    else id in t.actions && t.actions[id] == r.actions[id]
  }

  function Emptied(r: Registry): Registry {
    r.(bound := {}, actions := map[], pending := map[], dynamicIds := {}, observing := false)
  }

  // No listener, no action, and nothing that could still become one.
  predicate Empty(r: Registry) {
    r.bound == {} && r.actions == map[] && r.pending == map[] && r.dynamicIds == {} && !r.observing
  }

  function Forgotten(v: Session): Session {
    Session(false, false, None, v.epoch + 1, None, v.revalidating)
  }

  // ---- guards, activation loops and their interleaving ----

  datatype GuardPc = AtDom | AtIdentity | AtActivation(loop: Option<nat>) | Done(allowed: bool)

  datatype Guard = Guard(epoch: nat, pc: GuardPc, revalidation: bool)

  datatype LoopPc = Stepping | Fetching | Finished | Failed

  // scripts: for each protected script of the page, whether it has a src to fetch.
  datatype Loop = Loop(epoch: nat, scripts: seq<bool>, index: nat, pc: LoopPc)

  datatype Inserted = Inserted(loop: nat, index: nat)

  // A fingerprint accepted in an epoch.
  datatype Seen = Seen(epoch: nat, fingerprint: string)

  // running: the loop that holds the thread between two awaits, if one does; `unpublished` while it is still
  // in the call whose promise will be assigned to activationPromise. queued: calls of logout that inserted
  // scripts have left for when the thread is given back (a promise's then).
  datatype State = State(v: Session, registry: Registry, guards: seq<Guard>, loops: seq<Loop>, running: Option<nat>,
                         unpublished: bool, log: seq<Inserted>, seen: seq<Seen>, queued: nat)

  const START := State(Session(false, false, None, 0, None, None), Registry({}, map[], map[], {}, false, false, 0),
                       [], [], None, false, [], [], 0)

  // The events that lead to revalidateAuthorization.
  datatype PageEvent = PageShow(persisted: bool) | Focus | Storage(key: Option<string>)

  const CREDENTIALS := {"token", "tiantong_token", "session", "tiantong_session"}

  // A page shown for the first time was checked when it loaded; of the storage only the credentials matter.
  predicate Rechecks(event: PageEvent) {
    match event
    case PageShow(persisted) => persisted
    case Focus => true
    case Storage(key) => key.None? || key.value in CREDENTIALS
  }

  datatype Answer = Unavailable | Known(permitted: bool, fingerprint: string)

  datatype Action =
    // calls that an inserted script may make as well, while its loop holds the thread
    | CallGuard
    | Revalidate(event: PageEvent)
    | Logout
    | QueueLogout
    | Register(id: string, binding: Binding)
    | RegisterDynamic(handlerId: string, binding: Binding)
    // continuations
    | QueuedLogout
    | Flush(dom: set<string>)
    | Mutation
    | DomReady(guard: nat)
    | Identity(guard: nat, answer: Answer, scripts: seq<bool>)
    | Activated(guard: nat)
    | Settle
    | Fetched(loop: nat, ok: bool)   // whatever became of the fetch, an abort by a reset included
    | Step

  function Reset(s: State): State {
    s.(v := Forgotten(s.v), registry := Emptied(s.registry))
  }

  function WithGuard(s: State, g: nat, pc: GuardPc): State
    requires g < |s.guards|
  {
    s.(guards := s.guards[g := s.guards[g].(pc := pc)])
  }

  function CallsGuard(s: State, revalidation: bool): State {
    s.(guards := s.guards + [Guard(s.v.epoch, AtDom, revalidation)])
  }

  // An event that makes revalidateAuthorization start a guard.
  predicate Withdraws(v: Session, event: PageEvent) {
    v.fingerprint.Some? && Rechecks(event) && v.revalidating.None?
  }

  function Revalidates(s: State, event: PageEvent): State {
    if Withdraws(s.v, event)
    then CallsGuard(s, true).(v := s.v.(authorized := false, revalidating := Some(|s.guards|)))
    else s
  }

  predicate Accepted(s: State, g: nat, answer: Answer)
    requires g < |s.guards|
  {
    && answer.Known? && s.guards[g].epoch == s.v.epoch && answer.permitted
    && (s.v.fingerprint.None? || s.v.fingerprint.value == answer.fingerprint)
  }

  // The synchronous stretch of guard() after an accepted identity, up to the start of a new loop if it needs one.
  function Admitted(s: State, g: nat, fingerprint: string, scripts: seq<bool>): State
    requires g < |s.guards|
  {
    var t := s.(v := s.v.(fingerprint := Some(fingerprint), authorized := true),
                registry := s.registry.(observing := true), seen := s.seen + [Seen(s.v.epoch, fingerprint)]);
    if s.v.activated then WithGuard(t, g, AtActivation(None))
    else if s.v.promise.Some? then WithGuard(t, g, AtActivation(s.v.promise))
    else WithGuard(t, g, AtActivation(Some(|s.loops|)))
         .(loops := s.loops + [Loop(s.v.epoch, scripts, 0, Stepping)], running := Some(|s.loops|), unpublished := true)
  }

  function WithLoop(s: State, l: nat, loop: Loop): State
    requires l < |s.loops|
  {
    s.(loops := s.loops[l := loop])
  }

  // The loop gives the thread back, awaiting or ended.
  function Released(s: State, l: nat, pc: LoopPc): State
    requires l < |s.loops|
  {
    WithLoop(s, l, s.loops[l].(pc := pc))
    .(running := None, unpublished := false, v := if s.unpublished then s.v.(promise := Some(l)) else s.v)
  }

  predicate MayInsert(s: State, l: nat)
    requires l < |s.loops|
  {
    s.loops[l].epoch == s.v.epoch && s.v.authorized && s.loops[l].index < |s.loops[l].scripts|
  }

  function Inserts(s: State, l: nat): State
    requires l < |s.loops|
  {
    WithLoop(s, l, s.loops[l].(index := s.loops[l].index + 1, pc := Stepping))
    .(running := Some(l), log := s.log + [Inserted(l, s.loops[l].index)])
  }

  function Finishes(s: State, l: nat): State
    requires l < |s.loops|
  {
    var t := Released(s, l, Finished);
    t.(v := t.v.(activated := true))
  }

  function Steps(s: State, l: nat): State
    requires l < |s.loops|
  {
    var loop := s.loops[l];
    if loop.index >= |loop.scripts| then
      if loop.epoch != s.v.epoch then Released(s, l, Failed) else Finishes(s, l)
    else if loop.scripts[loop.index] then Released(s, l, Fetching)
    else if MayInsert(s, l) then Inserts(s, l)
    else Released(s, l, Failed)
  }

  predicate Ended(s: State, loop: Option<nat>) {
    loop.Some? ==> loop.value < |s.loops| && s.loops[loop.value].pc in {Finished, Failed}
  }

  predicate Enabled(s: State, a: Action) {
    match a
    case QueueLogout => s.running.Some?
    case QueuedLogout => s.running.None? && s.queued > 0
    case Flush(_) => s.running.None? && s.registry.flushQueued
    case Mutation => s.running.None? && s.registry.observing
    case DomReady(g) => s.running.None? && g < |s.guards| && s.guards[g].pc == AtDom
    case Identity(g, _, _) => s.running.None? && g < |s.guards| && s.guards[g].pc == AtIdentity
    case Activated(g) =>
      s.running.None? && g < |s.guards| && s.guards[g].pc.AtActivation? && Ended(s, s.guards[g].pc.loop)
    case Settle =>
      s.running.None? && s.v.revalidating.Some? && s.v.revalidating.value < |s.guards| && s.guards[s.v.revalidating.value].pc.Done?
    case Fetched(l, _) => s.running.None? && l < |s.loops| && s.loops[l].pc == Fetching
    case Step => s.running.Some? && s.running.value < |s.loops|
    case _ => true
  }

  // A denied guard resets before it answers.
  ghost predicate Next(s: State, a: Action, t: State) {
    && Enabled(s, a)
    && match a
       case CallGuard => t == CallsGuard(s, false)
       case Revalidate(event) => t == Revalidates(s, event)
       case Logout => t == Reset(s)
       case QueueLogout => t == s.(queued := s.queued + 1)
       case QueuedLogout => t == Reset(s).(queued := s.queued - 1)
       case Register(id, b) => t == s.(registry := Registered(s.registry, s.v.authorized, id, b))
       case RegisterDynamic(id, b) => t == s.(registry := DynamicallyRegistered(s.registry, s.v.authorized, id, b))
       case Flush(dom) => t == s.(registry := t.registry) && Flushes(s.registry, s.v.authorized, dom, t.registry)
       case Mutation => t == s.(registry := s.registry.(flushQueued := true))
       case DomReady(g) => t == WithGuard(s, g, AtIdentity)
       case Identity(g, answer, scripts) =>
         t == if Accepted(s, g, answer) then Admitted(s, g, answer.fingerprint, scripts)
              else WithGuard(Reset(s), g, Done(false))
       case Activated(g) =>
         var loop := s.guards[g].pc.loop;
         t == if loop.None? || s.loops[loop.value].pc == Finished then WithGuard(s, g, Done(true))
              else WithGuard(Reset(s), g, Done(false))
       case Settle => t == s.(v := s.v.(revalidating := None))
       case Fetched(l, ok) => t == if ok && MayInsert(s, l) then Inserts(s, l) else Released(s, l, Failed)
       case Step => t == Steps(s, s.running.value)
  }

  ghost predicate Run(states: seq<State>, actions: seq<Action>) {
    && |states| == |actions| + 1 && states[0] == START
    && forall i :: 0 <= i < |actions| ==> Next(states[i], actions[i], states[i + 1])
  }

  // ---- what every reachable state satisfies ----

  predicate NamedBy(id: string, handlerId: string, n: nat) {
    id == DynamicId(handlerId, n)
  }

  // The id of one of the first n dynamic registrations.
  ghost predicate Named(id: string, n: nat) {
    exists h: string, k: nat :: NamedBy(id, h, k) && 1 <= k <= n
  }

  ghost predicate Wired(r: Registry) {
    && (forall id :: id in r.actions ==> r.actions[id].event in r.bound)
    && (forall e :: e in r.bound ==> Business(e))
    && (forall id :: id in r.pending ==> ValidId(id) && Business(r.pending[id].event) && Named(id, r.sequence))
    && (forall id :: id in r.dynamicIds ==> id in r.actions && Named(id, r.sequence))
  }

  // Before an identity is accepted nothing is authorized and nothing is registered.
  ghost predicate IdentityFirst(s: State) {
    s.v.fingerprint.None? ==> !s.v.authorized && !s.v.activated && Empty(s.registry)
  }

  ghost predicate FinishedIn(loops: seq<Loop>, epoch: nat) {
    exists l :: 0 <= l < |loops| && loops[l].epoch == epoch && loops[l].pc == Finished
  }

  ghost predicate EpochsIncrease(loops: seq<Loop>, epoch: nat) {
    && (forall l, m :: 0 <= l < m < |loops| ==> loops[l].epoch < loops[m].epoch)
    && (forall l :: 0 <= l < |loops| ==> loops[l].epoch <= epoch)
  }

  // While there is a loop of this epoch, the flag or the promise keeps a second one from starting.
  ghost predicate Held(s: State) {
    forall l :: 0 <= l < |s.loops| && s.loops[l].epoch == s.v.epoch ==>
      s.v.fingerprint.Some? && (s.v.activated || s.v.promise == Some(l) || (s.unpublished && s.running == Some(l)))
  }

  // A loop of an older epoch behind the promise has not finished; the running loop has not ended.
  ghost predicate PromiseSound(s: State) {
    && (s.v.promise.Some? ==>
          s.v.promise.value < |s.loops|
          && (s.loops[s.v.promise.value].pc == Finished ==> s.loops[s.v.promise.value].epoch == s.v.epoch))
    && (s.running.Some? ==> s.running.value < |s.loops| && s.loops[s.running.value].pc == Stepping)
    && (s.unpublished ==> s.running.Some? && s.running.value == |s.loops| - 1)
    && (s.v.activated ==> FinishedIn(s.loops, s.v.epoch))
  }

  ghost predicate LoopsSound(s: State) {
    EpochsIncrease(s.loops, s.v.epoch) && Held(s) && PromiseSound(s)
  }

  function IndicesOf(log: seq<Inserted>, l: nat): seq<nat> {
    if log == [] then []
    else IndicesOf(log[..|log| - 1], l) + if log[|log| - 1].loop == l then [log[|log| - 1].index] else []
  }

  function Upto(n: nat): (r: seq<nat>)
    ensures |r| == n && forall i :: 0 <= i < n ==> r[i] == i
  {
    if n == 0 then [] else Upto(n - 1) + [n - 1]
  }

  // The loop has inserted the scripts before its index, once each and in document order.
  ghost predicate LoopInOrder(log: seq<Inserted>, l: nat, loop: Loop) {
    && IndicesOf(log, l) == Upto(loop.index)
    && loop.index <= |loop.scripts|
    && (loop.pc == Finished ==> loop.index == |loop.scripts|)
  }

  ghost predicate InsertedInOrder(s: State) {
    && (forall l :: 0 <= l < |s.loops| ==> LoopInOrder(s.log, l, s.loops[l]))
    && (forall i :: 0 <= i < |s.log| ==> s.log[i].loop < |s.loops|)
  }

  ghost predicate OneFingerprint(seen: seq<Seen>, epoch: nat, fingerprint: Option<string>) {
    && (forall i :: 0 <= i < |seen| ==> seen[i].epoch <= epoch
                                        && (seen[i].epoch == epoch ==> fingerprint == Some(seen[i].fingerprint)))
    && (forall i, j :: 0 <= i < |seen| && 0 <= j < |seen| && seen[i].epoch == seen[j].epoch ==>
          seen[i].fingerprint == seen[j].fingerprint)
  }

  // A guard past the identity check waits for a loop of its own epoch, or for one that will not finish.
  ghost predicate GuardSound(guard: Guard, loops: seq<Loop>, epoch: nat) {
    && guard.epoch <= epoch
    && (guard.pc == Done(true) ==> FinishedIn(loops, guard.epoch))
    && (guard.pc.AtActivation? ==>
          if guard.pc.loop.None? then FinishedIn(loops, guard.epoch)
          else guard.pc.loop.value < |loops| && Awaitable(loops[guard.pc.loop.value], guard.epoch, epoch))
  }

  predicate Awaitable(loop: Loop, guardEpoch: nat, epoch: nat) {
    loop.epoch == guardEpoch || (loop.pc != Finished && loop.epoch < epoch)
  }

  ghost predicate GuardsSound(s: State) {
    forall g :: 0 <= g < |s.guards| ==> GuardSound(s.guards[g], s.loops, s.v.epoch)
  }

  // At most one revalidation is on its way, and it is the one behind revalidationPromise.
  ghost predicate SingleFlight(s: State) {
    && (forall g :: 0 <= g < |s.guards| && s.guards[g].revalidation && !s.guards[g].pc.Done? ==> s.v.revalidating == Some(g))
    && (s.v.revalidating.Some? ==> s.v.revalidating.value < |s.guards|)
  }

  // ---- the four shapes of a step ----

  // Neither the loops nor what they depend on.
  ghost predicate Quiet(s: State, t: State) {
    && t.loops == s.loops && t.log == s.log && t.running == s.running && t.unpublished == s.unpublished && t.seen == s.seen
    && t.v == s.v.(authorized := t.v.authorized, revalidating := t.v.revalidating)
  }

  ghost predicate Forgot(s: State, t: State) {
    t == Reset(s).(guards := t.guards, queued := t.queued)
  }

  ghost predicate Joined(s: State, a: Action, t: State) {
    && a.Identity? && Enabled(s, a) && Accepted(s, a.guard, a.answer)
    && t == Admitted(s, a.guard, a.answer.fingerprint, a.scripts)
  }

  ghost predicate Moved(s: State, l: nat, t: State) {
    && l < |s.loops| && s.loops[l].pc in {Stepping, Fetching}
    && (s.running == Some(l) || (s.running.None? && !s.unpublished))
    && var loop := s.loops[l];
       || t == Released(s, l, Failed)
       || (t == Released(s, l, Fetching) && loop.index < |loop.scripts|)
       || (t == Inserts(s, l) && MayInsert(s, l))
       || (t == Finishes(s, l) && loop.index >= |loop.scripts| && loop.epoch == s.v.epoch)
  }

  lemma Shape(s: State, a: Action, t: State)
    requires PromiseSound(s) && Next(s, a, t)
    ensures Quiet(s, t) || Forgot(s, t) || Joined(s, a, t) || (a.Fetched? && Moved(s, a.loop, t))
            || (a.Step? && Moved(s, s.running.value, t))
  {
  }

  // ---- each shape keeps the loops sound ----

  lemma FinishedStays(before: seq<Loop>, after: seq<Loop>, epoch: nat)
    requires FinishedIn(before, epoch) && |before| <= |after|
    requires forall l :: 0 <= l < |before| && before[l].pc == Finished ==> after[l] == before[l]
    ensures FinishedIn(after, epoch)
  {
    var l :| 0 <= l < |before| && before[l].epoch == epoch && before[l].pc == Finished;
    assert after[l].pc == Finished && after[l].epoch == epoch;
  }

  lemma JoinedLoops(s: State, a: Action, t: State)
    requires LoopsSound(s) && Joined(s, a, t)
    ensures LoopsSound(t)
  {
    if s.v.activated { FinishedStays(s.loops, t.loops, s.v.epoch); }
  }

  lemma MovedLoops(s: State, l: nat, t: State)
    requires LoopsSound(s) && Moved(s, l, t)
    ensures LoopsSound(t)
  {
    assert |t.loops| == |s.loops| && t.v.epoch == s.v.epoch && t.loops[l].epoch == s.loops[l].epoch;
    assert forall m :: 0 <= m < |s.loops| ==> t.loops[m].epoch == s.loops[m].epoch;
    if s.v.activated { FinishedStays(s.loops, t.loops, s.v.epoch); }
    if t == Finishes(s, l) { assert t.loops[l].pc == Finished && t.loops[l].epoch == t.v.epoch; }
  }

  lemma LoopsNext(s: State, a: Action, t: State)
    requires LoopsSound(s) && Next(s, a, t)
    ensures LoopsSound(t)
  {
    Shape(s, a, t);
    if Joined(s, a, t) { JoinedLoops(s, a, t); }
    if a.Fetched? && Moved(s, a.loop, t) { MovedLoops(s, a.loop, t); }
    if a.Step? && Moved(s, s.running.value, t) { MovedLoops(s, s.running.value, t); }
  }

  // ---- insertions ----

  lemma IndicesAppend(log: seq<Inserted>, e: Inserted, l: nat)
    ensures IndicesOf(log + [e], l) == IndicesOf(log, l) + if e.loop == l then [e.index] else []
  {
    assert (log + [e])[..|log|] == log;
  }

  lemma {:induction false} NoneOf(log: seq<Inserted>, l: nat, bound: nat)
    requires bound <= l && forall i :: 0 <= i < |log| ==> log[i].loop < bound
    ensures IndicesOf(log, l) == []
  {
    if log == [] {
    } else {
      NoneOf(log[..|log| - 1], l, bound);
    }
  }

  lemma JoinedInOrder(s: State, a: Action, t: State)
    requires InsertedInOrder(s) && Joined(s, a, t)
    ensures InsertedInOrder(t)
  {
    NoneOf(s.log, |s.loops|, |s.loops|);
  }

  lemma MovedInOrder(s: State, l: nat, t: State)
    requires InsertedInOrder(s) && Moved(s, l, t)
    ensures InsertedInOrder(t)
  {
    assert LoopInOrder(s.log, l, s.loops[l]);
    if t == Inserts(s, l) {
      forall m | 0 <= m < |t.loops| ensures LoopInOrder(t.log, m, t.loops[m]) {
        assert LoopInOrder(s.log, m, s.loops[m]);
        IndicesAppend(s.log, Inserted(l, s.loops[l].index), m);
      }
    }
  }

  lemma InOrderNext(s: State, a: Action, t: State)
    requires PromiseSound(s) && InsertedInOrder(s) && Next(s, a, t)
    ensures InsertedInOrder(t)
  {
    Shape(s, a, t);
    if Joined(s, a, t) { JoinedInOrder(s, a, t); }
    if a.Fetched? && Moved(s, a.loop, t) { MovedInOrder(s, a.loop, t); }
    if a.Step? && Moved(s, s.running.value, t) { MovedInOrder(s, s.running.value, t); }
  }

  // What a step makes of the fingerprint: nothing, a reset, or an accepted identity.
  ghost predicate FingerprintMoves(s: State, t: State) {
    || (t.seen == s.seen && t.v.epoch == s.v.epoch && t.v.fingerprint == s.v.fingerprint)
    || (t.seen == s.seen && t.v.epoch == s.v.epoch + 1 && t.v.fingerprint.None?)
    || (t.v.epoch == s.v.epoch && t.v.fingerprint.Some? && t.seen == s.seen + [Seen(s.v.epoch, t.v.fingerprint.value)]
        && (s.v.fingerprint.None? || s.v.fingerprint == t.v.fingerprint))
  }

  lemma FingerprintShape(s: State, a: Action, t: State)
    requires PromiseSound(s) && Next(s, a, t)
    ensures FingerprintMoves(s, t)
  {
    Shape(s, a, t);
  }

  lemma FingerprintNext(s: State, a: Action, t: State)
    requires PromiseSound(s) && OneFingerprint(s.seen, s.v.epoch, s.v.fingerprint) && Next(s, a, t)
    ensures OneFingerprint(t.seen, t.v.epoch, t.v.fingerprint)
  {
    FingerprintShape(s, a, t);
    SeenGrows(s, t);
  }

  lemma SeenGrows(s: State, t: State)
    requires OneFingerprint(s.seen, s.v.epoch, s.v.fingerprint) && FingerprintMoves(s, t)
    ensures OneFingerprint(t.seen, t.v.epoch, t.v.fingerprint)
  {
  }

  // ---- the registry ----

  lemma NamedLater(id: string, n: nat, m: nat)
    requires Named(id, n) && n <= m
    ensures Named(id, m)
  {
    var h: string, k: nat :| NamedBy(id, h, k) && 1 <= k <= n;
    assert NamedBy(id, h, k) && k <= m;
  }

  lemma FlushWired(r: Registry, authorized: bool, dom: set<string>, t: Registry)
    requires Wired(r) && Flushes(r, authorized, dom, t)
    ensures Wired(t)
  {
    if authorized {
      forall id | id in t.actions ensures t.actions[id].event in t.bound {
        assert FlushedAction(r, dom, t, id);
        if id in r.pending && id in dom { assert Arrives(r, dom, t.actions[id].event); }
      }
      forall id | id in t.dynamicIds ensures id in t.actions && Named(id, t.sequence) {
        assert FlushedAction(r, dom, t, id);
      }
    }
  }

  lemma DynamicIdValid(handlerId: string, n: nat)
    requires ValidId(handlerId)
    ensures ValidId(DynamicId(handlerId, n))
  {
  }

  lemma DynamicWired(r: Registry, authorized: bool, handlerId: string, b: Binding)
    requires Wired(r)
    ensures Wired(DynamicallyRegistered(r, authorized, handlerId, b))
  {
    if MayRegister(authorized, handlerId, b) {
      var t := DynamicallyRegistered(r, authorized, handlerId, b);
      DynamicIdValid(handlerId, r.sequence + 1);
      assert NamedBy(DynamicId(handlerId, r.sequence + 1), handlerId, r.sequence + 1);
      forall id | id in t.pending ensures Named(id, t.sequence) {
        if id in r.pending { NamedLater(id, r.sequence, t.sequence); }
      }
      forall id | id in t.dynamicIds ensures Named(id, t.sequence) {
        NamedLater(id, r.sequence, t.sequence);
      }
    }
  }

  lemma WiredNext(s: State, a: Action, t: State)
    requires Wired(s.registry) && Next(s, a, t)
    ensures Wired(t.registry)
  {
    if a.Flush? { FlushWired(s.registry, s.v.authorized, a.dom, t.registry); }
    if a.RegisterDynamic? { DynamicWired(s.registry, s.v.authorized, a.handlerId, a.binding); }
    if a.Register? { }
  }

  lemma IdentityFirstNext(s: State, a: Action, t: State)
    requires IdentityFirst(s) && Held(s) && Next(s, a, t)
    ensures IdentityFirst(t)
  {
  }

  // ---- guards ----

  // What a step may do to a loop: epochs and scripts are fixed, an end is an end, and a loop of an older
  // epoch does not finish.
  predicate LoopEvolves(before: Loop, after: Loop, epoch: nat) {
    && after.epoch == before.epoch && after.scripts == before.scripts
    && (before.pc == Finished ==> after == before)
    && (before.epoch != epoch && before.pc != Finished ==> after.pc != Finished)
  }

  ghost predicate Evolves(s: State, t: State) {
    && s.v.epoch <= t.v.epoch && |s.loops| <= |t.loops|
    && forall l :: 0 <= l < |s.loops| ==> LoopEvolves(s.loops[l], t.loops[l], s.v.epoch)
  }

  lemma MovedEvolves(s: State, l: nat, t: State)
    requires Moved(s, l, t)
    ensures Evolves(s, t)
  {
  }

  lemma EvolvesNext(s: State, a: Action, t: State)
    requires PromiseSound(s) && Next(s, a, t)
    ensures Evolves(s, t)
  {
    Shape(s, a, t);
    if a.Fetched? && Moved(s, a.loop, t) { MovedEvolves(s, a.loop, t); }
    if a.Step? && Moved(s, s.running.value, t) { MovedEvolves(s, s.running.value, t); }
  }

  lemma GuardKept(s: State, t: State, guard: Guard)
    requires Evolves(s, t) && GuardSound(guard, s.loops, s.v.epoch)
    ensures GuardSound(guard, t.loops, t.v.epoch)
  {
    if FinishedIn(s.loops, guard.epoch) { FinishedStays(s.loops, t.loops, guard.epoch); }
    if guard.pc.AtActivation? && guard.pc.loop.Some? {
      assert LoopEvolves(s.loops[guard.pc.loop.value], t.loops[guard.pc.loop.value], s.v.epoch);
    }
  }

  // What a step makes of guard g.
  ghost predicate GuardMoves(s: State, t: State, before: Guard, after: Guard) {
    || after == before
    || (after == before.(pc := Done(false)) && t.v.epoch == s.v.epoch + 1)
    || (before.pc == AtDom && after == before.(pc := AtIdentity))
    || (before.pc.AtActivation? && after == before.(pc := Done(true)) && t.loops == s.loops && t.v.epoch == s.v.epoch
        && (before.pc.loop.Some? ==> before.pc.loop.value < |s.loops| && s.loops[before.pc.loop.value].pc == Finished))
    || (before.pc == AtIdentity && before.epoch == s.v.epoch == t.v.epoch && after.epoch == before.epoch && after.pc.AtActivation?
        && (after.pc.loop == if s.v.activated then None else if s.v.promise.Some? then s.v.promise else Some(|s.loops|))
        && (!s.v.activated && s.v.promise.None? ==> |t.loops| == |s.loops| + 1 && t.loops[|s.loops|].epoch == s.v.epoch)
        && (s.v.activated || s.v.promise.Some? ==> t.loops == s.loops))
  }

  lemma GuardMovesNext(s: State, a: Action, t: State, g: nat)
    requires PromiseSound(s) && Next(s, a, t) && g < |s.guards|
    ensures g < |t.guards| && GuardMoves(s, t, s.guards[g], t.guards[g])
  {
  }

  lemma OldGuard(s: State, a: Action, t: State, before: Guard, after: Guard)
    requires LoopsSound(s) && Next(s, a, t)
    requires GuardSound(before, s.loops, s.v.epoch) && GuardMoves(s, t, before, after)
    ensures GuardSound(after, t.loops, t.v.epoch)
  {
    EvolvesNext(s, a, t);
    GuardKept(s, t, before);
  }

  lemma NewGuards(s: State, a: Action, t: State, g: nat)
    requires PromiseSound(s) && Next(s, a, t) && |s.guards| <= g < |t.guards|
    ensures g == |s.guards| && t.guards[g] == Guard(t.v.epoch, AtDom, a.Revalidate?)
  {
  }

  lemma GuardsNext(s: State, a: Action, t: State)
    requires LoopsSound(s) && GuardsSound(s) && Next(s, a, t)
    ensures GuardsSound(t)
  {
    forall g | 0 <= g < |t.guards| ensures GuardSound(t.guards[g], t.loops, t.v.epoch) {
      if g < |s.guards| {
        GuardMovesNext(s, a, t, g);
        OldGuard(s, a, t, s.guards[g], t.guards[g]);
      } else {
        NewGuards(s, a, t, g);
      }
    }
  }

  // What a step makes of revalidationPromise and of the guards it is about.
  ghost predicate FlightMoves(s: State, t: State) {
    && |s.guards| <= |t.guards|
    && (forall g :: 0 <= g < |s.guards| ==> t.guards[g].revalidation == s.guards[g].revalidation && (s.guards[g].pc.Done? ==> t.guards[g].pc.Done?))
    && (forall g :: |s.guards| <= g < |t.guards| && t.guards[g].revalidation ==>
          s.v.revalidating.None? && t.v.revalidating == Some(g) && |t.guards| == |s.guards| + 1)
    && (|| t.v.revalidating == s.v.revalidating
        || (s.v.revalidating.None? && t.v.revalidating == Some(|s.guards|) && |t.guards| == |s.guards| + 1)
        || (s.v.revalidating.Some? && t.v.revalidating.None? && s.v.revalidating.value < |s.guards| && s.guards[s.v.revalidating.value].pc.Done?))
  }

  lemma GuardsFly(s: State, a: Action, t: State)
    requires Next(s, a, t)
    ensures |s.guards| <= |t.guards|
    ensures forall g :: 0 <= g < |s.guards| ==>
              t.guards[g].revalidation == s.guards[g].revalidation && (s.guards[g].pc.Done? ==> t.guards[g].pc.Done?)
  {
  }

  lemma FlightShape(s: State, a: Action, t: State)
    requires Next(s, a, t)
    ensures FlightMoves(s, t)
  {
    GuardsFly(s, a, t);
  }

  lemma FlightKept(s: State, t: State)
    requires SingleFlight(s) && FlightMoves(s, t)
    ensures SingleFlight(t)
  {
  }

  lemma SingleFlightNext(s: State, a: Action, t: State)
    requires SingleFlight(s) && Next(s, a, t)
    ensures SingleFlight(t)
  {
    FlightShape(s, a, t);
    FlightKept(s, t);
  }

  // ---- whole runs ----

  ghost predicate Sound(s: State) {
    && LoopsSound(s) && InsertedInOrder(s) && OneFingerprint(s.seen, s.v.epoch, s.v.fingerprint)
    && GuardsSound(s) && SingleFlight(s) && Wired(s.registry) && IdentityFirst(s)
  }

  lemma SoundNext(s: State, a: Action, t: State)
    requires Sound(s) && Next(s, a, t)
    ensures Sound(t)
  {
    LoopsNext(s, a, t);
    InOrderNext(s, a, t);
    FingerprintNext(s, a, t);
    GuardsNext(s, a, t);
    SingleFlightNext(s, a, t);
    WiredNext(s, a, t);
    IdentityFirstNext(s, a, t);
  }

  lemma {:induction false} SoundRun(states: seq<State>, actions: seq<Action>, n: nat)
    requires Run(states, actions) && n < |states|
    ensures Sound(states[n])
  {
    if n == 0 {
    } else {
      SoundRun(states, actions, n - 1);
      SoundNext(states[n - 1], actions[n - 1], states[n]);
    }
  }

  // Within one epoch there is at most one activation loop, it has inserted a prefix of the page's protected
  // scripts, each once and in document order, and every accepted identity had the same fingerprint.
  lemma OneLoopOneFingerprint(states: seq<State>, actions: seq<Action>, n: nat)
    requires Run(states, actions) && n < |states|
    ensures var s := states[n];
            && (forall l, m :: 0 <= l < |s.loops| && 0 <= m < |s.loops| && s.loops[l].epoch == s.loops[m].epoch ==> l == m)
            && (forall l :: 0 <= l < |s.loops| ==> IndicesOf(s.log, l) == Upto(s.loops[l].index) && s.loops[l].index <= |s.loops[l].scripts|)
            && (forall i, j :: 0 <= i < |s.seen| && 0 <= j < |s.seen| && s.seen[i].epoch == s.seen[j].epoch ==>
                  s.seen[i].fingerprint == s.seen[j].fingerprint)
  {
    SoundRun(states, actions, n);
    var s := states[n];
    assert forall l :: 0 <= l < |s.loops| ==> LoopInOrder(s.log, l, s.loops[l]);
  }

  lemma EvolvesStep(states: seq<State>, actions: seq<Action>, k: nat)
    requires Run(states, actions) && k < |actions|
    ensures Evolves(states[k], states[k + 1])
  {
    SoundRun(states, actions, k);
    EvolvesNext(states[k], actions[k], states[k + 1]);
  }

  // What lasts over any number of steps.
  ghost predicate Continues(s: State, t: State) {
    && s.v.epoch <= t.v.epoch && |s.loops| <= |t.loops|
    && forall l :: 0 <= l < |s.loops| ==> t.loops[l].epoch == s.loops[l].epoch
  }

  ghost predicate AllEvolve(states: seq<State>) {
    forall i :: 0 <= i < |states| - 1 ==> Evolves(states[i], states[i + 1])
  }

  lemma RunEvolves(states: seq<State>, actions: seq<Action>)
    requires Run(states, actions)
    ensures AllEvolve(states)
  {
    forall i | 0 <= i < |states| - 1 ensures Evolves(states[i], states[i + 1]) {
      EvolvesStep(states, actions, i);
    }
  }

  lemma {:induction false} ContinuesThrough(states: seq<State>, j: nat, k: nat)
    requires AllEvolve(states) && j <= k < |states|
    ensures Continues(states[j], states[k])
  {
    if j == k {
    } else {
      ContinuesThrough(states, j, k - 1);
      assert Evolves(states[k - 1], states[k - 1 + 1]);
    }
  }

  lemma EvolvesRun(states: seq<State>, actions: seq<Action>, j: nat, k: nat)
    requires Run(states, actions) && j <= k < |states|
    ensures Continues(states[j], states[k])
  {
    RunEvolves(states, actions);
    ContinuesThrough(states, j, k);
  }

  lemma InsertionFacts(s: State, a: Action, t: State)
    requires PromiseSound(s) && Next(s, a, t) && t.log != s.log
    ensures |t.log| == |s.log| + 1 && s.log == t.log[..|s.log|]
    ensures var l := t.log[|s.log|].loop; l < |s.loops| && MayInsert(s, l)
  {
    Shape(s, a, t);
  }

  // A script is inserted only while authorized is true, and only if no reset has happened since the loop that
  // inserts it began: the epoch is the one of every state in which that loop has existed.
  lemma InsertsOnlyWhileAuthorized(states: seq<State>, actions: seq<Action>, i: nat, j: nat)
    requires Run(states, actions) && j <= i < |actions| && states[i + 1].log != states[i].log
    ensures |states[i].log| < |states[i + 1].log| && states[i].v.authorized
    ensures states[i + 1].log[|states[i].log|].loop < |states[j].loops| ==> states[j].v.epoch == states[i].v.epoch
  {
    SoundRun(states, actions, i);
    SoundRun(states, actions, j);
    InsertionFacts(states[i], actions[i], states[i + 1]);
    EvolvesRun(states, actions, j, i);
  }

  // ---- whose page it is ----

  // The identity check refuses a user who cannot be read, may not open the page or is not the one of this session,
  // and a guard that a reset has overtaken; it then leaves a page with nothing authorized. It lets in every other.
  lemma IdentityVerdict(s: State, a: Action, t: State)
    requires Next(s, a, t) && a.Identity? && a.guard < |s.guards|
    ensures a.guard < |t.guards| && t.loops[..|s.loops|] == s.loops && t.log == s.log
    ensures if a.answer.Known? && a.answer.permitted && s.guards[a.guard].epoch == s.v.epoch
               && (s.v.fingerprint.None? || s.v.fingerprint.value == a.answer.fingerprint)
            then t.guards[a.guard].pc.AtActivation? && t.v.authorized && t.v.epoch == s.v.epoch
                 && t.v.fingerprint == Some(a.answer.fingerprint)
            else t.guards[a.guard].pc == Done(false) && !t.v.authorized && t.v.epoch == s.v.epoch + 1
                 && t.v.fingerprint.None? && t.loops == s.loops
  {
  }

  // An identity check of the epoch that read a user who may open the page, with this fingerprint.
  ghost predicate PermittedAt(states: seq<State>, actions: seq<Action>, k: nat, epoch: nat, fingerprint: string)
    requires k < |actions| < |states|
  {
    && actions[k].Identity? && actions[k].answer == Known(true, fingerprint) && states[k].v.epoch == epoch
    && actions[k].guard < |states[k].guards| && states[k].guards[actions[k].guard].epoch == epoch
  }

  ghost predicate Permitted(states: seq<State>, actions: seq<Action>, epoch: nat, fingerprint: string, n: nat)
    requires n <= |actions| < |states|
  {
    exists k: nat :: k < n && PermittedAt(states, actions, k, epoch, fingerprint)
  }

  // A fingerprint is kept within its epoch, or comes from an identity check.
  ghost predicate FingerprintFrom(s: State, a: Action, t: State) {
    t.v.fingerprint.Some? ==>
      t.v.epoch == s.v.epoch &&
      (|| t.v.fingerprint == s.v.fingerprint
       || (a.Identity? && a.answer == Known(true, t.v.fingerprint.value) && a.guard < |s.guards| && s.guards[a.guard].epoch == s.v.epoch))
  }

  lemma FingerprintSource(s: State, a: Action, t: State)
    requires Next(s, a, t)
    ensures FingerprintFrom(s, a, t)
  {
    if a.Identity? { IdentityVerdict(s, a, t); }
  }

  ghost predicate FingerprintsFrom(states: seq<State>, actions: seq<Action>) {
    && |states| == |actions| + 1 && states[0].v.fingerprint.None?
    && forall k :: 0 <= k < |actions| ==> FingerprintFrom(states[k], actions[k], states[k + 1])
  }

  lemma RunFingerprints(states: seq<State>, actions: seq<Action>)
    requires Run(states, actions)
    ensures FingerprintsFrom(states, actions)
  {
    forall k | 0 <= k < |actions| ensures FingerprintFrom(states[k], actions[k], states[k + 1]) {
      FingerprintSource(states[k], actions[k], states[k + 1]);
    }
  }

  lemma {:induction false} FingerprintPermitted(states: seq<State>, actions: seq<Action>, n: nat)
    requires FingerprintsFrom(states, actions) && n < |states| && states[n].v.fingerprint.Some?
    ensures Permitted(states, actions, states[n].v.epoch, states[n].v.fingerprint.value, n)
  {
    if n == 0 {
    } else {
      assert FingerprintFrom(states[n - 1], actions[n - 1], states[n - 1 + 1]);
      if states[n].v.fingerprint == states[n - 1].v.fingerprint {
        FingerprintPermitted(states, actions, n - 1);
        var fingerprint := states[n].v.fingerprint.value;
        var k: nat :| k < n - 1 && PermittedAt(states, actions, k, states[n].v.epoch, fingerprint);
      } else {
        assert PermittedAt(states, actions, n - 1, states[n].v.epoch, states[n].v.fingerprint.value);
      }
    }
  }

  // Whenever the page is authorized, and so whenever a script is inserted, a user who may open the page has been
  // identified in this very epoch, and the fingerprint in use is that user's.
  lemma AuthorizedByPermission(states: seq<State>, actions: seq<Action>, n: nat)
    requires Run(states, actions) && n < |states|
    requires states[n].v.authorized || (n < |actions| && states[n + 1].log != states[n].log)
    ensures states[n].v.fingerprint.Some?
    ensures Permitted(states, actions, states[n].v.epoch, states[n].v.fingerprint.value, n)
  {
    SoundRun(states, actions, n);
    if n < |actions| && states[n + 1].log != states[n].log { InsertionFacts(states[n], actions[n], states[n + 1]); }
    RunFingerprints(states, actions);
    FingerprintPermitted(states, actions, n);
  }

  // ---- what one step comes to ----

  // The digits, capitals, small letters and the dash of ASCII.
  predicate AsciiWordChar(c: char) {
    var n := c as int;
    48 <= n <= 57 || 65 <= n <= 90 || 97 <= n <= 122 || n == 45
  }

  ghost predicate WellNamed(id: string) {
    |id| > 0 && forall i :: 0 <= i < |id| ==> AsciiWordChar(id[i])
  }

  // An action is taken on exactly while the page is authorized, under a non-empty id of letters, digits and dashes,
  // for a click, change or input; a dynamic one under its numbered id, pending until the next flush.
  lemma RegistrationVerdict(r: Registry, authorized: bool, id: string, b: Binding)
    ensures var t := Registered(r, authorized, id, b);
            if authorized && WellNamed(id) && b.event in {Click, Change, Input}
            then t == r.(actions := t.actions, bound := r.bound + {b.event}) && t.actions == r.actions[id := b] else t == r
    ensures var t, n := DynamicallyRegistered(r, authorized, id, b), r.sequence + 1;
            if authorized && WellNamed(id) && b.event in {Click, Change, Input}
            then t == r.(sequence := n, flushQueued := true, pending := t.pending)
                 && t.pending == r.pending[id + "-" + Decimal(n) := b]
            else t == r
  {
    assert id + "-" + Decimal(r.sequence + 1) == DynamicId(id, r.sequence + 1);
  }

  // A page shown again, a focus or a change of a credential withdraws authorization and starts a guard, if an identity
  // is known and no such guard is on its way; nothing else does anything.
  lemma RevalidationVerdict(s: State, event: PageEvent, t: State)
    requires Next(s, Revalidate(event), t)
    ensures if && s.v.fingerprint.Some? && s.v.revalidating.None?
               && event in {PageShow(true), Focus, Storage(None), Storage(Some("token")), Storage(Some("tiantong_token")),
                            Storage(Some("session")), Storage(Some("tiantong_session"))}
            then && t.guards == s.guards + [Guard(s.v.epoch, AtDom, true)]
                 && t.v == s.v.(authorized := false, revalidating := Some(|s.guards|))
                 && t.registry == s.registry && t.loops == s.loops && t.log == s.log
            else t == s
  {
  }

  // The next such event can start a guard again once the last one's guard has answered, and not before.
  lemma SettleVerdict(s: State, t: State)
    ensures Enabled(s, Settle) <==> s.running.None? && s.v.revalidating.Some? && s.v.revalidating.value < |s.guards|
                                    && s.guards[s.v.revalidating.value].pc in {Done(true), Done(false)}
    ensures Next(s, Settle, t) ==> t == s.(v := t.v) && t.v == s.v.(revalidating := None)
  {
  }

  // A loop inserts a script that needs no fetch at once, and one that does when the fetch has succeeded, if in either
  // case its epoch is current and the page authorized; otherwise it fails. Behind the last script it ends well exactly
  // in its own epoch, and only then is the page activated.
  lemma LoopVerdict(s: State, a: Action, t: State)
    requires Next(s, a, t) && (a.Step? || a.Fetched?)
    ensures var l := if a.Step? then s.running.value else a.loop;
            var loop := s.loops[l];
            var live, last := loop.epoch == s.v.epoch && s.v.authorized, loop.index >= |loop.scripts|;
            && |t.loops| == |s.loops| && t.v.authorized == s.v.authorized && t.v.epoch == s.v.epoch
            && t.v.activated == (s.v.activated || (a.Step? && last && loop.epoch == s.v.epoch))
            && if a.Step? && last then t.loops[l].pc == (if loop.epoch == s.v.epoch then Finished else Failed)
                                       && t.log == s.log && t.running == None
               else if a.Step? && loop.scripts[loop.index] then t.loops[l].pc == Fetching && t.log == s.log && t.running == None
               else if live && !last && (a.Step? || a.ok) then
                 && t.loops[l].pc == Stepping && t.loops[l].index == loop.index + 1
                 && t.log == s.log + [Inserted(l, loop.index)] && t.running == Some(l)
               else t.loops[l].pc == Failed && t.log == s.log && t.running == None
  {
  }

  // A guard that awaits a loop goes on when it has ended, well or not, and answers accordingly.
  lemma AwaitVerdict(s: State, g: nat, t: State)
    requires g < |s.guards| && s.guards[g].pc.AtActivation?
    ensures Enabled(s, Activated(g)) <==>
              s.running.None? && (s.guards[g].pc.loop.Some? ==>
                var l := s.guards[g].pc.loop.value; l < |s.loops| && !s.loops[l].pc.Stepping? && !s.loops[l].pc.Fetching?)
    ensures Next(s, Activated(g), t) ==>
              g < |t.guards| && if s.guards[g].pc.loop.None? || s.loops[s.guards[g].pc.loop.value].pc == Finished
                                then t.guards[g].pc == Done(true) && t.v == s.v && t.registry == s.registry
                                else t.guards[g].pc == Done(false) && !t.v.authorized && t.v.epoch == s.v.epoch + 1
  {
  }

  // ---- what a reset stops ----

  // Loop l is of an older epoch; it has inserted `done`, and is unfinished if `open`.
  ghost predicate Stale(s: State, l: nat, done: seq<nat>, open: bool) {
    && l < |s.loops| && s.loops[l].epoch < s.v.epoch && IndicesOf(s.log, l) == done
    && (open ==> s.loops[l].pc != Finished)
  }

  lemma StaleStep(s: State, a: Action, t: State, l: nat, done: seq<nat>, open: bool)
    requires PromiseSound(s) && Next(s, a, t) && Stale(s, l, done, open)
    ensures Stale(t, l, done, open)
  {
    EvolvesNext(s, a, t);
    assert LoopEvolves(s.loops[l], t.loops[l], s.v.epoch);
    if t.log != s.log {
      InsertionFacts(s, a, t);
      IndicesAppend(s.log, t.log[|s.log|], l);
      assert t.log == s.log + [t.log[|s.log|]];
    }
  }

  ghost predicate StaysStale(states: seq<State>, l: nat, done: seq<nat>, open: bool) {
    forall k :: 0 <= k < |states| - 1 && Stale(states[k], l, done, open) ==> Stale(states[k + 1], l, done, open)
  }

  lemma {:induction false} StaleThrough(states: seq<State>, l: nat, done: seq<nat>, open: bool, j: nat, k: nat)
    requires StaysStale(states, l, done, open) && j <= k < |states| && Stale(states[j], l, done, open)
    ensures Stale(states[k], l, done, open)
  {
    if j == k {
    } else {
      StaleThrough(states, l, done, open, j, k - 1);
      assert Stale(states[k - 1 + 1], l, done, open);
    }
  }

  // A loop that a reset has overtaken inserts nothing more, however its fetches end, and never finishes.
  lemma StaleLoopIsSilent(states: seq<State>, actions: seq<Action>, j: nat, k: nat, l: nat)
    requires Run(states, actions) && j <= k < |states| && l < |states[j].loops|
    requires states[j].loops[l].epoch != states[j].v.epoch
    ensures Stale(states[k], l, IndicesOf(states[j].log, l), states[j].loops[l].pc != Finished)
  {
    var done, open := IndicesOf(states[j].log, l), states[j].loops[l].pc != Finished;
    SoundRun(states, actions, j);
    forall i | 0 <= i < |states| - 1 && Stale(states[i], l, done, open) ensures Stale(states[i + 1], l, done, open) {
      SoundRun(states, actions, i);
      StaleStep(states[i], actions[i], states[i + 1], l, done, open);
    }
    StaleThrough(states, l, done, open, j, k);
  }

  // The epoch changes only by a reset, which leaves a strictly larger one and no listener, action or pending
  // action; and until the next accepted identity none appears.
  lemma ResetLeavesNothing(states: seq<State>, actions: seq<Action>, n: nat)
    requires Run(states, actions) && n < |actions|
    ensures var s, t := states[n], states[n + 1];
            && (t.v.epoch != s.v.epoch ==> t.v.epoch == s.v.epoch + 1 && t.v.fingerprint.None? && t.v.promise.None?)
            && (t.v.fingerprint.None? ==> !t.v.authorized && !t.v.activated && Empty(t.registry))
  {
    SoundRun(states, actions, n);
    SoundRun(states, actions, n + 1);
    Shape(states[n], actions[n], states[n + 1]);
  }

  // A guard answers that access is allowed only after the loop of its own epoch has inserted every protected script.
  lemma AllowedMeansActivated(states: seq<State>, actions: seq<Action>, n: nat, g: nat)
    requires Run(states, actions) && n < |states| && g < |states[n].guards| && states[n].guards[g].pc == Done(true)
    ensures exists l :: 0 <= l < |states[n].loops| && states[n].loops[l].epoch == states[n].guards[g].epoch
                        && IndicesOf(states[n].log, l) == Upto(|states[n].loops[l].scripts|)
  {
    SoundRun(states, actions, n);
    var s := states[n];
    assert GuardSound(s.guards[g], s.loops, s.v.epoch);
    var l :| 0 <= l < |s.loops| && s.loops[l].epoch == s.guards[g].epoch && s.loops[l].pc == Finished;
    assert LoopInOrder(s.log, l, s.loops[l]);
  }

  // At any moment at most one guard started by a revalidation is unanswered.
  lemma RevalidationIsSingleFlight(states: seq<State>, actions: seq<Action>, n: nat, g: nat, h: nat)
    requires Run(states, actions) && n < |states| && g < |states[n].guards| && h < |states[n].guards|
    requires states[n].guards[g].revalidation && !states[n].guards[g].pc.Done?
    requires states[n].guards[h].revalidation && !states[n].guards[h].pc.Done?
    ensures g == h
  {
    SoundRun(states, actions, n);
  }

  // ---- when an answer is out of date ----

  // No reset since guard g began.
  ghost predicate NoResetSince(states: seq<State>, g: nat, n: nat)
    requires n < |states|
  {
    forall k :: 0 <= k < n && g < |states[k].guards| ==> states[k + 1].v.epoch == states[k].v.epoch
  }

  lemma GuardStep(states: seq<State>, actions: seq<Action>, g: nat, k: nat)
    requires Run(states, actions) && k < |actions| && g < |states[k].guards|
    ensures g < |states[k + 1].guards| && states[k + 1].guards[g].epoch == states[k].guards[g].epoch
    ensures GuardMoves(states[k], states[k + 1], states[k].guards[g], states[k + 1].guards[g])
  {
    SoundRun(states, actions, k);
    GuardMovesNext(states[k], actions[k], states[k + 1], g);
  }

  lemma {:induction false} GuardThrough(states: seq<State>, actions: seq<Action>, g: nat, j: nat, k: nat)
    requires Run(states, actions) && j <= k < |states| && g < |states[j].guards|
    ensures g < |states[k].guards| && states[k].guards[g].epoch == states[j].guards[g].epoch
  {
    if j == k {
    } else {
      GuardThrough(states, actions, g, j, k - 1);
      GuardStep(states, actions, g, k - 1);
    }
  }

  lemma {:induction false} CurrentUnlessReset(states: seq<State>, actions: seq<Action>, g: nat, n: nat)
    requires Run(states, actions) && n < |states| && g < |states[n].guards| && NoResetSince(states, g, n)
    ensures states[n].guards[g].epoch == states[n].v.epoch
  {
    if n == 0 {
    } else if g < |states[n - 1].guards| {
      CurrentUnlessReset(states, actions, g, n - 1);
      GuardStep(states, actions, g, n - 1);
      assert states[n - 1 + 1].v.epoch == states[n - 1].v.epoch;
    } else {
      SoundRun(states, actions, n - 1);
      NewGuards(states[n - 1], actions[n - 1], states[n], g);
    }
  }

  // A guard's epoch is the current one exactly when nothing has been reset since it began.
  lemma CurrentExactly(states: seq<State>, actions: seq<Action>, g: nat, n: nat)
    requires Run(states, actions) && n < |states| && g < |states[n].guards|
    ensures states[n].guards[g].epoch == states[n].v.epoch <==> NoResetSince(states, g, n)
  {
    if NoResetSince(states, g, n) {
      CurrentUnlessReset(states, actions, g, n);
    } else {
      var k :| 0 <= k < n && g < |states[k].guards| && states[k + 1].v.epoch != states[k].v.epoch;
      SoundRun(states, actions, k);
      assert GuardSound(states[k].guards[g], states[k].loops, states[k].v.epoch);
      EvolvesStep(states, actions, k);
      EvolvesRun(states, actions, k + 1, n);
      GuardThrough(states, actions, g, k, n);
    }
  }

  // A revalidation at step k has withdrawn the authorization and no identity has been accepted since.
  ghost predicate WithdrawnAt(states: seq<State>, actions: seq<Action>, k: nat, n: nat)
    requires k < n < |states| == |actions| + 1
  {
    && actions[k].Revalidate? && Withdraws(states[k].v, actions[k].event)
    && forall m :: k < m < n ==> states[m + 1].seen == states[m].seen
  }

  ghost predicate Withdrawn(states: seq<State>, actions: seq<Action>, n: nat)
    requires n < |states| == |actions| + 1
  {
    exists k: nat :: k < n && WithdrawnAt(states, actions, k, n)
  }

  // What a step makes of the authorization.
  ghost predicate AuthorizationMoves(s: State, a: Action, t: State) {
    || (t.v.fingerprint.None? && !t.v.authorized)
    || (t.v.fingerprint.Some? && t.seen == s.seen + [Seen(s.v.epoch, t.v.fingerprint.value)] && t.v.authorized && !a.Revalidate?)
    || (t.seen == s.seen && t.v.fingerprint == s.v.fingerprint
        && t.v.authorized == (s.v.authorized && !(a.Revalidate? && Withdraws(s.v, a.event))))
  }

  lemma AuthorizationNext(s: State, a: Action, t: State)
    requires Next(s, a, t)
    ensures AuthorizationMoves(s, a, t)
  {
  }

  lemma WithdrawnNext(states: seq<State>, actions: seq<Action>, n: nat)
    requires n < |states| - 1 && |states| == |actions| + 1
    ensures Withdrawn(states, actions, n + 1) <==>
              (actions[n].Revalidate? && Withdraws(states[n].v, actions[n].event))
              || (states[n + 1].seen == states[n].seen && Withdrawn(states, actions, n))
  {
    if Withdrawn(states, actions, n + 1) {
      var k: nat :| k < n + 1 && WithdrawnAt(states, actions, k, n + 1);
      if k < n { assert WithdrawnAt(states, actions, k, n) && states[n + 1].seen == states[n].seen; }
    }
    if actions[n].Revalidate? && Withdraws(states[n].v, actions[n].event) { assert WithdrawnAt(states, actions, n, n + 1); }
    if states[n + 1].seen == states[n].seen && Withdrawn(states, actions, n) {
      var k: nat :| k < n && WithdrawnAt(states, actions, k, n);
      assert WithdrawnAt(states, actions, k, n + 1);
    }
  }

  ghost predicate AuthorizationFollows(states: seq<State>, actions: seq<Action>) {
    && |states| == |actions| + 1 && states[0].v.fingerprint.None? && !states[0].v.authorized
    && forall k :: 0 <= k < |actions| ==> AuthorizationMoves(states[k], actions[k], states[k + 1])
  }

  lemma RunAuthorizes(states: seq<State>, actions: seq<Action>)
    requires Run(states, actions)
    ensures AuthorizationFollows(states, actions)
  {
    forall k | 0 <= k < |actions| ensures AuthorizationMoves(states[k], actions[k], states[k + 1]) {
      AuthorizationNext(states[k], actions[k], states[k + 1]);
    }
  }

  lemma {:induction false} AuthorizedThrough(states: seq<State>, actions: seq<Action>, n: nat)
    requires AuthorizationFollows(states, actions) && n < |states|
    ensures states[n].v.authorized <==> states[n].v.fingerprint.Some? && !Withdrawn(states, actions, n)
  {
    if n == 0 {
    } else {
      AuthorizedThrough(states, actions, n - 1);
      WithdrawnNext(states, actions, n - 1);
      assert AuthorizationMoves(states[n - 1], actions[n - 1], states[n - 1 + 1]);
    }
  }

  // Authorized is what an accepted identity makes of the page until a reset or a revalidation.
  lemma AuthorizedExactly(states: seq<State>, actions: seq<Action>, n: nat)
    requires Run(states, actions) && n < |states|
    ensures states[n].v.authorized <==> states[n].v.fingerprint.Some? && !Withdrawn(states, actions, n)
  {
    RunAuthorizes(states, actions);
    AuthorizedThrough(states, actions, n);
  }

  lemma CurrentHasFingerprint(s: State, g: nat)
    requires Sound(s) && g < |s.guards| && s.guards[g].pc.AtActivation? && s.guards[g].epoch == s.v.epoch
    requires s.guards[g].pc.loop.Some? ==> s.guards[g].pc.loop.value < |s.loops| && s.loops[s.guards[g].pc.loop.value].pc == Finished
    ensures s.v.fingerprint.Some?
  {
    assert GuardSound(s.guards[g], s.loops, s.v.epoch);
  }

  // What an answer that access is allowed says at the moment it is given: it is about the current session exactly
  // when nothing has been reset since the guard began, and then the page is authorized exactly when no revalidation
  // has withdrawn that. The guard could tell: its epoch would no longer be the current one.
  lemma AllowedExactly(states: seq<State>, actions: seq<Action>, n: nat, g: nat)
    requires Run(states, actions) && n < |actions| && actions[n] == Activated(g) && states[n + 1].guards[g].pc == Done(true)
    ensures states[n].guards[g].epoch == states[n].v.epoch <==> NoResetSince(states, g, n)
    ensures NoResetSince(states, g, n) ==> (states[n + 1].v.authorized <==> !Withdrawn(states, actions, n))
  {
    CurrentExactly(states, actions, g, n);
    SoundRun(states, actions, n);
    AuthorizedExactly(states, actions, n);
    if NoResetSince(states, g, n) { CurrentHasFingerprint(states[n], g); }
  }

  // ---- promises that outlive a reset ----

  ghost predicate ResetAt(states: seq<State>, k: nat)
    requires k < |states| - 1
  {
    states[k + 1].v.epoch != states[k].v.epoch
  }

  ghost predicate NoResetBetween(states: seq<State>, k: nat, n: nat)
    requires n < |states|
  {
    forall m :: k < m < n ==> !ResetAt(states, m)
  }

  // The last reset fell in the first stretch of a loop, before its promise was assigned.
  ghost predicate ResetInFirstStretch(states: seq<State>, n: nat)
    requires n < |states|
  {
    exists k: nat :: k < n && ResetAt(states, k) && states[k].unpublished && NoResetBetween(states, k, n)
  }

  lemma FirstStretchNext(states: seq<State>, n: nat)
    requires n < |states| - 1
    ensures ResetInFirstStretch(states, n + 1) <==>
              if ResetAt(states, n) then states[n].unpublished else ResetInFirstStretch(states, n)
  {
    if ResetInFirstStretch(states, n + 1) {
      var k: nat :| k < n + 1 && ResetAt(states, k) && states[k].unpublished && NoResetBetween(states, k, n + 1);
      assert k < n ==> NoResetBetween(states, k, n);
    }
    if ResetAt(states, n) {
      assert NoResetBetween(states, n, n + 1);
    } else if ResetInFirstStretch(states, n) {
      var k: nat :| k < n && ResetAt(states, k) && states[k].unpublished && NoResetBetween(states, k, n);
      assert NoResetBetween(states, k, n + 1);
    }
  }

  // What a step makes of the promise and the call that is to assign it.
  ghost predicate PromiseMoves(s: State, t: State) {
    || t.v.fingerprint.Some?
    || (t.v.epoch != s.v.epoch && t.v.promise.None? && t.unpublished == s.unpublished)
    || (t.v.epoch == s.v.epoch && s.v.fingerprint.None?
        && (s.unpublished && s.v.promise.None? ==> t.unpublished == t.v.promise.None?)
        && (!s.unpublished ==> !t.unpublished && t.v.promise == s.v.promise))
  }

  lemma PromiseNext(s: State, a: Action, t: State)
    requires Sound(s) && Next(s, a, t)
    ensures PromiseMoves(s, t)
  {
    Shape(s, a, t);
  }

  lemma {:induction false} UnassignedOrOutlived(states: seq<State>, actions: seq<Action>, n: nat)
    requires Run(states, actions) && n < |states| && states[n].v.fingerprint.None?
    ensures states[n].v.promise.Some? || states[n].unpublished <==> ResetInFirstStretch(states, n)
    ensures states[n].unpublished ==> states[n].v.promise.None?
  {
    if n == 0 {
    } else {
      SoundRun(states, actions, n - 1);
      PromiseNext(states[n - 1], actions[n - 1], states[n]);
      FirstStretchNext(states, n - 1);
      assert ResetAt(states, n - 1) <==> states[n].v.epoch != states[n - 1].v.epoch;
      if !ResetAt(states, n - 1) { UnassignedOrOutlived(states, actions, n - 1); }
    }
  }

  // While no identity is accepted there should be no promise; there is one exactly when the last reset fell in
  // the first synchronous stretch of a loop that has given the thread back since.
  lemma PromiseOutlivesExactly(states: seq<State>, actions: seq<Action>, n: nat)
    requires Run(states, actions) && n < |states| && states[n].v.fingerprint.None?
    ensures states[n].v.promise.Some? <==> !states[n].unpublished && ResetInFirstStretch(states, n)
  {
    UnassignedOrOutlived(states, actions, n);
  }

  // Such a promise belongs to a loop of an older epoch, which never finishes.
  lemma PromiseAfterResetIsDead(states: seq<State>, actions: seq<Action>, n: nat)
    requires Run(states, actions) && n < |states|
    requires states[n].v.fingerprint.None? && states[n].v.promise.Some?
    ensures var s := states[n];
            var l := s.v.promise.value;
            l < |s.loops| && s.loops[l].epoch < s.v.epoch && s.loops[l].pc != Finished
  {
    SoundRun(states, actions, n);
  }

  ghost predicate Waiting(s: State, g: nat, l: nat) {
    g < |s.guards| && s.guards[g].pc in {AtActivation(Some(l)), Done(false)}
  }

  lemma WaitingStep(states: seq<State>, actions: seq<Action>, k: nat, g: nat, l: nat)
    requires Run(states, actions) && k < |actions| && Waiting(states[k], g, l)
    requires l < |states[k].loops| && states[k].loops[l].pc != Finished
    ensures Waiting(states[k + 1], g, l)
  {
    GuardStep(states, actions, g, k);
  }

  lemma {:induction false} WaitsInVain(states: seq<State>, actions: seq<Action>, j: nat, k: nat, g: nat, l: nat)
    requires Run(states, actions) && j <= k < |states| && Waiting(states[j], g, l)
    requires l < |states[j].loops| && states[j].loops[l].epoch != states[j].v.epoch && states[j].loops[l].pc != Finished
    ensures Waiting(states[k], g, l)
  {
    if j == k {
    } else {
      WaitsInVain(states, actions, j, k - 1, g, l);
      StaleLoopIsSilent(states, actions, j, k - 1, l);
      WaitingStep(states, actions, k - 1, g, l);
    }
  }

  // The next guard whose identity is accepted starts no loop: it waits for the dead promise, and never answers
  // that access is allowed.
  lemma DeadPromiseDenies(states: seq<State>, actions: seq<Action>, n: nat, m: nat, g: nat)
    requires Run(states, actions) && n < m < |states| && actions[n].Identity? && actions[n].guard == g < |states[n].guards|
    requires states[n].v.fingerprint.None? && states[n].v.promise.Some? && Accepted(states[n], g, actions[n].answer)
    ensures states[n + 1].guards[g].pc == AtActivation(states[n].v.promise) && states[n + 1].loops == states[n].loops
    ensures g < |states[m].guards| && states[m].guards[g].pc in {AtActivation(states[n].v.promise), Done(false)}
  {
    var l := states[n].v.promise.value;
    SoundRun(states, actions, n);
    PromiseAfterResetIsDead(states, actions, n);
    WaitsInVain(states, actions, n + 1, m, g, l);
  }

  // ---- dynamic ids ----

  // Registered by registerAction in the epoch of state n.
  ghost predicate RegisteredAt(states: seq<State>, actions: seq<Action>, id: string, k: nat, n: nat)
    requires k < n < |states| == |actions| + 1
  {
    && actions[k].Register? && actions[k].id == id && MayRegister(states[k].v.authorized, id, actions[k].binding)
    && states[k].v.epoch == states[n].v.epoch
  }

  ghost predicate RegisteredStatically(states: seq<State>, actions: seq<Action>, id: string, n: nat)
    requires n < |states| == |actions| + 1
  {
    exists k: nat :: k < n && RegisteredAt(states, actions, id, k, n)
  }

  // What a step makes of an id that no dynamic registration was given.
  ghost predicate IdMoves(s: State, a: Action, t: State, id: string) {
    if t.v.epoch != s.v.epoch then s.v.epoch < t.v.epoch && id !in t.registry.actions
    else id in t.registry.actions <==>
           id in s.registry.actions || (a.Register? && a.id == id && MayRegister(s.v.authorized, id, a.binding))
  }

  lemma FlushKeepsId(r: Registry, authorized: bool, dom: set<string>, t: Registry, id: string)
    requires Wired(r) && Flushes(r, authorized, dom, t) && !Named(id, r.sequence)
    ensures id in t.actions <==> id in r.actions
  {
    assert id !in r.pending && id !in r.dynamicIds;
    assert authorized ==> FlushedAction(r, dom, t, id);
  }

  lemma IdNext(s: State, a: Action, t: State, id: string)
    requires Wired(s.registry) && Next(s, a, t) && !Named(id, s.registry.sequence)
    ensures IdMoves(s, a, t, id)
  {
    if a.Flush? { FlushKeepsId(s.registry, s.v.authorized, a.dom, t.registry, id); }
  }

  lemma SequenceGrows(s: State, a: Action, t: State)
    requires Next(s, a, t)
    ensures s.registry.sequence <= t.registry.sequence
  {
  }

  lemma RegisteredNext(states: seq<State>, actions: seq<Action>, id: string, n: nat)
    requires n < |states| - 1 && |states| == |actions| + 1
    requires forall k :: 0 <= k <= n ==> states[k].v.epoch <= states[n].v.epoch
    requires states[n].v.epoch <= states[n + 1].v.epoch
    ensures RegisteredStatically(states, actions, id, n + 1) <==>
              states[n + 1].v.epoch == states[n].v.epoch
              && (|| RegisteredStatically(states, actions, id, n)
                  || (actions[n].Register? && actions[n].id == id && MayRegister(states[n].v.authorized, id, actions[n].binding)))
  {
    if RegisteredStatically(states, actions, id, n + 1) {
      var k: nat :| k < n + 1 && RegisteredAt(states, actions, id, k, n + 1);
      if k < n { assert RegisteredAt(states, actions, id, k, n); }
    }
    if states[n + 1].v.epoch == states[n].v.epoch {
      if RegisteredStatically(states, actions, id, n) {
        var k: nat :| k < n && RegisteredAt(states, actions, id, k, n);
        assert RegisteredAt(states, actions, id, k, n + 1);
      }
      if actions[n].Register? && actions[n].id == id && MayRegister(states[n].v.authorized, id, actions[n].binding) {
        assert RegisteredAt(states, actions, id, n, n + 1);
      }
    }
  }

  lemma {:induction false} LiveIffRegistered(states: seq<State>, actions: seq<Action>, id: string, n: nat)
    requires Run(states, actions) && n < |states| && !Named(id, states[n].registry.sequence)
    ensures id in states[n].registry.actions <==> RegisteredStatically(states, actions, id, n)
  {
    if n == 0 {
    } else {
      var s, a, t := states[n - 1], actions[n - 1], states[n];
      SequenceGrows(s, a, t);
      if Named(id, s.registry.sequence) { NamedLater(id, s.registry.sequence, t.registry.sequence); }
      LiveIffRegistered(states, actions, id, n - 1);
      SoundRun(states, actions, n - 1);
      IdNext(s, a, t, id);
      forall k | 0 <= k <= n - 1 ensures states[k].v.epoch <= s.v.epoch { EvolvesRun(states, actions, k, n - 1); }
      RegisteredNext(states, actions, id, n - 1);
    }
  }

  lemma NextIdIsNotNamed(handlerId: string, n: nat)
    ensures !Named(DynamicId(handlerId, n + 1), n)
  {
    if Named(DynamicId(handlerId, n + 1), n) {
      var h: string, k: nat :| NamedBy(DynamicId(handlerId, n + 1), h, k) && 1 <= k <= n;
      SameNumbered(handlerId, n + 1, h, k, '-');
      assert false;
    }
  }

  // The id handed out next belongs to nothing that another dynamic registration made; it belongs to a live action
  // exactly when registerAction was given that very id in this epoch.
  lemma DynamicIdIsFresh(states: seq<State>, actions: seq<Action>, n: nat, handlerId: string)
    requires Run(states, actions) && n < |states|
    ensures var r := states[n].registry;
            var id := DynamicId(handlerId, r.sequence + 1);
            && id !in r.pending && id !in r.dynamicIds
            && (id in r.actions <==> RegisteredStatically(states, actions, id, n))
  {
    SoundRun(states, actions, n);
    var r := states[n].registry;
    NextIdIsNotNamed(handlerId, r.sequence);
    LiveIffRegistered(states, actions, DynamicId(handlerId, r.sequence + 1), n);
  }

  // ---- three corners ----

  lemma Extend(states: seq<State>, actions: seq<Action>, a: Action, t: State) returns (longer: seq<State>, acts: seq<Action>)
    requires Run(states, actions) && Next(states[|states| - 1], a, t)
    ensures longer == states + [t] && acts == actions + [a] && Run(longer, acts)
  {
    longer, acts := states + [t], actions + [a];
    forall i | 0 <= i < |acts| ensures Next(longer[i], acts[i], longer[i + 1]) {
      if i < |actions| { assert Next(states[i], actions[i], states[i + 1]); }
    }
  }

  // The page of the first guard, in the first stretch of its loop.
  function Beginning(scripts: seq<bool>): State {
    START.(v := Session(true, false, None, 0, Some("a"), None), registry := START.registry.(observing := true),
           guards := [Guard(0, AtActivation(Some(0)), false)], loops := [Loop(0, scripts, 0, Stepping)],
           running := Some(0), unpublished := true, seen := [Seen(0, "a")])
  }

  lemma BeginActivation(scripts: seq<bool>) returns (states: seq<State>, actions: seq<Action>)
    ensures Run(states, actions) && |states| == 4 && states[3] == Beginning(scripts)
  {
    states, actions := [START], [];
    var t := CallsGuard(START, false);
    states, actions := Extend(states, actions, CallGuard, t);
    t := WithGuard(t, 0, AtIdentity);
    states, actions := Extend(states, actions, DomReady(0), t);
    t := Admitted(t, 0, "a", scripts);
    states, actions := Extend(states, actions, Identity(0, Known(true, "a"), scripts), t);
  }

  // An inserted script leaves a logout for when the thread is given back. The loop finishes, then comes the
  // logout, then the guard that awaited the loop: it answers that access is allowed although nothing is authorized.
  lemma AllowedAfterReset() returns (states: seq<State>, actions: seq<Action>)
    ensures Run(states, actions) && |states| == 9 && actions[4..] == [QueueLogout, Step, QueuedLogout, Activated(0)]
    ensures var s := states[8]; s.guards == [Guard(0, Done(true), false)] && !s.v.authorized && s.v.epoch == 1
  {
    states, actions := BeginActivation([false]);
    var t := Inserts(states[3], 0);
    states, actions := Extend(states, actions, Step, t);
    t := t.(queued := 1);
    states, actions := Extend(states, actions, QueueLogout, t);
    t := Finishes(t, 0);
    states, actions := Extend(states, actions, Step, t);
    t := Reset(t).(queued := 0);
    states, actions := Extend(states, actions, QueuedLogout, t);
    t := WithGuard(t, 0, Done(true));
    states, actions := Extend(states, actions, Activated(0), t);
  }

  // An inline script that logs out while its loop runs for the first time: activationPromise is assigned when
  // the call returns, after the reset had cleared it.
  lemma PromiseOutlivesReset() returns (states: seq<State>, actions: seq<Action>)
    ensures Run(states, actions) && |states| == 7 && actions[3..] == [Step, Logout, Step]
    ensures var s := states[6]; s.v.fingerprint.None? && s.v.promise == Some(0) && |s.loops| == 1 && s.loops[0].pc == Failed
  {
    states, actions := BeginActivation([false]);
    var t := Inserts(states[3], 0);
    states, actions := Extend(states, actions, Step, t);
    t := Reset(t);
    states, actions := Extend(states, actions, Logout, t);
    t := Released(t, 0, Failed);
    states, actions := Extend(states, actions, Step, t);
  }

  // The registry while "save-1" is registered by hand as `x`, and then handed out for `y`.
  function Collided(x: Binding, y: Binding): Registry {
    START.registry.(bound := {Click}, actions := map["save-1" := x], pending := map["save-1" := y],
                    observing := true, flushQueued := true, sequence := 1)
  }

  lemma SaveOne()
    ensures DynamicId("save", 1) == "save-1" && ValidId("save-1") && ValidId("save")
  {
    assert Decimal(1) == "1";
  }

  lemma FlushCollision(x: Binding, y: Binding) returns (mid: Registry, end: Registry)
    requires x.event == Click && y.event == Click
    ensures Flushes(Collided(x, y), true, {"save-1"}, mid) && mid.actions == map["save-1" := y] && !mid.flushQueued && mid.observing
    ensures Flushes(mid.(flushQueued := true), true, {}, end) && "save-1" !in end.actions
  {
    var r := Collided(x, y);
    mid := r.(flushQueued := false, pending := map[], actions := map["save-1" := y], dynamicIds := {"save-1"});
    assert "save-1" in r.pending && r.pending["save-1"].event == Click;
    forall id ensures FlushedAction(r, {"save-1"}, mid, id) { }
    assert forall e :: Arrives(r, {"save-1"}, e) <==> e == Click;
    end := mid.(actions := map[], dynamicIds := {});
  }

  // A page that registers "save-1" by hand and then asks for a dynamic "save": the flush overwrites the action
  // registered by hand, and a later one deletes it when the element is gone from the page.
  lemma DynamicIdTakesStaticOne(x: Binding, y: Binding) returns (states: seq<State>, actions: seq<Action>)
    requires x.event == Click && y.event == Click
    ensures Run(states, actions) && |states| == 11
    ensures actions[4..] == [Register("save-1", x), RegisterDynamic("save", y), Step, Flush({"save-1"}), Mutation, Flush({})]
    ensures states[5].registry.actions == map["save-1" := x]
    ensures "save-1" in states[8].registry.actions && states[8].registry.actions["save-1"] == y
    ensures "save-1" !in states[10].registry.actions && states[10].v.epoch == 0 && states[10].v.authorized
  {
    SaveOne();
    states, actions := BeginActivation([false]);
    var t := Inserts(states[3], 0);
    states, actions := Extend(states, actions, Step, t);
    t := t.(registry := Registered(t.registry, true, "save-1", x));
    states, actions := Extend(states, actions, Register("save-1", x), t);
    t := t.(registry := DynamicallyRegistered(t.registry, true, "save", y));
    assert t.registry == Collided(x, y);
    states, actions := Extend(states, actions, RegisterDynamic("save", y), t);
    t := Finishes(t, 0);
    states, actions := Extend(states, actions, Step, t);
    var mid, end := FlushCollision(x, y);
    t := t.(registry := mid);
    states, actions := Extend(states, actions, Flush({"save-1"}), t);
    t := t.(registry := mid.(flushQueued := true));
    states, actions := Extend(states, actions, Mutation, t);
    t := t.(registry := end);
    states, actions := Extend(states, actions, Flush({}), t);
  }

  // ---- flushing, half by half ----

  // What of the pending actions outside `todo` is on the page has been registered.
  ghost predicate Arrived(r: Registry, dom: set<string>, todo: set<string>, t: Registry) {
    && t == r.(actions := t.actions, bound := t.bound, dynamicIds := t.dynamicIds)
    && (forall id :: id in t.dynamicIds <==> id in r.dynamicIds || Arriving(r, dom, todo, id))
    && (forall e :: e in t.bound <==> e in r.bound || ArrivingEvent(r, dom, todo, e))
    && (forall id :: id in t.actions <==> id in r.actions || Arriving(r, dom, todo, id))
    && (forall id :: id in t.actions ==> t.actions[id] == if Arriving(r, dom, todo, id) then r.pending[id] else r.actions[id])
  }

  predicate Arriving(r: Registry, dom: set<string>, todo: set<string>, id: string) {
    id in r.pending && id in dom && id !in todo
  }

  ghost predicate ArrivingEvent(r: Registry, dom: set<string>, todo: set<string>, e: Event) {
    exists id :: Arriving(r, dom, todo, id) && r.pending[id].event == e
  }

  // Dynamic actions outside `todo` that have left the page are gone.
  ghost predicate Dropped(r: Registry, dom: set<string>, todo: set<string>, t: Registry) {
    && t == r.(actions := t.actions, dynamicIds := t.dynamicIds)
    && (forall id :: id in t.dynamicIds <==> id in r.dynamicIds && (id in dom || id in todo))
    && (forall id :: id in t.actions <==> id in r.actions && (id !in r.dynamicIds || id in dom || id in todo))
    && (forall id :: id in t.actions ==> t.actions[id] == r.actions[id])
  }

  lemma ArriveOne(r: Registry, dom: set<string>, todo: set<string>, t: Registry, id: string, u: Registry)
    requires Arrived(r, dom, todo, t) && id in todo && id in r.pending
    requires u == if id in dom
                  then t.(actions := t.actions[id := r.pending[id]], bound := t.bound + {r.pending[id].event}, dynamicIds := t.dynamicIds + {id})
                  else t
    ensures Arrived(r, dom, todo - {id}, u)
  {
    forall e ensures e in u.bound <==> e in r.bound || ArrivingEvent(r, dom, todo - {id}, e) {
      if ArrivingEvent(r, dom, todo, e) {
        var i :| Arriving(r, dom, todo, i) && r.pending[i].event == e;
        assert Arriving(r, dom, todo - {id}, i);
      }
      if id in dom { assert Arriving(r, dom, todo - {id}, id); }
      if ArrivingEvent(r, dom, todo - {id}, e) {
        var i :| Arriving(r, dom, todo - {id}, i) && r.pending[i].event == e;
        assert i == id || Arriving(r, dom, todo, i);
      }
    }
  }

  lemma FlushedEvents(r: Registry, dom: set<string>, m: Registry)
    requires Arrived(r, dom, {}, m)
    ensures forall e :: e in m.bound <==> e in r.bound || Arrives(r, dom, e)
  {
    forall e ensures ArrivingEvent(r, dom, {}, e) <==> Arrives(r, dom, e) {
      if Arrives(r, dom, e) {
        var i :| i in r.pending && i in dom && r.pending[i].event == e;
        assert Arriving(r, dom, {}, i);
      }
    }
  }

  lemma FlushedIds(r: Registry, dom: set<string>, m: Registry, t: Registry, id: string)
    requires Wired(r) && Arrived(r, dom, {}, m) && Dropped(m.(pending := map[]), dom, {}, t)
    ensures id in t.dynamicIds <==> (id in r.dynamicIds || id in r.pending) && id in dom
    ensures FlushedAction(r, dom, t, id)
  {
  }

  lemma FlushOfParts(r: Registry, dom: set<string>, m: Registry, t: Registry)
    requires Wired(r) && !r.flushQueued && Arrived(r, dom, {}, m) && Dropped(m.(pending := map[]), dom, {}, t)
    ensures Flushes(r, true, dom, t)
  {
    FlushedEvents(r, dom, m);
    forall id ensures FlushedAction(r, dom, t, id) && (id in t.dynamicIds <==> (id in r.dynamicIds || id in r.pending) && id in dom) {
      FlushedIds(r, dom, m, t, id);
    }
  }

  // That a flush was queued makes no difference to what it does.
  lemma FlushQueuedOrNot(r: Registry, dom: set<string>, t: Registry)
    requires Flushes(r.(flushQueued := false), true, dom, t)
    ensures Flushes(r, true, dom, t)
  {
    forall id ensures FlushedAction(r, dom, t, id) {
      assert FlushedAction(r.(flushQueued := false), dom, t, id);
    }
    forall e ensures Arrives(r, dom, e) <==> Arrives(r.(flushQueued := false), dom, e) {
    }
  }

  // ---- the script's own variables, changed by its synchronous functions ----

  class Navigation {
    var authorized: bool
    var activated: bool
    var promise: Option<nat>
    var epoch: nat
    var fingerprint: Option<string>
    var revalidating: Option<nat>
    var bound: set<Event>
    var actions: map<string, Binding>
    var pending: map<string, Binding>
    var dynamicIds: set<string>
    var observing: bool
    var flushQueued: bool
    var sequence: nat

    ghost function Variables(): Session
      reads this
    {
      Session(authorized, activated, promise, epoch, fingerprint, revalidating)
    }

    ghost function Actions(): Registry
      reads this
    {
      Registry(bound, actions, pending, dynamicIds, observing, flushQueued, sequence)
    }

    constructor ()
      ensures Variables() == START.v && Actions() == START.registry
    {
      authorized, activated, promise, epoch, fingerprint, revalidating := false, false, None, 0, None, None;
      bound, actions, pending, dynamicIds, observing, flushQueued, sequence := {}, map[], map[], {}, false, false, 0;
    }

    method ClearRegistry()
      modifies this`bound, this`actions, this`pending, this`dynamicIds, this`observing
      ensures Actions() == old(Emptied(Actions()))
    {
      observing := false;
      bound, actions, pending, dynamicIds := {}, map[], map[], {};
    }

    method ResetActions()
      modifies this
      ensures Variables() == old(Forgotten(Variables())) && Actions() == old(Emptied(Actions()))
    {
      ClearRegistry();
      authorized, activated, promise, fingerprint := false, false, None, None;
      epoch := epoch + 1;
    }

    method EnsureEvent(event: Event) returns (ok: bool)
      modifies this`bound
      ensures ok == (authorized && Business(event))
      ensures bound == if ok then old(bound) + {event} else old(bound)
    {
      if !authorized || event.OtherEvent? { return false; }
      if event !in bound { bound := bound + {event}; }
      return true;
    }

    method RegisterAction(id: string, binding: Binding) returns (ok: bool)
      modifies this`actions, this`bound
      ensures ok == MayRegister(authorized, id, binding)
      ensures Actions() == Registered(old(Actions()), authorized, id, binding)
    {
      if !authorized || !ValidId(id) || binding.event.OtherEvent? { return false; }
      actions := actions[id := binding];
      ok := EnsureEvent(binding.event);
    }

    method RegisterDynamicAction(handlerId: string, binding: Binding) returns (id: Option<string>)
      modifies this`sequence, this`pending, this`flushQueued
      ensures id == if MayRegister(authorized, handlerId, binding) then Some(DynamicId(handlerId, sequence)) else None
      ensures Actions() == DynamicallyRegistered(old(Actions()), authorized, handlerId, binding)
    {
      if !authorized || !ValidId(handlerId) || binding.event.OtherEvent? { return None; }
      sequence := sequence + 1;
      pending := pending[DynamicId(handlerId, sequence) := binding];
      flushQueued := true;
      return Some(DynamicId(handlerId, sequence));
    }

    method Arrive(id: string)
      requires authorized && id in pending && ValidId(id) && Business(pending[id].event)
      modifies this`actions, this`bound, this`dynamicIds
      ensures Actions() == old(Actions()).(actions := old(actions)[id := pending[id]], bound := old(bound) + {pending[id].event},
                                           dynamicIds := old(dynamicIds) + {id})
    {
      var ok := RegisterAction(id, pending[id]);
      dynamicIds := dynamicIds + {id};
    }

    method RegisterPending(dom: set<string>)
      requires authorized && Wired(Actions())
      modifies this`actions, this`bound, this`dynamicIds
      ensures Arrived(old(Actions()), dom, {}, Actions())
    {
      ghost var before := Actions();
      var todo := pending.Keys;
      while todo != {}
        invariant todo <= pending.Keys && Arrived(before, dom, todo, Actions())
        decreases |todo|
      {
        var id :| id in todo;
        ghost var was := Actions();
        if id in dom { Arrive(id); }
        ArriveOne(before, dom, todo, was, id, Actions());
        todo := todo - {id};
      }
    }

    method DropVanished(dom: set<string>)
      modifies this`actions, this`dynamicIds
      ensures Dropped(old(Actions()), dom, {}, Actions())
    {
      ghost var before := Actions();
      var todo := dynamicIds;
      while todo != {}
        invariant todo <= before.dynamicIds && Dropped(before, dom, todo, Actions())
        decreases |todo|
      {
        var id :| id in todo;
        if id !in dom {
          actions := actions - {id};
          dynamicIds := dynamicIds - {id};
        }
        todo := todo - {id};
      }
    }

    method FlushDynamicActions(dom: set<string>)
      requires Wired(Actions())
      modifies this
      ensures Variables() == old(Variables())
      ensures Flushes(old(Actions()), authorized, dom, Actions())
    {
      flushQueued := false;
      if !authorized {
        pending := map[];
        return;
      }
      RegisterPending(dom);
      ghost var middle := Actions();
      pending := map[];
      DropVanished(dom);
      FlushOfParts(old(Actions()).(flushQueued := false), dom, middle, Actions());
      FlushQueuedOrNot(old(Actions()), dom, Actions());
    }

    // The handler an event reaches: the one bound, for this event, to the nearest element on the path that has
    // one; and none at all unless authorized.
    method DispatchAction(event: Event, path: seq<Option<string>>) returns (handler: Option<nat>)
      ensures handler.Some? <==> authorized && exists i :: 0 <= i < |path| && Binds(path[i], event)
      ensures handler.Some? ==> exists i :: 0 <= i < |path| && Binds(path[i], event)
                                            && handler.value == actions[path[i].value].handler
                                            && forall j :: 0 <= j < i ==> !Binds(path[j], event)
    {
      if !authorized { return None; }
      var i := 0;
      while i < |path|
        invariant 0 <= i <= |path| && forall j :: 0 <= j < i ==> !Binds(path[j], event)
      {
        if Binds(path[i], event) { return Some(actions[path[i].value].handler); }
        i := i + 1;
      }
      return None;
    }

    predicate Binds(id: Option<string>, event: Event)
      reads this
    {
      id.Some? && id.value != "" && id.value in actions && actions[id.value].event == event
    }

    // The synchronous part of revalidateAuthorization and of the listeners that call it; `next` is the guard it starts.
    method RevalidateAuthorization(event: PageEvent, next: nat) returns (started: bool)
      modifies this`authorized, this`revalidating
      ensures started == old(Withdraws(Variables(), event))
      ensures Variables() == if started then old(Variables()).(authorized := false, revalidating := Some(next))
                             else old(Variables())
    {
      if event.Storage? && event.key.Some? && event.key.value !in CREDENTIALS { return false; }
      if fingerprint.None? || (event.PageShow? && !event.persisted) { return false; }
      if revalidating.Some? { return false; }
      authorized := false;
      revalidating := Some(next);
      return true;
    }
  }
}
