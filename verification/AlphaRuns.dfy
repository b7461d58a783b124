// One Alpha Workflow run from its creation on: the request identity it carries, completion, failure, cancel and
// recovery (backend/alpha_workflow/service.py, context.py).
module AlphaRuns {
  import opened Options
  import opened Text

  // ---- request identities ----

  datatype Identity = Identity(input: string, scenario: string)

  const DEFAULT_SCENARIO := "apple_latest_ai_strategy"

  function RequestIdentity(input: string, scenario: Option<string>): Identity {
    Identity(Strip(input), Strip(if scenario.None? || scenario.value == "" then DEFAULT_SCENARIO else scenario.value))
  }

  // Digests are injective; Malformed is stored text that is no digest at all.
  datatype Digest<T> = Sha(value: T) | Malformed

  // What a successful recovery leaves in the context: its identity, the digest of it, and its trace.
  datatype RecoveryMark = RecoveryMark(reason: string, digest: Digest<string>, trace: string)

  // linked_ids of a context that parses, and its trace. The request is None where the stored value is no
  // dictionary of exactly the two texts.
  datatype Context = Context(request: Option<Identity>, requestDigest: Option<Digest<Identity>>,
                             recovery: Option<RecoveryMark>, trace: string)

  // _run_matches_request on a stored context, None being one that does not parse.
  predicate RunMatches(stored: Option<Context>, identity: Identity) {
    && stored.Some? && stored.value.request.Some?
    && var request := stored.value.request.value;
       && request.input != "" && request.scenario != ""
       && request == RequestIdentity(request.input, Some(request.scenario))
       && stored.value.requestDigest.Some? && stored.value.requestDigest.value.Sha?
       && Sha(request) == stored.value.requestDigest.value
       && request == identity
       && Sha(identity) == stored.value.requestDigest.value
  }

  // Normalised, and nothing empty.
  predicate WellFormed(i: Identity) {
    i.input != "" && i.scenario != "" && Trimmed(i.input) && Trimmed(i.scenario)
  }

  // A stored context answers exactly the one identity it was written with, and only a well-formed one.
  lemma MatchesOnlyItsIdentity(stored: Option<Context>, identity: Identity)
    ensures RunMatches(stored, identity) <==>
            && stored.Some? && stored.value.request == Some(identity) && stored.value.requestDigest == Some(Sha(identity))
            && WellFormed(identity)
  {
    StripTrims(identity.input);
    StripTrims(identity.scenario);
  }

  // Normalising an identity again changes nothing exactly when its scenario is not empty. A scenario of blanks
  // only is stripped to nothing, and nothing is then read as the default.
  lemma NormalisedTwice(input: string, scenario: Option<string>)
    ensures var i := RequestIdentity(input, scenario);
            RequestIdentity(i.input, Some(i.scenario)) == i <==> i.scenario != ""
  {
    StripTrims(input);
    StripTrims(Strip(input));
    StripTrims(if scenario.None? || scenario.value == "" then DEFAULT_SCENARIO else scenario.value);
    StripTrims(DEFAULT_SCENARIO);
    assert Trimmed(DEFAULT_SCENARIO);
  }

  // ---- traces ----

  // The canonical texts that a trace is digested from; each names its domain.
  datatype Payload = AutoTrace(scope: string, identity: Identity)
                   | OfRecovery(scope: string, run: string, original: string, reason: string)

  predicate HexDigest(text: string) {
    |text| == 64 && forall i :: 0 <= i < 64 ==> '0' <= text[i] <= '9' || 'a' <= text[i] <= 'f'
  }

  const TRACE_MAX_LENGTH := 114

  // The trace of a request; None where the given one is refused.
  function EffectiveTrace(given: Option<string>, scope: string, identity: Identity, sha: Payload -> string): Option<string> {
    match given
    case None => Some("auto-" + sha(AutoTrace(scope, identity)))
    case Some(text) => if Strip(text) == "" || |Strip(text)| > TRACE_MAX_LENGTH then None else Some(Strip(text))
  }

  // The digests of these two texts are equal only if the texts are.
  ghost predicate Distinct(sha: Payload -> string, a: Payload, b: Payload) {
    sha(a) == sha(b) ==> a == b
  }

  // Without a trace of their own, two requests of one scope get the same one exactly when they are the same request.
  lemma AutoTracesAgree(scope: string, a: Identity, b: Identity, sha: Payload -> string)
    requires Distinct(sha, AutoTrace(scope, a), AutoTrace(scope, b))
    ensures EffectiveTrace(None, scope, a, sha) == EffectiveTrace(None, scope, b, sha) <==> a == b
  {
    SamePrefix("auto-", sha(AutoTrace(scope, a)), sha(AutoTrace(scope, b)));
  }

  // A trace that is given is taken without the blanks around it, unless there is nothing else in it or more than 114
  // characters are left; where none is given the request gets the digest of its scope and identity.
  lemma TraceVerdict(given: Option<string>, scope: string, identity: Identity, sha: Payload -> string)
    ensures var t := EffectiveTrace(given, scope, identity, sha);
            match given
            case None => t == Some("auto-" + sha(AutoTrace(scope, identity)))
            case Some(text) => t == (if 0 < |Strip(text)| <= 114 then Some(Strip(text)) else None)
                               && (t.Some? ==> Trimmed(t.value) && Strip(t.value) == t.value)
  {
    if given.Some? {
      StripTrims(given.value);
      StripTrims(Strip(given.value));
    }
  }

  // ---- the run's row ----

  datatype Status = Running | Completed | Failed | Cancelled | Paused | Terminated

  datatype Recovery = NoRecovery | Awaiting | Recovered | RecoveryCancelled

  datatype Code = StageEvent | CompletedEvent | FailedEvent | RecoveredEvent

  datatype Row = Row(status: Status, recovery: Recovery, reason: string, context: Option<Context>, events: seq<Code>)

  // Scope and identity of the run, which no operation changes, and the digest in use.
  datatype Key = Key(scope: string, run: string, trace: string, sha: Payload -> string)

  function RecoveryPayload(key: Key, reason: string): Payload {
    OfRecovery(key.scope, key.run, key.trace, Strip(reason))
  }

  function RecoveryTrace(key: Key, reason: string): string {
    "recovery-" + key.sha(RecoveryPayload(key, reason))
  }

  function MarkOf(key: Key, reason: string): RecoveryMark {
    RecoveryMark(Strip(reason), Sha(Strip(reason)), RecoveryTrace(key, reason))
  }

  datatype Reply = Answered | Conflict | Refused

  // recover_alpha_workflow: the reply, given the row it decides on.
  function RecoverReply(seen: Row, key: Key, reason: string, enabled: bool): Reply {
    if seen.recovery == Recovered then
      if seen.context.Some? && seen.context.value.recovery == Some(MarkOf(key, reason)) then Answered else Conflict
    else if seen.status !in {Failed, Paused} || !enabled then Refused
    else Answered
  }

  predicate Recovers(seen: Row, key: Key, reason: string, enabled: bool) {
    seen.recovery != Recovered && RecoverReply(seen, key, reason, enabled) == Answered
  }

  // A context that does not parse is rebuilt without linked ids.
  function RecoveredContext(context: Option<Context>, key: Key, reason: string): Context {
    var base := if context.Some? then context.value else Context(None, None, None, key.trace);
    base.(recovery := Some(MarkOf(key, reason)), trace := RecoveryTrace(key, reason))
  }

  function RecoveredRow(r: Row, context: Option<Context>, key: Key, reason: string): Row {
    Row(Completed, Recovered, r.reason, Some(RecoveredContext(context, key, reason)), r.events + [RecoveredEvent])
  }

  // What a recovery that decides on `seen` makes of the stored run. The row is read before the lock is taken and
  // asked for again under it, and a session may answer the second time with the row it already holds.
  function RecoverRow(r: Row, seen: Row, key: Key, reason: string, enabled: bool): Row {
    if Recovers(seen, key, reason, enabled) then RecoveredRow(r, seen.context, key, reason) else r
  }

  predicate Ended(r: Row) {
    r.status in {Completed, Failed, Cancelled, Terminated}
  }

  // Cancelling takes no lock at all.
  function CancelRow(r: Row, seen: Row, reason: string): Row {
    if Ended(seen) then r
    else r.(status := Cancelled, recovery := RecoveryCancelled, events := r.events + [FailedEvent],
            reason := if reason == "" then "Alpha Workflow 已取消" else reason)
  }

  // ---- the life of a run ----

  // The request that is inside the pipeline, with its context in memory; `finished` after the final commit.
  datatype Flight = Flight(context: Context, finished: bool)

  // seen: the run as each request to cancel or recover has read it.
  datatype State = State(row: Option<Row>, flight: Option<Flight>, seen: seq<Row>)

  const START := State(None, None, [])

  datatype Action =
    | Start
    | Progress(writesContext: bool)   // a commit of the pipeline before the final one
    | Finish
    | Return                          // the response, also the answer without compensation
    | Fail(reason: string)
    | Crash
    | Look                            // a request to cancel or recover reads the run
    | Cancel(read: nat, reason: string)
    | Recover(read: nat, reason: string, enabled: bool)
    | Damage                          // something else overwrites the stored context with text that does not parse

  function NewContext(key: Key, identity: Identity): Context {
    Context(Some(identity), Some(Sha(identity)), None, key.trace)
  }

  function Next(s: State, a: Action, key: Key, identity: Identity): State {
    match a
    case Start =>
      if s.row.Some? then s
      else s.(row := Some(Row(Running, NoRecovery, "", Some(NewContext(key, identity)), [])),
              flight := Some(Flight(NewContext(key, identity), false)))
    case Progress(writes) =>
      if s.row.None? || s.flight.None? || s.flight.value.finished then s
      else s.(row := Some(s.row.value.(events := s.row.value.events + [StageEvent],
                                       context := if writes then Some(s.flight.value.context) else s.row.value.context)))
    case Finish =>
      if s.row.None? || s.flight.None? || s.flight.value.finished then s
      else s.(row := Some(s.row.value.(status := Completed, context := Some(s.flight.value.context),
                                       events := s.row.value.events + [CompletedEvent])),
              flight := Some(s.flight.value.(finished := true)))
    case Return => s.(flight := None)
    case Fail(reason) =>
      if s.row.None? || s.flight.None? then s
      else s.(row := Some(Row(Failed, Awaiting, reason, Some(s.flight.value.context), s.row.value.events + [FailedEvent])),
              flight := None)
    case Crash => s.(flight := None)
    case Look => if s.row.None? then s else s.(seen := s.seen + [s.row.value])
    case Cancel(i, reason) =>
      if s.row.None? || i >= |s.seen| then s else s.(row := Some(CancelRow(s.row.value, s.seen[i], reason)))
    case Recover(i, reason, enabled) =>
      if s.row.None? || i >= |s.seen| then s else s.(row := Some(RecoverRow(s.row.value, s.seen[i], key, reason, enabled)))
    case Damage => if s.row.None? then s else s.(row := Some(s.row.value.(context := None)))
  }

  function After(actions: seq<Action>, key: Key, identity: Identity): State {
    if actions == [] then START
    else Next(After(actions[..|actions| - 1], key, identity), actions[|actions| - 1], key, identity)
  }

  // A commit on a recovered run by a request that read it before the recovery, when it could still be cancelled
  // or recovered.
  predicate Overtaken(s: State, a: Action, key: Key) {
    && s.row.Some? && s.row.value.recovery == Recovered
    && match a
       case Cancel(i, _) => i < |s.seen| && !Ended(s.seen[i])
       case Recover(i, reason, enabled) => i < |s.seen| && Recovers(s.seen[i], key, reason, enabled)
       case _ => false
  }

  predicate InOrder(actions: seq<Action>, key: Key, identity: Identity) {
    actions == [] || (InOrder(actions[..|actions| - 1], key, identity)
                      && !Overtaken(After(actions[..|actions| - 1], key, identity), actions[|actions| - 1], key))
  }

  function Count(events: seq<Code>, code: Code): nat {
    if events == [] then 0 else Count(events[..|events| - 1], code) + if events[|events| - 1] == code then 1 else 0
  }

  lemma CountAppend(events: seq<Code>, e: Code, code: Code)
    ensures Count(events + [e], code) == Count(events, code) + if e == code then 1 else 0
  {
    assert (events + [e])[..|events|] == events;
  }

  // The recovered event is there exactly in a recovered run.
  ghost predicate EventAgrees(r: Row) {
    Count(r.events, RecoveredEvent) == if r.recovery == Recovered then 1 else 0
  }

  predicate KnownStatus(r: Row) {
    r.status !in {Paused, Terminated} && (r.recovery == Recovered ==> r.status == Completed)
  }

  // A run in flight is running, cancelled or finished, and has been since it started: nobody has read it failed,
  // so nobody recovers it.
  predicate Recoverless(r: Row) {
    r.status in {Running, Cancelled, Completed} && r.recovery in {NoRecovery, RecoveryCancelled}
  }

  ghost predicate Steady(s: State) {
    && (s.row.None? ==> s.flight.None? && s.seen == [])
    && (s.row.Some? ==> KnownStatus(s.row.value))
    && (forall i :: 0 <= i < |s.seen| ==> KnownStatus(s.seen[i]))
    && (s.row.Some? && s.flight.Some? ==>
          Recoverless(s.row.value) && forall i :: 0 <= i < |s.seen| ==> Recoverless(s.seen[i]))
  }

  lemma SteadyNext(s: State, a: Action, key: Key, identity: Identity)
    requires Steady(s)
    ensures Steady(Next(s, a, key, identity))
  {
  }

  lemma {:induction false} SteadyAfter(actions: seq<Action>, key: Key, identity: Identity)
    ensures Steady(After(actions, key, identity))
  {
    if actions == [] {
    } else {
      SteadyAfter(actions[..|actions| - 1], key, identity);
      SteadyNext(After(actions[..|actions| - 1], key, identity), actions[|actions| - 1], key, identity);
    }
  }

  // ---- the request that is inside the pipeline ----

  // A run starts running, with its request in the stored context. Only the request inside the pipeline moves it on:
  // stage by stage, to its completion, or to a failure that awaits recovery, its context in memory written back. Once
  // that request has returned, failed or crashed, nothing of the pipeline touches the run any more.
  lemma PipelineVerdict(s: State, a: Action, key: Key, identity: Identity)
    requires s.row.None? ==> s.flight.None?
    requires a in {Start, Progress(true), Progress(false), Finish, Return, Crash} || a.Fail?
    ensures var t := Next(s, a, key, identity);
            if s.row.None? then
              var context := Context(Some(identity), Some(Sha(identity)), None, key.trace);
              t == if a.Start? then State(Some(Row(Running, NoRecovery, "", Some(context), [])), Some(Flight(context, false)), s.seen)
                   else s
            else if s.flight.None? then t == s
            else
              var r, c, open := s.row.value, s.flight.value.context, !s.flight.value.finished;
              match a
              case Progress(writes) =>
                t == if open then State(Some(r.(context := if writes then Some(c) else r.context, events := r.events + [StageEvent])),
                                        s.flight, s.seen) else s
              case Finish =>
                t == if open then State(Some(Row(Completed, r.recovery, r.reason, Some(c), r.events + [CompletedEvent])),
                                        Some(Flight(c, true)), s.seen) else s
              case Fail(reason) => t == State(Some(Row(Failed, Awaiting, reason, Some(c), r.events + [FailedEvent])), None, s.seen)
              case Start => t == s
              case _ => t == State(s.row, None, s.seen)
  {
  }

  ghost predicate Completing(s: State) {
    s.row.Some? ==>
      var r, n := s.row.value, Count(s.row.value.events, CompletedEvent);
      && n <= 1 && (r.status == Completed && r.recovery != Recovered ==> n == 1)
      && (s.flight.Some? ==> n == if s.flight.value.finished then 1 else 0)
  }

  lemma CompletingNext(s: State, a: Action, key: Key, identity: Identity)
    requires Steady(s) && Completing(s)
    ensures Completing(Next(s, a, key, identity))
  {
    if s.row.Some? {
      forall e { CountAppend(s.row.value.events, e, CompletedEvent); }
    }
  }

  // In every run there is at most one completed event, and one whenever the run is completed without a recovery.
  lemma {:induction false} CompletedOnce(actions: seq<Action>, key: Key, identity: Identity)
    ensures Completing(After(actions, key, identity))
  {
    if actions == [] {
    } else {
      CompletedOnce(actions[..|actions| - 1], key, identity);
      SteadyAfter(actions[..|actions| - 1], key, identity);
      CompletingNext(After(actions[..|actions| - 1], key, identity), actions[|actions| - 1], key, identity);
    }
  }

  // ---- recovery ----

  lemma LoggedAgrees(r: Row, t: Row, e: Code)
    requires EventAgrees(r) && t.events == r.events + [e] && e != RecoveredEvent
    requires t.recovery == Recovered <==> r.recovery == Recovered
    ensures EventAgrees(t)
  {
    CountAppend(r.events, e, RecoveredEvent);
  }

  // A recovery keeps the agreement exactly unless the run was recovered since its read; it then adds a second event.
  lemma RecoverAgrees(r: Row, seen: Row, key: Key, reason: string, enabled: bool)
    requires EventAgrees(r)
    ensures EventAgrees(RecoverRow(r, seen, key, reason, enabled)) <==> !(r.recovery == Recovered && Recovers(seen, key, reason, enabled))
    ensures r.recovery == Recovered && Recovers(seen, key, reason, enabled) ==>
              Count(RecoverRow(r, seen, key, reason, enabled).events, RecoveredEvent) == 2
  {
    CountAppend(r.events, RecoveredEvent, RecoveredEvent);
  }

  lemma CancelAgrees(r: Row, seen: Row, reason: string)
    requires EventAgrees(r)
    ensures EventAgrees(CancelRow(r, seen, reason)) <==> !(r.recovery == Recovered && !Ended(seen))
  {
    CountAppend(r.events, FailedEvent, RecoveredEvent);
  }

  // Whatever the action, the agreement lasts exactly unless it commits on a read the recovery has overtaken.
  lemma AgreesNext(s: State, a: Action, key: Key, identity: Identity)
    requires Steady(s) && s.row.Some? && EventAgrees(s.row.value)
    ensures var t := Next(s, a, key, identity); t.row.Some? && (EventAgrees(t.row.value) <==> !Overtaken(s, a, key))
  {
    var t := Next(s, a, key, identity);
    match a
    case Progress(_) => if t != s { LoggedAgrees(s.row.value, t.row.value, StageEvent); }
    case Finish => if t != s { LoggedAgrees(s.row.value, t.row.value, CompletedEvent); }
    case Fail(_) => if t != s { LoggedAgrees(s.row.value, t.row.value, FailedEvent); }
    case Cancel(i, reason) => if i < |s.seen| { CancelAgrees(s.row.value, s.seen[i], reason); }
    case Recover(i, reason, enabled) => if i < |s.seen| { RecoverAgrees(s.row.value, s.seen[i], key, reason, enabled); }
    case _ =>
  }

  lemma {:induction false} AgreesAfter(actions: seq<Action>, key: Key, identity: Identity)
    requires InOrder(actions, key, identity)
    ensures var s := After(actions, key, identity); s.row.Some? ==> EventAgrees(s.row.value)
  {
    if actions == [] {
    } else {
      var s, a := After(actions[..|actions| - 1], key, identity), actions[|actions| - 1];
      AgreesAfter(actions[..|actions| - 1], key, identity);
      SteadyAfter(actions[..|actions| - 1], key, identity);
      if s.row.Some? { AgreesNext(s, a, key, identity); }
    }
  }

  // Over any run of start, pipeline, cancel and recover steps in which no request commits on a read that a recovery
  // has overtaken, there is at most one workflow_recovered event, exactly in a recovered run. The first request
  // that does commit so adds a second event, or cancels the recovered run.
  lemma RecoveredAtMostOnce(actions: seq<Action>, a: Action, key: Key, identity: Identity)
    requires InOrder(actions, key, identity) && After(actions, key, identity).row.Some?
    ensures var r := After(actions, key, identity).row.value;
            Count(r.events, RecoveredEvent) <= 1 && (Count(r.events, RecoveredEvent) == 1 <==> r.recovery == Recovered)
    ensures Overtaken(After(actions, key, identity), a, key) ==>
              var t := Next(After(actions, key, identity), a, key, identity).row.value;
              if a.Recover? then Count(t.events, RecoveredEvent) == 2 else t.recovery == RecoveryCancelled
  {
    AgreesAfter(actions, key, identity);
    var s := After(actions, key, identity);
    if a.Recover? && a.read < |s.seen| { RecoverAgrees(s.row.value, s.seen[a.read], key, a.reason, a.enabled); }
  }

  // From a recovered run, a step changes the row exactly if it is such a commit or damages the stored context.
  lemma RecoveredStays(actions: seq<Action>, a: Action, key: Key, identity: Identity)
    requires After(actions, key, identity).row.Some? && After(actions, key, identity).row.value.recovery == Recovered
    requires a != Damage
    ensures var s := After(actions, key, identity);
            Next(s, a, key, identity).row == s.row <==> !Overtaken(s, a, key)
  {
    SteadyAfter(actions, key, identity);
    var s := After(actions, key, identity);
    if Overtaken(s, a, key) {
      assert |Next(s, a, key, identity).row.value.events| == |s.row.value.events| + 1;
    }
  }

  lemma {:induction false} RecoveredIsForever(actions: seq<Action>, more: seq<Action>, key: Key, identity: Identity)
    requires After(actions, key, identity).row.Some? && After(actions, key, identity).row.value.recovery == Recovered
    requires InOrder(actions + more, key, identity)
    ensures var r, t := After(actions, key, identity).row.value, After(actions + more, key, identity).row;
            t.Some? && (t == Some(r) || (Damage in more && t == Some(r.(context := None))))
  {
    if more == [] {
      assert actions + more == actions;
    } else {
      var shorter, last := more[..|more| - 1], more[|more| - 1];
      assert (actions + more)[..|actions + more| - 1] == actions + shorter;
      RecoveredIsForever(actions, shorter, key, identity);
      if last != Damage { RecoveredStays(actions + shorter, last, key, identity); }
      assert Damage in shorter ==> Damage in more;
    }
  }

  function FailedRun(key: Key, identity: Identity): Row {
    Row(Failed, Awaiting, "", Some(NewContext(key, identity)), [FailedEvent])
  }

  function RunningRun(key: Key, identity: Identity): Row {
    Row(Running, NoRecovery, "", Some(NewContext(key, identity)), [])
  }

  // One request has read the run while it was running; then it fails.
  lemma FailedAfterRead(key: Key, identity: Identity) returns (actions: seq<Action>)
    ensures InOrder(actions, key, identity)
    ensures After(actions, key, identity) == State(Some(FailedRun(key, identity)), None, [RunningRun(key, identity)])
  {
    var flight := Some(Flight(NewContext(key, identity), false));
    var s1 := State(Some(RunningRun(key, identity)), flight, []);
    var s2 := State(s1.row, flight, [RunningRun(key, identity)]);
    assert RunningRun(key, identity).events + [FailedEvent] == [FailedEvent];
    actions := Then([], START, Start, s1, key, identity);
    actions := Then(actions, s1, Look, s2, key, identity);
    actions := Then(actions, s2, Fail(""), State(Some(FailedRun(key, identity)), None, s2.seen), key, identity);
  }

  // The two commits, in one run up to its last step: a request read the run while it was running, and two read
  // it failed; one of these recovers it.
  lemma OvertakenRuns(key: Key, identity: Identity, reason: string) returns (actions: seq<Action>)
    ensures InOrder(actions, key, identity)
    ensures Overtaken(After(actions, key, identity), Cancel(0, reason), key)
    ensures Overtaken(After(actions, key, identity), Recover(2, reason, true), key)
  {
    actions := FailedAfterRead(key, identity);
    var failed := FailedRun(key, identity);
    var s3 := State(Some(failed), None, [RunningRun(key, identity)]);
    var s5 := s3.(seen := s3.seen + [failed] + [failed]);
    actions := Then(actions, s3, Look, s3.(seen := s3.seen + [failed]), key, identity);
    actions := Then(actions, s3.(seen := s3.seen + [failed]), Look, s5, key, identity);
    actions := Then(actions, s5, Recover(1, reason, true), Next(s5, Recover(1, reason, true), key, identity), key, identity);
  }

  lemma Then(actions: seq<Action>, s: State, a: Action, t: State, key: Key, identity: Identity) returns (longer: seq<Action>)
    requires After(actions, key, identity) == s && Next(s, a, key, identity) == t
    requires InOrder(actions, key, identity) && !Overtaken(s, a, key)
    ensures longer == actions + [a] && After(longer, key, identity) == t && InOrder(longer, key, identity)
  {
    longer := actions + [a];
    assert longer[..|longer| - 1] == actions;
  }

  // The recovery that succeeded with `reason` is answered again, with nothing changed, exactly for the reasons
  // that strip to the same text; every other reason conflicts and changes nothing either.
  lemma RecoveryIsIdempotent(r: Row, key: Key, reason: string, other: string, enabled: bool, later: bool)
    requires Recovers(r, key, reason, enabled)
    ensures var t := RecoverRow(r, r, key, reason, enabled);
            && RecoverReply(t, key, other, later) == (if Strip(other) == Strip(reason) then Answered else Conflict)
            && RecoverRow(t, t, key, other, later) == t
  {
  }

  // However many steps come in between, the reason a run was recovered with is answered and any other conflicts.
  lemma RecoveryIsAnsweredForever(actions: seq<Action>, i: nat, reason: string, more: seq<Action>, other: string,
                                  enabled: bool, key: Key, identity: Identity)
    requires var s := After(actions, key, identity);
             s.row.Some? && i < |s.seen| && Recovers(s.seen[i], key, reason, true)
    requires InOrder(actions + [Recover(i, reason, true)] + more, key, identity) && Damage !in more
    ensures var t := After(actions + [Recover(i, reason, true)] + more, key, identity).row;
            t.Some? && RecoverReply(t.value, key, other, enabled) == (if Strip(other) == Strip(reason) then Answered else Conflict)
  {
    var recovered := actions + [Recover(i, reason, true)];
    assert recovered[..|recovered| - 1] == actions;
    RecoveredIsForever(recovered, more, key, identity);
  }

  // Two recoveries have the same trace exactly when they recover the same run for the same stripped reason,
  // whatever the lengths of digests: what precedes them is fixed.
  lemma RecoveryTraceIdentifies(key: Key, reason: string, other: Key, otherReason: string)
    requires other.sha == key.sha && Distinct(key.sha, RecoveryPayload(key, reason), RecoveryPayload(other, otherReason))
    ensures RecoveryTrace(key, reason) == RecoveryTrace(other, otherReason) <==>
            key.scope == other.scope && key.run == other.run && key.trace == other.trace && Strip(reason) == Strip(otherReason)
  {
    SamePrefix("recovery-", key.sha(RecoveryPayload(key, reason)), key.sha(RecoveryPayload(other, otherReason)));
  }

  // A recovery returns its trace, and a client may start a run with any text of up to 114 characters. So a run
  // gets a recovery's trace exactly when a client asked for that text, blanks around it aside; never on its own.
  lemma RecoveryTraceAsRunTrace(key: Key, reason: string, given: Option<string>, scope: string, identity: Identity)
    requires HexDigest(key.sha(RecoveryPayload(key, reason)))
    ensures EffectiveTrace(given, scope, identity, key.sha) == Some(RecoveryTrace(key, reason)) <==>
            given.Some? && Strip(given.value) == RecoveryTrace(key, reason)
    ensures Strip(RecoveryTrace(key, reason)) == RecoveryTrace(key, reason)
  {
    var t := RecoveryTrace(key, reason);
    assert t[0] == 'r' && t[|t| - 1] == key.sha(RecoveryPayload(key, reason))[63];
    StripTrims(t);
    if given.None? { assert EffectiveTrace(given, scope, identity, key.sha).value[0] == 'a'; }
  }

  // The request that collides.
  lemma RecoveryTraceCanBeAskedFor(key: Key, reason: string, scope: string, identity: Identity)
    requires HexDigest(key.sha(RecoveryPayload(key, reason)))
    ensures EffectiveTrace(Some(RecoveryTrace(key, reason)), scope, identity, key.sha) == Some(RecoveryTrace(key, reason))
  {
    RecoveryTraceAsRunTrace(key, reason, Some(RecoveryTrace(key, reason)), scope, identity);
  }

  // Whoever may recover a run has read it failed, and a failed run is no longer in flight: compensation never
  // follows a recovery.
  lemma OnlyFailedRunsRecover(actions: seq<Action>, i: nat, key: Key, identity: Identity, reason: string, enabled: bool)
    requires var s := After(actions, key, identity); i < |s.seen| && Recovers(s.seen[i], key, reason, enabled)
    ensures var s := After(actions, key, identity); s.flight.None? && s.seen[i].status == Failed
  {
    SteadyAfter(actions, key, identity);
  }

  // ---- what a request makes of the run it has read ----

  const CANCELLED_REASON := "Alpha Workflow 已取消"

  // A run read as completed, failed, cancelled or terminated is not cancelled; every other one is, whatever is stored
  // by now, for the given reason.
  lemma CancelVerdict(s: State, i: nat, reason: string, key: Key, identity: Identity)
    requires s.row.Some? && i < |s.seen|
    ensures var r := s.row.value;
            Next(s, Cancel(i, reason), key, identity).row ==
            match s.seen[i].status
            case Completed => s.row
            case Failed => s.row
            case Cancelled => s.row
            case Terminated => s.row
            case Running => Some(Row(Cancelled, RecoveryCancelled, if reason == "" then CANCELLED_REASON else reason,
                                     r.context, r.events + [FailedEvent]))
            case Paused => Some(Row(Cancelled, RecoveryCancelled, if reason == "" then CANCELLED_REASON else reason,
                                    r.context, r.events + [FailedEvent]))
  {
  }

  // The request has read a run that it may recover.
  predicate ReadRecoverable(s: State, a: Action) {
    && a.Recover? && a.read < |s.seen| && a.enabled
    && s.seen[a.read].status in {Failed, Paused} && s.seen[a.read].recovery != Recovered
  }

  // A run that may be recovered ends completed, with the stripped reason and its trace in the context that was read;
  // no other is changed.
  lemma RecoverVerdict(s: State, a: Action, key: Key, identity: Identity)
    requires a.Recover? && s.row.Some? && a.read < |s.seen|
    ensures var r, t := s.row.value, Next(s, a, key, identity).row.value;
            var mark := RecoveryMark(Strip(a.reason), Sha(Strip(a.reason)), RecoveryTrace(key, a.reason));
            if !ReadRecoverable(s, a) then t == r
            else && t.status == Completed && t.recovery == Recovered && t.reason == r.reason
                 && t.events == r.events + [RecoveredEvent]
                 && t.context.Some? && t.context.value.recovery == Some(mark) && t.context.value.trace == mark.trace
                 && match s.seen[a.read].context
                    case Some(c) => t.context.value.request == c.request && t.context.value.requestDigest == c.requestDigest
                    case None => t.context.value.request == None && t.context.value.requestDigest == None
  {
  }

  ghost predicate FailedAwaiting(s: State) {
    s.row.Some? && s.row.value.status == Failed && s.row.value.recovery == Awaiting
  }

  // A recovery that read the run failed, or a cancellation that read it before that, while it was running.
  predicate Disturbs(s: State, a: Action) {
    ReadRecoverable(s, a) || (a.Cancel? && a.read < |s.seen| && s.seen[a.read].status == Running)
  }

  // Apart from damage to its context, a failed run is changed exactly by these two.
  lemma FailedStays(actions: seq<Action>, a: Action, key: Key, identity: Identity)
    requires FailedAwaiting(After(actions, key, identity)) && a != Damage
    ensures var s := After(actions, key, identity); Next(s, a, key, identity).row == s.row <==> !Disturbs(s, a)
  {
    SteadyAfter(actions, key, identity);
    var s := After(actions, key, identity);
    if Disturbs(s, a) {
      assert |Next(s, a, key, identity).row.value.events| == |s.row.value.events| + 1;
    }
  }

  ghost predicate Undisturbed(actions: seq<Action>, more: seq<Action>, key: Key, identity: Identity)
    decreases |more|
  {
    more == [] || (&& Undisturbed(actions, more[..|more| - 1], key, identity) && more[|more| - 1] != Damage
                   && !Disturbs(After(actions + more[..|more| - 1], key, identity), more[|more| - 1]))
  }

  // So a failed run stays as it is through all other steps, cancellations that read it failed among them, and whoever
  // then reads it recovers it.
  lemma {:induction false} FailedCanBeRecovered(actions: seq<Action>, more: seq<Action>, reason: string, key: Key, identity: Identity)
    requires FailedAwaiting(After(actions, key, identity)) && Undisturbed(actions, more, key, identity)
    ensures var s, t := After(actions, key, identity), After(actions + more, key, identity);
            && t.row == s.row
            && RecoverReply(t.row.value, key, reason, true) == Answered
            && Next(Next(t, Look, key, identity), Recover(|t.seen|, reason, true), key, identity).row.value.recovery == Recovered
    decreases |more|
  {
    if more == [] {
      assert actions + more == actions;
    } else {
      var shorter, last := more[..|more| - 1], more[|more| - 1];
      assert (actions + more)[..|actions + more| - 1] == actions + shorter;
      FailedCanBeRecovered(actions, shorter, reason, key, identity);
      FailedStays(actions + shorter, last, key, identity);
    }
  }

  // ---- the request identity through the life of the run ----

  ghost predicate Carries(c: Context, identity: Identity) {
    c.request == Some(identity) && c.requestDigest == Some(Sha(identity))
  }

  // The identity is lost only with the context it is stored in.
  ghost predicate RowKeeps(r: Row, identity: Identity, damaged: bool) {
    match r.context
    case None => damaged
    case Some(c) => Carries(c, identity) || (damaged && c.request.None?)
  }

  ghost predicate IdentityKept(s: State, identity: Identity, damaged: bool) {
    && (s.flight.Some? ==> Carries(s.flight.value.context, identity))
    && (s.row.Some? ==> RowKeeps(s.row.value, identity, damaged))
    && forall i :: 0 <= i < |s.seen| ==> RowKeeps(s.seen[i], identity, damaged)
  }

  lemma IdentityNext(s: State, a: Action, key: Key, identity: Identity, damaged: bool)
    requires IdentityKept(s, identity, damaged)
    ensures IdentityKept(Next(s, a, key, identity), identity, damaged || a == Damage)
  {
    if a.Recover? && a.read < |s.seen| { assert RowKeeps(s.seen[a.read], identity, damaged); }
  }

  lemma {:induction false} IdentityAfter(actions: seq<Action>, key: Key, identity: Identity)
    ensures IdentityKept(After(actions, key, identity), identity, Damage in actions)
  {
    if actions == [] {
    } else {
      IdentityAfter(actions[..|actions| - 1], key, identity);
      IdentityNext(After(actions[..|actions| - 1], key, identity), actions[|actions| - 1], key, identity, Damage in actions[..|actions| - 1]);
      assert actions == actions[..|actions| - 1] + [actions[|actions| - 1]];
    }
  }

  // Unless the stored context has been damaged from outside, a run answers its own request in every state
  // (running, completed, failed, cancelled or recovered) and conflicts with every other one.
  lemma SameRequestSameRun(actions: seq<Action>, key: Key, identity: Identity, request: Identity)
    requires After(actions, key, identity).row.Some? && WellFormed(identity) && Damage !in actions
    ensures RunMatches(After(actions, key, identity).row.value.context, request) <==> request == identity
  {
    IdentityAfter(actions, key, identity);
    MatchesOnlyItsIdentity(After(actions, key, identity).row.value.context, request);
  }

  // With damage, no request but its own is ever answered, and none at all once the context is gone or has been
  // rebuilt by a recovery.
  lemma DamagedRunAnswersNoOther(actions: seq<Action>, key: Key, identity: Identity, request: Identity)
    requires After(actions, key, identity).row.Some?
    ensures var r := After(actions, key, identity).row.value;
            RunMatches(r.context, request) <==>
            request == identity && WellFormed(identity) && r.context.Some? && r.context.value.request.Some?
  {
    IdentityAfter(actions, key, identity);
    MatchesOnlyItsIdentity(After(actions, key, identity).row.value.context, request);
  }

  // Recovering a run whose context does not parse loses its request identity for good.
  lemma RecoveryOfDamagedContextForgets(r: Row, key: Key, reason: string, request: Identity)
    requires r.context.None? && Recovers(r, key, reason, true)
    ensures !RunMatches(RecoverRow(r, r, key, reason, true).context, request)
  {
  }

  // ---- recover and cancel on the stored run ----

  // The stored run, and a session's copy of what a request decides on.
  class StoredRun {
    var status: Status
    var recovery: Recovery
    var reason: string
    var context: Option<Context>
    var events: seq<Code>

    ghost function Contents(): Row
      reads this
    {
      Row(status, recovery, reason, context, events)
    }

    constructor (r: Row)
      ensures Contents() == r
    {
      status, recovery, reason, context, events := r.status, r.recovery, r.reason, r.context, r.events;
    }

    method Read() returns (seen: Row)
      ensures seen == Contents()
    {
      seen := Row(status, recovery, reason, context, events);
    }

    method Recover(seen: Row, key: Key, request: string, enabled: bool) returns (reply: Reply)
      modifies this
      ensures reply == RecoverReply(seen, key, request, enabled)
      ensures Contents() == RecoverRow(old(Contents()), seen, key, request, enabled)
      ensures status == (if seen.recovery != Recovered && seen.status in {Failed, Paused} && enabled then Completed
                         else old(status))
      ensures reply == Refused <==> seen.recovery != Recovered && (seen.status !in {Failed, Paused} || !enabled)
      ensures reply == Conflict <==>
                seen.recovery == Recovered && !(seen.context.Some? && seen.context.value.recovery == Some(MarkOf(key, request)))
    {
      var mark := RecoveryMark(Strip(request), Sha(Strip(request)), RecoveryTrace(key, request));
      if seen.recovery == Recovered {
        return if seen.context.Some? && seen.context.value.recovery == Some(mark) then Answered else Conflict;
      }
      if seen.status != Failed && seen.status != Paused { return Refused; }
      if !enabled { return Refused; }
      var rebuilt := if seen.context.Some? then seen.context.value else Context(None, None, None, key.trace);
      context := Some(rebuilt.(trace := mark.trace, recovery := Some(mark)));
      recovery := Recovered;
      status := Completed;
      events := events + [RecoveredEvent];
      return Answered;
    }

    method Cancel(seen: Row, request: string)
      modifies this
      ensures Contents() == CancelRow(old(Contents()), seen, request)
      ensures seen.status in {Completed, Failed, Cancelled, Terminated} ==> Contents() == old(Contents())
      ensures seen.status in {Running, Paused} ==>
                && status == Cancelled && recovery == RecoveryCancelled && context == old(context)
                && reason == (if request == "" then CANCELLED_REASON else request) && events == old(events) + [FailedEvent]
    {
      if seen.status in {Completed, Failed, Cancelled, Terminated} { return; }
      status := Cancelled;
      recovery := RecoveryCancelled;
      reason := if request == "" then "Alpha Workflow 已取消" else request;
      events := events + [FailedEvent];
    }
  }

  // ---- the context object ----

  datatype Span = Span(id: string, parent: string, stage: string, status: string, message: Option<string>)

  datatype StageNote = StageNote(stage: string, status: string, message: Option<string>)

  function NoteOf(s: Span): StageNote {
    StageNote(s.stage, s.status, s.message)
  }

  class AlphaWorkflowContext {
    const rootSpanId: string
    var stepTrace: seq<Span>
    var stageHistory: seq<StageNote>
    var currentStage: string

    // The two lists record the same stages, and the current stage is the last of them.
    ghost predicate Valid()
      reads this
    {
      && |stageHistory| == |stepTrace|
      && (forall i :: 0 <= i < |stepTrace| ==> stageHistory[i] == NoteOf(stepTrace[i]) && stepTrace[i].parent == rootSpanId)
      && currentStage == if stepTrace == [] then "orchestrator" else stepTrace[|stepTrace| - 1].stage
    }

    constructor (rootSpanId: string)
      ensures Valid() && stepTrace == [] && this.rootSpanId == rootSpanId
    {
      this.rootSpanId, stepTrace, stageHistory, currentStage := rootSpanId, [], [], "orchestrator";
    }

    method SetStage(stage: string, status: string, message: Option<string>) returns (span: Span)
      requires Valid()
      modifies this
      ensures Valid() && stepTrace == old(stepTrace) + [span]
      ensures span == Span(Numbered(rootSpanId + ":" + stage, ':', |stepTrace|), rootSpanId, stage, status, message)
    {
      span := Span(Numbered(rootSpanId + ":" + stage, ':', |stepTrace| + 1), rootSpanId, stage, status, message);
      stepTrace := stepTrace + [span];
      stageHistory := stageHistory + [StageNote(stage, status, message)];
      currentStage := stage;
    }
  }
}
