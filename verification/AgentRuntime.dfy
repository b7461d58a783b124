// One agent execution: creation, approval, rejection, cancellation and the retrying run, with the audit
// log written beside the row (backend/agent_runtime/service.py, executor.py). A request decides on the row as
// its session read it; a commit writes the columns the session changed over whatever is stored by then.
module AgentRuntime {
  import opened Options
  import opened Text

  datatype Status = PendingValidation | WaitingApproval | WaitingExecution | Running
                  | Success | Failed | Timeout | Cancelled | Rejected

  datatype Approval = NotRequired | Pending | Granted | Refused

  datatype Kind = Created | Approved | RejectedEvent | CancelledEvent | Started | Succeeded | TimedOut | Retry | FailedEvent

  datatype Audit = Audit(kind: Kind, approval: Approval)

  // The columns the operations decide on.
  datatype Columns = Columns(status: Status, approval: Approval, retries: nat)

  // The committed columns and audit rows. `calls` counts the executor calls ever made for the execution,
  // those of attempts that were rolled back included.
  datatype Row = Row(columns: Columns, audits: seq<Audit>, calls: nat)

  datatype ExecutorResult = ExecutorResult(success: bool, timeout: bool, retryable: bool)

  // How one attempt ends. Raises: some exception before the commit, with the executor called or not.
  datatype End = Raises(called: bool) | Returns(result: ExecutorResult)

  // ---- what a session commits ----

  // An UPDATE sets the columns whose value the session changed.
  function WriteBack(now: Columns, seen: Columns, next: Columns): Columns {
    Columns(if next.status != seen.status then next.status else now.status,
            if next.approval != seen.approval then next.approval else now.approval,
            if next.retries != seen.retries then next.retries else now.retries)
  }

  function Commits(r: Row, seen: Columns, next: Columns, events: seq<Audit>): Row {
    Row(WriteBack(r.columns, seen, next), r.audits + events, r.calls)
  }

  function NewColumns(approvalRequired: bool): Columns {
    if approvalRequired then Columns(WaitingApproval, Pending, 0) else Columns(WaitingExecution, NotRequired, 0)
  }

  function NewRow(approvalRequired: bool): Row {
    var c := NewColumns(approvalRequired);
    Row(c, [Audit(Created, c.approval)], 0)
  }

  // ---- approve, reject, cancel ----

  datatype Request = ToApprove | ToReject | ToCancel

  predicate CanApprove(c: Columns) {
    c.status in {WaitingApproval, PendingValidation}
  }

  predicate CanCancel(c: Columns) {
    c.status !in {Success, Failed, Cancelled, Timeout}
  }

  // No status guard on a rejection: any execution can be rejected, a finished one too.
  predicate Allowed(q: Request, seen: Columns) {
    match q
    case ToApprove => CanApprove(seen)
    case ToReject => true
    case ToCancel => CanCancel(seen)
  }

  function Wanted(q: Request, seen: Columns): Columns {
    match q
    case ToApprove => seen.(status := WaitingExecution, approval := Granted)
    case ToReject => seen.(status := Rejected, approval := Refused)
    case ToCancel => seen.(status := Cancelled, approval := if seen.approval.Pending? then Refused else seen.approval)
  }

  function EventOf(q: Request): Kind {
    match q case ToApprove => Approved case ToReject => RejectedEvent case ToCancel => CancelledEvent
  }

  // What a request that has seen `seen` makes of the row.
  function Answered(r: Row, q: Request, seen: Columns): Row {
    if Allowed(q, seen) then Commits(r, seen, Wanted(q, seen), [Audit(EventOf(q), Wanted(q, seen).approval)]) else r
  }

  // ---- attempts ----

  predicate CanRun(c: Columns) {
    c.status in {WaitingExecution, Running}
  }

  predicate Retries(seen: Columns, result: ExecutorResult, maxRetries: int) {
    !result.success && !result.timeout && result.retryable && seen.retries < maxRetries
  }

  predicate WillRetry(seen: Columns, end: End, maxRetries: int) {
    CanRun(seen) && end.Returns? && Retries(seen, end.result, maxRetries)
  }

  function OutcomeOf(seen: Columns, result: ExecutorResult, maxRetries: int): Kind {
    if result.success then Succeeded else if result.timeout then TimedOut
    else if Retries(seen, result, maxRetries) then Retry else FailedEvent
  }

  function Left(seen: Columns, result: ExecutorResult, maxRetries: int): Columns {
    if result.success then seen.(status := Success)
    else if result.timeout then seen.(status := Timeout)
    else if Retries(seen, result, maxRetries) then seen.(status := Running, retries := seen.retries + 1)
    else seen.(status := Failed)
  }

  function AttemptEvents(seen: Columns, result: ExecutorResult, maxRetries: int): seq<Audit> {
    [Audit(Started, seen.approval), Audit(OutcomeOf(seen, result, maxRetries), seen.approval)]
  }

  // The commit of an attempt whose executor has returned.
  function Finished(r: Row, seen: Columns, result: ExecutorResult, maxRetries: int): Row {
    Commits(r, seen, Left(seen, result, maxRetries), AttemptEvents(seen, result, maxRetries))
  }

  // One pass through run_execution_flow up to its commit; an exception leaves the row as committed before.
  function Attempt(r: Row, seen: Columns, end: End, maxRetries: int): Row {
    if !CanRun(seen) then r
    else if end.Raises? then r.(calls := r.calls + if end.called then 1 else 0)
    else Finished(r.(calls := r.calls + 1), seen, end.result, maxRetries)
  }

  // run_execution_flow when nobody else commits: each attempt after the first reads what the last one committed.
  function Flow(r: Row, executor: nat -> End, maxRetries: int): Row
    decreases if r.columns.retries < maxRetries then maxRetries - r.columns.retries else 0
  {
    var end := executor(r.columns.retries);
    var after := Attempt(r, r.columns, end, maxRetries);
    if WillRetry(r.columns, end, maxRetries) then Flow(after, executor, maxRetries) else after
  }

  // Its first attempt decides on what the session has read.
  function FlowOn(r: Row, seen: Columns, executor: nat -> End, maxRetries: int): Row {
    var end := executor(seen.retries);
    var after := Attempt(r, seen, end, maxRetries);
    if WillRetry(seen, end, maxRetries) then Flow(after, executor, maxRetries) else after
  }

  // Whether that ends without an exception.
  predicate FlowReturns(r: Row, executor: nat -> End, maxRetries: int)
    decreases if r.columns.retries < maxRetries then maxRetries - r.columns.retries else 0
  {
    var end := executor(r.columns.retries);
    && CanRun(r.columns) && end.Returns?
    && (WillRetry(r.columns, end, maxRetries) ==> FlowReturns(Attempt(r, r.columns, end, maxRetries), executor, maxRetries))
  }

  predicate FlowOnReturns(r: Row, seen: Columns, executor: nat -> End, maxRetries: int) {
    var end := executor(seen.retries);
    && CanRun(seen) && end.Returns?
    && (WillRetry(seen, end, maxRetries) ==> FlowReturns(Attempt(r, seen, end, maxRetries), executor, maxRetries))
  }

  // ---- the audit log ----

  function ReplayOne(c: Columns, a: Audit): Columns {
    match a.kind
    case Created => Columns(if a.approval.Pending? then WaitingApproval else WaitingExecution, a.approval, 0)
    case Approved => c.(status := WaitingExecution, approval := Granted)
    case RejectedEvent => c.(status := Rejected, approval := Refused)
    case CancelledEvent => c.(status := Cancelled, approval := if c.approval.Pending? then Refused else c.approval)
    case Started => c.(status := Running)
    case Succeeded => c.(status := Success)
    case TimedOut => c.(status := Timeout)
    case Retry => c.(status := Running, retries := c.retries + 1)
    case FailedEvent => c.(status := Failed)
  }

  function Replay(audits: seq<Audit>): Columns {
    if audits == [] then Columns(PendingValidation, NotRequired, 0)
    else ReplayOne(Replay(audits[..|audits| - 1]), audits[|audits| - 1])
  }

  lemma ReplayAppend(audits: seq<Audit>, a: Audit)
    ensures Replay(audits + [a]) == ReplayOne(Replay(audits), a)
  {
    assert (audits + [a])[..|audits|] == audits;
  }

  lemma ReplayAppendTwo(audits: seq<Audit>, a: Audit, b: Audit)
    ensures Replay(audits + [a, b]) == ReplayOne(ReplayOne(Replay(audits), a), b)
  {
    var once := audits + [a];
    assert audits + [a, b] == once + [b];
    ReplayAppend(audits, a);
    ReplayAppend(once, b);
  }

  function Count(audits: seq<Audit>, kind: Kind): nat {
    if audits == [] then 0
    else Count(audits[..|audits| - 1], kind) + if audits[|audits| - 1].kind == kind then 1 else 0
  }

  lemma CountAppend(audits: seq<Audit>, a: Audit, kind: Kind)
    ensures Count(audits + [a], kind) == Count(audits, kind) + if a.kind == kind then 1 else 0
  {
    assert (audits + [a])[..|audits|] == audits;
  }

  lemma CountAppendTwo(audits: seq<Audit>, a: Audit, b: Audit, kind: Kind)
    ensures Count(audits + [a, b], kind) ==
            Count(audits, kind) + (if a.kind == kind then 1 else 0) + (if b.kind == kind then 1 else 0)
  {
    var once := audits + [a];
    assert audits + [a, b] == once + [b];
    CountAppend(audits, a, kind);
    CountAppend(once, b, kind);
  }

  function Ends(audits: seq<Audit>): nat {
    Count(audits, Succeeded) + Count(audits, TimedOut) + Count(audits, FailedEvent)
  }

  predicate TerminalKind(k: Kind) {
    k in {Succeeded, FailedEvent, TimedOut, CancelledEvent, RejectedEvent}
  }

  predicate Terminal(c: Columns) {
    c.status in {Success, Failed, Timeout, Cancelled, Rejected}
  }

  predicate HasTerminal(audits: seq<Audit>) {
    exists i :: 0 <= i < |audits| && TerminalKind(audits[i].kind)
  }

  // The executor may run: the execution was created without approval, or has been approved.
  predicate Released(audits: seq<Audit>) {
    audits != [] && (audits[0] == Audit(Created, NotRequired) || exists i :: 0 <= i < |audits| && audits[i].kind == Approved)
  }

  // ---- sessions interleaving ----

  // A session between its read and its commit, or inside run_execution_flow: about to read the row again, past
  // the status check, or past the call of the executor. `read` is the length of the log when it read the row.
  datatype Session =
    | Deciding(request: Request, seen: Columns)
    | Entering
    | Checked(seen: Columns, read: nat)
    | Executing(seen: Columns, read: nat)
    | Gone

  predicate InFlow(x: Session) {
    x.Entering? || x.Checked? || x.Executing?
  }

  datatype State = State(row: Option<Row>, sessions: seq<Session>)

  const START := State(None, [])

  datatype Action =
    | Create(approvalRequired: bool, end: End)  // without approval the first attempt shares the transaction
    | Read(request: Request)                    // a new session reads the row and passes the check of its request
    | Write(session: nat)                       // and commits
    | Refresh(session: nat)
    | Call(session: nat)
    | Finish(session: nat, result: ExecutorResult)
    | Abort(session: nat)                       // any exception before the commit

  // An attempt on a waiting execution updates the row before it calls the executor, and holds the row until it
  // commits; one on a running execution has nothing to update yet. A request always updates something, be it the
  // time of the decision, and so waits for the row.
  predicate Holds(x: Session) {
    x.Executing? && x.seen.status == WaitingExecution
  }

  predicate FreeFor(s: State, q: nat) {
    forall p :: 0 <= p < |s.sessions| && p != q ==> !Holds(s.sessions[p])
  }

  predicate Enabled(s: State, a: Action) {
    match a
    case Create(_, _) => s.row.None?
    case Read(q) => s.row.Some? && Allowed(q, s.row.value.columns)
    case Write(q) => s.row.Some? && q < |s.sessions| && s.sessions[q].Deciding? && FreeFor(s, q)
    case Refresh(q) => s.row.Some? && q < |s.sessions| && s.sessions[q].Entering?
    case Call(q) =>
      && s.row.Some? && q < |s.sessions| && s.sessions[q].Checked?
      && (s.sessions[q].seen.status == WaitingExecution ==> FreeFor(s, q))
    case Finish(q, _) => s.row.Some? && q < |s.sessions| && s.sessions[q].Executing? && FreeFor(s, q)
    case Abort(q) => s.row.Some? && q < |s.sessions|
  }

  function At(s: State, q: nat, r: Row, x: Session): State
    requires q < |s.sessions|
  {
    State(Some(r), s.sessions[q := x])
  }

  function CreatedState(approvalRequired: bool, end: End, maxRetries: int): State {
    if approvalRequired then State(Some(NewRow(true)), [])
    else if end.Raises? then START
    else State(Some(Attempt(NewRow(false), NewColumns(false), end, maxRetries)),
               if WillRetry(NewColumns(false), end, maxRetries) then [Entering] else [])
  }

  // An action that is not enabled changes nothing.
  function Next(s: State, a: Action, maxRetries: int): State {
    if !Enabled(s, a) then s
    else
      match a
      case Create(needs, end) => CreatedState(needs, end, maxRetries)
      case Read(q) => s.(sessions := s.sessions + [Deciding(q, s.row.value.columns)])
      case Write(q) =>
        var x := s.sessions[q];
        At(s, q, Answered(s.row.value, x.request, x.seen), if x.request.ToApprove? then Entering else Gone)
      case Refresh(q) =>
        var c := s.row.value.columns;
        At(s, q, s.row.value, if CanRun(c) then Checked(c, |s.row.value.audits|) else Gone)
      case Call(q) =>
        At(s, q, s.row.value.(calls := s.row.value.calls + 1), Executing(s.sessions[q].seen, s.sessions[q].read))
      case Finish(q, result) =>
        var x := s.sessions[q];
        At(s, q, Finished(s.row.value, x.seen, result, maxRetries),
           if Retries(x.seen, result, maxRetries) then Entering else Gone)
      case Abort(q) => At(s, q, s.row.value, Gone)
  }

  function After(s: State, actions: seq<Action>, maxRetries: int): State
    decreases |actions|
  {
    if actions == [] then s else After(Next(s, actions[0], maxRetries), actions[1..], maxRetries)
  }

  // ---- what a request makes of the row it has read ----

  // An execution read as succeeded, failed, cancelled or timed out is not cancelled; every other one is, a rejected or
  // running one too, whatever is stored by now.
  lemma CancelVerdict(r: Row, seen: Columns)
    ensures var t := Answered(r, ToCancel, seen);
            match seen.status
            case Success => t == r
            case Failed => t == r
            case Cancelled => t == r
            case Timeout => t == r
            case _ => && t.columns.status == Cancelled && t.columns.retries == r.columns.retries && t.calls == r.calls
                      && t.columns.approval == (if seen.approval.Pending? then Refused else r.columns.approval)
                      && t.audits == r.audits + [Audit(CancelledEvent, if seen.approval.Pending? then Refused else seen.approval)]
  {
  }

  // Only what was read as waiting or not yet validated is approved; anything is rejected. A column that the session
  // already read with its new value is left as stored.
  lemma DecisionVerdict(r: Row, seen: Columns)
    ensures var t := Answered(r, ToApprove, seen);
            if seen.status == WaitingApproval || seen.status == PendingValidation
            then && t.columns.status == WaitingExecution && t.columns.retries == r.columns.retries && t.calls == r.calls
                 && (seen.approval != Granted ==> t.columns.approval == Granted)
                 && t.audits == r.audits + [Audit(Approved, Granted)]
            else t == r
    ensures var t := Answered(r, ToReject, seen);
            && (seen.status != Rejected ==> t.columns.status == Rejected)
            && (seen.status == Rejected ==> t.columns.status == r.columns.status)
            && (seen.approval != Refused ==> t.columns.approval == Refused)
            && t.columns.retries == r.columns.retries && t.calls == r.calls && t.audits == r.audits + [Audit(RejectedEvent, Refused)]
  {
  }

  // Read and written without anything in between, on a row that no attempt holds.
  lemma RequestDecides(s: State, q: Request, maxRetries: int)
    requires s.row.Some? && FreeFor(s, |s.sessions|)
    ensures var before, n := s.row.value.columns.status, |s.sessions|;
            var t := Next(Next(s, Read(q), maxRetries), Write(n), maxRetries);
            && t.row.Some?
            && t.row.value.columns.status ==
               match q
               case ToCancel => (if before in {PendingValidation, WaitingApproval, WaitingExecution, Running, Rejected}
                                 then Cancelled else before)
               case ToApprove => if before in {PendingValidation, WaitingApproval} then WaitingExecution else before
               case ToReject => Rejected
  {
    var r := s.row.value;
    CancelVerdict(r, r.columns);
    DecisionVerdict(r, r.columns);
    var read := Next(s, Read(q), maxRetries);
    if Enabled(s, Read(q)) {
      assert read.sessions[|s.sessions|] == Deciding(q, r.columns);
      assert FreeFor(read, |s.sessions|);
    } else {
      assert read == s && !Enabled(s, Write(|s.sessions|));
    }
  }

  // ---- what an attempt makes of the row it has read ----

  // How an attempt that read `c` ends: the columns it leaves, and the kind of its last audit event.
  ghost predicate EndsAttempt(c: Columns, result: ExecutorResult, maxRetries: int, left: Columns, kind: Kind) {
    if result.success then left == Columns(Success, c.approval, c.retries) && kind == Succeeded
    else if result.timeout then left == Columns(Timeout, c.approval, c.retries) && kind == TimedOut
    else if result.retryable && c.retries < maxRetries then left == Columns(Running, c.approval, c.retries + 1) && kind == Retry
    else left == Columns(Failed, c.approval, c.retries) && kind == FailedEvent
  }

  // A row that needs approval waits for it, and nothing runs. Any other is created together with its first attempt, in
  // one commit, or not at all if that raises; a retryable failure leaves a session that goes on to the next attempt.
  lemma CreatedVerdict(approvalRequired: bool, end: End, maxRetries: int)
    ensures var t := Next(START, Create(approvalRequired, end), maxRetries);
            if approvalRequired then
              t == State(Some(Row(Columns(WaitingApproval, Pending, 0), [Audit(Created, Pending)], 0)), [])
            else if end.Raises? then t == START
            else
              && t.row.Some? && t.row.value.calls == 1 && |t.row.value.audits| == 3
              && t.row.value.audits[..2] == [Audit(Created, NotRequired), Audit(Started, NotRequired)]
              && EndsAttempt(Columns(WaitingExecution, NotRequired, 0), end.result, maxRetries,
                             t.row.value.columns, t.row.value.audits[2].kind)
              && t.sessions == if t.row.value.columns.status == Running then [Entering] else []
  {
  }

  // A session goes on from reading the row only if it reads it waiting for execution or running. It calls the executor
  // once, and commits two audit events with what the result calls for; only a retry lets it go on to read again.
  lemma AttemptVerdict(s: State, a: Action, maxRetries: int)
    requires (a.Refresh? || a.Call? || a.Finish?) && Enabled(s, a)
    ensures var t, r, x := Next(s, a, maxRetries), s.row.value, s.sessions[a.session];
            && t.row.Some? && t.sessions == s.sessions[a.session := t.sessions[a.session]]
            && match a
               case Refresh(q) =>
                 t.row == s.row && t.sessions[q] == if r.columns.status == WaitingExecution || r.columns.status == Running
                                                    then Checked(r.columns, |r.audits|) else Gone
               case Call(q) => t.row.value == r.(calls := r.calls + 1) && t.sessions[q] == Executing(x.seen, x.read)
               case Finish(q, result) =>
                 && t.row.value.calls == r.calls && |t.row.value.audits| == |r.audits| + 2
                 && t.row.value.audits[..|r.audits|] == r.audits && t.row.value.audits[|r.audits|] == Audit(Started, x.seen.approval)
                 && t.sessions[q] == (if t.row.value.audits[|r.audits| + 1].kind == Retry then Entering else Gone)
                 && exists left :: EndsAttempt(x.seen, result, maxRetries, left, t.row.value.audits[|r.audits| + 1].kind)
                                   && t.row.value.columns == WriteBack(r.columns, x.seen, left)
               case _ => true
  {
    if a.Finish? {
      var x := s.sessions[a.session];
      assert EndsAttempt(x.seen, a.result, maxRetries, Left(x.seen, a.result, maxRetries), OutcomeOf(x.seen, a.result, maxRetries));
    }
  }

  // Somebody else's attempt that read the row waiting for execution, and has called the executor, keeps every commit
  // and every other such attempt waiting. Nothing else does.
  lemma WaitsExactly(s: State, q: nat, result: ExecutorResult)
    requires s.row.Some? && q < |s.sessions|
    ensures var held := exists p :: 0 <= p < |s.sessions| && p != q && s.sessions[p].Executing?
                                    && s.sessions[p].seen.status == WaitingExecution;
            && (Enabled(s, Write(q)) <==> s.sessions[q].Deciding? && !held)
            && (Enabled(s, Finish(q, result)) <==> s.sessions[q].Executing? && !held)
            && (Enabled(s, Call(q)) <==> s.sessions[q].Checked? && (s.sessions[q].seen.status == WaitingExecution ==> !held))
  {
  }

  // ---- what holds in every run ----

  const WAITING := Columns(WaitingApproval, Pending, 0)

  ghost predicate SessionSound(r: Row, x: Session) {
    match x
    case Deciding(q, seen) => Allowed(q, seen) && (seen.approval.Pending? || CanApprove(seen) ==> seen == WAITING)
    case Checked(seen, read) => CanRun(seen) && !seen.approval.Pending? && read <= |r.audits| && Released(r.audits[..read])
    case Executing(seen, read) => CanRun(seen) && !seen.approval.Pending? && read <= |r.audits| && Released(r.audits[..read])
    case Entering => Released(r.audits)
    case Gone => true
  }

  predicate StillWaiting(x: Session) {
    !InFlow(x) && (x.Deciding? ==> x.seen == WAITING)
  }

  // A row that waits for its approval is as it was created, and nobody runs it. Whoever runs an execution has
  // read that it was released.
  ghost predicate Sound(s: State) {
    && (s.row.None? ==> s.sessions == [])
    && (s.row.Some? ==>
          var r := s.row.value;
          && (r.columns.approval.Pending? || CanApprove(r.columns) ==>
                r == NewRow(true) && forall q :: 0 <= q < |s.sessions| ==> StillWaiting(s.sessions[q]))
          && (forall q :: 0 <= q < |s.sessions| ==> SessionSound(r, s.sessions[q])))
  }

  lemma ReleasedGrows(audits: seq<Audit>, more: seq<Audit>)
    requires Released(audits)
    ensures Released(audits + more)
  {
    assert forall i :: 0 <= i < |audits| ==> (audits + more)[i] == audits[i];
  }

  lemma SessionKept(r: Row, t: Row, x: Session)
    requires SessionSound(r, x) && r.audits <= t.audits
    ensures SessionSound(t, x)
  {
    if x.Entering? {
      ReleasedGrows(r.audits, t.audits[|r.audits|..]);
      assert t.audits == r.audits + t.audits[|r.audits|..];
    }
    if x.Checked? || x.Executing? { assert t.audits[..x.read] == r.audits[..x.read]; }
  }

  lemma SessionsKept(s: State, t: State)
    requires Sound(s) && s.row.Some? && t.row.Some? && s.row.value.audits <= t.row.value.audits
    ensures forall q :: 0 <= q < |s.sessions| ==> SessionSound(t.row.value, s.sessions[q])
  {
    forall q | 0 <= q < |s.sessions| ensures SessionSound(t.row.value, s.sessions[q]) {
      SessionKept(s.row.value, t.row.value, s.sessions[q]);
    }
  }

  lemma CreateSound(approvalRequired: bool, end: End, maxRetries: int)
    ensures Sound(CreatedState(approvalRequired, end, maxRetries))
  {
  }

  lemma WriteSound(s: State, q: nat, maxRetries: int)
    requires Sound(s) && Enabled(s, Write(q))
    ensures Sound(Next(s, Write(q), maxRetries))
  {
    var t := Next(s, Write(q), maxRetries);
    var x := s.sessions[q];
    SessionsKept(s, t);
    assert t.row.value.audits[|s.row.value.audits|].kind == EventOf(x.request);
  }

  lemma FinishSound(s: State, q: nat, result: ExecutorResult, maxRetries: int)
    requires Sound(s) && Enabled(s, Finish(q, result))
    ensures Sound(Next(s, Finish(q, result), maxRetries))
  {
    var t := Next(s, Finish(q, result), maxRetries);
    var x := s.sessions[q];
    SessionsKept(s, t);
    ReleasedGrows(s.row.value.audits[..x.read], t.row.value.audits[x.read..]);
    assert t.row.value.audits == s.row.value.audits[..x.read] + t.row.value.audits[x.read..];
  }

  lemma SoundNext(s: State, a: Action, maxRetries: int)
    requires Sound(s)
    ensures Sound(Next(s, a, maxRetries))
  {
    if Enabled(s, a) {
      match a
      case Create(needs, end) => CreateSound(needs, end, maxRetries);
      case Write(q) => WriteSound(s, q, maxRetries);
      case Finish(q, result) => FinishSound(s, q, result, maxRetries);
      case Refresh(q) => assert s.row.value.audits[..|s.row.value.audits|] == s.row.value.audits;
      case _ =>
    }
  }

  lemma {:induction false} SoundAfter(s: State, actions: seq<Action>, maxRetries: int)
    requires Sound(s)
    ensures Sound(After(s, actions, maxRetries))
    decreases |actions|
  {
    if actions == [] {
    } else {
      SoundNext(s, actions[0], maxRetries);
      SoundAfter(Next(s, actions[0], maxRetries), actions[1..], maxRetries);
    }
  }

  // ---- how often the executor is called ----

  function Limit(maxRetries: int): nat {
    if maxRetries < 0 then 0 else maxRetries
  }

  predicate HasFlow(s: State) {
    exists q :: 0 <= q < |s.sessions| && InFlow(s.sessions[q])
  }

  // An approval that commits although a flow is under way, or after a call that was not followed by a retry.
  // Its status check passed on the row as read; by now the row has left the two waiting states.
  predicate ApprovesTwice(s: State, a: Action) {
    && a.Write? && Enabled(s, a) && s.sessions[a.session].request.ToApprove?
    && (HasFlow(s) || s.row.value.calls > s.row.value.columns.retries)
  }

  predicate ApprovedOnce(s: State, actions: seq<Action>, maxRetries: int)
    decreases |actions|
  {
    actions == [] || (!ApprovesTwice(s, actions[0]) && ApprovedOnce(Next(s, actions[0], maxRetries), actions[1..], maxRetries))
  }

  ghost predicate FlowCounts(r: Row, x: Session) {
    match x
    case Entering => r.calls == r.columns.retries
    case Checked(seen, _) => r.calls == r.columns.retries == seen.retries
    case Executing(seen, _) => r.calls == r.columns.retries + 1 && seen.retries == r.columns.retries
    case _ => true
  }

  ghost predicate OneFlow(s: State) {
    forall p, q :: 0 <= p < q < |s.sessions| && InFlow(s.sessions[p]) ==> !InFlow(s.sessions[q])
  }

  // Calls, retries and the log agree: one call more than retries at most, one end at most, and none before it.
  ghost predicate Counts(r: Row, flow: bool, maxRetries: int) {
    && r.columns.retries <= r.calls <= r.columns.retries + 1
    && r.columns.retries <= Limit(maxRetries)
    && Count(r.audits, Retry) == r.columns.retries
    && Count(r.audits, Started) == Count(r.audits, Retry) + Ends(r.audits)
    && Ends(r.audits) <= 1
    && (Ends(r.audits) == 1 ==> !flow && r.calls == r.columns.retries + 1)
  }

  ghost predicate Accounted(s: State, maxRetries: int) {
    && OneFlow(s)
    && (s.row.Some? ==>
          && Counts(s.row.value, HasFlow(s), maxRetries)
          && forall q :: 0 <= q < |s.sessions| ==> FlowCounts(s.row.value, s.sessions[q]))
  }

  lemma EventCounts(audits: seq<Audit>, a: Audit)
    ensures forall k :: Count(audits + [a], k) == Count(audits, k) + if a.kind == k then 1 else 0
  {
    forall k ensures Count(audits + [a], k) == Count(audits, k) + if a.kind == k then 1 else 0 {
      CountAppend(audits, a, k);
    }
  }

  lemma AttemptCounts(r: Row, seen: Columns, result: ExecutorResult, maxRetries: int)
    ensures var t := Finished(r, seen, result, maxRetries);
            forall k :: Count(t.audits, k) ==
                        Count(r.audits, k) + (if k == Started then 1 else 0) + (if k == OutcomeOf(seen, result, maxRetries) then 1 else 0)
  {
    var t := Finished(r, seen, result, maxRetries);
    forall k ensures Count(t.audits, k) ==
                     Count(r.audits, k) + (if k == Started then 1 else 0) + (if k == OutcomeOf(seen, result, maxRetries) then 1 else 0)
    {
      CountAppendTwo(r.audits, Audit(Started, seen.approval), Audit(OutcomeOf(seen, result, maxRetries), seen.approval), k);
    }
  }

  lemma NewRowCounts(approvalRequired: bool)
    ensures forall k :: Count(NewRow(approvalRequired).audits, k) == if k == Created then 1 else 0
  {
    var a := Audit(Created, NewColumns(approvalRequired).approval);
    EventCounts([], a);
    assert [] + [a] == NewRow(approvalRequired).audits;
  }

  lemma FirstAttemptCounts(result: ExecutorResult, maxRetries: int)
    ensures var t := Finished(NewRow(false).(calls := 1), NewColumns(false), result, maxRetries);
            && Counts(t, Retries(NewColumns(false), result, maxRetries), maxRetries)
            && (Retries(NewColumns(false), result, maxRetries) ==> t.columns.retries == 1)
            && t.calls == 1
  {
    NewRowCounts(false);
    AttemptCounts(NewRow(false).(calls := 1), NewColumns(false), result, maxRetries);
  }

  lemma CreateAccounted(approvalRequired: bool, end: End, maxRetries: int)
    ensures Accounted(CreatedState(approvalRequired, end, maxRetries), maxRetries)
  {
    NewRowCounts(approvalRequired);
    if !approvalRequired && end.Returns? { FirstAttemptCounts(end.result, maxRetries); }
  }

  lemma AnswerCounts(r: Row, request: Request, seen: Columns, flow: bool, after: bool, maxRetries: int)
    requires Counts(r, flow, maxRetries) && (after ==> flow || r.calls == r.columns.retries)
    ensures Counts(Answered(r, request, seen), after, maxRetries)
    ensures Answered(r, request, seen).calls == r.calls && Answered(r, request, seen).columns.retries == r.columns.retries
  {
    EventCounts(r.audits, Audit(EventOf(request), Wanted(request, seen).approval));
  }

  lemma WriteAccounted(s: State, q: nat, maxRetries: int)
    requires Accounted(s, maxRetries) && Enabled(s, Write(q)) && !ApprovesTwice(s, Write(q))
    ensures Accounted(Next(s, Write(q), maxRetries), maxRetries)
  {
    var x := s.sessions[q];
    var t := Next(s, Write(q), maxRetries);
    assert HasFlow(t) ==> HasFlow(s) || x.request.ToApprove?;
    AnswerCounts(s.row.value, x.request, x.seen, HasFlow(s), HasFlow(t), maxRetries);
  }

  lemma FinishAccounted(s: State, q: nat, result: ExecutorResult, maxRetries: int)
    requires Accounted(s, maxRetries) && Enabled(s, Finish(q, result))
    ensures Accounted(Next(s, Finish(q, result), maxRetries), maxRetries)
  {
    AttemptCounts(s.row.value, s.sessions[q].seen, result, maxRetries);
    assert FlowCounts(s.row.value, s.sessions[q]) && InFlow(s.sessions[q]);
  }

  lemma AccountedNext(s: State, a: Action, maxRetries: int)
    requires Accounted(s, maxRetries) && !ApprovesTwice(s, a)
    ensures Accounted(Next(s, a, maxRetries), maxRetries)
  {
    if Enabled(s, a) {
      match a
      case Create(needs, end) => CreateAccounted(needs, end, maxRetries);
      case Write(q) => WriteAccounted(s, q, maxRetries);
      case Finish(q, result) => FinishAccounted(s, q, result, maxRetries);
      case Call(q) => assert FlowCounts(s.row.value, s.sessions[q]) && InFlow(s.sessions[q]);
      case Refresh(q) => assert FlowCounts(s.row.value, s.sessions[q]) && InFlow(s.sessions[q]);
      case _ =>
    }
  }

  lemma {:induction false} AccountedAfter(s: State, actions: seq<Action>, maxRetries: int)
    requires Accounted(s, maxRetries) && ApprovedOnce(s, actions, maxRetries)
    ensures Accounted(After(s, actions, maxRetries), maxRetries)
    decreases |actions|
  {
    if actions == [] {
    } else {
      AccountedNext(s, actions[0], maxRetries);
      AccountedAfter(Next(s, actions[0], maxRetries), actions[1..], maxRetries);
    }
  }

  // While no approval commits twice, the executor is called at most once per allowed retry and once more; every
  // start that was committed is a retry or one of the three ends; there is never a second end.
  lemma CallsBounded(actions: seq<Action>, maxRetries: int)
    requires ApprovedOnce(START, actions, maxRetries) && After(START, actions, maxRetries).row.Some?
    ensures var r := After(START, actions, maxRetries).row.value;
            && r.calls <= 1 + Limit(maxRetries)
            && Count(r.audits, Started) == Count(r.audits, Retry) + Ends(r.audits) && Ends(r.audits) <= 1
  {
    AccountedAfter(START, actions, maxRetries);
  }

  // ---- a second approval exceeds the bound ----

  lemma AfterOne(s: State, a: Action, more: seq<Action>, maxRetries: int)
    ensures After(s, [a] + more, maxRetries) == After(Next(s, a, maxRetries), more, maxRetries)
  {
    assert ([a] + more)[1..] == more;
  }

  // A flow alone, about to read a runnable row that already has a call too many, can call until the bound is passed.
  lemma {:induction false} CallsOn(s: State, q: nat, maxRetries: int) returns (more: seq<Action>)
    requires s.row.Some? && q < |s.sessions| && s.sessions[q] == Entering
    requires forall p :: 0 <= p < |s.sessions| && p != q ==> !InFlow(s.sessions[p])
    requires var r := s.row.value; CanRun(r.columns) && r.calls == r.columns.retries + 1
    ensures forall a :: a in more ==> !a.Write?
    ensures var t := After(s, more, maxRetries); t.row.Some? && t.row.value.calls > 1 + Limit(maxRetries)
    decreases Limit(maxRetries) + 1 - s.row.value.columns.retries
  {
    var s1 := Next(s, Refresh(q), maxRetries);
    var s2 := Next(s1, Call(q), maxRetries);
    assert s2.row.value.calls == s.row.value.columns.retries + 2;
    if s.row.value.columns.retries >= Limit(maxRetries) {
      more := [];
    } else {
      var again := ExecutorResult(false, false, true);
      var s3 := Next(s2, Finish(q, again), maxRetries);
      assert Enabled(s2, Finish(q, again));
      var rest := CallsOn(s3, q, maxRetries);
      more := [Finish(q, again)] + rest;
      AfterOne(s2, Finish(q, again), rest, maxRetries);
    }
    AfterOne(s1, Call(q), more, maxRetries);
    AfterOne(s, Refresh(q), [Call(q)] + more, maxRetries);
    more := [Refresh(q), Call(q)] + more;
    assert more == [Refresh(q)] + ([Call(q)] + more[2..]);
  }

  // Let the flow p, which the second approval has overtaken, make its call and then raise.
  lemma OtherFlowGone(s: State, p: nat, q: nat, maxRetries: int) returns (t: State, more: seq<Action>)
    requires s.row.Some? && p < |s.sessions| && q < |s.sessions| && p != q
    requires s.sessions[q] == Entering && InFlow(s.sessions[p]) && !Holds(s.sessions[p])
    requires forall i :: 0 <= i < |s.sessions| && i != p && i != q ==> !InFlow(s.sessions[i])
    requires var r := s.row.value; r.columns.status == WaitingExecution && FlowCounts(r, s.sessions[p])
    ensures t == After(s, more, maxRetries) && forall a :: a in more ==> !a.Write?
    ensures t.row == Some(s.row.value.(calls := s.row.value.columns.retries + 1))
    ensures |t.sessions| == |s.sessions| && t.sessions[q] == Entering
    ensures forall i :: 0 <= i < |t.sessions| && i != q ==> !InFlow(t.sessions[i])
  {
    t, more := Next(s, Abort(p), maxRetries), [Abort(p)];
    if s.sessions[p].Executing? {
      assert After(t, [], maxRetries) == t;
      AfterOne(s, Abort(p), [], maxRetries);
      assert [Abort(p)] + [] == more;
    } else {
      var s1 := if s.sessions[p].Entering? then Next(s, Refresh(p), maxRetries) else s;
      var s2 := Next(s1, Call(p), maxRetries);
      t := Next(s2, Abort(p), maxRetries);
      assert After(t, [], maxRetries) == t;
      AfterOne(s2, Abort(p), [], maxRetries);
      AfterOne(s1, Call(p), [Abort(p)] + [], maxRetries);
      assert [Abort(p)] + [] == [Abort(p)] && [Call(p)] + [Abort(p)] == [Call(p), Abort(p)];
      more := [Call(p), Abort(p)];
      if s.sessions[p].Entering? {
        AfterOne(s, Refresh(p), more, maxRetries);
        more := [Refresh(p)] + more;
      }
    }
  }

  lemma {:induction false} AfterConcat(s: State, a: seq<Action>, b: seq<Action>, maxRetries: int)
    ensures After(s, a + b, maxRetries) == After(After(s, a, maxRetries), b, maxRetries)
    decreases |a|
  {
    if a == [] {
      assert a + b == b;
    } else {
      assert (a + b)[1..] == a[1..] + b;
      AfterConcat(Next(s, a[0], maxRetries), a[1..], b, maxRetries);
    }
  }

  // The bound holds through a run exactly as long as nobody approves twice: from the first time on which
  // somebody does, executor results alone (a retry, an exception) lead past it.
  lemma SecondApprovalExceeds(actions: seq<Action>, q: nat, maxRetries: int) returns (more: seq<Action>)
    requires ApprovedOnce(START, actions, maxRetries) && ApprovesTwice(After(START, actions, maxRetries), Write(q))
    ensures forall a :: a in more ==> !a.Write?
    ensures var t := After(Next(After(START, actions, maxRetries), Write(q), maxRetries), more, maxRetries);
            t.row.Some? && t.row.value.calls > 1 + Limit(maxRetries)
  {
    var s := After(START, actions, maxRetries);
    SoundAfter(START, actions, maxRetries);
    AccountedAfter(START, actions, maxRetries);
    var t := Next(s, Write(q), maxRetries);
    assert SessionSound(s.row.value, s.sessions[q]);
    if HasFlow(s) {
      var p :| 0 <= p < |s.sessions| && InFlow(s.sessions[p]);
      assert FlowCounts(s.row.value, s.sessions[p]);
      var u, first := OtherFlowGone(t, p, q, maxRetries);
      var rest := CallsOn(u, q, maxRetries);
      AfterConcat(t, first, rest, maxRetries);
      more := first + rest;
    } else {
      more := CallsOn(t, q, maxRetries);
    }
  }

  // ---- when the executor is called on an execution that has ended ----

  // A commit that makes an ended execution runnable again: an approval, or a retry of an attempt that had read a
  // waiting execution.
  predicate Reopens(s: State, a: Action, maxRetries: int) {
    && Enabled(s, a) && s.row.Some? && Terminal(s.row.value.columns)
    && match a
       case Write(q) => s.sessions[q].request.ToApprove?
       case Finish(q, result) => Retries(s.sessions[q].seen, result, maxRetries) && s.sessions[q].seen.status == WaitingExecution
       case _ => false
  }

  predicate NeverReopened(s: State, actions: seq<Action>, maxRetries: int)
    decreases |actions|
  {
    actions == [] || (!Reopens(s, actions[0], maxRetries) && NeverReopened(Next(s, actions[0], maxRetries), actions[1..], maxRetries))
  }

  // A final status comes with its event.
  ghost predicate EndsLogged(s: State) {
    s.row.Some? && Terminal(s.row.value.columns) ==> HasTerminal(s.row.value.audits)
  }

  ghost predicate SessionOpen(r: Row, x: Session) {
    && (x.Checked? || x.Executing? ==> x.read <= |r.audits| && !HasTerminal(r.audits[..x.read]))
    && (x.Deciding? && Terminal(x.seen) ==> HasTerminal(r.audits))
  }

  // Once a final event is in the log the status is final, and whoever is past the status check read before it.
  ghost predicate Closed(s: State) {
    s.row.Some? ==>
      && (HasTerminal(s.row.value.audits) ==> Terminal(s.row.value.columns))
      && forall q :: 0 <= q < |s.sessions| ==> SessionOpen(s.row.value, s.sessions[q])
  }

  lemma Grows(s: State, a: Action, maxRetries: int)
    requires s.row.Some?
    ensures var t := Next(s, a, maxRetries); t.row.Some? && s.row.value.audits <= t.row.value.audits
    ensures |s.sessions| <= |Next(s, a, maxRetries).sessions|
  {
  }

  lemma OpenKept(r: Row, t: Row, x: Session)
    requires SessionOpen(r, x) && r.audits <= t.audits
    ensures SessionOpen(t, x)
  {
    if x.Checked? || x.Executing? { assert t.audits[..x.read] == r.audits[..x.read]; }
    if HasTerminal(r.audits) { TerminalGrows(r.audits, t.audits); }
  }

  lemma TerminalGrows(audits: seq<Audit>, more: seq<Audit>)
    requires HasTerminal(audits) && audits <= more
    ensures HasTerminal(more)
  {
    var i :| 0 <= i < |audits| && TerminalKind(audits[i].kind);
    assert more[i] == audits[i];
  }

  lemma TerminalPrefix(audits: seq<Audit>, read: nat, i: nat)
    requires i < read <= |audits| && TerminalKind(audits[i].kind)
    ensures HasTerminal(audits[..read])
  {
    assert audits[..read][i] == audits[i];
  }

  lemma EndsLoggedNext(s: State, a: Action, maxRetries: int)
    requires Sound(s) && EndsLogged(s)
    ensures EndsLogged(Next(s, a, maxRetries))
  {
    var t := Next(s, a, maxRetries);
    if s.row.Some? {
      Grows(s, a, maxRetries);
      var audits, more := s.row.value.audits, t.row.value.audits;
      if HasTerminal(audits) { TerminalGrows(audits, more); }
      if Enabled(s, a) && a.Write? { assert more[|audits|].kind == EventOf(s.sessions[a.session].request); }
      if Enabled(s, a) && a.Finish? { assert more[|audits| + 1].kind == OutcomeOf(s.sessions[a.session].seen, a.result, maxRetries); }
    } else if Enabled(s, a) && a.Create? && t.row.Some? && !a.approvalRequired {
      assert t.row.value.audits[2].kind == OutcomeOf(NewColumns(false), a.end.result, maxRetries);
    }
  }

  // Which steps take a row out of a final status.
  lemma ReopenedExactly(s: State, a: Action, maxRetries: int)
    requires Sound(s) && s.row.Some? && Terminal(s.row.value.columns)
    ensures var t := Next(s, a, maxRetries);
            t.row.Some? && (!Terminal(t.row.value.columns) <==> Reopens(s, a, maxRetries))
    ensures Reopens(s, a, maxRetries) ==>
              && CanRun(Next(s, a, maxRetries).row.value.columns)
              && Next(s, a, maxRetries).sessions[a.session] == Entering
  {
    if Enabled(s, a) {
      if a.Write? { assert SessionSound(s.row.value, s.sessions[a.session]); }
      if a.Finish? { assert SessionSound(s.row.value, s.sessions[a.session]); }
    }
  }

  lemma NoTerminalAdded(audits: seq<Audit>, more: seq<Audit>)
    ensures HasTerminal(audits + more) ==> HasTerminal(audits) || HasTerminal(more)
  {
    if i :| 0 <= i < |audits + more| && TerminalKind((audits + more)[i].kind) {
      if i < |audits| { assert audits[i] == (audits + more)[i]; } else { assert more[i - |audits|] == (audits + more)[i]; }
    }
  }

  lemma ClosedRow(s: State, a: Action, maxRetries: int)
    requires Sound(s) && Closed(s) && !Reopens(s, a, maxRetries)
    ensures var t := Next(s, a, maxRetries);
            t.row.Some? && HasTerminal(t.row.value.audits) ==> Terminal(t.row.value.columns)
  {
    var t := Next(s, a, maxRetries);
    if s.row.Some? && t.row.Some? && HasTerminal(t.row.value.audits) {
      if Terminal(s.row.value.columns) {
        ReopenedExactly(s, a, maxRetries);
      } else {
        assert Enabled(s, a);
        if a.Write? {
          var x := s.sessions[a.session];
          assert SessionSound(s.row.value, x) && SessionOpen(s.row.value, x);
          NoTerminalAdded(s.row.value.audits, [Audit(EventOf(x.request), Wanted(x.request, x.seen).approval)]);
        }
        if a.Finish? {
          var x := s.sessions[a.session];
          assert SessionSound(s.row.value, x);
          NoTerminalAdded(s.row.value.audits, AttemptEvents(x.seen, a.result, maxRetries));
        }
      }
    }
  }

  lemma ClosedNext(s: State, a: Action, maxRetries: int)
    requires Sound(s) && EndsLogged(s) && Closed(s) && !Reopens(s, a, maxRetries)
    ensures Closed(Next(s, a, maxRetries))
  {
    var t := Next(s, a, maxRetries);
    ClosedRow(s, a, maxRetries);
    if s.row.Some? {
      Grows(s, a, maxRetries);
      forall q | 0 <= q < |t.sessions| ensures SessionOpen(t.row.value, t.sessions[q]) {
        if q < |s.sessions| { OpenKept(s.row.value, t.row.value, s.sessions[q]); }
        if a == Refresh(q) { assert s.row.value.audits[..|s.row.value.audits|] == s.row.value.audits; }
      }
    }
  }

  lemma {:induction false} ClosedAfter(s: State, actions: seq<Action>, maxRetries: int)
    requires Sound(s) && EndsLogged(s) && Closed(s) && NeverReopened(s, actions, maxRetries)
    ensures Closed(After(s, actions, maxRetries))
    decreases |actions|
  {
    if actions == [] {
    } else {
      SoundNext(s, actions[0], maxRetries);
      EndsLoggedNext(s, actions[0], maxRetries);
      ClosedNext(s, actions[0], maxRetries);
      ClosedAfter(Next(s, actions[0], maxRetries), actions[1..], maxRetries);
    }
  }

  lemma {:induction false} EndsLoggedAfter(s: State, actions: seq<Action>, maxRetries: int)
    requires Sound(s) && EndsLogged(s)
    ensures EndsLogged(After(s, actions, maxRetries))
    decreases |actions|
  {
    if actions == [] {
    } else {
      SoundNext(s, actions[0], maxRetries);
      EndsLoggedNext(s, actions[0], maxRetries);
      EndsLoggedAfter(Next(s, actions[0], maxRetries), actions[1..], maxRetries);
    }
  }

  // Since a flow past its status check read the row, only decisions have been committed.
  ghost predicate OnlyDecisionsSince(r: Row, x: Session) {
    x.Checked? || x.Executing? ==>
      forall i :: x.read <= i < |r.audits| ==> r.audits[i].kind in {Approved, RejectedEvent, CancelledEvent}
  }

  ghost predicate Undisturbed(s: State) {
    s.row.Some? ==> forall q :: 0 <= q < |s.sessions| ==> OnlyDecisionsSince(s.row.value, s.sessions[q])
  }

  lemma UndisturbedNext(s: State, a: Action, maxRetries: int)
    requires Sound(s) && Undisturbed(s) && OneFlow(s)
    ensures Undisturbed(Next(s, a, maxRetries))
  {
    var t := Next(s, a, maxRetries);
    if s.row.Some? && Enabled(s, a) {
      Grows(s, a, maxRetries);
      forall q | 0 <= q < |t.sessions| ensures OnlyDecisionsSince(t.row.value, t.sessions[q]) {
        if q < |s.sessions| {
          assert OnlyDecisionsSince(s.row.value, s.sessions[q]) && SessionSound(s.row.value, s.sessions[q]);
          if a.Finish? && q != a.session { assert !InFlow(s.sessions[q]); }
        }
      }
    }
  }

  lemma {:induction false} UndisturbedAfter(s: State, actions: seq<Action>, maxRetries: int)
    requires Sound(s) && Undisturbed(s) && Accounted(s, maxRetries) && ApprovedOnce(s, actions, maxRetries)
    ensures Undisturbed(After(s, actions, maxRetries))
    decreases |actions|
  {
    if actions == [] {
    } else {
      SoundNext(s, actions[0], maxRetries);
      AccountedNext(s, actions[0], maxRetries);
      UndisturbedNext(s, actions[0], maxRetries);
      UndisturbedAfter(Next(s, actions[0], maxRetries), actions[1..], maxRetries);
    }
  }

  // While no commit reopens the execution, the executor is called only on the strength of a read that found it
  // released and without any final event. With one approval at most, the call itself comes after a final event
  // exactly when a rejection or a cancellation was committed between that read and the call.
  lemma ExecutorCalledOnlyWhenOpen(actions: seq<Action>, q: nat, maxRetries: int)
    requires NeverReopened(START, actions, maxRetries) && Enabled(After(START, actions, maxRetries), Call(q))
    ensures var s := After(START, actions, maxRetries);
            var audits, read := s.row.value.audits, s.sessions[q].read;
            && read <= |audits| && Released(audits[..read]) && !HasTerminal(audits[..read])
            && (ApprovedOnce(START, actions, maxRetries) ==>
                  (HasTerminal(audits) <==> exists i :: read <= i < |audits| && audits[i].kind in {RejectedEvent, CancelledEvent}))
  {
    var s := After(START, actions, maxRetries);
    SoundAfter(START, actions, maxRetries);
    ClosedAfter(START, actions, maxRetries);
    var audits, read := s.row.value.audits, s.sessions[q].read;
    assert SessionSound(s.row.value, s.sessions[q]) && SessionOpen(s.row.value, s.sessions[q]);
    if ApprovedOnce(START, actions, maxRetries) {
      AccountedAfter(START, [], maxRetries);
      UndisturbedAfter(START, actions, maxRetries);
      assert OnlyDecisionsSince(s.row.value, s.sessions[q]);
      forall i | 0 <= i < |audits| && TerminalKind(audits[i].kind) ensures i >= read && audits[i].kind in {RejectedEvent, CancelledEvent} {
        if i < read { TerminalPrefix(audits, read, i); }
      }
    }
  }

  // And as soon as one does, the same session passes the status check with a final event in the log it has read.
  lemma ReopenedIsRun(actions: seq<Action>, a: Action, maxRetries: int)
    requires Reopens(After(START, actions, maxRetries), a, maxRetries)
    ensures var t := Next(Next(After(START, actions, maxRetries), a, maxRetries), Refresh(a.session), maxRetries);
            && t.row.Some? && a.session < |t.sessions| && t.sessions[a.session].Checked?
            && t.sessions[a.session].read == |t.row.value.audits| && HasTerminal(t.row.value.audits)
  {
    var s := After(START, actions, maxRetries);
    SoundAfter(START, actions, maxRetries);
    EndsLoggedAfter(START, actions, maxRetries);
    ReopenedExactly(s, a, maxRetries);
    Grows(s, a, maxRetries);
    var u := Next(s, a, maxRetries);
    TerminalGrows(s.row.value.audits, u.row.value.audits);
  }

  // ---- what remains of an end ----

  ghost predicate NoNewDecision(s: State, t: State) {
    forall q :: 0 <= q < |t.sessions| && (t.sessions[q].Checked? || t.sessions[q].Executing?) ==>
      q < |s.sessions| && (s.sessions[q].Checked? || s.sessions[q].Executing?)
  }

  // While no commit reopens it, an ended execution stays ended, keeps its log as a prefix, and nobody newly
  // decides to call the executor for it: only who had passed the status check before the end may still call.
  lemma {:induction false} EndedStaysEnded(s: State, more: seq<Action>, maxRetries: int)
    requires Sound(s) && s.row.Some? && Terminal(s.row.value.columns) && NeverReopened(s, more, maxRetries)
    ensures var t := After(s, more, maxRetries);
            && t.row.Some? && Terminal(t.row.value.columns) && s.row.value.audits <= t.row.value.audits
            && NoNewDecision(s, t)
    decreases |more|
  {
    if more == [] {
    } else {
      var u := Next(s, more[0], maxRetries);
      SoundNext(s, more[0], maxRetries);
      ReopenedExactly(s, more[0], maxRetries);
      Grows(s, more[0], maxRetries);
      EndedStaysEnded(u, more[1..], maxRetries);
      assert NoNewDecision(s, u);
    }
  }

  // ---- what remains of a success ----

  predicate Succeeds(s: State) {
    s.row.Some? && s.row.value.columns.status == Success
  }

  // A commit that takes a success away: a decision that changes the status its session read, or an attempt that
  // has not succeeded, unless it retries on an execution read as running, whose status it does not change.
  predicate Discards(s: State, a: Action, maxRetries: int) {
    && Enabled(s, a)
    && match a
       case Write(q) => Wanted(s.sessions[q].request, s.sessions[q].seen).status != s.sessions[q].seen.status
       case Finish(q, result) =>
         !result.success && !(Retries(s.sessions[q].seen, result, maxRetries) && s.sessions[q].seen.status == Running)
       case _ => false
  }

  lemma SuccessLeftExactly(s: State, a: Action, maxRetries: int)
    requires Sound(s) && Succeeds(s)
    ensures Succeeds(Next(s, a, maxRetries)) <==> !Discards(s, a, maxRetries)
  {
  }

  // A rejection, but by a session that read the execution as rejected, or a cancellation.
  predicate DecidesAgainst(s: State, a: Action) {
    && a.Write? && Enabled(s, a)
    && var x := s.sessions[a.session];
       (x.request.ToReject? && x.seen.status != Rejected) || x.request.ToCancel?
  }

  // A success comes with an end in the log.
  ghost predicate SuccessLogged(s: State) {
    Succeeds(s) ==> Ends(s.row.value.audits) >= 1
  }

  lemma SuccessLoggedNext(s: State, a: Action, maxRetries: int)
    requires Sound(s) && SuccessLogged(s)
    ensures SuccessLogged(Next(s, a, maxRetries))
  {
    if Enabled(s, a) {
      match a
      case Create(needs, end) =>
        if !needs && end.Returns? { AttemptCounts(NewRow(false).(calls := 1), NewColumns(false), end.result, maxRetries); }
      case Write(q) =>
        EventCounts(s.row.value.audits, Audit(EventOf(s.sessions[q].request), Wanted(s.sessions[q].request, s.sessions[q].seen).approval));
      case Finish(q, result) => AttemptCounts(s.row.value, s.sessions[q].seen, result, maxRetries);
      case _ =>
    }
  }

  lemma {:induction false} SuccessLoggedAfter(s: State, actions: seq<Action>, maxRetries: int)
    requires Sound(s) && SuccessLogged(s)
    ensures SuccessLogged(After(s, actions, maxRetries))
    decreases |actions|
  {
    if actions == [] {
    } else {
      SoundNext(s, actions[0], maxRetries);
      SuccessLoggedNext(s, actions[0], maxRetries);
      SuccessLoggedAfter(Next(s, actions[0], maxRetries), actions[1..], maxRetries);
    }
  }

  // While nobody approves twice, no attempt is under way for a succeeded execution and no approval is left to commit,
  // so only decisions against it take the success away. A cancellation among them read it before it succeeded.
  lemma OnlyDecisionsDiscard(s: State, a: Action, maxRetries: int)
    requires Sound(s) && Accounted(s, maxRetries) && SuccessLogged(s) && Succeeds(s) && !ApprovesTwice(s, a)
    ensures Discards(s, a, maxRetries) <==> DecidesAgainst(s, a)
    ensures DecidesAgainst(s, a) && s.sessions[a.session].request.ToCancel? ==> s.sessions[a.session].seen.status != Success
  {
    if Enabled(s, a) && (a.Write? || a.Finish?) { assert SessionSound(s.row.value, s.sessions[a.session]); }
    assert !HasFlow(s) && s.row.value.calls > s.row.value.columns.retries;
  }

  predicate StaysSuccess(s: State, more: seq<Action>, maxRetries: int)
    decreases |more|
  {
    Succeeds(s) && (more == [] || StaysSuccess(Next(s, more[0], maxRetries), more[1..], maxRetries))
  }

  predicate NobodyDecidesAgainst(s: State, more: seq<Action>, maxRetries: int)
    decreases |more|
  {
    more == [] || (!DecidesAgainst(s, more[0]) && NobodyDecidesAgainst(Next(s, more[0], maxRetries), more[1..], maxRetries))
  }

  lemma {:induction false} StaysSuccessExactly(s: State, more: seq<Action>, maxRetries: int)
    requires Sound(s) && Accounted(s, maxRetries) && SuccessLogged(s) && Succeeds(s) && ApprovedOnce(s, more, maxRetries)
    ensures StaysSuccess(s, more, maxRetries) <==> NobodyDecidesAgainst(s, more, maxRetries)
    decreases |more|
  {
    if more == [] {
    } else {
      SuccessLeftExactly(s, more[0], maxRetries);
      OnlyDecisionsDiscard(s, more[0], maxRetries);
      if Succeeds(Next(s, more[0], maxRetries)) {
        SoundNext(s, more[0], maxRetries);
        AccountedNext(s, more[0], maxRetries);
        SuccessLoggedNext(s, more[0], maxRetries);
        StaysSuccessExactly(Next(s, more[0], maxRetries), more[1..], maxRetries);
      }
    }
  }

  // While nobody approves twice, a success stays one in every state of the run that follows exactly if no rejection
  // and no cancellation that read the execution before is committed.
  lemma SuccessStaysExactly(actions: seq<Action>, more: seq<Action>, maxRetries: int)
    requires ApprovedOnce(START, actions, maxRetries) && Succeeds(After(START, actions, maxRetries))
    requires ApprovedOnce(After(START, actions, maxRetries), more, maxRetries)
    ensures var s := After(START, actions, maxRetries);
            StaysSuccess(s, more, maxRetries) <==> NobodyDecidesAgainst(s, more, maxRetries)
  {
    SoundAfter(START, actions, maxRetries);
    AccountedAfter(START, actions, maxRetries);
    SuccessLoggedAfter(START, actions, maxRetries);
    StaysSuccessExactly(After(START, actions, maxRetries), more, maxRetries);
  }

  // ---- the audit log against the row ----

  ghost predicate Replays(r: Row) {
    Replay(r.audits) == r.columns
  }

  predicate Mistells(q: Request, seen: Columns, now: Columns) {
    match q
    case ToApprove => false
    case ToReject => (seen.status == Rejected && now.status != Rejected) || (seen.approval == Refused && now.approval != Refused)
    case ToCancel => seen.approval == Pending && now.approval in {NotRequired, Granted}
  }

  // The commits whose audit event does not tell what they did to the row: a rejection by a session that had read
  // a refused one (it leaves that column alone), a cancellation by one that had read a pending one approved since, and a
  // retry by one whose retry count or running status has moved on.
  predicate Diverges(s: State, a: Action, maxRetries: int) {
    && Enabled(s, a) && s.row.Some?
    && var now := s.row.value.columns;
       match a
       case Write(q) => Mistells(s.sessions[q].request, s.sessions[q].seen, now)
       case Finish(q, result) =>
         var seen := s.sessions[q].seen;
         Retries(seen, result, maxRetries) && (seen.retries != now.retries || (seen.status == Running && now.status != Running))
       case _ => false
  }

  lemma AnswerReplays(s: State, q: nat, maxRetries: int)
    requires Sound(s) && Enabled(s, Write(q)) && Replays(s.row.value)
    ensures Replays(Next(s, Write(q), maxRetries).row.value) <==> !Diverges(s, Write(q), maxRetries)
  {
    var r, x := s.row.value, s.sessions[q];
    assert SessionSound(r, x) && Next(s, Write(q), maxRetries).row.value == Answered(r, x.request, x.seen);
    ReplayAppend(r.audits, Audit(EventOf(x.request), Wanted(x.request, x.seen).approval));
    AnswerTold(x.request, x.seen, r.columns);
  }

  lemma AnswerTold(q: Request, seen: Columns, now: Columns)
    requires Allowed(q, seen) && (CanApprove(seen) || now.approval.Pending? ==> seen == WAITING)
    ensures ReplayOne(now, Audit(EventOf(q), Wanted(q, seen).approval)) == WriteBack(now, seen, Wanted(q, seen)) <==> !Mistells(q, seen, now)
  {
  }

  lemma FinishReplays(s: State, q: nat, result: ExecutorResult, maxRetries: int)
    requires Sound(s) && Enabled(s, Finish(q, result)) && Replays(s.row.value)
    ensures Replays(Next(s, Finish(q, result), maxRetries).row.value) <==> !Diverges(s, Finish(q, result), maxRetries)
  {
    var x := s.sessions[q];
    assert SessionSound(s.row.value, x);
    ReplayAppendTwo(s.row.value.audits, Audit(Started, x.seen.approval), Audit(OutcomeOf(x.seen, result, maxRetries), x.seen.approval));
  }

  lemma CreateReplays(approvalRequired: bool, end: End, maxRetries: int)
    ensures var t := CreatedState(approvalRequired, end, maxRetries); t.row.Some? ==> Replays(t.row.value)
  {
    var a := Audit(Created, NewColumns(approvalRequired).approval);
    ReplayAppend([], a);
    assert [] + [a] == NewRow(approvalRequired).audits;
    if !approvalRequired && end.Returns? {
      var c := NewColumns(false);
      ReplayAppendTwo(NewRow(false).audits, Audit(Started, c.approval), Audit(OutcomeOf(c, end.result, maxRetries), c.approval));
    }
  }

  // Of a row that is what its log replays to, a step makes another exactly if it is not one of these.
  lemma ReplaysExactly(s: State, a: Action, maxRetries: int)
    requires Sound(s) && (s.row.Some? ==> Replays(s.row.value))
    ensures var t := Next(s, a, maxRetries);
            t.row.Some? ==> (Replays(t.row.value) <==> !Diverges(s, a, maxRetries))
  {
    if Enabled(s, a) {
      match a
      case Create(needs, end) => CreateReplays(needs, end, maxRetries);
      case Write(q) => AnswerReplays(s, q, maxRetries);
      case Finish(q, result) => FinishReplays(s, q, result, maxRetries);
      case _ =>
    }
  }

  // A session that commits over the row it has read never is.
  lemma OnlyStaleCommitsDiverge(s: State, a: Action, maxRetries: int)
    requires Diverges(s, a, maxRetries)
    ensures (a.Write? || a.Finish?) && s.sessions[a.session].seen != s.row.value.columns
  {
  }

  predicate NeverDiverges(s: State, actions: seq<Action>, maxRetries: int)
    decreases |actions|
  {
    actions == [] || (!Diverges(s, actions[0], maxRetries) && NeverDiverges(Next(s, actions[0], maxRetries), actions[1..], maxRetries))
  }

  lemma {:induction false} ReplaysAfter(s: State, actions: seq<Action>, maxRetries: int)
    requires Sound(s) && (s.row.Some? ==> Replays(s.row.value)) && NeverDiverges(s, actions, maxRetries)
    ensures var t := After(s, actions, maxRetries); t.row.Some? ==> Replays(t.row.value)
    decreases |actions|
  {
    if actions == [] {
    } else {
      SoundNext(s, actions[0], maxRetries);
      ReplaysExactly(s, actions[0], maxRetries);
      ReplaysAfter(Next(s, actions[0], maxRetries), actions[1..], maxRetries);
    }
  }

  // At every commit point of a run without such a commit, replaying the audit log gives the status, the approval
  // status and the retry count of the row; the first such commit ends that.
  lemma AuditReplaysToRow(actions: seq<Action>, maxRetries: int)
    requires NeverDiverges(START, actions, maxRetries) && After(START, actions, maxRetries).row.Some?
    ensures Replay(After(START, actions, maxRetries).row.value.audits) == After(START, actions, maxRetries).row.value.columns
    ensures forall a :: Diverges(After(START, actions, maxRetries), a, maxRetries) ==>
              var r := Next(After(START, actions, maxRetries), a, maxRetries).row.value; Replay(r.audits) != r.columns
  {
    SoundAfter(START, actions, maxRetries);
    ReplaysAfter(START, actions, maxRetries);
    forall a | Diverges(After(START, actions, maxRetries), a, maxRetries)
      ensures var r := Next(After(START, actions, maxRetries), a, maxRetries).row.value; Replay(r.audits) != r.columns
    {
      ReplaysExactly(After(START, actions, maxRetries), a, maxRetries);
    }
  }

  // An approval commits either on a row still waiting, which keeps both properties, or late. A late one calls the
  // executor too often, or reopens an ended execution, or neither: where the first flow raised before its call.
  lemma LateApprovals(s: State, q: nat, maxRetries: int)
    requires Sound(s) && Enabled(s, Write(q)) && s.sessions[q].request.ToApprove?
    ensures CanApprove(s.row.value.columns) ==> !ApprovesTwice(s, Write(q)) && !Reopens(s, Write(q), maxRetries)
    ensures !CanApprove(s.row.value.columns) ==>
              || ApprovesTwice(s, Write(q))
              || Reopens(s, Write(q), maxRetries)
              || (CanRun(s.row.value.columns) && !HasFlow(s) && s.row.value.calls <= s.row.value.columns.retries)
  {
    match s.row.value.columns.status
    case PendingValidation | WaitingApproval | WaitingExecution | Running =>
    case Success | Failed | Timeout | Cancelled | Rejected =>
  }

  // ---- runs that show it ----

  const SUCCESS := ExecutorResult(true, false, false)
  const AGAIN := ExecutorResult(false, false, true)

  lemma Then(actions: seq<Action>, s: State, a: Action, t: State, maxRetries: int) returns (longer: seq<Action>)
    requires After(START, actions, maxRetries) == s && Next(s, a, maxRetries) == t
    ensures longer == actions + [a] && After(START, longer, maxRetries) == t
  {
    longer := actions + [a];
    AfterConcat(START, actions, [a], maxRetries);
    AfterOne(s, a, [], maxRetries);
    assert [a] + [] == [a];
  }

  const APPROVED_LOG := [Audit(Created, Pending), Audit(Approved, Granted)]
  const SUCCESS_LOG := APPROVED_LOG + [Audit(Started, Granted), Audit(Succeeded, Granted)]

  // Two requests read the waiting execution and both pass the check; one of them approves it.
  lemma FirstApproves(other: Request) returns (actions: seq<Action>)
    ensures After(START, actions, 0) ==
            State(Some(Row(Columns(WaitingExecution, Granted, 0), APPROVED_LOG, 0)), [Entering, Deciding(other, WAITING)])
  {
    var first, second := Deciding(ToApprove, WAITING), Deciding(other, WAITING);
    var s1 := State(Some(NewRow(true)), []);
    var s2 := State(s1.row, [first]);
    var s3 := State(s1.row, [first, second]);
    var s4 := State(Some(Row(Columns(WaitingExecution, Granted, 0), APPROVED_LOG, 0)), [Entering, second]);
    actions := Then([], START, Create(true, Raises(false)), s1, 0);
    actions := Then(actions, s1, Read(ToApprove), s2, 0);
    actions := Then(actions, s2, Read(other), s3, 0);
    assert [Audit(Created, Pending)] + [Audit(Approved, Granted)] == APPROVED_LOG;
    actions := Then(actions, s3, Write(0), s4, 0);
  }

  // It runs the execution to success.
  lemma FirstApprovalSucceeds(other: Request) returns (actions: seq<Action>)
    ensures After(START, actions, 0) ==
            State(Some(Row(Columns(Success, Granted, 0), SUCCESS_LOG, 1)), [Gone, Deciding(other, WAITING)])
  {
    actions := FirstApproves(other);
    var ready := Columns(WaitingExecution, Granted, 0);
    var second := Deciding(other, WAITING);
    var s4 := State(Some(Row(ready, APPROVED_LOG, 0)), [Entering, second]);
    var s5 := State(s4.row, [Checked(ready, 2), second]);
    var s6 := State(Some(Row(ready, APPROVED_LOG, 1)), [Executing(ready, 2), second]);
    var s7 := State(Some(Row(Columns(Success, Granted, 0), SUCCESS_LOG, 1)), [Gone, second]);
    actions := Then(actions, s4, Refresh(0), s5, 0);
    actions := Then(actions, s5, Call(0), s6, 0);
    actions := Then(actions, s6, Finish(0, SUCCESS), s7, 0);
  }

  // The second then makes it wait again and runs it a second time, after its success and with no retry allowed.
  lemma TwoApprovalsCallTwice() returns (actions: seq<Action>)
    ensures var s := After(START, actions, 0);
            && s.row == Some(Row(Columns(WaitingExecution, Granted, 0), SUCCESS_LOG + [Audit(Approved, Granted)], 2))
            && s.sessions == [Gone, Executing(s.row.value.columns, 5)]
  {
    actions := FirstApprovalSucceeds(ToApprove);
    var ready := Columns(WaitingExecution, Granted, 0);
    var s7 := State(Some(Row(Columns(Success, Granted, 0), SUCCESS_LOG, 1)), [Gone, Deciding(ToApprove, WAITING)]);
    var log := SUCCESS_LOG + [Audit(Approved, Granted)];
    var s8 := State(Some(Row(ready, log, 1)), [Gone, Entering]);
    var s9 := State(s8.row, [Gone, Checked(ready, 5)]);
    actions := Then(actions, s7, Write(1), s8, 0);
    actions := Then(actions, s8, Refresh(1), s9, 0);
    actions := Then(actions, s9, Call(1), State(Some(Row(ready, log, 2)), [Gone, Executing(ready, 5)]), 0);
  }

  const CANCELLED_LOG := APPROVED_LOG + [Audit(CancelledEvent, Granted)]
  const RETRIED_LOG := CANCELLED_LOG + [Audit(Started, Granted), Audit(Retry, Granted)]

  // A first attempt that read the execution before it was cancelled and asks for a retry makes it run again.
  lemma RetryReopensCancelled() returns (actions: seq<Action>)
    ensures After(START, actions, 1) ==
            State(Some(Row(Columns(Running, Granted, 1), RETRIED_LOG, 1)), [Checked(Columns(Running, Granted, 1), 5), Gone])
  {
    var ready := Columns(WaitingExecution, Granted, 0);
    var s1 := State(Some(NewRow(true)), []);
    var s2 := State(s1.row, [Deciding(ToApprove, WAITING)]);
    var s3 := State(Some(Row(ready, APPROVED_LOG, 0)), [Entering]);
    var s4 := State(s3.row, [Entering, Deciding(ToCancel, ready)]);
    var s5 := State(s3.row, [Checked(ready, 2), Deciding(ToCancel, ready)]);
    actions := Then([], START, Create(true, Raises(false)), s1, 1);
    actions := Then(actions, s1, Read(ToApprove), s2, 1);
    assert [Audit(Created, Pending)] + [Audit(Approved, Granted)] == APPROVED_LOG;
    actions := Then(actions, s2, Write(0), s3, 1);
    actions := Then(actions, s3, Read(ToCancel), s4, 1);
    actions := Then(actions, s4, Refresh(0), s5, 1);
    actions := CancelledInBetween(actions, s5);
  }

  lemma CancelledInBetween(before: seq<Action>, s5: State) returns (actions: seq<Action>)
    requires After(START, before, 1) == s5
    requires var ready := Columns(WaitingExecution, Granted, 0);
             s5 == State(Some(Row(ready, APPROVED_LOG, 0)), [Checked(ready, 2), Deciding(ToCancel, ready)])
    ensures After(START, actions, 1) ==
            State(Some(Row(Columns(Running, Granted, 1), RETRIED_LOG, 1)), [Checked(Columns(Running, Granted, 1), 5), Gone])
  {
    var ready, ended, running := Columns(WaitingExecution, Granted, 0), Columns(Cancelled, Granted, 0), Columns(Running, Granted, 1);
    var s6 := State(Some(Row(ended, CANCELLED_LOG, 0)), [Checked(ready, 2), Gone]);
    var s7 := State(Some(Row(ended, CANCELLED_LOG, 1)), [Executing(ready, 2), Gone]);
    var s8 := State(Some(Row(running, RETRIED_LOG, 1)), [Entering, Gone]);
    actions := Then(before, s5, Write(1), s6, 1);
    actions := Then(actions, s6, Call(0), s7, 1);
    actions := Then(actions, s7, Finish(0, AGAIN), s8, 1);
    actions := Then(actions, s8, Refresh(0), State(s8.row, [Checked(running, 5), Gone]), 1);
  }

  // A cancellation that read the execution as pending overwrites the approval granted since; the log says granted.
  lemma CancelledApprovalDiverges() returns (actions: seq<Action>)
    ensures var s := After(START, actions, 0);
            s.row.Some? && s.row.value.columns.approval == Refused && Replay(s.row.value.audits).approval == Granted
  {
    var s1 := State(Some(NewRow(true)), []);
    var s2 := State(s1.row, [Deciding(ToCancel, WAITING)]);
    var s3 := State(s1.row, [Deciding(ToCancel, WAITING), Deciding(ToApprove, WAITING)]);
    var s4 := State(Some(Row(Columns(WaitingExecution, Granted, 0), APPROVED_LOG, 0)), [Deciding(ToCancel, WAITING), Entering]);
    var log := APPROVED_LOG + [Audit(CancelledEvent, Refused)];
    actions := Then([], START, Create(true, Raises(false)), s1, 0);
    actions := Then(actions, s1, Read(ToCancel), s2, 0);
    actions := Then(actions, s2, Read(ToApprove), s3, 0);
    assert [Audit(Created, Pending)] + [Audit(Approved, Granted)] == APPROVED_LOG;
    actions := Then(actions, s3, Write(1), s4, 0);
    actions := Then(actions, s4, Write(0), State(Some(Row(Columns(Cancelled, Refused, 0), log, 0)), [Gone, Entering]), 0);
    ReplayAppend(APPROVED_LOG, Audit(CancelledEvent, Refused));
    ReplayAppendTwo([], Audit(Created, Pending), Audit(Approved, Granted));
    assert [] + APPROVED_LOG == APPROVED_LOG;
  }

  // Success is not final: a finished execution can be rejected.
  lemma SuccessCanBeRejected()
    ensures var done := Next(START, Create(false, Returns(SUCCESS)), 0);
            && done.row.Some? && done.row.value.columns.status == Success
            && Next(Next(done, Read(ToReject), 0), Write(0), 0).row.value.columns.status == Rejected
  {
  }

  // A cancellation that read the execution before its success was committed takes it away.
  lemma SuccessCanBeCancelled() returns (actions: seq<Action>)
    ensures Succeeds(After(START, actions, 0))
    ensures var t := After(START, actions + [Write(1)], 0); t.row.Some? && t.row.value.columns == Columns(Cancelled, Refused, 0)
  {
    actions := FirstApprovalSucceeds(ToCancel);
    var s := After(START, actions, 0);
    var longer := Then(actions, s, Write(1), Next(s, Write(1), 0), 0);
  }

  const TWICE_LOG := APPROVED_LOG + [Audit(Approved, Granted)]
  const FAIL := ExecutorResult(false, false, false)

  // Two approvals commit before either attempt begins.
  lemma TwoFlows() returns (actions: seq<Action>)
    ensures var ready := Columns(WaitingExecution, Granted, 0);
            After(START, actions, 0) == State(Some(Row(ready, TWICE_LOG, 0)), [Checked(ready, 3), Checked(ready, 3)])
  {
    var ready := Columns(WaitingExecution, Granted, 0);
    var s4 := State(Some(Row(ready, APPROVED_LOG, 0)), [Entering, Deciding(ToApprove, WAITING)]);
    var s5 := State(Some(Row(ready, TWICE_LOG, 0)), [Entering, Entering]);
    var s6 := State(s5.row, [Checked(ready, 3), Entering]);
    actions := FirstApproves(ToApprove);
    actions := Then(actions, s4, Write(1), s5, 0);
    actions := Then(actions, s5, Refresh(0), s6, 0);
    actions := Then(actions, s6, Refresh(1), State(s5.row, [Checked(ready, 3), Checked(ready, 3)]), 0);
  }

  // The second attempt's failure then overwrites the first one's success.
  lemma SuccessCanBeOverrun() returns (actions: seq<Action>)
    ensures Succeeds(After(START, actions, 0))
    ensures var t := After(START, actions + [Finish(1, FAIL)], 0); t.row.Some? && t.row.value.columns.status == Failed
  {
    actions := TwoFlows();
    var ready, x := Columns(WaitingExecution, Granted, 0), Checked(Columns(WaitingExecution, Granted, 0), 3);
    var log := TWICE_LOG + [Audit(Started, Granted), Audit(Succeeded, Granted)];
    var s7 := State(Some(Row(ready, TWICE_LOG, 0)), [x, x]);
    var s8 := State(Some(Row(ready, TWICE_LOG, 1)), [Executing(ready, 3), x]);
    var s9 := State(Some(Row(Columns(Success, Granted, 0), log, 1)), [Gone, x]);
    var s10 := State(Some(Row(Columns(Success, Granted, 0), log, 2)), [Gone, Executing(ready, 3)]);
    actions := Then(actions, s7, Call(0), s8, 0);
    actions := Then(actions, s8, Finish(0, SUCCESS), s9, 0);
    actions := Then(actions, s9, Call(1), s10, 0);
    var longer := Then(actions, s10, Finish(1, FAIL), Next(s10, Finish(1, FAIL), 0), 0);
  }

  // ---- the serial recursion and the mock executor ----

  // With nobody else committing, the recursion ends: at most one call per retry left and one more, started events
  // one more than retry events if nothing is raised, and the log still tells the row.
  lemma {:induction false} FlowSound(r: Row, executor: nat -> End, maxRetries: int)
    requires CanRun(r.columns) && Replays(r)
    ensures var t := Flow(r, executor, maxRetries);
            && Replays(t) && r.audits <= t.audits
            && t.calls <= r.calls + 1 + (if r.columns.retries < maxRetries then maxRetries - r.columns.retries else 0)
            && Count(t.audits, Approved) == Count(r.audits, Approved)
            && (FlowReturns(r, executor, maxRetries) ==>
                  && t.columns.status in {Success, Timeout, Failed}
                  && Count(t.audits, Started) - Count(r.audits, Started) == Count(t.audits, Retry) - Count(r.audits, Retry) + 1
                  && t.calls - r.calls == Count(t.audits, Started) - Count(r.audits, Started))
    decreases if r.columns.retries < maxRetries then maxRetries - r.columns.retries else 0
  {
    var end := executor(r.columns.retries);
    if end.Returns? {
      var seen := r.columns;
      ReplayAppendTwo(r.audits, Audit(Started, seen.approval), Audit(OutcomeOf(seen, end.result, maxRetries), seen.approval));
      AttemptCounts(r.(calls := r.calls + 1), seen, end.result, maxRetries);
      if WillRetry(seen, end, maxRetries) { FlowSound(Attempt(r, seen, end, maxRetries), executor, maxRetries); }
    }
  }

  // The flow returns exactly if it was allowed to run and the execution has ended: an exception leaves it waiting for
  // execution or running.
  lemma {:induction false} FlowReturnsExactly(r: Row, executor: nat -> End, maxRetries: int)
    ensures FlowReturns(r, executor, maxRetries) <==>
              (r.columns.status == WaitingExecution || r.columns.status == Running)
              && Flow(r, executor, maxRetries).columns.status in {Success, Timeout, Failed}
    decreases if r.columns.retries < maxRetries then maxRetries - r.columns.retries else 0
  {
    var end := executor(r.columns.retries);
    if WillRetry(r.columns, end, maxRetries) { FlowReturnsExactly(Attempt(r, r.columns, end, maxRetries), executor, maxRetries); }
  }

  // What a flow makes of a row that its session may have read earlier. It does nothing unless it read it waiting for
  // execution or running. An exception leaves the row as committed. Otherwise what was read says how the first
  // attempt ends (`left`, `kind`), and after a retry the flow goes on with what has been committed.
  lemma FlowOnVerdict(r: Row, seen: Columns, executor: nat -> End, maxRetries: int, left: Columns, kind: Kind)
    requires var end := executor(seen.retries); end.Returns? ==> EndsAttempt(seen, end.result, maxRetries, left, kind)
    ensures var t, end := FlowOn(r, seen, executor, maxRetries), executor(seen.retries);
            var ok := FlowOnReturns(r, seen, executor, maxRetries);
            var after := Row(WriteBack(r.columns, seen, left), r.audits + [Audit(Started, seen.approval), Audit(kind, seen.approval)],
                             r.calls + 1);
            if seen.status != WaitingExecution && seen.status != Running then t == r && !ok
            else if end.Raises? then t == r.(calls := if end.called then r.calls + 1 else r.calls) && !ok
            else if kind == Retry then t == Flow(after, executor, maxRetries) && ok == FlowReturns(after, executor, maxRetries)
            else t == after && ok
    ensures FlowOn(r, r.columns, executor, maxRetries) == Flow(r, executor, maxRetries)
  {
  }

  // MockExecutor.execute: the payload's simulate_mode, or else its mode, or else success.
  function MockResult(simulateMode: string, mode: string, retryCount: nat): ExecutorResult {
    var chosen := Lower(Strip(if simulateMode != "" then simulateMode else if mode != "" then mode else "success"));
    if chosen == "failure" then ExecutorResult(false, false, false)
    else if chosen == "timeout" then ExecutorResult(false, true, false)
    else if chosen == "retry" && retryCount < 1 then ExecutorResult(false, false, true)
    else ExecutorResult(true, false, false)
  }

  function MockExecutor(simulateMode: string, mode: string): nat -> End {
    (n: nat) => Returns(MockResult(simulateMode, mode, n))
  }

  // Retry mode composed with the recursion: exactly two calls and success when a retry is allowed, one call
  // and failure when none is. Any other mode makes one call.
  lemma {:induction false} MockFlow(simulateMode: string, mode: string, r: Row, maxRetries: int)
    requires CanRun(r.columns) && r.columns.retries == 0
    ensures var t := Flow(r, MockExecutor(simulateMode, mode), maxRetries);
            var chosen := Lower(Strip(if simulateMode != "" then simulateMode else if mode != "" then mode else "success"));
            && (chosen == "retry" && maxRetries >= 1 ==>
                  t.columns.status == Success && t.calls == r.calls + 2 && t.columns.retries == 1)
            && (chosen == "retry" && maxRetries < 1 ==> t.columns.status == Failed && t.calls == r.calls + 1)
            && (chosen == "failure" ==> t.columns.status == Failed && t.calls == r.calls + 1)
            && (chosen == "timeout" ==> t.columns.status == Timeout && t.calls == r.calls + 1)
            && (chosen !in {"retry", "failure", "timeout"} ==> t.columns.status == Success && t.calls == r.calls + 1)
  {
    var executor := MockExecutor(simulateMode, mode);
    var once := Attempt(r, r.columns, executor(0), maxRetries);
    if WillRetry(r.columns, executor(0), maxRetries) {
      assert executor(1) == Returns(ExecutorResult(true, false, false));
      assert Flow(once, executor, maxRetries) == Attempt(once, once.columns, executor(1), maxRetries);
    }
  }

  // ---- one session of the service, and the stored execution it works on ----

  class ExecutionService {
    // what is stored, whoever has committed it
    var stored: Option<Columns>
    var log: seq<Audit>
    var calls: nat
    // the session: the columns as it read them, as it has set them, and audit rows not yet committed
    var loaded: Columns
    var status: Status
    var approvalStatus: Approval
    var retryCount: nat
    var added: seq<Audit>

    ghost function Contents(): Option<Row>
      reads this
    {
      if stored.None? then None else Some(Row(stored.value, log, calls))
    }

    function Held(): Columns
      reads this
    {
      Columns(status, approvalStatus, retryCount)
    }

    // The session has read the row, at any time before now, and has changed nothing since.
    ghost predicate HasRead(seen: Columns)
      reads this
    {
      stored.Some? && loaded == seen && Held() == seen && added == []
    }

    constructor ()
      ensures Contents() == None && log == [] && calls == 0
    {
      stored, log, calls := None, [], 0;
      var none := Columns(PendingValidation, NotRequired, 0);
      loaded, added := none, [];
      status, approvalStatus, retryCount := none.status, none.approval, none.retries;
    }

    method Query()
      requires stored.Some?
      modifies this
      ensures Contents() == old(Contents()) && calls == old(calls) && HasRead(stored.value)
    {
      loaded, added := stored.value, [];
      status, approvalStatus, retryCount := loaded.status, loaded.approval, loaded.retries;
    }

    method WriteAuditEvent(kind: Kind)
      modifies this`added
      ensures added == old(added) + [Audit(kind, approvalStatus)]
    {
      added := added + [Audit(kind, approvalStatus)];
    }

    // An insert of a new row, or an update of the columns changed since they were read; then the refresh.
    method Commit()
      modifies this
      ensures Contents() == match old(Contents())
                            case None => Some(Row(old(Held()), old(log) + old(added), old(calls)))
                            case Some(r) => Some(Commits(r, old(loaded), old(Held()), old(added)))
      ensures calls == old(calls) && stored.Some? && HasRead(stored.value)
    {
      var next := Held();
      stored := Some(if stored.None? then next else WriteBack(stored.value, loaded, next));
      log := log + added;
      Query();
    }

    // The session loses what it has not committed; a call made is made.
    method Rollback()
      modifies this
      ensures Contents() == old(Contents()) && calls == old(calls)
    {
      if stored.Some? { Query(); }
    }

    // Returns whether nothing was raised. An execution that is being created is not stored yet.
    method RunExecutionFlow(executor: nat -> End, maxRetries: int) returns (ok: bool)
      requires stored.Some? ==> HasRead(loaded)
      modifies this
      ensures old(stored).Some? ==> Contents() == Some(FlowOn(old(Contents()).value, old(loaded), executor, maxRetries))
                                    && ok == old(FlowOnReturns(Contents().value, loaded, executor, maxRetries))
      ensures old(stored).None? ==>
                var r := old(Row(Held(), log + added, calls));
                && ok == FlowReturns(r, executor, maxRetries)
                && Contents() == if old(CanRun(Held())) && executor(old(retryCount)).Returns?
                                 then Some(Flow(r, executor, maxRetries)) else None
      decreases if retryCount < maxRetries then maxRetries - retryCount else 0
    {
      if status != WaitingExecution && status != Running { return false; }
      ghost var r, seen := if stored.Some? then Contents().value else Row(Held(), log + added, calls), Held();
      var end := executor(retryCount);
      status := Running;
      WriteAuditEvent(Started);
      if end.Returns? || end.called { calls := calls + 1; }
      if end.Raises? {
        Rollback();
        return false;
      }
      var again := SetOutcome(end.result, maxRetries);
      assert added == old(added) + AttemptEvents(seen, end.result, maxRetries);
      assert old(log) + added == old(log) + old(added) + AttemptEvents(seen, end.result, maxRetries);
      assert old(added) == [] ==> added == AttemptEvents(seen, end.result, maxRetries);
      Commit();
      assert Contents() == Some(Attempt(r, seen, end, maxRetries));
      if again {
        ok := RunExecutionFlow(executor, maxRetries);
        return ok;
      }
      return true;
    }

    // The columns and the audit row an executor result leads to.
    method SetOutcome(result: ExecutorResult, maxRetries: int) returns (again: bool)
      requires status == Running
      modifies this`status, this`retryCount, this`added
      ensures again == Retries(old(Held()), result, maxRetries)
      ensures Held() == Left(old(Held()), result, maxRetries)
      ensures added == old(added) + [Audit(OutcomeOf(old(Held()), result, maxRetries), approvalStatus)]
    {
      if result.success {
        status := Success;
        WriteAuditEvent(Succeeded);
      } else if result.timeout {
        status := Timeout;
        WriteAuditEvent(TimedOut);
      } else if result.retryable && retryCount < maxRetries {
        retryCount := retryCount + 1;
        WriteAuditEvent(Retry);
        return true;
      } else {
        status := Failed;
        WriteAuditEvent(FailedEvent);
      }
      return false;
    }

    method CreateExecution(approvalRequired: bool, executor: nat -> End, maxRetries: int) returns (ok: bool)
      requires stored.None? && log == [] && calls == 0
      modifies this
      ensures Contents() == if approvalRequired then Some(NewRow(true))
                            else if executor(0).Returns? then Some(Flow(NewRow(false), executor, maxRetries)) else None
      ensures ok == (approvalRequired || FlowReturns(NewRow(false), executor, maxRetries))
    {
      status := if approvalRequired then WaitingApproval else WaitingExecution;
      approvalStatus := if approvalRequired then Pending else NotRequired;
      retryCount, added := 0, [];
      WriteAuditEvent(Created);
      assert Row(Held(), log + added, calls) == NewRow(approvalRequired);
      if approvalRequired {
        Commit();
        return true;
      }
      ok := RunExecutionFlow(executor, maxRetries);
    }

    // The check is made on the row as this session read it; what is stored may have moved on.
    method ApproveExecution(executor: nat -> End, maxRetries: int) returns (ok: bool)
      requires HasRead(loaded)
      modifies this
      ensures var before, approved := old(Contents()).value, Answered(old(Contents()).value, ToApprove, old(loaded));
              && Contents() == Some(if CanApprove(old(loaded)) then FlowOn(approved, approved.columns, executor, maxRetries) else before)
              && ok == (CanApprove(old(loaded)) && FlowOnReturns(approved, approved.columns, executor, maxRetries))
      ensures old(loaded).status !in {PendingValidation, WaitingApproval} ==> !ok && Contents() == old(Contents())
    {
      if status != WaitingApproval && status != PendingValidation { return false; }
      approvalStatus := Granted;
      status := WaitingExecution;
      WriteAuditEvent(Approved);
      assert added == [Audit(Approved, Granted)];
      Commit();
      ok := RunExecutionFlow(executor, maxRetries);
    }

    method RejectExecution()
      requires HasRead(loaded)
      modifies this
      ensures Contents() == Some(Answered(old(Contents()).value, ToReject, old(loaded)))
    {
      approvalStatus := Refused;
      status := Rejected;
      WriteAuditEvent(RejectedEvent);
      assert added == [Audit(RejectedEvent, Refused)];
      Commit();
    }

    method CancelExecution() returns (ok: bool)
      requires HasRead(loaded)
      modifies this
      ensures ok == (old(loaded).status in {PendingValidation, WaitingApproval, WaitingExecution, Running, Rejected})
      ensures ok ==> Contents().Some? && Contents().value.columns.status == Cancelled
      ensures Contents() == Some(Answered(old(Contents()).value, ToCancel, old(loaded)))
    {
      if status in {Success, Failed, Cancelled, Timeout} { return false; }
      status := Cancelled;
      if approvalStatus == Pending { approvalStatus := Refused; }
      WriteAuditEvent(CancelledEvent);
      assert added == [Audit(CancelledEvent, approvalStatus)];
      Commit();
      return true;
    }
  }
}
