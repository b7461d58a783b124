// The Alpha Workflow pipeline as a saga: artefacts are committed stage by stage, their ids are cached stage by
// stage, and a failure anywhere is undone by id (backend/alpha_workflow/service.py).
module AlphaSaga {
  import opened Options
  import AlphaStart

  // ---- tables ----

  datatype Kind =
    | TaskResult
    | ResearchEvidence | ResearchClaim | ResearchSource | ResearchQuery | ResearchExecution
    | Citation | SourceLink | TagRelation | Review | Version | Chunk | Asset
    | Invocation

  datatype Family = Results | Research | Knowledge | Skills

  function FamilyOf(k: Kind): Family {
    match k
    case TaskResult => Results
    case ResearchEvidence | ResearchClaim | ResearchSource | ResearchQuery | ResearchExecution => Research
    case Citation | SourceLink | TagRelation | Review | Version | Chunk | Asset => Knowledge
    case Invocation => Skills
  }

  // key: the task id, execution id, knowledge id or invocation id the row is keyed by, as its family says.
  datatype Row = Row(kind: Kind, key: nat, number: nat)

  datatype Code = WorkflowCreated | WorkflowStarted | ResearchExecuted | CandidateCreated | SkillInvoked | Verified
                | Audited | FeedbackRecorded | DashboardRefreshed | WorkflowCompleted | WorkflowFailed

  datatype RunStatus = Running | Completed | Failed

  datatype TaskStatus = Created | InProgress | Summarized | Refused

  datatype AuditKind = ResearchRecorded | ExecutionFailed

  datatype Execution = Execution(failed: bool, audits: seq<AuditKind>)

  const NEW_EXECUTION := Execution(false, [ResearchRecorded])

  // The artefact tables, and this run's own rows: its events, the run, its task and its agent execution.
  datatype Db = Db(rows: set<Row>, events: seq<Code>, status: RunStatus, awaitingRecovery: bool, reason: string,
                   linkedTask: Option<nat>, task: Option<TaskStatus>, execution: Option<Execution>)

  // The ids known to the exception handler.
  datatype Cached = Cached(task: Option<nat>, execution: Option<nat>, research: Option<nat>, knowledge: Option<nat>,
                           invocation: Option<nat>)

  datatype Session = Session(committed: Db, working: Db, cached: Cached)

  // Every chunk has a version of its knowledge asset: chunks are only ever deleted by that cascade.
  ghost predicate ChunksReferToVersions(rows: set<Row>) {
    forall r :: r in rows && r.kind == Chunk ==> exists v :: v in rows && v.kind == Version && v.key == r.key
  }

  // ---- the pipeline ----

  // The ids one run is given, and the rows its helpers write.
  datatype Job = Job(task: nat, execution: nat, knowledge: nat, invocation: nat,
                     research: set<Row>, candidate: set<Row>, skill: set<Row>, citations: set<Row>, report: set<Row>)

  predicate Keyed(rows: set<Row>, family: Family, key: nat) {
    forall r :: r in rows ==> FamilyOf(r.kind) == family && r.key == key
  }

  ghost predicate ValidJob(job: Job) {
    && Keyed(job.research, Research, job.execution)
    && Keyed(job.candidate, Knowledge, job.knowledge) && ChunksReferToVersions(job.candidate)
    && (forall r :: r in job.skill ==> (r.kind == Invocation && r.key == job.invocation) || (r.kind == TaskResult && r.key == job.task))
    && (forall r :: r in job.citations ==> r.kind == Citation && r.key == job.knowledge)
    && (forall r :: r in job.report ==> r.kind == TaskResult && r.key == job.task)
  }

  datatype Instruction =
    | Commit
    | Emit(code: Code)
    | NewTask
    | CacheTask
    | LinkTask
    | NewExecution
    | CacheExecution
    | PersistResearch   // flushed only; the next commit is the one inside SubmitKnowledge
    | SubmitKnowledge
    | InvokeSkill
    | RecordUse
    | Complete

  function Committed(s: Session): Session {
    s.(committed := s.working)
  }

  function Adding(s: Session, rows: set<Row>): Session {
    s.(working := s.working.(rows := s.working.rows + rows))
  }

  function Execute(s: Session, i: Instruction, job: Job): Session {
    var w := s.working;
    match i
    case Commit => Committed(s)
    case Emit(code) => s.(working := w.(events := w.events + [code]))
    case NewTask => s.(working := w.(task := Some(Created)))
    case CacheTask => s.(cached := s.cached.(task := Some(job.task)))
    case LinkTask => s.(working := w.(task := Some(InProgress), linkedTask := Some(job.task)))
    case NewExecution => s.(working := w.(execution := Some(NEW_EXECUTION)))
    case CacheExecution => s.(cached := s.cached.(execution := Some(job.execution)))
    case PersistResearch => Adding(s, job.research).(cached := s.cached.(research := Some(job.execution)))
    case SubmitKnowledge => Committed(Adding(s, job.candidate)).(cached := s.cached.(knowledge := Some(job.knowledge)))
    case InvokeSkill => Committed(Adding(s, job.skill)).(cached := s.cached.(invocation := Some(job.invocation)))
    case RecordUse => Committed(Adding(s, job.citations))
    case Complete =>
      s.(working := w.(rows := w.rows + job.report, task := Some(Summarized), status := Completed,
                       events := w.events + [Verified, Audited, FeedbackRecorded, DashboardRefreshed, WorkflowCompleted]))
  }

  const PIPELINE: seq<Instruction> := [
    Emit(WorkflowCreated), Commit,
    NewTask, Commit, CacheTask, LinkTask, Commit,
    Emit(WorkflowStarted), Commit, NewExecution, Commit, CacheExecution,
    PersistResearch, Emit(ResearchExecuted),
    SubmitKnowledge, Emit(CandidateCreated),
    Commit, InvokeSkill, Emit(SkillInvoked),
    RecordUse, Complete, Commit]

  // How many instructions it takes until ...
  const TASK_COMMITTED := 4
  const TASK_CACHED := 5
  const TASK_LINKED := 7            // the commit after which compensation can reach the task
  const EXECUTION_COMMITTED := 11
  const EXECUTION_CACHED := 12
  const RESEARCH_CACHED := 13
  const KNOWLEDGE_COMMITTED := 15   // and with it the research rows
  const SKILL_COMMITTED := 18
  const CITATION_COMMITTED := 20
  const REPORT_COMMITTED := 22

  function Fresh(initial: Db): Session {
    Session(initial, initial, Cached(None, None, None, None, None))
  }

  // The state after the first n instructions.
  function After(initial: Db, job: Job, n: nat): Session
    requires n <= |PIPELINE|
  {
    if n == 0 then Fresh(initial) else Execute(After(initial, job, n - 1), PIPELINE[n - 1], job)
  }

  // ---- compensation ----

  // ON DELETE CASCADE from a version and from an asset, and within a research execution.
  predicate Cascades(parent: Kind, child: Kind) {
    match parent
    case Version => child == Chunk || child == TagRelation
    case Asset => FamilyOf(child) == Knowledge
    case ResearchExecution => FamilyOf(child) == Research
    case ResearchSource => child == ResearchEvidence
    case _ => false
  }

  ghost predicate Has(rows: set<Row>, kind: Kind, key: nat) {
    exists r :: r in rows && r.kind == kind && r.key == key
  }

  // DELETE FROM kind WHERE its key column = key
  ghost function Deleted(rows: set<Row>, kind: Kind, key: nat): set<Row> {
    set r | r in rows && !(r.key == key && (r.kind == kind || (Cascades(kind, r.kind) && Has(rows, kind, key))))
  }

  // The task is visible to its owner through the run that links it.
  predicate TaskVisible(db: Db, cached: Cached) {
    cached.task.Some? && db.linkedTask == cached.task
  }

  predicate Reached(r: Row, cached: Cached, taskVisible: bool) {
    match FamilyOf(r.kind)
    case Results => taskVisible && cached.task == Some(r.key)
    case Research => cached.research == Some(r.key)
    case Knowledge => cached.knowledge == Some(r.key)
    case Skills => cached.invocation == Some(r.key)
  }

  function Kept(rows: set<Row>, cached: Cached, taskVisible: bool): set<Row> {
    set r | r in rows && !Reached(r, cached, taskVisible)
  }

  function FailedExecution(e: Execution): Execution {
    Execution(true, if ExecutionFailed in e.audits then e.audits else e.audits + [ExecutionFailed])
  }

  // Roll back, delete by id, fail the agent execution, the run and the task, commit.
  function Compensated(s: Session, reason: string): Db {
    var db := s.committed;
    db.(rows := Kept(db.rows, s.cached, TaskVisible(db, s.cached)),
        events := db.events + [WorkflowFailed],
        status := Failed, awaitingRecovery := true, reason := reason,
        task := if TaskVisible(db, s.cached) then Some(Refused) else db.task,
        execution := if s.cached.execution.Some? && db.execution.Some? then Some(FailedExecution(db.execution.value)) else db.execution)
  }

  // ---- which failures are compensated ----

  // The unique constraints of the runs table, the four identity columns among them, and all others.
  datatype Constraint = IdentityColumn(column: AlphaStart.Constraint) | ResearchReportId | SkillInvocationId | OtherConstraint

  datatype Failure = Raised | Integrity(constraint: Constraint)

  // A violated identity column is not compensated if the four identities resolve to one visible run: that run is
  // the answer.
  predicate AnsweredWithoutCompensation(f: Failure, resolution: AlphaStart.Resolution) {
    f.Integrity? && f.constraint.IdentityColumn? && resolution.Match?
  }

  function Handled(s: Session, f: Failure, resolution: AlphaStart.Resolution, reason: string): Db {
    if AnsweredWithoutCompensation(f, resolution) then s.committed else Compensated(s, reason)
  }

  // What an instruction makes of the run's row in the runs table. Only the last stage assigns identity columns,
  // and takes them from the context that was made together with the row.
  function Assigned(i: Instruction, row: AlphaStart.Run, context: AlphaStart.Run): AlphaStart.Run {
    if i.Complete? then row.(workflow := context.workflow, root := context.root, graph := context.graph) else row
  }

  // A statement about row `me` can violate an identity column only by writing what another row has there.
  ghost predicate Clashes(runs: seq<AlphaStart.Run>, me: nat, written: AlphaStart.Run, c: AlphaStart.Constraint) {
    exists j :: 0 <= j < |runs| && j != me
                && AlphaStart.Field(runs[j], AlphaStart.ColumnOf(c)) == AlphaStart.Field(written, AlphaStart.ColumnOf(c))
  }

  // The failures an instruction can have, given the runs table at that moment.
  ghost predicate CanFail(i: Instruction, runs: seq<AlphaStart.Run>, me: nat, context: AlphaStart.Run, f: Failure)
    requires me < |runs|
  {
    f.Integrity? && f.constraint.IdentityColumn? ==> Clashes(runs, me, Assigned(i, runs[me], context), f.constraint.column)
  }

  // ---- what holds after every instruction ----

  // Only rows that the cached ids reach have been committed, and nothing of others has been touched.
  ghost predicate Reachable(initial: Db, s: Session) {
    && initial.rows <= s.committed.rows
    && (forall r :: r in s.committed.rows && r !in initial.rows ==> Reached(r, s.cached, TaskVisible(s.committed, s.cached)))
  }

  function From<T>(n: nat, start: nat, value: T): Option<T> {
    if n >= start then Some(value) else None
  }

  // Where the pipeline stands after n instructions.
  ghost predicate Stage(initial: Db, job: Job, n: nat, s: Session) {
    && s.cached == Cached(From(n, TASK_CACHED, job.task), From(n, EXECUTION_CACHED, job.execution),
                          From(n, RESEARCH_CACHED, job.execution), From(n, KNOWLEDGE_COMMITTED, job.knowledge),
                          From(n, SKILL_COMMITTED, job.invocation))
    && s.committed.linkedTask == (if n >= TASK_LINKED then Some(job.task) else initial.linkedTask)
    && s.working.linkedTask == (if n >= TASK_LINKED - 1 then Some(job.task) else initial.linkedTask)
  }

  ghost predicate OwnRows(initial: Db, n: nat, s: Session) {
    && s.committed.execution == (if n >= EXECUTION_COMMITTED then Some(NEW_EXECUTION) else initial.execution)
    && s.working.execution == (if n >= EXECUTION_COMMITTED - 1 then Some(NEW_EXECUTION) else initial.execution)
    && s.committed.task == (if n < TASK_COMMITTED then initial.task else if n < TASK_LINKED then Some(Created)
                            else if n < REPORT_COMMITTED then Some(InProgress) else Some(Summarized))
    && s.working.task == (if n < TASK_COMMITTED - 1 then initial.task else if n < TASK_LINKED - 1 then Some(Created)
                          else if n < REPORT_COMMITTED - 1 then Some(InProgress) else Some(Summarized))
    && s.committed.status == (if n >= REPORT_COMMITTED then Completed else initial.status)
    && s.working.status == (if n >= REPORT_COMMITTED - 1 then Completed else initial.status)
  }

  lemma StageStep(initial: Db, job: Job, n: nat, s: Session)
    requires 0 < n <= |PIPELINE| && Stage(initial, job, n - 1, s)
    ensures Stage(initial, job, n, Execute(s, PIPELINE[n - 1], job))
  {
  }

  lemma {:induction false} StageAfter(initial: Db, job: Job, n: nat)
    requires n <= |PIPELINE|
    ensures Stage(initial, job, n, After(initial, job, n))
  {
    if n == 0 {
    } else {
      StageAfter(initial, job, n - 1);
      StageStep(initial, job, n, After(initial, job, n - 1));
    }
  }

  lemma OwnRowsEarly(initial: Db, job: Job, n: nat, s: Session)
    requires 0 < n < EXECUTION_COMMITTED && OwnRows(initial, n - 1, s)
    ensures OwnRows(initial, n, Execute(s, PIPELINE[n - 1], job))
  {
  }

  lemma OwnRowsLate(initial: Db, job: Job, n: nat, s: Session)
    requires EXECUTION_COMMITTED <= n <= |PIPELINE| && OwnRows(initial, n - 1, s)
    ensures OwnRows(initial, n, Execute(s, PIPELINE[n - 1], job))
  {
  }

  lemma {:induction false} OwnRowsAfter(initial: Db, job: Job, n: nat)
    requires n <= |PIPELINE|
    ensures OwnRows(initial, n, After(initial, job, n))
  {
    if n == 0 {
    } else {
      OwnRowsAfter(initial, job, n - 1);
      if n < EXECUTION_COMMITTED { OwnRowsEarly(initial, job, n, After(initial, job, n - 1)); }
      else { OwnRowsLate(initial, job, n, After(initial, job, n - 1)); }
    }
  }

  ghost function RowsAt(initial: Db, job: Job, n: nat): set<Row> {
    initial.rows
    + (if n >= KNOWLEDGE_COMMITTED then job.research + job.candidate else {})
    + (if n >= SKILL_COMMITTED then job.skill else {})
    + (if n >= CITATION_COMMITTED then job.citations else {})
    + (if n >= REPORT_COMMITTED then job.report else {})
  }

  ghost function PendingAt(job: Job, n: nat): set<Row> {
    if RESEARCH_CACHED <= n < KNOWLEDGE_COMMITTED then job.research
    else if n == REPORT_COMMITTED - 1 then job.report
    else {}
  }

  ghost predicate RowsAre(initial: Db, job: Job, n: nat, s: Session) {
    && s.committed.rows == RowsAt(initial, job, n)
    && s.working.rows == RowsAt(initial, job, n) + PendingAt(job, n)
  }

  lemma RowsEarly(initial: Db, job: Job, n: nat, s: Session)
    requires 0 < n < KNOWLEDGE_COMMITTED && RowsAre(initial, job, n - 1, s)
    ensures RowsAre(initial, job, n, Execute(s, PIPELINE[n - 1], job))
  {
  }

  lemma RowsLate(initial: Db, job: Job, n: nat, s: Session)
    requires KNOWLEDGE_COMMITTED <= n <= |PIPELINE| && RowsAre(initial, job, n - 1, s)
    ensures RowsAre(initial, job, n, Execute(s, PIPELINE[n - 1], job))
  {
  }

  lemma {:induction false} RowsAfter(initial: Db, job: Job, n: nat)
    requires n <= |PIPELINE|
    ensures RowsAre(initial, job, n, After(initial, job, n))
  {
    if n == 0 {
    } else {
      RowsAfter(initial, job, n - 1);
      if n < KNOWLEDGE_COMMITTED { RowsEarly(initial, job, n, After(initial, job, n - 1)); }
      else { RowsLate(initial, job, n, After(initial, job, n - 1)); }
    }
  }

  // The event log of a run that comes to its end.
  const EVENTS := [WorkflowCreated, WorkflowStarted, ResearchExecuted, CandidateCreated, SkillInvoked,
                   Verified, Audited, FeedbackRecorded, DashboardRefreshed, WorkflowCompleted]

  // How many of them are written after n instructions, and how many committed.
  function EventsWritten(n: nat): nat {
    if n < 1 then 0 else if n < 8 then 1 else if n < 14 then 2 else if n < 16 then 3 else if n < 19 then 4
    else if n < 21 then 5 else 10
  }

  function EventsCommitted(n: nat): nat {
    if n < 2 then 0 else if n < 9 then 1 else if n < 15 then 2 else if n < 17 then 3 else if n < 20 then 4
    else if n < 22 then 5 else 10
  }

  // The first k events.
  function EventsUpTo(k: nat): seq<Code>
    requires k <= |EVENTS|
  {
    if k == 0 then [] else EventsUpTo(k - 1) + [EVENTS[k - 1]]
  }

  ghost predicate EventsAre(initial: Db, n: nat, s: Session) {
    && s.committed.events == initial.events + EventsUpTo(EventsCommitted(n))
    && s.working.events == initial.events + EventsUpTo(EventsWritten(n))
  }

  lemma NextEvent(before: seq<Code>, k: nat)
    requires k < |EVENTS|
    ensures before + EventsUpTo(k) + [EVENTS[k]] == before + EventsUpTo(k + 1)
  {
    assert before + EventsUpTo(k) + [EVENTS[k]] == before + (EventsUpTo(k) + [EVENTS[k]]);
  }

  lemma EventsEarly(initial: Db, job: Job, n: nat, s: Session)
    requires 0 < n < EXECUTION_COMMITTED && EventsAre(initial, n - 1, s)
    ensures EventsAre(initial, n, Execute(s, PIPELINE[n - 1], job))
  {
    if n == 1 || n == 8 { NextEvent(initial.events, EventsWritten(n - 1)); }
  }

  lemma EventsLate(initial: Db, job: Job, n: nat, s: Session)
    requires EXECUTION_COMMITTED <= n <= |PIPELINE| && EventsAre(initial, n - 1, s)
    ensures EventsAre(initial, n, Execute(s, PIPELINE[n - 1], job))
  {
    if n == 21 {
      LastEvents(initial.events);
    } else if n == 14 || n == 16 || n == 19 {
      NextEvent(initial.events, EventsWritten(n - 1));
    }
  }

  lemma LastEvents(before: seq<Code>)
    ensures before + EventsUpTo(5) + [Verified, Audited, FeedbackRecorded, DashboardRefreshed, WorkflowCompleted]
            == before + EventsUpTo(10)
  {
    var five := before + EventsUpTo(5);
    NextEvent(before, 5);
    NextEvent(before, 6);
    NextEvent(before, 7);
    NextEvent(before, 8);
    NextEvent(before, 9);
    assert five + [Verified, Audited, FeedbackRecorded, DashboardRefreshed, WorkflowCompleted]
        == five + [Verified] + [Audited] + [FeedbackRecorded] + [DashboardRefreshed] + [WorkflowCompleted];
  }

  lemma {:induction false} EventsAfter(initial: Db, job: Job, n: nat)
    requires n <= |PIPELINE|
    ensures EventsAre(initial, n, After(initial, job, n))
  {
    if n == 0 {
    } else {
      EventsAfter(initial, job, n - 1);
      if n < EXECUTION_COMMITTED { EventsEarly(initial, job, n, After(initial, job, n - 1)); }
      else { EventsLate(initial, job, n, After(initial, job, n - 1)); }
    }
  }

  lemma ReachableAfter(initial: Db, job: Job, n: nat)
    requires n <= |PIPELINE| && ValidJob(job)
    ensures Reachable(initial, After(initial, job, n))
  {
    StageAfter(initial, job, n);
    RowsAfter(initial, job, n);
  }

  lemma ChunksAfter(initial: Db, job: Job, n: nat)
    requires n <= |PIPELINE| && ValidJob(job) && ChunksReferToVersions(initial.rows)
    ensures ChunksReferToVersions(After(initial, job, n).committed.rows)
  {
    RowsAfter(initial, job, n);
  }

  // ---- the results ----

  // A failure after any number of instructions leaves, of the artefact tables, exactly the rows that were there
  // before the run began less those keyed by a cached id.
  lemma CompensationUndoesEverything(initial: Db, job: Job, n: nat, reason: string)
    requires n <= |PIPELINE| && ValidJob(job)
    ensures var s := After(initial, job, n);
            Compensated(s, reason).rows == Kept(initial.rows, s.cached, TaskVisible(s.committed, s.cached))
  {
    ReachableAfter(initial, job, n);
  }

  predicate Mentions(r: Row, job: Job) {
    match FamilyOf(r.kind)
    case Results => r.key == job.task
    case Research => r.key == job.execution
    case Knowledge => r.key == job.knowledge
    case Skills => r.key == job.invocation
  }

  // With ids nobody had used before, a failed run leaves the artefact tables as it found them.
  lemma FreshIdsLeaveNoTrace(initial: Db, job: Job, n: nat, reason: string)
    requires n <= |PIPELINE| && ValidJob(job) && forall r :: r in initial.rows ==> !Mentions(r, job)
    ensures Compensated(After(initial, job, n), reason).rows == initial.rows
  {
    CompensationUndoesEverything(initial, job, n, reason);
    StageAfter(initial, job, n);
  }

  // Row by row, whatever was there before: nothing keyed to other ids changes, and what a cached id reaches is gone.
  lemma OthersAreUntouched(initial: Db, job: Job, n: nat, reason: string, r: Row)
    requires n <= |PIPELINE| && ValidJob(job)
    ensures var s, after := After(initial, job, n), Compensated(After(initial, job, n), reason);
            && (!Mentions(r, job) ==> (r in after.rows <==> r in initial.rows))
            && (Reached(r, s.cached, TaskVisible(s.committed, s.cached)) ==> r !in after.rows)
  {
    CompensationUndoesEverything(initial, job, n, reason);
    StageAfter(initial, job, n);
  }

  function Count(audits: seq<AuditKind>, kind: AuditKind): nat {
    if audits == [] then 0 else Count(audits[..|audits| - 1], kind) + if audits[|audits| - 1] == kind then 1 else 0
  }

  // The run ends failed and awaiting recovery, the committed events are kept and one is added, the agent execution
  // is failed with one execution_failed audit exactly when its id had been cached, and the task is rejected
  // exactly when the run had been linked to it.
  lemma FailedRun(initial: Db, job: Job, n: nat, reason: string)
    requires n <= |PIPELINE| && initial.task.None? && initial.linkedTask.None? && initial.execution.None?
    ensures var after := Compensated(After(initial, job, n), reason);
            && after.status == Failed && after.awaitingRecovery && after.reason == reason
            && after.events == initial.events + EventsUpTo(EventsCommitted(n)) + [WorkflowFailed]
            && (after.execution.Some? <==> n >= EXECUTION_COMMITTED)
            && (after.execution.Some? ==>
                  && (after.execution.value.failed <==> n >= EXECUTION_CACHED)
                  && Count(after.execution.value.audits, ExecutionFailed) == if n >= EXECUTION_CACHED then 1 else 0)
            && (after.task == if n < TASK_COMMITTED then None else if n < TASK_LINKED then Some(Created) else Some(Refused))
  {
    StageAfter(initial, job, n);
    OwnRowsAfter(initial, job, n);
    EventsAfter(initial, job, n);
    assert [ResearchRecorded, ExecutionFailed][..1] == [ResearchRecorded];
    assert [ResearchRecorded][..0] == [];
  }

  // Between the commit of the agent execution and the caching of its id a failure leaves it completed.
  lemma ExecutionMissedByCompensation(initial: Db, job: Job, reason: string)
    requires initial.task.None? && initial.linkedTask.None? && initial.execution.None?
    ensures Compensated(After(initial, job, EXECUTION_COMMITTED), reason).execution == Some(NEW_EXECUTION)
  {
    StageAfter(initial, job, EXECUTION_COMMITTED);
    OwnRowsAfter(initial, job, EXECUTION_COMMITTED);
  }

  // Compensating a compensated run again adds an event and nothing else: no second audit of the failure, and no row goes
  // that the first time left.
  lemma CompensatedAgain(s: Session, working: Db, reason: string)
    requires s.cached.execution.Some? ==> s.committed.execution.Some?
    ensures var once := Compensated(s, reason);
            Compensated(s.(committed := once, working := working), reason) == once.(events := once.events + [WorkflowFailed])
  {
    var once := Compensated(s, reason);
    var twice := Compensated(s.(committed := once, working := working), reason);
    assert TaskVisible(once, s.cached) == TaskVisible(s.committed, s.cached);
    assert twice.rows == once.rows;
  }

  // No instruction changes an identity column, so the row stays as the request created it.
  lemma {:induction false} IdentitiesStay(context: AlphaStart.Run, written: seq<Instruction>)
    ensures AssignedAll(written, context, context) == context
  {
    if written == [] {
    } else {
      IdentitiesStay(context, written[..|written| - 1]);
    }
  }

  function AssignedAll(written: seq<Instruction>, row: AlphaStart.Run, context: AlphaStart.Run): AlphaStart.Run {
    if written == [] then row
    else Assigned(written[|written| - 1], AssignedAll(written[..|written| - 1], row, context), context)
  }

  // Once the run exists, no failure of the pipeline is answered with a run: whatever instruction fails, however the
  // identities resolve by then, the failure is compensated. Violating an identity column would take a second row
  // with the value that the unique columns already give to this one.
  lemma EveryFailureIsCompensated(initial: Db, job: Job, n: nat, f: Failure, reason: string, request: AlphaStart.Request,
                                  graph: string, runs: seq<AlphaStart.Run>, me: nat, resolution: AlphaStart.Resolution)
    requires n < |PIPELINE| && AlphaStart.UniqueFields(runs) && me < |runs|
    requires var created := AlphaStart.NewRun(request, graph);
             runs[me] == AssignedAll(PIPELINE[..n], created, created) && CanFail(PIPELINE[n], runs, me, created, f)
    ensures Handled(After(initial, job, n), f, resolution, reason) == Compensated(After(initial, job, n), reason)
  {
    var created := AlphaStart.NewRun(request, graph);
    IdentitiesStay(created, PIPELINE[..n]);
  }

  // While the run is visible the identities resolve to it and to no other.
  lemma ResolvesToItself(request: AlphaStart.Request, graph: string, runs: seq<AlphaStart.Run>, visible: set<nat>, me: nat,
                         resolution: AlphaStart.Resolution)
    requires AlphaStart.UniqueFields(runs) && me < |runs| && me in visible && runs[me] == AlphaStart.NewRun(request, graph)
    requires request.trace != "" && AlphaStart.Resolves(runs, visible, AlphaStart.Identities(request.trace, graph), resolution)
    ensures resolution == AlphaStart.Match(me)
  {
    var provided := AlphaStart.Identities(request.trace, graph);
    assert AlphaStart.Hits(runs[me], provided, 0);
    AlphaStart.ResolutionIsUnique(runs, visible, provided, resolution, AlphaStart.Match(me));
  }

  // ---- the deletes, statement by statement ----

  ghost predicate ChunksHeld(rows: set<Row>, key: nat) {
    forall r :: r in rows && r.kind == Chunk && r.key == key ==> Has(rows, Version, key)
  }

  // Where there is a version, deleting it takes its chunks and tag relations along; otherwise the delete changes nothing.
  lemma VersionDeleted(rows: set<Row>, key: nat)
    ensures Deleted(rows, Version, key) ==
              if exists v :: v in rows && v.kind == Version && v.key == key
              then set r | r in rows && !(r.key == key && r.kind in {Version, Chunk, TagRelation}) else rows
  {
    if exists v :: v in rows && v.kind == Version && v.key == key {
    } else {
      assert !Has(rows, Version, key);
    }
  }

  // And a research source takes its evidence along, a research execution or a knowledge asset all of its family.
  lemma ParentDeleted(rows: set<Row>, kind: Kind, key: nat)
    requires kind in {ResearchSource, ResearchExecution, Asset} && exists p :: p in rows && p.kind == kind && p.key == key
    ensures Deleted(rows, kind, key) ==
              set r | r in rows && !(r.key == key && (match kind
                                                      case ResearchSource => r.kind in {ResearchSource, ResearchEvidence}
                                                      case ResearchExecution => FamilyOf(r.kind) == Research
                                                      case _ => FamilyOf(r.kind) == Knowledge))
  {
  }

  ghost function ResearchDeleted(rows: set<Row>, key: nat): set<Row> {
    Deleted(Deleted(Deleted(Deleted(Deleted(rows, ResearchEvidence, key), ResearchClaim, key), ResearchSource, key),
                    ResearchQuery, key), ResearchExecution, key)
  }

  lemma ResearchGone(rows: set<Row>, key: nat)
    ensures ResearchDeleted(rows, key) == set r | r in rows && !(FamilyOf(r.kind) == Research && r.key == key)
  {
  }

  ghost function KnowledgeDeleted(rows: set<Row>, key: nat): set<Row> {
    Deleted(Deleted(LinksDeleted(rows, key), Version, key), Asset, key)
  }

  ghost function LinksDeleted(rows: set<Row>, key: nat): set<Row> {
    Deleted(Deleted(Deleted(Deleted(rows, Citation, key), SourceLink, key), TagRelation, key), Review, key)
  }

  lemma LinksGone(rows: set<Row>, key: nat)
    requires ChunksHeld(rows, key)
    ensures LinksDeleted(rows, key) == set r | r in rows && !(r.kind in {Citation, SourceLink, TagRelation, Review} && r.key == key)
    ensures ChunksHeld(LinksDeleted(rows, key), key)
  {
    var left := LinksDeleted(rows, key);
    if Has(rows, Version, key) {
      var v :| v in rows && v.kind == Version && v.key == key;
      assert v in left;
    }
  }

  lemma KnowledgeGone(rows: set<Row>, key: nat)
    requires ChunksHeld(rows, key)
    ensures KnowledgeDeleted(rows, key) == set r | r in rows && !(FamilyOf(r.kind) == Knowledge && r.key == key)
  {
    LinksGone(rows, key);
  }

  class WorkflowSession {
    var committed: Db
    var rows: set<Row>
    var events: seq<Code>
    var status: RunStatus
    var awaitingRecovery: bool
    var reason: string
    var linkedTask: Option<nat>
    var task: Option<TaskStatus>
    var execution: Option<Execution>

    ghost function Working(): Db
      reads this
    {
      Db(rows, events, status, awaitingRecovery, reason, linkedTask, task, execution)
    }

    constructor (db: Db)
      ensures committed == db && Working() == db
    {
      committed := db;
      rows, events, status, awaitingRecovery, reason := db.rows, db.events, db.status, db.awaitingRecovery, db.reason;
      linkedTask, task, execution := db.linkedTask, db.task, db.execution;
    }

    method CommitSession()
      modifies this`committed
      ensures committed == Working()
    {
      committed := Db(rows, events, status, awaitingRecovery, reason, linkedTask, task, execution);
    }

    method Rollback()
      modifies this
      ensures committed == old(committed) && Working() == committed
    {
      rows, events, status, awaitingRecovery := committed.rows, committed.events, committed.status, committed.awaitingRecovery;
      reason, linkedTask, task, execution := committed.reason, committed.linkedTask, committed.task, committed.execution;
    }

    method Delete(kind: Kind, key: nat)
      modifies this`rows
      ensures rows == Deleted(old(rows), kind, key)
    {
      var held := exists r :: r in rows && r.kind == kind && r.key == key;
      rows := set r | r in rows && !(r.key == key && (r.kind == kind || (Cascades(kind, r.kind) && held)));
    }

    method DeleteResearch(key: nat)
      modifies this`rows
      ensures rows == set r | r in old(rows) && !(FamilyOf(r.kind) == Research && r.key == key)
    {
      ResearchGone(rows, key);
      Delete(ResearchEvidence, key);
      Delete(ResearchClaim, key);
      Delete(ResearchSource, key);
      Delete(ResearchQuery, key);
      Delete(ResearchExecution, key);
    }

    method DeleteKnowledge(key: nat)
      requires ChunksHeld(rows, key)
      modifies this`rows
      ensures rows == set r | r in old(rows) && !(FamilyOf(r.kind) == Knowledge && r.key == key)
    {
      KnowledgeGone(rows, key);
      Delete(Citation, key);
      Delete(SourceLink, key);
      Delete(TagRelation, key);
      Delete(Review, key);
      Delete(Version, key);
      Delete(Asset, key);
    }

    method CleanupArtifacts(cached: Cached)
      requires ChunksReferToVersions(rows)
      modifies this`rows
      ensures rows == Kept(old(rows), cached, cached.task.Some? && linkedTask == cached.task)
    {
      ghost var before, visible := rows, cached.task.Some? && linkedTask == cached.task;
      if cached.task.Some? && linkedTask == cached.task { Delete(TaskResult, cached.task.value); }
      if cached.research.Some? { DeleteResearch(cached.research.value); }
      assert forall r :: r in rows <==> r in before && !(FamilyOf(r.kind) in {Results, Research} && Reached(r, cached, visible));
      if cached.knowledge.Some? { DeleteKnowledge(cached.knowledge.value); }
      assert forall r :: r in rows <==> r in before && !(FamilyOf(r.kind) in {Results, Research, Knowledge} && Reached(r, cached, visible));
      if cached.invocation.Some? { Delete(Invocation, cached.invocation.value); }
    }

    method CompensateFailure(cached: Cached, failureReason: string)
      requires ChunksReferToVersions(committed.rows)
      modifies this
      ensures committed == Compensated(Session(old(committed), old(Working()), cached), failureReason)
      ensures Working() == committed
    {
      Rollback();
      CleanupArtifacts(cached);
      if cached.execution.Some? && execution.Some? {
        var audits := execution.value.audits;
        if ExecutionFailed !in audits { audits := audits + [ExecutionFailed]; }
        execution := Some(Execution(true, audits));
      }
      status := Failed;
      reason := failureReason;
      awaitingRecovery := true;
      events := events + [WorkflowFailed];
      if cached.task.Some? && linkedTask == cached.task { task := Some(Refused); }
      CommitSession();
    }
  }
}
