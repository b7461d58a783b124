// The employee execution engine: claim, start, complete, fail, and the worker's processing of one
// queue item (backend/execution_engine.py). The lock itself is in ExecutionLock.
module ExecutionEngine {
  import opened Options
  import opened Ownership
  import opened Redaction
  import opened Text

  // Other is any status the engine itself never writes, such as created.
  datatype Status = Other | Assigned | Running | WaitingReview | Completed | Failed

  datatype Task = Task(title: string, description: string, priority: string,
                       employee: string, employeeName: string, owner: Owner, status: Status)

  datatype LogAction = LogQueued | LogStarted | LogWaitingReview | LogCompleted | LogFailed

  datatype Log = Log(task: nat, action: LogAction, status: Status, output: Option<Json>, error: Option<string>)

  datatype Result = Result(task: nat, content: Json)

  datatype Item = Item(task: nat, ownership: Option<Owner>, bossConfirmed: bool, securityAudited: bool)

  datatype State = State(tasks: map<nat, Task>, logs: seq<Log>, results: seq<Result>, queue: seq<Item>)

  datatype Error = Unsafe | WrongStatus | NoEmployee | NoOwnership | QueueUnavailable

  // How the RPUSH of an item ends: it can raise, and be applied all the same.
  datatype Push = Sent | Unsent | SentUnheard

  // Where the processing of an admitted item breaks off, if it does, for a reason other than the start checks: with
  // no commit made, after the commit of the start, after that of the completion. The handler then records the
  // failure, unless the session or the connection fails it as well.
  datatype Stage = NotStarted | NotCompleted | AfterCompletion

  datatype Course = Smooth | Broken(at: Stage, recorded: bool, message: string)

  const CRITICAL_KEYWORDS: seq<string> := ["deploy", "deployment", "部署", "上线", "docker"]
  const HIGH_KEYWORDS: seq<string> := ["权限", "permission", "password", "secret", "token", "支付", "扣费", "删除",
                                       "drop", "truncate", "git push", "systemctl"]

  datatype Risk = Low | High | Critical

  function InferRisk(t: Task): Risk {
    var text := Lower(t.title + " " + t.description + " " + t.priority);
    if exists k | k in CRITICAL_KEYWORDS :: Contains(text, k) then Critical
    else if exists k | k in HIGH_KEYWORDS :: Contains(text, k) then High
    else Low
  }

  predicate Approved(t: Task, boss: bool, audited: bool) {
    InferRisk(t).Low? || (boss && audited)
  }

  function ClaimError(t: Task, boss: bool, audited: bool): Option<Error> {
    if t.status != Assigned then Some(WrongStatus)
    else if t.employee == "" then Some(NoEmployee)
    else if !Approved(t, boss, audited) then Some(Unsafe)
    else if ContextOf(t.owner).None? then Some(NoOwnership)
    else None
  }

  function StartError(t: Task, boss: bool, audited: bool): Option<Error> {
    if !Approved(t, boss, audited) then Some(Unsafe)
    else if t.status != Assigned then Some(WrongStatus)
    else if t.employee == "" then Some(NoEmployee)
    else None
  }

  function CompleteError(t: Task): Option<Error> {
    if t.status in {Running, WaitingReview} then None else Some(WrongStatus)
  }

  // write_execution_log: output and error are redacted once more here.
  function Logged(s: State, id: nat, action: LogAction, status: Status, output: Json, error: string): State {
    s.(logs := s.logs + [Log(id, action, status, Some(Sanitize(output)),
                             if error == "" then None else Some(RedactText(error)))])
  }

  function WithStatus(s: State, id: nat, status: Status): State
    requires id in s.tasks
  {
    s.(tasks := s.tasks[id := s.tasks[id].(status := status)])
  }

  function WorkerOutput(worker: string): Json {
    Dict([Entry("worker_id", Str(worker))])
  }

  function MockOutput(id: nat, t: Task): Json {
    Dict([Entry("mode", Str("mock_execution")), Entry("task_id", Number(id)), Entry("employee_code", Str(t.employee)),
          Entry("summary", Str((if t.employeeName == "" then t.employee else t.employeeName)
                               + " 已完成受控模拟执行，等待人工验收。"))])
  }

  function Claimed(s: State, id: nat, boss: bool, audited: bool, push: Push): State
    requires id in s.tasks
  {
    if ClaimError(s.tasks[id], boss, audited).Some? || push.Unsent? then s
    else
      var t := s.(queue := s.queue + [Item(id, ContextOf(s.tasks[id].owner), boss, audited)]);
      if push.Sent? then Logged(t, id, LogQueued, Assigned, Dict([]), "") else t
  }

  function Started(s: State, id: nat, worker: string, boss: bool, audited: bool): State
    requires id in s.tasks
  {
    if StartError(s.tasks[id], boss, audited).Some? then s
    else Logged(WithStatus(s, id, Running), id, LogStarted, Running, WorkerOutput(worker), "")
  }

  function Finished(s: State, id: nat, output: Json, review: bool): State
    requires id in s.tasks
  {
    if CompleteError(s.tasks[id]).Some? then s
    else if review then
      Logged(WithStatus(s, id, WaitingReview), id, LogWaitingReview, WaitingReview, Sanitize(output), "")
    else
      var t := Logged(WithStatus(s, id, Completed), id, LogCompleted, Completed, Sanitize(output), "");
      t.(results := t.results + [Result(id, Sanitize(output))])
  }

  function FailedWith(s: State, id: nat, worker: string, message: string): State
    requires id in s.tasks
  {
    Logged(WithStatus(s, id, Failed), id, LogFailed, Failed, WorkerOutput(worker), RedactText(message))
  }

  predicate Admitted(s: State, item: Item) {
    item.task in s.tasks && OwnedBy(s.tasks[item.task].owner, item.ownership)
  }

  function ErrorText(e: Error): string {
    match e
    case Unsafe => "high risk execution requires boss confirmation and security audit"
    case WrongStatus => "task must be assigned before running"
    case NoEmployee => "task has no assigned employee"
    case NoOwnership => "task ownership is incomplete"
    case QueueUnavailable => "execution queue unavailable"
  }

  // The except clause of process_next_execution_task.
  function Recorded(s: State, id: nat, worker: string, message: string, recorded: bool): State
    requires id in s.tasks
  {
    if recorded then FailedWith(s, id, worker, message) else s
  }

  function Executed(s: State, id: nat, worker: string, boss: bool, audited: bool, course: Course): State
    requires id in s.tasks
  {
    var error := StartError(s.tasks[id], boss, audited);
    if error.Some? then Recorded(s, id, worker, ErrorText(error.value), course.Smooth? || course.recorded)
    else if course.Broken? && course.at.NotStarted? then Recorded(s, id, worker, course.message, course.recorded)
    else
      var started := Started(s, id, worker, boss, audited);
      if course.Broken? && course.at.NotCompleted? then Recorded(started, id, worker, course.message, course.recorded)
      else
        var finished := Finished(started, id, MockOutput(id, started.tasks[id]), false);
        if course.Broken? then Recorded(finished, id, worker, course.message, course.recorded) else finished
  }

  // process_next_execution_task once the lock attempt has ended as `acquired` says.
  function ProcessedNext(s: State, worker: string, acquired: bool, course: Course): State {
    if s.queue == [] then s
    else
      var item, rest := s.queue[0], s.(queue := s.queue[1..]);
      if !Admitted(s, item) || !acquired then rest
      else Executed(rest, item.task, worker, item.bossConfirmed, item.securityAudited, course)
  }

  // ---- the life of a task over any sequence of calls ----

  datatype Call =
    | Claim(id: nat, boss: bool, audited: bool, push: Push)
    | Start(id: nat, worker: string, boss: bool, audited: bool)
    | Complete(id: nat, output: Json, review: bool)
    | Fail(id: nat, worker: string, message: string)
    | Process(worker: string, acquired: bool, course: Course)

  function Performed(s: State, c: Call): State {
    match c
    case Claim(id, boss, audited, push) => if id in s.tasks then Claimed(s, id, boss, audited, push) else s
    case Start(id, worker, boss, audited) => if id in s.tasks then Started(s, id, worker, boss, audited) else s
    case Complete(id, output, review) => if id in s.tasks then Finished(s, id, output, review) else s
    case Fail(id, worker, message) => if id in s.tasks then FailedWith(s, id, worker, message) else s
    case Process(worker, acquired, course) => ProcessedNext(s, worker, acquired, course)
  }

  function PerformedAll(s: State, calls: seq<Call>): State {
    if calls == [] then s else Performed(PerformedAll(s, calls[..|calls| - 1]), calls[|calls| - 1])
  }

  function Rank(status: Status): nat {
    match status
    case Other => 0
    case Assigned => 1
    case Running => 2
    case WaitingReview => 3
    case Completed => 4
    case Failed => 5
  }

  function CountLogs(logs: seq<Log>, id: nat, action: LogAction): nat {
    if logs == [] then 0
    else
      var last := logs[|logs| - 1];
      CountLogs(logs[..|logs| - 1], id, action) + if last.task == id && last.action == action then 1 else 0
  }

  function CountResults(results: seq<Result>, id: nat): nat {
    if results == [] then 0
    else CountResults(results[..|results| - 1], id) + if results[|results| - 1].task == id then 1 else 0
  }

  function LastLog(logs: seq<Log>, id: nat): Option<Log> {
    if logs == [] then None
    else if logs[|logs| - 1].task == id then Some(logs[|logs| - 1])
    else LastLog(logs[..|logs| - 1], id)
  }

  // What the log and result tables say about a task agrees with its status.
  ghost predicate Ledger(s: State, id: nat)
    requires id in s.tasks
  {
    var status := s.tasks[id].status;
    && CountLogs(s.logs, id, LogStarted) <= (if Rank(status) < Rank(Running) then 0 else 1)
    && CountLogs(s.logs, id, LogCompleted) <= (if Rank(status) < Rank(Completed) then 0 else 1)
    && CountResults(s.results, id) == CountLogs(s.logs, id, LogCompleted)
    && (LastLog(s.logs, id).Some? ==> LastLog(s.logs, id).value.status == status)
  }

  ghost predicate CompletionOf(log: Log, r: Result) {
    log.task == r.task && log.action == LogCompleted && log.output == Some(r.content)
  }

  ghost predicate HasCompletion(logs: seq<Log>, r: Result) {
    exists j :: 0 <= j < |logs| && CompletionOf(logs[j], r)
  }

  // Every result row repeats the output of a completion log of its task.
  ghost predicate ResultsLogged(s: State) {
    forall i :: 0 <= i < |s.results| ==> HasCompletion(s.logs, s.results[i])
  }

  lemma LoggedCounts(s: State, id: nat, action: LogAction, status: Status, output: Json, error: string, x: nat)
    ensures var t := Logged(s, id, action, status, output, error);
            && (forall a :: CountLogs(t.logs, x, a) == CountLogs(s.logs, x, a) + if x == id && a == action then 1 else 0)
            && LastLog(t.logs, x) == (if x == id then Some(t.logs[|s.logs|]) else LastLog(s.logs, x))
            && t.logs[|s.logs|].status == status
            && t.tasks == s.tasks && t.results == s.results && t.queue == s.queue
  {
    var t := Logged(s, id, action, status, output, error);
    assert t.logs[..|t.logs| - 1] == s.logs;
  }

  // The transitions of one task: what a call may do to its status.
  ghost predicate Advances(before: Status, after: Status) {
    Rank(before) <= Rank(after)
  }

  lemma StartedKeeps(s: State, id: nat, worker: string, boss: bool, audited: bool, x: nat)
    requires id in s.tasks && x in s.tasks && Ledger(s, x)
    ensures var t := Started(s, id, worker, boss, audited);
            x in t.tasks && Ledger(t, x) && Advances(s.tasks[x].status, t.tasks[x].status)
  {
    if StartError(s.tasks[id], boss, audited).None? {
      LoggedCounts(WithStatus(s, id, Running), id, LogStarted, Running, WorkerOutput(worker), "", x);
    }
  }

  lemma FinishedKeeps(s: State, id: nat, output: Json, review: bool, x: nat)
    requires id in s.tasks && x in s.tasks && Ledger(s, x)
    ensures var t := Finished(s, id, output, review);
            x in t.tasks && Ledger(t, x) && Advances(s.tasks[x].status, t.tasks[x].status)
  {
    if CompleteError(s.tasks[id]).None? {
      FinishedFacts(s, id, output, review, x);
    }
  }

  lemma FinishedFacts(s: State, id: nat, output: Json, review: bool, x: nat)
    requires id in s.tasks && CompleteError(s.tasks[id]).None?
    ensures var t := Finished(s, id, output, review);
            var status := if review then WaitingReview else Completed;
            var action := if review then LogWaitingReview else LogCompleted;
            && t.tasks == WithStatus(s, id, status).tasks
            && (forall a :: CountLogs(t.logs, x, a) == CountLogs(s.logs, x, a) + if x == id && a == action then 1 else 0)
            && CountResults(t.results, x) == CountResults(s.results, x) + (if x == id && !review then 1 else 0)
            && (x != id ==> LastLog(t.logs, x) == LastLog(s.logs, x))
            && (x == id ==> LastLog(t.logs, x).Some? && LastLog(t.logs, x).value.status == status)
  {
    var o := Sanitize(output);
    if review {
      LoggedCounts(WithStatus(s, id, WaitingReview), id, LogWaitingReview, WaitingReview, o, "", x);
    } else {
      LoggedCounts(WithStatus(s, id, Completed), id, LogCompleted, Completed, o, "", x);
      CountResultsAppend(s.results, Result(id, o), x);
    }
  }

  lemma CountResultsAppend(results: seq<Result>, r: Result, x: nat)
    ensures CountResults(results + [r], x) == CountResults(results, x) + if r.task == x then 1 else 0
  {
    assert (results + [r])[..|results|] == results;
  }

  lemma FailedKeeps(s: State, id: nat, worker: string, message: string, x: nat)
    requires id in s.tasks && x in s.tasks && Ledger(s, x)
    ensures var t := FailedWith(s, id, worker, message);
            x in t.tasks && Ledger(t, x) && Advances(s.tasks[x].status, t.tasks[x].status)
  {
    LoggedCounts(WithStatus(s, id, Failed), id, LogFailed, Failed, WorkerOutput(worker), RedactText(message), x);
  }

  lemma ClaimedKeeps(s: State, id: nat, boss: bool, audited: bool, push: Push, x: nat)
    requires x in s.tasks && Ledger(s, x) && id in s.tasks
    ensures var t := Claimed(s, id, boss, audited, push);
            x in t.tasks && Ledger(t, x) && Advances(s.tasks[x].status, t.tasks[x].status)
  {
    if ClaimError(s.tasks[id], boss, audited).None? {
      LoggedCounts(s.(queue := s.queue + [Item(id, ContextOf(s.tasks[id].owner), boss, audited)]),
                   id, LogQueued, Assigned, Dict([]), "", x);
    }
  }

  lemma CallKeeps(s: State, c: Call, x: nat)
    requires x in s.tasks && Ledger(s, x)
    ensures var t := Performed(s, c);
            x in t.tasks && Ledger(t, x) && Advances(s.tasks[x].status, t.tasks[x].status)
  {
    match c
    case Claim(id, boss, audited, push) => if id in s.tasks { ClaimedKeeps(s, id, boss, audited, push, x); }
    case Start(id, worker, boss, audited) => if id in s.tasks { StartedKeeps(s, id, worker, boss, audited, x); }
    case Complete(id, output, review) => if id in s.tasks { FinishedKeeps(s, id, output, review, x); }
    case Fail(id, worker, message) => if id in s.tasks { FailedKeeps(s, id, worker, message, x); }
    case Process(worker, acquired, course) => ProcessKeeps(s, worker, acquired, course, x);
  }

  lemma RecordedKeeps(s: State, id: nat, worker: string, message: string, recorded: bool, x: nat)
    requires id in s.tasks && x in s.tasks && Ledger(s, x)
    ensures var t := Recorded(s, id, worker, message, recorded);
            x in t.tasks && Ledger(t, x) && Advances(s.tasks[x].status, t.tasks[x].status)
  {
    if recorded { FailedKeeps(s, id, worker, message, x); }
  }

  lemma ExecutedKeeps(s: State, id: nat, worker: string, boss: bool, audited: bool, course: Course, x: nat)
    requires id in s.tasks && x in s.tasks && Ledger(s, x)
    ensures var t := Executed(s, id, worker, boss, audited, course);
            x in t.tasks && Ledger(t, x) && Advances(s.tasks[x].status, t.tasks[x].status)
  {
    var error := StartError(s.tasks[id], boss, audited);
    if error.Some? {
      RecordedKeeps(s, id, worker, ErrorText(error.value), course.Smooth? || course.recorded, x);
    } else {
      StartedKeeps(s, id, worker, boss, audited, x);
      var started := Started(s, id, worker, boss, audited);
      FinishedKeeps(started, id, MockOutput(id, started.tasks[id]), false, x);
      if course.Broken? {
        var reached := match course.at
          case NotStarted => s
          case NotCompleted => started
          case AfterCompletion => Finished(started, id, MockOutput(id, started.tasks[id]), false);
        RecordedKeeps(reached, id, worker, course.message, course.recorded, x);
      }
    }
  }

  lemma ProcessKeeps(s: State, worker: string, acquired: bool, course: Course, x: nat)
    requires x in s.tasks && Ledger(s, x)
    ensures var t := ProcessedNext(s, worker, acquired, course);
            x in t.tasks && Ledger(t, x) && Advances(s.tasks[x].status, t.tasks[x].status)
  {
    if s.queue != [] && Admitted(s, s.queue[0]) && acquired {
      var item, rest := s.queue[0], s.(queue := s.queue[1..]);
      ExecutedKeeps(rest, item.task, worker, item.bossConfirmed, item.securityAudited, course, x);
    }
  }

  // Over any sequence of engine calls a task's status never goes back, it gets at most one start log,
  // one completion log and one result row, and its last log has its status.
  lemma {:induction false} LedgerAlways(s: State, calls: seq<Call>, id: nat)
    requires s.logs == [] && s.results == [] && id in s.tasks
    ensures var t := PerformedAll(s, calls);
            id in t.tasks && Ledger(t, id) && Advances(s.tasks[id].status, t.tasks[id].status)
  {
    if calls == [] {
    } else {
      LedgerAlways(s, calls[..|calls| - 1], id);
      CallKeeps(PerformedAll(s, calls[..|calls| - 1]), calls[|calls| - 1], id);
    }
  }

  // ---- one completion, one value ----

  lemma LogsGrow(s: State, t: State)
    requires ResultsLogged(s) && s.logs <= t.logs && t.results == s.results
    ensures ResultsLogged(t)
  {
    forall i | 0 <= i < |t.results| ensures HasCompletion(t.logs, t.results[i]) {
      var j :| 0 <= j < |s.logs| && CompletionOf(s.logs[j], s.results[i]);
      assert CompletionOf(t.logs[j], t.results[i]);
    }
  }

  // The result row is sanitised once and the log twice; they hold the same value all the same.
  lemma FinishedSameValue(s: State, id: nat, output: Json, review: bool)
    requires id in s.tasks && ResultsLogged(s)
    ensures ResultsLogged(Finished(s, id, output, review))
  {
    var t := Finished(s, id, output, review);
    LogsGrow(s, s.(logs := t.logs));
    if CompleteError(s.tasks[id]).None? && !review {
      SanitizeTwice(output);
      assert CompletionOf(t.logs[|s.logs|], t.results[|s.results|]);
      assert forall i :: 0 <= i < |s.results| ==> t.results[i] == s.results[i];
    }
  }

  lemma {:induction false} ResultsAlwaysLogged(s: State, calls: seq<Call>)
    requires s.results == []
    ensures ResultsLogged(PerformedAll(s, calls))
  {
    if calls == [] {
    } else {
      var t, c := PerformedAll(s, calls[..|calls| - 1]), calls[|calls| - 1];
      ResultsAlwaysLogged(s, calls[..|calls| - 1]);
      match c
      case Complete(id, output, review) => if id in t.tasks { FinishedSameValue(t, id, output, review); }
      case Process(worker, acquired, course) => ProcessSameValue(t, worker, acquired, course);
      case _ => LogsGrow(t, Performed(t, c));
    }
  }

  lemma RecordedSameValue(s: State, id: nat, worker: string, message: string, recorded: bool)
    requires id in s.tasks && ResultsLogged(s)
    ensures ResultsLogged(Recorded(s, id, worker, message, recorded))
  {
    LogsGrow(s, Recorded(s, id, worker, message, recorded));
  }

  lemma ExecutedSameValue(s: State, id: nat, worker: string, boss: bool, audited: bool, course: Course)
    requires id in s.tasks && ResultsLogged(s)
    ensures ResultsLogged(Executed(s, id, worker, boss, audited, course))
  {
    var error := StartError(s.tasks[id], boss, audited);
    if error.Some? {
      RecordedSameValue(s, id, worker, ErrorText(error.value), course.Smooth? || course.recorded);
    } else {
      var started := Started(s, id, worker, boss, audited);
      LogsGrow(s, started);
      FinishedSameValue(started, id, MockOutput(id, started.tasks[id]), false);
      if course.Broken? {
        var reached := match course.at
          case NotStarted => s
          case NotCompleted => started
          case AfterCompletion => Finished(started, id, MockOutput(id, started.tasks[id]), false);
        RecordedSameValue(reached, id, worker, course.message, course.recorded);
      }
    }
  }

  lemma ProcessSameValue(s: State, worker: string, acquired: bool, course: Course)
    requires ResultsLogged(s)
    ensures ResultsLogged(ProcessedNext(s, worker, acquired, course))
  {
    if s.queue != [] {
      var item, rest := s.queue[0], s.(queue := s.queue[1..]);
      LogsGrow(s, rest);
      if Admitted(s, item) && acquired {
        ExecutedSameValue(rest, item.task, worker, item.bossConfirmed, item.securityAudited, course);
      }
    }
  }

  // ---- what needs approval ----

  // HIGH_RISK_KEYWORDS in full.
  const RISKY_WORDS := {"deploy", "deployment", "部署", "上线", "权限", "permission", "password", "secret", "token",
                        "支付", "扣费", "删除", "drop", "truncate", "git push", "systemctl", "docker"}

  // From position i on the text spells this word, in whatever letter case.
  ghost predicate Spells(text: string, word: string, i: nat) {
    i + |word| <= |text| && forall k :: 0 <= k < |word| ==> LowerChar(text[i + k]) == word[k]
  }

  ghost predicate Risky(t: Task) {
    exists word, i: nat :: word in RISKY_WORDS && Spells(t.title + " " + t.description + " " + t.priority, word, i)
  }

  lemma SpeltIffContained(text: string, word: string)
    ensures Contains(Lower(text), word) <==> exists i: nat :: Spells(text, word, i)
  {
    if Contains(Lower(text), word) {
      var i :| 0 <= i <= |text| && OccursAt(Lower(text), word, i);
      forall k | 0 <= k < |word| ensures LowerChar(text[i + k]) == word[k] {
        assert Lower(text)[i..i + |word|][k] == Lower(text)[i + k];
      }
      assert Spells(text, word, i);
    }
    if i: nat :| Spells(text, word, i) {
      assert Lower(text)[i..i + |word|] == word;
      assert OccursAt(Lower(text), word, i);
    }
  }

  lemma SameWords(word: string)
    ensures word in RISKY_WORDS <==> word in CRITICAL_KEYWORDS || word in HIGH_KEYWORDS
  {
  }

  lemma LowIffNotRisky(t: Task)
    ensures InferRisk(t).Low? <==> !Risky(t)
  {
    var text := t.title + " " + t.description + " " + t.priority;
    forall word
      ensures Contains(Lower(text), word) <==> exists i: nat :: Spells(text, word, i)
      ensures word in RISKY_WORDS <==> word in CRITICAL_KEYWORDS || word in HIGH_KEYWORDS
    {
      SpeltIffContained(text, word);
      SameWords(word);
    }
  }

  // A row that can be started on these approvals.
  ghost predicate Startable(t: Task, boss: bool, audited: bool) {
    t.status == Assigned && t.employee != "" && (Risky(t) ==> boss && audited)
  }

  // The call takes an item for row x off the queue and is let in.
  ghost predicate TakesUp(s: State, c: Call, x: nat)
    requires x in s.tasks
  {
    c.Process? && c.acquired && s.queue != [] && s.queue[0].task == x && OwnedBy(s.tasks[x].owner, s.queue[0].ownership)
  }

  // The call starts row x.
  ghost predicate Starts(s: State, c: Call, x: nat)
    requires x in s.tasks
  {
    || (c.Start? && c.id == x && Startable(s.tasks[x], c.boss, c.audited))
    || (&& TakesUp(s, c, x) && Startable(s.tasks[x], s.queue[0].bossConfirmed, s.queue[0].securityAudited)
        && (c.course.Broken? ==> !c.course.at.NotStarted?))
  }

  // The call queues an item for row x.
  ghost predicate Queues(s: State, c: Call, x: nat)
    requires x in s.tasks
  {
    && c.Claim? && c.id == x && Startable(s.tasks[x], c.boss, c.audited)
    && s.tasks[x].owner.Complete() && !c.push.Unsent?
  }

  // From before to after, row x has kept all but its status, and has been started if `started`. Otherwise it has not
  // got as far as running.
  ghost predicate StartedIf(before: State, after: State, x: nat, started: bool) {
    && x in before.tasks && x in after.tasks
    && after.tasks[x] == before.tasks[x].(status := after.tasks[x].status)
    && CountLogs(after.logs, x, LogStarted) == CountLogs(before.logs, x, LogStarted) + (if started then 1 else 0)
    && (!started && after.tasks[x].status !in {before.tasks[x].status, Failed} ==>
          before.tasks[x].status in {Running, WaitingReview} && after.tasks[x].status in {WaitingReview, Completed})
  }

  lemma StartCounts(s: State, id: nat, worker: string, boss: bool, audited: bool, x: nat)
    requires id in s.tasks && x in s.tasks
    ensures StartError(s.tasks[id], boss, audited).None? <==> Startable(s.tasks[id], boss, audited)
    ensures var t, may := Started(s, id, worker, boss, audited), Startable(s.tasks[id], boss, audited);
            && t.tasks == (if may then WithStatus(s, id, Running).tasks else s.tasks)
            && StartedIf(s, t, x, may && x == id)
  {
    LowIffNotRisky(s.tasks[id]);
    if StartError(s.tasks[id], boss, audited).None? {
      LoggedCounts(WithStatus(s, id, Running), id, LogStarted, Running, WorkerOutput(worker), "", x);
    }
  }

  lemma FailCounts(s: State, id: nat, worker: string, message: string, x: nat)
    requires id in s.tasks && x in s.tasks
    ensures StartedIf(s, FailedWith(s, id, worker, message), x, false)
  {
    LoggedCounts(WithStatus(s, id, Failed), id, LogFailed, Failed, WorkerOutput(worker), RedactText(message), x);
  }

  lemma FinishCounts(s: State, id: nat, output: Json, review: bool, x: nat)
    requires id in s.tasks && x in s.tasks
    ensures StartedIf(s, Finished(s, id, output, review), x, false)
  {
    if CompleteError(s.tasks[id]).None? { FinishedFacts(s, id, output, review, x); }
  }

  lemma ClaimCounts(s: State, id: nat, boss: bool, audited: bool, push: Push, x: nat)
    requires id in s.tasks && x in s.tasks
    ensures StartedIf(s, Claimed(s, id, boss, audited, push), x, false)
  {
    if ClaimError(s.tasks[id], boss, audited).None? {
      LoggedCounts(s.(queue := s.queue + [Item(id, ContextOf(s.tasks[id].owner), boss, audited)]),
                   id, LogQueued, Assigned, Dict([]), "", x);
    }
  }

  lemma ExecutedCounts(s: State, id: nat, worker: string, boss: bool, audited: bool, course: Course, x: nat)
    requires id in s.tasks && x in s.tasks
    ensures StartedIf(s, Executed(s, id, worker, boss, audited, course), x,
                      x == id && Startable(s.tasks[id], boss, audited) && (course.Broken? ==> !course.at.NotStarted?))
  {
    StartCounts(s, id, worker, boss, audited, x);
    var error := StartError(s.tasks[id], boss, audited);
    if error.Some? {
      FailCounts(s, id, worker, ErrorText(error.value), x);
    } else {
      StartedCounts(s, id, worker, boss, audited, course, x);
    }
  }

  lemma StartedCounts(s: State, id: nat, worker: string, boss: bool, audited: bool, course: Course, x: nat)
    requires id in s.tasks && x in s.tasks && StartError(s.tasks[id], boss, audited).None?
    ensures StartedIf(s, Executed(s, id, worker, boss, audited, course), x,
                      x == id && (course.Broken? ==> !course.at.NotStarted?))
  {
    StartCounts(s, id, worker, boss, audited, x);
    var started := Started(s, id, worker, boss, audited);
    var output := MockOutput(id, started.tasks[id]);
    FinishCounts(started, id, output, false, x);
    if course.Broken? {
      FailCounts(s, id, worker, course.message, x);
      FailCounts(started, id, worker, course.message, x);
      FailCounts(Finished(started, id, output, false), id, worker, course.message, x);
    }
  }

  // A row's texts, employee and owner are nobody's to change, and it is started exactly by a call that may start it.
  lemma StartsExactly(s: State, c: Call, x: nat)
    requires x in s.tasks
    ensures StartedIf(s, Performed(s, c), x, Starts(s, c, x))
    ensures Starts(s, c, x) && c.Start? ==> Performed(s, c).tasks[x].status == Running
  {
    match c
    case Claim(id, boss, audited, push) => if id in s.tasks { ClaimCounts(s, id, boss, audited, push, x); }
    case Start(id, worker, boss, audited) => if id in s.tasks { StartCounts(s, id, worker, boss, audited, x); }
    case Complete(id, output, review) => if id in s.tasks { FinishCounts(s, id, output, review, x); }
    case Fail(id, worker, message) => if id in s.tasks { FailCounts(s, id, worker, message, x); }
    case Process(worker, acquired, course) =>
      if s.queue != [] && Admitted(s, s.queue[0]) && acquired {
        var item, rest := s.queue[0], s.(queue := s.queue[1..]);
        ExecutedCounts(rest, item.task, worker, item.bossConfirmed, item.securityAudited, course, x);
      }
  }

  // An item is queued exactly by a claim that may, with the row's own ownership and the approvals of the claim.
  lemma QueuesExactly(s: State, c: Call)
    ensures Performed(s, c).queue ==
              if c.Claim? && c.id in s.tasks && Queues(s, c, c.id)
              then s.queue + [Item(c.id, Some(s.tasks[c.id].owner), c.boss, c.audited)]
              else if c.Process? && s.queue != [] then s.queue[1..]
              else s.queue
  {
    if c.Claim? && c.id in s.tasks { LowIffNotRisky(s.tasks[c.id]); }
  }

  ghost predicate ApprovedItem(s: State, x: nat) {
    exists i :: 0 <= i < |s.queue| && s.queue[i].task == x && s.queue[i].bossConfirmed && s.queue[i].securityAudited
  }

  ghost predicate ApprovedCall(c: Call, x: nat) {
    (c.Claim? || c.Start?) && c.id == x && c.boss && c.audited
  }

  // However many calls there are, a row whose title, description or priority has a risky word in it is not started,
  // neither by hand nor off the queue, before one claim or start of it has both approvals.
  lemma {:induction false} RiskyNeedsApproval(s: State, calls: seq<Call>, x: nat)
    requires x in s.tasks && Risky(s.tasks[x]) && !ApprovedItem(s, x)
    requires forall i :: 0 <= i < |calls| ==> !ApprovedCall(calls[i], x)
    ensures var t := PerformedAll(s, calls);
            && x in t.tasks && t.tasks[x] == s.tasks[x].(status := t.tasks[x].status)
            && !ApprovedItem(t, x)
            && CountLogs(t.logs, x, LogStarted) == CountLogs(s.logs, x, LogStarted)
            && (s.tasks[x].status in {Other, Assigned} ==> t.tasks[x].status in {s.tasks[x].status, Failed})
  {
    if calls == [] {
    } else {
      var t, c := PerformedAll(s, calls[..|calls| - 1]), calls[|calls| - 1];
      RiskyNeedsApproval(s, calls[..|calls| - 1], x);
      StartsExactly(t, c, x);
      QueuesExactly(t, c);
    }
  }

  // ---- at-least-once delivery ----

  // What the worker makes of an item it may execute. Without trouble the task ends completed exactly when it could
  // be started, and failed otherwise; so a second delivery turns a completed task into a failed one. Trouble fails
  // the task as well, a completed one included, and one that cannot be recorded leaves it as far as it had come.
  lemma ProcessVerdict(s: State, worker: string, course: Course)
    requires s.queue != [] && Admitted(s, s.queue[0])
    ensures var item := s.queue[0];
            var before := s.tasks[item.task].status;
            var startable := Startable(s.tasks[item.task], item.bossConfirmed, item.securityAudited);
            ProcessedNext(s, worker, true, course).tasks[item.task].status ==
            if course.Smooth? then (if startable then Completed else Failed)
            else if course.recorded then Failed
            else if !startable || course.at.NotStarted? then before
            else if course.at.NotCompleted? then Running
            else Completed
    ensures s.tasks[s.queue[0].task].status == Completed && course.Smooth? ==>
              ProcessedNext(s, worker, true, course).tasks[s.queue[0].task].status == Failed
  {
    LowIffNotRisky(s.tasks[s.queue[0].task]);
  }

  // ---- the engine ----

  class Engine {
    var tasks: map<nat, Task>
    var logs: seq<Log>
    var results: seq<Result>
    var queue: seq<Item>

    ghost function Now(): State
      reads this
    {
      State(tasks, logs, results, queue)
    }

    method WriteExecutionLog(id: nat, action: LogAction, status: Status, output: Json, error: string)
      modifies this
      ensures Now() == Logged(old(Now()), id, action, status, output, error)
    {
      var redacted := None;
      if error != "" { redacted := Some(RedactText(error)); }
      logs := logs + [Log(id, action, status, Some(Sanitize(output)), redacted)];
    }

    method EnqueueExecutionTask(id: nat, boss: bool, audited: bool, push: Push) returns (error: Option<Error>)
      requires id in tasks
      modifies this
      ensures error == if ClaimError(old(tasks)[id], boss, audited).Some? then ClaimError(old(tasks)[id], boss, audited)
                       else if push.Sent? then None else Some(QueueUnavailable)
      ensures Now() == Claimed(old(Now()), id, boss, audited, push)
      ensures var task := old(tasks)[id];
              error == Some(Unsafe) <==> task.status == Assigned && task.employee != "" && Risky(task) && !(boss && audited)
    {
      var task := tasks[id];
      LowIffNotRisky(task);
      if task.status != Assigned { return Some(WrongStatus); }
      if task.employee == "" { return Some(NoEmployee); }
      var risk := InferRisk(task);
      if risk != Low && !(boss && audited) { return Some(Unsafe); }
      var ownership := ContextOf(task.owner);
      if ownership == None { return Some(NoOwnership); }
      if !push.Unsent? { queue := queue + [Item(id, ownership, boss, audited)]; }
      if !push.Sent? { return Some(QueueUnavailable); }
      WriteExecutionLog(id, LogQueued, Assigned, Dict([]), "");
      return None;
    }

    method StartTaskExecution(id: nat, worker: string, boss: bool, audited: bool) returns (error: Option<Error>)
      requires id in tasks
      modifies this
      ensures error == StartError(old(tasks)[id], boss, audited)
      ensures Now() == Started(old(Now()), id, worker, boss, audited)
      ensures error == None <==> Startable(old(tasks)[id], boss, audited)
      ensures error == Some(Unsafe) <==> Risky(old(tasks)[id]) && !(boss && audited)
    {
      var task := tasks[id];
      LowIffNotRisky(task);
      var risk := InferRisk(task);
      if risk != Low && !(boss && audited) { return Some(Unsafe); }
      if task.status != Assigned { return Some(WrongStatus); }
      if task.employee == "" { return Some(NoEmployee); }
      tasks := tasks[id := task.(status := Running)];
      WriteExecutionLog(id, LogStarted, Running, WorkerOutput(worker), "");
      return None;
    }

    method CompleteTaskExecution(id: nat, outputData: Json, waitingReview: bool) returns (error: Option<Error>)
      requires id in tasks
      modifies this
      ensures error == CompleteError(old(tasks)[id])
      ensures Now() == Finished(old(Now()), id, outputData, waitingReview)
      ensures tasks == if old(tasks)[id].status in {Running, WaitingReview}
                       then old(tasks)[id := old(tasks)[id].(status := if waitingReview then WaitingReview else Completed)]
                       else old(tasks)
    {
      var task := tasks[id];
      if task.status != Running && task.status != WaitingReview { return Some(WrongStatus); }
      var status := if waitingReview then WaitingReview else Completed;
      tasks := tasks[id := task.(status := status)];
      var output := Sanitize(outputData);
      WriteExecutionLog(id, if status == Completed then LogCompleted else LogWaitingReview, status, output, "");
      if status == Completed {
        results := results + [Result(id, output)];
      }
      return None;
    }

    method FailTaskExecution(id: nat, worker: string, message: string)
      requires id in tasks
      modifies this
      ensures Now() == FailedWith(old(Now()), id, worker, message)
    {
      tasks := tasks[id := tasks[id].(status := Failed)];
      WriteExecutionLog(id, LogFailed, Failed, WorkerOutput(worker), RedactText(message));
    }

    // An exception outside the start checks comes from a commit or a refresh; `course` says which.
    method ProcessNextExecutionTask(worker: string, acquired: bool, course: Course) returns (raised: Option<string>)
      modifies this
      ensures Now() == ProcessedNext(old(Now()), worker, acquired, course)
      ensures old(queue) != [] && Admitted(old(Now()), old(queue)[0]) && acquired ==>
                var item := old(queue)[0];
                raised == match StartError(old(tasks)[item.task], item.bossConfirmed, item.securityAudited)
                          case Some(error) => Some(ErrorText(error))
                          case None => if course.Smooth? then None else Some(course.message)
      ensures old(queue) == [] || !Admitted(old(Now()), old(queue)[0]) || !acquired ==> raised == None
    {
      if |queue| == 0 { return None; }
      var item := queue[0];
      queue := queue[1..];
      if item.task !in tasks || !OwnedBy(tasks[item.task].owner, item.ownership) { return None; }
      if !acquired { return None; }
      raised := Execute(item, worker, course);
      if raised != None && (course.Smooth? || course.recorded) {
        FailTaskExecution(item.task, worker, raised.value);
      }
    }

    // The try block: what it has committed when it ends, and what it raises.
    method Execute(item: Item, worker: string, course: Course) returns (raised: Option<string>)
      requires item.task in tasks
      modifies this
      ensures item.task in tasks
      ensures var id, s := item.task, old(Now());
              var error := StartError(s.tasks[id], item.bossConfirmed, item.securityAudited);
              var started := Started(s, id, worker, item.bossConfirmed, item.securityAudited);
              && raised == (if error.Some? then Some(ErrorText(error.value)) else if course.Smooth? then None else Some(course.message))
              && Now() == if error.Some? || (course.Broken? && course.at.NotStarted?) then s
                          else if course.Broken? && course.at.NotCompleted? then started
                          else Finished(started, id, MockOutput(id, started.tasks[id]), false)
    {
      if course.Broken? && course.at.NotStarted? {
        var refused := StartError(tasks[item.task], item.bossConfirmed, item.securityAudited);
        return Some(if refused.Some? then ErrorText(refused.value) else course.message);
      }
      var error := StartTaskExecution(item.task, worker, item.bossConfirmed, item.securityAudited);
      if error != None { return Some(ErrorText(error.value)); }
      if course.Broken? && course.at.NotCompleted? { return Some(course.message); }
      error := CompleteTaskExecution(item.task, MockOutput(item.task, tasks[item.task]), false);
      if course.Broken? { return Some(course.message); }
      return None;
    }
  }
}
