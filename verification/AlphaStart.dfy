// Starting Alpha Workflow runs: requests that look for, resolve and create runs, interleaving at every database
// step (backend/alpha_workflow/service.py; backend/brain_orchestrator/planner.py for the graph's execution key).
module AlphaStart {
  import opened Options
  import opened Text
  import Redaction
  import AlphaRuns

  // ---- the execution key of a graph ----

  const SENSITIVE_WORDS: seq<string> := [
    "password", "password_hash", "secret", "token", "api key", "apikey", "authorization", "bearer", "private_key", "cookie"]

  predicate Sensitive(text: string) {
    exists w | w in SENSITIVE_WORDS :: Redaction.Contains(Lower(text), w)
  }

  // tool_center's clean_text, which the planner applies to the execution identity.
  function CleanText(text: string): string {
    if Sensitive(Strip(text)) then "[REDACTED]" else Strip(text)
  }

  function ExecutionKey(trace: string): string {
    "trace:" + CleanText(trace)
  }

  // ---- runs and how they are found ----

  // scope stands for the five ownership fields of the requester, compared all together.
  datatype Run = Run(trace: string, workflow: string, root: string, graph: string, scope: nat, identity: AlphaRuns.Identity)

  datatype Graph = Graph(scope: nat, key: string, canonicalRun: Option<nat>)

  function WorkflowId(trace: string): string {
    "alpha-" + trace
  }

  function RootSpanId(trace: string): string {
    trace + ":root"
  }

  // The four identity columns, in the order of the lookup.
  function Field(r: Run, k: int): string {
    if k == 0 then r.trace else if k == 1 then r.workflow else if k == 2 then r.root else r.graph
  }

  function Identities(trace: string, graph: string): (provided: seq<string>)
    ensures |provided| == 4
  {
    [trace, WorkflowId(trace), RootSpanId(trace), graph]
  }

  datatype Resolution = NoRun | Match(run: nat) | Ambiguous

  predicate Hits(r: Run, provided: seq<string>, k: int)
    requires 0 <= k < |provided|
  {
    provided[k] != "" && Field(r, k) == provided[k]
  }

  predicate Misses(r: Run, provided: seq<string>, k: int)
    requires 0 <= k < |provided|
  {
    provided[k] != "" && Field(r, k) != provided[k]
  }

  ghost predicate HitsSome(r: Run, provided: seq<string>) {
    exists k :: 0 <= k < |provided| && Hits(r, provided, k)
  }

  ghost predicate MatchesAll(r: Run, provided: seq<string>) {
    HitsSome(r, provided) && forall k :: 0 <= k < |provided| ==> !Misses(r, provided, k)
  }

  // No visible run has any of the identities; one has all of them; or neither.
  ghost predicate Resolves(runs: seq<Run>, visible: set<nat>, provided: seq<string>, r: Resolution) {
    match r
    case NoRun => forall i :: i in visible && i < |runs| ==> !HitsSome(runs[i], provided)
    case Match(i) => i in visible && i < |runs| && MatchesAll(runs[i], provided)
    case Ambiguous =>
      && (exists i :: i in visible && i < |runs| && HitsSome(runs[i], provided))
      && (forall i :: i in visible && i < |runs| ==> !MatchesAll(runs[i], provided))
  }

  // The unique constraints, each over the whole table.
  ghost predicate UniqueFields(runs: seq<Run>) {
    forall i, j, k :: 0 <= i < |runs| && 0 <= j < |runs| && 0 <= k < 4 && Field(runs[i], k) == Field(runs[j], k) ==> i == j
  }

  // The answer is determined.
  lemma ResolutionIsUnique(runs: seq<Run>, visible: set<nat>, provided: seq<string>, a: Resolution, b: Resolution)
    requires UniqueFields(runs) && |provided| == 4
    requires Resolves(runs, visible, provided, a) && Resolves(runs, visible, provided, b)
    ensures a == b
  {
    if a.Match? && b.Match? {
      var k :| 0 <= k < |provided| && Hits(runs[a.run], provided, k);
      assert !Misses(runs[b.run], provided, k);
      assert Field(runs[a.run], k) == Field(runs[b.run], k);
    }
  }

  // one_or_none over the visible runs with this value in column k.
  method Find(runs: seq<Run>, visible: set<nat>, k: int, value: string) returns (found: Option<nat>)
    requires forall i :: i in visible ==> i < |runs|
    ensures found.Some? ==> found.value in visible && Field(runs[found.value], k) == value
    ensures found.None? ==> forall i :: i in visible ==> Field(runs[i], k) != value
  {
    if exists i :: i in visible && Field(runs[i], k) == value {
      var i :| i in visible && Field(runs[i], k) == value;
      return Some(i);
    }
    return None;
  }

  // _resolve_alpha_workflow_run_by_identities: collect what the identities find, then check the one run found
  // against every identity.
  method ResolveByIdentities(runs: seq<Run>, visible: set<nat>, provided: seq<string>) returns (r: Resolution)
    requires UniqueFields(runs) && |provided| == 4 && forall i :: i in visible ==> i < |runs|
    ensures Resolves(runs, visible, provided, r)
  {
    var found: set<nat> := {};
    var k := 0;
    while k < 4
      invariant 0 <= k <= 4
      invariant forall i :: i in found <==> i in visible && exists j :: 0 <= j < k && Hits(runs[i], provided, j)
    {
      if provided[k] != "" {
        var run := Find(runs, visible, k, provided[k]);
        if run.Some? {
          assert Hits(runs[run.value], provided, k);
          found := found + {run.value};
        }
      }
      k := k + 1;
    }
    if found == {} { return NoRun; }
    var resolved :| resolved in found;
    assert HitsSome(runs[resolved], provided);
    if found != {resolved} {
      var other :| other in found && other != resolved;
      TwoFound(runs, visible, provided, resolved, other);
      return Ambiguous;
    }
    k := 0;
    while k < 4
      invariant 0 <= k <= 4
      invariant forall j :: 0 <= j < k ==> !Misses(runs[resolved], provided, j)
    {
      if provided[k] != "" {
        var run := Find(runs, visible, k, provided[k]);
        if run != Some(resolved) {
          PartlyFound(runs, visible, provided, resolved, k, run);
          return Ambiguous;
        }
      }
      k := k + 1;
    }
    return Match(resolved);
  }

  lemma TwoFound(runs: seq<Run>, visible: set<nat>, provided: seq<string>, a: nat, b: nat)
    requires UniqueFields(runs) && |provided| == 4 && a != b && a in visible && b in visible && a < |runs| && b < |runs|
    requires HitsSome(runs[a], provided) && HitsSome(runs[b], provided)
    ensures Resolves(runs, visible, provided, Ambiguous)
  {
    var j :| 0 <= j < |provided| && Hits(runs[a], provided, j);
    var k :| 0 <= k < |provided| && Hits(runs[b], provided, k);
    forall i | i in visible && i < |runs| ensures !MatchesAll(runs[i], provided) {
      if i != a { assert Misses(runs[i], provided, j); } else { assert Misses(runs[i], provided, k); }
    }
  }

  lemma PartlyFound(runs: seq<Run>, visible: set<nat>, provided: seq<string>, resolved: nat, k: int, found: Option<nat>)
    requires UniqueFields(runs) && |provided| == 4 && resolved in visible && resolved < |runs| && 0 <= k < 4 && provided[k] != ""
    requires HitsSome(runs[resolved], provided) && found != Some(resolved)
    requires found.Some? ==> found.value in visible && found.value < |runs| && Field(runs[found.value], k) == provided[k]
    requires found.None? ==> forall i :: i in visible && i < |runs| ==> Field(runs[i], k) != provided[k]
    ensures Resolves(runs, visible, provided, Ambiguous)
  {
    forall i | i in visible && i < |runs| ensures !MatchesAll(runs[i], provided) {
      if Field(runs[i], k) != provided[k] {
        assert Misses(runs[i], provided, k);
      } else {
        var j :| 0 <= j < |provided| && Hits(runs[resolved], provided, j);
        assert i != resolved && Misses(runs[i], provided, j);
      }
    }
  }

  // ---- requests ----

  datatype Outcome = Created(run: nat) | Answered(run: nat) | Conflict | Failed

  datatype Constraint = TraceUnique | WorkflowUnique | RootUnique | GraphUnique

  // Blocked: the insert has violated a constraint and been rolled back, the lock released with it.
  datatype Pc = Waiting | Looked | Planned(graph: string, isNew: bool) | Resolved(graph: string, isNew: bool)
              | Blocked(graph: string, violated: Constraint) | Ended(outcome: Outcome)

  // One request: its scope, its normalised trace and its normalised identity.
  datatype Request = Request(scope: nat, trace: string, identity: AlphaRuns.Identity, pc: Pc)

  datatype State = State(runs: seq<Run>, graphs: map<string, Graph>, requests: seq<Request>)

  // The join of _owned_runs_query for run i.
  predicate Visible(s: State, i: nat, scope: nat) {
    && i < |s.runs| && s.runs[i].graph in s.graphs && s.runs[i].scope == scope
    && var g := s.graphs[s.runs[i].graph];
       g.scope == scope && g.key == "trace:" + s.runs[i].trace && g.canonicalRun == Some(i)
  }

  function VisibleRuns(s: State, scope: nat): set<nat> {
    set i | 0 <= i < |s.runs| && Visible(s, i, scope)
  }

  datatype Action =
    | Arrive(scope: nat, trace: string, identity: AlphaRuns.Identity)
    | Look(request: nat)
    | Plan(request: nat, graph: string, isNew: bool)
    | Resolve(request: nat, resolution: Resolution)
    | Insert(request: nat, violated: Constraint)
    | Retry(request: nat, resolution: Resolution)
    | Abort(request: nat)   // an exception, the unknown or disabled scenario included
    | DryRun(graph: string, owner: nat, key: string)   // a plan that is committed without a run

  function At(s: State, q: nat, pc: Pc): State
    requires q < |s.requests|
  {
    s.(requests := s.requests[q := s.requests[q].(pc := pc)])
  }

  predicate Holding(r: Request) {
    r.pc.Looked? || r.pc.Planned? || r.pc.Resolved?
  }

  // With the advisory lock, no other request of the same scope and trace is between its lookup and its commit.
  ghost predicate LockFree(s: State, q: nat)
    requires q < |s.requests|
  {
    forall p :: 0 <= p < |s.requests| && p != q && Holding(s.requests[p]) ==>
      s.requests[p].scope != s.requests[q].scope || s.requests[p].trace != s.requests[q].trace
  }

  // A run answers a request for the same trace when it was created for the same, well-formed identity;
  // AlphaRuns.SameRequestSameRun gives this for the context the run stores.
  predicate Answers(r: Run, identity: AlphaRuns.Identity) {
    r.identity == identity && AlphaRuns.WellFormed(identity)
  }

  ghost predicate Looks(s: State, q: nat, t: State)
    requires q < |s.requests|
  {
    var r := s.requests[q];
    if exists i: nat :: Visible(s, i, r.scope) && s.runs[i].trace == r.trace
    then exists i: nat :: Visible(s, i, r.scope) && s.runs[i].trace == r.trace
                     && t == At(s, q, Ended(if Answers(s.runs[i], r.identity) then Answered(i) else Conflict))
    else t == At(s, q, Looked)
  }

  // An existing graph is one of the scope with the trace's execution key; a new one has an id nobody has used.
  predicate MayPlan(s: State, r: Request, graph: string, isNew: bool) {
    graph != "" && if isNew then graph !in s.graphs
                   else graph in s.graphs && s.graphs[graph].scope == r.scope && s.graphs[graph].key == ExecutionKey(r.trace)
  }

  function NewRun(r: Request, graph: string): Run {
    Run(r.trace, WorkflowId(r.trace), RootSpanId(r.trace), graph, r.scope, r.identity)
  }

  function ColumnOf(c: Constraint): int {
    match c case TraceUnique => 0 case WorkflowUnique => 1 case RootUnique => 2 case GraphUnique => 3
  }

  ghost predicate Violates(runs: seq<Run>, r: Run, c: Constraint) {
    exists i :: 0 <= i < |runs| && Field(runs[i], ColumnOf(c)) == Field(r, ColumnOf(c))
  }

  ghost predicate ViolatesAny(runs: seq<Run>, r: Run) {
    exists c :: Violates(runs, r, c)
  }

  // bind_graph_to_run, which fails when the graph already has another canonical run.
  predicate MayBind(s: State, graph: string, isNew: bool) {
    if isNew then graph !in s.graphs else graph in s.graphs && s.graphs[graph].canonicalRun.None?
  }

  function BoundGraph(s: State, r: Request): Graph
    requires r.pc.Resolved? && MayBind(s, r.pc.graph, r.pc.isNew)
  {
    if r.pc.isNew then Graph(r.scope, ExecutionKey(r.trace), Some(|s.runs|))
    else s.graphs[r.pc.graph].(canonicalRun := Some(|s.runs|))
  }

  ghost predicate Inserts(s: State, q: nat, violated: Constraint, t: State)
    requires q < |s.requests| && s.requests[q].pc.Resolved?
  {
    var r := s.requests[q];
    var run := NewRun(r, r.pc.graph);
    if ViolatesAny(s.runs, run) then Violates(s.runs, run, violated) && t == At(s, q, Blocked(r.pc.graph, violated))
    else if !MayBind(s, r.pc.graph, r.pc.isNew) then t == At(s, q, Ended(Failed))
    else t == At(s, q, Ended(Created(|s.runs|)))
              .(runs := s.runs + [run], graphs := s.graphs[r.pc.graph := BoundGraph(s, r)])
  }

  function AfterResolve(graph: string, isNew: bool, r: Resolution): Pc {
    match r
    case NoRun => Resolved(graph, isNew)
    case Match(i) => Ended(Answered(i))
    case Ambiguous => Ended(Conflict)
  }

  // After a violation: a violated trace_id is not among the constraints that are reported as a conflict.
  function AfterRetry(violated: Constraint, r: Resolution): Pc {
    match r
    case Match(i) => Ended(Answered(i))
    case Ambiguous => Ended(Conflict)
    case NoRun => Ended(if violated.TraceUnique? then Failed else Conflict)
  }

  ghost predicate Next(s: State, a: Action, t: State, locking: bool) {
    match a
    case Arrive(scope, trace, identity) =>
      trace != "" && Trimmed(trace) && t == s.(requests := s.requests + [Request(scope, trace, identity, Waiting)])
    case Look(q) => q < |s.requests| && s.requests[q].pc.Waiting? && (locking ==> LockFree(s, q)) && Looks(s, q, t)
    case Plan(q, graph, isNew) =>
      && q < |s.requests| && s.requests[q].pc.Looked? && MayPlan(s, s.requests[q], graph, isNew)
      && t == At(s, q, Planned(graph, isNew))
    case Resolve(q, resolution) =>
      && q < |s.requests| && s.requests[q].pc.Planned?
      && var r := s.requests[q];
         && Resolves(s.runs, VisibleRuns(s, r.scope), Identities(r.trace, r.pc.graph), resolution)
         && t == At(s, q, AfterResolve(r.pc.graph, r.pc.isNew, resolution))
    case Insert(q, violated) => q < |s.requests| && s.requests[q].pc.Resolved? && Inserts(s, q, violated, t)
    case Retry(q, resolution) =>
      && q < |s.requests| && s.requests[q].pc.Blocked?
      && var r := s.requests[q];
         && Resolves(s.runs, VisibleRuns(s, r.scope), Identities(r.trace, r.pc.graph), resolution)
         && t == At(s, q, AfterRetry(r.pc.violated, resolution))
    case Abort(q) => q < |s.requests| && !s.requests[q].pc.Ended? && t == At(s, q, Ended(Failed))
    case DryRun(graph, owner, key) => graph !in s.graphs && t == s.(graphs := s.graphs[graph := Graph(owner, key, None)])
  }

  const START := State([], map[], [])

  ghost predicate Execution(states: seq<State>, actions: seq<Action>, locking: bool) {
    && |states| == |actions| + 1 && states[0] == START
    && forall i :: 0 <= i < |actions| ==> Next(states[i], actions[i], states[i + 1], locking)
  }

  // ---- what every reachable state satisfies ----

  // Every run is the canonical run of its graph, made for its scope and trace, and no two share an identity.
  ghost predicate RunsSound(s: State) {
    && (forall i :: 0 <= i < |s.runs| ==> RunSound(s, i))
    && UniqueFields(s.runs)
  }

  ghost predicate RunSound(s: State, i: nat)
    requires i < |s.runs|
  {
    var r := s.runs[i];
    && r.trace != "" && r.workflow == WorkflowId(r.trace) && r.root == RootSpanId(r.trace)
    && r.graph in s.graphs && s.graphs[r.graph] == Graph(r.scope, ExecutionKey(r.trace), Some(i))
  }

  lemma SameSuffix(a: string, b: string, suffix: string)
    requires a + suffix == b + suffix
    ensures a == b
  {
    assert |a| == |b| && (a + suffix)[..|a|] == a && (b + suffix)[..|b|] == b;
  }

  // The columns derived from the trace add nothing to its uniqueness.
  lemma DerivedFields(a: Run, b: Run)
    requires a.workflow == WorkflowId(a.trace) && b.workflow == WorkflowId(b.trace)
    requires a.root == RootSpanId(a.trace) && b.root == RootSpanId(b.trace)
    ensures a.workflow == b.workflow <==> a.trace == b.trace
    ensures a.root == b.root <==> a.trace == b.trace
  {
    if a.workflow == b.workflow { SamePrefix("alpha-", a.trace, b.trace); }
    if a.root == b.root { SameSuffix(a.trace, b.trace, ":root"); }
  }

  // A run is visible exactly to the scope it was created in, and to that one only if the planner's cleaning
  // left its trace as it was.
  lemma VisibleIff(s: State, i: nat, scope: nat)
    requires RunsSound(s) && i < |s.runs|
    ensures Visible(s, i, scope) <==> s.runs[i].scope == scope && CleanText(s.runs[i].trace) == s.runs[i].trace
  {
    assert RunSound(s, i);
    if "trace:" + CleanText(s.runs[i].trace) == "trace:" + s.runs[i].trace {
      SamePrefix("trace:", CleanText(s.runs[i].trace), s.runs[i].trace);
    }
  }

  // The runs of s are still there, and so are their graphs and those a plan may rest on.
  ghost predicate Extends(s: State, t: State) {
    && |s.runs| <= |t.runs| && (forall i :: 0 <= i < |s.runs| ==> t.runs[i] == s.runs[i])
    && (forall g :: g in s.graphs ==> g in t.graphs && t.graphs[g].scope == s.graphs[g].scope && t.graphs[g].key == s.graphs[g].key)
  }

  // What a successful insert adds.
  ghost predicate Grows(s: State, t: State, q: nat) {
    && q < |s.requests| && s.requests[q].pc.Resolved?
    && var r := s.requests[q];
       && !ViolatesAny(s.runs, NewRun(r, r.pc.graph)) && MayBind(s, r.pc.graph, r.pc.isNew)
       && t == At(s, q, Ended(Created(|s.runs|)))
              .(runs := s.runs + [NewRun(r, r.pc.graph)], graphs := s.graphs[r.pc.graph := BoundGraph(s, r)])
  }

  ghost predicate AddsGraph(s: State, a: Action, t: State) {
    a.DryRun? && a.graph !in s.graphs && t == s.(graphs := s.graphs[a.graph := Graph(a.owner, a.key, None)])
  }

  lemma Shape(s: State, a: Action, t: State, locking: bool)
    requires Next(s, a, t, locking)
    ensures (t.runs == s.runs && t.graphs == s.graphs) || AddsGraph(s, a, t) || (a.Insert? && Grows(s, t, a.request))
    ensures Extends(s, t)
  {
  }

  // A request's own facts: what it plans with exists, and what it was answered or created with is its trace's.
  ghost predicate RequestSound(s: State, r: Request) {
    && r.trace != "" && Trimmed(r.trace)
    && (r.pc.Planned? || r.pc.Resolved? || r.pc.Blocked? ==> r.pc.graph != "")
    && ((r.pc.Planned? || r.pc.Resolved?) && !r.pc.isNew ==>
          r.pc.graph in s.graphs && s.graphs[r.pc.graph].scope == r.scope && s.graphs[r.pc.graph].key == ExecutionKey(r.trace))
    && (r.pc.Ended? && r.pc.outcome.Created? ==>
          r.pc.outcome.run < |s.runs| && s.runs[r.pc.outcome.run].identity == r.identity
          && s.runs[r.pc.outcome.run].trace == r.trace && s.runs[r.pc.outcome.run].scope == r.scope)
    && (r.pc.Ended? && r.pc.outcome.Answered? ==>
          r.pc.outcome.run < |s.runs| && s.runs[r.pc.outcome.run].trace == r.trace
          && s.runs[r.pc.outcome.run].scope == r.scope && CleanText(r.trace) == r.trace)
  }

  ghost predicate Sound(s: State) {
    RunsSound(s) && forall q :: 0 <= q < |s.requests| ==> RequestSound(s, s.requests[q])
  }

  lemma GrowsSound(s: State, t: State, q: nat)
    requires Sound(s) && Grows(s, t, q)
    ensures RunsSound(t)
  {
    var r := s.requests[q];
    var run := NewRun(r, r.pc.graph);
    assert RequestSound(s, r);
    forall i, k | 0 <= i < |s.runs| && 0 <= k < 4 ensures Field(s.runs[i], k) != Field(run, k) {
      var c := if k == 0 then TraceUnique else if k == 1 then WorkflowUnique else if k == 2 then RootUnique else GraphUnique;
      assert ColumnOf(c) == k && !Violates(s.runs, run, c);
    }
    forall i | 0 <= i < |t.runs| ensures RunSound(t, i) {
      if i < |s.runs| { assert RunSound(s, i) && Field(s.runs[i], 3) != Field(run, 3); }
    }
    GrowsUnique(s.runs, run);
  }

  lemma GrowsUnique(runs: seq<Run>, run: Run)
    requires UniqueFields(runs) && forall i, k :: 0 <= i < |runs| && 0 <= k < 4 ==> Field(runs[i], k) != Field(run, k)
    ensures UniqueFields(runs + [run])
  {
  }

  lemma AddsGraphSound(s: State, a: Action, t: State)
    requires RunsSound(s) && AddsGraph(s, a, t)
    ensures RunsSound(t)
  {
    forall i | 0 <= i < |t.runs| ensures RunSound(t, i) {
      assert RunSound(s, i);
    }
  }

  lemma RunsSoundNext(s: State, a: Action, t: State, locking: bool)
    requires Sound(s) && Next(s, a, t, locking)
    ensures RunsSound(t)
  {
    Shape(s, a, t, locking);
    if AddsGraph(s, a, t) { AddsGraphSound(s, a, t); }
    if a.Insert? && Grows(s, t, a.request) { GrowsSound(s, t, a.request); }
    if t.runs == s.runs && t.graphs == s.graphs {
      forall i | 0 <= i < |t.runs| ensures RunSound(t, i) {
        assert RunSound(s, i);
      }
    }
  }

  lemma RequestKept(s: State, t: State, r: Request)
    requires Extends(s, t) && RequestSound(s, r)
    ensures RequestSound(t, r)
  {
  }

  lemma MatchFields(runs: seq<Run>, i: nat, trace: string, graph: string)
    requires i < |runs| && MatchesAll(runs[i], Identities(trace, graph)) && trace != "" && graph != ""
    ensures runs[i].trace == trace && runs[i].graph == graph
  {
    var provided := Identities(trace, graph);
    assert !Misses(runs[i], provided, 0) && !Misses(runs[i], provided, 3);
  }

  // The request a step belongs to, if it belongs to one.
  function ActorOf(a: Action): Option<nat> {
    match a
    case Arrive(_, _, _) => None
    case DryRun(_, _, _) => None
    case Look(q) => Some(q)
    case Plan(q, _, _) => Some(q)
    case Resolve(q, _) => Some(q)
    case Insert(q, _) => Some(q)
    case Retry(q, _) => Some(q)
    case Abort(q) => Some(q)
  }

  lemma ActorStep(s: State, a: Action, t: State, locking: bool)
    requires Next(s, a, t, locking)
    ensures ActorOf(a).Some? ==>
              var q := ActorOf(a).value;
              q < |s.requests| && |t.requests| == |s.requests|
              && t.requests[q] == s.requests[q].(pc := t.requests[q].pc)
              && forall p :: 0 <= p < |s.requests| && p != q ==> t.requests[p] == s.requests[p]
    ensures ActorOf(a).None? ==>
              |s.requests| <= |t.requests| <= |s.requests| + 1
              && (forall p :: 0 <= p < |s.requests| ==> t.requests[p] == s.requests[p])
              && (|t.requests| > |s.requests| ==> t.requests[|s.requests|].pc == Waiting && a.Arrive?)
  {
  }

  lemma LookSound(s: State, q: nat, t: State)
    requires Sound(s) && q < |s.requests| && Looks(s, q, t)
    ensures RequestSound(t, t.requests[q])
  {
    var r := s.requests[q];
    assert RequestSound(s, r);
    if t.requests[q].pc.Ended? && t.requests[q].pc.outcome.Answered? {
      VisibleIff(s, t.requests[q].pc.outcome.run, r.scope);
    }
  }

  lemma AnswerSound(s: State, q: nat, graph: string, i: nat)
    requires Sound(s) && q < |s.requests| && graph != ""
    requires Resolves(s.runs, VisibleRuns(s, s.requests[q].scope), Identities(s.requests[q].trace, graph), Match(i))
    ensures RequestSound(s, s.requests[q].(pc := Ended(Answered(i))))
    ensures Visible(s, i, s.requests[q].scope) && s.runs[i].trace == s.requests[q].trace && s.runs[i].graph == graph
  {
    var r := s.requests[q];
    assert RequestSound(s, r);
    MatchFields(s.runs, i, r.trace, graph);
    VisibleIff(s, i, r.scope);
  }

  lemma ActorSound(s: State, a: Action, t: State, q: nat, locking: bool)
    requires Sound(s) && Next(s, a, t, locking) && ActorOf(a) == Some(q)
    ensures q < |t.requests| && RequestSound(t, t.requests[q])
  {
    assert RequestSound(s, s.requests[q]);
    match a
    case Look(_) => LookSound(s, q, t);
    case Resolve(_, resolution) =>
      if resolution.Match? { AnswerSound(s, q, s.requests[q].pc.graph, resolution.run); }
    case Retry(_, resolution) =>
      if resolution.Match? { AnswerSound(s, q, s.requests[q].pc.graph, resolution.run); }
    case _ =>
  }

  lemma SoundNext(s: State, a: Action, t: State, locking: bool)
    requires Sound(s) && Next(s, a, t, locking)
    ensures Sound(t)
  {
    RunsSoundNext(s, a, t, locking);
    Shape(s, a, t, locking);
    ActorStep(s, a, t, locking);
    forall p | 0 <= p < |t.requests| ensures RequestSound(t, t.requests[p]) {
      if ActorOf(a) == Some(p) { ActorSound(s, a, t, p, locking); }
      else if p < |s.requests| { RequestKept(s, t, s.requests[p]); }
    }
  }

  lemma {:induction false} SoundRun(states: seq<State>, actions: seq<Action>, locking: bool, n: nat)
    requires Execution(states, actions, locking) && n < |states|
    ensures Sound(states[n])
  {
    if n == 0 {
    } else {
      SoundRun(states, actions, locking, n - 1);
      SoundNext(states[n - 1], actions[n - 1], states[n], locking);
    }
  }

  lemma Extend(states: seq<State>, actions: seq<Action>, a: Action, t: State, locking: bool)
    requires Execution(states, actions, locking) && Next(states[|states| - 1], a, t, locking)
    ensures Execution(states + [t], actions + [a], locking)
  {
    var longer, acts := states + [t], actions + [a];
    forall i | 0 <= i < |acts| ensures Next(longer[i], acts[i], longer[i + 1], locking) {
      if i < |actions| { assert Next(states[i], actions[i], states[i + 1], locking); }
    }
  }

  // ---- one request, step by step ----

  // What a request has ended with is final.
  lemma EndedStays(s: State, a: Action, t: State, q: nat, locking: bool)
    requires Sound(s) && Next(s, a, t, locking) && q < |s.requests| && s.requests[q].pc.Ended?
    ensures q < |t.requests| && t.requests[q] == s.requests[q]
  {
    ActorStep(s, a, t, locking);
  }

  // With the advisory lock a request can look exactly while no other one for its scope and trace is between its lookup
  // and its commit; requests for other scopes or traces never keep it waiting.
  lemma LookPossibleIff(s: State, q: nat)
    requires q < |s.requests| && s.requests[q].pc == Waiting
    ensures (exists t :: Next(s, Look(q), t, true)) <==>
              forall p :: 0 <= p < |s.requests|
                          && s.requests[p].scope == s.requests[q].scope && s.requests[p].trace == s.requests[q].trace ==>
                            s.requests[p].pc.Waiting? || s.requests[p].pc.Blocked? || s.requests[p].pc.Ended?
  {
    var r := s.requests[q];
    if LockFree(s, q) {
      if i: nat :| Visible(s, i, r.scope) && s.runs[i].trace == r.trace {
        assert Next(s, Look(q), At(s, q, Ended(if Answers(s.runs[i], r.identity) then Answered(i) else Conflict)), true);
      } else {
        assert Next(s, Look(q), At(s, q, Looked), true);
      }
    }
  }

  // An insert is blocked exactly if a run of whatever scope has one of its four identities, fails if the graph has been
  // taken otherwise since the plan, and else adds the run and binds the graph to it.
  lemma InsertVerdict(s: State, q: nat, violated: Constraint, t: State, locking: bool)
    requires Next(s, Insert(q, violated), t, locking)
    ensures var r := s.requests[q];
            var graph, end := r.pc.graph, t.requests[q].pc;
            var run := Run(r.trace, "alpha-" + r.trace, r.trace + ":root", graph, r.scope, r.identity);
            if exists i :: 0 <= i < |s.runs| && SameIdentity(s.runs[i], run)
            then end.Blocked? && t.runs == s.runs && t.graphs == s.graphs
            else if (if r.pc.isNew then graph in s.graphs else graph !in s.graphs || s.graphs[graph].canonicalRun.Some?)
            then end == Ended(Failed) && t.runs == s.runs && t.graphs == s.graphs
            else && end == Ended(Created(|s.runs|))
                 && t.runs == s.runs + [run]
                 && graph in t.graphs && t.graphs[graph].canonicalRun == Some(|s.runs|)
                 && forall g :: g != graph ==> (g in t.graphs <==> g in s.graphs) && (g in s.graphs ==> t.graphs[g] == s.graphs[g])
  {
    var r := s.requests[q];
    TakenIff(s.runs, NewRun(r, r.pc.graph));
  }

  predicate SameIdentity(a: Run, b: Run) {
    a.trace == b.trace || a.workflow == b.workflow || a.root == b.root || a.graph == b.graph
  }

  lemma TakenIff(runs: seq<Run>, run: Run)
    ensures ViolatesAny(runs, run) <==> exists i :: 0 <= i < |runs| && SameIdentity(runs[i], run)
  {
    if c :| Violates(runs, run, c) {
      var i :| 0 <= i < |runs| && Field(runs[i], ColumnOf(c)) == Field(run, ColumnOf(c));
      assert SameIdentity(runs[i], run);
    }
    if i :| 0 <= i < |runs| && SameIdentity(runs[i], run) {
      var c := if runs[i].trace == run.trace then TraceUnique else if runs[i].workflow == run.workflow then WorkflowUnique
               else if runs[i].root == run.root then RootUnique else GraphUnique;
      assert Field(runs[i], ColumnOf(c)) == Field(run, ColumnOf(c));
      assert Violates(runs, run, c);
    }
  }

  // What the visible runs say of a request's four identities: one with all of them answers, one with some of them
  // conflicts. With none a first resolution goes on to the insert, and one after a violated constraint fails if it
  // was the trace that was taken, and else conflicts.
  lemma ResolutionVerdict(s: State, a: Action, t: State, locking: bool)
    requires Sound(s) && Next(s, a, t, locking) && (a.Resolve? || a.Retry?)
    ensures var r, after := s.requests[a.request], t.requests[a.request].pc;
            var provided := [r.trace, "alpha-" + r.trace, r.trace + ":root", r.pc.graph];
            if exists i: nat :: i < |s.runs| && Visible(s, i, r.scope) && HitsSome(s.runs[i], provided)
            then after == Ended(Conflict) || (after.Ended? && after.outcome.Answered? && after.outcome.run < |s.runs|
                                              && Visible(s, after.outcome.run, r.scope)
                                              && MatchesAll(s.runs[after.outcome.run], provided))
            else if a.Resolve? then after == Resolved(r.pc.graph, r.pc.isNew)
            else after == Ended(if r.pc.violated == TraceUnique then Failed else Conflict)
  {
    var r := s.requests[a.request];
    assert Identities(r.trace, r.pc.graph) == [r.trace, "alpha-" + r.trace, r.trace + ":root", r.pc.graph];
    if i: nat :| i < |s.runs| && Visible(s, i, r.scope) && HitsSome(s.runs[i], Identities(r.trace, r.pc.graph)) {
      assert i in VisibleRuns(s, r.scope);
    }
  }

  // ---- with or without the lock ----

  // In every interleaving there is at most one run per trace and at most one per orchestrator graph, and every
  // run is the canonical run of its graph.
  lemma OneRunPerTraceAndGraph(states: seq<State>, actions: seq<Action>, locking: bool, n: nat, i: nat, j: nat)
    requires Execution(states, actions, locking) && n < |states| && i < |states[n].runs| && j < |states[n].runs|
    requires states[n].runs[i].trace == states[n].runs[j].trace || states[n].runs[i].graph == states[n].runs[j].graph
    ensures i == j
    ensures var s := states[n]; s.runs[i].graph in s.graphs && s.graphs[s.runs[i].graph].canonicalRun == Some(i)
  {
    SoundRun(states, actions, locking, n);
    var s := states[n];
    assert RunSound(s, i);
    SameRun(s.runs, i, j);
  }

  // The run a request has ended with.
  function RunOf(r: Request): Option<nat> {
    if r.pc.Ended? && r.pc.outcome.Created? then Some(r.pc.outcome.run)
    else if r.pc.Ended? && r.pc.outcome.Answered? then Some(r.pc.outcome.run)
    else None
  }

  predicate AutoTraced(r: Request, key: string, sha: AlphaRuns.Payload -> string) {
    AlphaRuns.EffectiveTrace(None, key, r.identity, sha) == Some(r.trace)
  }

  // Two requests of one scope that bring no trace end with the same run exactly when they are the same request.
  lemma WithoutTracesSameRunIffSameRequest(states: seq<State>, actions: seq<Action>, locking: bool, n: nat, p: nat, q: nat,
                                           key: string, sha: AlphaRuns.Payload -> string)
    requires Execution(states, actions, locking) && n < |states| && p < |states[n].requests| && q < |states[n].requests|
    requires AutoTraced(states[n].requests[p], key, sha) && AutoTraced(states[n].requests[q], key, sha)
    requires RunOf(states[n].requests[p]).Some? && RunOf(states[n].requests[q]).Some?
    requires AlphaRuns.Distinct(sha, AlphaRuns.AutoTrace(key, states[n].requests[p].identity),
                                AlphaRuns.AutoTrace(key, states[n].requests[q].identity))
    ensures RunOf(states[n].requests[p]) == RunOf(states[n].requests[q]) <==>
            states[n].requests[p].identity == states[n].requests[q].identity
  {
    SoundRun(states, actions, locking, n);
    var s := states[n];
    var a, b := s.requests[p], s.requests[q];
    assert RequestSound(s, a) && RequestSound(s, b);
    AlphaRuns.AutoTracesAgree(key, a.identity, b.identity, sha);
    if a.trace == b.trace { SameRun(s.runs, RunOf(a).value, RunOf(b).value); }
  }

  // Any normalised trace can be started, that of a recovery too: the new run then has the trace under which the
  // recovered run's event was written.
  lemma StartsUnderTrace(trace: string, graph: string, identity: AlphaRuns.Identity, locking: bool)
    returns (states: seq<State>, actions: seq<Action>)
    requires trace != "" && Trimmed(trace) && graph != ""
    ensures Execution(states, actions, locking) && states != []
    ensures var s := states[|states| - 1];
            s.requests == [Request(0, trace, identity, Ended(Created(0)))] && |s.runs| == 1 && s.runs[0].trace == trace
  {
    states, actions := [START], [];
    var t := START.(requests := [Request(0, trace, identity, Waiting)]);
    Extend(states, actions, Arrive(0, trace, identity), t, locking);
    states, actions := states + [t], actions + [Arrive(0, trace, identity)];
    t := At(t, 0, Looked);
    Extend(states, actions, Look(0), t, locking);
    states, actions := states + [t], actions + [Look(0)];
    t := At(t, 0, Planned(graph, true));
    Extend(states, actions, Plan(0, graph, true), t, locking);
    states, actions := states + [t], actions + [Plan(0, graph, true)];
    t := At(t, 0, Resolved(graph, true));
    Extend(states, actions, Resolve(0, NoRun), t, locking);
    states, actions := states + [t], actions + [Resolve(0, NoRun)];
    t := FirstCreated(states, actions, trace, graph, identity, locking);
    Extend(states, actions, Insert(0, TraceUnique), t, locking);
    states, actions := states + [t], actions + [Insert(0, TraceUnique)];
  }

  lemma RecoveryTraceIsStarted(key: AlphaRuns.Key, reason: string, graph: string, identity: AlphaRuns.Identity, locking: bool)
    returns (states: seq<State>, actions: seq<Action>)
    requires AlphaRuns.HexDigest(key.sha(AlphaRuns.RecoveryPayload(key, reason))) && graph != ""
    ensures Execution(states, actions, locking) && states != []
    ensures var s := states[|states| - 1]; |s.runs| == 1 && s.runs[0].trace == AlphaRuns.RecoveryTrace(key, reason)
  {
    var trace := AlphaRuns.RecoveryTrace(key, reason);
    AlphaRuns.RecoveryTraceAsRunTrace(key, reason, None, "", identity);
    StripTrims(trace);
    states, actions := StartsUnderTrace(trace, graph, identity, locking);
  }

  lemma VisibleKept(s: State, t: State, i: nat, scope: nat)
    requires RunsSound(s) && RunsSound(t) && Extends(s, t) && i < |s.runs|
    ensures Visible(t, i, scope) <==> Visible(s, i, scope)
  {
    VisibleIff(s, i, scope);
    VisibleIff(t, i, scope);
  }

  lemma GrowsVisible(s: State, t: State, q: nat, scope: nat)
    requires RunsSound(t) && Grows(s, t, q) && Visible(t, |s.runs|, scope)
    ensures scope == s.requests[q].scope && t.runs[|s.runs|].trace == s.requests[q].trace
  {
    VisibleIff(t, |s.runs|, scope);
  }

  // A request that comes when its scope already has a run for its trace is answered with that run if it is the
  // same request and conflicts if it is not; but a run whose trace the planner has redacted is not found.
  lemma RepeatedRequest(states: seq<State>, actions: seq<Action>, locking: bool, n: nat, q: nat, i: nat)
    requires Execution(states, actions, locking) && n < |actions| && actions[n] == Look(q)
    requires i < |states[n].runs| && q < |states[n].requests|
    requires states[n].runs[i].trace == states[n].requests[q].trace && states[n].runs[i].scope == states[n].requests[q].scope
    ensures var s, r := states[n], states[n].requests[q];
            q < |states[n + 1].requests|
            && states[n + 1].requests[q].pc ==
                 if CleanText(r.trace) != r.trace then Looked
                 else if s.runs[i].identity == r.identity && AlphaRuns.WellFormed(r.identity) then Ended(Answered(i))
                 else Ended(Conflict)
  {
    SoundRun(states, actions, locking, n);
    var s := states[n];
    assert Next(s, Look(q), states[n + 1], locking);
    VisibleIff(s, i, s.requests[q].scope);
    forall j: nat | Visible(s, j, s.requests[q].scope) && s.runs[j].trace == s.requests[q].trace
      ensures j == i && CleanText(s.requests[q].trace) == s.requests[q].trace
    {
      assert Field(s.runs[j], 0) == Field(s.runs[i], 0);
      VisibleIff(s, j, s.requests[q].scope);
    }
  }

  // Run i is there, and request q for its trace has not created one.
  ghost predicate Taken(s: State, q: nat, i: nat, run: Run) {
    && i < |s.runs| && s.runs[i] == run && q < |s.requests| && s.requests[q].trace == run.trace
    && (s.requests[q].pc.Ended? ==> !s.requests[q].pc.outcome.Created?)
  }

  lemma TakenNext(s: State, a: Action, t: State, locking: bool, q: nat, i: nat, run: Run)
    requires Next(s, a, t, locking) && Taken(s, q, i, run)
    ensures Taken(t, q, i, run)
  {
    Shape(s, a, t, locking);
    ActorStep(s, a, t, locking);
    if ActorOf(a) == Some(q) && a.Insert? {
      assert Field(s.runs[i], 0) == Field(NewRun(s.requests[q], s.requests[q].pc.graph), 0);
      assert Violates(s.runs, NewRun(s.requests[q], s.requests[q].pc.graph), TraceUnique);
    }
  }

  ghost predicate StaysTaken(states: seq<State>, q: nat, i: nat, run: Run) {
    forall k :: 0 <= k < |states| - 1 && Taken(states[k], q, i, run) ==> Taken(states[k + 1], q, i, run)
  }

  lemma {:induction false} TakenThrough(states: seq<State>, q: nat, i: nat, run: Run, n: nat, m: nat)
    requires StaysTaken(states, q, i, run) && n <= m < |states| && Taken(states[n], q, i, run)
    ensures Taken(states[m], q, i, run)
  {
    if n == m {
    } else {
      TakenThrough(states, q, i, run, n, m - 1);
      assert Taken(states[m - 1 + 1], q, i, run);
    }
  }

  // Once a trace has a run, no request for it creates another.
  lemma TraceTaken(states: seq<State>, actions: seq<Action>, locking: bool, n: nat, m: nat, q: nat, i: nat)
    requires Execution(states, actions, locking) && n <= m < |states| && q < |states[n].requests| && i < |states[n].runs|
    requires !states[n].requests[q].pc.Ended? && states[n].runs[i].trace == states[n].requests[q].trace
    ensures Taken(states[m], q, i, states[n].runs[i])
  {
    var run := states[n].runs[i];
    forall k | 0 <= k < |states| - 1 && Taken(states[k], q, i, run) ensures Taken(states[k + 1], q, i, run) {
      TakenNext(states[k], actions[k], states[k + 1], locking, q, i, run);
    }
    TakenThrough(states, q, i, run, n, m);
  }

  // A trace the planner redacts can be used once: whoever asks again gets a conflict or an error, never the run.
  lemma RedactedTraceNeverReturns(states: seq<State>, actions: seq<Action>, locking: bool, n: nat, m: nat, q: nat, i: nat)
    requires Execution(states, actions, locking) && n <= m < |states| && q < |states[n].requests| && i < |states[n].runs|
    requires !states[n].requests[q].pc.Ended? && states[n].runs[i].trace == states[n].requests[q].trace
    requires CleanText(states[n].requests[q].trace) != states[n].requests[q].trace
    ensures q < |states[m].requests|
            && (states[m].requests[q].pc.Ended? ==> states[m].requests[q].pc.outcome in {Conflict, Failed})
  {
    TraceTaken(states, actions, locking, n, m, q, i);
    SoundRun(states, actions, locking, m);
    assert RequestSound(states[m], states[m].requests[q]);
  }

  // Which traces those are.
  lemma RedactedTraces(trace: string)
    requires Trimmed(trace)
    ensures CleanText(trace) == trace <==> !Sensitive(trace)
  {
    StripTrims(trace);
    assert Lower("[REDACTED]") == "[redacted]";
    NoWordWithoutItsLetters(Lower("[REDACTED]"));
  }

  lemma NoWordWithoutItsLetters(t: string)
    requires 'p' !in t && 's' !in t && 'o' !in t && 'u' !in t && 'b' !in t
    ensures forall w :: w in SENSITIVE_WORDS ==> !Redaction.Contains(t, w)
  {
    Redaction.MissingLetter(t, "password", 0);
    Redaction.MissingLetter(t, "password_hash", 0);
    Redaction.MissingLetter(t, "secret", 0);
    Redaction.MissingLetter(t, "token", 1);
    Redaction.MissingLetter(t, "api key", 1);
    Redaction.MissingLetter(t, "apikey", 1);
    Redaction.MissingLetter(t, "authorization", 1);
    Redaction.MissingLetter(t, "bearer", 0);
    Redaction.MissingLetter(t, "private_key", 0);
    Redaction.MissingLetter(t, "cookie", 1);
  }

  // ---- with the lock ----

  // From its lookup to its insert a request's scope has no visible run for its trace.
  ghost predicate Absent(s: State, r: Request) {
    forall i: nat :: Visible(s, i, r.scope) ==> s.runs[i].trace != r.trace
  }

  // The run that stood in the way is not one that could ever answer.
  ghost predicate InTheWay(s: State, v: nat, r: Request, graph: string) {
    && v < |s.runs|
    && ((s.runs[v].trace == r.trace && !Visible(s, v, r.scope)) || (s.runs[v].graph == graph && s.runs[v].trace != r.trace))
  }

  ghost predicate LockedRequest(s: State, r: Request) {
    && (Holding(r) ==> Absent(s, r))
    && (r.pc.Blocked? ==> exists v: nat :: InTheWay(s, v, r, r.pc.graph))
    && (r.pc.Ended? && r.pc.outcome.Answered? ==> r.pc.outcome.run < |s.runs| && Answers(s.runs[r.pc.outcome.run], r.identity))
  }

  ghost predicate Exclusive(s: State) {
    forall p, q :: 0 <= p < q < |s.requests| && Holding(s.requests[p]) && Holding(s.requests[q]) ==>
      s.requests[p].scope != s.requests[q].scope || s.requests[p].trace != s.requests[q].trace
  }

  ghost predicate Locked(s: State) {
    Exclusive(s) && forall q :: 0 <= q < |s.requests| ==> LockedRequest(s, s.requests[q])
  }

  lemma ExclusiveNext(s: State, a: Action, t: State)
    requires Exclusive(s) && Next(s, a, t, true)
    ensures Exclusive(t)
  {
    ActorStep(s, a, t, true);
  }

  lemma LockedKept(s: State, a: Action, t: State, p: nat)
    requires Sound(s) && Sound(t) && Locked(s) && Next(s, a, t, true) && p < |s.requests| && ActorOf(a) != Some(p)
    ensures LockedRequest(t, s.requests[p])
  {
    var r := s.requests[p];
    Shape(s, a, t, true);
    assert LockedRequest(s, r);
    if Holding(r) {
      forall i: nat | Visible(t, i, r.scope) ensures t.runs[i].trace != r.trace {
        if i < |s.runs| { VisibleKept(s, t, i, r.scope); } else { GrowsVisible(s, t, a.request, r.scope); }
      }
    }
    if r.pc.Blocked? {
      var v: nat :| InTheWay(s, v, r, r.pc.graph);
      VisibleKept(s, t, v, r.scope);
      assert InTheWay(t, v, r, r.pc.graph);
    }
  }

  lemma LockedLook(s: State, q: nat, t: State)
    requires q < |s.requests| && Looks(s, q, t)
    ensures LockedRequest(t, t.requests[q])
  {
  }

  // With the lock, resolving after a lookup that found nothing never finds the request's own run.
  lemma LockedResolve(s: State, q: nat, resolution: Resolution, t: State)
    requires Sound(s) && Locked(s) && Next(s, Resolve(q, resolution), t, true)
    ensures LockedRequest(t, t.requests[q]) && !resolution.Match?
  {
    assert LockedRequest(s, s.requests[q]) && RequestSound(s, s.requests[q]);
    if resolution.Match? { AnswerSound(s, q, s.requests[q].pc.graph, resolution.run); }
  }

  lemma LockedInsert(s: State, q: nat, violated: Constraint, t: State)
    requires Sound(s) && Locked(s) && Next(s, Insert(q, violated), t, true)
    ensures LockedRequest(t, t.requests[q])
  {
    var r := s.requests[q];
    assert LockedRequest(s, r);
    var run := NewRun(r, r.pc.graph);
    if ViolatesAny(s.runs, run) {
      var v: nat :| v < |s.runs| && Field(s.runs[v], ColumnOf(violated)) == Field(run, ColumnOf(violated));
      assert RunSound(s, v);
      DerivedFields(s.runs[v], run);
      assert s.runs[v].trace == r.trace || s.runs[v].graph == r.pc.graph;
      assert InTheWay(s, v, r, r.pc.graph);
      assert InTheWay(t, v, t.requests[q], r.pc.graph);
    }
  }

  lemma SameRun(runs: seq<Run>, i: nat, j: nat)
    requires UniqueFields(runs) && i < |runs| && j < |runs|
    requires runs[i].trace == runs[j].trace || runs[i].graph == runs[j].graph
    ensures i == j
  {
    assert Field(runs[i], 0) == Field(runs[j], 0) || Field(runs[i], 3) == Field(runs[j], 3);
  }

  // Where a visible run has the trace and the graph, none is in the way.
  lemma NothingInTheWay(s: State, r: Request, graph: string, i: nat)
    requires UniqueFields(s.runs)
    requires Visible(s, i, r.scope) && s.runs[i].trace == r.trace && s.runs[i].graph == graph
    ensures forall v: nat :: !InTheWay(s, v, r, graph)
  {
    forall v: nat ensures !InTheWay(s, v, r, graph) {
      if v < |s.runs| && (s.runs[v].trace == r.trace || s.runs[v].graph == graph) { SameRun(s.runs, v, i); }
    }
  }

  lemma LockedRetry(s: State, q: nat, resolution: Resolution, t: State)
    requires Sound(s) && Locked(s) && Next(s, Retry(q, resolution), t, true)
    ensures LockedRequest(t, t.requests[q]) && !resolution.Match?
  {
    var r := s.requests[q];
    assert LockedRequest(s, r) && RequestSound(s, r);
    if resolution.Match? {
      AnswerSound(s, q, r.pc.graph, resolution.run);
      NothingInTheWay(s, r, r.pc.graph, resolution.run);
    }
  }

  lemma LockedActor(s: State, a: Action, t: State, q: nat)
    requires Sound(s) && Locked(s) && Next(s, a, t, true) && ActorOf(a) == Some(q)
    ensures q < |t.requests| && LockedRequest(t, t.requests[q])
  {
    assert LockedRequest(s, s.requests[q]);
    match a
    case Look(_) => LockedLook(s, q, t);
    case Resolve(_, resolution) => LockedResolve(s, q, resolution, t);
    case Insert(_, violated) => LockedInsert(s, q, violated, t);
    case Retry(_, resolution) => LockedRetry(s, q, resolution, t);
    case _ =>
  }

  lemma LockedNext(s: State, a: Action, t: State)
    requires Sound(s) && Sound(t) && Locked(s) && Next(s, a, t, true)
    ensures Locked(t)
  {
    ExclusiveNext(s, a, t);
    ActorStep(s, a, t, true);
    forall p | 0 <= p < |t.requests| ensures LockedRequest(t, t.requests[p]) {
      if ActorOf(a) == Some(p) { LockedActor(s, a, t, p); }
      else if p < |s.requests| { LockedKept(s, a, t, p); }
    }
  }

  lemma {:induction false} LockedRun(states: seq<State>, actions: seq<Action>, n: nat)
    requires Execution(states, actions, true) && n < |states|
    ensures Locked(states[n])
  {
    if n == 0 {
    } else {
      LockedRun(states, actions, n - 1);
      SoundRun(states, actions, true, n - 1);
      SoundRun(states, actions, true, n);
      LockedNext(states[n - 1], actions[n - 1], states[n]);
    }
  }

  // With the advisory lock, whatever requests interleave, a request is only ever answered with a run that was
  // created for the very same scope, trace and identity.
  lemma OnlyOwnRunsAnswer(states: seq<State>, actions: seq<Action>, n: nat, q: nat)
    requires Execution(states, actions, true) && n < |states| && q < |states[n].requests|
    requires states[n].requests[q].pc.Ended? && states[n].requests[q].pc.outcome.Answered?
    ensures var s, r := states[n], states[n].requests[q];
            var i := r.pc.outcome.run;
            i < |s.runs| && s.runs[i].scope == r.scope && s.runs[i].trace == r.trace && s.runs[i].identity == r.identity
  {
    LockedRun(states, actions, n);
    SoundRun(states, actions, true, n);
    assert LockedRequest(states[n], states[n].requests[q]) && RequestSound(states[n], states[n].requests[q]);
  }

  // ---- without it ----

  // Where there is no advisory lock, two requests for one trace may both look first; the later one then
  // resolves to the run of the other by its four identities, and nobody compares the request identities.
  lemma ForeignAnswerWithoutLock(trace: string, graph: string, a: AlphaRuns.Identity, b: AlphaRuns.Identity)
    returns (states: seq<State>, actions: seq<Action>)
    requires trace != "" && Trimmed(trace) && CleanText(trace) == trace && graph != "" && a != b
    ensures Execution(states, actions, false) && states != []
    ensures var s := states[|states| - 1];
            |s.requests| == 2 && s.requests[1].identity == b && s.requests[1].pc == Ended(Answered(0))
            && |s.runs| == 1 && s.runs[0].identity == a
  {
    states, actions := BothLooked(trace, a, b);
    var t := states[|states| - 1];
    t := At(t, 0, Planned(graph, true));
    Extend(states, actions, Plan(0, graph, true), t, false);
    states, actions := states + [t], actions + [Plan(0, graph, true)];
    t := At(t, 0, Resolved(graph, true));
    Extend(states, actions, Resolve(0, NoRun), t, false);
    states, actions := states + [t], actions + [Resolve(0, NoRun)];
    t := FirstCreated(states, actions, trace, graph, a, false);
    Extend(states, actions, Insert(0, TraceUnique), t, false);
    states, actions := states + [t], actions + [Insert(0, TraceUnique)];
    t := At(t, 1, Planned(graph, false));
    Extend(states, actions, Plan(1, graph, false), t, false);
    states, actions := states + [t], actions + [Plan(1, graph, false)];
    SecondResolves(t, trace, graph);
    t := At(t, 1, Ended(Answered(0)));
    Extend(states, actions, Resolve(1, Match(0)), t, false);
    states, actions := states + [t], actions + [Resolve(1, Match(0))];
  }

  lemma BothLooked(trace: string, a: AlphaRuns.Identity, b: AlphaRuns.Identity) returns (states: seq<State>, actions: seq<Action>)
    requires trace != "" && Trimmed(trace)
    ensures Execution(states, actions, false) && states != []
    ensures states[|states| - 1] == State([], map[], [Request(0, trace, a, Looked), Request(0, trace, b, Looked)])
  {
    states, actions := [START], [];
    var t := START.(requests := [Request(0, trace, a, Waiting)]);
    Extend(states, actions, Arrive(0, trace, a), t, false);
    states, actions := states + [t], actions + [Arrive(0, trace, a)];
    t := t.(requests := t.requests + [Request(0, trace, b, Waiting)]);
    Extend(states, actions, Arrive(0, trace, b), t, false);
    states, actions := states + [t], actions + [Arrive(0, trace, b)];
    t := At(t, 0, Looked);
    Extend(states, actions, Look(0), t, false);
    states, actions := states + [t], actions + [Look(0)];
    t := At(t, 1, Looked);
    Extend(states, actions, Look(1), t, false);
    states, actions := states + [t], actions + [Look(1)];
  }

  lemma FirstCreated(states: seq<State>, actions: seq<Action>, trace: string, graph: string, a: AlphaRuns.Identity, locking: bool)
    returns (t: State)
    requires states != [] && |states[|states| - 1].requests| > 0
    requires var s := states[|states| - 1]; s.runs == [] && s.graphs == map[] && s.requests[0] == Request(0, trace, a, Resolved(graph, true))
    ensures Next(states[|states| - 1], Insert(0, TraceUnique), t, locking)
    ensures var s := states[|states| - 1];
            t == State([NewRun(s.requests[0], graph)], map[graph := Graph(0, ExecutionKey(trace), Some(0))],
                       s.requests[0 := Request(0, trace, a, Ended(Created(0)))])
  {
    var s := states[|states| - 1];
    t := State([NewRun(s.requests[0], graph)], map[graph := Graph(0, ExecutionKey(trace), Some(0))],
               s.requests[0 := Request(0, trace, a, Ended(Created(0)))]);
  }

  lemma SecondResolves(s: State, trace: string, graph: string)
    requires trace != "" && CleanText(trace) == trace && |s.runs| == 1 && |s.requests| == 2
    requires s.graphs == map[graph := Graph(0, ExecutionKey(trace), Some(0))]
    requires s.runs[0].trace == trace && s.runs[0].workflow == WorkflowId(trace) && s.runs[0].root == RootSpanId(trace)
    requires s.runs[0].graph == graph && s.runs[0].scope == 0
    ensures Resolves(s.runs, VisibleRuns(s, 0), Identities(trace, graph), Match(0))
  {
    assert Visible(s, 0, 0);
    assert Hits(s.runs[0], Identities(trace, graph), 0);
  }
}
