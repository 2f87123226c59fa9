/** The graph runtime as a state machine. A `Task` is a suspended coroutine of `execute_graph`, `Run` is the
    state all coroutines share, and `Step` lets the scheduler resume one coroutine.

    A step is at most one atomic block of the program: it ends at the next activity call, approval wait, policy
    check or pause gate, or earlier, when a node hands its result to its parent. The program's interleavings are
    therefore among the model's. A failed coroutine leaves its `gather` siblings running, as asyncio does. */
module GraphRun {
  import opened Json

  // ----- graph specs

  datatype Node =
    | ToolCall(id: string, tool: string, args: Value, approval: bool)
    | Activity(id: string, name: string, queue: string, args: Value, approval: bool)
    | Sequential(id: string, children: seq<Node>)
    | Parallel(id: string, children: seq<Node>)
    | FanIn(id: string, children: seq<Node>)
    | Conditional(id: string, cond: Condition, ifTrue: Node, ifFalse: Option<Node>)
    | Loop(id: string, maxIterations: int, stop: Option<Condition>, body: Node)
    | Subgraph(id: string, graph: Node)
    | Unknown(id: string)

  /** BudgetPolicy, plus whether an approval mechanism is wired. None is "unlimited". */
  datatype Limits = Limits(
    maxToolCalls: Option<int>,
    maxActivityCalls: Option<int>,
    maxDepth: Option<int>,
    deadline: Option<int>,
    approvalsWired: bool)

  datatype Error =
    | InvalidGraph
    | DepthExceeded
    | DeadlineExceeded
    | ToolCallsExceeded
    | ActivityCallsExceeded
    | ApprovalRefused
    | PolicyRefused
    | ActivityFailed

  // ----- shared state

  /** One scheduled tool activity: what ExecuteToolInput carries. */
  datatype ToolDispatch = ToolDispatch(nodeId: string, stepSeq: nat, tool: string, args: Value)

  datatype ActivityDispatch = ActivityDispatch(nodeId: string, name: string, queue: string, args: Value)

  /** GraphExecutionState: `context`, `stepSeq` and the three counters, followed by the run's history: every
      activity it scheduled, the depths its nodes entered at and the times they got past the deadline check. */
  datatype Run = Run(
    runId: string,
    context: map<string, Value>,
    stepSeq: nat,
    toolCalls: nat,
    activityCalls: nat,
    depth: nat,
    tools: seq<ToolDispatch>,
    activities: seq<ActivityDispatch>,
    policyChecks: nat,
    depths: seq<nat>,
    starts: seq<int>)

  function NewRun(runId: string): Run {
    Run(runId, map[], 0, 0, 0, 0, [], [], 0, [], [])
  }

  // ----- coroutines

  /** `id` is the id the node runs under: its own, or `body[i]` for a loop iteration. */
  datatype Task =
    | Start(node: Node, id: string, depth: nat)
    | Gated(node: Node, id: string, depth: nat)
    | ToolApproval(node: Node, id: string)
    | ToolRunning(node: Node, id: string, stepSeq: nat)
    | PolicyCheck(node: Node, id: string)
    | ActivityApproval(node: Node, id: string, policyId: Value)
    | ActivityRunning(node: Node, id: string, policyId: Value)
    | InSequence(node: Node, id: string, depth: nat, done: seq<Value>, cur: Task)
    | InParallel(node: Node, id: string, depth: nat, kids: seq<Task>)
    | InBranch(node: Node, id: string, taken: bool, cur: Task)
    | InLoop(node: Node, id: string, depth: nat, done: seq<Value>, cur: Task)
    | InSubgraph(node: Node, id: string, cur: Task)
    | Done(result: Value)
    | Raised(error: Error)

  /** What the awaited thing answers: a tool's output, the permitting policy, an external activity's result, a
      granted approval, or any failure of these. */
  datatype Reply =
    | ToolOutput(deduplicated: bool, result: Value)
    | PolicyAllows(policyId: Value)
    | ActivityResult(result: Value)
    | Granted
    | Fails

  datatype Event = Event(now: int, paused: bool, reply: Reply)

  // ----- result dicts

  function ToolResult(id: string, deduplicated: bool, key: Value, result: Value): Value {
    Obj(map["node_id" := Str(id), "kind" := Str("tool_call"), "deduplicated" := Bool(deduplicated),
            "idempotency_key" := key, "result" := result])
  }

  function ActivityResultOf(id: string, name: string, queue: string, policyId: Value, result: Value): Value {
    Obj(map["node_id" := Str(id), "kind" := Str("activity"), "activity_name" := Str(name),
            "task_queue" := Str(queue), "policy_id" := policyId, "result" := result])
  }

  function SequenceResult(id: string, results: seq<Value>): Value {
    Obj(map["node_id" := Str(id), "kind" := Str("sequential"), "children" := Arr(results)])
  }

  function ParallelResult(id: string, results: seq<Value>): Value {
    Obj(map["node_id" := Str(id), "kind" := Str("parallel"), "children" := Arr(results)])
  }

  function FanInResult(id: string, results: seq<Value>): Value {
    Obj(map["node_id" := Str(id), "kind" := Str("fan_in"), "merged" := Arr(MergedResults(results)),
            "children" := Arr(results)])
  }

  function MergedResults(results: seq<Value>): seq<Value> {
    seq(|results|, i requires 0 <= i < |results| => MergedResult(results[i]))
  }

  function MergedResult(r: Value): Value {
    if r.Obj? && "result" in r.fields then r.fields["result"] else r
  }

  function GatherResult(n: Node, id: string, results: seq<Value>): Value {
    if n.FanIn? then FanInResult(id, results) else ParallelResult(id, results)
  }

  function BranchResult(id: string, taken: bool, result: Value): Value {
    Obj(map["node_id" := Str(id), "kind" := Str("conditional"),
            "taken" := Str(if taken then "if_true" else "if_false"), "branch" := result])
  }

  function NoBranchResult(id: string): Value {
    Obj(map["node_id" := Str(id), "kind" := Str("conditional"), "taken" := Str("none"), "branch" := Null])
  }

  function LoopResult(id: string, iterations: seq<Value>, conditionMet: bool): Value {
    Obj(map["node_id" := Str(id), "kind" := Str("loop"), "iterations" := Arr(iterations),
            "stopped_reason" := Str(if conditionMet then "condition_met" else "max_iterations")])
  }

  function SubgraphResult(id: string, result: Value): Value {
    Obj(map["node_id" := Str(id), "kind" := Str("subgraph"), "graph_result" := result])
  }

  /** The id of iteration i of a loop body: `body[i]`. */
  function IterationId(bodyId: string, i: nat): string {
    bodyId + "[" + Decimal(i) + "]"
  }

  function Decimal(i: nat): string {
    if i < 10 then ["0123456789"[i]] else Decimal(i / 10) + ["0123456789"[i % 10]]
  }

  /** Which way a conditional goes; None is the GraphError of an unusable comparator, which a missing
      reference never reaches. */
  function Takes(context: map<string, Value>, c: Condition): Option<bool> {
    if c.nodeRef in context then Matches(context[c.nodeRef], c) else Some(false)
  }

  // ----- one node's own work

  function Finish(id: string, result: Value, s: Run): (Task, Run) {
    (Done(result), s.(context := s.context[id := result]))
  }

  function Begin(n: Node, id: string, depth: nat, s: Run, b: Limits, ev: Event): (Task, Run) {
    if id == "" then (Raised(InvalidGraph), s)
    else if b.maxDepth.Some? && depth > b.maxDepth.value then (Raised(DepthExceeded), s)
    else
      var s1 := s.(depth := if depth > s.depth then depth else s.depth, depths := s.depths + [depth]);
      if b.deadline.Some? && ev.now >= b.deadline.value then (Raised(DeadlineExceeded), s1)
      else
        var s2 := s1.(starts := s1.starts + [ev.now]);
        if ev.paused then (Gated(n, id, depth), s2) else Dispatch(n, id, depth, s2, b)
  }

  function Dispatch(n: Node, id: string, depth: nat, s: Run, b: Limits): (Task, Run) {
    match n
    case ToolCall(_, tool, args, approval) =>
      if b.maxToolCalls.Some? && s.toolCalls + 1 > b.maxToolCalls.value then (Raised(ToolCallsExceeded), s)
      else if approval then
        if b.approvalsWired then (ToolApproval(n, id), s) else (Raised(InvalidGraph), s)
      else ScheduleTool(n, id, s)
    case Activity(_, name, queue, args, _) =>
      if name == "" || queue == "" then (Raised(InvalidGraph), s)
      else if b.maxActivityCalls.Some? && s.activityCalls + 1 > b.maxActivityCalls.value then
        (Raised(ActivityCallsExceeded), s)
      else (PolicyCheck(n, id), s.(policyChecks := s.policyChecks + 1))
    case Sequential(_, children) =>
      if children == [] then Finish(id, SequenceResult(id, []), s)
      else (InSequence(n, id, depth, [], Start(children[0], children[0].id, depth)), s)
    case Parallel(_, children) => (InParallel(n, id, depth, StartAll(children, depth)), s)
    case FanIn(_, children) => (InParallel(n, id, depth, StartAll(children, depth)), s)
    case Conditional(_, cond, ifTrue, ifFalse) =>
      (match Takes(s.context, cond)
       case None => (Raised(InvalidGraph), s)
       case Some(taken) =>
         if taken then (InBranch(n, id, true, Start(ifTrue, ifTrue.id, depth)), s)
         else if ifFalse.Some? then (InBranch(n, id, false, Start(ifFalse.value, ifFalse.value.id, depth)), s)
         else Finish(id, NoBranchResult(id), s))
    case Loop(_, maxIterations, _, body) =>
      if maxIterations < 1 then (Raised(InvalidGraph), s)
      else (InLoop(n, id, depth, [], Start(body, IterationId(body.id, 0), depth)), s)
    case Subgraph(_, graph) => (InSubgraph(n, id, Start(graph, graph.id, depth + 1)), s)
    case Unknown(_) => (Raised(InvalidGraph), s)
  }

  function StartAll(children: seq<Node>, depth: nat): seq<Task> {
    seq(|children|, i requires 0 <= i < |children| => Start(children[i], children[i].id, depth))
  }

  /** Counts the call, takes the next step number and schedules the activity: no suspension in between. */
  function ScheduleTool(n: Node, id: string, s: Run): (Task, Run)
    requires n.ToolCall?
  {
    var seqNo := s.stepSeq + 1;
    (ToolRunning(n, id, seqNo),
     s.(toolCalls := s.toolCalls + 1, stepSeq := seqNo,
        tools := s.tools + [ToolDispatch(id, seqNo, n.tool, n.args)]))
  }

  function ScheduleActivity(n: Node, id: string, policyId: Value, s: Run): (Task, Run)
    requires n.Activity?
  {
    (ActivityRunning(n, id, policyId),
     s.(activityCalls := s.activityCalls + 1,
        activities := s.activities + [ActivityDispatch(id, n.name, n.queue, n.args)]))
  }

  // ----- a result reaching its parent

  function CollectSequence(n: Node, id: string, depth: nat, done: seq<Value>, s: Run): (Task, Run)
    requires n.Sequential?
  {
    if |done| < |n.children| then
      (InSequence(n, id, depth, done, Start(n.children[|done|], n.children[|done|].id, depth)), s)
    else Finish(id, SequenceResult(id, done), s)
  }

  function CollectLoop(n: Node, id: string, depth: nat, done: seq<Value>, s: Run): (Task, Run)
    requires n.Loop? && done != []
  {
    match if n.stop.Some? then Matches(done[|done| - 1], n.stop.value) else Some(false)
    case None => (Raised(InvalidGraph), s)
    case Some(met) =>
      if met then Finish(id, LoopResult(id, done, true), s)
      else if |done| < n.maxIterations then
        (InLoop(n, id, depth, done, Start(n.body, IterationId(n.body.id, |done|), depth)), s)
      else Finish(id, LoopResult(id, done, false), s)
  }

  predicate AllDone(kids: seq<Task>) {
    forall i | 0 <= i < |kids| :: kids[i].Done?
  }

  function Results(kids: seq<Task>): seq<Value>
    requires AllDone(kids)
  {
    seq(|kids|, i requires 0 <= i < |kids| => kids[i].result)
  }

  // ----- the scheduler

  /** Resumes the coroutine that `path` selects (one index per gather on the way) with event `ev`; None when it
      cannot move on that event. */
  function Step(t: Task, s: Run, b: Limits, path: seq<nat>, ev: Event): Option<(Task, Run)>
    decreases t
  {
    match t
    case Start(n, id, depth) => Some(Begin(n, id, depth, s, b, ev))
    case Gated(n, id, depth) => if ev.paused then None else Some(Dispatch(n, id, depth, s, b))
    case ToolApproval(n, id) =>
      if !n.ToolCall? then None
      else if ev.reply.Granted? then Some(ScheduleTool(n, id, s))
      else if ev.reply.Fails? then Some((Raised(ApprovalRefused), s))
      else None
    case ToolRunning(n, id, seqNo) =>
      if !n.ToolCall? then None
      else if ev.reply.ToolOutput? then
        Some(Finish(id, ToolResult(id, ev.reply.deduplicated, Key(s.runId, id, seqNo, n.args), ev.reply.result), s))
      else if ev.reply.Fails? then Some((Raised(ActivityFailed), s))
      else None
    case PolicyCheck(n, id) =>
      if !n.Activity? then None
      else if ev.reply.Fails? then Some((Raised(PolicyRefused), s))
      else if !ev.reply.PolicyAllows? then None
      else if !n.approval then Some(ScheduleActivity(n, id, ev.reply.policyId, s))
      else if b.approvalsWired then Some((ActivityApproval(n, id, ev.reply.policyId), s))
      else Some((Raised(InvalidGraph), s))
    case ActivityApproval(n, id, policyId) =>
      if !n.Activity? then None
      else if ev.reply.Granted? then Some(ScheduleActivity(n, id, policyId, s))
      else if ev.reply.Fails? then Some((Raised(ApprovalRefused), s))
      else None
    case ActivityRunning(n, id, policyId) =>
      if !n.Activity? then None
      else if ev.reply.ActivityResult? then
        Some(Finish(id, ActivityResultOf(id, n.name, n.queue, policyId, ev.reply.result), s))
      else if ev.reply.Fails? then Some((Raised(ActivityFailed), s))
      else None
    case InSequence(n, id, depth, done, cur) =>
      if !n.Sequential? then None
      else if cur.Done? then Some(CollectSequence(n, id, depth, done + [cur.result], s))
      else
        (match Step(cur, s, b, path, ev)
         case None => None
         case Some((cur', s')) => Some((InSequence(n, id, depth, done, cur'), s')))
    case InParallel(n, id, depth, kids) =>
      if AllDone(kids) then Some(Finish(id, GatherResult(n, id, Results(kids)), s))
      else if path == [] || path[0] >= |kids| then None
      else
        (match Step(kids[path[0]], s, b, path[1..], ev)
         case None => None
         case Some((kid, s')) => Some((InParallel(n, id, depth, kids[path[0] := kid]), s')))
    case InBranch(n, id, taken, cur) =>
      if cur.Done? then Some(Finish(id, BranchResult(id, taken, cur.result), s))
      else
        (match Step(cur, s, b, path, ev)
         case None => None
         case Some((cur', s')) => Some((InBranch(n, id, taken, cur'), s')))
    case InLoop(n, id, depth, done, cur) =>
      if !n.Loop? then None
      else if cur.Done? then Some(CollectLoop(n, id, depth, done + [cur.result], s))
      else
        (match Step(cur, s, b, path, ev)
         case None => None
         case Some((cur', s')) => Some((InLoop(n, id, depth, done, cur'), s')))
    case InSubgraph(n, id, cur) =>
      if cur.Done? then Some(Finish(id, SubgraphResult(id, cur.result), s))
      else
        (match Step(cur, s, b, path, ev)
         case None => None
         case Some((cur', s')) => Some((InSubgraph(n, id, cur'), s')))
    case Done(_) => None
    case Raised(_) => None
  }

  datatype Move = Move(path: seq<nat>, ev: Event)

  /** A schedule carried out from a configuration; None when some move was not possible. The states some
      schedule reaches from a fresh run are the reachable ones. */
  function Execute(t: Task, s: Run, b: Limits, moves: seq<Move>): Option<(Task, Run)>
    decreases |moves|
  {
    if moves == [] then Some((t, s))
    else
      match Step(t, s, b, moves[0].path, moves[0].ev)
      case None => None
      case Some((t', s')) => Execute(t', s', b, moves[1..])
  }

  function Root(n: Node): Task {
    Start(n, n.id, 0)
  }
}
