/** The result of a completed run accounts for every call the run made: reading the result tree alone, by the shape
    of the graph, gives exactly the tool calls and external activities that were scheduled. */
module GraphAccount {
  import opened Json
  import opened GraphRun
  import GraphBudget
  import GraphOrder

  /** One call, as a result dict records it. */
  datatype Entry =
    | ToolEntry(nodeId: Value, key: Value)
    | ActivityEntry(nodeId: Value, name: Value, queue: Value)

  function Field(r: Value, name: string): Value {
    if r.Obj? && name in r.fields then r.fields[name] else Null
  }

  function Items(r: Value, name: string): seq<Value> {
    if Field(r, name).Arr? then Field(r, name).items else []
  }

  // ----- sums

  function Sum(ms: seq<multiset<Entry>>): multiset<Entry> {
    if ms == [] then multiset{} else Sum(ms[..|ms| - 1]) + ms[|ms| - 1]
  }

  lemma SumAppend(ms: seq<multiset<Entry>>, m: multiset<Entry>)
    ensures Sum(ms + [m]) == Sum(ms) + m
  {
    assert (ms + [m])[..|ms|] == ms;
  }

  lemma Swap(a: multiset<Entry>, x: multiset<Entry>, b: multiset<Entry>, y: multiset<Entry>, z: multiset<Entry>)
    requires a + x == b + y
    ensures a + z + x == b + z + y
  {
    assert a + z + x == a + x + z && b + z + y == b + y + z;
  }

  lemma Cancel(made: multiset<Entry>, made': multiset<Entry>, x: multiset<Entry>, x': multiset<Entry>,
               sum: multiset<Entry>, sum': multiset<Entry>)
    requires made' + x == made + x' && sum' + x == sum + x'
    ensures made' + sum == made + sum'
  {
    forall e ensures (made' + sum)[e] == (made + sum')[e] {
      assert (made' + x)[e] == (made + x')[e] && (sum' + x)[e] == (sum + x')[e];
    }
  }

  lemma {:induction false} SumUpdate(ms: seq<multiset<Entry>>, k: nat, m: multiset<Entry>)
    requires k < |ms|
    ensures Sum(ms[k := m]) + ms[k] == Sum(ms) + m
  {
    var front := ms[..|ms| - 1];
    if k < |front| {
      SumUpdate(front, k, m);
      assert ms[k := m][..|ms| - 1] == front[k := m];
      Swap(Sum(front[k := m]), ms[k], Sum(front), m, ms[|ms| - 1]);
    } else {
      assert ms[k := m][..|ms| - 1] == front;
    }
  }

  lemma {:induction false} SumOfNothing(ms: seq<multiset<Entry>>)
    requires forall i | 0 <= i < |ms| :: ms[i] == multiset{}
    ensures Sum(ms) == multiset{}
  {
    if ms != [] { SumOfNothing(ms[..|ms| - 1]); }
  }

  // ----- what a result tree says

  /** The calls a result of node n records. */
  function Recorded(n: Node, r: Value): multiset<Entry>
    decreases n, 0
  {
    match n
    case ToolCall(_, _, _, _) => multiset{ToolEntry(Field(r, "node_id"), Field(r, "idempotency_key"))}
    case Activity(_, _, _, _, _) =>
      multiset{ActivityEntry(Field(r, "node_id"), Field(r, "activity_name"), Field(r, "task_queue"))}
    case Sequential(_, children) => Sum(RecordedBy(children, Items(r, "children")))
    case Parallel(_, children) => Sum(RecordedBy(children, Items(r, "children")))
    case FanIn(_, children) => Sum(RecordedBy(children, Items(r, "children")))
    case Conditional(_, _, ifTrue, ifFalse) =>
      if Field(r, "taken") == Str("if_true") then Recorded(ifTrue, Field(r, "branch"))
      else if Field(r, "taken") == Str("if_false") && ifFalse.Some? then Recorded(ifFalse.value, Field(r, "branch"))
      else multiset{}
    case Loop(_, _, _, body) => Sum(RecordedInLoop(body, Items(r, "iterations")))
    case Subgraph(_, graph) => Recorded(graph, Field(r, "graph_result"))
    case Unknown(_) => multiset{}
  }

  /** The calls of each child that has a result. */
  function RecordedBy(children: seq<Node>, results: seq<Value>): seq<multiset<Entry>>
    decreases children, 0
  {
    seq(if |results| <= |children| then |results| else |children|,
        i requires 0 <= i < |children| && i < |results| => Recorded(children[i], results[i]))
  }

  function RecordedInLoop(body: Node, results: seq<Value>): seq<multiset<Entry>>
    decreases body, 1
  {
    seq(|results|, i requires 0 <= i < |results| => Recorded(body, results[i]))
  }

  // ----- what a run did

  function ToolsMade(s: Run, i: nat): multiset<Entry>
    requires i <= |s.tools|
  {
    if i == 0 then multiset{}
    else
      var d := s.tools[i - 1];
      ToolsMade(s, i - 1) + multiset{ToolEntry(Str(d.nodeId), Key(s.runId, d.nodeId, d.stepSeq, d.args))}
  }

  function ActivitiesMade(s: Run, i: nat): multiset<Entry>
    requires i <= |s.activities|
  {
    if i == 0 then multiset{}
    else
      var d := s.activities[i - 1];
      ActivitiesMade(s, i - 1) + multiset{ActivityEntry(Str(d.nodeId), Str(d.name), Str(d.queue))}
  }

  /** Every call the run scheduled, as its result should record it. */
  function Made(s: Run): multiset<Entry> {
    ToolsMade(s, |s.tools|) + ActivitiesMade(s, |s.activities|)
  }

  // ----- what a coroutine has recorded or is about to

  /** The calls a coroutine of node n has made so far and will record. */
  function Carried(t: Task, n: Node, runId: string): multiset<Entry>
    decreases t, 0
  {
    match t
    case ToolRunning(m, id, seqNo) =>
      if m.ToolCall? then multiset{ToolEntry(Str(id), Key(runId, id, seqNo, m.args))} else multiset{}
    case ActivityRunning(m, id, _) =>
      if m.Activity? then multiset{ActivityEntry(Str(id), Str(m.name), Str(m.queue))} else multiset{}
    case InSequence(_, _, _, done, cur) =>
      if n.Sequential? && |done| < |n.children|
      then Sum(RecordedBy(n.children, done)) + Carried(cur, n.children[|done|], runId) else multiset{}
    case InParallel(_, _, _, kids) =>
      if (n.Parallel? || n.FanIn?) && |kids| == |n.children|
      then Sum(CarriedBy(kids, n.children, runId)) else multiset{}
    case InBranch(_, _, taken, cur) =>
      if n.Conditional? && (taken || n.ifFalse.Some?)
      then Carried(cur, if taken then n.ifTrue else n.ifFalse.value, runId) else multiset{}
    case InLoop(_, _, _, done, cur) =>
      if n.Loop? then Sum(RecordedInLoop(n.body, done)) + Carried(cur, n.body, runId) else multiset{}
    case InSubgraph(_, _, cur) => if n.Subgraph? then Carried(cur, n.graph, runId) else multiset{}
    case Done(r) => Recorded(n, r)
    case _ => multiset{}
  }

  /** The calls of each of a gather's coroutines. */
  function CarriedBy(kids: seq<Task>, children: seq<Node>, runId: string): seq<multiset<Entry>>
    requires |kids| == |children|
    decreases kids, 0
  {
    seq(|kids|, i requires 0 <= i < |kids| => Carried(kids[i], children[i], runId))
  }

  /** Some coroutine inside t raised: what it had made is recorded nowhere. */
  predicate Broken(t: Task) {
    match t
    case Raised(_) => true
    case InSequence(_, _, _, _, cur) => Broken(cur)
    case InParallel(_, _, _, kids) => exists i | 0 <= i < |kids| :: Broken(kids[i])
    case InBranch(_, _, _, cur) => Broken(cur)
    case InLoop(_, _, _, _, cur) => Broken(cur)
    case InSubgraph(_, _, cur) => Broken(cur)
    case _ => false
  }

  // ----- one step

  /** A step makes exactly the calls its coroutine newly carries. */
  predicate Balanced(t: Task, s: Run, n: Node, t': Task, s': Run) {
    s'.runId == s.runId
    && (Broken(t') || Made(s') + Carried(t, n, s.runId) == Made(s) + Carried(t', n, s.runId))
  }

  lemma {:induction false} ToolsKept(s: Run, s': Run, i: nat)
    requires s'.runId == s.runId && i <= |s.tools| && s.tools <= s'.tools
    ensures ToolsMade(s', i) == ToolsMade(s, i)
  {
    if i > 0 { ToolsKept(s, s', i - 1); }
  }

  lemma {:induction false} ActivitiesKept(s: Run, s': Run, i: nat)
    requires i <= |s.activities| && s.activities <= s'.activities
    ensures ActivitiesMade(s', i) == ActivitiesMade(s, i)
  {
    if i > 0 { ActivitiesKept(s, s', i - 1); }
  }

  lemma MadeNothing(s: Run, s': Run)
    requires s'.runId == s.runId && s'.tools == s.tools && s'.activities == s.activities
    ensures Made(s') == Made(s)
  {
    ToolsKept(s, s', |s.tools|);
    ActivitiesKept(s, s', |s.activities|);
  }

  lemma ScheduleToolMakes(n: Node, id: string, s: Run, t': Task, s': Run)
    requires n.ToolCall? && ScheduleTool(n, id, s) == (t', s')
    ensures s'.runId == s.runId && Made(s') == Made(s) + Carried(t', n, s.runId) && !Broken(t')
  {
    ToolsKept(s, s', |s.tools|);
    ActivitiesKept(s, s', |s.activities|);
  }

  lemma ScheduleActivityMakes(n: Node, id: string, policyId: Value, s: Run, t': Task, s': Run)
    requires n.Activity? && ScheduleActivity(n, id, policyId, s) == (t', s')
    ensures s'.runId == s.runId && Made(s') == Made(s) + Carried(t', n, s.runId) && !Broken(t')
  {
    ToolsKept(s, s', |s.tools|);
    ActivitiesKept(s, s', |s.activities|);
  }

  lemma CarriedDone(t: Task, n: Node, runId: string)
    requires t.Done?
    ensures Carried(t, n, runId) == Recorded(n, t.result)
  {
  }

  lemma CarriedSequence(n: Node, id: string, depth: nat, done: seq<Value>, cur: Task, runId: string)
    requires n.Sequential? && |done| < |n.children|
    ensures Carried(InSequence(n, id, depth, done, cur), n, runId)
            == Sum(RecordedBy(n.children, done)) + Carried(cur, n.children[|done|], runId)
  {
  }

  lemma CarriedLoop(n: Node, id: string, depth: nat, done: seq<Value>, cur: Task, runId: string)
    requires n.Loop?
    ensures Carried(InLoop(n, id, depth, done, cur), n, runId)
            == Sum(RecordedInLoop(n.body, done)) + Carried(cur, n.body, runId)
  {
  }

  lemma CarriedGather(n: Node, id: string, depth: nat, kids: seq<Task>, runId: string)
    requires (n.Parallel? || n.FanIn?) && |kids| == |n.children|
    ensures Carried(InParallel(n, id, depth, kids), n, runId) == Sum(CarriedBy(kids, n.children, runId))
  {
  }

  lemma RecordedSequence(n: Node, id: string, results: seq<Value>)
    requires n.Sequential? && |results| <= |n.children|
    ensures Recorded(n, SequenceResult(id, results)) == Sum(RecordedBy(n.children, results))
  {
    assert Items(SequenceResult(id, results), "children") == results;
  }

  lemma RecordedLoop(n: Node, id: string, results: seq<Value>, met: bool)
    requires n.Loop?
    ensures Recorded(n, LoopResult(id, results, met)) == Sum(RecordedInLoop(n.body, results))
  {
    assert Items(LoopResult(id, results, met), "iterations") == results;
  }

  lemma RecordedGather(n: Node, id: string, results: seq<Value>)
    requires (n.Parallel? || n.FanIn?) && |results| == |n.children|
    ensures Recorded(n, GatherResult(n, id, results)) == Sum(RecordedBy(n.children, results))
  {
    assert Items(GatherResult(n, id, results), "children") == results;
  }

  lemma RecordedOneMore(children: seq<Node>, rs: seq<Value>, r: Value)
    requires |rs| < |children|
    ensures RecordedBy(children, rs + [r]) == RecordedBy(children, rs) + [Recorded(children[|rs|], r)]
  {
    var longer, shorter := RecordedBy(children, rs + [r]), RecordedBy(children, rs);
    forall i | 0 <= i < |rs| ensures longer[i] == shorter[i] { assert (rs + [r])[i] == rs[i]; }
  }

  lemma RecordedNext(children: seq<Node>, rs: seq<Value>, r: Value)
    requires |rs| < |children|
    ensures Sum(RecordedBy(children, rs + [r])) == Sum(RecordedBy(children, rs)) + Recorded(children[|rs|], r)
  {
    RecordedOneMore(children, rs, r);
    SumAppend(RecordedBy(children, rs), Recorded(children[|rs|], r));
  }

  lemma RecordedLoopNext(body: Node, rs: seq<Value>, r: Value)
    ensures Sum(RecordedInLoop(body, rs + [r])) == Sum(RecordedInLoop(body, rs)) + Recorded(body, r)
  {
    SumAppend(RecordedInLoop(body, rs), Recorded(body, r));
    assert RecordedInLoop(body, rs + [r]) == RecordedInLoop(body, rs) + [Recorded(body, r)];
  }

  lemma GatherStartsEmpty(n: Node, id: string, depth: nat, runId: string)
    requires n.Parallel? || n.FanIn?
    ensures Carried(InParallel(n, id, depth, StartAll(n.children, depth)), n, runId) == multiset{}
  {
    CarriedGather(n, id, depth, StartAll(n.children, depth), runId);
    SumOfNothing(CarriedBy(StartAll(n.children, depth), n.children, runId));
  }

  /** A node's own dispatch makes the calls its coroutine then carries. */
  lemma DispatchMakes(n: Node, id: string, depth: nat, s: Run, b: Limits, t': Task, s': Run)
    requires Dispatch(n, id, depth, s, b) == (t', s')
    ensures s'.runId == s.runId && (Broken(t') || Made(s') == Made(s) + Carried(t', n, s.runId))
  {
    if n.ToolCall? && t'.ToolRunning? {
      ScheduleToolMakes(n, id, s, t', s');
    } else {
      MadeNothing(s, s');
      if !t'.Raised? { DispatchCarriesNothing(n, id, depth, s, b, t', s'); }
    }
  }

  lemma DispatchCarriesNothing(n: Node, id: string, depth: nat, s: Run, b: Limits, t': Task, s': Run)
    requires Dispatch(n, id, depth, s, b) == (t', s') && !t'.ToolRunning? && !t'.Raised?
    ensures Carried(t', n, s.runId) == multiset{}
  {
    if n.Parallel? || n.FanIn? {
      GatherStartsEmpty(n, id, depth, s.runId);
    } else if n.Sequential? && t'.Done? {
      RecordedSequence(n, id, []);
    }
  }

  lemma BeginMakes(n: Node, id: string, depth: nat, s: Run, b: Limits, ev: Event, t': Task, s': Run)
    requires Begin(n, id, depth, s, b, ev) == (t', s')
    ensures s'.runId == s.runId && (Broken(t') || Made(s') == Made(s) + Carried(t', n, s.runId))
  {
    if id != "" && !(b.maxDepth.Some? && depth > b.maxDepth.value) {
      var s1 := s.(depth := if depth > s.depth then depth else s.depth, depths := s.depths + [depth]);
      var s2 := s1.(starts := s1.starts + [ev.now]);
      MadeNothing(s, s1);
      MadeNothing(s, s2);
      if !(b.deadline.Some? && ev.now >= b.deadline.value) && !ev.paused { DispatchMakes(n, id, depth, s2, b, t', s'); }
    }
  }

  // ----- results reaching their parents

  lemma FinishMakes(id: string, result: Value, s: Run)
    ensures Made(Finish(id, result, s).1) == Made(s)
  {
    MadeNothing(s, Finish(id, result, s).1);
  }

  lemma SequenceBalanced(n: Node, id: string, depth: nat, done: seq<Value>, cur: Task, s: Run, t': Task, s': Run)
    requires n.Sequential? && |done| < |n.children| && cur.Done?
    requires CollectSequence(n, id, depth, done + [cur.result], s) == (t', s')
    ensures s'.runId == s.runId && Made(s') == Made(s)
    ensures Carried(t', n, s.runId) == Carried(InSequence(n, id, depth, done, cur), n, s.runId)
  {
    var all := done + [cur.result];
    CarriedSequence(n, id, depth, done, cur, s.runId);
    CarriedDone(cur, n.children[|done|], s.runId);
    RecordedNext(n.children, done, cur.result);
    if |all| < |n.children| {
      CarriedSequence(n, id, depth, all, t'.cur, s.runId);
    } else {
      RecordedSequence(n, id, all);
      CarriedDone(t', n, s.runId);
      FinishMakes(id, SequenceResult(id, all), s);
    }
  }

  lemma LoopBalanced(n: Node, id: string, depth: nat, done: seq<Value>, cur: Task, s: Run, t': Task, s': Run)
    requires n.Loop? && cur.Done?
    requires CollectLoop(n, id, depth, done + [cur.result], s) == (t', s') && !t'.Raised?
    ensures s'.runId == s.runId && Made(s') == Made(s)
    ensures Carried(t', n, s.runId) == Carried(InLoop(n, id, depth, done, cur), n, s.runId)
  {
    var all := done + [cur.result];
    CarriedLoop(n, id, depth, done, cur, s.runId);
    CarriedDone(cur, n.body, s.runId);
    RecordedLoopNext(n.body, done, cur.result);
    if t'.Done? {
      var met :| Finish(id, LoopResult(id, all, met), s) == (t', s');
      RecordedLoop(n, id, all, met);
      CarriedDone(t', n, s.runId);
      FinishMakes(id, LoopResult(id, all, met), s);
    } else {
      CarriedLoop(n, id, depth, all, t'.cur, s.runId);
    }
  }

  lemma GatheredRecords(kids: seq<Task>, children: seq<Node>, runId: string)
    requires |kids| == |children| && AllDone(kids)
    ensures CarriedBy(kids, children, runId) == RecordedBy(children, Results(kids))
  {
    forall i | 0 <= i < |kids| ensures CarriedBy(kids, children, runId)[i] == RecordedBy(children, Results(kids))[i] {
      CarriedDone(kids[i], children[i], runId);
    }
  }

  lemma GatherBalanced(n: Node, id: string, depth: nat, kids: seq<Task>, s: Run, t': Task, s': Run)
    requires (n.Parallel? || n.FanIn?) && |kids| == |n.children| && AllDone(kids)
    requires Finish(id, GatherResult(n, id, Results(kids)), s) == (t', s')
    ensures s'.runId == s.runId && Made(s') == Made(s)
    ensures Carried(t', n, s.runId) == Carried(InParallel(n, id, depth, kids), n, s.runId)
  {
    FinishMakes(id, GatherResult(n, id, Results(kids)), s);
    CarriedGather(n, id, depth, kids, s.runId);
    GatheredRecords(kids, n.children, s.runId);
    RecordedGather(n, id, Results(kids));
    CarriedDone(t', n, s.runId);
  }

  // ----- a step of an inner coroutine

  lemma KidCarries(n: Node, id: string, depth: nat, kids: seq<Task>, runId: string, k: nat, kid: Task)
    requires (n.Parallel? || n.FanIn?) && |kids| == |n.children| && k < |kids|
    ensures Carried(InParallel(n, id, depth, kids[k := kid]), n, runId) + Carried(kids[k], n.children[k], runId)
            == Carried(InParallel(n, id, depth, kids), n, runId) + Carried(kid, n.children[k], runId)
  {
    var kids', m := kids[k := kid], Carried(kid, n.children[k], runId);
    SumUpdate(CarriedBy(kids, n.children, runId), k, m);
    assert CarriedBy(kids', n.children, runId) == CarriedBy(kids, n.children, runId)[k := m];
    CarriedGather(n, id, depth, kids, runId);
    CarriedGather(n, id, depth, kids', runId);
  }

  lemma KidBalanced(n: Node, id: string, depth: nat, kids: seq<Task>, s: Run, k: nat, kid: Task, s': Run)
    requires (n.Parallel? || n.FanIn?) && |kids| == |n.children| && k < |kids|
    requires Balanced(kids[k], s, n.children[k], kid, s')
    ensures Balanced(InParallel(n, id, depth, kids), s, n, InParallel(n, id, depth, kids[k := kid]), s')
  {
    var kids' := kids[k := kid];
    if Broken(kid) {
      assert kids'[k] == kid;
    } else {
      KidCarries(n, id, depth, kids, s.runId, k, kid);
      Cancel(Made(s), Made(s'), Carried(kids[k], n.children[k], s.runId), Carried(kid, n.children[k], s.runId),
             Carried(InParallel(n, id, depth, kids), n, s.runId), Carried(InParallel(n, id, depth, kids'), n, s.runId));
    }
  }

  lemma CarriedInner(t: Task, cur: Task, n: Node, runId: string) returns (kept: multiset<Entry>)
    requires GraphBudget.IsNested(t) && GraphOrder.Of(t, n)
    ensures Carried(t, n, runId) == kept + Carried(t.cur, GraphOrder.Inner(t, n), runId)
    ensures Carried(WithInner(t, cur), n, runId) == kept + Carried(cur, GraphOrder.Inner(t, n), runId)
  {
    match t
    case InSequence(_, id, depth, done, _) =>
      CarriedSequence(n, id, depth, done, t.cur, runId);
      CarriedSequence(n, id, depth, done, cur, runId);
      kept := Sum(RecordedBy(n.children, done));
    case InLoop(_, id, depth, done, _) =>
      CarriedLoop(n, id, depth, done, t.cur, runId);
      CarriedLoop(n, id, depth, done, cur, runId);
      kept := Sum(RecordedInLoop(n.body, done));
    case _ =>
      kept := multiset{};
  }

  function WithInner(t: Task, cur: Task): Task
    requires GraphBudget.IsNested(t)
  {
    match t
    case InSequence(n, id, depth, done, _) => InSequence(n, id, depth, done, cur)
    case InBranch(n, id, taken, _) => InBranch(n, id, taken, cur)
    case InLoop(n, id, depth, done, _) => InLoop(n, id, depth, done, cur)
    case InSubgraph(n, id, _) => InSubgraph(n, id, cur)
  }

  lemma CurBalanced(t: Task, n: Node, s: Run, cur: Task, s': Run)
    requires GraphBudget.IsNested(t) && GraphOrder.Of(t, n)
    requires Balanced(t.cur, s, GraphOrder.Inner(t, n), cur, s')
    ensures Balanced(t, s, n, WithInner(t, cur), s')
  {
    var kept := CarriedInner(t, cur, n, s.runId);
    if !Broken(cur) {
      var inner := GraphOrder.Inner(t, n);
      Swap(Made(s'), Carried(t.cur, inner, s.runId), Made(s), Carried(cur, inner, s.runId), kept);
      assert Made(s') + Carried(t, n, s.runId) == Made(s') + kept + Carried(t.cur, inner, s.runId);
      assert Made(s) + Carried(WithInner(t, cur), n, s.runId) == Made(s) + kept + Carried(cur, inner, s.runId);
    }
  }

  // ----- a coroutine's own step

  predicate Waiting(t: Task) {
    t.ToolApproval? || t.ToolRunning? || t.PolicyCheck? || t.ActivityApproval? || t.ActivityRunning?
  }

  lemma ToolCompletes(n: Node, id: string, seqNo: nat, s: Run, b: Limits, path: seq<nat>, ev: Event, t': Task, s': Run)
    requires n.ToolCall? && Step(ToolRunning(n, id, seqNo), s, b, path, ev) == Some((t', s')) && !t'.Raised?
    ensures t'.Done? && s'.runId == s.runId && Made(s') == Made(s)
    ensures Recorded(n, t'.result) == Carried(ToolRunning(n, id, seqNo), n, s.runId)
  {
    MadeNothing(s, s');
  }

  lemma ActivityCompletes(n: Node, id: string, policyId: Value, s: Run, b: Limits, path: seq<nat>, ev: Event,
                          t': Task, s': Run)
    requires n.Activity? && Step(ActivityRunning(n, id, policyId), s, b, path, ev) == Some((t', s')) && !t'.Raised?
    ensures t'.Done? && s'.runId == s.runId && Made(s') == Made(s)
    ensures Recorded(n, t'.result) == Carried(ActivityRunning(n, id, policyId), n, s.runId)
  {
    MadeNothing(s, s');
  }

  lemma GrantedBalanced(t: Task, n: Node, s: Run, b: Limits, path: seq<nat>, ev: Event, t': Task, s': Run)
    requires t.ToolApproval? || t.ActivityApproval?
    requires GraphOrder.Of(t, n) && Step(t, s, b, path, ev) == Some((t', s')) && !t'.Raised?
    ensures Balanced(t, s, n, t', s')
  {
    assert Carried(t, n, s.runId) == multiset{};
    if t.ToolApproval? {
      ScheduleToolMakes(n, t.id, s, t', s');
    } else {
      ScheduleActivityMakes(n, t.id, t.policyId, s, t', s');
    }
  }

  lemma PolicyBalanced(t: Task, n: Node, s: Run, b: Limits, path: seq<nat>, ev: Event, t': Task, s': Run)
    requires t.PolicyCheck?
    requires GraphOrder.Of(t, n) && Step(t, s, b, path, ev) == Some((t', s')) && !t'.Raised?
    ensures Balanced(t, s, n, t', s')
  {
    assert Carried(t, n, s.runId) == multiset{};
    if t'.ActivityRunning? {
      ScheduleActivityMakes(n, t.id, t'.policyId, s, t', s');
    } else {
      MadeNothing(s, s');
    }
  }

  lemma RunningBalanced(t: Task, n: Node, s: Run, b: Limits, path: seq<nat>, ev: Event, t': Task, s': Run)
    requires t.ToolRunning? || t.ActivityRunning?
    requires GraphOrder.Of(t, n) && Step(t, s, b, path, ev) == Some((t', s')) && !t'.Raised?
    ensures Balanced(t, s, n, t', s')
  {
    if t.ToolRunning? {
      ToolCompletes(n, t.id, t.stepSeq, s, b, path, ev, t', s');
    } else {
      ActivityCompletes(n, t.id, t.policyId, s, b, path, ev, t', s');
    }
    CarriedDone(t', n, s.runId);
  }

  lemma RefusedBalanced(t: Task, n: Node, s: Run, b: Limits, path: seq<nat>, ev: Event, t': Task, s': Run)
    requires Waiting(t) && Step(t, s, b, path, ev) == Some((t', s')) && t'.Raised?
    ensures Balanced(t, s, n, t', s')
  {
  }

  lemma WaitingBalanced(t: Task, n: Node, s: Run, b: Limits, path: seq<nat>, ev: Event, t': Task, s': Run)
    requires Waiting(t) && GraphOrder.Of(t, n) && Step(t, s, b, path, ev) == Some((t', s'))
    ensures Balanced(t, s, n, t', s')
  {
    if t'.Raised? {
      RefusedBalanced(t, n, s, b, path, ev, t', s');
    } else if t.ToolRunning? || t.ActivityRunning? {
      RunningBalanced(t, n, s, b, path, ev, t', s');
    } else if t.PolicyCheck? {
      PolicyBalanced(t, n, s, b, path, ev, t', s');
    } else {
      GrantedBalanced(t, n, s, b, path, ev, t', s');
    }
  }

  lemma BranchBalanced(t: Task, n: Node, s: Run, b: Limits, path: seq<nat>, ev: Event, t': Task, s': Run)
    requires t.InBranch? && t.cur.Done?
    requires GraphOrder.Of(t, n) && Step(t, s, b, path, ev) == Some((t', s'))
    ensures Balanced(t, s, n, t', s')
  {
    MadeNothing(s, s');
    CarriedDone(t', n, s.runId);
    CarriedDone(t.cur, GraphOrder.Taken(n, t.taken), s.runId);
    RecordedBranch(n, t.id, t.taken, t.cur.result);
  }

  lemma SubgraphBalanced(t: Task, n: Node, s: Run, b: Limits, path: seq<nat>, ev: Event, t': Task, s': Run)
    requires t.InSubgraph? && t.cur.Done?
    requires GraphOrder.Of(t, n) && Step(t, s, b, path, ev) == Some((t', s'))
    ensures Balanced(t, s, n, t', s')
  {
    MadeNothing(s, s');
    CarriedDone(t', n, s.runId);
    CarriedDone(t.cur, n.graph, s.runId);
  }

  lemma RecordedBranch(n: Node, id: string, taken: bool, r: Value)
    requires n.Conditional? && (taken || n.ifFalse.Some?)
    ensures Recorded(n, BranchResult(id, taken, r)) == Recorded(GraphOrder.Taken(n, taken), r)
  {
    assert Field(BranchResult(id, taken, r), "branch") == r;
  }

  /** Every step of every coroutine, under whatever limits and answers, makes exactly the calls that the coroutine
      comes to carry, unless something in it raised. */
  lemma {:induction false} StepBalanced(t: Task, n: Node, s: Run, b: Limits, path: seq<nat>, ev: Event, t': Task, s': Run)
    requires GraphOrder.Of(t, n) && Step(t, s, b, path, ev) == Some((t', s'))
    ensures Balanced(t, s, n, t', s')
    decreases t
  {
    if t.Start? {
      BeginMakes(n, t.id, t.depth, s, b, ev, t', s');
    } else if t.Gated? {
      DispatchMakes(n, t.id, t.depth, s, b, t', s');
    } else if Waiting(t) {
      WaitingBalanced(t, n, s, b, path, ev, t', s');
    } else if t.InParallel? {
      if AllDone(t.kids) {
        GatherBalanced(n, t.id, t.depth, t.kids, s, t', s');
      } else {
        var kid := t'.kids[path[0]];
        StepBalanced(t.kids[path[0]], n.children[path[0]], s, b, path[1..], ev, kid, s');
        KidBalanced(n, t.id, t.depth, t.kids, s, path[0], kid, s');
      }
    } else if !t.cur.Done? {
      StepBalanced(t.cur, GraphOrder.Inner(t, n), s, b, path, ev, t'.cur, s');
      CurBalanced(t, n, s, t'.cur, s');
    } else if t.InSequence? {
      SequenceBalanced(n, t.id, t.depth, t.done, t.cur, s, t', s');
    } else if t.InLoop? {
      if !t'.Raised? { LoopBalanced(n, t.id, t.depth, t.done, t.cur, s, t', s'); }
    } else if t.InBranch? {
      BranchBalanced(t, n, s, b, path, ev, t', s');
    } else {
      SubgraphBalanced(t, n, s, b, path, ev, t', s');
    }
  }

  /** What raised stays raised: a run with a failed coroutine does not complete. */
  lemma {:induction false} BrokenStays(t: Task, s: Run, b: Limits, path: seq<nat>, ev: Event, t': Task, s': Run)
    requires Broken(t) && Step(t, s, b, path, ev) == Some((t', s'))
    ensures Broken(t')
    decreases t
  {
    if t.InParallel? {
      var i :| 0 <= i < |t.kids| && Broken(t.kids[i]);
      if path[0] == i {
        BrokenStays(t.kids[i], s, b, path[1..], ev, t'.kids[i], s');
      } else {
        assert t'.kids[i] == t.kids[i];
      }
    } else {
      BrokenStays(t.cur, s, b, path, ev, t'.cur, s');
    }
  }

  // ----- whole runs

  lemma {:induction false} BrokenNeverCompletes(t: Task, s: Run, b: Limits, moves: seq<Move>, t': Task, s': Run)
    requires Broken(t) && Execute(t, s, b, moves) == Some((t', s'))
    ensures Broken(t')
    decreases |moves|
  {
    if moves != [] {
      var next := Step(t, s, b, moves[0].path, moves[0].ev).value;
      BrokenStays(t, s, b, moves[0].path, moves[0].ev, next.0, next.1);
      BrokenNeverCompletes(next.0, next.1, b, moves[1..], t', s');
    }
  }

  lemma {:induction false} ExecuteBalanced(t: Task, n: Node, s: Run, b: Limits, moves: seq<Move>, t': Task, s': Run)
    requires GraphOrder.Of(t, n) && Execute(t, s, b, moves) == Some((t', s'))
    ensures Balanced(t, s, n, t', s')
    decreases |moves|
  {
    if moves != [] {
      var next := Step(t, s, b, moves[0].path, moves[0].ev).value;
      var t1, s1 := next.0, next.1;
      StepBalanced(t, n, s, b, moves[0].path, moves[0].ev, t1, s1);
      GraphOrder.StepOf(t, n, s, b, moves[0].path, moves[0].ev, t1, s1);
      ExecuteBalanced(t1, n, s1, b, moves[1..], t', s');
      if Broken(t1) {
        BrokenNeverCompletes(t1, s1, b, moves[1..], t', s');
      } else if !Broken(t') {
        BalancedTwice(t, s, n, t1, s1, t', s');
      }
    }
  }

  lemma BalancedTwice(t: Task, s: Run, n: Node, t1: Task, s1: Run, t2: Task, s2: Run)
    requires Balanced(t, s, n, t1, s1) && Balanced(t1, s1, n, t2, s2) && !Broken(t1) && !Broken(t2)
    ensures Made(s2) + Carried(t, n, s.runId) == Made(s) + Carried(t2, n, s.runId)
  {
    Chain(Made(s), Made(s1), Made(s2), Carried(t, n, s.runId), Carried(t1, n, s.runId), Carried(t2, n, s.runId));
  }

  lemma Chain(a: multiset<Entry>, b: multiset<Entry>, c: multiset<Entry>,
              x: multiset<Entry>, y: multiset<Entry>, z: multiset<Entry>)
    requires b + x == a + y && c + y == b + z
    ensures c + x == a + z
  {
    forall e ensures (c + x)[e] == (a + z)[e] {
      assert (b + x)[e] == (a + y)[e] && (c + y)[e] == (b + z)[e];
    }
  }

  lemma NothingYet(n: Node, runId: string)
    ensures Made(NewRun(runId)) == multiset{} && Carried(Root(n), n, runId) == multiset{}
  {
    assert |NewRun(runId).tools| == 0 && |NewRun(runId).activities| == 0;
  }

  /** The result of a completed run is a full account of it. Whatever the schedule, the limits and the answers, the
      calls recorded in the result tree, read by the shape of the graph, are exactly the tool calls and external
      activities the run scheduled: none is lost, none is invented, and each tool call carries the digest it was
      dispatched under. */
  lemma ResultAccountsForEveryCall(n: Node, runId: string, b: Limits, moves: seq<Move>, r: Value, s': Run)
    requires Execute(Root(n), NewRun(runId), b, moves) == Some((Done(r), s'))
    ensures Recorded(n, r) == Made(s')
  {
    ExecuteBalanced(Root(n), n, NewRun(runId), b, moves, Done(r), s');
    CarriedDone(Done(r), n, runId);
    NothingYet(n, runId);
    var s0 := NewRun(runId);
    assert Made(s') + Carried(Root(n), n, s0.runId) == Made(s0) + Carried(Done(r), n, s0.runId);
    assert Made(s') + multiset{} == Made(s') && multiset{} + Recorded(n, r) == Recorded(n, r);
  }
}
