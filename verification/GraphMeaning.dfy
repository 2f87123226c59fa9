/** What a graph computes, defined without a scheduler: children evaluated left to right, `gather` children from
    the same context. Results are taken up to idempotency keys. `Rest` extends the meaning to coroutines that are
    already under way. */
module GraphMeaning {
  import opened Json
  import opened GraphRun

  datatype ToolAnswer = ToolAnswer(deduplicated: bool, result: Value)

  /** Tools, policies and external activities as functions of what they are asked. */
  datatype World = World(
    tool: (string, Value) -> ToolAnswer,
    policy: (string, string) -> Value,
    activity: (string, string, Value) -> Value)

  type Context = map<string, Value>

  /** A result, and the context entries written on the way to it. */
  datatype Outcome = Outcome(result: Value, writes: Context)

  function Close(id: string, result: Value): Option<Outcome> {
    Some(Outcome(result, map[id := result]))
  }

  function Prepend(writes: Context, o: Option<Outcome>): Option<Outcome> {
    match o
    case None => None
    case Some(x) => Some(Outcome(x.result, writes + x.writes))
  }

  function ToolOutcome(w: World, n: Node, id: string): Option<Outcome>
    requires n.ToolCall?
  {
    var answer := w.tool(n.tool, n.args);
    Close(id, ToolResult(id, answer.deduplicated, BlankKey(), Erase(answer.result)))
  }

  function ActivityOutcome(w: World, n: Node, id: string, policyId: Value): Option<Outcome>
    requires n.Activity?
  {
    Close(id, ActivityResultOf(id, n.name, n.queue, policyId, Erase(w.activity(n.name, n.queue, n.args))))
  }

  /** The meaning of a node run under `id` from a context; None when the graph is invalid. */
  function Eval(w: World, n: Node, id: string, ctx: Context): Option<Outcome>
    decreases n, 1, 0
  {
    if id == "" then None
    else
      match n
      case ToolCall(_, _, _, _) => ToolOutcome(w, n, id)
      case Activity(_, name, queue, _, _) =>
        if name == "" || queue == "" then None else ActivityOutcome(w, n, id, Erase(w.policy(name, queue)))
      case Sequential(_, _) => SequenceFrom(w, n, id, [], ctx)
      case Parallel(_, _) => CloseGather(n, id, GatherFrom(w, n, 0, ctx))
      case FanIn(_, _) => CloseGather(n, id, GatherFrom(w, n, 0, ctx))
      case Conditional(_, cond, ifTrue, ifFalse) =>
        (match Takes(ctx, cond)
         case None => None
         case Some(taken) =>
           if taken then CloseBranch(id, true, Eval(w, ifTrue, ifTrue.id, ctx))
           else if ifFalse.Some? then CloseBranch(id, false, Eval(w, ifFalse.value, ifFalse.value.id, ctx))
           else Close(id, NoBranchResult(id)))
      case Loop(_, maxIterations, _, _) => if maxIterations < 1 then None else LoopFrom(w, n, id, [], ctx)
      case Subgraph(_, graph) => CloseSubgraph(id, Eval(w, graph, graph.id, ctx))
      case Unknown(_) => None
  }

  function CloseBranch(id: string, taken: bool, o: Option<Outcome>): Option<Outcome> {
    match o
    case None => None
    case Some(x) => Prepend(x.writes, Close(id, BranchResult(id, taken, x.result)))
  }

  function CloseSubgraph(id: string, o: Option<Outcome>): Option<Outcome> {
    match o
    case None => None
    case Some(x) => Prepend(x.writes, Close(id, SubgraphResult(id, x.result)))
  }

  /** A sequence whose first |done| children gave `done`. */
  function SequenceFrom(w: World, n: Node, id: string, done: seq<Value>, ctx: Context): Option<Outcome>
    requires n.Sequential?
    decreases n, 0, |n.children| - |done|
  {
    if |done| >= |n.children| then Close(id, SequenceResult(id, done))
    else
      match Eval(w, n.children[|done|], n.children[|done|].id, ctx)
      case None => None
      case Some(o) => Prepend(o.writes, SequenceFrom(w, n, id, done + [o.result], ctx + o.writes))
  }

  /** A loop whose first |done| iterations gave `done`, about to start another one. */
  function LoopFrom(w: World, n: Node, id: string, done: seq<Value>, ctx: Context): Option<Outcome>
    requires n.Loop? && |done| < n.maxIterations
    decreases n, 0, 2 * (n.maxIterations - |done|)
  {
    match Eval(w, n.body, IterationId(n.body.id, |done|), ctx)
    case None => None
    case Some(o) => Prepend(o.writes, AfterIteration(w, n, id, done + [o.result], ctx + o.writes))
  }

  function AfterIteration(w: World, n: Node, id: string, done: seq<Value>, ctx: Context): Option<Outcome>
    requires n.Loop? && done != []
    decreases n, 0, 2 * (n.maxIterations - |done|) + 1
  {
    match if n.stop.Some? then Matches(done[|done| - 1], n.stop.value) else Some(false)
    case None => None
    case Some(met) =>
      if met then Close(id, LoopResult(id, done, true))
      else if |done| < n.maxIterations then LoopFrom(w, n, id, done, ctx)
      else Close(id, LoopResult(id, done, false))
  }

  datatype Gathered = Gathered(results: seq<Value>, writes: Context)

  function Join(o: Option<Outcome>, rest: Option<Gathered>): Option<Gathered> {
    if o.None? || rest.None? then None
    else Some(Gathered([o.value.result] + rest.value.results, o.value.writes + rest.value.writes))
  }

  function CloseGather(n: Node, id: string, g: Option<Gathered>): Option<Outcome> {
    match g
    case None => None
    case Some(x) => Prepend(x.writes, Close(id, GatherResult(n, id, x.results)))
  }

  /** The gathered children from i on, each from the same context. */
  function GatherFrom(w: World, n: Node, i: nat, ctx: Context): Option<Gathered>
    requires n.Parallel? || n.FanIn?
    decreases n, 0, |n.children| - i
  {
    if i >= |n.children| then Some(Gathered([], map[]))
    else Join(Eval(w, n.children[i], n.children[i].id, ctx), GatherFrom(w, n, i + 1, ctx))
  }

  // ----- coroutines under way

  /** t is a coroutine of node n run under id. */
  predicate Belongs(t: Task, n: Node, id: string)
    decreases t
  {
    match t
    case Start(m, i, _) => m == n && i == id
    case Gated(m, i, _) => m == n && i == id && id != ""
    case ToolApproval(m, i) => m == n && i == id && n.ToolCall?
    case ToolRunning(m, i, _) => m == n && i == id && n.ToolCall?
    case PolicyCheck(m, i) => m == n && i == id && n.Activity?
    case ActivityApproval(m, i, _) => m == n && i == id && n.Activity?
    case ActivityRunning(m, i, _) => m == n && i == id && n.Activity?
    case InSequence(m, i, _, done, cur) =>
      m == n && i == id && n.Sequential? && |done| < |n.children|
      && Belongs(cur, n.children[|done|], n.children[|done|].id)
    case InParallel(m, i, _, kids) =>
      m == n && i == id && (n.Parallel? || n.FanIn?) && |kids| == |n.children|
      && forall k | 0 <= k < |kids| :: Belongs(kids[k], n.children[k], n.children[k].id)
    case InBranch(m, i, taken, cur) =>
      m == n && i == id && n.Conditional?
      && (if taken then Belongs(cur, n.ifTrue, n.ifTrue.id)
          else n.ifFalse.Some? && Belongs(cur, n.ifFalse.value, n.ifFalse.value.id))
    case InLoop(m, i, _, done, cur) =>
      m == n && i == id && n.Loop? && |done| < n.maxIterations
      && Belongs(cur, n.body, IterationId(n.body.id, |done|))
    case InSubgraph(m, i, cur) => m == n && i == id && n.Subgraph? && Belongs(cur, n.graph, n.graph.id)
    case Done(_) => true
    case Raised(_) => true
  }

  /** What the coroutine still computes and writes if it now runs alone from ctx. */
  function Rest(w: World, t: Task, n: Node, id: string, ctx: Context): Option<Outcome>
    requires Belongs(t, n, id)
    decreases t, 1, 0
  {
    match t
    case Start(_, _, _) => Eval(w, n, id, ctx)
    case Gated(_, _, _) => Eval(w, n, id, ctx)
    case ToolApproval(_, _) => ToolOutcome(w, n, id)
    case ToolRunning(_, _, _) => ToolOutcome(w, n, id)
    case PolicyCheck(_, _) => ActivityOutcome(w, n, id, Erase(w.policy(n.name, n.queue)))
    case ActivityApproval(_, _, policyId) => ActivityOutcome(w, n, id, Erase(policyId))
    case ActivityRunning(_, _, policyId) => ActivityOutcome(w, n, id, Erase(policyId))
    case InSequence(_, _, _, done, cur) =>
      (match Rest(w, cur, n.children[|done|], n.children[|done|].id, ctx)
       case None => None
       case Some(o) =>
         Prepend(o.writes, SequenceFrom(w, n, id, EraseAll(done) + [o.result], ctx + o.writes)))
    case InParallel(_, _, _, _) => CloseGather(n, id, RestFrom(w, t, n, id, 0, ctx))
    case InBranch(_, _, taken, cur) =>
      var branch := if taken then n.ifTrue else n.ifFalse.value;
      CloseBranch(id, taken, Rest(w, cur, branch, branch.id, ctx))
    case InLoop(_, _, _, done, cur) =>
      (match Rest(w, cur, n.body, IterationId(n.body.id, |done|), ctx)
       case None => None
       case Some(o) =>
         Prepend(o.writes, AfterIteration(w, n, id, EraseAll(done) + [o.result], ctx + o.writes)))
    case InSubgraph(_, _, cur) => CloseSubgraph(id, Rest(w, cur, n.graph, n.graph.id, ctx))
    case Done(result) => Some(Outcome(Erase(result), map[]))
    case Raised(_) => None
  }

  function RestFrom(w: World, t: Task, n: Node, id: string, i: nat, ctx: Context): Option<Gathered>
    requires t.InParallel? && Belongs(t, n, id)
    decreases t, 0, |t.kids| - i
  {
    if i >= |t.kids| then Some(Gathered([], map[]))
    else Join(Rest(w, t.kids[i], n.children[i], n.children[i].id, ctx), RestFrom(w, t, n, id, i + 1, ctx))
  }

  // ----- what a node reads and writes

  function Reads(n: Node): set<string> {
    match n
    case Sequential(_, children) => set i, x | 0 <= i < |children| && x in Reads(children[i]) :: x
    case Parallel(_, children) => set i, x | 0 <= i < |children| && x in Reads(children[i]) :: x
    case FanIn(_, children) => set i, x | 0 <= i < |children| && x in Reads(children[i]) :: x
    case Conditional(_, cond, ifTrue, ifFalse) =>
      {cond.nodeRef} + Reads(ifTrue) + (if ifFalse.Some? then Reads(ifFalse.value) else {})
    case Loop(_, _, _, body) => Reads(body)
    case Subgraph(_, graph) => Reads(graph)
    case _ => {}
  }

  /** The ids a node's descendants can write. */
  function Inner(n: Node): set<string> {
    match n
    case Sequential(_, children) => set i, x | 0 <= i < |children| && x in Inner(children[i]) + {children[i].id} :: x
    case Parallel(_, children) => set i, x | 0 <= i < |children| && x in Inner(children[i]) + {children[i].id} :: x
    case FanIn(_, children) => set i, x | 0 <= i < |children| && x in Inner(children[i]) + {children[i].id} :: x
    case Conditional(_, _, ifTrue, ifFalse) =>
      Inner(ifTrue) + {ifTrue.id} + (if ifFalse.Some? then Inner(ifFalse.value) + {ifFalse.value.id} else {})
    case Loop(_, maxIterations, _, body) => Inner(body) + (set i | 0 <= i < maxIterations :: IterationId(body.id, i))
    case Subgraph(_, graph) => Inner(graph) + {graph.id}
    case _ => {}
  }

  function Writes(n: Node, id: string): set<string> {
    Inner(n) + {id}
  }

  /** No child of a `gather` writes what a sibling reads or writes. Distinct node ids, and no conditional that
      refers into a sibling, give this. */
  predicate Independent(n: Node) {
    match n
    case Sequential(_, children) => forall i | 0 <= i < |children| :: Independent(children[i])
    case Parallel(_, children) => (forall i | 0 <= i < |children| :: Independent(children[i])) && Apart(children)
    case FanIn(_, children) => (forall i | 0 <= i < |children| :: Independent(children[i])) && Apart(children)
    case Conditional(_, _, ifTrue, ifFalse) =>
      Independent(ifTrue) && (ifFalse.Some? ==> Independent(ifFalse.value))
    case Loop(_, _, _, body) => Independent(body)
    case Subgraph(_, graph) => Independent(graph)
    case _ => true
  }

  predicate Apart(children: seq<Node>) {
    forall i, j | 0 <= i < |children| && 0 <= j < |children| && i != j ::
      Writes(children[i], children[i].id) !! Writes(children[j], children[j].id) + Reads(children[j])
  }

  /** Every literal a condition compares with is free of the run's own digests. */
  predicate Plain(n: Node) {
    match n
    case Sequential(_, children) => forall i | 0 <= i < |children| :: Plain(children[i])
    case Parallel(_, children) => forall i | 0 <= i < |children| :: Plain(children[i])
    case FanIn(_, children) => forall i | 0 <= i < |children| :: Plain(children[i])
    case Conditional(_, cond, ifTrue, ifFalse) =>
      KeylessLiteral(cond) && Plain(ifTrue) && (ifFalse.Some? ==> Plain(ifFalse.value))
    case Loop(_, _, stop, body) => (stop.Some? ==> KeylessLiteral(stop.value)) && Plain(body)
    case Subgraph(_, graph) => Plain(graph)
    case _ => true
  }

  // ----- the meaning depends on what is read, and writes what it says

  predicate Agree(names: set<string>, c1: Context, c2: Context) {
    forall x | x in names :: (x in c1 <==> x in c2) && (x in c1 ==> c1[x] == c2[x])
  }

  predicate WritesWithin(o: Option<Outcome>, names: set<string>) {
    o.Some? ==> o.value.writes.Keys <= names
  }

  lemma {:induction false} EvalFrame(w: World, n: Node, id: string, c1: Context, c2: Context)
    requires Agree(Reads(n), c1, c2)
    ensures Eval(w, n, id, c1) == Eval(w, n, id, c2)
    decreases n, 1, 0
  {
    match n
    case Sequential(_, _) => SequenceFrame(w, n, id, [], c1, c2);
    case Parallel(_, _) => GatherFrame(w, n, 0, c1, c2);
    case FanIn(_, _) => GatherFrame(w, n, 0, c1, c2);
    case Conditional(_, cond, ifTrue, ifFalse) =>
      assert cond.nodeRef in Reads(n);
      EvalFrame(w, ifTrue, ifTrue.id, c1, c2);
      if ifFalse.Some? { EvalFrame(w, ifFalse.value, ifFalse.value.id, c1, c2); }
    case Loop(_, maxIterations, _, _) => if maxIterations >= 1 { LoopFrame(w, n, id, [], c1, c2); }
    case Subgraph(_, graph) => EvalFrame(w, graph, graph.id, c1, c2);
    case _ =>
  }

  lemma {:induction false} SequenceFrame(w: World, n: Node, id: string, done: seq<Value>, c1: Context, c2: Context)
    requires n.Sequential? && Agree(Reads(n), c1, c2)
    ensures SequenceFrom(w, n, id, done, c1) == SequenceFrom(w, n, id, done, c2)
    decreases n, 0, |n.children| - |done|
  {
    if |done| < |n.children| {
      var child := n.children[|done|];
      assert Reads(child) <= Reads(n);
      EvalFrame(w, child, child.id, c1, c2);
      var o := Eval(w, child, child.id, c1);
      if o.Some? {
        SequenceFrame(w, n, id, done + [o.value.result], c1 + o.value.writes, c2 + o.value.writes);
      }
    }
  }

  lemma {:induction false} LoopFrame(w: World, n: Node, id: string, done: seq<Value>, c1: Context, c2: Context)
    requires n.Loop? && |done| < n.maxIterations && Agree(Reads(n), c1, c2)
    ensures LoopFrom(w, n, id, done, c1) == LoopFrom(w, n, id, done, c2)
    decreases n, 0, 2 * (n.maxIterations - |done|)
  {
    var bodyId := IterationId(n.body.id, |done|);
    EvalFrame(w, n.body, bodyId, c1, c2);
    var o := Eval(w, n.body, bodyId, c1);
    if o.Some? {
      AfterIterationFrame(w, n, id, done + [o.value.result], c1 + o.value.writes, c2 + o.value.writes);
    }
  }

  lemma {:induction false} AfterIterationFrame(w: World, n: Node, id: string, done: seq<Value>, c1: Context, c2: Context)
    requires n.Loop? && done != [] && Agree(Reads(n), c1, c2)
    ensures AfterIteration(w, n, id, done, c1) == AfterIteration(w, n, id, done, c2)
    decreases n, 0, 2 * (n.maxIterations - |done|) + 1
  {
    if |done| < n.maxIterations { LoopFrame(w, n, id, done, c1, c2); }
  }

  lemma {:induction false} GatherFrame(w: World, n: Node, i: nat, c1: Context, c2: Context)
    requires (n.Parallel? || n.FanIn?) && Agree(Reads(n), c1, c2)
    ensures GatherFrom(w, n, i, c1) == GatherFrom(w, n, i, c2)
    decreases n, 0, |n.children| - i
  {
    if i < |n.children| {
      assert Reads(n.children[i]) <= Reads(n);
      EvalFrame(w, n.children[i], n.children[i].id, c1, c2);
      GatherFrame(w, n, i + 1, c1, c2);
    }
  }

  lemma {:induction false} EvalWrites(w: World, n: Node, id: string, ctx: Context)
    ensures WritesWithin(Eval(w, n, id, ctx), Writes(n, id))
    decreases n, 1, 0
  {
    match n
    case Sequential(_, _) => SequenceWrites(w, n, id, [], ctx);
    case Parallel(_, _) => GatherWrites(w, n, 0, ctx);
    case FanIn(_, _) => GatherWrites(w, n, 0, ctx);
    case Conditional(_, _, ifTrue, ifFalse) =>
      EvalWrites(w, ifTrue, ifTrue.id, ctx);
      if ifFalse.Some? { EvalWrites(w, ifFalse.value, ifFalse.value.id, ctx); }
    case Loop(_, maxIterations, _, _) => if maxIterations >= 1 { LoopWrites(w, n, id, [], ctx); }
    case Subgraph(_, graph) => EvalWrites(w, graph, graph.id, ctx);
    case _ =>
  }

  lemma {:induction false} SequenceWrites(w: World, n: Node, id: string, done: seq<Value>, ctx: Context)
    requires n.Sequential?
    ensures WritesWithin(SequenceFrom(w, n, id, done, ctx), Writes(n, id))
    decreases n, 0, |n.children| - |done|
  {
    if |done| < |n.children| {
      var child := n.children[|done|];
      assert Inner(child) + {child.id} <= Inner(n);
      EvalWrites(w, child, child.id, ctx);
      var o := Eval(w, child, child.id, ctx);
      if o.Some? {
        SequenceWrites(w, n, id, done + [o.value.result], ctx + o.value.writes);
      }
    }
  }

  lemma {:induction false} LoopWrites(w: World, n: Node, id: string, done: seq<Value>, ctx: Context)
    requires n.Loop? && |done| < n.maxIterations
    ensures WritesWithin(LoopFrom(w, n, id, done, ctx), Writes(n, id))
    decreases n, 0, 2 * (n.maxIterations - |done|)
  {
    var bodyId := IterationId(n.body.id, |done|);
    assert bodyId in Inner(n);
    EvalWrites(w, n.body, bodyId, ctx);
    var o := Eval(w, n.body, bodyId, ctx);
    if o.Some? {
      AfterIterationWrites(w, n, id, done + [o.value.result], ctx + o.value.writes);
    }
  }

  lemma {:induction false} AfterIterationWrites(w: World, n: Node, id: string, done: seq<Value>, ctx: Context)
    requires n.Loop? && done != []
    ensures WritesWithin(AfterIteration(w, n, id, done, ctx), Writes(n, id))
    decreases n, 0, 2 * (n.maxIterations - |done|) + 1
  {
    if |done| < n.maxIterations { LoopWrites(w, n, id, done, ctx); }
  }

  lemma {:induction false} GatherWrites(w: World, n: Node, i: nat, ctx: Context)
    requires n.Parallel? || n.FanIn?
    ensures GatherFrom(w, n, i, ctx).Some? ==> GatherFrom(w, n, i, ctx).value.writes.Keys <= Inner(n)
    decreases n, 0, |n.children| - i
  {
    if i < |n.children| {
      assert Inner(n.children[i]) + {n.children[i].id} <= Inner(n);
      EvalWrites(w, n.children[i], n.children[i].id, ctx);
      GatherWrites(w, n, i + 1, ctx);
    }
  }
}
