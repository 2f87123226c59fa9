/** Every interleaving computes the graph's meaning: a step of any coroutine changes the context by what it
    writes, and leaves the meaning of what remains as it was. */
module GraphConfluence {
  import opened Json
  import opened GraphRun
  import opened GraphMeaning

  // ----- frames for coroutines under way

  lemma {:induction false} RestFrame(w: World, t: Task, n: Node, id: string, c1: Context, c2: Context)
    requires Belongs(t, n, id) && Agree(Reads(n), c1, c2)
    ensures Rest(w, t, n, id, c1) == Rest(w, t, n, id, c2)
    decreases t, 1, 0
  {
    match t
    case Start(_, _, _) => EvalFrame(w, n, id, c1, c2);
    case Gated(_, _, _) => EvalFrame(w, n, id, c1, c2);
    case InSequence(_, _, _, done, cur) =>
      var child := n.children[|done|];
      assert Reads(child) <= Reads(n);
      RestFrame(w, cur, child, child.id, c1, c2);
      var o := Rest(w, cur, child, child.id, c1);
      if o.Some? {
        SequenceFrame(w, n, id, EraseAll(done) + [o.value.result], c1 + o.value.writes, c2 + o.value.writes);
      }
    case InParallel(_, _, _, _) => RestFromFrame(w, t, n, id, 0, c1, c2);
    case InBranch(_, _, taken, cur) =>
      var branch := if taken then n.ifTrue else n.ifFalse.value;
      RestFrame(w, cur, branch, branch.id, c1, c2);
    case InLoop(_, _, _, done, cur) =>
      RestFrame(w, cur, n.body, IterationId(n.body.id, |done|), c1, c2);
      var o := Rest(w, cur, n.body, IterationId(n.body.id, |done|), c1);
      if o.Some? {
        AfterIterationFrame(w, n, id, EraseAll(done) + [o.value.result], c1 + o.value.writes, c2 + o.value.writes);
      }
    case InSubgraph(_, _, cur) => RestFrame(w, cur, n.graph, n.graph.id, c1, c2);
    case _ =>
  }

  lemma {:induction false} RestFromFrame(w: World, t: Task, n: Node, id: string, i: nat, c1: Context, c2: Context)
    requires t.InParallel? && Belongs(t, n, id) && Agree(Reads(n), c1, c2)
    ensures RestFrom(w, t, n, id, i, c1) == RestFrom(w, t, n, id, i, c2)
    decreases t, 0, |t.kids| - i
  {
    if i < |t.kids| {
      assert Reads(n.children[i]) <= Reads(n);
      RestFrame(w, t.kids[i], n.children[i], n.children[i].id, c1, c2);
      RestFromFrame(w, t, n, id, i + 1, c1, c2);
    }
  }

  lemma {:induction false} RestWrites(w: World, t: Task, n: Node, id: string, ctx: Context)
    requires Belongs(t, n, id)
    ensures WritesWithin(Rest(w, t, n, id, ctx), Writes(n, id))
    decreases t, 1, 0
  {
    match t
    case Start(_, _, _) => EvalWrites(w, n, id, ctx);
    case Gated(_, _, _) => EvalWrites(w, n, id, ctx);
    case InSequence(_, _, _, done, cur) =>
      var child := n.children[|done|];
      assert Inner(child) + {child.id} <= Inner(n);
      RestWrites(w, cur, child, child.id, ctx);
      var o := Rest(w, cur, child, child.id, ctx);
      if o.Some? {
        SequenceWrites(w, n, id, EraseAll(done) + [o.value.result], ctx + o.value.writes);
      }
    case InParallel(_, _, _, _) => RestFromWrites(w, t, n, id, 0, ctx);
    case InBranch(_, _, taken, cur) =>
      var branch := if taken then n.ifTrue else n.ifFalse.value;
      RestWrites(w, cur, branch, branch.id, ctx);
    case InLoop(_, _, _, done, cur) =>
      var bodyId := IterationId(n.body.id, |done|);
      assert bodyId in Inner(n);
      RestWrites(w, cur, n.body, bodyId, ctx);
      var o := Rest(w, cur, n.body, bodyId, ctx);
      if o.Some? {
        AfterIterationWrites(w, n, id, EraseAll(done) + [o.value.result], ctx + o.value.writes);
      }
    case InSubgraph(_, _, cur) => RestWrites(w, cur, n.graph, n.graph.id, ctx);
    case _ =>
  }

  lemma {:induction false} RestFromWrites(w: World, t: Task, n: Node, id: string, i: nat, ctx: Context)
    requires t.InParallel? && Belongs(t, n, id)
    ensures RestFrom(w, t, n, id, i, ctx).Some? ==> RestFrom(w, t, n, id, i, ctx).value.writes.Keys <= Inner(n)
    decreases t, 0, |t.kids| - i
  {
    if i < |t.kids| {
      assert Inner(n.children[i]) + {n.children[i].id} <= Inner(n);
      RestWrites(w, t.kids[i], n.children[i], n.children[i].id, ctx);
      RestFromWrites(w, t, n, id, i + 1, ctx);
    }
  }

  // ----- results without their keys

  lemma EraseField(m: map<string, Value>, k: string, v: Value)
    ensures EraseMap(m[k := v]) == EraseMap(m)[k := Erase(v)]
  {
  }

  lemma EraseTwo(k1: string, v1: Value, k2: string, v2: Value)
    ensures EraseMap(map[k1 := v1, k2 := v2]) == map[k1 := Erase(v1), k2 := Erase(v2)]
  {
    var none: map<string, Value> := map[];
    assert EraseMap(none) == none;
    EraseField(none, k1, v1);
    EraseField(none[k1 := v1], k2, v2);
  }

  lemma EraseThree(k1: string, v1: Value, k2: string, v2: Value, k3: string, v3: Value)
    ensures EraseMap(map[k1 := v1, k2 := v2, k3 := v3]) == map[k1 := Erase(v1), k2 := Erase(v2), k3 := Erase(v3)]
  {
    EraseTwo(k1, v1, k2, v2);
    EraseField(map[k1 := v1, k2 := v2], k3, v3);
  }

  lemma EraseFour(k1: string, v1: Value, k2: string, v2: Value, k3: string, v3: Value, k4: string, v4: Value)
    ensures EraseMap(map[k1 := v1, k2 := v2, k3 := v3, k4 := v4])
            == map[k1 := Erase(v1), k2 := Erase(v2), k3 := Erase(v3), k4 := Erase(v4)]
  {
    EraseThree(k1, v1, k2, v2, k3, v3);
    EraseField(map[k1 := v1, k2 := v2, k3 := v3], k4, v4);
  }

  lemma EraseToolResult(id: string, d: bool, key: Value, r: Value)
    requires key.Key?
    ensures Erase(ToolResult(id, d, key, r)) == ToolResult(id, d, BlankKey(), Erase(r))
  {
    EraseFour("node_id", Str(id), "kind", Str("tool_call"), "deduplicated", Bool(d), "idempotency_key", key);
    EraseField(map["node_id" := Str(id), "kind" := Str("tool_call"), "deduplicated" := Bool(d), "idempotency_key" := key],
               "result", r);
    EraseContainers([], ToolResult(id, d, key, r).fields);
  }

  lemma EraseActivityResult(id: string, name: string, queue: string, policyId: Value, r: Value)
    ensures Erase(ActivityResultOf(id, name, queue, policyId, r))
            == ActivityResultOf(id, name, queue, Erase(policyId), Erase(r))
  {
    var four := map["node_id" := Str(id), "kind" := Str("activity"), "activity_name" := Str(name),
                    "task_queue" := Str(queue)];
    EraseFour("node_id", Str(id), "kind", Str("activity"), "activity_name", Str(name), "task_queue", Str(queue));
    EraseField(four, "policy_id", policyId);
    EraseField(four["policy_id" := policyId], "result", r);
    EraseContainers([], ActivityResultOf(id, name, queue, policyId, r).fields);
  }

  lemma EraseBranchResult(id: string, taken: bool, r: Value)
    ensures Erase(BranchResult(id, taken, r)) == BranchResult(id, taken, Erase(r))
  {
    EraseFour("node_id", Str(id), "kind", Str("conditional"),
              "taken", Str(if taken then "if_true" else "if_false"), "branch", r);
    EraseContainers([], BranchResult(id, taken, r).fields);
  }

  lemma EraseNoBranchResult(id: string)
    ensures Erase(NoBranchResult(id)) == NoBranchResult(id)
  {
    EraseFour("node_id", Str(id), "kind", Str("conditional"), "taken", Str("none"), "branch", Null);
    EraseContainers([], NoBranchResult(id).fields);
  }

  lemma EraseSubgraphResult(id: string, r: Value)
    ensures Erase(SubgraphResult(id, r)) == SubgraphResult(id, Erase(r))
  {
    EraseThree("node_id", Str(id), "kind", Str("subgraph"), "graph_result", r);
    EraseContainers([], SubgraphResult(id, r).fields);
  }

  lemma EraseSequenceResult(id: string, rs: seq<Value>)
    ensures Erase(SequenceResult(id, rs)) == SequenceResult(id, EraseAll(rs))
  {
    EraseThree("node_id", Str(id), "kind", Str("sequential"), "children", Arr(rs));
    EraseContainers(rs, SequenceResult(id, rs).fields);
  }

  lemma EraseLoopResult(id: string, rs: seq<Value>, met: bool)
    ensures Erase(LoopResult(id, rs, met)) == LoopResult(id, EraseAll(rs), met)
  {
    EraseFour("node_id", Str(id), "kind", Str("loop"), "iterations", Arr(rs),
              "stopped_reason", Str(if met then "condition_met" else "max_iterations"));
    EraseContainers(rs, LoopResult(id, rs, met).fields);
  }

  lemma EraseGatherResult(n: Node, id: string, rs: seq<Value>)
    ensures Erase(GatherResult(n, id, rs)) == GatherResult(n, id, EraseAll(rs))
  {
    if n.FanIn? {
      EraseMerged(rs);
      EraseFour("node_id", Str(id), "kind", Str("fan_in"), "merged", Arr(MergedResults(rs)), "children", Arr(rs));
      EraseContainers(rs, FanInResult(id, rs).fields);
    } else {
      EraseThree("node_id", Str(id), "kind", Str("parallel"), "children", Arr(rs));
      EraseContainers(rs, ParallelResult(id, rs).fields);
    }
  }

  lemma EraseMerged(rs: seq<Value>)
    ensures Erase(Arr(MergedResults(rs))) == Arr(MergedResults(EraseAll(rs)))
  {
    EraseContainers(MergedResults(rs), map[]);
    assert EraseAll(MergedResults(rs)) == MergedResults(EraseAll(rs));
  }

  lemma EraseUpdates(ctx: Context, u: Context)
    ensures EraseMap(ctx + u) == EraseMap(ctx) + EraseMap(u)
    ensures EraseMap(u).Keys == u.Keys
  {
  }

  lemma EraseAppend(rs: seq<Value>, r: Value)
    ensures EraseAll(rs + [r]) == EraseAll(rs) + [Erase(r)]
  {
  }

  /** A conditional cannot see keys. */
  lemma TakesErased(ctx: Context, c: Condition)
    requires KeylessLiteral(c)
    ensures Takes(EraseMap(ctx), c) == Takes(ctx, c)
  {
    if c.nodeRef in ctx { MatchesErased(ctx[c.nodeRef], c); }
  }

  // ----- one step

  predicate NoLimits(b: Limits) {
    b == Limits(None, None, None, None, true)
  }

  /** No limit can trip and nothing the run waits for fails. */
  predicate Calm(b: Limits, ev: Event) {
    NoLimits(b) && !ev.reply.Fails?
  }

  /** Answers come from the world. */
  predicate Honest(w: World, t: Task, path: seq<nat>, reply: Reply)
    decreases t
  {
    match t
    case ToolRunning(n, _, _) =>
      reply.ToolOutput? && n.ToolCall? ==> w.tool(n.tool, n.args) == ToolAnswer(reply.deduplicated, reply.result)
    case PolicyCheck(n, _) => reply.PolicyAllows? && n.Activity? ==> w.policy(n.name, n.queue) == reply.policyId
    case ActivityRunning(n, _, _) =>
      reply.ActivityResult? && n.Activity? ==> w.activity(n.name, n.queue, n.args) == reply.result
    case InSequence(_, _, _, _, cur) => Honest(w, cur, path, reply)
    case InParallel(_, _, _, kids) =>
      path != [] && path[0] < |kids| ==> Honest(w, kids[path[0]], path[1..], reply)
    case InBranch(_, _, _, cur) => Honest(w, cur, path, reply)
    case InLoop(_, _, _, _, cur) => Honest(w, cur, path, reply)
    case InSubgraph(_, _, cur) => Honest(w, cur, path, reply)
    case _ => true
  }

  /** t became t' while the context went from c to c + u: together, u and the rest of t' are the rest of t. */
  ghost predicate Keeps(w: World, t: Task, t': Task, n: Node, id: string, c: Context, u: Context, calm: bool) {
    && Belongs(t, n, id) && Belongs(t', n, id)
    && u.Keys <= Writes(n, id)
    && Continues(Rest(w, t, n, id, EraseMap(c)), EraseMap(u), Rest(w, t', n, id, EraseMap(c + u)), calm)
  }

  ghost predicate Continues(before: Option<Outcome>, written: Context, after: Option<Outcome>, calm: bool) {
    calm || after.Some? ==> before == Prepend(written, after)
  }

  lemma PrependNothing(o: Option<Outcome>)
    ensures Prepend(map[], o) == o
  {
    if o.Some? { assert map[] + o.value.writes == o.value.writes; }
  }

  lemma PrependTwice(u: Context, v: Context, o: Option<Outcome>)
    ensures Prepend(u, Prepend(v, o)) == Prepend(u + v, o)
  {
    if o.Some? { assert u + (v + o.value.writes) == (u + v) + o.value.writes; }
  }

  lemma NothingWritten(c: Context)
    ensures c + map[] == c && EraseMap(map[]) == map[]
  {
  }

  /** A coroutine that ends with result r. */
  lemma Finished(w: World, t: Task, n: Node, id: string, c: Context, r: Value, calm: bool)
    requires Belongs(t, n, id)
    requires Rest(w, t, n, id, EraseMap(c)) == Close(id, Erase(r))
    ensures Keeps(w, t, Done(r), n, id, c, map[id := r], calm)
    ensures c[id := r] == c + map[id := r]
  {
    EndContinues(Rest(w, t, n, id, EraseMap(c)), id, r, Rest(w, Done(r), n, id, EraseMap(c + map[id := r])), calm) by {
      RestDone(w, n, id, r, EraseMap(c + map[id := r]));
    }
    OwnIdWritten(n, id);
    SingleUpdate(c, id, r);
  }

  lemma EndContinues(before: Option<Outcome>, id: string, r: Value, after: Option<Outcome>, calm: bool)
    requires before == Close(id, Erase(r)) && after == Some(Outcome(Erase(r), map[]))
    ensures Continues(before, EraseMap(map[id := r]), after, calm)
  {
    EraseSingle(id, r);
    PrependDone(id, Erase(r));
  }

  lemma SingleUpdate(c: Context, id: string, r: Value)
    ensures c[id := r] == c + map[id := r] && map[id := r].Keys == {id}
  {
  }

  lemma OwnIdWritten(n: Node, id: string)
    ensures {id} <= Writes(n, id)
  {
  }

  lemma RestDone(w: World, n: Node, id: string, r: Value, ctx: Context)
    ensures Rest(w, Done(r), n, id, ctx) == Some(Outcome(Erase(r), map[]))
  {
  }

  lemma PrependDone(id: string, r: Value)
    ensures Prepend(map[id := r], Some(Outcome(r, map[]))) == Close(id, r)
  {
    assert map[id := r] + map[] == map[id := r];
  }

  lemma EraseSingle(id: string, r: Value)
    ensures EraseMap(map[id := r]) == map[id := Erase(r)]
  {
    var none: map<string, Value> := map[];
    assert EraseMap(none) == none;
    EraseField(none, id, r);
  }

  /** A coroutine that goes on without writing. */
  lemma GoesOn(w: World, t: Task, t': Task, n: Node, id: string, c: Context, calm: bool)
    requires Belongs(t, n, id) && Belongs(t', n, id)
    requires calm || Rest(w, t', n, id, EraseMap(c)).Some? ==>
               Rest(w, t, n, id, EraseMap(c)) == Rest(w, t', n, id, EraseMap(c))
    ensures Keeps(w, t, t', n, id, c, map[], calm) && c == c + map[]
  {
    NothingWritten(c);
    PrependNothing(Rest(w, t', n, id, EraseMap(c)));
  }

  lemma {:induction false} GatherStarts(w: World, t: Task, n: Node, id: string, i: nat, ctx: Context)
    requires t.InParallel? && Belongs(t, n, id) && t.kids == StartAll(n.children, t.depth)
    ensures RestFrom(w, t, n, id, i, ctx) == GatherFrom(w, n, i, ctx)
    decreases |t.kids| - i
  {
    if i < |t.kids| {
      GatherStarts(w, t, n, id, i + 1, ctx);
      assert t.kids[i] == Start(n.children[i], n.children[i].id, t.depth);
    }
  }

  /** A node past its entry checks. */
  lemma DispatchMeaning(w: World, t: Task, n: Node, id: string, depth: nat, s: Run, b: Limits, t': Task, s': Run)
    returns (u: Context)
    requires (t == Start(n, id, depth) || t == Gated(n, id, depth)) && id != ""
    requires Plain(n) && (t', s') == Dispatch(n, id, depth, s, b)
    ensures s'.context == s.context + u && Keeps(w, t, t', n, id, s.context, u, NoLimits(b))
  {
    var c := s.context;
    u := map[];
    if n.ToolCall? || n.Activity? {
      LeafMeaning(w, t, n, id, depth, s, b, t', s');
    } else if n.Conditional? {
      u := ConditionalMeaning(w, t, n, id, depth, s, b, t', s');
    } else if n.Sequential? {
      u := SequenceMeaning(w, t, n, id, depth, s, b, t', s');
    } else if n.Loop? {
      EraseNone();
      if t'.InLoop? { LoopStarts(w, t', n, id, EraseMap(c)); }
      GoesOn(w, t, t', n, id, c, NoLimits(b));
    } else if n.Parallel? || n.FanIn? {
      GatherStarts(w, t', n, id, 0, EraseMap(c));
      GoesOn(w, t, t', n, id, c, NoLimits(b));
    } else {
      GoesOn(w, t, t', n, id, c, NoLimits(b));
    }
  }

  lemma EraseNone()
    ensures EraseAll([]) == []
  {
  }

  lemma SequenceStarts(w: World, t: Task, n: Node, id: string, ctx: Context)
    requires t.InSequence? && Belongs(t, n, id) && t.cur.Start?
    ensures Rest(w, t, n, id, ctx) == SequenceFrom(w, n, id, EraseAll(t.done), ctx)
  {
    var child := n.children[|t.done|];
    assert Rest(w, t.cur, child, child.id, ctx) == Eval(w, child, child.id, ctx);
    assert |EraseAll(t.done)| == |t.done|;
  }

  lemma LoopStarts(w: World, t: Task, n: Node, id: string, ctx: Context)
    requires t.InLoop? && Belongs(t, n, id) && t.cur.Start?
    ensures Rest(w, t, n, id, ctx) == LoopFrom(w, n, id, EraseAll(t.done), ctx)
  {
    var bodyId := IterationId(n.body.id, |t.done|);
    assert Rest(w, t.cur, n.body, bodyId, ctx) == Eval(w, n.body, bodyId, ctx);
    assert |EraseAll(t.done)| == |t.done|;
  }

  lemma SequenceMeaning(w: World, t: Task, n: Node, id: string, depth: nat, s: Run, b: Limits, t': Task, s': Run)
    returns (u: Context)
    requires (t == Start(n, id, depth) || t == Gated(n, id, depth)) && id != ""
    requires n.Sequential? && (t', s') == Dispatch(n, id, depth, s, b)
    ensures s'.context == s.context + u && Keeps(w, t, t', n, id, s.context, u, NoLimits(b))
  {
    EraseNone();
    if n.children == [] {
      u := map[id := SequenceResult(id, [])];
      EraseSequenceResult(id, []);
      assert SequenceFrom(w, n, id, [], EraseMap(s.context)) == Close(id, SequenceResult(id, []));
      Finished(w, t, n, id, s.context, SequenceResult(id, []), NoLimits(b));
    } else {
      u := map[];
      SequenceStarts(w, t', n, id, EraseMap(s.context));
      GoesOn(w, t, t', n, id, s.context, NoLimits(b));
    }
  }

  lemma LeafMeaning(w: World, t: Task, n: Node, id: string, depth: nat, s: Run, b: Limits, t': Task, s': Run)
    requires (t == Start(n, id, depth) || t == Gated(n, id, depth)) && id != ""
    requires (n.ToolCall? || n.Activity?) && (t', s') == Dispatch(n, id, depth, s, b)
    ensures s'.context == s.context + map[] && Keeps(w, t, t', n, id, s.context, map[], NoLimits(b))
  {
    GoesOn(w, t, t', n, id, s.context, NoLimits(b));
  }

  lemma ConditionalMeaning(w: World, t: Task, n: Node, id: string, depth: nat, s: Run, b: Limits, t': Task, s': Run)
    returns (u: Context)
    requires (t == Start(n, id, depth) || t == Gated(n, id, depth)) && id != ""
    requires n.Conditional? && Plain(n) && (t', s') == Dispatch(n, id, depth, s, b)
    ensures s'.context == s.context + u && Keeps(w, t, t', n, id, s.context, u, NoLimits(b))
  {
    TakesErased(s.context, n.cond);
    if t'.Done? {
      u := map[id := NoBranchResult(id)];
      EraseNoBranchResult(id);
      Finished(w, t, n, id, s.context, NoBranchResult(id), NoLimits(b));
    } else {
      u := map[];
      GoesOn(w, t, t', n, id, s.context, NoLimits(b));
    }
  }

  lemma BeginMeaning(w: World, n: Node, id: string, depth: nat, s: Run, b: Limits, ev: Event, t': Task, s': Run)
    returns (u: Context)
    requires Plain(n) && (t', s') == Begin(n, id, depth, s, b, ev)
    ensures s'.context == s.context + u && Keeps(w, Start(n, id, depth), t', n, id, s.context, u, NoLimits(b))
  {
    var t := Start(n, id, depth);
    var s1 := s.(depth := if depth > s.depth then depth else s.depth, depths := s.depths + [depth]);
    var s2 := s1.(starts := s1.starts + [ev.now]);
    if id == "" || (b.maxDepth.Some? && depth > b.maxDepth.value) || (b.deadline.Some? && ev.now >= b.deadline.value)
       || ev.paused {
      u := map[];
      GoesOn(w, t, t', n, id, s.context, NoLimits(b));
    } else {
      u := DispatchMeaning(w, t, n, id, depth, s2, b, t', s');
    }
  }

  /** A coroutine that gets the answer it was waiting for. */
  lemma AnswerMeaning(w: World, t: Task, n: Node, id: string, s: Run, b: Limits, path: seq<nat>, ev: Event,
                      t': Task, s': Run)
    returns (u: Context)
    requires t.ToolApproval? || t.ToolRunning? || t.PolicyCheck? || t.ActivityApproval? || t.ActivityRunning?
    requires Belongs(t, n, id) && Honest(w, t, path, ev.reply) && Step(t, s, b, path, ev) == Some((t', s'))
    ensures s'.context == s.context + u && Keeps(w, t, t', n, id, s.context, u, Calm(b, ev))
  {
    var c := s.context;
    if t'.Done? {
      u := map[id := t'.result];
      if t.ToolRunning? {
        EraseToolResult(id, ev.reply.deduplicated, Key(s.runId, id, t.stepSeq, n.args), ev.reply.result);
      } else {
        EraseActivityResult(id, n.name, n.queue, t.policyId, ev.reply.result);
      }
      Finished(w, t, n, id, c, t'.result, Calm(b, ev));
    } else {
      u := map[];
      GoesOn(w, t, t', n, id, c, Calm(b, ev));
    }
  }

  // ----- a result reaching its parent

  lemma DoneThen(w: World, t: Task, n: Node, id: string, ctx: Context)
    requires Belongs(t, n, id)
    requires (t.InSequence? || t.InLoop?) && t.cur.Done?
    ensures t.InSequence? ==> Rest(w, t, n, id, ctx) == SequenceFrom(w, n, id, EraseAll(t.done + [t.cur.result]), ctx)
    ensures t.InLoop? ==> Rest(w, t, n, id, ctx) == AfterIteration(w, n, id, EraseAll(t.done + [t.cur.result]), ctx)
  {
    EraseAppend(t.done, t.cur.result);
    assert ctx + map[] == ctx;
    if t.InSequence? {
      var child := n.children[|t.done|];
      RestDone(w, child, child.id, t.cur.result, ctx);
      PrependNothing(SequenceFrom(w, n, id, EraseAll(t.done + [t.cur.result]), ctx));
    } else {
      RestDone(w, n.body, IterationId(n.body.id, |t.done|), t.cur.result, ctx);
      PrependNothing(AfterIteration(w, n, id, EraseAll(t.done + [t.cur.result]), ctx));
    }
  }

  lemma CollectSequenceMeaning(w: World, t: Task, n: Node, id: string, s: Run, calm: bool, t': Task, s': Run)
    returns (u: Context)
    requires t.InSequence? && t.cur.Done? && Belongs(t, n, id)
    requires (t', s') == CollectSequence(n, id, t.depth, t.done + [t.cur.result], s)
    ensures s'.context == s.context + u && Keeps(w, t, t', n, id, s.context, u, calm)
  {
    var c := s.context;
    var done := t.done + [t.cur.result];
    DoneThen(w, t, n, id, EraseMap(c));
    assert |EraseAll(done)| == |done|;
    if t'.Done? {
      u := map[id := SequenceResult(id, done)];
      EraseSequenceResult(id, done);
      Finished(w, t, n, id, c, SequenceResult(id, done), calm);
    } else {
      u := map[];
      SequenceStarts(w, t', n, id, EraseMap(c));
      GoesOn(w, t, t', n, id, c, calm);
    }
  }

  lemma CollectLoopMeaning(w: World, t: Task, n: Node, id: string, s: Run, calm: bool, t': Task, s': Run)
    returns (u: Context)
    requires t.InLoop? && t.cur.Done? && Belongs(t, n, id) && Plain(n)
    requires (t', s') == CollectLoop(n, id, t.depth, t.done + [t.cur.result], s)
    ensures s'.context == s.context + u && Keeps(w, t, t', n, id, s.context, u, calm)
  {
    var c := s.context;
    var done := t.done + [t.cur.result];
    DoneThen(w, t, n, id, EraseMap(c));
    assert |EraseAll(done)| == |done|;
    if n.stop.Some? { MatchesErased(done[|done| - 1], n.stop.value); }
    if t'.Done? {
      u := map[id := t'.result];
      EraseLoopResult(id, done, true);
      EraseLoopResult(id, done, false);
      Finished(w, t, n, id, c, t'.result, calm);
    } else {
      u := map[];
      if t'.InLoop? { LoopStarts(w, t', n, id, EraseMap(c)); }
      GoesOn(w, t, t', n, id, c, calm);
    }
  }

  lemma WrapMeaning(w: World, t: Task, n: Node, id: string, s: Run, b: Limits, path: seq<nat>, ev: Event, calm: bool,
                    t': Task, s': Run)
    returns (u: Context)
    requires (t.InBranch? || t.InSubgraph?) && t.cur.Done? && Belongs(t, n, id)
    requires Step(t, s, b, path, ev) == Some((t', s'))
    ensures s'.context == s.context + u && Keeps(w, t, t', n, id, s.context, u, calm)
  {
    u := map[id := t'.result];
    var r := t.cur.result;
    if t.InBranch? {
      EraseBranchResult(id, t.taken, r);
      PrependNothing(Close(id, BranchResult(id, t.taken, Erase(r))));
    } else {
      EraseSubgraphResult(id, r);
      PrependNothing(Close(id, SubgraphResult(id, Erase(r))));
    }
    Finished(w, t, n, id, s.context, t'.result, calm);
  }

  lemma RestFromStep(w: World, t: Task, n: Node, id: string, i: nat, ctx: Context)
    requires t.InParallel? && Belongs(t, n, id) && i < |t.kids|
    ensures RestFrom(w, t, n, id, i, ctx) ==
            Join(Rest(w, t.kids[i], n.children[i], n.children[i].id, ctx), RestFrom(w, t, n, id, i + 1, ctx))
  {
  }

  lemma {:induction false} DoneGathered(w: World, t: Task, n: Node, id: string, i: nat, ctx: Context)
    requires t.InParallel? && AllDone(t.kids) && Belongs(t, n, id) && i <= |t.kids|
    ensures RestFrom(w, t, n, id, i, ctx) == Some(Gathered(EraseAll(Results(t.kids)[i..]), map[]))
    decreases |t.kids| - i
  {
    var rs := Results(t.kids);
    if i < |t.kids| {
      var g := RestFrom(w, t, n, id, i + 1, ctx);
      assert g == Some(Gathered(EraseAll(rs[i + 1..]), map[])) by { DoneGathered(w, t, n, id, i + 1, ctx); }
      var o := Rest(w, t.kids[i], n.children[i], n.children[i].id, ctx);
      assert o == Some(Outcome(Erase(rs[i]), map[])) by { RestDone(w, n.children[i], n.children[i].id, rs[i], ctx); }
      assert RestFrom(w, t, n, id, i, ctx) == Join(o, g) by { RestFromStep(w, t, n, id, i, ctx); }
      EraseHead(rs, i);
      NothingWritten(map[]);
    } else {
      assert rs[i..] == [];
      EraseNone();
    }
  }

  lemma EraseHead(rs: seq<Value>, i: nat)
    requires i < |rs|
    ensures EraseAll(rs[i..]) == [Erase(rs[i])] + EraseAll(rs[i + 1..])
  {
  }

  lemma GatherMeaning(w: World, t: Task, n: Node, id: string, s: Run, calm: bool)
    returns (u: Context)
    requires t.InParallel? && AllDone(t.kids) && Belongs(t, n, id)
    ensures var (t', s') := Finish(id, GatherResult(n, id, Results(t.kids)), s);
            s'.context == s.context + u && Keeps(w, t, t', n, id, s.context, u, calm)
  {
    var r := GatherResult(n, id, Results(t.kids));
    u := map[id := r];
    DoneGathered(w, t, n, id, 0, EraseMap(s.context));
    assert Results(t.kids)[0..] == Results(t.kids);
    EraseGatherResult(n, id, Results(t.kids));
    PrependNothing(Close(id, Erase(r)));
    Finished(w, t, n, id, s.context, r, calm);
  }

  // ----- a step inside a composite coroutine

  lemma ContextAfter(c: Context, u: Context, v: Context)
    ensures EraseMap(c + u) + v == EraseMap(c) + (EraseMap(u) + v)
  {
    EraseUpdates(c, u);
  }

  lemma WithinSequence(w: World, t: Task, cur: Task, n: Node, id: string, c: Context, u: Context, calm: bool)
    requires t.InSequence? && Belongs(t, n, id)
    requires Keeps(w, t.cur, cur, n.children[|t.done|], n.children[|t.done|].id, c, u, calm)
    ensures Keeps(w, t, InSequence(n, id, t.depth, t.done, cur), n, id, c, u, calm)
  {
    var child := n.children[|t.done|];
    assert Inner(child) + {child.id} <= Inner(n);
    var after := Rest(w, cur, child, child.id, EraseMap(c + u));
    if after.Some? {
      var o := after.value;
      ContextAfter(c, u, o.writes);
      PrependTwice(EraseMap(u), o.writes,
                   SequenceFrom(w, n, id, EraseAll(t.done) + [o.result], EraseMap(c + u) + o.writes));
    }
  }

  lemma WithinLoop(w: World, t: Task, cur: Task, n: Node, id: string, c: Context, u: Context, calm: bool)
    requires t.InLoop? && Belongs(t, n, id)
    requires Keeps(w, t.cur, cur, n.body, IterationId(n.body.id, |t.done|), c, u, calm)
    ensures Keeps(w, t, InLoop(n, id, t.depth, t.done, cur), n, id, c, u, calm)
  {
    var bodyId := IterationId(n.body.id, |t.done|);
    assert bodyId in Inner(n);
    var after := Rest(w, cur, n.body, bodyId, EraseMap(c + u));
    if after.Some? {
      var o := after.value;
      ContextAfter(c, u, o.writes);
      PrependTwice(EraseMap(u), o.writes,
                   AfterIteration(w, n, id, EraseAll(t.done) + [o.result], EraseMap(c + u) + o.writes));
    }
  }

  function Branch(n: Node, taken: bool): Node
    requires n.Conditional? && (taken || n.ifFalse.Some?)
  {
    if taken then n.ifTrue else n.ifFalse.value
  }

  lemma WithinBranch(w: World, t: Task, cur: Task, n: Node, id: string, c: Context, u: Context, calm: bool)
    requires t.InBranch? && Belongs(t, n, id)
    requires Keeps(w, t.cur, cur, Branch(n, t.taken), Branch(n, t.taken).id, c, u, calm)
    ensures Keeps(w, t, InBranch(n, id, t.taken, cur), n, id, c, u, calm)
  {
    var inner := Branch(n, t.taken);
    assert Inner(inner) + {inner.id} <= Inner(n);
    var before, after := Rest(w, t.cur, inner, inner.id, EraseMap(c)), Rest(w, cur, inner, inner.id, EraseMap(c + u));
    assert Rest(w, t, n, id, EraseMap(c)) == CloseBranch(id, t.taken, before);
    assert Rest(w, InBranch(n, id, t.taken, cur), n, id, EraseMap(c + u)) == CloseBranch(id, t.taken, after);
    if after.Some? {
      PrependTwice(EraseMap(u), after.value.writes, Close(id, BranchResult(id, t.taken, after.value.result)));
    }
  }

  lemma WithinSubgraph(w: World, t: Task, cur: Task, n: Node, id: string, c: Context, u: Context, calm: bool)
    requires t.InSubgraph? && Belongs(t, n, id)
    requires Keeps(w, t.cur, cur, n.graph, n.graph.id, c, u, calm)
    ensures Keeps(w, t, InSubgraph(n, id, cur), n, id, c, u, calm)
  {
    var inner := n.graph;
    assert Inner(inner) + {inner.id} <= Inner(n);
    var before, after := Rest(w, t.cur, inner, inner.id, EraseMap(c)), Rest(w, cur, inner, inner.id, EraseMap(c + u));
    assert Rest(w, t, n, id, EraseMap(c)) == CloseSubgraph(id, before);
    assert Rest(w, InSubgraph(n, id, cur), n, id, EraseMap(c + u)) == CloseSubgraph(id, after);
    if after.Some? {
      PrependTwice(EraseMap(u), after.value.writes, Close(id, SubgraphResult(id, after.value.result)));
    }
  }

  function PrependAll(writes: Context, g: Option<Gathered>): Option<Gathered> {
    match g
    case None => None
    case Some(x) => Some(Gathered(x.results, writes + x.writes))
  }

  lemma JoinHere(v: Context, o: Option<Outcome>, g: Option<Gathered>)
    ensures Join(Prepend(v, o), g) == PrependAll(v, Join(o, g))
  {
    if o.Some? && g.Some? {
      assert v + (o.value.writes + g.value.writes) == (v + o.value.writes) + g.value.writes;
    }
  }

  lemma JoinThere(v: Context, o: Option<Outcome>, g: Option<Gathered>)
    requires o.Some? ==> v.Keys !! o.value.writes.Keys
    ensures Join(o, PrependAll(v, g)) == PrependAll(v, Join(o, g))
  {
    if o.Some? && g.Some? {
      assert o.value.writes + (v + g.value.writes) == v + (o.value.writes + g.value.writes);
    }
  }

  /** What child k wrote is invisible to its sibling i, and touches nothing i will write. */
  lemma SiblingUnmoved(w: World, t: Task, n: Node, id: string, k: nat, i: nat, c: Context, u: Context)
    requires t.InParallel? && Belongs(t, n, id) && Apart(n.children) && k < |t.kids| && i < |t.kids| && i != k
    requires u.Keys <= Writes(n.children[k], n.children[k].id)
    ensures var o := Rest(w, t.kids[i], n.children[i], n.children[i].id, EraseMap(c + u));
            Rest(w, t.kids[i], n.children[i], n.children[i].id, EraseMap(c)) == o
            && (o.Some? ==> EraseMap(u).Keys !! o.value.writes.Keys)
  {
    var child := n.children[i];
    assert Writes(n.children[k], n.children[k].id) !! Writes(child, child.id) + Reads(child);
    EraseUpdates(c, u);
    RestFrame(w, t.kids[i], child, child.id, EraseMap(c), EraseMap(c + u));
    RestWrites(w, t.kids[i], child, child.id, EraseMap(c + u));
  }

  /** From position i on: `before` is `after`, with v written first if child k is among the children there. */
  ghost predicate Shifts(k: nat, i: nat, v: Context, before: Option<Gathered>, after: Option<Gathered>) {
    before == if i <= k then PrependAll(v, after) else after
  }

  lemma ShiftStep(k: nat, i: nat, v: Context, o: Option<Outcome>, o': Option<Outcome>,
                  g: Option<Gathered>, g': Option<Gathered>)
    requires Shifts(k, i + 1, v, g, g')
    requires i == k ==> o == Prepend(v, o')
    requires i != k ==> o == o' && (o'.Some? ==> v.Keys !! o'.value.writes.Keys)
    ensures Shifts(k, i, v, Join(o, g), Join(o', g'))
  {
    if i == k {
      JoinHere(v, o', g');
    } else if i < k {
      JoinThere(v, o', g');
    }
  }

  /** What child i of a gather still means, before and after child k moved. */
  lemma ChildShifts(w: World, t: Task, kid: Task, n: Node, id: string, k: nat, i: nat, c: Context, u: Context, calm: bool)
    requires t.InParallel? && Belongs(t, n, id) && Apart(n.children) && k < |t.kids| && i < |t.kids|
    requires Keeps(w, t.kids[k], kid, n.children[k], n.children[k].id, c, u, calm)
    ensures Belongs(if i == k then kid else t.kids[i], n.children[i], n.children[i].id)
    ensures var o := Rest(w, t.kids[i], n.children[i], n.children[i].id, EraseMap(c));
            var o' := Rest(w, if i == k then kid else t.kids[i], n.children[i], n.children[i].id, EraseMap(c + u));
            calm || o'.Some? ==>
              if i == k then o == Prepend(EraseMap(u), o') else o == o' && (o'.Some? ==> EraseMap(u).Keys !! o'.value.writes.Keys)
  {
    if i != k { SiblingUnmoved(w, t, n, id, k, i, c, u); }
  }

  lemma {:induction false} WithinGather(w: World, t: Task, t': Task, n: Node, id: string, k: nat, i: nat,
                                        c: Context, u: Context, calm: bool)
    requires t.InParallel? && Belongs(t, n, id) && Apart(n.children) && k < |t.kids| && i <= |t.kids|
    requires t'.InParallel? && Belongs(t', n, id) && t'.kids == t.kids[k := t'.kids[k]]
    requires Keeps(w, t.kids[k], t'.kids[k], n.children[k], n.children[k].id, c, u, calm)
    requires calm || RestFrom(w, t', n, id, i, EraseMap(c + u)).Some?
    ensures Shifts(k, i, EraseMap(u), RestFrom(w, t, n, id, i, EraseMap(c)), RestFrom(w, t', n, id, i, EraseMap(c + u)))
    decreases |t.kids| - i
  {
    if i < |t.kids| {
      var (e, e') := (EraseMap(c), EraseMap(c + u));
      var child := n.children[i];
      RestFromStep(w, t, n, id, i, e);
      RestFromStep(w, t', n, id, i, e');
      WithinGather(w, t, t', n, id, k, i + 1, c, u, calm);
      ChildShifts(w, t, t'.kids[k], n, id, k, i, c, u, calm);
      ShiftStep(k, i, EraseMap(u), Rest(w, t.kids[i], child, child.id, e), Rest(w, t'.kids[i], child, child.id, e'),
                RestFrom(w, t, n, id, i + 1, e), RestFrom(w, t', n, id, i + 1, e'));
    }
  }

  lemma KidMeaning(w: World, t: Task, kid: Task, n: Node, id: string, k: nat, c: Context, u: Context, calm: bool)
    requires t.InParallel? && Belongs(t, n, id) && Apart(n.children) && k < |t.kids|
    requires Keeps(w, t.kids[k], kid, n.children[k], n.children[k].id, c, u, calm)
    ensures Keeps(w, t, t.(kids := t.kids[k := kid]), n, id, c, u, calm)
  {
    var t' := t.(kids := t.kids[k := kid]);
    assert Inner(n.children[k]) + {n.children[k].id} <= Inner(n);
    var after := RestFrom(w, t', n, id, 0, EraseMap(c + u));
    if calm || after.Some? {
      WithinGather(w, t, t', n, id, k, 0, c, u, calm);
      if after.Some? {
        PrependTwice(EraseMap(u), after.value.writes, Close(id, GatherResult(n, id, after.value.results)));
      }
    }
  }

  /** A step that moves no part of the coroutine: it starts, gets an answer, or collects a result. */
  lemma OwnStepMeaning(w: World, t: Task, n: Node, id: string, s: Run, b: Limits, path: seq<nat>, ev: Event,
                       t': Task, s': Run)
    returns (u: Context)
    requires t.InParallel? ==> AllDone(t.kids)
    requires t.InSequence? || t.InLoop? || t.InBranch? || t.InSubgraph? ==> t.cur.Done?
    requires Belongs(t, n, id) && Plain(n) && Honest(w, t, path, ev.reply)
    requires Step(t, s, b, path, ev) == Some((t', s'))
    ensures s'.context == s.context + u && Keeps(w, t, t', n, id, s.context, u, Calm(b, ev))
  {
    var calm := Calm(b, ev);
    if t.Start? {
      u := BeginMeaning(w, n, id, t.depth, s, b, ev, t', s');
    } else if t.Gated? {
      u := DispatchMeaning(w, t, n, id, t.depth, s, b, t', s');
    } else if t.InSequence? {
      u := CollectSequenceMeaning(w, t, n, id, s, calm, t', s');
    } else if t.InLoop? {
      u := CollectLoopMeaning(w, t, n, id, s, calm, t', s');
    } else if t.InBranch? || t.InSubgraph? {
      u := WrapMeaning(w, t, n, id, s, b, path, ev, calm, t', s');
    } else if t.InParallel? {
      u := GatherMeaning(w, t, n, id, s, calm);
    } else {
      u := AnswerMeaning(w, t, n, id, s, b, path, ev, t', s');
    }
  }

  /** One step of any schedule. */
  lemma {:induction false} StepMeaning(w: World, t: Task, n: Node, id: string, s: Run, b: Limits, path: seq<nat>, ev: Event,
                                       t': Task, s': Run)
    returns (u: Context)
    requires Belongs(t, n, id) && Independent(n) && Plain(n) && Honest(w, t, path, ev.reply)
    requires Step(t, s, b, path, ev) == Some((t', s'))
    ensures s'.context == s.context + u && Keeps(w, t, t', n, id, s.context, u, Calm(b, ev))
    decreases t
  {
    var calm := Calm(b, ev);
    if t.InSequence? && !t.cur.Done? {
      u := StepMeaning(w, t.cur, n.children[|t.done|], n.children[|t.done|].id, s, b, path, ev, t'.cur, s');
      WithinSequence(w, t, t'.cur, n, id, s.context, u, calm);
    } else if t.InLoop? && !t.cur.Done? {
      u := StepMeaning(w, t.cur, n.body, IterationId(n.body.id, |t.done|), s, b, path, ev, t'.cur, s');
      WithinLoop(w, t, t'.cur, n, id, s.context, u, calm);
    } else if t.InBranch? && !t.cur.Done? {
      u := StepMeaning(w, t.cur, Branch(n, t.taken), Branch(n, t.taken).id, s, b, path, ev, t'.cur, s');
      WithinBranch(w, t, t'.cur, n, id, s.context, u, calm);
    } else if t.InSubgraph? && !t.cur.Done? {
      u := StepMeaning(w, t.cur, n.graph, n.graph.id, s, b, path, ev, t'.cur, s');
      WithinSubgraph(w, t, t'.cur, n, id, s.context, u, calm);
    } else if t.InParallel? && !AllDone(t.kids) {
      var k := path[0];
      u := StepMeaning(w, t.kids[k], n.children[k], n.children[k].id, s, b, path[1..], ev, t'.kids[k], s');
      KidMeaning(w, t, t'.kids[k], n, id, k, s.context, u, calm);
    } else {
      u := OwnStepMeaning(w, t, n, id, s, b, path, ev, t', s');
    }
  }
}
