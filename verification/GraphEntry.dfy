/** What lets a node in and what a call goes through: the entry checks, the limits, and the order of policy, approval
    and scheduling, said of steps and of whole runs of one node. */
module GraphEntry {
  import opened Json
  import opened GraphRun
  import opened GraphOrder

  // ----- entering a node

  predicate TooDeep(depth: nat, b: Limits) {
    b.maxDepth.Some? && b.maxDepth.value < depth
  }

  predicate TooLate(now: int, b: Limits) {
    b.deadline.Some? && b.deadline.value <= now
  }

  /** A node without an id, below the depth limit or at or past the deadline is refused in that order and starts nothing;
      a paused run holds it at the gate; otherwise it goes on as from the gate. */
  lemma EntryTells(n: Node, id: string, depth: nat, s: Run, b: Limits, path: seq<nat>, ev: Event, t': Task, s': Run)
    requires Step(Start(n, id, depth), s, b, path, ev) == Some((t', s'))
    ensures id == "" ==> t' == Raised(InvalidGraph) && s' == s
    ensures id != "" && TooDeep(depth, b) ==> t' == Raised(DepthExceeded) && s' == s
    ensures id != "" && !TooDeep(depth, b) && TooLate(ev.now, b) ==>
              t' == Raised(DeadlineExceeded)
              && s' == s.(depth := if s.depth < depth then depth else s.depth, depths := s.depths + [depth])
    ensures id != "" && !TooDeep(depth, b) && !TooLate(ev.now, b) && ev.paused ==>
              t' == Gated(n, id, depth)
              && s' == s.(depth := if s.depth < depth then depth else s.depth, depths := s.depths + [depth],
                          starts := s.starts + [ev.now])
    ensures id != "" && !TooDeep(depth, b) && !TooLate(ev.now, b) && !ev.paused ==>
              Some((t', s')) == Step(Gated(n, id, depth),
                                     s.(depth := if s.depth < depth then depth else s.depth, depths := s.depths + [depth],
                                        starts := s.starts + [ev.now]), b, path, ev)
  {
  }

  /** A composite node starts its children under their own ids and at its own depth, the first of a sequence, all of a
      gather at once, a loop's body as iteration 0; a subgraph's graph starts one deeper. Nothing else changes. */
  lemma StructureTells(n: Node, id: string, depth: nat, s: Run, b: Limits, path: seq<nat>, ev: Event, t': Task, s': Run)
    requires Step(Gated(n, id, depth), s, b, path, ev) == Some((t', s'))
    ensures n.Sequential? && n.children != [] ==>
              t' == InSequence(n, id, depth, [], Start(n.children[0], n.children[0].id, depth)) && s' == s
    ensures n.Parallel? || n.FanIn? ==>
              t'.InParallel? && t'.node == n && t'.id == id && |t'.kids| == |n.children| && s' == s
              && forall i | 0 <= i < |n.children| :: t'.kids[i] == Start(n.children[i], n.children[i].id, depth)
    ensures n.Loop? ==>
              (n.maxIterations <= 0 ==> t' == Raised(InvalidGraph))
              && (n.maxIterations > 0 ==> t' == InLoop(n, id, depth, [], Start(n.body, IterationId(n.body.id, 0), depth)))
              && s' == s
    ensures n.Subgraph? ==> t' == InSubgraph(n, id, Start(n.graph, n.graph.id, depth + 1)) && s' == s
    ensures n.Unknown? ==> t' == Raised(InvalidGraph) && s' == s
  {
  }

  /** A sequence starts its next child where it ran the last. */
  lemma SequenceGoesOn(n: Node, id: string, depth: nat, done: seq<Value>, r: Value, s: Run, b: Limits, path: seq<nat>,
                       ev: Event, t': Task, s': Run)
    requires Step(InSequence(n, id, depth, done, Done(r)), s, b, path, ev) == Some((t', s'))
    ensures var next := |done| + 1;
            next < |n.children| ==>
              t' == InSequence(n, id, depth, done + [r], Start(n.children[next], n.children[next].id, depth)) && s' == s
    ensures |n.children| <= |done| + 1 ==>
              t'.Done? && t'.result.Obj? && s' == s.(context := s.context[id := t'.result])
              && t'.result.fields == map["node_id" := Str(id), "kind" := Str("sequential"), "children" := Arr(done + [r])]
  {
  }

  // ----- the ids of loop iterations

  function DigitOf(c: char): int {
    c as int - '0' as int
  }

  /** The number a string of decimal digits spells. */
  function Spelled(d: string): int {
    if d == "" then 0 else 10 * Spelled(d[..|d| - 1]) + DigitOf(d[|d| - 1])
  }

  lemma {:induction false} DecimalSpells(i: nat)
    ensures var d := Decimal(i);
            d != "" && Spelled(d) == i && (forall k | 0 <= k < |d| :: '0' <= d[k] <= '9') && (|d| > 1 ==> d[0] != '0')
  {
    var d := Decimal(i);
    if i < 10 {
      DigitSpells(i);
      assert d[..0] == "" && Spelled("") == 0;
    } else {
      DecimalSpells(i / 10);
      DigitSpells(i % 10);
      assert d[..|d| - 1] == Decimal(i / 10);
      FirstDigit(i / 10);
    }
  }

  lemma DigitSpells(i: nat)
    requires i < 10
    ensures '0' <= "0123456789"[i] <= '9' && DigitOf("0123456789"[i]) == i
  {
  }

  lemma {:induction false} FirstDigit(i: nat)
    requires i > 0
    ensures Decimal(i) != "" && Decimal(i)[0] != '0'
  {
    if i >= 10 {
      FirstDigit(i / 10);
    } else {
      DigitSpells(i);
    }
  }

  /** Iteration i of a loop runs under the body's id, the number i in decimal and square brackets around it. */
  lemma IterationIdTells(bodyId: string, i: nat) returns (d: string)
    ensures IterationId(bodyId, i) == bodyId + "[" + d + "]"
    ensures d != "" && Spelled(d) == i && (forall k | 0 <= k < |d| :: '0' <= d[k] <= '9') && (|d| > 1 ==> d[0] != '0')
  {
    d := Decimal(i);
    DecimalSpells(i);
  }

  // ----- one tool call

  lemma SettledEnds(t: Task, s: Run, b: Limits, moves: seq<Move>, t': Task, s': Run)
    requires (t.Done? || t.Raised?) && Execute(t, s, b, moves) == Some((t', s'))
    ensures moves == [] && t' == t && s' == s
  {
  }

  lemma FirstMove(t: Task, s: Run, b: Limits, moves: seq<Move>, t': Task, s': Run) returns (t1: Task, s1: Run)
    requires !t.Done? && Execute(t, s, b, moves) == Some((t', s')) && t'.Done?
    ensures moves != [] && Step(t, s, b, moves[0].path, moves[0].ev) == Some((t1, s1))
    ensures Execute(t1, s1, b, moves[1..]) == Some((t', s')) && !t1.Raised?
  {
    var after := Step(t, s, b, moves[0].path, moves[0].ev).value;
    t1, s1 := after.0, after.1;
    if t1.Raised? { SettledEnds(t1, s1, b, moves[1..], t', s'); }
  }

  /** What a completed tool call did to the run: one dispatch with the node's own tool and arguments under the next step
      number, one call counted, and one entry written, the reply's output under that dispatch's digest. */
  predicate ToolRan(n: Node, id: string, s: Run, reply: Reply, r: Value, s': Run)
    requires n.ToolCall?
  {
    reply.ToolOutput?
    && s'.tools == s.tools + [ToolDispatch(id, s.stepSeq + 1, n.tool, n.args)]
    && s'.toolCalls == s.toolCalls + 1 && s'.stepSeq == s.stepSeq + 1
    && s'.activities == s.activities && s'.activityCalls == s.activityCalls && s'.context == s.context[id := r]
    && r == Obj(map["node_id" := Str(id), "kind" := Str("tool_call"), "deduplicated" := Bool(reply.deduplicated),
                    "idempotency_key" := Key(s.runId, id, s.stepSeq + 1, n.args), "result" := reply.result])
  }

  lemma ToolRunningEnds(n: Node, id: string, seqNo: nat, s: Run, b: Limits, moves: seq<Move>, r: Value, s': Run)
    requires n.ToolCall? && Execute(ToolRunning(n, id, seqNo), s, b, moves) == Some((Done(r), s'))
    ensures |moves| == 1 && moves[0].ev.reply.ToolOutput? && s' == s.(context := s.context[id := r])
    ensures r == Obj(map["node_id" := Str(id), "kind" := Str("tool_call"),
                         "deduplicated" := Bool(moves[0].ev.reply.deduplicated),
                         "idempotency_key" := Key(s.runId, id, seqNo, n.args), "result" := moves[0].ev.reply.result])
  {
    var t1, s1 := FirstMove(ToolRunning(n, id, seqNo), s, b, moves, Done(r), s');
    SettledEnds(t1, s1, b, moves[1..], Done(r), s');
  }

  lemma ToolApprovalEnds(n: Node, id: string, s: Run, b: Limits, moves: seq<Move>, r: Value, s': Run)
    requires n.ToolCall? && Execute(ToolApproval(n, id), s, b, moves) == Some((Done(r), s'))
    ensures |moves| == 2 && moves[0].ev.reply.Granted? && ToolRan(n, id, s, moves[1].ev.reply, r, s')
  {
    var t1, s1 := FirstMove(ToolApproval(n, id), s, b, moves, Done(r), s');
    ToolRunningEnds(n, id, s.stepSeq + 1, s1, b, moves[1..], r, s');
  }

  lemma GateTells(n: Node, id: string, depth: nat, s: Run, b: Limits, path: seq<nat>, ev: Event, t1: Task, s1: Run)
    requires n.ToolCall? && Step(Gated(n, id, depth), s, b, path, ev) == Some((t1, s1)) && !t1.Raised?
    ensures b.maxToolCalls.Some? ==> s.toolCalls < b.maxToolCalls.value
    ensures n.approval ==> b.approvalsWired && t1 == ToolApproval(n, id) && s1 == s
    ensures !n.approval ==>
              t1 == ToolRunning(n, id, s.stepSeq + 1)
              && s1 == s.(toolCalls := s.toolCalls + 1, stepSeq := s.stepSeq + 1,
                          tools := s.tools + [ToolDispatch(id, s.stepSeq + 1, n.tool, n.args)])
  {
  }

  /** A tool call that completes was below its limit, was granted where it asks for approval, and did exactly one call's
      work. */
  lemma ToolCallRuns(n: Node, id: string, depth: nat, s: Run, b: Limits, moves: seq<Move>, r: Value, s': Run)
    requires n.ToolCall? && Execute(Gated(n, id, depth), s, b, moves) == Some((Done(r), s'))
    ensures b.maxToolCalls.Some? ==> s.toolCalls < b.maxToolCalls.value
    ensures |moves| == (if n.approval then 3 else 2) && (n.approval ==> b.approvalsWired && moves[1].ev.reply.Granted?)
    ensures ToolRan(n, id, s, moves[|moves| - 1].ev.reply, r, s')
  {
    var t1, s1 := FirstMove(Gated(n, id, depth), s, b, moves, Done(r), s');
    GateTells(n, id, depth, s, b, moves[0].path, moves[0].ev, t1, s1);
    if n.approval {
      ToolApprovalEnds(n, id, s, b, moves[1..], r, s');
    } else {
      ToolRunningEnds(n, id, s.stepSeq + 1, s1, b, moves[1..], r, s');
    }
  }

  /** A tool call is refused for its limit exactly when one more call would pass it, before anything is asked or done. */
  lemma ToolRefusedIff(n: Node, id: string, depth: nat, s: Run, b: Limits, path: seq<nat>, ev: Event, t': Task, s': Run)
    requires n.ToolCall? && Step(Gated(n, id, depth), s, b, path, ev) == Some((t', s'))
    ensures t' == Raised(ToolCallsExceeded) <==> b.maxToolCalls.Some? && s.toolCalls >= b.maxToolCalls.value
    ensures t' == Raised(InvalidGraph) <==>
              !(b.maxToolCalls.Some? && s.toolCalls >= b.maxToolCalls.value) && n.approval && !b.approvalsWired
    ensures t'.Raised? || n.approval ==> s' == s
  {
  }

  // ----- one external activity

  predicate ActivityRan(n: Node, id: string, s: Run, policyId: Value, reply: Reply, r: Value, s': Run)
    requires n.Activity?
  {
    reply.ActivityResult?
    && s'.activities == s.activities + [ActivityDispatch(id, n.name, n.queue, n.args)]
    && s'.activityCalls == s.activityCalls + 1
    && s'.tools == s.tools && s'.toolCalls == s.toolCalls && s'.stepSeq == s.stepSeq && s'.context == s.context[id := r]
    && r == Obj(map["node_id" := Str(id), "kind" := Str("activity"), "activity_name" := Str(n.name),
                    "task_queue" := Str(n.queue), "policy_id" := policyId, "result" := reply.result])
  }

  lemma ActivityRunningEnds(n: Node, id: string, policyId: Value, s: Run, b: Limits, moves: seq<Move>, r: Value, s': Run)
    requires n.Activity? && Execute(ActivityRunning(n, id, policyId), s, b, moves) == Some((Done(r), s'))
    ensures |moves| == 1 && moves[0].ev.reply.ActivityResult? && s' == s.(context := s.context[id := r])
    ensures r == Obj(map["node_id" := Str(id), "kind" := Str("activity"), "activity_name" := Str(n.name),
                         "task_queue" := Str(n.queue), "policy_id" := policyId, "result" := moves[0].ev.reply.result])
  {
    var t1, s1 := FirstMove(ActivityRunning(n, id, policyId), s, b, moves, Done(r), s');
    SettledEnds(t1, s1, b, moves[1..], Done(r), s');
  }

  lemma ActivityApprovalEnds(n: Node, id: string, policyId: Value, s: Run, b: Limits, moves: seq<Move>, r: Value, s': Run)
    requires n.Activity? && Execute(ActivityApproval(n, id, policyId), s, b, moves) == Some((Done(r), s'))
    ensures |moves| == 2 && moves[0].ev.reply.Granted? && ActivityRan(n, id, s, policyId, moves[1].ev.reply, r, s')
  {
    var t1, s1 := FirstMove(ActivityApproval(n, id, policyId), s, b, moves, Done(r), s');
    ActivityRunningEnds(n, id, policyId, s1, b, moves[1..], r, s');
  }

  lemma PolicyCheckEnds(n: Node, id: string, s: Run, b: Limits, moves: seq<Move>, r: Value, s': Run)
    requires n.Activity? && Execute(PolicyCheck(n, id), s, b, moves) == Some((Done(r), s'))
    ensures |moves| == (if n.approval then 3 else 2) && moves[0].ev.reply.PolicyAllows?
    ensures n.approval ==> b.approvalsWired && moves[1].ev.reply.Granted?
    ensures ActivityRan(n, id, s, moves[0].ev.reply.policyId, moves[|moves| - 1].ev.reply, r, s')
  {
    var t1, s1 := FirstMove(PolicyCheck(n, id), s, b, moves, Done(r), s');
    if n.approval {
      ActivityApprovalEnds(n, id, moves[0].ev.reply.policyId, s, b, moves[1..], r, s');
    } else {
      ActivityRunningEnds(n, id, moves[0].ev.reply.policyId, s1, b, moves[1..], r, s');
    }
  }

  /** An external activity that completes names its work and its queue, was below its limit, was let through by the policy
      its result names, was granted after that where it asks for approval, and only then was scheduled, once. */
  lemma ActivityRuns(n: Node, id: string, depth: nat, s: Run, b: Limits, moves: seq<Move>, r: Value, s': Run)
    requires n.Activity? && Execute(Gated(n, id, depth), s, b, moves) == Some((Done(r), s'))
    ensures n.name != "" && n.queue != "" && (b.maxActivityCalls.Some? ==> s.activityCalls < b.maxActivityCalls.value)
    ensures |moves| == (if n.approval then 4 else 3) && moves[1].ev.reply.PolicyAllows?
    ensures n.approval ==> b.approvalsWired && moves[2].ev.reply.Granted?
    ensures ActivityRan(n, id, s, moves[1].ev.reply.policyId, moves[|moves| - 1].ev.reply, r, s')
  {
    var t1, s1 := FirstMove(Gated(n, id, depth), s, b, moves, Done(r), s');
    PolicyCheckEnds(n, id, s1, b, moves[1..], r, s');
  }

  /** It is refused for its limit exactly when one more would pass it, and without asking the policy. */
  lemma ActivityRefusedIff(n: Node, id: string, depth: nat, s: Run, b: Limits, path: seq<nat>, ev: Event, t': Task, s': Run)
    requires n.Activity? && Step(Gated(n, id, depth), s, b, path, ev) == Some((t', s'))
    ensures t' == Raised(InvalidGraph) <==> |n.name| == 0 || |n.queue| == 0
    ensures t' == Raised(ActivityCallsExceeded) <==>
              |n.name| > 0 && |n.queue| > 0 && b.maxActivityCalls.Some? && s.activityCalls >= b.maxActivityCalls.value
    ensures t'.Raised? ==> s' == s
    ensures !t'.Raised? ==> t' == PolicyCheck(n, id) && s' == s.(policyChecks := s.policyChecks + 1)
  {
  }

  /** What a call that waits makes of a failure: a refused approval, a refused policy and a failed activity each end it with
      an error of their own and schedule nothing. */
  lemma FailureTells(t: Task, s: Run, b: Limits, path: seq<nat>, ev: Event, t': Task, s': Run)
    requires AwaitsAnswer(t) && ev.reply.Fails? && Step(t, s, b, path, ev) == Some((t', s'))
    ensures s' == s
    ensures t.ToolApproval? || t.ActivityApproval? ==> t' == Raised(ApprovalRefused)
    ensures t.PolicyCheck? ==> t' == Raised(PolicyRefused)
    ensures t.ToolRunning? || t.ActivityRunning? ==> t' == Raised(ActivityFailed)
  {
  }
}
