/** Graphs that keep their call limits in every interleaving whatever: no call can be held while another is made. */
module GraphOverlap {
  import opened Json
  import opened GraphRun
  import opened GraphBudget
  import opened GraphSafety

  /** n holds a call of kind k: anywhere in it, or surely, outside its conditionals. */
  predicate Calls(k: Call, sure: bool, n: Node) {
    match n
    case ToolCall(_, _, _, _) => k.Tools?
    case Activity(_, _, _, _, _) => k.External?
    case Sequential(_, children) => exists i :: 0 <= i < |children| && Calls(k, sure, children[i])
    case Parallel(_, children) => exists i :: 0 <= i < |children| && Calls(k, sure, children[i])
    case FanIn(_, children) => exists i :: 0 <= i < |children| && Calls(k, sure, children[i])
    case Conditional(_, _, ifTrue, ifFalse) =>
      !sure && (Calls(k, sure, ifTrue) || (ifFalse.Some? && Calls(k, sure, ifFalse.value)))
    case Loop(_, _, _, body) => Calls(k, sure, body)
    case Subgraph(_, graph) => Calls(k, sure, graph)
    case Unknown(_) => false
  }

  /** n holds a call that is suspended between its limit check and its increment: a gated tool call, or any external
      activity, which awaits its policy answer. */
  predicate Holds(k: Call, sure: bool, n: Node) {
    match n
    case ToolCall(_, _, _, approval) => k.Tools? && approval
    case Activity(_, _, _, _, _) => k.External?
    case Sequential(_, children) => exists i :: 0 <= i < |children| && Holds(k, sure, children[i])
    case Parallel(_, children) => exists i :: 0 <= i < |children| && Holds(k, sure, children[i])
    case FanIn(_, children) => exists i :: 0 <= i < |children| && Holds(k, sure, children[i])
    case Conditional(_, _, ifTrue, ifFalse) =>
      !sure && (Holds(k, sure, ifTrue) || (ifFalse.Some? && Holds(k, sure, ifFalse.value)))
    case Loop(_, _, _, body) => Holds(k, sure, body)
    case Subgraph(_, graph) => Holds(k, sure, graph)
    case Unknown(_) => false
  }

  /** One child can hold a call while another makes one. */
  predicate Clash(k: Call, children: seq<Node>) {
    exists i, j :: 0 <= i < |children| && 0 <= j < |children| && i != j
                   && Holds(k, false, children[i]) && Calls(k, false, children[j])
  }

  /** Some gather of n has two children that clash. */
  predicate Overlaps(k: Call, n: Node) {
    match n
    case Sequential(_, children) => exists i :: 0 <= i < |children| && Overlaps(k, children[i])
    case Parallel(_, children) => Clash(k, children) || exists i :: 0 <= i < |children| && Overlaps(k, children[i])
    case FanIn(_, children) => Clash(k, children) || exists i :: 0 <= i < |children| && Overlaps(k, children[i])
    case Conditional(_, _, ifTrue, ifFalse) => Overlaps(k, ifTrue) || (ifFalse.Some? && Overlaps(k, ifFalse.value))
    case Loop(_, _, _, body) => Overlaps(k, body)
    case Subgraph(_, graph) => Overlaps(k, graph)
    case _ => false
  }

  // ----- coroutines of a graph without overlaps

  predicate Live(t: Task) {
    !t.Done? && !t.Raised?
  }

  predicate MayCall(k: Call, t: Task) {
    Live(t) && Calls(k, false, t.node)
  }

  predicate MayHold(k: Call, t: Task) {
    Live(t) && Holds(k, false, t.node)
  }

  predicate Inside(k: Call, t: Task, n: Node) {
    (MayCall(k, t) ==> Calls(k, false, n)) && (MayHold(k, t) ==> Holds(k, false, n))
  }

  /** No two coroutines gathered anywhere in t clash, now or later. */
  predicate Separate(k: Call, t: Task) {
    (Live(t) ==> !Overlaps(k, t.node)) &&
    match t
    case ToolApproval(n, _) => n.ToolCall? && n.approval
    case PolicyCheck(n, _) => n.Activity?
    case ActivityApproval(n, _, _) => n.Activity?
    case InSequence(n, _, _, _, cur) => Separate(k, cur) && Inside(k, cur, n)
    case InParallel(n, _, _, kids) =>
      (forall i | 0 <= i < |kids| :: Separate(k, kids[i]) && Inside(k, kids[i], n))
      && forall i, j | 0 <= i < |kids| && 0 <= j < |kids| && i != j :: !(MayHold(k, kids[i]) && MayCall(k, kids[j]))
    case InBranch(n, _, _, cur) => Separate(k, cur) && Inside(k, cur, n)
    case InLoop(n, _, _, _, cur) => Separate(k, cur) && Inside(k, cur, n)
    case InSubgraph(n, _, cur) => Separate(k, cur) && Inside(k, cur, n)
    case _ => true
  }

  /** c is started by n. */
  predicate ChildOf(c: Node, n: Node) {
    match n
    case Sequential(_, children) => c in children
    case Parallel(_, children) => c in children
    case FanIn(_, children) => c in children
    case Conditional(_, _, ifTrue, ifFalse) => c == ifTrue || ifFalse == Some(c)
    case Loop(_, _, _, body) => c == body
    case Subgraph(_, graph) => c == graph
    case _ => false
  }

  lemma ChildInherits(k: Call, c: Node, n: Node)
    requires ChildOf(c, n)
    ensures Calls(k, false, c) ==> Calls(k, false, n)
    ensures Holds(k, false, c) ==> Holds(k, false, n)
    ensures Overlaps(k, c) ==> Overlaps(k, n)
  {
  }

  lemma NestedSeparate(k: Call, t: Task)
    requires IsNested(t)
    ensures Separate(k, t) <==> !Overlaps(k, t.node) && Separate(k, t.cur) && Inside(k, t.cur, t.node)
  {
  }

  lemma StartedSeparate(k: Call, t: Task)
    requires IsNested(t) && t.cur.Start? && ChildOf(t.cur.node, t.node) && !Overlaps(k, t.node)
    ensures Separate(k, t)
  {
    ChildInherits(k, t.cur.node, t.node);
    assert Separate(k, t.cur);
  }

  lemma GatherSeparate(k: Call, t: Task)
    requires t.InParallel? && (t.node.Parallel? || t.node.FanIn?) && t.kids == StartAll(t.node.children, t.depth)
    requires !Overlaps(k, t.node)
    ensures Separate(k, t)
  {
    var children := t.node.children;
    forall i | 0 <= i < |t.kids|
      ensures Separate(k, t.kids[i]) && Inside(k, t.kids[i], t.node)
    {
      assert t.kids[i].Start? && t.kids[i].node == children[i] && children[i] in children;
      ChildInherits(k, children[i], t.node);
    }
    assert !Clash(k, children);
    forall i, j | 0 <= i < |t.kids| && 0 <= j < |t.kids| && i != j
      ensures !(MayHold(k, t.kids[i]) && MayCall(k, t.kids[j]))
    {
      assert t.kids[i].node == children[i] && t.kids[j].node == children[j];
    }
  }

  lemma DispatchSeparate(k: Call, n: Node, id: string, depth: nat, s: Run, b: Limits, t': Task, s': Run)
    requires !Overlaps(k, n) && (t', s') == Dispatch(n, id, depth, s, b)
    ensures Separate(k, t') && (Live(t') ==> t'.node == n)
  {
    if t'.InParallel? {
      GatherSeparate(k, t');
    } else if IsNested(t') {
      assert t'.node == n && t'.cur.Start? && ChildOf(t'.cur.node, n);
      StartedSeparate(k, t');
    }
  }

  lemma EntrySeparate(k: Call, t: Task, s: Run, b: Limits, path: seq<nat>, ev: Event, t': Task, s': Run)
    requires t.Start? || t.Gated?
    requires Separate(k, t) && Step(t, s, b, path, ev) == Some((t', s'))
    ensures Separate(k, t') && (Live(t') ==> t'.node == t.node)
  {
    if t.Gated? {
      DispatchSeparate(k, t.node, t.id, t.depth, s, b, t', s');
    } else if !t'.Raised? && !t'.Gated? {
      var s1 := s.(depth := if t.depth > s.depth then t.depth else s.depth, depths := s.depths + [t.depth]);
      var s2 := s1.(starts := s1.starts + [ev.now]);
      DispatchSeparate(k, t.node, t.id, t.depth, s2, b, t', s');
    }
  }

  /** t became t' without changing what it is a coroutine of. */
  predicate SameNode(t: Task, t': Task) {
    Live(t') ==> Live(t) && t'.node == t.node
  }

  lemma KidSeparate(k: Call, t: Task, i: nat, kid: Task)
    requires t.InParallel? && i < |t.kids| && Separate(k, t) && Separate(k, kid) && SameNode(t.kids[i], kid)
    ensures Separate(k, InParallel(t.node, t.id, t.depth, t.kids[i := kid]))
  {
    var kids := t.kids[i := kid];
    forall j | 0 <= j < |kids|
      ensures Separate(k, kids[j]) && Inside(k, kids[j], t.node)
    {
      assert Separate(k, t.kids[j]) && Inside(k, t.kids[j], t.node);
    }
    forall j | 0 <= j < |kids|
      ensures MayHold(k, kids[j]) ==> MayHold(k, t.kids[j])
      ensures MayCall(k, kids[j]) ==> MayCall(k, t.kids[j])
    {
    }
  }

  lemma CurSeparate(k: Call, t: Task, t': Task)
    requires IsNested(t) && IsNested(t') && t'.node == t.node && Separate(k, t)
    requires Separate(k, t'.cur) && SameNode(t.cur, t'.cur)
    ensures Separate(k, t')
  {
    NestedSeparate(k, t);
    NestedSeparate(k, t');
  }

  lemma {:induction false} StepSeparate(k: Call, t: Task, s: Run, b: Limits, path: seq<nat>, ev: Event, t': Task, s': Run)
    requires Separate(k, t) && Step(t, s, b, path, ev) == Some((t', s'))
    ensures Separate(k, t') && SameNode(t, t')
    decreases t
  {
    if t.Start? || t.Gated? {
      EntrySeparate(k, t, s, b, path, ev, t', s');
    } else if t.InParallel? {
      if !AllDone(t.kids) {
        StepSeparate(k, t.kids[path[0]], s, b, path[1..], ev, t'.kids[path[0]], s');
        KidSeparate(k, t, path[0], t'.kids[path[0]]);
      }
    } else if IsNested(t) && !t.cur.Done? {
      StepSeparate(k, t.cur, s, b, path, ev, t'.cur, s');
      CurSeparate(k, t, t');
    } else {
      OwnStepSeparate(k, t, s, b, path, ev, t', s');
    }
  }

  lemma OwnStepSeparate(k: Call, t: Task, s: Run, b: Limits, path: seq<nat>, ev: Event, t': Task, s': Run)
    requires !t.Start? && !t.Gated? && !t.InParallel? && !(IsNested(t) && !t.cur.Done?)
    requires Separate(k, t) && Step(t, s, b, path, ev) == Some((t', s'))
    ensures Separate(k, t') && SameNode(t, t')
  {
    if IsNested(t') {
      assert t'.node == t.node && t'.cur.Start? && ChildOf(t'.cur.node, t.node);
      StartedSeparate(k, t');
    }
  }

  /** A coroutine without calls leaves the counter alone and holds nothing more. */
  lemma {:induction false} NoCalls(k: Call, t: Task, s: Run, b: Limits, path: seq<nat>, ev: Event, t': Task, s': Run)
    requires Separate(k, t) && !MayCall(k, t) && Step(t, s, b, path, ev) == Some((t', s'))
    ensures Count(k, s') + Held(k, t') <= Count(k, s) + Held(k, t)
    decreases t
  {
    if t.InParallel? {
      if !AllDone(t.kids) {
        assert Inside(k, t.kids[path[0]], t.node);
        NoCalls(k, t.kids[path[0]], s, b, path[1..], ev, t'.kids[path[0]], s');
        ParallelHeld(k, t, path[0], t'.kids[path[0]]);
      }
    } else if IsNested(t) && !t.cur.Done? {
      assert Inside(k, t.cur, t.node);
      NoCalls(k, t.cur, s, b, path, ev, t'.cur, s');
    } else if t.Start? {
      BeginNoCalls(k, t, s, b, ev, t', s');
    } else if t.Gated? {
      DispatchNoCalls(k, t.node, t.id, t.depth, s, b, t', s');
    } else if IsNested(t) {
      CollectCounter(k, t, s, b, path, ev, t', s');
    } else {
      AnswerCounter(k, t, s, b, path, ev, t', s');
    }
  }

  lemma BeginNoCalls(k: Call, t: Task, s: Run, b: Limits, ev: Event, t': Task, s': Run)
    requires t.Start? && !Calls(k, false, t.node) && (t', s') == Begin(t.node, t.id, t.depth, s, b, ev)
    ensures Count(k, s') == Count(k, s) && Held(k, t') == 0
  {
    if !t'.Raised? && !t'.Gated? {
      var s1 := s.(depth := if t.depth > s.depth then t.depth else s.depth, depths := s.depths + [t.depth]);
      var s2 := s1.(starts := s1.starts + [ev.now]);
      DispatchNoCalls(k, t.node, t.id, t.depth, s2, b, t', s');
    }
  }

  lemma DispatchNoCalls(k: Call, n: Node, id: string, depth: nat, s: Run, b: Limits, t': Task, s': Run)
    requires !Calls(k, false, n) && (t', s') == Dispatch(n, id, depth, s, b)
    ensures Count(k, s') == Count(k, s) && Held(k, t') == 0
  {
    if t'.InParallel? {
      SumOfZeros(KidsHeld(k, t'.kids), 0);
      assert Held(k, t') == Sum(KidsHeld(k, t'.kids), 0);
    }
  }

  lemma {:induction false} SumHasPositive(xs: seq<nat>, i: nat) returns (j: nat)
    requires i <= |xs| && Sum(xs, i) > 0
    ensures i <= j < |xs| && xs[j] > 0
    decreases |xs| - i
  {
    if xs[i] > 0 { j := i; } else { j := SumHasPositive(xs, i + 1); }
  }

  lemma {:induction false} HeldMayHold(k: Call, t: Task)
    requires Separate(k, t) && Held(k, t) > 0
    ensures MayHold(k, t)
    decreases t
  {
    if t.InParallel? {
      assert Held(k, t) == Sum(KidsHeld(k, t.kids), 0);
      var i := SumHasPositive(KidsHeld(k, t.kids), 0);
      HeldMayHold(k, t.kids[i]);
    } else if IsNested(t) {
      HeldMayHold(k, t.cur);
    }
  }

  lemma HolderAmong(k: Call, t: Task) returns (i: nat)
    requires t.InParallel? && Separate(k, t) && Held(k, t) > 0
    ensures i < |t.kids| && Held(k, t.kids[i]) > 0 && !AllDone(t.kids)
    ensures forall j | 0 <= j < |t.kids| && j != i :: !MayCall(k, t.kids[j])
  {
    assert Held(k, t) == Sum(KidsHeld(k, t.kids), 0);
    i := SumHasPositive(KidsHeld(k, t.kids), 0);
    HeldMayHold(k, t.kids[i]);
  }

  /** While a call is held, whatever moves admits no other. */
  lemma {:induction false} HeldStepAdmitsNothing(k: Call, t: Task, s: Run, b: Limits, path: seq<nat>, ev: Event, t': Task, s': Run)
    requires Separate(k, t) && Held(k, t) > 0 && Step(t, s, b, path, ev) == Some((t', s'))
    ensures Count(k, s') + Held(k, t') <= Count(k, s) + Held(k, t)
    decreases t
  {
    if t.InParallel? {
      var i := HolderAmong(k, t);
      var j := path[0];
      if Held(k, t.kids[j]) > 0 {
        HeldStepAdmitsNothing(k, t.kids[j], s, b, path[1..], ev, t'.kids[j], s');
      } else {
        NoCalls(k, t.kids[j], s, b, path[1..], ev, t'.kids[j], s');
      }
      ParallelHeld(k, t, j, t'.kids[j]);
    } else if IsNested(t) {
      HeldStepAdmitsNothing(k, t.cur, s, b, path, ev, t'.cur, s');
    } else {
      AnswerCounter(k, t, s, b, path, ev, t', s');
    }
  }

  lemma {:induction false} ExecuteSeparate(k: Call, t: Task, s: Run, b: Limits, moves: seq<Move>, t': Task, s': Run)
    requires Separate(k, t) && Execute(t, s, b, moves) == Some((t', s'))
    requires Limit(k, b).Some? && Count(k, s) + Held(k, t) <= Allowed(Limit(k, b).value)
    ensures Count(k, s') + Held(k, t') <= Allowed(Limit(k, b).value)
    decreases |moves|
  {
    if moves != [] {
      var (path, ev) := (moves[0].path, moves[0].ev);
      var (t1, s1) := Step(t, s, b, path, ev).value;
      StepCounter(k, t, s, b, path, ev, t1, s1);
      if Held(k, t) > 0 { HeldStepAdmitsNothing(k, t, s, b, path, ev, t1, s1); }
      StepSeparate(k, t, s, b, path, ev, t1, s1);
      ExecuteSeparate(k, t1, s1, b, moves[1..], t', s');
    }
  }

  /** Where no call can be held while another is made, no interleaving exceeds the limit. */
  lemma SeparateLimitExact(k: Call, n: Node, runId: string, b: Limits, moves: seq<Move>, t': Task, s': Run)
    requires !Overlaps(k, n) && Limit(k, b).Some?
    requires Execute(Root(n), NewRun(runId), b, moves) == Some((t', s'))
    ensures Count(k, s') <= Allowed(Limit(k, b).value)
  {
    ExecuteSeparate(k, Root(n), NewRun(runId), b, moves, t', s');
  }

  // ----- two shapes of graph

  lemma {:induction false} UngatedHoldsNothing(n: Node)
    requires Fits(NoneGated, n)
    ensures !Holds(Tools, false, n) && !Overlaps(Tools, n)
  {
    match n
    case Sequential(_, children) =>
      forall i | 0 <= i < |children| ensures !Holds(Tools, false, children[i]) && !Overlaps(Tools, children[i]) {
        UngatedHoldsNothing(children[i]);
      }
    case Parallel(_, children) =>
      forall i | 0 <= i < |children| ensures !Holds(Tools, false, children[i]) && !Overlaps(Tools, children[i]) {
        UngatedHoldsNothing(children[i]);
      }
    case FanIn(_, children) =>
      forall i | 0 <= i < |children| ensures !Holds(Tools, false, children[i]) && !Overlaps(Tools, children[i]) {
        UngatedHoldsNothing(children[i]);
      }
    case Conditional(_, _, ifTrue, ifFalse) =>
      UngatedHoldsNothing(ifTrue);
      if ifFalse.Some? { UngatedHoldsNothing(ifFalse.value); }
    case Loop(_, _, _, body) => UngatedHoldsNothing(body);
    case Subgraph(_, graph) => UngatedHoldsNothing(graph);
    case _ =>
  }

  lemma {:induction false} StraightNeverOverlaps(k: Call, n: Node)
    requires Fits(Straight, n)
    ensures !Overlaps(k, n)
  {
    match n
    case Sequential(_, children) =>
      forall i | 0 <= i < |children| ensures !Overlaps(k, children[i]) {
        StraightNeverOverlaps(k, children[i]);
      }
    case Conditional(_, _, ifTrue, ifFalse) =>
      StraightNeverOverlaps(k, ifTrue);
      if ifFalse.Some? { StraightNeverOverlaps(k, ifFalse.value); }
    case Loop(_, _, _, body) => StraightNeverOverlaps(k, body);
    case Subgraph(_, graph) => StraightNeverOverlaps(k, graph);
    case _ =>
  }

  /** With no approval-gated tool call, no interleaving schedules more tool activities than `max_tool_calls`. */
  lemma UngatedLimitExact(n: Node, runId: string, b: Limits, moves: seq<Move>, t': Task, s': Run)
    requires Fits(NoneGated, n) && b.maxToolCalls.Some?
    requires Execute(Root(n), NewRun(runId), b, moves) == Some((t', s'))
    ensures s'.toolCalls == |s'.tools| <= Allowed(b.maxToolCalls.value)
  {
    EveryRunFaithful(n, runId, b, moves, t', s');
    UngatedHoldsNothing(n);
    SeparateLimitExact(Tools, n, runId, b, moves, t', s');
  }

  /** A graph that runs nothing concurrently keeps both call limits exactly, gated or not. */
  lemma StraightLimitExact(k: Call, n: Node, runId: string, b: Limits, moves: seq<Move>, t': Task, s': Run)
    requires Fits(Straight, n) && Limit(k, b).Some?
    requires Execute(Root(n), NewRun(runId), b, moves) == Some((t', s'))
    ensures Count(k, s') <= Allowed(Limit(k, b).value)
  {
    StraightNeverOverlaps(k, n);
    SeparateLimitExact(k, n, runId, b, moves, t', s');
  }
}
