/** What every schedule of a graph run keeps: call counters and their limits, unique step numbers, depth, and
    bounds on the work and the steps a graph can cause. Each claim is proved for one step, then for whole
    schedules. */
module GraphBudget {
  import opened Json
  import opened GraphRun

  // ----- what a node can still cost

  /** Counted in activities scheduled, or in scheduler steps. */
  datatype Unit = Activities | Steps

  /** The sum of xs[i..]. */
  function Sum(xs: seq<nat>, i: nat): nat
    decreases |xs| - i
  {
    if i >= |xs| then 0 else xs[i] + Sum(xs, i + 1)
  }

  function Max(x: nat, y: nat): nat { if x < y then y else x }

  function Times(k: int, x: nat): nat {
    if k <= 0 then 0 else k * x
  }

  /** k counted in steps; structure schedules nothing by itself. */
  function Own(u: Unit, k: nat): nat {
    if u.Steps? then k else 0
  }

  /** The most a node costs from its start: a leaf its activities (a policy check is one), structure the sum
      of its children, the larger of its branches, or `max_iterations` times its body. */
  function Cost(u: Unit, n: Node): nat {
    match n
    case ToolCall(_, _, _, _) => 1 + Own(u, 3)
    case Activity(_, _, _, _, _) => 2 + Own(u, 3)
    case Sequential(_, children) =>
      Sum(seq(|children|, i requires 0 <= i < |children| => Cost(u, children[i]) + Own(u, 1)), 0) + Own(u, 2)
    case Parallel(_, children) =>
      Sum(seq(|children|, i requires 0 <= i < |children| => Cost(u, children[i])), 0) + Own(u, 3)
    case FanIn(_, children) =>
      Sum(seq(|children|, i requires 0 <= i < |children| => Cost(u, children[i])), 0) + Own(u, 3)
    case Conditional(_, _, ifTrue, ifFalse) =>
      Max(Cost(u, ifTrue), if ifFalse.Some? then Cost(u, ifFalse.value) else 0) + Own(u, 3)
    case Loop(_, maxIterations, _, body) =>
      Times(maxIterations, Cost(u, body) + Own(u, 1)) + Own(u, 2)
    case Subgraph(_, graph) => Cost(u, graph) + Own(u, 3)
    case Unknown(_) => Own(u, 2)
  }

  function SequenceCosts(u: Unit, children: seq<Node>): seq<nat> {
    seq(|children|, i requires 0 <= i < |children| => Cost(u, children[i]) + Own(u, 1))
  }

  function GatherCosts(u: Unit, children: seq<Node>): seq<nat> {
    seq(|children|, i requires 0 <= i < |children| => Cost(u, children[i]))
  }

  /** What a sequence or loop still has to run after the child at hand. */
  function SequenceLeft(u: Unit, n: Node, done: nat): nat {
    if n.Sequential? && done < |n.children| then Sum(SequenceCosts(u, n.children), done + 1) else 0
  }

  function LoopLeft(u: Unit, n: Node, done: nat): nat {
    if n.Loop? then Times(n.maxIterations - done - 1, Cost(u, n.body) + Own(u, 1)) else 0
  }

  /** The most a suspended coroutine still costs. */
  function Left(u: Unit, t: Task): nat {
    match t
    case Start(n, _, _) => Cost(u, n)
    case Gated(n, _, _) => if Cost(u, n) >= Own(u, 1) then Cost(u, n) - Own(u, 1) else 0
    case ToolApproval(_, _) => 1 + Own(u, 1)
    case ToolRunning(_, _, _) => Own(u, 1)
    case PolicyCheck(_, _) => 1 + Own(u, 2)
    case ActivityApproval(_, _, _) => 1 + Own(u, 1)
    case ActivityRunning(_, _, _) => Own(u, 1)
    case InSequence(n, _, _, done, cur) => Left(u, cur) + Own(u, 1) + SequenceLeft(u, n, |done|)
    case InParallel(_, _, _, kids) =>
      Sum(seq(|kids|, i requires 0 <= i < |kids| => Left(u, kids[i])), 0) + Own(u, 1)
    case InBranch(_, _, _, cur) => Left(u, cur) + Own(u, 1)
    case InLoop(n, _, _, done, cur) => Left(u, cur) + Own(u, 1) + LoopLeft(u, n, |done|)
    case InSubgraph(_, _, cur) => Left(u, cur) + Own(u, 1)
    case Done(_) => 0
    case Raised(_) => 0
  }

  function KidsLeft(u: Unit, kids: seq<Task>): seq<nat> {
    seq(|kids|, i requires 0 <= i < |kids| => Left(u, kids[i]))
  }

  function Scheduled(s: Run): nat {
    |s.tools| + |s.activities| + s.policyChecks
  }

  function Spent(u: Unit, s: Run, s': Run): int {
    if u.Steps? then 1 else Scheduled(s') - Scheduled(s)
  }

  // ----- sums

  lemma {:induction false} SumReplaced(xs: seq<nat>, k: nat, x: nat, i: nat)
    requires k < |xs|
    ensures i > k ==> Sum(xs[k := x], i) == Sum(xs, i)
    ensures i <= k ==> Sum(xs[k := x], i) + xs[k] == Sum(xs, i) + x
    decreases |xs| - i
  {
    if i < |xs| { SumReplaced(xs, k, x, i + 1); }
  }

  lemma {:induction false} SumOfZeros(xs: seq<nat>, i: nat)
    requires forall j | 0 <= j < |xs| :: xs[j] == 0
    ensures Sum(xs, i) == 0
    decreases |xs| - i
  {
    if i < |xs| { SumOfZeros(xs, i + 1); }
  }

  // ----- the cost of one step

  lemma CostPositive(u: Unit, n: Node)
    ensures Cost(u, n) >= Own(u, 2)
  {
  }

  lemma ParallelLeft(u: Unit, n: Node, id: string, depth: nat, kids: seq<Task>)
    ensures Left(u, InParallel(n, id, depth, kids)) == Sum(KidsLeft(u, kids), 0) + Own(u, 1)
  {
    assert seq(|kids|, i requires 0 <= i < |kids| => Left(u, kids[i])) == KidsLeft(u, kids);
  }

  lemma GatherLeft(u: Unit, n: Node, id: string, depth: nat)
    requires n.Parallel? || n.FanIn?
    ensures Left(u, InParallel(n, id, depth, StartAll(n.children, depth))) + Own(u, 2) == Cost(u, n)
  {
    ParallelLeft(u, n, id, depth, StartAll(n.children, depth));
    assert KidsLeft(u, StartAll(n.children, depth)) == GatherCosts(u, n.children);
    assert seq(|n.children|, i requires 0 <= i < |n.children| => Cost(u, n.children[i])) == GatherCosts(u, n.children);
  }

  lemma SequenceCost(u: Unit, n: Node)
    requires n.Sequential?
    ensures Cost(u, n) == Sum(SequenceCosts(u, n.children), 0) + Own(u, 2)
    ensures n.children != [] ==>
              Cost(u, n) == Cost(u, n.children[0]) + Own(u, 1) + SequenceLeft(u, n, 0) + Own(u, 2)
  {
    assert seq(|n.children|, i requires 0 <= i < |n.children| => Cost(u, n.children[i]) + Own(u, 1))
           == SequenceCosts(u, n.children);
  }

  lemma SequenceLeftStep(u: Unit, n: Node, done: nat)
    requires n.Sequential? && done + 1 < |n.children|
    ensures SequenceLeft(u, n, done) == Cost(u, n.children[done + 1]) + Own(u, 1) + SequenceLeft(u, n, done + 1)
  {
  }

  lemma TimesStep(k: int, x: nat)
    requires k >= 1
    ensures Times(k, x) == x + Times(k - 1, x)
  {
    assert k * x == x + (k - 1) * x;
  }

  lemma LoopLeftStep(u: Unit, n: Node, done: nat)
    requires n.Loop? && done + 1 < n.maxIterations
    ensures LoopLeft(u, n, done) == Cost(u, n.body) + Own(u, 1) + LoopLeft(u, n, done + 1)
  {
    TimesStep(n.maxIterations - done - 1, Cost(u, n.body) + Own(u, 1));
  }

  lemma LoopCost(u: Unit, n: Node)
    requires n.Loop? && n.maxIterations >= 1
    ensures Cost(u, n) == Cost(u, n.body) + Own(u, 1) + LoopLeft(u, n, 0) + Own(u, 2)
  {
    TimesStep(n.maxIterations, Cost(u, n.body) + Own(u, 1));
  }

  lemma DispatchCost(u: Unit, n: Node, id: string, depth: nat, s: Run, b: Limits, t': Task, s': Run)
    requires (t', s') == Dispatch(n, id, depth, s, b)
    ensures Left(u, t') + Spent(u, s, s') + Own(u, 1) <= Cost(u, n)
  {
    CostPositive(u, n);
    if n.ToolCall? || n.Activity? {
      LeafCost(u, n, id, depth, s, b, t', s');
    } else if t'.Raised? || t'.Done? {
    } else if n.Parallel? || n.FanIn? {
      GatherLeft(u, n, id, depth);
    } else if n.Sequential? {
      SequenceCost(u, n);
      UnfoldedLeft(u, n, t', n.children[0], SequenceLeft(u, n, 0));
    } else if n.Loop? {
      LoopCost(u, n);
      UnfoldedLeft(u, n, t', n.body, LoopLeft(u, n, 0));
    } else {
      WrapperCost(u, n, id, depth, s, b, t', s');
    }
  }

  lemma WrapperCost(u: Unit, n: Node, id: string, depth: nat, s: Run, b: Limits, t': Task, s': Run)
    requires n.Conditional? || n.Subgraph?
    requires (t', s') == Dispatch(n, id, depth, s, b) && !t'.Raised? && !t'.Done?
    ensures Left(u, t') + Spent(u, s, s') + Own(u, 1) <= Cost(u, n)
  {
    UnfoldedLeft(u, n, t', t'.cur.node, 0);
    assert Cost(u, t'.cur.node) + Own(u, 3) <= Cost(u, n);
  }

  lemma LeafCost(u: Unit, n: Node, id: string, depth: nat, s: Run, b: Limits, t': Task, s': Run)
    requires n.ToolCall? || n.Activity?
    requires (t', s') == Dispatch(n, id, depth, s, b)
    ensures Left(u, t') + Spent(u, s, s') + Own(u, 1) <= Cost(u, n)
  {
  }

  lemma UnfoldedLeft(u: Unit, n: Node, t': Task, first: Node, rest: nat)
    requires match t'
             case InSequence(m, _, _, done, cur) => rest == SequenceLeft(u, m, |done|)
             case InLoop(m, _, _, done, cur) => rest == LoopLeft(u, m, |done|)
             case InBranch(_, _, _, _) => rest == 0
             case InSubgraph(_, _, _) => rest == 0
             case _ => false
    requires t'.cur.Start? && t'.cur.node == first
    ensures Left(u, t') == Cost(u, first) + Own(u, 1) + rest
  {
    assert Left(u, t'.cur) == Cost(u, first);
  }

  lemma BeginCost(u: Unit, n: Node, id: string, depth: nat, s: Run, b: Limits, ev: Event, t': Task, s': Run)
    requires (t', s') == Begin(n, id, depth, s, b, ev)
    ensures Left(u, t') + Spent(u, s, s') <= Cost(u, n)
  {
    CostPositive(u, n);
    if (t'.Raised? && Scheduled(s') == Scheduled(s)) || (t'.Gated? && ev.paused) {
    } else {
      var s1 := s.(depth := if depth > s.depth then depth else s.depth, depths := s.depths + [depth]);
      var s2 := s1.(starts := s1.starts + [ev.now]);
      DispatchCost(u, n, id, depth, s2, b, t', s');
    }
  }

  lemma CollectSequenceCost(u: Unit, t: Task, s: Run, t': Task, s': Run)
    requires t.InSequence? && t.node.Sequential? && t.cur.Done?
    requires (t', s') == CollectSequence(t.node, t.id, t.depth, t.done + [t.cur.result], s)
    ensures Left(u, t') + Spent(u, s, s') <= Left(u, t)
  {
    if |t.done| + 1 < |t.node.children| { SequenceLeftStep(u, t.node, |t.done|); }
  }

  lemma CollectLoopCost(u: Unit, t: Task, s: Run, t': Task, s': Run)
    requires t.InLoop? && t.node.Loop? && t.cur.Done?
    requires (t', s') == CollectLoop(t.node, t.id, t.depth, t.done + [t.cur.result], s)
    ensures Left(u, t') + Spent(u, s, s') <= Left(u, t)
  {
    if |t.done| + 1 < t.node.maxIterations { LoopLeftStep(u, t.node, |t.done|); }
  }

  lemma ParallelCost(u: Unit, t: Task, i: nat, kid: Task)
    requires t.InParallel? && i < |t.kids|
    ensures Left(u, t.(kids := t.kids[i := kid])) + Left(u, t.kids[i]) == Left(u, t) + Left(u, kid)
  {
    ParallelLeft(u, t.node, t.id, t.depth, t.kids);
    ParallelLeft(u, t.node, t.id, t.depth, t.kids[i := kid]);
    assert KidsLeft(u, t.kids[i := kid]) == KidsLeft(u, t.kids)[i := Left(u, kid)];
    SumReplaced(KidsLeft(u, t.kids), i, Left(u, kid), 0);
  }

  lemma AllDoneCost(u: Unit, t: Task)
    requires t.InParallel?
    ensures Left(u, t) >= Own(u, 1)
  {
    ParallelLeft(u, t.node, t.id, t.depth, t.kids);
  }

  /** Every step pays for itself: the activities it schedules, or the step. */
  lemma {:induction false} StepCost(u: Unit, t: Task, s: Run, b: Limits, path: seq<nat>, ev: Event, t': Task, s': Run)
    requires Step(t, s, b, path, ev) == Some((t', s'))
    ensures Left(u, t') + Spent(u, s, s') <= Left(u, t)
    decreases t
  {
    if t.Start? {
      BeginCost(u, t.node, t.id, t.depth, s, b, ev, t', s');
    } else if t.Gated? {
      CostPositive(u, t.node);
      DispatchCost(u, t.node, t.id, t.depth, s, b, t', s');
    } else if t.InParallel? {
      if AllDone(t.kids) {
        AllDoneCost(u, t);
      } else {
        StepCost(u, t.kids[path[0]], s, b, path[1..], ev, t'.kids[path[0]], s');
        ParallelCost(u, t, path[0], t'.kids[path[0]]);
      }
    } else if t.InSequence? || t.InBranch? || t.InLoop? || t.InSubgraph? {
      if t.cur.Done? {
        CollectCost(u, t, s, b, path, ev, t', s');
      } else {
        StepCost(u, t.cur, s, b, path, ev, t'.cur, s');
      }
    } else {
      AnswerCost(u, t, s, b, path, ev, t', s');
    }
  }

  lemma CollectCost(u: Unit, t: Task, s: Run, b: Limits, path: seq<nat>, ev: Event, t': Task, s': Run)
    requires (t.InSequence? || t.InBranch? || t.InLoop? || t.InSubgraph?) && t.cur.Done?
    requires Step(t, s, b, path, ev) == Some((t', s'))
    ensures Left(u, t') + Spent(u, s, s') <= Left(u, t)
  {
    if t.InSequence? {
      CollectSequenceCost(u, t, s, t', s');
    } else if t.InLoop? {
      CollectLoopCost(u, t, s, t', s');
    }
  }

  lemma AnswerCost(u: Unit, t: Task, s: Run, b: Limits, path: seq<nat>, ev: Event, t': Task, s': Run)
    requires t.ToolApproval? || t.ToolRunning? || t.PolicyCheck? || t.ActivityApproval? || t.ActivityRunning?
    requires Step(t, s, b, path, ev) == Some((t', s'))
    ensures Left(u, t') + Spent(u, s, s') <= Left(u, t)
  {
  }

  // ----- calls held between their limit check and their increment

  datatype Call = Tools | External

  function Limit(k: Call, b: Limits): Option<int> {
    if k.Tools? then b.maxToolCalls else b.maxActivityCalls
  }

  function Count(k: Call, s: Run): nat {
    if k.Tools? then s.toolCalls else s.activityCalls
  }

  /** How many calls of kind k are suspended after passing the limit check and before being counted: a tool call
      awaiting approval, an external activity awaiting its policy answer or its approval. */
  function Held(k: Call, t: Task): nat {
    match t
    case ToolApproval(_, _) => if k.Tools? then 1 else 0
    case PolicyCheck(_, _) => if k.External? then 1 else 0
    case ActivityApproval(_, _, _) => if k.External? then 1 else 0
    case InSequence(_, _, _, _, cur) => Held(k, cur)
    case InParallel(_, _, _, kids) => Sum(seq(|kids|, i requires 0 <= i < |kids| => Held(k, kids[i])), 0)
    case InBranch(_, _, _, cur) => Held(k, cur)
    case InLoop(_, _, _, _, cur) => Held(k, cur)
    case InSubgraph(_, _, cur) => Held(k, cur)
    case _ => 0
  }

  function KidsHeld(k: Call, kids: seq<Task>): seq<nat> {
    seq(|kids|, i requires 0 <= i < |kids| => Held(k, kids[i]))
  }

  /** Shapes of graph the limits treat differently: every tool call gated by an approval, none gated, or nothing
      run concurrently. */
  datatype Shape = AllGated | NoneGated | Straight

  predicate Fits(sh: Shape, n: Node) {
    match n
    case ToolCall(_, _, _, approval) => (sh.AllGated? ==> approval) && (sh.NoneGated? ==> !approval)
    case Activity(_, _, _, _, _) => true
    case Sequential(_, children) => forall i | 0 <= i < |children| :: Fits(sh, children[i])
    case Parallel(_, children) => !sh.Straight? && forall i | 0 <= i < |children| :: Fits(sh, children[i])
    case FanIn(_, children) => !sh.Straight? && forall i | 0 <= i < |children| :: Fits(sh, children[i])
    case Conditional(_, _, ifTrue, ifFalse) => Fits(sh, ifTrue) && (ifFalse.Some? ==> Fits(sh, ifFalse.value))
    case Loop(_, _, _, body) => Fits(sh, body)
    case Subgraph(_, graph) => Fits(sh, graph)
    case Unknown(_) => true
  }

  predicate TaskFits(sh: Shape, t: Task) {
    match t
    case ToolApproval(n, _) => Fits(sh, n) && !sh.NoneGated?
    case InSequence(n, _, _, _, cur) => Fits(sh, n) && TaskFits(sh, cur)
    case InParallel(n, _, _, kids) =>
      Fits(sh, n) && !sh.Straight? && forall i | 0 <= i < |kids| :: TaskFits(sh, kids[i])
    case InBranch(n, _, _, cur) => Fits(sh, n) && TaskFits(sh, cur)
    case InLoop(n, _, _, _, cur) => Fits(sh, n) && TaskFits(sh, cur)
    case InSubgraph(n, _, cur) => Fits(sh, n) && TaskFits(sh, cur)
    case Done(_) => true
    case Raised(_) => true
    case _ => Fits(sh, t.node)
  }

  /** Steps stay within the shape. */
  lemma {:induction false} StepFits(sh: Shape, t: Task, s: Run, b: Limits, path: seq<nat>, ev: Event, t': Task, s': Run)
    requires TaskFits(sh, t) && Step(t, s, b, path, ev) == Some((t', s'))
    ensures TaskFits(sh, t')
    decreases t
  {
    if t.Start? || t.Gated? {
      EntryFits(sh, t, s, b, path, ev, t', s');
    } else if t.InParallel? {
      if !AllDone(t.kids) {
        var i := path[0];
        StepFits(sh, t.kids[i], s, b, path[1..], ev, t'.kids[i], s');
        assert forall j | 0 <= j < |t.kids| && j != i :: t'.kids[j] == t.kids[j];
      }
    } else if IsNested(t) && !t.cur.Done? {
      StepFits(sh, t.cur, s, b, path, ev, t'.cur, s');
    } else {
      AnswerFits(sh, t, s, b, path, ev, t', s');
    }
  }

  predicate IsNested(t: Task) {
    t.InSequence? || t.InBranch? || t.InLoop? || t.InSubgraph?
  }

  lemma DispatchFits(sh: Shape, n: Node, id: string, depth: nat, s: Run, b: Limits, t': Task, s': Run)
    requires Fits(sh, n) && (t', s') == Dispatch(n, id, depth, s, b)
    ensures TaskFits(sh, t')
  {
    if t'.InParallel? {
      forall i | 0 <= i < |t'.kids| ensures TaskFits(sh, t'.kids[i]) { assert t'.kids[i].node == n.children[i]; }
    } else if IsNested(t') {
      assert t'.cur.Start? && Fits(sh, t'.cur.node);
    }
  }

  lemma EntryFits(sh: Shape, t: Task, s: Run, b: Limits, path: seq<nat>, ev: Event, t': Task, s': Run)
    requires t.Start? || t.Gated?
    requires TaskFits(sh, t) && Step(t, s, b, path, ev) == Some((t', s'))
    ensures TaskFits(sh, t')
  {
    if t.Gated? {
      DispatchFits(sh, t.node, t.id, t.depth, s, b, t', s');
    } else if !t'.Raised? && !t'.Gated? {
      var s1 := s.(depth := if t.depth > s.depth then t.depth else s.depth, depths := s.depths + [t.depth]);
      var s2 := s1.(starts := s1.starts + [ev.now]);
      DispatchFits(sh, t.node, t.id, t.depth, s2, b, t', s');
    }
  }

  lemma AnswerFits(sh: Shape, t: Task, s: Run, b: Limits, path: seq<nat>, ev: Event, t': Task, s': Run)
    requires !t.Start? && !t.Gated? && !t.InParallel? && !(IsNested(t) && !t.cur.Done?)
    requires TaskFits(sh, t) && Step(t, s, b, path, ev) == Some((t', s'))
    ensures TaskFits(sh, t')
  {
    if IsNested(t) && IsNested(t') {
      assert t'.node == t.node && t'.cur.Start? && Fits(sh, t'.cur.node);
    } else if !IsNested(t) {
      assert t'.Done? || t'.Raised? || t'.node == t.node;
    }
  }

  ghost predicate Under(limit: Option<int>, count: nat) {
    limit.Some? ==> count < limit.value
  }

  /** The ways a step moves a count and the number of calls held before it: no call admitted, a call admitted
      under the limit and held, a held call counted, or a call admitted under the limit and counted at once. */
  ghost predicate CounterMove(limit: Option<int>, count: nat, held: nat, count': nat, held': nat, direct: bool) {
    || (count' == count && held' <= held)
    || (count' == count && held' == held + 1 && Under(limit, count))
    || (count' == count + 1 && held' == held - 1)
    || (direct && count' == count + 1 && held' == held && Under(limit, count))
  }

  /** Only an ungated tool call is counted in the same step that admits it. */
  predicate MayCountDirectly(k: Call, t: Task) {
    k.Tools? && !TaskFits(AllGated, t)
  }

  lemma DispatchCounter(k: Call, n: Node, id: string, depth: nat, s: Run, b: Limits, t': Task, s': Run)
    requires (t', s') == Dispatch(n, id, depth, s, b)
    ensures CounterMove(Limit(k, b), Count(k, s), 0, Count(k, s'), Held(k, t'), k.Tools? && !Fits(AllGated, n))
  {
    if n.Parallel? || n.FanIn? {
      SumOfZeros(KidsHeld(k, t'.kids), 0);
      assert Held(k, t') == Sum(KidsHeld(k, t'.kids), 0);
    }
  }

  lemma BeginCounter(k: Call, n: Node, id: string, depth: nat, s: Run, b: Limits, ev: Event, t': Task, s': Run)
    requires (t', s') == Begin(n, id, depth, s, b, ev)
    ensures CounterMove(Limit(k, b), Count(k, s), 0, Count(k, s'), Held(k, t'), k.Tools? && !Fits(AllGated, n))
  {
    if (t'.Raised? && Count(k, s') == Count(k, s)) || (t'.Gated? && ev.paused) {
    } else {
      var s1 := s.(depth := if depth > s.depth then depth else s.depth, depths := s.depths + [depth]);
      var s2 := s1.(starts := s1.starts + [ev.now]);
      DispatchCounter(k, n, id, depth, s2, b, t', s');
    }
  }

  lemma ParallelHeld(k: Call, t: Task, i: nat, kid: Task)
    requires t.InParallel? && i < |t.kids|
    ensures Held(k, t.(kids := t.kids[i := kid])) + Held(k, t.kids[i]) == Held(k, t) + Held(k, kid)
  {
    assert Held(k, t) == Sum(KidsHeld(k, t.kids), 0);
    assert KidsHeld(k, t.kids[i := kid]) == KidsHeld(k, t.kids)[i := Held(k, kid)];
    SumReplaced(KidsHeld(k, t.kids), i, Held(k, kid), 0);
    assert Held(k, t.(kids := t.kids[i := kid])) == Sum(KidsHeld(k, t.kids[i := kid]), 0);
  }

  lemma {:induction false} StepCounter(k: Call, t: Task, s: Run, b: Limits, path: seq<nat>, ev: Event, t': Task, s': Run)
    requires Step(t, s, b, path, ev) == Some((t', s'))
    ensures CounterMove(Limit(k, b), Count(k, s), Held(k, t), Count(k, s'), Held(k, t'), MayCountDirectly(k, t))
    decreases t
  {
    if t.Start? {
      BeginCounter(k, t.node, t.id, t.depth, s, b, ev, t', s');
    } else if t.Gated? {
      DispatchCounter(k, t.node, t.id, t.depth, s, b, t', s');
    } else if t.InParallel? {
      if !AllDone(t.kids) {
        StepCounter(k, t.kids[path[0]], s, b, path[1..], ev, t'.kids[path[0]], s');
        ParallelHeld(k, t, path[0], t'.kids[path[0]]);
        assert MayCountDirectly(k, t.kids[path[0]]) ==> MayCountDirectly(k, t);
      }
    } else if IsNested(t) {
      if t.cur.Done? {
        CollectCounter(k, t, s, b, path, ev, t', s');
      } else {
        StepCounter(k, t.cur, s, b, path, ev, t'.cur, s');
      }
    } else {
      AnswerCounter(k, t, s, b, path, ev, t', s');
    }
  }

  lemma CollectCounter(k: Call, t: Task, s: Run, b: Limits, path: seq<nat>, ev: Event, t': Task, s': Run)
    requires IsNested(t) && t.cur.Done?
    requires Step(t, s, b, path, ev) == Some((t', s'))
    ensures Count(k, s') == Count(k, s) && Held(k, t') == 0
  {
    if t.InSequence? {
      assert t'.InSequence? ==> t'.cur.Start?;
    }
  }

  lemma AnswerCounter(k: Call, t: Task, s: Run, b: Limits, path: seq<nat>, ev: Event, t': Task, s': Run)
    requires !t.Start? && !t.Gated? && !t.InParallel? && !IsNested(t)
    requires Step(t, s, b, path, ev) == Some((t', s'))
    ensures CounterMove(Limit(k, b), Count(k, s), Held(k, t), Count(k, s'), Held(k, t'), false)
  {
  }

  // ----- the run's record of itself

  /** The counters mean what they say: each equals the number of activities scheduled, step numbers count the
      scheduled tool calls 1, 2, 3, ..., `depth` is the greatest depth a node entered at, none beyond the limit,
      and no node got past the deadline check at or after the deadline. */
  ghost predicate Faithful(s: Run, b: Limits) {
    && s.toolCalls == |s.tools| == s.stepSeq
    && (forall i | 0 <= i < |s.tools| :: s.tools[i].stepSeq == i + 1)
    && s.activityCalls == |s.activities|
    && (forall i | 0 <= i < |s.depths| :: s.depths[i] <= s.depth)
    && (s.depth == 0 || exists i :: 0 <= i < |s.depths| && s.depths[i] == s.depth)
    && (b.maxDepth.Some? ==> forall i | 0 <= i < |s.depths| :: s.depths[i] <= b.maxDepth.value)
    && (b.deadline.Some? ==> forall i | 0 <= i < |s.starts| :: s.starts[i] < b.deadline.value)
  }

  lemma DispatchFaithful(n: Node, id: string, depth: nat, s: Run, b: Limits, t': Task, s': Run)
    requires Faithful(s, b) && (t', s') == Dispatch(n, id, depth, s, b)
    ensures Faithful(s', b)
  {
    assert s'.depths == s.depths;
  }

  lemma BeginFaithful(n: Node, id: string, depth: nat, s: Run, b: Limits, ev: Event, t': Task, s': Run)
    requires Faithful(s, b) && (t', s') == Begin(n, id, depth, s, b, ev)
    ensures Faithful(s', b)
  {
    if id != "" && !(b.maxDepth.Some? && depth > b.maxDepth.value) {
      var s1 := s.(depth := if depth > s.depth then depth else s.depth, depths := s.depths + [depth]);
      if depth > s.depth {
        assert s1.depths[|s.depths|] == s1.depth;
      } else if s.depth != 0 {
        var i :| 0 <= i < |s.depths| && s.depths[i] == s.depth;
        assert s1.depths[i] == s1.depth;
      }
      assert Faithful(s1, b);
      if !(b.deadline.Some? && ev.now >= b.deadline.value) {
        var s2 := s1.(starts := s1.starts + [ev.now]);
        assert Faithful(s2, b);
        var (t2, s3) := Dispatch(n, id, depth, s2, b);
        DispatchFaithful(n, id, depth, s2, b, t2, s3);
      }
    }
  }

  lemma {:induction false} StepFaithful(t: Task, s: Run, b: Limits, path: seq<nat>, ev: Event, t': Task, s': Run)
    requires Faithful(s, b) && Step(t, s, b, path, ev) == Some((t', s'))
    ensures Faithful(s', b)
    decreases t
  {
    if t.Start? {
      BeginFaithful(t.node, t.id, t.depth, s, b, ev, t', s');
    } else if t.Gated? {
      DispatchFaithful(t.node, t.id, t.depth, s, b, t', s');
    } else if t.InParallel? {
      if !AllDone(t.kids) {
        StepFaithful(t.kids[path[0]], s, b, path[1..], ev, t'.kids[path[0]], s');
      } else {
        SameRecord(s, b, s');
      }
    } else if IsNested(t) && !t.cur.Done? {
      StepFaithful(t.cur, s, b, path, ev, t'.cur, s');
    } else {
      AnswerFaithful(t, s, b, path, ev, t', s');
    }
  }

  lemma SameRecord(s: Run, b: Limits, s': Run)
    requires Faithful(s, b) && s' == s.(context := s'.context)
    ensures Faithful(s', b)
  {
  }

  lemma AnswerFaithful(t: Task, s: Run, b: Limits, path: seq<nat>, ev: Event, t': Task, s': Run)
    requires !t.Start? && !t.Gated? && !t.InParallel? && !(IsNested(t) && !t.cur.Done?)
    requires Faithful(s, b) && Step(t, s, b, path, ev) == Some((t', s'))
    ensures Faithful(s', b)
  {
    if s'.toolCalls == s.toolCalls && s'.activityCalls == s.activityCalls {
      SameRecord(s, b, s');
    } else {
      assert s'.depths == s.depths && s'.starts == s.starts;
    }
  }
}
