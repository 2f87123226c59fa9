/** The order in which the event loop runs the coroutines of a graph.

    `gather` queues its children in list order, and the loop takes what is queued first: all children run to their first
    suspension, and the children these open in turn follow after them, before any of them can be answered. */
module GraphOrder {
  import opened Json
  import opened GraphRun
  import opened GraphBudget

  // ----- places in a tree of coroutines

  predicate LexBefore(p: seq<nat>, q: seq<nat>)
    requires |p| == |q|
  {
    p != [] && (p[0] < q[0] || (p[0] == q[0] && LexBefore(p[1..], q[1..])))
  }

  /** p is queued before q: opened by fewer gathers, or by as many and earlier in their lists. */
  predicate Before(p: seq<nat>, q: seq<nat>) {
    |p| < |q| || (|p| == |q| && LexBefore(p, q))
  }

  lemma {:induction false} LexTotal(p: seq<nat>, q: seq<nat>)
    requires |p| == |q|
    ensures p == q || LexBefore(p, q) || LexBefore(q, p)
    ensures !LexBefore(p, p) && !(LexBefore(p, q) && LexBefore(q, p))
    decreases |p|
  {
    if p != [] {
      LexTotal(p[1..], q[1..]);
      assert p == [p[0]] + p[1..] && q == [q[0]] + q[1..];
    }
  }

  lemma {:induction false} LexTransitive(p: seq<nat>, q: seq<nat>, r: seq<nat>)
    requires |p| == |q| == |r| && LexBefore(p, q) && LexBefore(q, r)
    ensures LexBefore(p, r)
    decreases |p|
  {
    if p[0] == q[0] == r[0] {
      LexTransitive(p[1..], q[1..], r[1..]);
    }
  }

  lemma BeforeTotal(p: seq<nat>, q: seq<nat>)
    ensures p == q || Before(p, q) || Before(q, p)
    ensures !Before(p, p) && !(Before(p, q) && Before(q, p))
  {
    LexTotal(p, p);
    if |p| == |q| {
      LexTotal(p, q);
    }
  }

  lemma BeforeTransitive(p: seq<nat>, q: seq<nat>, r: seq<nat>)
    requires Before(p, q) && Before(q, r)
    ensures Before(p, r)
  {
    if |p| == |q| == |r| {
      LexTransitive(p, q, r);
    }
  }

  lemma BeforeUnder(i: nat, p: seq<nat>, q: seq<nat>)
    ensures Before([i] + p, [i] + q) <==> Before(p, q)
  {
    assert ([i] + p)[1..] == p && ([i] + q)[1..] == q;
  }

  // ----- coroutines not yet run

  /** At path, t has a coroutine that the gathers on the way have only queued: it has not suspended since. */
  predicate FreshAt(t: Task, path: seq<nat>) {
    match t
    case Start(_, _, _) => path == []
    case Gated(_, _, _) => path == []
    case InSequence(_, _, _, done, cur) => done == [] && FreshAt(cur, path)
    case InParallel(_, _, _, kids) => path != [] && path[0] < |kids| && FreshAt(kids[path[0]], path[1..])
    case InBranch(_, _, _, cur) => FreshAt(cur, path)
    case InLoop(_, _, _, done, cur) => done == [] && FreshAt(cur, path)
    case InSubgraph(_, _, cur) => FreshAt(cur, path)
    case _ => false
  }

  /** A call of kind k is held at path. */
  predicate HeldAt(k: Call, t: Task, path: seq<nat>) {
    match t
    case ToolApproval(_, _) => k.Tools? && path == []
    case PolicyCheck(_, _) => k.External? && path == []
    case ActivityApproval(_, _, _) => k.External? && path == []
    case InSequence(_, _, _, _, cur) => HeldAt(k, cur, path)
    case InParallel(_, _, _, kids) => path != [] && path[0] < |kids| && HeldAt(k, kids[path[0]], path[1..])
    case InBranch(_, _, _, cur) => HeldAt(k, cur, path)
    case InLoop(_, _, _, _, cur) => HeldAt(k, cur, path)
    case InSubgraph(_, _, cur) => HeldAt(k, cur, path)
    case _ => false
  }

  predicate AwaitsAnswer(t: Task) {
    t.ToolApproval? || t.ToolRunning? || t.PolicyCheck? || t.ActivityApproval? || t.ActivityRunning?
  }

  /** The coroutine at path moves on an answer from outside: a tool's, a policy's, an activity's or an approval. */
  predicate Answers(t: Task, path: seq<nat>) {
    if t.InParallel? then path != [] && path[0] < |t.kids| && Answers(t.kids[path[0]], path[1..])
    else if IsNested(t) then Answers(t.cur, path)
    else AwaitsAnswer(t) && path == []
  }

  // ----- what the loop does

  ghost predicate NothingFresh(t: Task) {
    forall q :: !FreshAt(t, q)
  }

  ghost predicate FirstFresh(t: Task, path: seq<nat>) {
    forall q | FreshAt(t, q) && q != path :: Before(path, q)
  }

  /** A move of the coroutine at path that the event loop can make. In every gather it is inside of, no answer overtakes a
      coroutine that is only queued, and queued coroutines run in the order of the queue. */
  ghost predicate Orderly(t: Task, path: seq<nat>) {
    if t.InParallel? && !AllDone(t.kids) then
      path != [] && path[0] < |t.kids| && Orderly(t.kids[path[0]], path[1..])
      && (Answers(t, path) ==> NothingFresh(t)) && (FreshAt(t, path) ==> FirstFresh(t, path))
    else if IsNested(t) && !t.cur.Done? then Orderly(t.cur, path)
    else path == []
  }

  /** Nothing can move but on an answer. */
  predicate Quiet(t: Task) {
    match t
    case Start(_, _, _) => false
    case Gated(_, _, _) => false
    case InSequence(_, _, _, _, cur) => !cur.Done? && Quiet(cur)
    case InParallel(_, _, _, kids) => !AllDone(kids) && forall i | 0 <= i < |kids| :: Quiet(kids[i])
    case InBranch(_, _, _, cur) => !cur.Done? && Quiet(cur)
    case InLoop(_, _, _, _, cur) => !cur.Done? && Quiet(cur)
    case InSubgraph(_, _, cur) => !cur.Done? && Quiet(cur)
    case _ => true
  }

  /** A move the loop makes when answers come one at a time, none is a failure and the run is not paused: it runs
      whatever it can before it takes the next answer. */
  ghost predicate Prompt(t: Task, m: Move) {
    Orderly(t, m.path) && !m.ev.paused && !m.ev.reply.Fails? && (Answers(t, m.path) ==> Quiet(t))
  }

  /** Every move of a schedule is one the event loop can make. */
  ghost predicate InOrder(t: Task, s: Run, b: Limits, moves: seq<Move>)
    decreases |moves|
  {
    moves == [] ||
    (Orderly(t, moves[0].path) &&
     match Step(t, s, b, moves[0].path, moves[0].ev)
     case None => true
     case Some((t', s')) => InOrder(t', s', b, moves[1..]))
  }

  ghost predicate AllPrompt(t: Task, s: Run, b: Limits, moves: seq<Move>)
    decreases |moves|
  {
    moves == [] ||
    (Prompt(t, moves[0]) &&
     match Step(t, s, b, moves[0].path, moves[0].ev)
     case None => true
     case Some((t', s')) => AllPrompt(t', s', b, moves[1..]))
  }

  lemma {:induction false} PromptIsInOrder(t: Task, s: Run, b: Limits, moves: seq<Move>)
    requires AllPrompt(t, s, b, moves)
    ensures InOrder(t, s, b, moves)
    decreases |moves|
  {
    if moves != [] && Step(t, s, b, moves[0].path, moves[0].ev).Some? {
      var (t1, s1) := Step(t, s, b, moves[0].path, moves[0].ev).value;
      PromptIsInOrder(t1, s1, b, moves[1..]);
    }
  }

  // ----- coroutines of a graph

  function Taken(n: Node, taken: bool): Node
    requires n.Conditional? && (taken || n.ifFalse.Some?)
  {
    if taken then n.ifTrue else n.ifFalse.value
  }

  /** t is a coroutine of node n. */
  predicate Of(t: Task, n: Node) {
    match t
    case Start(m, _, _) => m == n
    case Gated(m, _, _) => m == n
    case ToolApproval(m, _) => m == n && n.ToolCall? && n.approval
    case ToolRunning(m, _, _) => m == n && n.ToolCall?
    case PolicyCheck(m, _) => m == n && n.Activity?
    case ActivityApproval(m, _, _) => m == n && n.Activity?
    case ActivityRunning(m, _, _) => m == n && n.Activity?
    case InSequence(m, _, _, done, cur) => m == n && n.Sequential? && |done| < |n.children| && Of(cur, n.children[|done|])
    case InParallel(m, _, _, kids) =>
      m == n && (n.Parallel? || n.FanIn?) && |kids| == |n.children| && forall i | 0 <= i < |kids| :: Of(kids[i], n.children[i])
    case InBranch(m, _, taken, cur) => m == n && n.Conditional? && (taken || n.ifFalse.Some?) && Of(cur, Taken(n, taken))
    case InLoop(m, _, _, done, cur) => m == n && n.Loop? && |done| < n.maxIterations && Of(cur, n.body)
    case InSubgraph(m, _, cur) => m == n && n.Subgraph? && Of(cur, n.graph)
    case Done(_) => true
    case Raised(_) => true
  }

  lemma DispatchOf(n: Node, id: string, depth: nat, s: Run, b: Limits, t': Task, s': Run)
    requires (t', s') == Dispatch(n, id, depth, s, b)
    ensures Of(t', n)
  {
  }

  lemma EntryOf(t: Task, n: Node, s: Run, b: Limits, path: seq<nat>, ev: Event, t': Task, s': Run)
    requires (t.Start? || t.Gated?) && Of(t, n) && Step(t, s, b, path, ev) == Some((t', s'))
    ensures Of(t', n)
  {
    if t.Gated? {
      DispatchOf(n, t.id, t.depth, s, b, t', s');
    } else if !t'.Raised? && !t'.Gated? {
      DispatchOf(n, t.id, t.depth, AfterEntry(s, t.depth, ev.now), b, t', s');
    }
  }

  /** The run once a node got past its entry checks. */
  function AfterEntry(s: Run, depth: nat, now: int): Run {
    s.(depth := if depth > s.depth then depth else s.depth, depths := s.depths + [depth], starts := s.starts + [now])
  }

  lemma OwnStepOf(t: Task, n: Node, s: Run, b: Limits, path: seq<nat>, ev: Event, t': Task, s': Run)
    requires !t.Start? && !t.Gated? && !(t.InParallel? && !AllDone(t.kids)) && !(IsNested(t) && !t.cur.Done?)
    requires Of(t, n) && Step(t, s, b, path, ev) == Some((t', s'))
    ensures Of(t', n)
  {
  }

  lemma {:induction false} StepOf(t: Task, n: Node, s: Run, b: Limits, path: seq<nat>, ev: Event, t': Task, s': Run)
    requires Of(t, n) && Step(t, s, b, path, ev) == Some((t', s'))
    ensures Of(t', n)
    decreases t
  {
    if t.Start? || t.Gated? {
      EntryOf(t, n, s, b, path, ev, t', s');
    } else if t.InParallel? && !AllDone(t.kids) {
      StepOf(t.kids[path[0]], n.children[path[0]], s, b, path[1..], ev, t'.kids[path[0]], s');
    } else if IsNested(t) && !t.cur.Done? {
      StepOf(t.cur, Inner(t, n), s, b, path, ev, t'.cur, s');
    } else {
      OwnStepOf(t, n, s, b, path, ev, t', s');
    }
  }

  /** The node the coroutine inside t belongs to. */
  function Inner(t: Task, n: Node): Node
    requires IsNested(t) && Of(t, n)
  {
    match t
    case InSequence(_, _, _, done, _) => n.children[|done|]
    case InBranch(_, _, taken, _) => Taken(n, taken)
    case InLoop(_, _, _, _, _) => n.body
    case InSubgraph(_, _, _) => n.graph
  }

  // ----- the wave a gather sets off

  /** Nothing in t was answered yet. */
  predicate Unanswered(t: Task) {
    match t
    case Start(_, _, _) => true
    case Gated(_, _, _) => true
    case ToolApproval(_, _) => true
    case ToolRunning(n, _, _) => n.ToolCall? && !n.approval
    case PolicyCheck(_, _) => true
    case InSequence(_, _, _, done, cur) => done == [] && Unanswered(cur)
    case InParallel(_, _, _, kids) => forall i | 0 <= i < |kids| :: Unanswered(kids[i])
    case InBranch(_, _, _, cur) => Unanswered(cur)
    case InLoop(_, _, _, done, cur) => done == [] && Unanswered(cur)
    case InSubgraph(_, _, cur) => Unanswered(cur)
    case Raised(_) => true
    case _ => false
  }

  /** No node of n completes without awaiting anything: nothing is empty, and conditionals have two branches. */
  predicate AlwaysAwaits(n: Node) {
    match n
    case Sequential(_, children) => children != [] && forall i | 0 <= i < |children| :: AlwaysAwaits(children[i])
    case Parallel(_, children) => children != [] && forall i | 0 <= i < |children| :: AlwaysAwaits(children[i])
    case FanIn(_, children) => children != [] && forall i | 0 <= i < |children| :: AlwaysAwaits(children[i])
    case Conditional(_, _, ifTrue, ifFalse) => AlwaysAwaits(ifTrue) && ifFalse.Some? && AlwaysAwaits(ifFalse.value)
    case Loop(_, _, _, body) => AlwaysAwaits(body)
    case Subgraph(_, graph) => AlwaysAwaits(graph)
    case _ => true
  }

  // ----- how a step moves what is fresh and what is held

  /** q is r, or a child that the gather opened at r queued. */
  predicate OpenedAt(r: seq<nat>, q: seq<nat>) {
    q == r || (|q| == |r| + 1 && q[..|r|] == r)
  }

  /** Only the coroutine at r moved: it stays, opens a gather or comes to hold a call, and one that holds a call is not
      fresh. */
  ghost predicate MovedAt(k: Call, t: Task, t': Task, r: seq<nat>) {
    (forall q | FreshAt(t', q) :: (FreshAt(t, q) && q != r) || (FreshAt(t, r) && OpenedAt(r, q)))
    && (forall p | HeldAt(k, t', p) :: HeldAt(k, t, p) || p == r)
    && (HeldAt(k, t', r) ==> forall q | FreshAt(t', q) :: FreshAt(t, q) && q != r)
  }

  lemma NothingMoves(k: Call, t: Task, t': Task, r: seq<nat>)
    requires t'.Done? || t'.Raised?
    ensures MovedAt(k, t, t', r)
  {
  }

  lemma StartedInside(k: Call, t: Task, q: seq<nat>)
    requires IsNested(t) && t.cur.Start?
    ensures !HeldAt(k, t, q) && (FreshAt(t, q) ==> q == [])
  {
    assert !HeldAt(k, t.cur, q) && (FreshAt(t.cur, q) ==> q == []);
  }

  lemma QueuedInside(k: Call, t: Task, q: seq<nat>)
    requires t.InParallel? && forall i | 0 <= i < |t.kids| :: t.kids[i].Start?
    ensures !HeldAt(k, t, q) && (FreshAt(t, q) ==> OpenedAt([], q))
  {
    if q != [] && q[0] < |t.kids| {
      var kid := t.kids[q[0]];
      assert kid.Start?;
      assert !HeldAt(k, kid, q[1..]) && (FreshAt(kid, q[1..]) ==> q[1..] == []);
      assert q == [q[0]] + q[1..];
      assert q[..0] == [];
    }
  }

  lemma EntryMoves(k: Call, t: Task, s: Run, b: Limits, ev: Event, t': Task, s': Run)
    requires (t.Start? || t.Gated?) && Step(t, s, b, [], ev) == Some((t', s'))
    ensures MovedAt(k, t, t', [])
  {
    if t'.InParallel? {
      forall q ensures !HeldAt(k, t', q) && (FreshAt(t', q) ==> OpenedAt([], q)) {
        assert forall i | 0 <= i < |t'.kids| :: t'.kids[i].Start?;
        QueuedInside(k, t', q);
      }
    } else if IsNested(t') {
      assert t'.cur.Start?;
      forall q ensures !HeldAt(k, t', q) && (FreshAt(t', q) ==> q == []) {
        StartedInside(k, t', q);
      }
    }
  }

  lemma OwnStepMoves(k: Call, t: Task, s: Run, b: Limits, ev: Event, t': Task, s': Run)
    requires !t.Start? && !t.Gated? && !(t.InParallel? && !AllDone(t.kids)) && !(IsNested(t) && !t.cur.Done?)
    requires Step(t, s, b, [], ev) == Some((t', s'))
    ensures MovedAt(k, t, t', [])
  {
    if IsNested(t') {
      assert t'.cur.Start? && (t'.InSequence? || t'.InLoop?) && t'.done != [];
    }
  }

  lemma KidMovedAt(k: Call, t: Task, i: nat, kid: Task, r: seq<nat>)
    requires t.InParallel? && i < |t.kids| && MovedAt(k, t.kids[i], kid, r)
    ensures MovedAt(k, t, InParallel(t.node, t.id, t.depth, t.kids[i := kid]), [i] + r)
  {
    var t' := InParallel(t.node, t.id, t.depth, t.kids[i := kid]);
    var path := [i] + r;
    assert path[1..] == r;
    forall q | FreshAt(t', q)
      ensures (FreshAt(t, q) && q != path) || (FreshAt(t, path) && OpenedAt(path, q))
    {
      assert q == [q[0]] + q[1..];
      if q[0] == i && OpenedAt(r, q[1..]) && q[1..] != r { assert q[..|path|] == [i] + q[1..][..|r|]; }
    }
    forall p | HeldAt(k, t', p) ensures HeldAt(k, t, p) || p == path {
      assert p == [p[0]] + p[1..];
    }
    if HeldAt(k, t', path) {
      assert HeldAt(k, kid, r);
      forall q | FreshAt(t', q) ensures FreshAt(t, q) && q != path {
        assert q == [q[0]] + q[1..];
        if q[0] == i { assert FreshAt(kid, q[1..]); }
      }
    }
  }

  lemma CurMovedAt(k: Call, t: Task, t': Task, r: seq<nat>)
    requires IsNested(t) && IsNested(t') && MovedAt(k, t.cur, t'.cur, r)
    requires t.InSequence? ==> t' == InSequence(t.node, t.id, t.depth, t.done, t'.cur)
    requires t.InBranch? ==> t' == InBranch(t.node, t.id, t.taken, t'.cur)
    requires t.InLoop? ==> t' == InLoop(t.node, t.id, t.depth, t.done, t'.cur)
    requires t.InSubgraph? ==> t' == InSubgraph(t.node, t.id, t'.cur)
    ensures MovedAt(k, t, t', r)
  {
    forall q
      ensures FreshAt(t', q) ==> FreshAt(t'.cur, q) && (FreshAt(t, q) <==> FreshAt(t.cur, q)) && (FreshAt(t, r) <==> FreshAt(t.cur, r))
      ensures HeldAt(k, t', q) <==> HeldAt(k, t'.cur, q)
      ensures HeldAt(k, t, q) <==> HeldAt(k, t.cur, q)
    {
    }
  }

  lemma {:induction false} StepMoves(k: Call, t: Task, s: Run, b: Limits, path: seq<nat>, ev: Event, t': Task, s': Run)
    requires Orderly(t, path) && Step(t, s, b, path, ev) == Some((t', s'))
    ensures MovedAt(k, t, t', path)
    decreases t
  {
    if t.InParallel? && !AllDone(t.kids) {
      StepMoves(k, t.kids[path[0]], s, b, path[1..], ev, t'.kids[path[0]], s');
      KidMovedAt(k, t, path[0], t'.kids[path[0]], path[1..]);
      assert path == [path[0]] + path[1..];
    } else if IsNested(t) && !t.cur.Done? {
      StepMoves(k, t.cur, s, b, path, ev, t'.cur, s');
      CurMovedAt(k, t, t', path);
    } else if t.Start? || t.Gated? {
      EntryMoves(k, t, s, b, ev, t', s');
    } else {
      OwnStepMoves(k, t, s, b, ev, t', s');
    }
  }

  /** In a wave, what moves is fresh or is answered. */
  lemma {:induction false} WaveMovers(t: Task, n: Node, path: seq<nat>)
    requires Unanswered(t) && Of(t, n) && AlwaysAwaits(n) && !t.Raised? && Orderly(t, path)
    requires t.InParallel? ==> t.kids != []
    ensures FreshAt(t, path) || Answers(t, path) || StuckAt(t, path)
    decreases t
  {
    if t.InParallel? {
      assert !t.kids[0].Done?;
      var kid, c := t.kids[path[0]], n.children[path[0]];
      if !kid.Raised? { WaveMovers(kid, c, path[1..]); }
    } else if IsNested(t) {
      if !t.cur.Raised? { WaveMovers(t.cur, Inner(t, n), path); }
    }
  }

  /** The coroutine at path has failed. */
  predicate StuckAt(t: Task, path: seq<nat>) {
    if t.InParallel? then path != [] && path[0] < |t.kids| && StuckAt(t.kids[path[0]], path[1..])
    else if IsNested(t) then StuckAt(t.cur, path)
    else t.Raised?
  }
}
