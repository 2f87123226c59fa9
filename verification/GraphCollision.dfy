/** Which graphs keep their call limits under the event loop: those in which no call is made while another is held, given
    the order in which a gather's children start. */
module GraphCollision {
  import opened Json
  import opened GraphRun
  import opened GraphBudget
  import opened GraphSafety
  import opened GraphOverlap
  import opened GraphOrder

  // ----- where calls are in a graph

  /** n makes a call of kind k before it awaits anything, at path: the places of the gathers that lead there. */
  predicate FrontCall(k: Call, sure: bool, n: Node, path: seq<nat>) {
    match n
    case ToolCall(_, _, _, _) => k.Tools? && path == []
    case Activity(_, _, _, _, _) => k.External? && path == []
    case Sequential(_, children) => children != [] && FrontCall(k, sure, children[0], path)
    case Parallel(_, children) => path != [] && path[0] < |children| && FrontCall(k, sure, children[path[0]], path[1..])
    case FanIn(_, children) => path != [] && path[0] < |children| && FrontCall(k, sure, children[path[0]], path[1..])
    case Conditional(_, _, ifTrue, ifFalse) =>
      !sure && (FrontCall(k, sure, ifTrue, path) || (ifFalse.Some? && FrontCall(k, sure, ifFalse.value, path)))
    case Loop(_, _, _, body) => FrontCall(k, sure, body, path)
    case Subgraph(_, graph) => FrontCall(k, sure, graph, path)
    case Unknown(_) => false
  }

  /** The same for a call that is held between its limit check and its increment. */
  predicate FrontHold(k: Call, sure: bool, n: Node, path: seq<nat>) {
    match n
    case ToolCall(_, _, _, approval) => k.Tools? && approval && path == []
    case Activity(_, _, _, _, _) => k.External? && path == []
    case Sequential(_, children) => children != [] && FrontHold(k, sure, children[0], path)
    case Parallel(_, children) => path != [] && path[0] < |children| && FrontHold(k, sure, children[path[0]], path[1..])
    case FanIn(_, children) => path != [] && path[0] < |children| && FrontHold(k, sure, children[path[0]], path[1..])
    case Conditional(_, _, ifTrue, ifFalse) =>
      !sure && (FrontHold(k, sure, ifTrue, path) || (ifFalse.Some? && FrontHold(k, sure, ifFalse.value, path)))
    case Loop(_, _, _, body) => FrontHold(k, sure, body, path)
    case Subgraph(_, graph) => FrontHold(k, sure, graph, path)
    case Unknown(_) => false
  }

  /** n makes a call of kind k after it awaited something. */
  predicate LateCall(k: Call, sure: bool, n: Node) {
    match n
    case Sequential(_, children) =>
      (children != [] && LateCall(k, sure, children[0])) || exists m :: 1 <= m < |children| && Calls(k, sure, children[m])
    case Parallel(_, children) => exists i :: 0 <= i < |children| && LateCall(k, sure, children[i])
    case FanIn(_, children) => exists i :: 0 <= i < |children| && LateCall(k, sure, children[i])
    case Conditional(_, _, ifTrue, ifFalse) =>
      !sure && (LateCall(k, sure, ifTrue) || (ifFalse.Some? && LateCall(k, sure, ifFalse.value)))
    case Loop(_, maxIterations, stop, body) =>
      LateCall(k, sure, body) || (maxIterations >= 2 && (sure ==> stop.None?) && Calls(k, sure, body))
    case Subgraph(_, graph) => LateCall(k, sure, graph)
    case _ => false
  }

  /** In the wave n sets off, a call comes to be held before another one is made. */
  ghost predicate FrontPair(k: Call, sure: bool, n: Node) {
    exists p, q :: FrontHold(k, sure, n, p) && FrontCall(k, sure, n, q) && Before(p, q)
  }

  /** One child holds a call, at any time, and another makes one after it awaited something. */
  predicate LatePair(k: Call, sure: bool, children: seq<Node>) {
    exists i, j :: 0 <= i < |children| && 0 <= j < |children| && i != j
                   && Holds(k, sure, children[i]) && LateCall(k, sure, children[j])
  }

  /** In some gather of n, a call can be made while another one is held. */
  ghost predicate Collides(k: Call, sure: bool, n: Node) {
    match n
    case Sequential(_, children) => exists i :: 0 <= i < |children| && Collides(k, sure, children[i])
    case Parallel(_, children) =>
      FrontPair(k, sure, n) || LatePair(k, sure, children) || exists i :: 0 <= i < |children| && Collides(k, sure, children[i])
    case FanIn(_, children) =>
      FrontPair(k, sure, n) || LatePair(k, sure, children) || exists i :: 0 <= i < |children| && Collides(k, sure, children[i])
    case Conditional(_, _, ifTrue, ifFalse) =>
      !sure && (Collides(k, sure, ifTrue) || (ifFalse.Some? && Collides(k, sure, ifFalse.value)))
    case Loop(_, _, _, body) => Collides(k, sure, body)
    case Subgraph(_, graph) => Collides(k, sure, graph)
    case _ => false
  }

  // ----- what every state under the event loop keeps

  /** While some coroutine of the gather t is fresh, nothing in it was answered, and each held call precedes each fresh
      coroutine. */
  ghost predicate HeldFirst(k: Call, t: Task) {
    forall q | FreshAt(t, q) :: Unanswered(t) && forall p | HeldAt(k, t, p) :: Before(p, q)
  }

  ghost predicate Waves(k: Call, t: Task) {
    match t
    case InSequence(_, _, _, _, cur) => Waves(k, cur)
    case InParallel(_, _, _, kids) => HeldFirst(k, t) && forall i | 0 <= i < |kids| :: Waves(k, kids[i])
    case InBranch(_, _, _, cur) => Waves(k, cur)
    case InLoop(_, _, _, _, cur) => Waves(k, cur)
    case InSubgraph(_, _, cur) => Waves(k, cur)
    case _ => true
  }

  lemma HeldStaysFirst(k: Call, t: Task, t': Task, r: seq<nat>)
    requires MovedAt(k, t, t', r) && FreshAt(t, r) && FirstFresh(t, r)
    requires forall p, q | HeldAt(k, t, p) && FreshAt(t, q) :: Before(p, q)
    ensures forall p, q | HeldAt(k, t', p) && FreshAt(t', q) :: Before(p, q)
  {
    forall p, q | HeldAt(k, t', p) && FreshAt(t', q) ensures Before(p, q) {
      if HeldAt(k, t, p) {
        assert Before(p, r);
        if !FreshAt(t, q) { assert OpenedAt(r, q); }
      } else {
        assert p == r;
      }
    }
  }

  lemma {:induction false} WaveGoesOn(t: Task, n: Node, s: Run, b: Limits, path: seq<nat>, ev: Event, t': Task, s': Run)
    requires Unanswered(t) && Of(t, n) && AlwaysAwaits(n) && FreshAt(t, path) && Step(t, s, b, path, ev) == Some((t', s'))
    ensures Unanswered(t')
    decreases t
  {
    if t.InParallel? {
      assert !t.kids[path[0]].Done?;
      WaveGoesOn(t.kids[path[0]], n.children[path[0]], s, b, path[1..], ev, t'.kids[path[0]], s');
    } else if IsNested(t) {
      WaveGoesOn(t.cur, Inner(t, n), s, b, path, ev, t'.cur, s');
    } else {
      EntrySetsOffWave(t, n, s, b, path, ev, t', s');
    }
  }

  lemma EntrySetsOffWave(t: Task, n: Node, s: Run, b: Limits, path: seq<nat>, ev: Event, t': Task, s': Run)
    requires (t.Start? || t.Gated?) && Of(t, n) && AlwaysAwaits(n) && Step(t, s, b, path, ev) == Some((t', s'))
    ensures Unanswered(t')
  {
    if IsNested(t') {
      assert t'.cur.Start?;
    }
  }

  lemma {:induction false} StuckStays(t: Task, s: Run, b: Limits, path: seq<nat>, ev: Event)
    requires StuckAt(t, path) && !(t.InParallel? && AllDone(t.kids)) && Orderly(t, path)
    ensures Step(t, s, b, path, ev).None?
    decreases t
  {
    if t.InParallel? {
      var kid := t.kids[path[0]];
      if !(kid.InParallel? && AllDone(kid.kids)) { StuckStays(kid, s, b, path[1..], ev); }
    } else if IsNested(t) {
      if !(t.cur.InParallel? && AllDone(t.cur.kids)) && !t.cur.Done? { StuckStays(t.cur, s, b, path, ev); }
    }
  }

  lemma StepKeepsHeldFirst(k: Call, t: Task, n: Node, s: Run, b: Limits, path: seq<nat>, ev: Event, t': Task, s': Run)
    requires t.InParallel? && !AllDone(t.kids) && HeldFirst(k, t) && Of(t, n) && AlwaysAwaits(n)
    requires Orderly(t, path) && Step(t, s, b, path, ev) == Some((t', s'))
    ensures HeldFirst(k, t')
  {
    StepMoves(k, t, s, b, path, ev, t', s');
    if !NothingFresh(t) {
      var q :| FreshAt(t, q);
      assert Unanswered(t);
      WaveMovers(t, n, path);
      if StuckAt(t, path) { StuckStays(t, s, b, path, ev); }
      assert FreshAt(t, path);
      WaveGoesOn(t, n, s, b, path, ev, t', s');
      HeldStaysFirst(k, t, t', path);
    }
  }

  lemma QueuedKeepsWaves(k: Call, t: Task)
    requires t.InParallel? && forall i | 0 <= i < |t.kids| :: t.kids[i].Start?
    ensures Waves(k, t)
  {
    forall p ensures !HeldAt(k, t, p) { QueuedInside(k, t, p); }
  }

  lemma StartedKeepsWaves(k: Call, t: Task)
    requires IsNested(t) && t.cur.Start?
    ensures Waves(k, t)
  {
  }

  lemma EntryKeepsWaves(k: Call, t: Task, s: Run, b: Limits, path: seq<nat>, ev: Event, t': Task, s': Run)
    requires (t.Start? || t.Gated?) && path == [] && Step(t, s, b, path, ev) == Some((t', s'))
    ensures Waves(k, t')
  {
    if t'.InParallel? {
      assert forall i | 0 <= i < |t'.kids| :: t'.kids[i].Start?;
      QueuedKeepsWaves(k, t');
    } else if IsNested(t') {
      StartedKeepsWaves(k, t');
    }
  }

  lemma OwnStepKeepsWaves(k: Call, t: Task, s: Run, b: Limits, path: seq<nat>, ev: Event, t': Task, s': Run)
    requires !t.Start? && !t.Gated? && !(t.InParallel? && !AllDone(t.kids)) && !(IsNested(t) && !t.cur.Done?)
    requires Step(t, s, b, path, ev) == Some((t', s'))
    ensures Waves(k, t')
  {
    if IsNested(t') {
      assert t'.cur.Start?;
    }
  }

  lemma {:induction false} StepKeepsWaves(k: Call, t: Task, n: Node, s: Run, b: Limits, path: seq<nat>, ev: Event, t': Task, s': Run)
    requires Waves(k, t) && Of(t, n) && AlwaysAwaits(n) && Orderly(t, path) && Step(t, s, b, path, ev) == Some((t', s'))
    ensures Waves(k, t')
    decreases t
  {
    if t.InParallel? && !AllDone(t.kids) {
      var i := path[0];
      StepKeepsWaves(k, t.kids[i], n.children[i], s, b, path[1..], ev, t'.kids[i], s');
      StepKeepsHeldFirst(k, t, n, s, b, path, ev, t', s');
      assert forall j | 0 <= j < |t.kids| && j != i :: t'.kids[j] == t.kids[j];
    } else if IsNested(t) && !t.cur.Done? {
      StepKeepsWaves(k, t.cur, Inner(t, n), s, b, path, ev, t'.cur, s');
    } else if t.Start? || t.Gated? {
      EntryKeepsWaves(k, t, s, b, path, ev, t', s');
    } else {
      OwnStepKeepsWaves(k, t, s, b, path, ev, t', s');
    }
  }

  // ----- what happens in a coroutine, and what its node says

  lemma {:induction false} HeldIsFront(k: Call, t: Task, n: Node, p: seq<nat>)
    requires Of(t, n) && Unanswered(t) && HeldAt(k, t, p)
    ensures FrontHold(k, false, n, p)
    decreases t
  {
    if t.InParallel? {
      HeldIsFront(k, t.kids[p[0]], n.children[p[0]], p[1..]);
    } else if IsNested(t) {
      HeldIsFront(k, t.cur, Inner(t, n), p);
    }
  }

  lemma {:induction false} HeldIsHolds(k: Call, t: Task, n: Node)
    requires Of(t, n) && Held(k, t) > 0
    ensures Holds(k, false, n)
    decreases t
  {
    if t.InParallel? {
      assert Held(k, t) == Sum(KidsHeld(k, t.kids), 0);
      var i := SumHasPositive(KidsHeld(k, t.kids), 0);
      HeldIsHolds(k, t.kids[i], n.children[i]);
    } else if IsNested(t) {
      HeldIsHolds(k, t.cur, Inner(t, n));
    }
  }

  lemma {:induction false} HeldSomewhere(k: Call, t: Task) returns (p: seq<nat>)
    requires Held(k, t) > 0
    ensures HeldAt(k, t, p)
    decreases t
  {
    if t.InParallel? {
      assert Held(k, t) == Sum(KidsHeld(k, t.kids), 0);
      var i := SumHasPositive(KidsHeld(k, t.kids), 0);
      var q := HeldSomewhere(k, t.kids[i]);
      p := [i] + q;
      assert p[1..] == q;
    } else if IsNested(t) {
      p := HeldSomewhere(k, t.cur);
    } else {
      p := [];
    }
  }

  /** The step admits a call: one more is held or counted. */
  predicate Admission(k: Call, t: Task, s: Run, t': Task, s': Run) {
    Count(k, s') + Held(k, t') > Count(k, s) + Held(k, t)
  }

  /** A call is admitted where the graph makes one: in front by a fresh coroutine, late by any other. */
  lemma {:induction false} AdmittedWhere(k: Call, t: Task, n: Node, s: Run, b: Limits, path: seq<nat>, ev: Event, t': Task, s': Run)
    requires Of(t, n) && Orderly(t, path) && Step(t, s, b, path, ev) == Some((t', s')) && Admission(k, t, s, t', s')
    ensures Calls(k, false, n)
    ensures if FreshAt(t, path) then FrontCall(k, false, n, path) else LateCall(k, false, n)
    decreases t
  {
    if t.InParallel? && !AllDone(t.kids) {
      var i := path[0];
      ParallelHeld(k, t, i, t'.kids[i]);
      AdmittedWhere(k, t.kids[i], n.children[i], s, b, path[1..], ev, t'.kids[i], s');
    } else if IsNested(t) && !t.cur.Done? {
      AdmittedWhere(k, t.cur, Inner(t, n), s, b, path, ev, t'.cur, s');
      AdmittedInside(k, t, n, path);
    } else if t.Start? || t.Gated? {
      EntryAdmits(k, t, s, b, path, ev, t', s');
    } else {
      OwnStepAdmitsNothing(k, t, s, b, path, ev, t', s');
    }
  }

  lemma AdmittedInside(k: Call, t: Task, n: Node, path: seq<nat>)
    requires IsNested(t) && Of(t, n) && Calls(k, false, Inner(t, n))
    requires if FreshAt(t.cur, path) then FrontCall(k, false, Inner(t, n), path) else LateCall(k, false, Inner(t, n))
    ensures Calls(k, false, n)
    ensures if FreshAt(t, path) then FrontCall(k, false, n, path) else LateCall(k, false, n)
  {
    if t.InSequence? && t.done != [] {
      assert 1 <= |t.done| < |n.children|;
    }
  }

  lemma EntryAdmits(k: Call, t: Task, s: Run, b: Limits, path: seq<nat>, ev: Event, t': Task, s': Run)
    requires (t.Start? || t.Gated?) && path == []
    requires Step(t, s, b, path, ev) == Some((t', s')) && Admission(k, t, s, t', s')
    ensures FrontCall(k, false, t.node, []) && Calls(k, false, t.node)
  {
    if !Calls(k, false, t.node) {
      if t.Gated? {
        DispatchNoCalls(k, t.node, t.id, t.depth, s, b, t', s');
      } else {
        BeginNoCalls(k, t, s, b, ev, t', s');
      }
    } else if !t.node.ToolCall? && !t.node.Activity? {
      StructureAdmitsNothing(k, t, s, b, path, ev, t', s');
    }
  }

  lemma QueuedHoldsNothing(k: Call, t: Task)
    requires t.InParallel? && forall i | 0 <= i < |t.kids| :: t.kids[i].Start?
    ensures Held(k, t) == 0
  {
    SumOfZeros(KidsHeld(k, t.kids), 0);
    assert Held(k, t) == Sum(KidsHeld(k, t.kids), 0);
  }

  lemma StructureIsQueued(k: Call, n: Node, id: string, depth: nat, s: Run, b: Limits, t': Task, s': Run)
    requires !n.ToolCall? && !n.Activity? && (t', s') == Dispatch(n, id, depth, s, b)
    ensures Count(k, s') == Count(k, s) && Held(k, t') == 0
  {
    if t'.InParallel? {
      QueuedHoldsNothing(k, t');
    }
  }

  lemma StructureAdmitsNothing(k: Call, t: Task, s: Run, b: Limits, path: seq<nat>, ev: Event, t': Task, s': Run)
    requires (t.Start? || t.Gated?) && !t.node.ToolCall? && !t.node.Activity?
    requires Step(t, s, b, path, ev) == Some((t', s'))
    ensures !Admission(k, t, s, t', s')
  {
    if t.Gated? {
      StructureIsQueued(k, t.node, t.id, t.depth, s, b, t', s');
    } else if !t'.Raised? && !t'.Gated? {
      StructureIsQueued(k, t.node, t.id, t.depth, AfterEntry(s, t.depth, ev.now), b, t', s');
    }
  }

  lemma OwnStepAdmitsNothing(k: Call, t: Task, s: Run, b: Limits, path: seq<nat>, ev: Event, t': Task, s': Run)
    requires !t.Start? && !t.Gated? && !(t.InParallel? && !AllDone(t.kids)) && !(IsNested(t) && !t.cur.Done?)
    requires Step(t, s, b, path, ev) == Some((t', s'))
    ensures !Admission(k, t, s, t', s')
  {
    if IsNested(t) {
      CollectCounter(k, t, s, b, path, ev, t', s');
    } else if !t.InParallel? {
      AnswerCounter(k, t, s, b, path, ev, t', s');
    }
  }

  // ----- graphs that do not collide

  /** A kid holds a call and another one admits one: the two collide. */
  lemma KidsCollide(k: Call, t: Task, n: Node, i: nat, s: Run, b: Limits, path: seq<nat>, ev: Event, t': Task, s': Run)
    requires t.InParallel? && !AllDone(t.kids) && HeldFirst(k, t) && Of(t, n) && Orderly(t, path)
    requires i < |t.kids| && i != path[0] && Held(k, t.kids[i]) > 0
    requires Step(t, s, b, path, ev) == Some((t', s')) && Admission(k, t.kids[path[0]], s, t'.kids[path[0]], s')
    ensures Collides(k, false, n)
  {
    var j := path[0];
    AdmittedWhere(k, t.kids[j], n.children[j], s, b, path[1..], ev, t'.kids[j], s');
    if FreshAt(t, path) {
      var p := HeldSomewhere(k, t.kids[i]);
      var q := [i] + p;
      assert q[1..] == p && HeldAt(k, t, q);
      HeldIsFront(k, t, n, q);
      assert FrontHold(k, false, n, q) && FrontCall(k, false, n, path) && Before(q, path);
    } else {
      HeldIsHolds(k, t.kids[i], n.children[i]);
      assert LatePair(k, false, n.children);
    }
  }

  /** Where nothing collides, whatever moves while a call is held admits no other. */
  lemma {:induction false} HeldAdmitsNothing(k: Call, t: Task, n: Node, s: Run, b: Limits, path: seq<nat>, ev: Event, t': Task, s': Run)
    requires Waves(k, t) && Of(t, n) && !Collides(k, false, n) && Held(k, t) > 0
    requires Orderly(t, path) && Step(t, s, b, path, ev) == Some((t', s'))
    ensures !Admission(k, t, s, t', s')
    decreases t
  {
    if t.InParallel? && !AllDone(t.kids) {
      var j := path[0];
      KidFacts(k, t, n, j);
      if Held(k, t.kids[j]) > 0 {
        HeldAdmitsNothing(k, t.kids[j], n.children[j], s, b, path[1..], ev, t'.kids[j], s');
      }
      GatherAdmitsNothing(k, t, n, s, b, path, ev, t', s');
    } else if IsNested(t) && !t.cur.Done? {
      InnerFacts(k, t, n);
      HeldAdmitsNothing(k, t.cur, Inner(t, n), s, b, path, ev, t'.cur, s');
    } else {
      OwnStepAdmitsNothing(k, t, s, b, path, ev, t', s');
    }
  }

  lemma KidFacts(k: Call, t: Task, n: Node, j: nat)
    requires t.InParallel? && Waves(k, t) && Of(t, n) && !Collides(k, false, n) && j < |t.kids|
    ensures HeldFirst(k, t) && Waves(k, t.kids[j]) && Of(t.kids[j], n.children[j]) && !Collides(k, false, n.children[j])
  {
  }

  lemma InnerFacts(k: Call, t: Task, n: Node)
    requires IsNested(t) && Waves(k, t) && Of(t, n) && !Collides(k, false, n)
    ensures Waves(k, t.cur) && Of(t.cur, Inner(t, n)) && !Collides(k, false, Inner(t, n)) && Held(k, t.cur) == Held(k, t)
  {
  }

  lemma GatherAdmitsNothing(k: Call, t: Task, n: Node, s: Run, b: Limits, path: seq<nat>, ev: Event, t': Task, s': Run)
    requires t.InParallel? && !AllDone(t.kids) && HeldFirst(k, t) && Of(t, n) && !Collides(k, false, n) && Held(k, t) > 0
    requires Orderly(t, path) && Step(t, s, b, path, ev) == Some((t', s'))
    requires Held(k, t.kids[path[0]]) > 0 ==> !Admission(k, t.kids[path[0]], s, t'.kids[path[0]], s')
    ensures !Admission(k, t, s, t', s')
  {
    var j := path[0];
    ParallelHeld(k, t, j, t'.kids[j]);
    if Admission(k, t.kids[j], s, t'.kids[j], s') {
      var i := HolderOf(k, t);
      KidsCollide(k, t, n, i, s, b, path, ev, t', s');
    }
  }

  lemma HolderOf(k: Call, t: Task) returns (i: nat)
    requires t.InParallel? && Held(k, t) > 0
    ensures i < |t.kids| && Held(k, t.kids[i]) > 0
  {
    assert Held(k, t) == Sum(KidsHeld(k, t.kids), 0);
    i := SumHasPositive(KidsHeld(k, t.kids), 0);
  }

  lemma {:induction false} ExecuteInOrder(k: Call, t: Task, n: Node, s: Run, b: Limits, moves: seq<Move>, t': Task, s': Run)
    requires Waves(k, t) && Of(t, n) && !Collides(k, false, n) && AlwaysAwaits(n)
    requires InOrder(t, s, b, moves) && Execute(t, s, b, moves) == Some((t', s'))
    requires Limit(k, b).Some? && Count(k, s) + Held(k, t) <= Allowed(Limit(k, b).value)
    ensures Count(k, s') + Held(k, t') <= Allowed(Limit(k, b).value)
    decreases |moves|
  {
    if moves != [] {
      var (path, ev) := (moves[0].path, moves[0].ev);
      var (t1, s1) := Step(t, s, b, path, ev).value;
      StepCounter(k, t, s, b, path, ev, t1, s1);
      if Held(k, t) > 0 { HeldAdmitsNothing(k, t, n, s, b, path, ev, t1, s1); }
      StepKeepsWaves(k, t, n, s, b, path, ev, t1, s1);
      StepOf(t, n, s, b, path, ev, t1, s1);
      ExecuteInOrder(k, t1, n, s1, b, moves[1..], t', s');
    }
  }

  /** A graph in which nothing collides keeps every limit in every schedule the event loop can make, whatever branches
      are taken, answers fail or pauses fall in. */
  lemma NoCollisionLimitExact(k: Call, n: Node, runId: string, b: Limits, moves: seq<Move>, t': Task, s': Run)
    requires !Collides(k, false, n) && AlwaysAwaits(n) && Limit(k, b).Some?
    requires InOrder(Root(n), NewRun(runId), b, moves) && Execute(Root(n), NewRun(runId), b, moves) == Some((t', s'))
    ensures Count(k, s') <= Allowed(Limit(k, b).value)
  {
    ExecuteInOrder(k, Root(n), n, NewRun(runId), b, moves, t', s');
  }
}
