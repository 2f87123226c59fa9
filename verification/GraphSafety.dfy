/** Safety of whole graph runs: every claim is about the state reached by an arbitrary schedule. */
module GraphSafety {
  import opened Json
  import opened GraphRun
  import opened GraphBudget

  /** The most calls of kind k suspended at one moment between their limit check and their increment. */
  function PeakHeld(k: Call, t: Task, s: Run, b: Limits, moves: seq<Move>): nat
    decreases |moves|
  {
    Max(Held(k, t),
        if moves == [] then 0
        else
          match Step(t, s, b, moves[0].path, moves[0].ev)
          case None => 0
          case Some((t', s')) => PeakHeld(k, t', s', b, moves[1..]))
  }

  // ----- the run's record of itself

  lemma {:induction false} ExecuteFaithful(t: Task, s: Run, b: Limits, moves: seq<Move>, t': Task, s': Run)
    requires Faithful(s, b) && Execute(t, s, b, moves) == Some((t', s'))
    ensures Faithful(s', b)
    decreases |moves|
  {
    if moves != [] {
      var (t1, s1) := Step(t, s, b, moves[0].path, moves[0].ev).value;
      StepFaithful(t, s, b, moves[0].path, moves[0].ev, t1, s1);
      ExecuteFaithful(t1, s1, b, moves[1..], t', s');
    }
  }

  /** In every reachable state the counters equal the work scheduled, `depth` is the greatest depth reached and
      within the limit, and no node started at or after the deadline. */
  lemma EveryRunFaithful(n: Node, runId: string, b: Limits, moves: seq<Move>, t': Task, s': Run)
    requires Execute(Root(n), NewRun(runId), b, moves) == Some((t', s'))
    ensures s'.toolCalls == |s'.tools| && s'.activityCalls == |s'.activities|
    ensures forall i | 0 <= i < |s'.depths| :: s'.depths[i] <= s'.depth
    ensures s'.depth == 0 || s'.depth in s'.depths
    ensures b.maxDepth.Some? && b.maxDepth.value >= 0 ==> s'.depth <= b.maxDepth.value
    ensures b.deadline.Some? ==> forall i | 0 <= i < |s'.starts| :: s'.starts[i] < b.deadline.value
  {
    ExecuteFaithful(Root(n), NewRun(runId), b, moves, t', s');
  }

  /** No two tool calls of a run share a step number, whatever ids, tools and arguments they reuse. */
  lemma StepNumbersDistinct(n: Node, runId: string, b: Limits, moves: seq<Move>, t': Task, s': Run, i: nat, j: nat)
    requires Execute(Root(n), NewRun(runId), b, moves) == Some((t', s'))
    requires i < j < |s'.tools|
    ensures s'.tools[i].stepSeq < s'.tools[j].stepSeq
  {
    ExecuteFaithful(Root(n), NewRun(runId), b, moves, t', s');
  }

  // ----- work and termination

  lemma {:induction false} ExecuteCost(u: Unit, t: Task, s: Run, b: Limits, moves: seq<Move>, t': Task, s': Run)
    requires Execute(t, s, b, moves) == Some((t', s'))
    ensures Left(u, t') + (if u.Steps? then |moves| else Scheduled(s') - Scheduled(s)) <= Left(u, t)
    decreases |moves|
  {
    if moves != [] {
      var (t1, s1) := Step(t, s, b, moves[0].path, moves[0].ev).value;
      StepCost(u, t, s, b, moves[0].path, moves[0].ev, t1, s1);
      ExecuteCost(u, t1, s1, b, moves[1..], t', s');
    }
  }

  /** Every schedule ends: it has at most Cost(Steps, n) steps and schedules at most Cost(Activities, n)
      activities. */
  lemma EveryRunBounded(n: Node, runId: string, b: Limits, moves: seq<Move>, t': Task, s': Run)
    requires Execute(Root(n), NewRun(runId), b, moves) == Some((t', s'))
    ensures |moves| <= Cost(Steps, n)
    ensures |s'.tools| + |s'.activities| + s'.policyChecks <= Cost(Activities, n)
  {
    ExecuteCost(Steps, Root(n), NewRun(runId), b, moves, t', s');
    ExecuteCost(Activities, Root(n), NewRun(runId), b, moves, t', s');
  }

  // ----- call limits

  function Allowed(limit: int): nat {
    if limit < 0 then 0 else limit
  }

  /** The bound every step keeps. It is one tighter when no call can be counted in the step that admits it. */
  lemma {:induction false} ExecuteCounter(k: Call, exclusive: bool, limit: int, peak: nat,
                                          t: Task, s: Run, b: Limits, moves: seq<Move>, t': Task, s': Run)
    requires Limit(k, b) == Some(limit) && limit > 0
    requires exclusive ==> k.External? || TaskFits(AllGated, t)
    requires Execute(t, s, b, moves) == Some((t', s')) && PeakHeld(k, t, s, b, moves) <= peak
    requires Count(k, s) + Held(k, t) <= limit + peak - (if exclusive then 1 else 0)
    ensures Count(k, s') + Held(k, t') <= limit + peak - (if exclusive then 1 else 0)
    decreases |moves|
  {
    if moves != [] {
      var (path, ev) := (moves[0].path, moves[0].ev);
      var (t1, s1) := Step(t, s, b, path, ev).value;
      StepCounter(k, t, s, b, path, ev, t1, s1);
      if exclusive && k.Tools? { StepFits(AllGated, t, s, b, path, ev, t1, s1); }
      assert Held(k, t1) <= PeakHeld(k, t1, s1, b, moves[1..]);
      ExecuteCounter(k, exclusive, limit, peak, t1, s1, b, moves[1..], t', s');
    }
  }

  /** A positive limit on external activities, or on tool calls that are all approval-gated, is overrun by at
      most P - 1, P being the peak number of such calls held at one moment. */
  lemma HeldCallBound(k: Call, n: Node, runId: string, b: Limits, moves: seq<Move>, t': Task, s': Run)
    requires k.External? || Fits(AllGated, n)
    requires Limit(k, b).Some? && Limit(k, b).value > 0
    requires Execute(Root(n), NewRun(runId), b, moves) == Some((t', s'))
    ensures Count(k, s') <= Max(0, Limit(k, b).value + PeakHeld(k, Root(n), NewRun(runId), b, moves) - 1)
  {
    ExecuteCounter(k, true, Limit(k, b).value, PeakHeld(k, Root(n), NewRun(runId), b, moves),
                   Root(n), NewRun(runId), b, moves, t', s');
  }

  /** Where gated and ungated tool calls mix, an ungated call can slip in while P gated ones are held. */
  lemma MixedCallBound(n: Node, runId: string, b: Limits, moves: seq<Move>, t': Task, s': Run)
    requires b.maxToolCalls.Some? && b.maxToolCalls.value > 0
    requires Execute(Root(n), NewRun(runId), b, moves) == Some((t', s'))
    ensures s'.toolCalls <= b.maxToolCalls.value + PeakHeld(Tools, Root(n), NewRun(runId), b, moves)
  {
    ExecuteCounter(Tools, false, b.maxToolCalls.value, PeakHeld(Tools, Root(n), NewRun(runId), b, moves),
                   Root(n), NewRun(runId), b, moves, t', s');
  }

  lemma {:induction false} ExecuteNothing(k: Call, t: Task, s: Run, b: Limits, moves: seq<Move>, t': Task, s': Run)
    requires Limit(k, b).Some? && Limit(k, b).value <= 0
    requires Held(k, t) == 0 && Execute(t, s, b, moves) == Some((t', s'))
    ensures Count(k, s') == Count(k, s)
    decreases |moves|
  {
    if moves != [] {
      var (t1, s1) := Step(t, s, b, moves[0].path, moves[0].ev).value;
      StepCounter(k, t, s, b, moves[0].path, moves[0].ev, t1, s1);
      ExecuteNothing(k, t1, s1, b, moves[1..], t', s');
    }
  }

  /** A limit of zero admits nothing, gated or not. */
  lemma ZeroLimitAdmitsNothing(k: Call, n: Node, runId: string, b: Limits, moves: seq<Move>, t': Task, s': Run)
    requires Limit(k, b).Some? && Limit(k, b).value <= 0
    requires Execute(Root(n), NewRun(runId), b, moves) == Some((t', s'))
    ensures Count(k, s') == 0
  {
    ExecuteNothing(k, Root(n), NewRun(runId), b, moves, t', s');
  }

  // ----- the bounds are reached

  function ToolLimitOnly(limit: int): Limits {
    Limits(Some(limit), None, None, None, true)
  }

  function At(i: nat): Move {
    Move([i], Event(0, false, Granted))
  }

  /** The state after a node at depth 0 got past the entry checks. */
  function Entered(s: Run): Run {
    s.(depths := s.depths + [0], starts := s.starts + [0])
  }

  function Called(s: Run, x: Node, id: string): Run
    requires x.ToolCall?
  {
    s.(toolCalls := s.toolCalls + 1, stepSeq := s.stepSeq + 1,
       tools := s.tools + [ToolDispatch(id, s.stepSeq + 1, x.tool, x.args)])
  }

  lemma Admitted(x: Node, id: string, s: Run)
    requires x.ToolCall? && id != "" && s.toolCalls == 0
    ensures Step(Start(x, id, 0), s, ToolLimitOnly(1), [], At(0).ev) ==
            Some(if x.approval then (ToolApproval(x, id), Entered(s))
                 else (ToolRunning(x, id, s.stepSeq + 1), Called(Entered(s), x, id)))
  {
    AdmittedDispatch(x, id, Entered(s));
    assert Begin(x, id, 0, s, ToolLimitOnly(1), At(0).ev) == Dispatch(x, id, 0, Entered(s), ToolLimitOnly(1));
  }

  lemma AdmittedDispatch(x: Node, id: string, s: Run)
    requires x.ToolCall? && s.toolCalls == 0
    ensures Dispatch(x, id, 0, s, ToolLimitOnly(1)) ==
            if x.approval then (ToolApproval(x, id), s) else (ToolRunning(x, id, s.stepSeq + 1), Called(s, x, id))
  {
  }

  lemma Approved(x: Node, id: string, s: Run)
    requires x.ToolCall?
    ensures Step(ToolApproval(x, id), s, ToolLimitOnly(1), [], At(0).ev) ==
            Some((ToolRunning(x, id, s.stepSeq + 1), Called(s, x, id)))
  {
  }

  lemma Opened(n: Node, s: Run)
    requires n.Parallel? && n.id != ""
    ensures Step(Root(n), s, ToolLimitOnly(1), [0], At(0).ev) ==
            Some((InParallel(n, n.id, 0, StartAll(n.children, 0)), Entered(s)))
  {
  }

  lemma KidMoves(n: Node, kids: seq<Task>, s: Run, i: nat, kid: Task, s': Run)
    requires i < |kids| && !kids[i].Done?
    requires Step(kids[i], s, ToolLimitOnly(1), [], At(0).ev) == Some((kid, s'))
    ensures Step(InParallel(n, n.id, 0, kids), s, ToolLimitOnly(1), [i], At(0).ev) ==
            Some((InParallel(n, n.id, 0, kids[i := kid]), s'))
  {
    assert [i][1..] == [];
  }

  /** One move of an execution, spelled out. */
  lemma Follow(t: Task, s: Run, b: Limits, moves: seq<Move>, t1: Task, s1: Run)
    requires moves != [] && Step(t, s, b, moves[0].path, moves[0].ev) == Some((t1, s1))
    ensures Execute(t, s, b, moves) == Execute(t1, s1, b, moves[1..])
    ensures PeakHeld(Tools, t, s, b, moves) == Max(Held(Tools, t), PeakHeld(Tools, t1, s1, b, moves[1..]))
  {
  }

  lemma PairHeld(n: Node, kids: seq<Task>)
    requires |kids| == 2
    ensures Held(Tools, InParallel(n, n.id, 0, kids)) == Held(Tools, kids[0]) + Held(Tools, kids[1])
  {
    var held := KidsHeld(Tools, kids);
    assert Held(Tools, InParallel(n, n.id, 0, kids)) == Sum(held, 0);
    assert Sum(held, 0) == held[0] + Sum(held, 1) && Sum(held, 1) == held[1] + Sum(held, 2);
  }

  function MixedPair(): Node {
    Parallel("p", [ToolCall("a", "t", Null, true), ToolCall("b", "t", Null, false)])
  }

  /** From the ungated call's admission on: it runs, then the held one is approved and runs too. */
  lemma MixedEnding(n: Node, x: Node, y: Node, s: Run)
    requires n.Parallel? && x.ToolCall? && y.ToolCall? && !y.approval && s.toolCalls == 0
    ensures var t := InParallel(n, n.id, 0, [ToolApproval(x, "a"), Start(y, "b", 0)]);
            var moves := [At(1), At(0)];
            && Execute(t, s, ToolLimitOnly(1), moves).Some?
            && Execute(t, s, ToolLimitOnly(1), moves).value.1.toolCalls == 2
            && PeakHeld(Tools, t, s, ToolLimitOnly(1), moves) == 1
  {
    var b := ToolLimitOnly(1);
    var s3 := Called(Entered(s), y, "b");
    var s4 := Called(s3, x, "a");
    var k2 := [ToolApproval(x, "a"), Start(y, "b", 0)];
    var k3 := k2[1 := ToolRunning(y, "b", s.stepSeq + 1)];
    var k4 := k3[0 := ToolRunning(x, "a", s3.stepSeq + 1)];
    Admitted(y, "b", s);
    KidMoves(n, k2, s, 1, k3[1], s3);
    Approved(x, "a", s3);
    KidMoves(n, k3, s3, 0, k4[0], s4);
    Follow(InParallel(n, n.id, 0, k2), s, b, [At(1), At(0)], InParallel(n, n.id, 0, k3), s3);
    Follow(InParallel(n, n.id, 0, k3), s3, b, [At(0)], InParallel(n, n.id, 0, k4), s4);
    PairHeld(n, k2);
    PairHeld(n, k3);
    PairHeld(n, k4);
  }

  /** A gated call awaits its approval, an ungated one is admitted and counted meanwhile, then the approval
      comes: two calls under a limit of one, although only one was ever held. HeldCallBound needs its
      condition, and MixedCallBound is reached. */
  lemma MixedGraphOverruns()
    ensures var moves := [At(0), At(0), At(1), At(0)];
            && Execute(Root(MixedPair()), NewRun("r"), ToolLimitOnly(1), moves).Some?
            && Execute(Root(MixedPair()), NewRun("r"), ToolLimitOnly(1), moves).value.1.toolCalls == 2
            && PeakHeld(Tools, Root(MixedPair()), NewRun("r"), ToolLimitOnly(1), moves) == 1
  {
    var n, b := MixedPair(), ToolLimitOnly(1);
    var x, y := n.children[0], n.children[1];
    var s0 := NewRun("r");
    var s1 := Entered(s0);
    var s2 := Entered(s1);
    var k1 := StartAll(n.children, 0);
    var k2 := k1[0 := ToolApproval(x, "a")];
    Opened(n, s0);
    Admitted(x, "a", s1);
    KidMoves(n, k1, s1, 0, k2[0], s2);
    assert k2 == [ToolApproval(x, "a"), Start(y, "b", 0)];
    MixedEnding(n, x, y, s2);
    Follow(Root(n), s0, b, [At(0), At(0), At(1), At(0)], InParallel(n, "p", 0, k1), s1);
    Follow(InParallel(n, "p", 0, k1), s1, b, [At(0), At(1), At(0)], InParallel(n, "p", 0, k2), s2);
    PairHeld(n, k1);
  }

  function GatedCall(i: nat): Node {
    ToolCall(IterationId("call", i), "t", Null, true)
  }

  function GatedCalls(p: nat): Node {
    Parallel("p", seq(p, i requires 0 <= i < p => GatedCall(i)))
  }

  /** p parallel gated calls, the first `granted` of them running and those up to `admitted` held. */
  function Wave(p: nat, admitted: nat, granted: nat): Task {
    InParallel(GatedCalls(p), "p", 0, seq(p, i requires 0 <= i < p =>
      if i < granted then ToolRunning(GatedCall(i), GatedCall(i).id, i + 1)
      else if i < admitted then ToolApproval(GatedCall(i), GatedCall(i).id)
      else Start(GatedCall(i), GatedCall(i).id, 0)))
  }

  /** A move for each call from i on. */
  function Sweep(i: nat, p: nat): seq<Move>
    decreases p - i
  {
    if i >= p then [] else [At(i)] + Sweep(i + 1, p)
  }

  lemma {:induction false} AdmitAll(p: nat, i: nat, s: Run) returns (s': Run)
    requires i <= p && s.toolCalls == s.stepSeq == 0
    ensures Execute(Wave(p, i, 0), s, ToolLimitOnly(1), Sweep(i, p)) == Some((Wave(p, p, 0), s'))
    ensures s'.toolCalls == s'.stepSeq == 0
    decreases p - i
  {
    if i == p {
      s' := s;
    } else {
      var t := Wave(p, i, 0);
      Admitted(GatedCall(i), GatedCall(i).id, s);
      KidMoves(t.node, t.kids, s, i, ToolApproval(GatedCall(i), GatedCall(i).id), Entered(s));
      assert t.kids[i := ToolApproval(GatedCall(i), GatedCall(i).id)] == Wave(p, i + 1, 0).kids;
      s' := AdmitAll(p, i + 1, Entered(s));
      Follow(t, s, ToolLimitOnly(1), Sweep(i, p), Wave(p, i + 1, 0), Entered(s));
      assert Sweep(i, p)[1..] == Sweep(i + 1, p);
    }
  }

  lemma {:induction false} GrantAll(p: nat, i: nat, s: Run) returns (s': Run)
    requires i <= p && s.toolCalls == s.stepSeq == i
    ensures Execute(Wave(p, p, i), s, ToolLimitOnly(1), Sweep(i, p)) == Some((Wave(p, p, p), s'))
    ensures s'.toolCalls == p
    decreases p - i
  {
    if i == p {
      s' := s;
    } else {
      var t := Wave(p, p, i);
      var s1 := Called(s, GatedCall(i), GatedCall(i).id);
      Approved(GatedCall(i), GatedCall(i).id, s);
      KidMoves(t.node, t.kids, s, i, ToolRunning(GatedCall(i), GatedCall(i).id, i + 1), s1);
      assert t.kids[i := ToolRunning(GatedCall(i), GatedCall(i).id, i + 1)] == Wave(p, p, i + 1).kids;
      s' := GrantAll(p, i + 1, s1);
      Follow(t, s, ToolLimitOnly(1), Sweep(i, p), Wave(p, p, i + 1), s1);
      assert Sweep(i, p)[1..] == Sweep(i + 1, p);
    }
  }

  lemma {:induction false} ExecuteThen(t: Task, s: Run, b: Limits, first: seq<Move>, second: seq<Move>, t1: Task, s1: Run)
    requires Execute(t, s, b, first) == Some((t1, s1))
    ensures Execute(t, s, b, first + second) == Execute(t1, s1, b, second)
    decreases |first|
  {
    if first == [] {
      assert first + second == second;
    } else {
      var (t2, s2) := Step(t, s, b, first[0].path, first[0].ev).value;
      ExecuteThen(t2, s2, b, first[1..], second, t1, s1);
      assert (first + second)[1..] == first[1..] + second;
    }
  }

  /** The overrun of HeldCallBound is real: under a limit of one, p gated calls in parallel all pass the check
      before the first is counted, and all run. */
  lemma GatedCallsOverrun(p: nat) returns (moves: seq<Move>, t': Task, s': Run)
    ensures Fits(AllGated, GatedCalls(p))
    ensures Execute(Root(GatedCalls(p)), NewRun("r"), ToolLimitOnly(1), moves) == Some((t', s'))
    ensures s'.toolCalls == p
  {
    var n, s0 := GatedCalls(p), NewRun("r");
    Opened(n, s0);
    assert StartAll(n.children, 0) == Wave(p, 0, 0).kids;
    var s1 := AdmitAll(p, 0, Entered(s0));
    s' := GrantAll(p, 0, s1);
    t' := Wave(p, p, p);
    ExecuteThen(Wave(p, 0, 0), Entered(s0), ToolLimitOnly(1), Sweep(0, p), Sweep(0, p), Wave(p, p, 0), s1);
    moves := [At(0)] + (Sweep(0, p) + Sweep(0, p));
    Follow(Root(n), s0, ToolLimitOnly(1), moves, Wave(p, 0, 0), Entered(s0));
    assert moves[1..] == Sweep(0, p) + Sweep(0, p);
  }
}
