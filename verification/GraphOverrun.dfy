/** The converse: a graph in which a call can be made while another is held has a limit, and a schedule of the event loop
    without a failure, that exceed it. */
module GraphOverrun {
  import opened Json
  import opened GraphRun
  import opened GraphBudget
  import opened GraphSafety
  import opened GraphOverlap
  import opened GraphOrder
  import opened GraphCollision

  /** Every node can run: ids and names are present, loops iterate, comparators are supported, kinds are known. */
  predicate WellFormed(n: Node) {
    n.id != "" &&
    match n
    case ToolCall(_, _, _, _) => true
    case Activity(_, name, queue, _, _) => name != "" && queue != ""
    case Sequential(_, children) => forall i | 0 <= i < |children| :: WellFormed(children[i])
    case Parallel(_, children) => forall i | 0 <= i < |children| :: WellFormed(children[i])
    case FanIn(_, children) => forall i | 0 <= i < |children| :: WellFormed(children[i])
    case Conditional(_, cond, ifTrue, ifFalse) =>
      !cond.cmp.Unsupported? && WellFormed(ifTrue) && (ifFalse.Some? ==> WellFormed(ifFalse.value))
    case Loop(_, maxIterations, stop, body) =>
      maxIterations >= 1 && (stop.Some? ==> !stop.value.cmp.Unsupported?) && WellFormed(body)
    case Subgraph(_, graph) => WellFormed(graph)
    case Unknown(_) => false
  }

  /** n can run, and no node of it completes without awaiting something. */
  predicate Runnable(n: Node) {
    WellFormed(n) && AlwaysAwaits(n)
  }

  const UNLIMITED := Limits(None, None, None, None, true)

  function LimitOnly(k: Call, limit: int): Limits {
    if k.Tools? then Limits(Some(limit), None, None, None, true) else Limits(None, Some(limit), None, None, true)
  }

  const NOW := Event(0, false, Granted)

  function Answer(reply: Reply): Event {
    Event(0, false, reply)
  }

  // ----- coroutines that have not failed

  predicate Healthy(t: Task) {
    match t
    case Start(_, id, _) => id != ""
    case Gated(_, id, _) => id != ""
    case InSequence(_, _, _, _, cur) => Healthy(cur)
    case InParallel(_, _, _, kids) => forall i | 0 <= i < |kids| :: Healthy(kids[i])
    case InBranch(_, _, _, cur) => Healthy(cur)
    case InLoop(_, _, _, _, cur) => Healthy(cur)
    case InSubgraph(_, _, cur) => Healthy(cur)
    case Raised(_) => false
    case _ => true
  }

  /** A coroutine of n that has not failed. */
  predicate Sane(t: Task, n: Node) {
    Of(t, n) && Healthy(t)
  }

  lemma RunnableInner(t: Task, n: Node)
    requires IsNested(t) && Of(t, n) && Runnable(n)
    ensures Runnable(Inner(t, n))
  {
  }

  lemma EntryHealthy(t: Task, n: Node, s: Run, path: seq<nat>, ev: Event, t': Task, s': Run)
    requires (t.Start? || t.Gated?) && Sane(t, n) && WellFormed(n) && Step(t, s, UNLIMITED, path, ev) == Some((t', s'))
    ensures Healthy(t')
  {
    if t'.InParallel? {
      assert forall i | 0 <= i < |t'.kids| :: t'.kids[i] == Start(n.children[i], n.children[i].id, t.depth);
    } else if IsNested(t') {
      assert t'.cur.Start? && t'.cur.id != "";
    }
  }

  lemma OwnStepHealthy(t: Task, n: Node, s: Run, path: seq<nat>, ev: Event, t': Task, s': Run)
    requires !t.Start? && !t.Gated? && !(t.InParallel? && !AllDone(t.kids)) && !(IsNested(t) && !t.cur.Done?)
    requires Sane(t, n) && WellFormed(n) && !ev.reply.Fails? && Step(t, s, UNLIMITED, path, ev) == Some((t', s'))
    ensures Healthy(t')
  {
    if IsNested(t') {
      assert t'.cur.Start? && t'.cur.id != "";
    }
  }

  lemma {:induction false} StepHealthy(t: Task, n: Node, s: Run, path: seq<nat>, ev: Event, t': Task, s': Run)
    requires Sane(t, n) && WellFormed(n) && !ev.reply.Fails? && Step(t, s, UNLIMITED, path, ev) == Some((t', s'))
    ensures Healthy(t')
    decreases t
  {
    if t.InParallel? && !AllDone(t.kids) {
      var i := path[0];
      StepHealthy(t.kids[i], n.children[i], s, path[1..], ev, t'.kids[i], s');
      assert forall j | 0 <= j < |t.kids| && j != i :: t'.kids[j] == t.kids[j];
    } else if IsNested(t) && !t.cur.Done? {
      StepHealthy(t.cur, Inner(t, n), s, path, ev, t'.cur, s');
    } else if t.Start? || t.Gated? {
      EntryHealthy(t, n, s, path, ev, t', s');
    } else {
      OwnStepHealthy(t, n, s, path, ev, t', s');
    }
  }

  lemma StepSane(t: Task, n: Node, s: Run, path: seq<nat>, ev: Event, t': Task, s': Run)
    requires Sane(t, n) && WellFormed(n) && !ev.reply.Fails? && Step(t, s, UNLIMITED, path, ev) == Some((t', s'))
    ensures Sane(t', n)
  {
    StepOf(t, n, s, UNLIMITED, path, ev, t', s');
    StepHealthy(t, n, s, path, ev, t', s');
  }

  // ----- prompt runs

  /** A prompt schedule leads from one configuration to the other when nothing is limited. */
  ghost predicate Runs(t: Task, s: Run, t': Task, s': Run) {
    exists moves :: RunsBy(t, s, moves, t', s')
  }

  ghost predicate RunsBy(t: Task, s: Run, moves: seq<Move>, t': Task, s': Run) {
    AllPrompt(t, s, UNLIMITED, moves) && Execute(t, s, UNLIMITED, moves) == Some((t', s'))
  }

  lemma RunsSelf(t: Task, s: Run)
    ensures Runs(t, s, t, s)
  {
    assert RunsBy(t, s, [], t, s);
  }

  lemma RunsStep(t: Task, s: Run, m: Move, t1: Task, s1: Run)
    requires Prompt(t, m) && Step(t, s, UNLIMITED, m.path, m.ev) == Some((t1, s1))
    ensures Runs(t, s, t1, s1)
  {
    assert [m][1..] == [];
    assert RunsBy(t1, s1, [], t1, s1);
    assert RunsBy(t, s, [m], t1, s1);
  }

  lemma {:induction false} PromptThen(t: Task, s: Run, b: Limits, first: seq<Move>, second: seq<Move>, t1: Task, s1: Run)
    requires AllPrompt(t, s, b, first) && Execute(t, s, b, first) == Some((t1, s1)) && AllPrompt(t1, s1, b, second)
    ensures AllPrompt(t, s, b, first + second)
    decreases |first|
  {
    if first == [] {
      assert first + second == second;
    } else {
      var (t2, s2) := Step(t, s, b, first[0].path, first[0].ev).value;
      PromptThen(t2, s2, b, first[1..], second, t1, s1);
      var moves := first + second;
      assert moves[0] == first[0] && moves[1..] == first[1..] + second;
    }
  }

  lemma RunsThen(t: Task, s: Run, t1: Task, s1: Run, t2: Task, s2: Run)
    requires Runs(t, s, t1, s1) && Runs(t1, s1, t2, s2)
    ensures Runs(t, s, t2, s2)
  {
    var first :| RunsBy(t, s, first, t1, s1);
    var second :| RunsBy(t1, s1, second, t2, s2);
    PromptThen(t, s, UNLIMITED, first, second, t1, s1);
    ExecuteThen(t, s, UNLIMITED, first, second, t1, s1);
    assert RunsBy(t, s, first + second, t2, s2);
  }

  /** A step that takes no answer. */
  lemma RunsOwn(t: Task, s: Run, path: seq<nat>, t1: Task, s1: Run)
    requires Orderly(t, path) && !Answers(t, path) && Step(t, s, UNLIMITED, path, NOW) == Some((t1, s1))
    ensures Runs(t, s, t1, s1)
  {
    RunsStep(t, s, Move(path, NOW), t1, s1);
  }

  // ----- where a coroutine sits

  /** What surrounds a coroutine in its parent. */
  datatype Frame =
    | SequenceFrame(n: Node, id: string, depth: nat, done: seq<Value>)
    | KidFrame(n: Node, id: string, depth: nat, kids: seq<Task>, i: nat)
    | BranchFrame(n: Node, id: string, taken: bool)
    | LoopFrame(n: Node, id: string, depth: nat, done: seq<Value>)
    | SubgraphFrame(n: Node, id: string)

  /** The parent's kind fits, and the other children of a gather wait. */
  predicate Fitting(f: Frame) {
    match f
    case SequenceFrame(n, _, _, _) => n.Sequential?
    case KidFrame(_, _, _, kids, i) => i < |kids| && forall j | 0 <= j < |kids| && j != i :: Quiet(kids[j])
    case LoopFrame(n, _, _, _) => n.Loop?
    case _ => true
  }

  function Plug(f: Frame, t: Task): Task
    requires Fitting(f)
  {
    match f
    case SequenceFrame(n, id, depth, done) => InSequence(n, id, depth, done, t)
    case KidFrame(n, id, depth, kids, i) => InParallel(n, id, depth, kids[i := t])
    case BranchFrame(n, id, taken) => InBranch(n, id, taken, t)
    case LoopFrame(n, id, depth, done) => InLoop(n, id, depth, done, t)
    case SubgraphFrame(n, id) => InSubgraph(n, id, t)
  }

  function Through(f: Frame, m: Move): Move {
    if f.KidFrame? then Move([f.i] + m.path, m.ev) else m
  }

  lemma PlugStep(f: Frame, t: Task, s: Run, b: Limits, m: Move, t': Task, s': Run)
    requires Fitting(f) && Step(t, s, b, m.path, m.ev) == Some((t', s'))
    ensures Step(Plug(f, t), s, b, Through(f, m).path, m.ev) == Some((Plug(f, t'), s'))
  {
    if f.KidFrame? {
      KidStep(f.n, f.id, f.depth, f.kids[f.i := t], f.i, s, b, m.path, m.ev, t', s');
      assert f.kids[f.i := t][f.i := t'] == f.kids[f.i := t'];
    } else {
      CurStep(f, t, s, b, m, t', s');
    }
  }

  lemma CurStep(f: Frame, t: Task, s: Run, b: Limits, m: Move, t': Task, s': Run)
    requires Fitting(f) && !f.KidFrame? && Step(t, s, b, m.path, m.ev) == Some((t', s'))
    ensures Step(Plug(f, t), s, b, m.path, m.ev) == Some((Plug(f, t'), s'))
  {
    match f
    case SequenceFrame(n, id, depth, done) => SequenceStep(n, id, depth, done, t, s, b, m, t', s');
    case BranchFrame(n, id, taken) => BranchStep(n, id, taken, t, s, b, m, t', s');
    case LoopFrame(n, id, depth, done) => LoopStep(n, id, depth, done, t, s, b, m, t', s');
    case SubgraphFrame(n, id) => SubgraphStep(n, id, t, s, b, m, t', s');
  }

  lemma SequenceStep(n: Node, id: string, depth: nat, done: seq<Value>, t: Task, s: Run, b: Limits, m: Move, t': Task, s': Run)
    requires n.Sequential? && Step(t, s, b, m.path, m.ev) == Some((t', s'))
    ensures Step(InSequence(n, id, depth, done, t), s, b, m.path, m.ev) == Some((InSequence(n, id, depth, done, t'), s'))
  {
    assert !t.Done?;
  }

  lemma BranchStep(n: Node, id: string, taken: bool, t: Task, s: Run, b: Limits, m: Move, t': Task, s': Run)
    requires Step(t, s, b, m.path, m.ev) == Some((t', s'))
    ensures Step(InBranch(n, id, taken, t), s, b, m.path, m.ev) == Some((InBranch(n, id, taken, t'), s'))
  {
    assert !t.Done?;
  }

  lemma LoopStep(n: Node, id: string, depth: nat, done: seq<Value>, t: Task, s: Run, b: Limits, m: Move, t': Task, s': Run)
    requires n.Loop? && Step(t, s, b, m.path, m.ev) == Some((t', s'))
    ensures Step(InLoop(n, id, depth, done, t), s, b, m.path, m.ev) == Some((InLoop(n, id, depth, done, t'), s'))
  {
    assert !t.Done?;
  }

  lemma SubgraphStep(n: Node, id: string, t: Task, s: Run, b: Limits, m: Move, t': Task, s': Run)
    requires Step(t, s, b, m.path, m.ev) == Some((t', s'))
    ensures Step(InSubgraph(n, id, t), s, b, m.path, m.ev) == Some((InSubgraph(n, id, t'), s'))
  {
    assert !t.Done?;
  }

  lemma KidStep(n: Node, id: string, depth: nat, kids: seq<Task>, i: nat, s: Run, b: Limits, path: seq<nat>, ev: Event,
                kid: Task, s': Run)
    requires i < |kids| && Step(kids[i], s, b, path, ev) == Some((kid, s'))
    ensures Step(InParallel(n, id, depth, kids), s, b, [i] + path, ev) == Some((InParallel(n, id, depth, kids[i := kid]), s'))
  {
    assert ([i] + path)[1..] == path;
    assert !kids[i].Done?;
  }

  lemma {:induction false} QuietIsNotFresh(t: Task, q: seq<nat>)
    requires Quiet(t)
    ensures !FreshAt(t, q)
    decreases t
  {
    if t.InParallel? {
      if q != [] && q[0] < |t.kids| { QuietIsNotFresh(t.kids[q[0]], q[1..]); }
    } else if IsNested(t) {
      QuietIsNotFresh(t.cur, q);
    }
  }

  lemma {:induction false} OrderlyIsFirst(t: Task, path: seq<nat>, q: seq<nat>)
    requires Orderly(t, path) && FreshAt(t, path) && FreshAt(t, q) && q != path
    ensures Before(path, q)
    decreases t
  {
    if IsNested(t) {
      OrderlyIsFirst(t.cur, path, q);
    } else if t.InParallel? {
      assert !AllDone(t.kids);
    }
  }

  lemma PlugPrompt(f: Frame, t: Task, m: Move)
    requires Fitting(f) && Prompt(t, m) && !t.Done?
    ensures Prompt(Plug(f, t), Through(f, m))
  {
    if f.KidFrame? {
      KidPrompt(Plug(f, t), f.i, m);
    }
  }

  lemma KidPrompt(t: Task, i: nat, m: Move)
    requires t.InParallel? && i < |t.kids| && !t.kids[i].Done? && Prompt(t.kids[i], m)
    requires forall j | 0 <= j < |t.kids| && j != i :: Quiet(t.kids[j])
    ensures Prompt(t, Move([i] + m.path, m.ev))
  {
    var path := [i] + m.path;
    assert path[1..] == m.path;
    if Answers(t, path) {
      assert Quiet(t);
      forall q ensures !FreshAt(t, q) { QuietIsNotFresh(t, q); }
    }
    if FreshAt(t, path) {
      forall q | FreshAt(t, q) && q != path ensures Before(path, q) {
        if q[0] != i { QuietIsNotFresh(t.kids[q[0]], q[1..]); }
        assert q == [i] + q[1..];
        OrderlyIsFirst(t.kids[i], m.path, q[1..]);
        BeforeUnder(i, m.path, q[1..]);
      }
    }
  }

  lemma {:induction false} PlugRunsBy(f: Frame, t: Task, s: Run, moves: seq<Move>, t': Task, s': Run)
    requires Fitting(f) && RunsBy(t, s, moves, t', s')
    ensures Runs(Plug(f, t), s, Plug(f, t'), s')
    decreases |moves|
  {
    if moves == [] {
      RunsSelf(Plug(f, t), s);
    } else {
      var m := moves[0];
      var (t1, s1) := Step(t, s, UNLIMITED, m.path, m.ev).value;
      PlugStep(f, t, s, UNLIMITED, m, t1, s1);
      PlugPrompt(f, t, m);
      RunsStep(Plug(f, t), s, Through(f, m), Plug(f, t1), s1);
      assert RunsBy(t1, s1, moves[1..], t', s');
      PlugRunsBy(f, t1, s1, moves[1..], t', s');
      RunsThen(Plug(f, t), s, Plug(f, t1), s1, Plug(f, t'), s');
    }
  }

  lemma PlugRuns(f: Frame, t: Task, s: Run, t': Task, s': Run)
    requires Fitting(f) && Runs(t, s, t', s')
    ensures Runs(Plug(f, t), s, Plug(f, t'), s')
  {
    var moves :| RunsBy(t, s, moves, t', s');
    PlugRunsBy(f, t, s, moves, t', s');
  }

  // ----- something can always run until everything waits

  /** The first fresh coroutine in the queue, if there is one. */
  lemma {:induction false} FindFirst(t: Task) returns (r: Option<seq<nat>>)
    ensures r.None? ==> NothingFresh(t)
    ensures r.Some? ==> FreshAt(t, r.value) && FirstFresh(t, r.value)
    decreases t, 1, 0
  {
    match t {
      case Start(_, _, _) => r := Some([]);
      case Gated(_, _, _) => r := Some([]);
      case InSequence(_, _, _, done, cur) =>
        r := FindFirst(cur);
        if done != [] { r := None; }
      case InParallel(_, _, _, kids) => r := FindFirstFrom(t, |kids|);
      case InBranch(_, _, _, cur) => r := FindFirst(cur);
      case InLoop(_, _, _, done, cur) =>
        r := FindFirst(cur);
        if done != [] { r := None; }
      case InSubgraph(_, _, cur) => r := FindFirst(cur);
      case _ => r := None;
    }
    if IsNested(t) {
      forall q ensures FreshAt(t, q) ==> FreshAt(t.cur, q) {}
    }
  }

  /** Among the first i kids. */
  lemma {:induction false} FindFirstFrom(t: Task, i: nat) returns (r: Option<seq<nat>>)
    requires t.InParallel? && i <= |t.kids|
    ensures r.None? ==> forall q | FreshAt(t, q) :: q[0] >= i
    ensures r.Some? ==> FreshAt(t, r.value) && r.value[0] < i && forall q | FreshAt(t, q) && q[0] < i && q != r.value :: Before(r.value, q)
    decreases t, 0, i
  {
    if i == 0 {
      r := None;
    } else {
      r := FindFirstFrom(t, i - 1);
      var mine := FindFirst(t.kids[i - 1]);
      if mine.Some? {
        var path := [i - 1] + mine.value;
        assert path[1..] == mine.value;
        forall q | FreshAt(t, q) && q[0] == i - 1 && q != path ensures Before(path, q) {
          assert q == [i - 1] + q[1..];
          BeforeUnder(i - 1, mine.value, q[1..]);
        }
        if r.None? {
          r := Some(path);
        } else {
          BeforeTotal(r.value, path);
          if Before(path, r.value) {
            EarlierStill(t, i - 1, path, r.value);
            r := Some(path);
          } else {
            EarlierThanTheLast(t, i - 1, r.value, path);
          }
        }
      }
    }
  }

  lemma EarlierStill(t: Task, i: nat, path: seq<nat>, r: seq<nat>)
    requires t.InParallel? && Before(path, r)
    requires forall q | FreshAt(t, q) && q[0] < i && q != r :: Before(r, q)
    ensures forall q | FreshAt(t, q) && q[0] < i :: Before(path, q)
  {
    forall q | FreshAt(t, q) && q[0] < i ensures Before(path, q) {
      if q != r { BeforeTransitive(path, r, q); }
    }
  }

  lemma EarlierThanTheLast(t: Task, i: nat, r: seq<nat>, path: seq<nat>)
    requires t.InParallel? && Before(r, path)
    requires forall q | FreshAt(t, q) && q[0] == i && q != path :: Before(path, q)
    ensures forall q | FreshAt(t, q) && q[0] == i :: Before(r, q)
  {
    forall q | FreshAt(t, q) && q[0] == i ensures Before(r, q) {
      if q != path { BeforeTransitive(r, path, q); }
    }
  }

  /** The first fresh coroutine may run. */
  lemma {:induction false} FirstRuns(t: Task, n: Node, s: Run, r: seq<nat>)
    requires Of(t, n) && FreshAt(t, r) && FirstFresh(t, r)
    ensures Orderly(t, r) && !Answers(t, r) && Step(t, s, UNLIMITED, r, NOW).Some?
    decreases t
  {
    if t.InParallel? {
      var kid := t.kids[r[0]];
      assert !kid.Done?;
      forall q | FreshAt(kid, q) && q != r[1..] ensures Before(r[1..], q) {
        assert r == [r[0]] + r[1..];
        assert ([r[0]] + q)[1..] == q;
        assert FreshAt(t, [r[0]] + q);
        BeforeUnder(r[0], r[1..], q);
      }
      FirstRuns(kid, n.children[r[0]], s, r[1..]);
    } else if IsNested(t) {
      forall q ensures FreshAt(t.cur, q) <==> FreshAt(t, q) {}
      assert !t.cur.Done?;
      FirstRuns(t.cur, Inner(t, n), s, r);
    }
  }

  /** Unless everything waits, something runs without an answer. */
  lemma {:induction false} SomethingRuns(t: Task, n: Node, s: Run) returns (path: seq<nat>)
    requires Sane(t, n) && WellFormed(n) && !Quiet(t) && !t.Done?
    ensures Orderly(t, path) && !Answers(t, path) && Step(t, s, UNLIMITED, path, NOW).Some?
    decreases t
  {
    var first := FindFirst(t);
    if first.Some? {
      path := first.value;
      FirstRuns(t, n, s, path);
    } else if t.InParallel? && !AllDone(t.kids) {
      var i :| 0 <= i < |t.kids| && !Quiet(t.kids[i]);
      assert !t.kids[i].Done?;
      var rest := SomethingRuns(t.kids[i], n.children[i], s);
      KidMayRun(t, s, i, rest);
      path := [i] + rest;
    } else if IsNested(t) && !t.cur.Done? {
      path := SomethingRuns(t.cur, Inner(t, n), s);
    } else {
      path := [];
      assert t.Start? || t.Gated? ==> FreshAt(t, []);
      ResultIsTaken(t, n, s);
    }
  }

  lemma KidMayRun(t: Task, s: Run, i: nat, path: seq<nat>)
    requires t.InParallel? && NothingFresh(t) && i < |t.kids| && !t.kids[i].Done?
    requires Orderly(t.kids[i], path) && !Answers(t.kids[i], path) && Step(t.kids[i], s, UNLIMITED, path, NOW).Some?
    ensures Orderly(t, [i] + path) && !Answers(t, [i] + path) && Step(t, s, UNLIMITED, [i] + path, NOW).Some?
  {
    assert ([i] + path)[1..] == path;
  }

  lemma ResultIsTaken(t: Task, n: Node, s: Run)
    requires Of(t, n) && ((t.InParallel? && AllDone(t.kids)) || (IsNested(t) && t.cur.Done?))
    ensures Orderly(t, []) && !Answers(t, []) && Step(t, s, UNLIMITED, [], NOW).Some?
  {
  }

  // ----- waves that have settled

  /** n was started and nothing of it was answered yet. */
  predicate InWave(t: Task, n: Node) {
    Sane(t, n) && Unanswered(t)
  }

  /** And everything waits. */
  predicate Settled(t: Task, n: Node) {
    InWave(t, n) && Quiet(t)
  }

  lemma NotStuck(t: Task, path: seq<nat>)
    requires Healthy(t)
    ensures !StuckAt(t, path)
    decreases t
  {
    if t.InParallel? {
      if path != [] && path[0] < |t.kids| { NotStuck(t.kids[path[0]], path[1..]); }
    } else if IsNested(t) {
      NotStuck(t.cur, path);
    }
  }

  lemma {:induction false} RunnableHasKids(t: Task, n: Node)
    requires t.InParallel? && Of(t, n) && AlwaysAwaits(n)
    ensures t.kids != []
  {
  }

  /** A step without an answer keeps the wave going. */
  lemma WaveStep(t: Task, n: Node, s: Run, path: seq<nat>, t': Task, s': Run)
    requires InWave(t, n) && Runnable(n) && Orderly(t, path) && !Answers(t, path)
    requires Step(t, s, UNLIMITED, path, NOW) == Some((t', s'))
    ensures InWave(t', n)
  {
    if t.InParallel? { RunnableHasKids(t, n); }
    WaveMovers(t, n, path);
    NotStuck(t, path);
    WaveGoesOn(t, n, s, UNLIMITED, path, NOW, t', s');
    StepSane(t, n, s, path, NOW, t', s');
  }

  lemma {:induction false} Settles(t: Task, n: Node, s: Run) returns (t': Task, s': Run)
    requires InWave(t, n) && Runnable(n)
    ensures Runs(t, s, t', s') && Settled(t', n)
    decreases Left(Steps, t)
  {
    if Quiet(t) {
      t', s' := t, s;
      RunsSelf(t, s);
    } else {
      var path := SomethingRuns(t, n, s);
      var (t1, s1) := Step(t, s, UNLIMITED, path, NOW).value;
      WaveStep(t, n, s, path, t1, s1);
      StepCost(Steps, t, s, UNLIMITED, path, NOW, t1, s1);
      RunsOwn(t, s, path, t1, s1);
      t', s' := Settles(t1, n, s1);
      RunsThen(t, s, t1, s1, t', s');
    }
  }

  lemma StartsAndSettles(n: Node, id: string, depth: nat, s: Run) returns (t': Task, s': Run)
    requires Runnable(n) && id != ""
    ensures Runs(Start(n, id, depth), s, t', s') && Settled(t', n)
  {
    t', s' := Settles(Start(n, id, depth), n, s);
  }

  // ----- every runnable node completes

  lemma TakesAnswer(t: Task, s: Run, ev: Event, t1: Task, s1: Run)
    requires AwaitsAnswer(t) && !ev.paused && !ev.reply.Fails? && Step(t, s, UNLIMITED, [], ev) == Some((t1, s1))
    ensures Runs(t, s, t1, s1)
  {
    RunsStep(t, s, Move([], ev), t1, s1);
  }

  lemma RunningCompletes(t: Task, s: Run) returns (r: Value, s': Run)
    requires (t.ToolRunning? && t.node.ToolCall?) || (t.ActivityRunning? && t.node.Activity?)
    ensures Runs(t, s, Done(r), s')
  {
    var ev := Answer(if t.ToolRunning? then ToolOutput(false, Null) else ActivityResult(Null));
    var (done, s1) := Step(t, s, UNLIMITED, [], ev).value;
    TakesAnswer(t, s, ev, done, s1);
    r, s' := done.result, s1;
  }

  lemma LeafCompletes(t: Task, n: Node, s: Run) returns (r: Value, s': Run)
    requires Settled(t, n) && (t.ToolApproval? || t.ToolRunning? || t.PolicyCheck?)
    ensures Runs(t, s, Done(r), s')
  {
    var t1, s1 := t, s;
    RunsSelf(t, s);
    if t.ToolApproval? {
      var (running, s2) := ScheduleTool(n, t.id, s);
      TakesAnswer(t, s, Answer(Granted), running, s2);
      t1, s1 := running, s2;
    } else if t.PolicyCheck? {
      t1, s1 := ActivityScheduled(t, s);
    }
    r, s' := RunningCompletes(t1, s1);
    RunsThen(t, s, t1, s1, Done(r), s');
  }

  lemma ActivityScheduled(t: Task, s: Run) returns (t1: Task, s1: Run)
    requires t.PolicyCheck? && t.node.Activity?
    ensures Runs(t, s, t1, s1) && t1.ActivityRunning? && t1.node == t.node
  {
    var allows := Answer(PolicyAllows(Null));
    var (next, s2) := Step(t, s, UNLIMITED, [], allows).value;
    TakesAnswer(t, s, allows, next, s2);
    t1, s1 := next, s2;
    if t.node.approval {
      var (running, s3) := Step(next, s2, UNLIMITED, [], Answer(Granted)).value;
      TakesAnswer(next, s2, Answer(Granted), running, s3);
      RunsThen(t, s, next, s2, running, s3);
      t1, s1 := running, s3;
    }
  }

  /** The parent of a completed coroutine takes its result without waiting. */
  lemma Collects(f: Frame, t: Task, s: Run, r: Value, s1: Run, t2: Task, s2: Run)
    requires Fitting(f) && !f.KidFrame? && Runs(t, s, Done(r), s1)
    requires Step(Plug(f, Done(r)), s1, UNLIMITED, [], NOW) == Some((t2, s2))
    ensures Runs(Plug(f, t), s, t2, s2)
  {
    PlugRuns(f, t, s, Done(r), s1);
    RunsOwn(Plug(f, Done(r)), s1, [], t2, s2);
    RunsThen(Plug(f, t), s, Plug(f, Done(r)), s1, t2, s2);
  }

  lemma {:induction false} Completes(n: Node, id: string, depth: nat, s: Run) returns (r: Value, s': Run)
    requires Runnable(n) && id != ""
    ensures Runs(Start(n, id, depth), s, Done(r), s')
    decreases n, 2, 0
  {
    var t1, s1 := StartsAndSettles(n, id, depth, s);
    r, s' := SettledCompletes(n, t1, s1);
    RunsThen(Start(n, id, depth), s, t1, s1, Done(r), s');
  }

  lemma {:induction false} SettledCompletes(n: Node, t: Task, s: Run) returns (r: Value, s': Run)
    requires Settled(t, n) && Runnable(n)
    ensures Runs(t, s, Done(r), s')
    decreases n, 1, 0
  {
    match t {
      case InSequence(_, id, depth, _, cur) => r, s' := SequenceCompletes(n, id, depth, [], cur, s);
      case InParallel(_, id, depth, kids) => r, s' := KidsComplete(n, id, depth, kids, 0, s);
      case InBranch(_, id, taken, cur) =>
        r, s' := WrapperCompletes(BranchFrame(n, id, taken), Taken(n, taken), cur, s);
      case InLoop(_, id, depth, _, cur) => r, s' := LoopCompletes(n, id, depth, [], cur, s);
      case InSubgraph(_, id, cur) => r, s' := WrapperCompletes(SubgraphFrame(n, id), n.graph, cur, s);
      case _ => r, s' := LeafCompletes(t, n, s);
    }
  }

  lemma {:induction false} WrapperCompletes(f: Frame, c: Node, cur: Task, s: Run) returns (r: Value, s': Run)
    requires (f.BranchFrame? || f.SubgraphFrame?) && Settled(cur, c) && Runnable(c)
    ensures Runs(Plug(f, cur), s, Done(r), s')
    decreases c, 3, 0
  {
    var r1, s1 := SettledCompletes(c, cur, s);
    var (t2, s2) := Step(Plug(f, Done(r1)), s1, UNLIMITED, [], NOW).value;
    Collects(f, cur, s, r1, s1, t2, s2);
    r, s' := t2.result, s2;
  }

  lemma {:induction false} SequenceCompletes(n: Node, id: string, depth: nat, done: seq<Value>, cur: Task, s: Run)
    returns (r: Value, s': Run)
    requires Runnable(n) && n.Sequential? && |done| < |n.children| && Settled(cur, n.children[|done|])
    ensures Runs(InSequence(n, id, depth, done, cur), s, Done(r), s')
    decreases n, 0, |n.children| - |done|
  {
    var t := InSequence(n, id, depth, done, cur);
    var r1, s1 := SettledCompletes(n.children[|done|], cur, s);
    var (t2, s2) := CollectSequence(n, id, depth, done + [r1], s1);
    Collects(SequenceFrame(n, id, depth, done), cur, s, r1, s1, t2, s2);
    if |done| + 1 < |n.children| {
      var next, s3 := SequenceStartsNext(n, id, depth, done + [r1], s2);
      r, s' := SequenceCompletes(n, id, depth, done + [r1], next, s3);
      RunsThen(t2, s2, InSequence(n, id, depth, done + [r1], next), s3, Done(r), s');
      RunsThen(t, s, t2, s2, Done(r), s');
    } else {
      r, s' := t2.result, s2;
    }
  }

  lemma SequenceStartsNext(n: Node, id: string, depth: nat, done: seq<Value>, s: Run) returns (cur: Task, s': Run)
    requires Runnable(n) && n.Sequential? && |done| < |n.children|
    ensures Settled(cur, n.children[|done|])
    ensures Runs(InSequence(n, id, depth, done, Start(n.children[|done|], n.children[|done|].id, depth)), s,
                 InSequence(n, id, depth, done, cur), s')
  {
    var c := n.children[|done|];
    cur, s' := StartsAndSettles(c, c.id, depth, s);
    PlugRuns(SequenceFrame(n, id, depth, done), Start(c, c.id, depth), s, cur, s');
  }

  lemma {:induction false} LoopCompletes(n: Node, id: string, depth: nat, done: seq<Value>, cur: Task, s: Run)
    returns (r: Value, s': Run)
    requires Runnable(n) && n.Loop? && |done| < n.maxIterations && Settled(cur, n.body)
    ensures Runs(InLoop(n, id, depth, done, cur), s, Done(r), s')
    decreases n, 0, n.maxIterations - |done|
  {
    var t := InLoop(n, id, depth, done, cur);
    var r1, s1 := SettledCompletes(n.body, cur, s);
    var (t2, s2) := CollectLoop(n, id, depth, done + [r1], s1);
    Collects(LoopFrame(n, id, depth, done), cur, s, r1, s1, t2, s2);
    if t2.Done? {
      r, s' := t2.result, s2;
    } else {
      var next, s3 := StartsAndSettles(n.body, IterationId(n.body.id, |done| + 1), depth, s2);
      PlugRuns(LoopFrame(n, id, depth, done + [r1]), Start(n.body, IterationId(n.body.id, |done| + 1), depth), s2, next, s3);
      r, s' := LoopCompletes(n, id, depth, done + [r1], next, s3);
      RunsThen(t2, s2, InLoop(n, id, depth, done + [r1], next), s3, Done(r), s');
      RunsThen(t, s, t2, s2, Done(r), s');
    }
  }

  /** The kids from i on complete one after another, then the gather does. */
  lemma {:induction false} KidsComplete(n: Node, id: string, depth: nat, kids: seq<Task>, i: nat, s: Run)
    returns (r: Value, s': Run)
    requires Runnable(n) && (n.Parallel? || n.FanIn?) && |kids| == |n.children| && i <= |kids|
    requires forall j | 0 <= j < |kids| :: if j < i then kids[j].Done? else Settled(kids[j], n.children[j])
    ensures Runs(InParallel(n, id, depth, kids), s, Done(r), s')
    decreases n, 0, |kids| - i
  {
    var t := InParallel(n, id, depth, kids);
    if i == |kids| {
      var (done, s1) := Step(t, s, UNLIMITED, [], NOW).value;
      RunsOwn(t, s, [], done, s1);
      r, s' := done.result, s1;
    } else {
      var r1, s1 := SettledCompletes(n.children[i], kids[i], s);
      PlugRuns(KidFrame(n, id, depth, kids, i), kids[i], s, Done(r1), s1);
      assert kids[i := kids[i]] == kids;
      r, s' := KidsComplete(n, id, depth, kids[i := Done(r1)], i + 1, s1);
      RunsThen(t, s, InParallel(n, id, depth, kids[i := Done(r1)]), s1, Done(r), s');
    }
  }

  // ----- calls still to come

  /** Whatever happens, t still makes a call of kind k before it completes. */
  predicate Owes(k: Call, t: Task) {
    match t
    case Start(n, _, _) => Calls(k, true, n)
    case Gated(n, _, _) => Calls(k, true, n)
    case InSequence(n, _, _, done, cur) =>
      Owes(k, cur) || (n.Sequential? && exists m :: |done| < m < |n.children| && Calls(k, true, n.children[m]))
    case InParallel(_, _, _, kids) => exists i :: 0 <= i < |kids| && Owes(k, kids[i])
    case InBranch(_, _, _, cur) => Owes(k, cur)
    case InLoop(n, _, _, done, cur) =>
      Owes(k, cur) || (n.Loop? && |done| + 1 < n.maxIterations && n.stop.None? && Calls(k, true, n.body))
    case InSubgraph(_, _, cur) => Owes(k, cur)
    case _ => false
  }

  lemma LeafEntryAdmits(k: Call, t: Task, s: Run, path: seq<nat>, ev: Event, t': Task, s': Run)
    requires (t.Start? || t.Gated?) && t.id != "" && WellFormed(t.node) && (t.node.ToolCall? || t.node.Activity?)
    requires Calls(k, true, t.node) && Step(t, s, UNLIMITED, path, ev) == Some((t', s'))
    ensures t'.Gated? || Admission(k, t, s, t', s')
  {
  }

  lemma StructureOwes(k: Call, t': Task, n: Node, depth: nat)
    requires Calls(k, true, n)
    requires match t'
             case InSequence(m, _, _, done, cur) => m == n && n.Sequential? && done == [] && cur.Start? && cur.node == n.children[0]
             case InParallel(m, _, _, kids) => m == n && (n.Parallel? || n.FanIn?) && kids == StartAll(n.children, depth)
             case InLoop(m, _, _, done, cur) => m == n && n.Loop? && done == [] && cur.Start? && cur.node == n.body
             case InSubgraph(m, _, cur) => m == n && n.Subgraph? && cur.Start? && cur.node == n.graph
             case _ => false
    ensures Owes(k, t')
  {
    if t'.InParallel? {
      var i :| 0 <= i < |n.children| && Calls(k, true, n.children[i]);
      assert t'.kids[i].Start? && t'.kids[i].node == n.children[i];
    } else if t'.InSequence? {
      var m :| 0 <= m < |n.children| && Calls(k, true, n.children[m]);
      assert m == 0 ==> Owes(k, t'.cur);
    } else {
      assert Owes(k, t'.cur);
    }
  }

  lemma EntryOwes(k: Call, t: Task, n: Node, s: Run, path: seq<nat>, ev: Event, t': Task, s': Run)
    requires (t.Start? || t.Gated?) && Sane(t, n) && WellFormed(n) && Owes(k, t)
    requires Step(t, s, UNLIMITED, path, ev) == Some((t', s'))
    ensures Owes(k, t') || Admission(k, t, s, t', s')
  {
    if n.ToolCall? || n.Activity? {
      LeafEntryAdmits(k, t, s, path, ev, t', s');
    } else if !t'.Gated? {
      StructureOwes(k, t', n, t.depth);
    }
  }

  lemma OwnStepOwes(k: Call, t: Task, n: Node, s: Run, path: seq<nat>, ev: Event, t': Task, s': Run)
    requires !t.Start? && !t.Gated? && !(t.InParallel? && !AllDone(t.kids)) && !(IsNested(t) && !t.cur.Done?)
    requires Sane(t, n) && WellFormed(n) && Owes(k, t) && !ev.reply.Fails?
    requires Step(t, s, UNLIMITED, path, ev) == Some((t', s'))
    ensures Owes(k, t')
  {
    if t.InSequence? {
      var m :| |t.done| < m < |n.children| && Calls(k, true, n.children[m]);
      assert t'.InSequence? && |t'.done| == |t.done| + 1;
      assert m == |t'.done| ==> Owes(k, t'.cur);
    } else {
      assert t.InLoop? && t'.InLoop?;
      assert Owes(k, t'.cur);
    }
  }

  lemma {:induction false} StepOwes(k: Call, t: Task, n: Node, s: Run, path: seq<nat>, ev: Event, t': Task, s': Run)
    requires Sane(t, n) && WellFormed(n) && Owes(k, t) && !ev.reply.Fails?
    requires Step(t, s, UNLIMITED, path, ev) == Some((t', s'))
    ensures Owes(k, t') || Admission(k, t, s, t', s')
    decreases t
  {
    if t.InParallel? && !AllDone(t.kids) {
      var i :| 0 <= i < |t.kids| && Owes(k, t.kids[i]);
      var j := path[0];
      ParallelHeld(k, t, j, t'.kids[j]);
      if i == j {
        StepOwes(k, t.kids[j], n.children[j], s, path[1..], ev, t'.kids[j], s');
        assert Owes(k, t'.kids[j]) || Admission(k, t.kids[j], s, t'.kids[j], s');
      } else {
        assert t'.kids[i] == t.kids[i];
      }
    } else if IsNested(t) && !t.cur.Done? {
      if Owes(k, t.cur) { StepOwes(k, t.cur, Inner(t, n), s, path, ev, t'.cur, s'); }
    } else if t.Start? || t.Gated? {
      EntryOwes(k, t, n, s, path, ev, t', s');
    } else {
      OwnStepOwes(k, t, n, s, path, ev, t', s');
    }
  }

  /** A settled wave still owes the calls its node makes late. */
  lemma {:induction false} LateIsOwed(k: Call, t: Task, n: Node)
    requires Settled(t, n) && LateCall(k, true, n)
    ensures Owes(k, t)
    decreases t
  {
    if t.InParallel? {
      var i :| 0 <= i < |n.children| && LateCall(k, true, n.children[i]);
      LateIsOwed(k, t.kids[i], n.children[i]);
    } else if t.InSequence? {
      if LateCall(k, true, n.children[0]) { LateIsOwed(k, t.cur, n.children[0]); }
    } else if t.InLoop? {
      if LateCall(k, true, n.body) { LateIsOwed(k, t.cur, n.body); }
    } else if IsNested(t) {
      LateIsOwed(k, t.cur, Inner(t, n));
    }
  }

  /** A coroutine that completes owing a call admits one on the way: up to some configuration it runs promptly, and its
      next move is an admission. */
  lemma {:induction false} OwedIsAdmitted(k: Call, t: Task, n: Node, s: Run, moves: seq<Move>, r: Value, s': Run)
    returns (t1: Task, s1: Run, m: Move)
    requires Sane(t, n) && WellFormed(n) && Owes(k, t) && RunsBy(t, s, moves, Done(r), s')
    ensures Runs(t, s, t1, s1) && Admits(k, t1, s1, m)
    decreases |moves|
  {
    m := moves[0];
    var (t2, s2) := Step(t, s, UNLIMITED, m.path, m.ev).value;
    if Admission(k, t, s, t2, s2) {
      t1, s1 := t, s;
      RunsSelf(t, s);
    } else {
      RunsStep(t, s, m, t2, s2);
      StepOwes(k, t, n, s, m.path, m.ev, t2, s2);
      StepSane(t, n, s, m.path, m.ev, t2, s2);
      assert RunsBy(t2, s2, moves[1..], Done(r), s');
      t1, s1, m := OwedIsAdmitted(k, t2, n, s2, moves[1..], r, s');
      RunsThen(t, s, t2, s2, t1, s1);
    }
  }

  /** The move is prompt and admits a call. */
  ghost predicate Admits(k: Call, t: Task, s: Run, m: Move) {
    Prompt(t, m) && Step(t, s, UNLIMITED, m.path, m.ev).Some?
    && var (t', s') := Step(t, s, UNLIMITED, m.path, m.ev).value; Admission(k, t, s, t', s')
  }

  // ----- a call made while another is held

  /** A prompt run from here makes a call while another one is held. */
  ghost predicate Meets(k: Call, t: Task, s: Run) {
    exists t1, s1, m :: MeetsAt(k, t, s, t1, s1, m)
  }

  ghost predicate MeetsAt(k: Call, t: Task, s: Run, t1: Task, s1: Run, m: Move) {
    Runs(t, s, t1, s1) && Held(k, t1) > 0 && Admits(k, t1, s1, m)
  }

  lemma MeetsLater(k: Call, t: Task, s: Run, t1: Task, s1: Run)
    requires Runs(t, s, t1, s1) && Meets(k, t1, s1)
    ensures Meets(k, t, s)
  {
    var t2, s2, m :| MeetsAt(k, t1, s1, t2, s2, m);
    RunsThen(t, s, t1, s1, t2, s2);
    assert MeetsAt(k, t, s, t2, s2, m);
  }

  lemma PlugAdmits(f: Frame, k: Call, t: Task, s: Run, m: Move)
    requires Fitting(f) && Admits(k, t, s, m)
    ensures Admits(k, Plug(f, t), s, Through(f, m)) && Held(k, Plug(f, t)) >= Held(k, t)
  {
    var (t', s') := Step(t, s, UNLIMITED, m.path, m.ev).value;
    PlugStep(f, t, s, UNLIMITED, m, t', s');
    PlugPrompt(f, t, m);
    if f.KidFrame? {
      KidHeld(f, k, t, t');
    }
  }

  /** The kid that changes is all that changes what the gather holds. */
  lemma KidHeld(f: Frame, k: Call, t: Task, t': Task)
    requires f.KidFrame? && Fitting(f)
    ensures Held(k, Plug(f, t')) + Held(k, t) == Held(k, Plug(f, t)) + Held(k, t') && Held(k, Plug(f, t)) >= Held(k, t)
  {
    var kids := f.kids[f.i := t];
    KidsHold(k, f.n, f.id, f.depth, kids, f.i, t');
    assert kids[f.i := t'] == f.kids[f.i := t'];
    assert Plug(f, t) == InParallel(f.n, f.id, f.depth, kids);
    assert Plug(f, t') == InParallel(f.n, f.id, f.depth, kids[f.i := t']);
  }

  lemma KidsHold(k: Call, n: Node, id: string, depth: nat, kids: seq<Task>, i: nat, kid: Task)
    requires i < |kids|
    ensures Held(k, InParallel(n, id, depth, kids[i := kid])) + Held(k, kids[i]) ==
            Held(k, InParallel(n, id, depth, kids)) + Held(k, kid)
    ensures Held(k, InParallel(n, id, depth, kids)) >= Held(k, kids[i])
  {
    ParallelHeld(k, InParallel(n, id, depth, kids), i, kid);
    HeldByKid(k, InParallel(n, id, depth, kids), i);
  }

  lemma {:induction false} SumHasPart(xs: seq<nat>, i: nat, j: nat)
    requires i <= j < |xs|
    ensures Sum(xs, i) >= xs[j]
    decreases |xs| - i
  {
    if i < j { SumHasPart(xs, i + 1, j); }
  }

  lemma HeldByKid(k: Call, t: Task, i: nat)
    requires t.InParallel? && i < |t.kids|
    ensures Held(k, t) >= Held(k, t.kids[i])
  {
    assert Held(k, t) == Sum(KidsHeld(k, t.kids), 0);
    SumHasPart(KidsHeld(k, t.kids), 0, i);
  }

  lemma PlugMeets(f: Frame, k: Call, t: Task, s: Run)
    requires Fitting(f) && Meets(k, t, s)
    ensures Meets(k, Plug(f, t), s)
  {
    var t1, s1, m :| MeetsAt(k, t, s, t1, s1, m);
    PlugRuns(f, t, s, t1, s1);
    PlugAdmits(f, k, t1, s1, m);
    assert MeetsAt(k, Plug(f, t), s, Plug(f, t1), s1, Through(f, m));
  }

  // ----- in the wave

  /** The coroutine that will reach q is still fresh. */
  ghost predicate Ahead(t: Task, q: seq<nat>) {
    exists j :: 0 <= j <= |q| && FreshAt(t, q[..j])
  }

  lemma AheadUnder(t: Task, i: nat, q: seq<nat>)
    requires t.InParallel? && i < |t.kids|
    ensures Ahead(t.kids[i], q) ==> Ahead(t, [i] + q)
    ensures Ahead(t, [i] + q) ==> Ahead(t.kids[i], q)
  {
    if Ahead(t.kids[i], q) {
      var j :| 0 <= j <= |q| && FreshAt(t.kids[i], q[..j]);
      assert ([i] + q)[..j + 1] == [i] + q[..j];
      assert ([i] + q[..j])[1..] == q[..j];
      assert FreshAt(t, ([i] + q)[..j + 1]);
    }
    if Ahead(t, [i] + q) {
      var j :| 0 <= j <= |q| + 1 && FreshAt(t, ([i] + q)[..j]);
      assert j > 0;
      assert ([i] + q)[..j][1..] == q[..j - 1];
      assert FreshAt(t.kids[i], q[..j - 1]);
    }
  }

  lemma AheadInside(t: Task, q: seq<nat>)
    requires IsNested(t) && Unanswered(t)
    ensures Ahead(t, q) <==> Ahead(t.cur, q)
  {
    forall p ensures FreshAt(t, p) <==> FreshAt(t.cur, p) {}
  }

  lemma FreshIsAhead(t: Task, q: seq<nat>)
    requires t.Start? || t.Gated?
    ensures Ahead(t, q)
  {
    assert q[..0] == [];
    assert FreshAt(t, q[..0]);
  }

  /** A call made in front is still ahead, or its coroutine waits on it; if it is held, it is held there. */
  lemma {:induction false} FrontStatus(k: Call, t: Task, n: Node, p: seq<nat>)
    requires InWave(t, n) && FrontHold(k, true, n, p)
    ensures Ahead(t, p) || HeldAt(k, t, p)
    decreases t
  {
    if t.InParallel? {
      FrontStatus(k, t.kids[p[0]], n.children[p[0]], p[1..]);
      assert p == [p[0]] + p[1..];
      AheadUnder(t, p[0], p[1..]);
    } else if IsNested(t) {
      FrontStatus(k, t.cur, Inner(t, n), p);
      AheadInside(t, p);
    } else if t.Start? || t.Gated? {
      FreshIsAhead(t, p);
    }
  }

  lemma {:induction false} HeldAtIsHeld(k: Call, t: Task, p: seq<nat>)
    requires HeldAt(k, t, p)
    ensures Held(k, t) > 0
    decreases t
  {
    if t.InParallel? {
      HeldAtIsHeld(k, t.kids[p[0]], p[1..]);
      HeldByKid(k, t, p[0]);
    } else if IsNested(t) {
      HeldAtIsHeld(k, t.cur, p);
    }
  }

  lemma EntryAhead(k: Call, t: Task, n: Node, s: Run, q: seq<nat>, t': Task, s': Run)
    requires (t.Start? || t.Gated?) && InWave(t, n) && Runnable(n) && FrontCall(k, true, n, q)
    requires Step(t, s, UNLIMITED, [], NOW) == Some((t', s'))
    ensures Ahead(t', q) || (q == [] && Admission(k, t, s, t', s'))
  {
    if t'.InParallel? {
      assert t'.kids[q[0]].Start?;
      FreshIsAhead(t'.kids[q[0]], q[1..]);
      AheadUnder(t', q[0], q[1..]);
      assert q == [q[0]] + q[1..];
    } else if IsNested(t') {
      assert t'.cur.Start?;
      FreshIsAhead(t'.cur, q);
      EntrySetsOffWave(t, n, s, UNLIMITED, [], NOW, t', s');
      AheadInside(t', q);
    }
  }

  /** A fresh coroutine that runs leaves the calls ahead ahead, or makes the one it was to make. */
  lemma {:induction false} StepAhead(k: Call, t: Task, n: Node, s: Run, path: seq<nat>, q: seq<nat>, t': Task, s': Run)
    requires InWave(t, n) && Runnable(n) && FrontCall(k, true, n, q) && Ahead(t, q)
    requires FreshAt(t, path) && Step(t, s, UNLIMITED, path, NOW) == Some((t', s'))
    ensures Ahead(t', q) || (q == path && Admission(k, t, s, t', s'))
    decreases t
  {
    if t.InParallel? {
      var i, j := q[0], path[0];
      assert q == [i] + q[1..] && path == [j] + path[1..];
      AheadUnder(t, i, q[1..]);
      assert !t.kids[j].Done?;
      AheadUnder(t', i, q[1..]);
      if i == j {
        StepAhead(k, t.kids[j], n.children[j], s, path[1..], q[1..], t'.kids[j], s');
        ParallelHeld(k, t, j, t'.kids[j]);
      }
    } else if IsNested(t) {
      AheadInside(t, q);
      StepAhead(k, t.cur, Inner(t, n), s, path, q, t'.cur, s');
      WaveGoesOn(t, n, s, UNLIMITED, path, NOW, t', s');
      AheadInside(t', q);
    } else {
      EntryAhead(k, t, n, s, q, t', s');
    }
  }

  lemma StartsBefore(p: seq<nat>, j: nat, q: seq<nat>)
    requires j <= |p| && Before(p, q)
    ensures Before(p[..j], q)
  {
    assert j == |p| ==> p[..j] == p;
  }

  lemma NotAheadOfFirst(t: Task, q: seq<nat>, p: seq<nat>)
    requires Before(p, q) && FirstFresh(t, q)
    ensures !Ahead(t, p)
  {
    forall j | 0 <= j <= |p| ensures !FreshAt(t, p[..j]) {
      StartsBefore(p, j, q);
      BeforeTotal(p[..j], q);
    }
  }

  /** In a wave that has still to make the call q, after the hold p, the two meet. */
  lemma {:induction false} WaveMeets(k: Call, t: Task, n: Node, s: Run, p: seq<nat>, q: seq<nat>)
    requires InWave(t, n) && Runnable(n)
    requires FrontHold(k, true, n, p) && FrontCall(k, true, n, q) && Before(p, q) && Ahead(t, q)
    ensures Meets(k, t, s)
    decreases Left(Steps, t)
  {
    var first := FindFirst(t);
    var path := first.value;
    FirstRuns(t, n, s, path);
    var (t1, s1) := Step(t, s, UNLIMITED, path, NOW).value;
    StepAhead(k, t, n, s, path, q, t1, s1);
    if q == path && Admission(k, t, s, t1, s1) {
      NotAheadOfFirst(t, q, p);
      FrontStatus(k, t, n, p);
      HeldAtIsHeld(k, t, p);
      RunsSelf(t, s);
      assert MeetsAt(k, t, s, t, s, Move(path, NOW));
    } else {
      WaveStep(t, n, s, path, t1, s1);
      StepCost(Steps, t, s, UNLIMITED, path, NOW, t1, s1);
      RunsOwn(t, s, path, t1, s1);
      WaveMeets(k, t1, n, s1, p, q);
      MeetsLater(k, t, s, t1, s1);
    }
  }

  // ----- after the wave

  /** From a settled wave, a sequence gets to the start of a later child. */
  lemma {:induction false} SequenceReaches(n: Node, id: string, depth: nat, done: seq<Value>, cur: Task, s: Run, m: nat)
    returns (done': seq<Value>, s': Run)
    requires Runnable(n) && n.Sequential? && |done| < m < |n.children| && Settled(cur, n.children[|done|])
    ensures |done'| == m
    ensures Runs(InSequence(n, id, depth, done, cur), s,
                 InSequence(n, id, depth, done', Start(n.children[m], n.children[m].id, depth)), s')
    decreases m - |done|
  {
    var t := InSequence(n, id, depth, done, cur);
    var r1, s1 := SettledCompletes(n.children[|done|], cur, s);
    var (t2, s2) := CollectSequence(n, id, depth, done + [r1], s1);
    Collects(SequenceFrame(n, id, depth, done), cur, s, r1, s1, t2, s2);
    if |done| + 1 == m {
      done', s' := done + [r1], s2;
    } else {
      var next, s3 := SequenceStartsNext(n, id, depth, done + [r1], s2);
      done', s' := SequenceReaches(n, id, depth, done + [r1], next, s3, m);
      var last := InSequence(n, id, depth, done', Start(n.children[m], n.children[m].id, depth));
      RunsThen(t2, s2, InSequence(n, id, depth, done + [r1], next), s3, last, s');
      RunsThen(t, s, t2, s2, last, s');
    }
  }

  /** A settled wave of a node that holds a call comes to hold one, and then everything waits. */
  lemma {:induction false} ComesToHold(k: Call, n: Node, t: Task, s: Run) returns (t': Task, s': Run)
    requires Settled(t, n) && Runnable(n) && Holds(k, true, n)
    ensures Runs(t, s, t', s') && Quiet(t') && Held(k, t') > 0
    decreases n, 0
  {
    match t {
      case InSequence(_, id, depth, _, cur) =>
        var m :| 0 <= m < |n.children| && Holds(k, true, n.children[m]);
        if m == 0 {
          var t1, s1 := ComesToHold(k, n.children[0], cur, s);
          t', s' := HoldsInside(SequenceFrame(n, id, depth, []), k, cur, s, t1, s1);
        } else {
          t', s' := ComesToHoldLater(k, n, id, depth, cur, s, m);
        }
      case InParallel(_, id, depth, kids) =>
        var i :| 0 <= i < |n.children| && Holds(k, true, n.children[i]);
        var t1, s1 := ComesToHold(k, n.children[i], kids[i], s);
        assert kids[i := kids[i]] == kids;
        t', s' := HoldsInside(KidFrame(n, id, depth, kids, i), k, kids[i], s, t1, s1);
      case InLoop(_, id, depth, _, cur) =>
        var t1, s1 := ComesToHold(k, n.body, cur, s);
        t', s' := HoldsInside(LoopFrame(n, id, depth, []), k, cur, s, t1, s1);
      case InSubgraph(_, id, cur) =>
        var t1, s1 := ComesToHold(k, n.graph, cur, s);
        t', s' := HoldsInside(SubgraphFrame(n, id), k, cur, s, t1, s1);
      case _ =>
        t', s' := t, s;
        RunsSelf(t, s);
    }
  }

  lemma {:induction false} ComesToHoldLater(k: Call, n: Node, id: string, depth: nat, cur: Task, s: Run, m: nat)
    returns (t': Task, s': Run)
    requires Runnable(n) && n.Sequential? && 0 < m < |n.children| && Settled(cur, n.children[0]) && Holds(k, true, n.children[m])
    ensures Runs(InSequence(n, id, depth, [], cur), s, t', s') && Quiet(t') && Held(k, t') > 0
    decreases n.children[m], 1
  {
    var t := InSequence(n, id, depth, [], cur);
    var done, s1 := SequenceReaches(n, id, depth, [], cur, s, m);
    var next, s2 := SequenceStartsNext(n, id, depth, done, s1);
    var t2 := InSequence(n, id, depth, done, next);
    RunsThen(t, s, InSequence(n, id, depth, done, Start(n.children[m], n.children[m].id, depth)), s1, t2, s2);
    var t3, s3 := ComesToHold(k, n.children[m], next, s2);
    t', s' := HoldsInside(SequenceFrame(n, id, depth, done), k, next, s2, t3, s3);
    RunsThen(t, s, t2, s2, t', s');
  }

  lemma HoldsInside(f: Frame, k: Call, cur: Task, s: Run, t1: Task, s1: Run) returns (t': Task, s': Run)
    requires Fitting(f) && Runs(cur, s, t1, s1) && Quiet(t1) && Held(k, t1) > 0
    ensures Runs(Plug(f, cur), s, t', s') && Quiet(t') && Held(k, t') > 0 && t' == Plug(f, t1)
  {
    PlugRuns(f, cur, s, t1, s1);
    t', s' := Plug(f, t1), s1;
    if f.KidFrame? {
      assert t'.kids[f.i] == t1;
      HeldByKid(k, t', f.i);
    }
  }

  lemma FrontPairUnder(k: Call, n: Node, i: nat)
    requires (n.Parallel? || n.FanIn?) && i < |n.children| && FrontPair(k, true, n.children[i])
    ensures FrontPair(k, true, n)
  {
    var p, q :| FrontHold(k, true, n.children[i], p) && FrontCall(k, true, n.children[i], q) && Before(p, q);
    BeforeUnder(i, p, q);
    assert ([i] + p)[1..] == p && ([i] + q)[1..] == q;
    assert FrontHold(k, true, n, [i] + p) && FrontCall(k, true, n, [i] + q);
  }

  lemma FrontPairInside(k: Call, n: Node, c: Node)
    requires (n.Sequential? && n.children != [] && c == n.children[0]) || (n.Loop? && c == n.body) || (n.Subgraph? && c == n.graph)
    requires FrontPair(k, true, c)
    ensures FrontPair(k, true, n)
  {
    var p, q :| FrontHold(k, true, c, p) && FrontCall(k, true, c, q) && Before(p, q);
    assert FrontHold(k, true, n, p) && FrontCall(k, true, n, q);
  }

  /** One kid waits on a held call while another, which owes a call, runs on: it makes that call meanwhile. */
  lemma OwingKidMeets(k: Call, n: Node, id: string, depth: nat, kids: seq<Task>, i: nat, j: nat, s: Run)
    requires (n.Parallel? || n.FanIn?) && i < |kids| && j < |kids| && j < |n.children| && i != j
    requires forall x | 0 <= x < |kids| && x != j :: Quiet(kids[x])
    requires Held(k, kids[i]) > 0 && Runnable(n) && Settled(kids[j], n.children[j]) && LateCall(k, true, n.children[j])
    ensures Meets(k, InParallel(n, id, depth, kids), s)
  {
    var c := n.children[j];
    var r, s2 := SettledCompletes(c, kids[j], s);
    LateIsOwed(k, kids[j], c);
    var moves :| RunsBy(kids[j], s, moves, Done(r), s2);
    var t1, s1, m := OwedIsAdmitted(k, kids[j], c, s, moves, r, s2);
    var f := KidFrame(n, id, depth, kids, j);
    PlugRuns(f, kids[j], s, t1, s1);
    assert kids[j := kids[j]] == kids;
    PlugAdmits(f, k, t1, s1, m);
    assert Plug(f, t1).kids[i] == kids[i];
    HeldByKid(k, Plug(f, t1), i);
    assert MeetsAt(k, InParallel(n, id, depth, kids), s, Plug(f, t1), s1, Through(f, m));
  }

  /** Two kids: one comes to hold a call and waits, the other then makes the call it still owes. */
  lemma LatePairMeets(k: Call, n: Node, t: Task, s: Run)
    requires t.InParallel? && Settled(t, n) && Runnable(n) && LatePair(k, true, n.children)
    ensures Meets(k, t, s)
  {
    var i, j :| 0 <= i < |n.children| && 0 <= j < |n.children| && i != j
                && Holds(k, true, n.children[i]) && LateCall(k, true, n.children[j]);
    var kids := t.kids;
    var h, s1 := ComesToHold(k, n.children[i], kids[i], s);
    PlugRuns(KidFrame(n, t.id, t.depth, kids, i), kids[i], s, h, s1);
    assert kids[i := kids[i]] == kids;
    OwingKidMeets(k, n, t.id, t.depth, kids[i := h], i, j, s1);
    MeetsLater(k, t, s, InParallel(n, t.id, t.depth, kids[i := h]), s1);
  }

  lemma {:induction false} StartMeets(k: Call, n: Node, id: string, depth: nat, s: Run)
    requires Runnable(n) && id != "" && Collides(k, true, n)
    ensures Meets(k, Start(n, id, depth), s)
    decreases n, 2
  {
    var t := Start(n, id, depth);
    if FrontPair(k, true, n) {
      var p, q :| FrontHold(k, true, n, p) && FrontCall(k, true, n, q) && Before(p, q);
      FreshIsAhead(t, q);
      WaveMeets(k, t, n, s, p, q);
    } else {
      var t1, s1 := StartsAndSettles(n, id, depth, s);
      SettledMeets(k, n, t1, s1);
      MeetsLater(k, t, s, t1, s1);
    }
  }

  lemma {:induction false} SettledMeets(k: Call, n: Node, t: Task, s: Run)
    requires Settled(t, n) && Runnable(n) && Collides(k, true, n) && !FrontPair(k, true, n)
    ensures Meets(k, t, s)
    decreases n, 1
  {
    match t {
      case InSequence(_, id, depth, _, cur) =>
        var m :| 0 <= m < |n.children| && Collides(k, true, n.children[m]);
        if m == 0 {
          if FrontPair(k, true, n.children[0]) { FrontPairInside(k, n, n.children[0]); }
          SettledMeets(k, n.children[0], cur, s);
          PlugMeets(SequenceFrame(n, id, depth, []), k, cur, s);
        } else {
          var c := n.children[m];
          var done, s1 := SequenceReaches(n, id, depth, [], cur, s, m);
          StartMeets(k, c, c.id, depth, s1);
          PlugMeets(SequenceFrame(n, id, depth, done), k, Start(c, c.id, depth), s1);
          MeetsLater(k, t, s, InSequence(n, id, depth, done, Start(c, c.id, depth)), s1);
        }
      case InParallel(_, _, _, _) => SettledGatherMeets(k, n, t, s);
      case InLoop(_, id, depth, _, cur) =>
        if FrontPair(k, true, n.body) { FrontPairInside(k, n, n.body); }
        SettledMeets(k, n.body, cur, s);
        PlugMeets(LoopFrame(n, id, depth, []), k, cur, s);
      case InSubgraph(_, id, cur) =>
        if FrontPair(k, true, n.graph) { FrontPairInside(k, n, n.graph); }
        SettledMeets(k, n.graph, cur, s);
        PlugMeets(SubgraphFrame(n, id), k, cur, s);
    }
  }

  lemma {:induction false} SettledGatherMeets(k: Call, n: Node, t: Task, s: Run)
    requires t.InParallel? && Settled(t, n) && Runnable(n) && Collides(k, true, n) && !FrontPair(k, true, n)
    ensures Meets(k, t, s)
    decreases n, 0
  {
    if LatePair(k, true, n.children) {
      LatePairMeets(k, n, t, s);
    } else {
      var i :| 0 <= i < |n.children| && Collides(k, true, n.children[i]);
      if FrontPair(k, true, n.children[i]) { FrontPairUnder(k, n, i); }
      SettledMeets(k, n.children[i], t.kids[i], s);
      PlugMeets(KidFrame(n, t.id, t.depth, t.kids, i), k, t.kids[i], s);
      assert t.kids[i := t.kids[i]] == t.kids;
    }
  }

  // ----- the same run under a limit

  lemma {:induction false} StepUnderLimit(k: Call, limit: int, t: Task, s: Run, path: seq<nat>, ev: Event, t': Task, s': Run)
    requires Step(t, s, UNLIMITED, path, ev) == Some((t', s'))
    requires Admission(k, t, s, t', s') ==> Count(k, s) < limit
    ensures Step(t, s, LimitOnly(k, limit), path, ev) == Some((t', s'))
    decreases t
  {
    if t.InParallel? && !AllDone(t.kids) {
      ParallelHeld(k, t, path[0], t'.kids[path[0]]);
      StepUnderLimit(k, limit, t.kids[path[0]], s, path[1..], ev, t'.kids[path[0]], s');
    } else if IsNested(t) && !t.cur.Done? {
      StepUnderLimit(k, limit, t.cur, s, path, ev, t'.cur, s');
    } else if t.Start? || t.Gated? {
      EntryUnderLimit(k, limit, t, s, path, ev, t', s');
    }
  }

  lemma EntryUnderLimit(k: Call, limit: int, t: Task, s: Run, path: seq<nat>, ev: Event, t': Task, s': Run)
    requires (t.Start? || t.Gated?) && Step(t, s, UNLIMITED, path, ev) == Some((t', s'))
    requires Admission(k, t, s, t', s') ==> Count(k, s) < limit
    ensures Step(t, s, LimitOnly(k, limit), path, ev) == Some((t', s'))
  {
  }

  /** Every call admitted along the run is admitted below the limit. */
  ghost predicate AdmitsBelow(k: Call, limit: int, t: Task, s: Run, moves: seq<Move>)
    decreases |moves|
  {
    moves == [] ||
    match Step(t, s, UNLIMITED, moves[0].path, moves[0].ev)
    case None => true
    case Some((t', s')) => (Admission(k, t, s, t', s') ==> Count(k, s) < limit) && AdmitsBelow(k, limit, t', s', moves[1..])
  }

  lemma {:induction false} RunsUnderLimit(k: Call, limit: int, t: Task, s: Run, moves: seq<Move>, t': Task, s': Run)
    requires RunsBy(t, s, moves, t', s') && AdmitsBelow(k, limit, t, s, moves)
    ensures AllPrompt(t, s, LimitOnly(k, limit), moves) && Execute(t, s, LimitOnly(k, limit), moves) == Some((t', s'))
    decreases |moves|
  {
    if moves != [] {
      var (t1, s1) := Step(t, s, UNLIMITED, moves[0].path, moves[0].ev).value;
      StepUnderLimit(k, limit, t, s, moves[0].path, moves[0].ev, t1, s1);
      assert RunsBy(t1, s1, moves[1..], t', s');
      RunsUnderLimit(k, limit, t1, s1, moves[1..], t', s');
    }
  }

  /** Counts never fall, so a run that ends below a limit admits everything below it. */
  lemma {:induction false} EndsBelow(k: Call, limit: int, t: Task, s: Run, moves: seq<Move>, t': Task, s': Run)
    requires RunsBy(t, s, moves, t', s') && Count(k, s') < limit
    ensures AdmitsBelow(k, limit, t, s, moves) && Count(k, s) <= Count(k, s')
    decreases |moves|
  {
    if moves != [] {
      var (t1, s1) := Step(t, s, UNLIMITED, moves[0].path, moves[0].ev).value;
      StepCounter(k, t, s, UNLIMITED, moves[0].path, moves[0].ev, t1, s1);
      assert RunsBy(t1, s1, moves[1..], t', s');
      EndsBelow(k, limit, t1, s1, moves[1..], t', s');
    }
  }

  lemma {:induction false} BelowThen(k: Call, limit: int, t: Task, s: Run, first: seq<Move>, t1: Task, s1: Run, second: seq<Move>)
    requires RunsBy(t, s, first, t1, s1) && AdmitsBelow(k, limit, t, s, first) && AdmitsBelow(k, limit, t1, s1, second)
    ensures AdmitsBelow(k, limit, t, s, first + second)
    decreases |first|
  {
    if first == [] {
      assert first + second == second;
    } else {
      var (t2, s2) := Step(t, s, UNLIMITED, first[0].path, first[0].ev).value;
      assert RunsBy(t2, s2, first[1..], t1, s1);
      BelowThen(k, limit, t2, s2, first[1..], t1, s1, second);
      assert (first + second)[1..] == first[1..] + second;
    }
  }

  lemma {:induction false} BelowMore(k: Call, limit: int, more: int, t: Task, s: Run, moves: seq<Move>)
    requires AdmitsBelow(k, limit, t, s, moves) && limit <= more
    ensures AdmitsBelow(k, more, t, s, moves)
    decreases |moves|
  {
    if moves != [] && Step(t, s, UNLIMITED, moves[0].path, moves[0].ev).Some? {
      var (t1, s1) := Step(t, s, UNLIMITED, moves[0].path, moves[0].ev).value;
      BelowMore(k, limit, more, t1, s1, moves[1..]);
    }
  }

  /** Without an answer no held call is let go. */
  lemma {:induction false} OwnStepKeepsHeld(k: Call, t: Task, s: Run, path: seq<nat>, ev: Event, t': Task, s': Run)
    requires Orderly(t, path) && !Answers(t, path) && Step(t, s, UNLIMITED, path, ev) == Some((t', s'))
    ensures Held(k, t') >= Held(k, t)
    decreases t
  {
    if t.InParallel? && !AllDone(t.kids) {
      ParallelHeld(k, t, path[0], t'.kids[path[0]]);
      OwnStepKeepsHeld(k, t.kids[path[0]], s, path[1..], ev, t'.kids[path[0]], s');
    } else if IsNested(t) && !t.cur.Done? {
      OwnStepKeepsHeld(k, t.cur, s, path, ev, t'.cur, s');
    } else if t.InParallel? {
      SumOfZeros(KidsHeld(k, t.kids), 0);
      assert Held(k, t) == Sum(KidsHeld(k, t.kids), 0);
    }
  }

  /** Once more calls are admitted than the limit allows, the run goes on until everything waits, under a limit that is
      still below what was admitted: the last call admitted sets it. */
  lemma {:induction false} RunsOnPast(k: Call, limit: int, t: Task, n: Node, s: Run)
    returns (more: int, moves: seq<Move>, t': Task, s': Run)
    requires Sane(t, n) && WellFormed(n) && Held(k, t) > 0 && Count(k, s) + Held(k, t) > limit
    ensures more >= limit && RunsBy(t, s, moves, t', s') && AdmitsBelow(k, more, t, s, moves)
    ensures Sane(t', n) && Quiet(t') && Count(k, s') + Held(k, t') > more
    decreases Left(Steps, t)
  {
    if Quiet(t) {
      more, moves, t', s' := limit, [], t, s;
    } else {
      var path := SomethingRuns(t, n, s);
      var (t1, s1) := Step(t, s, UNLIMITED, path, NOW).value;
      StepSane(t, n, s, path, NOW, t1, s1);
      StepCost(Steps, t, s, UNLIMITED, path, NOW, t1, s1);
      StepCounter(k, t, s, UNLIMITED, path, NOW, t1, s1);
      OwnStepKeepsHeld(k, t, s, path, NOW, t1, s1);
      var next := if Admission(k, t, s, t1, s1) && Count(k, s) >= limit then Count(k, s) + 1 else limit;
      var rest: seq<Move>;
      more, rest, t', s' := RunsOnPast(k, next, t1, n, s1);
      moves := [Move(path, NOW)] + rest;
      assert moves[1..] == rest;
    }
  }

  lemma {:induction false} AnswerAdmitsNothing(k: Call, t: Task, s: Run, path: seq<nat>, ev: Event, t': Task, s': Run)
    requires Answers(t, path) && Orderly(t, path) && Step(t, s, UNLIMITED, path, ev) == Some((t', s'))
    ensures !Admission(k, t, s, t', s')
    decreases t
  {
    if t.InParallel? && !AllDone(t.kids) {
      ParallelHeld(k, t, path[0], t'.kids[path[0]]);
      AnswerAdmitsNothing(k, t.kids[path[0]], s, path[1..], ev, t'.kids[path[0]], s');
    } else if IsNested(t) && !t.cur.Done? {
      AnswerAdmitsNothing(k, t.cur, s, path, ev, t'.cur, s');
    } else {
      OwnStepAdmitsNothing(k, t, s, UNLIMITED, path, ev, t', s');
    }
  }

  // ----- what is held is let go

  lemma {:induction false} LetsOneGo(k: Call, t: Task, n: Node, s: Run) returns (m: Move, t': Task, s': Run)
    requires Of(t, n) && Quiet(t) && Held(k, t) > 0
    ensures Prompt(t, m) && Step(t, s, UNLIMITED, m.path, m.ev) == Some((t', s'))
    ensures Quiet(t') && !t'.Done? && Count(k, s') + Held(k, t') == Count(k, s) + Held(k, t)
    decreases t
  {
    if t.InParallel? {
      assert Held(k, t) == Sum(KidsHeld(k, t.kids), 0);
      var i := SumHasPositive(KidsHeld(k, t.kids), 0);
      var m1, kid, s1 := LetsOneGo(k, t.kids[i], n.children[i], s);
      m, t', s' := LetsOneGoInside(KidFrame(t.node, t.id, t.depth, t.kids, i), k, t.kids[i], s, m1, kid, s1);
      assert t.kids[i := t.kids[i]] == t.kids;
    } else if t.InSequence? {
      var m1, cur, s1 := LetsOneGo(k, t.cur, n.children[|t.done|], s);
      m, t', s' := LetsOneGoInside(SequenceFrame(t.node, t.id, t.depth, t.done), k, t.cur, s, m1, cur, s1);
    } else if t.InBranch? {
      var m1, cur, s1 := LetsOneGo(k, t.cur, Taken(n, t.taken), s);
      m, t', s' := LetsOneGoInside(BranchFrame(t.node, t.id, t.taken), k, t.cur, s, m1, cur, s1);
    } else if t.InLoop? {
      var m1, cur, s1 := LetsOneGo(k, t.cur, n.body, s);
      m, t', s' := LetsOneGoInside(LoopFrame(t.node, t.id, t.depth, t.done), k, t.cur, s, m1, cur, s1);
    } else if t.InSubgraph? {
      var m1, cur, s1 := LetsOneGo(k, t.cur, n.graph, s);
      m, t', s' := LetsOneGoInside(SubgraphFrame(t.node, t.id), k, t.cur, s, m1, cur, s1);
    } else {
      m := Move([], Answer(if t.PolicyCheck? then PolicyAllows(Null) else Granted));
      var (t1, s1) := Step(t, s, UNLIMITED, m.path, m.ev).value;
      t', s' := t1, s1;
    }
  }

  lemma LetsOneGoInside(f: Frame, k: Call, t: Task, s: Run, m1: Move, t1: Task, s1: Run) returns (m: Move, t': Task, s': Run)
    requires Fitting(f) && !t.Done? && Prompt(t, m1) && Step(t, s, UNLIMITED, m1.path, m1.ev) == Some((t1, s1))
    requires Quiet(t1) && !t1.Done? && Count(k, s1) + Held(k, t1) == Count(k, s) + Held(k, t)
    ensures Prompt(Plug(f, t), m) && Step(Plug(f, t), s, UNLIMITED, m.path, m.ev) == Some((t', s'))
    ensures Quiet(t') && !t'.Done? && Count(k, s') + Held(k, t') == Count(k, s) + Held(k, Plug(f, t))
  {
    m, t', s' := Through(f, m1), Plug(f, t1), s1;
    PlugStep(f, t, s, UNLIMITED, m1, t1, s1);
    PlugPrompt(f, t, m1);
    if f.KidFrame? {
      KidHeld(f, k, t, t1);
      assert t'.kids[f.i] == t1;
    }
  }

  /** From a state in which everything waits, all held calls are let go and none is admitted. */
  lemma {:induction false} LetsAllGo(k: Call, limit: int, t: Task, n: Node, s: Run) returns (moves: seq<Move>, t': Task, s': Run)
    requires Sane(t, n) && WellFormed(n) && Quiet(t)
    ensures RunsBy(t, s, moves, t', s') && AdmitsBelow(k, limit, t, s, moves)
    ensures Sane(t', n) && Count(k, s') >= Count(k, s) + Held(k, t)
    decreases Left(Steps, t)
  {
    if Held(k, t) == 0 {
      moves, t', s' := [], t, s;
    } else {
      var m, t1, s1 := LetsOneGo(k, t, n, s);
      StepSane(t, n, s, m.path, m.ev, t1, s1);
      StepCost(Steps, t, s, UNLIMITED, m.path, m.ev, t1, s1);
      var rest: seq<Move>;
      rest, t', s' := LetsAllGo(k, limit, t1, n, s1);
      moves := [m] + rest;
      assert moves[1..] == rest;
    }
  }

  // ----- the overrun

  lemma {:induction false} RunsSane(t: Task, n: Node, s: Run, moves: seq<Move>, t': Task, s': Run)
    requires Sane(t, n) && WellFormed(n) && RunsBy(t, s, moves, t', s')
    ensures Sane(t', n)
    decreases |moves|
  {
    if moves != [] {
      var (t1, s1) := Step(t, s, UNLIMITED, moves[0].path, moves[0].ev).value;
      StepSane(t, n, s, moves[0].path, moves[0].ev, t1, s1);
      assert RunsBy(t1, s1, moves[1..], t', s');
      RunsSane(t1, n, s1, moves[1..], t', s');
    }
  }

  lemma JoinBelow(k: Call, limit: int, t: Task, s: Run, first: seq<Move>, t1: Task, s1: Run, second: seq<Move>, t2: Task, s2: Run)
    requires RunsBy(t, s, first, t1, s1) && RunsBy(t1, s1, second, t2, s2)
    requires AdmitsBelow(k, limit, t, s, first) && AdmitsBelow(k, limit, t1, s1, second)
    ensures RunsBy(t, s, first + second, t2, s2) && AdmitsBelow(k, limit, t, s, first + second)
  {
    PromptThen(t, s, UNLIMITED, first, second, t1, s1);
    ExecuteThen(t, s, UNLIMITED, first, second, t1, s1);
    BelowThen(k, limit, t, s, first, t1, s1, second);
  }

  /** What an admission while a call is held leads to: everything admitted so far was admitted below one more than the
      count, and more than that is admitted. */
  lemma MeetingPasses(k: Call, t: Task, n: Node, s: Run) returns (limit: int, moves: seq<Move>, t2: Task, s2: Run)
    requires Sane(t, n) && WellFormed(n) && Meets(k, t, s)
    ensures limit > 0 && RunsBy(t, s, moves, t2, s2) && AdmitsBelow(k, limit, t, s, moves)
    ensures Sane(t2, n) && Held(k, t2) > 0 && Count(k, s2) + Held(k, t2) > limit
  {
    var t1, s1, m :| MeetsAt(k, t, s, t1, s1, m);
    var first :| RunsBy(t, s, first, t1, s1);
    limit := Count(k, s1) + 1;
    EndsBelow(k, limit, t, s, first, t1, s1);
    RunsSane(t, n, s, first, t1, s1);
    var (t3, s3) := Step(t1, s1, UNLIMITED, m.path, m.ev).value;
    if Answers(t1, m.path) { AnswerAdmitsNothing(k, t1, s1, m.path, m.ev, t3, s3); }
    OwnStepKeepsHeld(k, t1, s1, m.path, m.ev, t3, s3);
    StepSane(t1, n, s1, m.path, m.ev, t3, s3);
    t2, s2 := t3, s3;
    assert [m][1..] == [];
    assert RunsBy(t2, s2, [], t2, s2);
    assert RunsBy(t1, s1, [m], t2, s2);
    JoinBelow(k, limit, t, s, first, t1, s1, [m], t2, s2);
    moves := first + [m];
  }

  /** A runnable graph that surely collides exceeds some limit under a prompt schedule in which nothing fails. */
  lemma CollisionOverruns(k: Call, n: Node, runId: string) returns (limit: int, moves: seq<Move>, t': Task, s': Run)
    requires Runnable(n) && Collides(k, true, n)
    ensures Execute(Root(n), NewRun(runId), LimitOnly(k, limit), moves) == Some((t', s'))
    ensures AllPrompt(Root(n), NewRun(runId), LimitOnly(k, limit), moves) && Healthy(t')
    ensures 0 < limit < Count(k, s')
  {
    var t, s := Root(n), NewRun(runId);
    StartMeets(k, n, n.id, 0, s);
    var least, first, t1, s1 := MeetingPasses(k, t, n, s);
    var more, second, t2, s2 := RunsOnPast(k, least, t1, n, s1);
    limit := more;
    BelowMore(k, least, limit, t, s, first);
    JoinBelow(k, limit, t, s, first, t1, s1, second, t2, s2);
    var third: seq<Move>;
    third, t', s' := LetsAllGo(k, limit, t2, n, s2);
    JoinBelow(k, limit, t, s, first + second, t2, s2, third, t', s');
    moves := first + second + third;
    RunsUnderLimit(k, limit, t, s, moves, t', s');
  }

  // ----- exactly the graphs that keep their limits

  /** No conditionals, and loops that always run all their iterations. */
  predicate Definite(n: Node) {
    match n
    case Sequential(_, children) => forall i | 0 <= i < |children| :: Definite(children[i])
    case Parallel(_, children) => forall i | 0 <= i < |children| :: Definite(children[i])
    case FanIn(_, children) => forall i | 0 <= i < |children| :: Definite(children[i])
    case Conditional(_, _, _, _) => false
    case Loop(_, _, stop, body) => stop.None? && Definite(body)
    case Subgraph(_, graph) => Definite(graph)
    case _ => true
  }

  lemma {:induction false} SureCalls(k: Call, n: Node)
    requires Definite(n)
    ensures Calls(k, true, n) == Calls(k, false, n)
  {
    match n
    case Sequential(_, children) => SureCallsBelow(k, children);
    case Parallel(_, children) => SureCallsBelow(k, children);
    case FanIn(_, children) => SureCallsBelow(k, children);
    case Loop(_, _, _, body) => SureCalls(k, body);
    case Subgraph(_, graph) => SureCalls(k, graph);
    case _ =>
  }

  lemma {:induction false} SureCallsBelow(k: Call, children: seq<Node>)
    requires forall i | 0 <= i < |children| :: Definite(children[i])
    ensures forall i | 0 <= i < |children| :: Calls(k, true, children[i]) == Calls(k, false, children[i])
  {
    forall i | 0 <= i < |children| ensures Calls(k, true, children[i]) == Calls(k, false, children[i]) {
      SureCalls(k, children[i]);
    }
  }

  lemma {:induction false} SureHolds(k: Call, n: Node)
    requires Definite(n)
    ensures Holds(k, true, n) == Holds(k, false, n)
  {
    match n
    case Sequential(_, children) => SureHoldsBelow(k, children);
    case Parallel(_, children) => SureHoldsBelow(k, children);
    case FanIn(_, children) => SureHoldsBelow(k, children);
    case Loop(_, _, _, body) => SureHolds(k, body);
    case Subgraph(_, graph) => SureHolds(k, graph);
    case _ =>
  }

  lemma {:induction false} SureHoldsBelow(k: Call, children: seq<Node>)
    requires forall i | 0 <= i < |children| :: Definite(children[i])
    ensures forall i | 0 <= i < |children| :: Holds(k, true, children[i]) == Holds(k, false, children[i])
  {
    forall i | 0 <= i < |children| ensures Holds(k, true, children[i]) == Holds(k, false, children[i]) {
      SureHolds(k, children[i]);
    }
  }

  lemma {:induction false} SureFront(k: Call, n: Node, p: seq<nat>)
    requires Definite(n)
    ensures FrontHold(k, true, n, p) == FrontHold(k, false, n, p) && FrontCall(k, true, n, p) == FrontCall(k, false, n, p)
  {
    match n
    case Sequential(_, children) => if children != [] { SureFront(k, children[0], p); }
    case Parallel(_, children) => if p != [] && p[0] < |children| { SureFront(k, children[p[0]], p[1..]); }
    case FanIn(_, children) => if p != [] && p[0] < |children| { SureFront(k, children[p[0]], p[1..]); }
    case Loop(_, _, _, body) => SureFront(k, body, p);
    case Subgraph(_, graph) => SureFront(k, graph, p);
    case _ =>
  }

  lemma {:induction false} SureLate(k: Call, n: Node)
    requires Definite(n)
    ensures LateCall(k, true, n) == LateCall(k, false, n)
  {
    match n
    case Sequential(_, children) =>
      SureLateBelow(k, children);
      SureCallsBelow(k, children);
    case Parallel(_, children) => SureLateBelow(k, children);
    case FanIn(_, children) => SureLateBelow(k, children);
    case Loop(_, _, _, body) =>
      SureLate(k, body);
      SureCalls(k, body);
    case Subgraph(_, graph) => SureLate(k, graph);
    case _ =>
  }

  lemma {:induction false} SureLateBelow(k: Call, children: seq<Node>)
    requires forall i | 0 <= i < |children| :: Definite(children[i])
    ensures forall i | 0 <= i < |children| :: LateCall(k, true, children[i]) == LateCall(k, false, children[i])
  {
    forall i | 0 <= i < |children| ensures LateCall(k, true, children[i]) == LateCall(k, false, children[i]) {
      SureLate(k, children[i]);
    }
  }

  lemma SurePairs(k: Call, n: Node)
    requires (n.Parallel? || n.FanIn?) && Definite(n)
    ensures FrontPair(k, false, n) ==> FrontPair(k, true, n)
    ensures LatePair(k, false, n.children) ==> LatePair(k, true, n.children)
  {
    if FrontPair(k, false, n) {
      var p, q :| FrontHold(k, false, n, p) && FrontCall(k, false, n, q) && Before(p, q);
      SureFront(k, n, p);
      SureFront(k, n, q);
      assert FrontHold(k, true, n, p) && FrontCall(k, true, n, q);
    }
    SureHoldsBelow(k, n.children);
    SureLateBelow(k, n.children);
  }

  lemma {:induction false} SureCollides(k: Call, n: Node)
    requires Definite(n) && Collides(k, false, n)
    ensures Collides(k, true, n)
    decreases n, 1
  {
    match n
    case Sequential(_, children) =>
      var i :| 0 <= i < |children| && Collides(k, false, children[i]);
      SureCollides(k, children[i]);
    case Parallel(_, children) => SureCollidesGather(k, n);
    case FanIn(_, children) => SureCollidesGather(k, n);
    case Loop(_, _, _, body) => SureCollides(k, body);
    case Subgraph(_, graph) => SureCollides(k, graph);
  }

  lemma {:induction false} SureCollidesGather(k: Call, n: Node)
    requires (n.Parallel? || n.FanIn?) && Definite(n) && Collides(k, false, n)
    ensures Collides(k, true, n)
    decreases n, 0
  {
    SurePairs(k, n);
    if !FrontPair(k, false, n) && !LatePair(k, false, n.children) {
      var i :| 0 <= i < |n.children| && Collides(k, false, n.children[i]);
      SureCollides(k, n.children[i]);
    }
  }

  /** No schedule of the event loop, under whatever limits, makes more calls than allowed. */
  ghost predicate KeepsLimit(k: Call, n: Node) {
    forall runId, b, moves | Limit(k, b).Some? && InOrder(Root(n), NewRun(runId), b, moves) :: WithinLimit(k, n, runId, b, moves)
  }

  predicate WithinLimit(k: Call, n: Node, runId: string, b: Limits, moves: seq<Move>)
    requires Limit(k, b).Some?
  {
    var r := Execute(Root(n), NewRun(runId), b, moves);
    r.Some? ==> Count(k, r.value.1) <= Allowed(Limit(k, b).value)
  }

  /** Under the event loop a graph keeps its limit exactly when in none of its gathers a call can be made while another
      one is held. For graphs whose nodes all await something: if nothing can collide, the limit is kept; if something
      surely collides, it is not; and for graphs without conditionals, whose loops run all their iterations, one of the
      two is the case. */
  lemma LimitKeptIff(k: Call, n: Node)
    requires Runnable(n)
    ensures !Collides(k, false, n) ==> KeepsLimit(k, n)
    ensures Collides(k, true, n) ==> !KeepsLimit(k, n)
    ensures Definite(n) ==> (KeepsLimit(k, n) <==> !Collides(k, false, n))
  {
    if !Collides(k, false, n) {
      forall runId, b, moves | Limit(k, b).Some? && InOrder(Root(n), NewRun(runId), b, moves)
        ensures WithinLimit(k, n, runId, b, moves)
      {
        if Execute(Root(n), NewRun(runId), b, moves).Some? {
          var (t', s') := Execute(Root(n), NewRun(runId), b, moves).value;
          NoCollisionLimitExact(k, n, runId, b, moves, t', s');
        }
      }
    } else if Definite(n) {
      SureCollides(k, n);
    }
    if Collides(k, true, n) {
      var limit, moves, t', s' := CollisionOverruns(k, n, "r");
      var b := LimitOnly(k, limit);
      PromptIsInOrder(Root(n), NewRun("r"), b, moves);
      assert Limit(k, b) == Some(limit);
      assert !WithinLimit(k, n, "r", b, moves);
    }
  }

  lemma OnlyTheSecondIsHeld(a: Node, b: Node, p: seq<nat>, q: seq<nat>)
    requires a.ToolCall? && b.ToolCall? && a.approval && !b.approval
    requires FrontHold(Tools, false, Parallel("p", [b, a]), p) && FrontCall(Tools, false, Parallel("p", [b, a]), q)
    ensures !Before(p, q)
  {
    var children := [b, a];
    assert FrontHold(Tools, false, children[p[0]], p[1..]) && FrontCall(Tools, false, children[q[0]], q[1..]);
    assert p[0] == 1 && p[1..] == [] && q[1..] == [] && q[0] < 2;
    assert p == [p[0]] + p[1..] && q == [q[0]] + q[1..];
    assert !LexBefore(p[1..], q[1..]);
  }

  /** An ungated call listed first is counted before a gated one is checked: the pair keeps every limit. Listed the other
      way round it does not. */
  lemma OrderOfTheListMatters(a: Node, b: Node)
    requires a.ToolCall? && b.ToolCall? && a.approval && !b.approval && a.id != "" && b.id != ""
    ensures KeepsLimit(Tools, Parallel("p", [b, a]))
    ensures !KeepsLimit(Tools, Parallel("p", [a, b]))
  {
    var safe, unsafe := Parallel("p", [b, a]), Parallel("p", [a, b]);
    assert safe.children[0] == b && safe.children[1] == a;
    if FrontPair(Tools, false, safe) {
      var p, q :| FrontHold(Tools, false, safe, p) && FrontCall(Tools, false, safe, q) && Before(p, q);
      OnlyTheSecondIsHeld(a, b, p, q);
    }
    forall j | 0 <= j < |safe.children| ensures !LateCall(Tools, false, safe.children[j]) {}
    assert Runnable(safe);
    assert !Collides(Tools, false, safe);
    LimitKeptIff(Tools, safe);
    assert unsafe.children[0] == a && unsafe.children[1] == b;
    assert LexBefore([0], [1]);
    assert FrontHold(Tools, true, unsafe, [0]) && FrontCall(Tools, true, unsafe, [1]) && Before([0], [1]);
    assert Runnable(unsafe) && Collides(Tools, true, unsafe);
    LimitKeptIff(Tools, unsafe);
  }

  /** An ungated call that a gather makes at once is counted before another child gets to a gated one. */
  lemma LateHoldIsSafe(x: Node, y: Node, j: Node)
    requires x.ToolCall? && !x.approval && y.ToolCall? && y.approval && j.ToolCall? && !j.approval
    requires x.id != "" && y.id != "" && j.id != ""
    ensures KeepsLimit(Tools, Parallel("p", [Sequential("s", [x, y]), j]))
  {
    var first := Sequential("s", [x, y]);
    var n := Parallel("p", [first, j]);
    assert n.children[0] == first && n.children[1] == j && first.children[0] == x && first.children[1] == y;
    forall p ensures !FrontHold(Tools, false, n, p) {
      if p != [] && p[0] < 2 {
        assert !FrontHold(Tools, false, x, p[1..]) && !FrontHold(Tools, false, j, p[1..]);
        assert !FrontHold(Tools, false, first, p[1..]);
        assert !FrontHold(Tools, false, n.children[p[0]], p[1..]);
      }
    }
    assert !LateCall(Tools, false, j) && !Holds(Tools, false, j);
    assert forall i | 0 <= i < 2 :: !Collides(Tools, false, first.children[i]);
    assert !Collides(Tools, false, first) && !Collides(Tools, false, j);
    assert !LatePair(Tools, false, n.children);
    assert Runnable(first) && Runnable(n);
    LimitKeptIff(Tools, n);
  }

  lemma ActivityAdmitted(x: Node, id: string, s: Run)
    requires WellFormed(x) && x.Activity? && id != "" && s.activityCalls == 0
    ensures Step(Start(x, id, 0), s, LimitOnly(External, 1), [], NOW) == Some((PolicyCheck(x, id), Checking(s)))
  {
  }

  function Checking(s: Run): Run {
    AfterEntry(s, 0, 0).(policyChecks := s.policyChecks + 1)
  }

  lemma ActivityAllowed(x: Node, id: string, s: Run)
    requires x.Activity? && !x.approval
    ensures Step(PolicyCheck(x, id), s, LimitOnly(External, 1), [], Answer(PolicyAllows(Null))) ==
            Some(ScheduleActivity(x, id, Null, s))
  {
  }

  lemma KidFollows(n: Node, kids: seq<Task>, s: Run, i: nat, ev: Event, kid: Task, s1: Run, rest: seq<Move>)
    requires i < |kids| && Step(kids[i], s, LimitOnly(External, 1), [], ev) == Some((kid, s1))
    ensures Execute(InParallel(n, n.id, 0, kids), s, LimitOnly(External, 1), [Move([i], ev)] + rest) ==
            Execute(InParallel(n, n.id, 0, kids[i := kid]), s1, LimitOnly(External, 1), rest)
  {
    var t := InParallel(n, n.id, 0, kids);
    KidStep(n, n.id, 0, kids, i, s, LimitOnly(External, 1), [], ev, kid, s1);
    assert [i] + [] == [i];
    var moves := [Move([i], ev)] + rest;
    assert moves[1..] == rest;
  }

  function ActivityPair(): Node {
    Parallel("p", [Activity("a", "x", "q", Null, false), Activity("b", "x", "q", Null, false)])
  }

  /** Two ungated external activities in parallel: both pass a limit of one while their policy answers are awaited. */
  lemma ActivityPairOverruns() returns (moves: seq<Move>, t': Task, s': Run)
    ensures Execute(Root(ActivityPair()), NewRun("r"), LimitOnly(External, 1), moves) == Some((t', s'))
    ensures s'.activityCalls == |s'.activities| == 2
  {
    var n, b, yes := ActivityPair(), LimitOnly(External, 1), Answer(PolicyAllows(Null));
    var x, y := n.children[0], n.children[1];
    var s0 := NewRun("r");
    var s1 := AfterEntry(s0, 0, 0);
    var s2 := Checking(s1);
    var s3 := Checking(s2);
    var (t4, s4) := ScheduleActivity(x, "a", Null, s3);
    var (t5, s5) := ScheduleActivity(y, "b", Null, s4);
    ActivityAdmitted(x, "a", s1);
    ActivityAdmitted(y, "b", s2);
    ActivityAllowed(x, "a", s3);
    ActivityAllowed(y, "b", s4);
    var k1 := [Start(x, "a", 0), Start(y, "b", 0)];
    var k2, k3, k4, k5 := [PolicyCheck(x, "a"), k1[1]], [PolicyCheck(x, "a"), PolicyCheck(y, "b")], [t4, PolicyCheck(y, "b")], [t4, t5];
    t', s' := InParallel(n, "p", 0, k5), s5;
    KidFollows(n, k4, s4, 1, yes, t5, s5, []);
    var m4 := [Move([1], yes)] + [];
    KidFollows(n, k3, s3, 0, yes, t4, s4, m4);
    var m3 := [Move([0], yes)] + m4;
    KidFollows(n, k2, s2, 1, NOW, k3[1], s3, m3);
    var m2 := [Move([1], NOW)] + m3;
    KidFollows(n, k1, s1, 0, NOW, k2[0], s2, m2);
    var m1 := [Move([0], NOW)] + m2;
    assert k1[0 := k2[0]] == k2 && k2[1 := k3[1]] == k3 && k3[0 := t4] == k4 && k4[1 := t5] == k5;
    assert Execute(t', s5, b, []) == Some((t', s'));
    assert StartAll(n.children, 0) == k1;
    assert Step(Root(n), s0, b, [], NOW) == Some((InParallel(n, "p", 0, k1), s1));
    moves := [Move([], NOW)] + m1;
    assert moves[1..] == m1;
  }
}
