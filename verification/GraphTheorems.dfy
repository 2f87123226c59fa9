/** Schedule independence and total correctness of graph runs. */
module GraphTheorems {
  import opened Json
  import opened GraphRun
  import opened GraphMeaning
  import opened GraphConfluence
  import opened GraphBudget
  import GraphSafety

  /** Every answer given along the schedule comes from the world. */
  predicate HonestRun(w: World, t: Task, s: Run, b: Limits, moves: seq<Move>)
    decreases |moves|
  {
    moves == [] ||
    (Honest(w, t, moves[0].path, moves[0].ev.reply) &&
     match Step(t, s, b, moves[0].path, moves[0].ev)
     case None => true
     case Some((t', s')) => HonestRun(w, t', s', b, moves[1..]))
  }

  /** No limit can trip and no awaited thing fails. */
  predicate CalmRun(b: Limits, moves: seq<Move>) {
    NoLimits(b) && forall i | 0 <= i < |moves| :: !moves[i].ev.reply.Fails?
  }

  lemma ContinuesTwice(r0: Option<Outcome>, u1: Context, r1: Option<Outcome>, u2: Context, r2: Option<Outcome>,
                       calm1: bool, calm2: bool, calm: bool)
    requires Continues(r0, EraseMap(u1), r1, calm1) && Continues(r1, EraseMap(u2), r2, calm2)
    requires calm ==> calm1 && calm2
    ensures Continues(r0, EraseMap(u1 + u2), r2, calm)
  {
    EraseUpdates(u1, u2);
    PrependTwice(EraseMap(u1), EraseMap(u2), r2);
  }

  lemma FirstMove(w: World, t: Task, n: Node, id: string, s: Run, b: Limits, moves: seq<Move>)
    returns (t1: Task, s1: Run, u: Context)
    requires Belongs(t, n, id) && Independent(n) && Plain(n) && HonestRun(w, t, s, b, moves)
    requires moves != [] && Execute(t, s, b, moves).Some?
    ensures Execute(t, s, b, moves) == Execute(t1, s1, b, moves[1..]) && HonestRun(w, t1, s1, b, moves[1..])
    ensures s1.context == s.context + u && Belongs(t1, n, id)
    ensures Continues(Rest(w, t, n, id, EraseMap(s.context)), EraseMap(u), Rest(w, t1, n, id, EraseMap(s1.context)),
                      Calm(b, moves[0].ev))
  {
    var after := Step(t, s, b, moves[0].path, moves[0].ev).value;
    t1, s1 := after.0, after.1;
    u := StepMeaning(w, t, n, id, s, b, moves[0].path, moves[0].ev, t1, s1);
  }

  lemma {:induction false} ExecuteMeaning(w: World, t: Task, n: Node, id: string, s: Run, b: Limits, moves: seq<Move>,
                                          t': Task, s': Run)
    returns (u: Context)
    requires Belongs(t, n, id) && Independent(n) && Plain(n) && HonestRun(w, t, s, b, moves)
    requires Execute(t, s, b, moves) == Some((t', s'))
    ensures s'.context == s.context + u && Belongs(t', n, id)
    ensures Continues(Rest(w, t, n, id, EraseMap(s.context)), EraseMap(u), Rest(w, t', n, id, EraseMap(s'.context)),
                      CalmRun(b, moves))
    decreases |moves|
  {
    if moves == [] {
      u := map[];
      StandsStill(Rest(w, t, n, id, EraseMap(s.context)), s.context, CalmRun(b, moves));
    } else {
      var t1, s1, u1 := FirstMove(w, t, n, id, s, b, moves);
      var u2 := ExecuteMeaning(w, t1, n, id, s1, b, moves[1..], t', s');
      u := u1 + u2;
      AddTwice(s.context, u1, u2);
      CalmFirst(b, moves);
      ContinuesTwice(Rest(w, t, n, id, EraseMap(s.context)), u1, Rest(w, t1, n, id, EraseMap(s1.context)), u2,
                     Rest(w, t', n, id, EraseMap(s'.context)), Calm(b, moves[0].ev), CalmRun(b, moves[1..]),
                     CalmRun(b, moves));
    }
  }

  lemma StandsStill(r: Option<Outcome>, c: Context, calm: bool)
    ensures Continues(r, EraseMap(map[]), r, calm) && c == c + map[]
  {
    NothingWritten(c);
    PrependNothing(r);
  }

  lemma AddTwice(c: Context, u1: Context, u2: Context)
    ensures (c + u1) + u2 == c + (u1 + u2)
  {
  }

  lemma CalmFirst(b: Limits, moves: seq<Move>)
    requires moves != []
    ensures CalmRun(b, moves) ==> Calm(b, moves[0].ev) && CalmRun(b, moves[1..])
  {
  }

  /** A run that completes, under whatever limits and schedule, has computed the meaning of its graph: the same
      result tree and the same context, up to idempotency keys. */
  lemma CompletedRunComputesMeaning(w: World, n: Node, runId: string, b: Limits, moves: seq<Move>, r: Value, s': Run)
    requires Independent(n) && Plain(n) && HonestRun(w, Root(n), NewRun(runId), b, moves)
    requires Execute(Root(n), NewRun(runId), b, moves) == Some((Done(r), s'))
    ensures Eval(w, n, n.id, map[]) == Some(Outcome(Erase(r), EraseMap(s'.context)))
  {
    var u := ExecuteMeaning(w, Root(n), n, n.id, NewRun(runId), b, moves, Done(r), s');
    FromNothing(u);
    var before, after := Rest(w, Root(n), n, n.id, map[]), Rest(w, Done(r), n, n.id, EraseMap(s'.context));
    assert after == Some(Outcome(Erase(r), map[])) by { RestDone(w, n, n.id, r, EraseMap(s'.context)); }
    assert before == Prepend(EraseMap(u), after);
    RestRoot(w, n);
  }

  lemma FromNothing(u: Context)
    ensures map[] + u == u && EraseMap(u) + map[] == EraseMap(u) && EraseMap(map[]) == map[]
  {
  }

  lemma RestRoot(w: World, n: Node)
    ensures Rest(w, Root(n), n, n.id, map[]) == Eval(w, n, n.id, map[])
  {
  }

  /** Two completed runs of one graph in one world agree, however their coroutines were interleaved. */
  lemma ScheduleIndependence(w: World, n: Node, id1: string, b1: Limits, moves1: seq<Move>, r1: Value, s1: Run,
                             id2: string, b2: Limits, moves2: seq<Move>, r2: Value, s2: Run)
    requires Independent(n) && Plain(n)
    requires HonestRun(w, Root(n), NewRun(id1), b1, moves1) && HonestRun(w, Root(n), NewRun(id2), b2, moves2)
    requires Execute(Root(n), NewRun(id1), b1, moves1) == Some((Done(r1), s1))
    requires Execute(Root(n), NewRun(id2), b2, moves2) == Some((Done(r2), s2))
    ensures Erase(r1) == Erase(r2) && EraseMap(s1.context) == EraseMap(s2.context)
  {
    CompletedRunComputesMeaning(w, n, id1, b1, moves1, r1, s1);
    CompletedRunComputesMeaning(w, n, id2, b2, moves2, r2, s2);
  }

  // ----- progress

  lemma {:induction false} KidsHaveMeaning(w: World, t: Task, n: Node, id: string, i: nat, k: nat, ctx: Context)
    requires t.InParallel? && Belongs(t, n, id) && i <= k < |t.kids|
    requires RestFrom(w, t, n, id, i, ctx).Some?
    ensures Rest(w, t.kids[k], n.children[k], n.children[k].id, ctx).Some?
    decreases k - i
  {
    RestFromStep(w, t, n, id, i, ctx);
    if i < k { KidsHaveMeaning(w, t, n, id, i + 1, k, ctx); }
  }

  /** A coroutine that still has a meaning can move on an answer of the world. */
  lemma {:induction false} Progress(w: World, t: Task, n: Node, id: string, s: Run, b: Limits, ctx: Context)
    returns (m: Move)
    requires Belongs(t, n, id) && Rest(w, t, n, id, ctx).Some? && !t.Done? && NoLimits(b)
    ensures !m.ev.reply.Fails? && Honest(w, t, m.path, m.ev.reply) && Step(t, s, b, m.path, m.ev).Some?
    decreases t
  {
    if t.Raised? {
      assert false;
    } else if t.InParallel? {
      m := Continue();
      if !AllDone(t.kids) {
        var k :| 0 <= k < |t.kids| && !t.kids[k].Done?;
        KidsHaveMeaning(w, t, n, id, 0, k, ctx);
        var inner := Progress(w, t.kids[k], n.children[k], n.children[k].id, s, b, ctx);
        m := Move([k] + inner.path, inner.ev);
        KidCanMove(w, t, s, b, k, inner);
      }
    } else if IsNested(t) {
      m := Continue();
      if !t.cur.Done? {
        var child, childId := InnerMeaning(w, t, n, id, ctx);
        m := Progress(w, t.cur, child, childId, s, b, ctx);
        CurCanMove(w, t, n, id, s, b, m);
      }
    } else {
      m := AnswerOf(w, t, n, id, s, b);
    }
  }

  lemma KidCanMove(w: World, t: Task, s: Run, b: Limits, k: nat, m: Move)
    requires t.InParallel? && !AllDone(t.kids) && k < |t.kids|
    requires Honest(w, t.kids[k], m.path, m.ev.reply) && Step(t.kids[k], s, b, m.path, m.ev).Some?
    ensures Honest(w, t, [k] + m.path, m.ev.reply) && Step(t, s, b, [k] + m.path, m.ev).Some?
  {
    assert ([k] + m.path)[1..] == m.path;
  }

  lemma CurCanMove(w: World, t: Task, n: Node, id: string, s: Run, b: Limits, m: Move)
    requires IsNested(t) && Belongs(t, n, id) && !t.cur.Done?
    requires Honest(w, t.cur, m.path, m.ev.reply) && Step(t.cur, s, b, m.path, m.ev).Some?
    ensures Honest(w, t, m.path, m.ev.reply) && Step(t, s, b, m.path, m.ev).Some?
  {
  }

  lemma InnerMeaning(w: World, t: Task, n: Node, id: string, ctx: Context) returns (child: Node, childId: string)
    requires IsNested(t) && Belongs(t, n, id) && Rest(w, t, n, id, ctx).Some?
    ensures Belongs(t.cur, child, childId) && Rest(w, t.cur, child, childId, ctx).Some?
  {
    if t.InSequence? {
      child, childId := n.children[|t.done|], n.children[|t.done|].id;
    } else if t.InLoop? {
      child, childId := n.body, IterationId(n.body.id, |t.done|);
    } else if t.InBranch? {
      child, childId := Branch(n, t.taken), Branch(n, t.taken).id;
    } else {
      child, childId := n.graph, n.graph.id;
    }
  }

  /** What a starting or waiting coroutine gets. */
  lemma AnswerOf(w: World, t: Task, n: Node, id: string, s: Run, b: Limits) returns (m: Move)
    requires Belongs(t, n, id) && NoLimits(b)
    requires t.Start? || t.Gated? || t.ToolApproval? || t.ToolRunning? || t.PolicyCheck? || t.ActivityApproval?
             || t.ActivityRunning?
    ensures !m.ev.reply.Fails? && Honest(w, t, m.path, m.ev.reply) && Step(t, s, b, m.path, m.ev).Some?
  {
    if t.ToolRunning? {
      var answer := w.tool(n.tool, n.args);
      m := Move([], Event(0, false, ToolOutput(answer.deduplicated, answer.result)));
    } else if t.PolicyCheck? {
      m := Move([], Event(0, false, PolicyAllows(w.policy(n.name, n.queue))));
    } else if t.ActivityRunning? {
      m := Move([], Event(0, false, ActivityResult(w.activity(n.name, n.queue, n.args))));
    } else {
      m := Continue();
    }
  }

  function Continue(): Move {
    Move([], Event(0, false, Granted))
  }

  /** Total correctness. If a graph has a meaning, no limit is set and nothing the run waits for fails, then no
      schedule gets stuck or runs forever: after at most Cost(Steps, n) steps it is done with the graph's
      meaning, and before that some coroutine can move. */
  lemma EveryCalmRunCompletes(w: World, n: Node, runId: string, b: Limits, moves: seq<Move>, t': Task, s': Run)
    returns (next: Move)
    requires Independent(n) && Plain(n) && Eval(w, n, n.id, map[]).Some?
    requires CalmRun(b, moves) && HonestRun(w, Root(n), NewRun(runId), b, moves)
    requires Execute(Root(n), NewRun(runId), b, moves) == Some((t', s'))
    ensures |moves| <= Cost(Steps, n)
    ensures t'.Done? ==> Eval(w, n, n.id, map[]) == Some(Outcome(Erase(t'.result), EraseMap(s'.context)))
    ensures !t'.Done? ==> !next.ev.reply.Fails? && Honest(w, t', next.path, next.ev.reply)
                          && Step(t', s', b, next.path, next.ev).Some?
  {
    GraphSafety.EveryRunBounded(n, runId, b, moves, t', s');
    next := Continue();
    if t'.Done? {
      CompletedRunComputesMeaning(w, n, runId, b, moves, t'.result, s');
    } else {
      var u := ExecuteMeaning(w, Root(n), n, n.id, NewRun(runId), b, moves, t', s');
      NothingWritten(map[]);
      next := Progress(w, t', n, n.id, s', b, EraseMap(s'.context));
    }
  }
}
