/** When a condition holds, said of the values themselves, and what conditionals and loops then do: which branch
    runs, at which iteration a loop stops, and how the results are labelled. */
module GraphConditions {
  import opened Json
  import opened GraphRun
  import opened GraphMeaning

  // ----- equality and lookup, said of values

  predicate Numeric(v: Value) {
    v.Num? || v.Bool?
  }

  function NumberOf(v: Value): real
    requires Numeric(v)
  {
    if v.Num? then v.n else if v.b then 1.0 else 0.0
  }

  /** The same value, where True is 1 and False is 0 at any depth. */
  predicate Same(x: Value, y: Value) {
    if Numeric(x) && Numeric(y) then NumberOf(x) == NumberOf(y)
    else if x.Arr? && y.Arr? then
      |x.items| == |y.items| && forall i | 0 <= i < |x.items| :: Same(x.items[i], y.items[i])
    else if x.Obj? && y.Obj? then
      x.fields.Keys == y.fields.Keys && forall k | k in x.fields :: Same(x.fields[k], y.fields[k])
    else x == y
  }

  lemma {:induction false} PyEqualIsSame(x: Value, y: Value)
    ensures PyEqual(x, y) <==> Same(x, y)
    decreases x
  {
    if x.Arr? && y.Arr? {
      forall i | 0 <= i < |x.items| && i < |y.items|
        ensures Canon(x).items[i] == Canon(y).items[i] <==> Same(x.items[i], y.items[i])
      {
        PyEqualIsSame(x.items[i], y.items[i]);
      }
      if Same(x, y) { assert Canon(x).items == Canon(y).items; }
    } else if x.Obj? && y.Obj? {
      forall k | k in x.fields && k in y.fields
        ensures Canon(x).fields[k] == Canon(y).fields[k] <==> Same(x.fields[k], y.fields[k])
      {
        PyEqualIsSame(x.fields[k], y.fields[k]);
      }
      assert Canon(x).fields.Keys == x.fields.Keys && Canon(y).fields.Keys == y.fields.Keys;
      if Same(x, y) { assert Canon(x).fields == Canon(y).fields; }
    }
  }

  /** vs starts at v, ends at x, and each value is an object holding the next one under the next name. */
  predicate Leads(vs: seq<Value>, path: seq<string>, v: Value, x: Value) {
    |vs| == |path| + 1 && vs[0] == v && vs[|path|] == x
    && forall i | 0 <= i < |path| :: vs[i].Obj? && path[i] in vs[i].fields && vs[i].fields[path[i]] == vs[i + 1]
  }

  /** v holds x under the dotted path. */
  ghost predicate HoldsAt(v: Value, path: seq<string>, x: Value) {
    exists vs :: Leads(vs, path, v, x)
  }

  ghost predicate Holds(v: Value, path: seq<string>) {
    exists x :: HoldsAt(v, path, x)
  }

  lemma {:induction false} ResolveFinds(v: Value, path: seq<string>, x: Value)
    ensures Resolve(v, path) == Some(x) <==> HoldsAt(v, path, x)
    decreases path
  {
    if path == [] {
      assert Leads([v], path, v, v);
    } else {
      if v.Obj? && path[0] in v.fields {
        ResolveFinds(v.fields[path[0]], path[1..], x);
        if Resolve(v, path) == Some(x) {
          var vs :| Leads(vs, path[1..], v.fields[path[0]], x);
          var all := [v] + vs;
          forall i | 0 <= i < |path|
            ensures all[i].Obj? && path[i] in all[i].fields && all[i].fields[path[i]] == all[i + 1]
          {
            if i > 0 { assert all[i] == vs[i - 1] && path[i] == path[1..][i - 1]; }
          }
          assert Leads(all, path, v, x);
        }
      }
      if HoldsAt(v, path, x) {
        var vs: seq<Value> :| Leads(vs, path, v, x);
        assert vs[0].fields[path[0]] == vs[1];
        assert Leads(vs[1..], path[1..], v.fields[path[0]], x);
      }
    }
  }

  function PathOf(c: Condition): seq<string> {
    if c.path.Some? then c.path.value else []
  }

  /** v satisfies a condition: `equals` when something equal to the literal lies at the path, `exists: true` when
      something lies there, `exists: false` when nothing does. */
  ghost predicate Satisfies(v: Value, c: Condition) {
    match c.cmp
    case Equals(literal) => exists x :: HoldsAt(v, PathOf(c), x) && Same(x, literal)
    case Exists(expected) => expected <==> Holds(v, PathOf(c))
    case Unsupported => false
  }

  lemma MatchesIffSatisfies(v: Value, c: Condition)
    ensures Matches(v, c).None? <==> c.cmp.Unsupported?
    ensures Matches(v, c) == Some(true) <==> Satisfies(v, c)
  {
    var path := PathOf(c);
    forall x ensures Resolve(v, path) == Some(x) <==> HoldsAt(v, path, x) { ResolveFinds(v, path, x); }
    if Resolve(v, path).Some? {
      assert HoldsAt(v, path, Resolve(v, path).value);
      if c.cmp.Equals? { PyEqualIsSame(Resolve(v, path).value, c.cmp.literal); }
    }
  }

  /** The entry a conditional refers to is there and satisfies the condition. */
  ghost predicate Chosen(ctx: Context, c: Condition) {
    c.nodeRef in ctx && Satisfies(ctx[c.nodeRef], c)
  }

  /** A condition that cannot be decided: no comparator, with an entry to compare. */
  predicate Undecidable(ctx: Context, c: Condition) {
    c.nodeRef in ctx && c.cmp.Unsupported?
  }

  lemma TakesIffChosen(ctx: Context, c: Condition)
    ensures Takes(ctx, c).None? <==> Undecidable(ctx, c)
    ensures Takes(ctx, c) == Some(true) <==> Chosen(ctx, c)
  {
    if c.nodeRef in ctx { MatchesIffSatisfies(ctx[c.nodeRef], c); }
  }

  // ----- one step of a conditional

  /** t is a node about to be dispatched, and no entry check stops it. */
  predicate Entering(t: Task, n: Node, id: string, depth: nat, b: Limits, ev: Event) {
    !ev.paused
    && (t == Gated(n, id, depth)
        || (t == Start(n, id, depth) && id != "" && (b.maxDepth.Some? ==> depth <= b.maxDepth.value)
            && (b.deadline.Some? ==> ev.now < b.deadline.value)))
  }

  /** A conditional runs `ifTrue` exactly when its entry holds what it asks for, and closes with "none" when
      there is no other branch to run. */
  lemma ConditionalStep(t: Task, n: Node, id: string, depth: nat, s: Run, b: Limits, path: seq<nat>, ev: Event,
                        t': Task, s': Run)
    requires n.Conditional? && Entering(t, n, id, depth, b, ev)
    requires Step(t, s, b, path, ev) == Some((t', s'))
    ensures Undecidable(s.context, n.cond) <==> t' == Raised(InvalidGraph)
    ensures Chosen(s.context, n.cond) <==> t' == InBranch(n, id, true, Start(n.ifTrue, n.ifTrue.id, depth))
    ensures !Chosen(s.context, n.cond) && !Undecidable(s.context, n.cond) && n.ifFalse.Some? ==>
              t' == InBranch(n, id, false, Start(n.ifFalse.value, n.ifFalse.value.id, depth))
    ensures !Chosen(s.context, n.cond) && !Undecidable(s.context, n.cond) && n.ifFalse.None? ==>
              t'.Done? && t'.result.Obj? && s'.context == s.context[id := t'.result]
              && t'.result.fields == map["node_id" := Str(id), "kind" := Str("conditional"), "taken" := Str("none"),
                                         "branch" := Null]
    ensures !t'.Done? ==> s'.context == s.context
  {
    TakesIffChosen(s.context, n.cond);
  }

  lemma OneHolding(v: Value, path: seq<string>, x: Value, y: Value)
    requires HoldsAt(v, path, x) && HoldsAt(v, path, y)
    ensures x == y
  {
    ResolveFinds(v, path, x);
    ResolveFinds(v, path, y);
  }

  /** Under `equals`, an entry that holds x at the path is compared with the literal, and anything missing on the
      way counts as different from it. */
  lemma EqualsChosenIff(ctx: Context, ref: string, path: seq<string>, literal: Value)
    ensures var c := Condition(ref, Some(path), Equals(literal));
            (ref !in ctx ==> !Chosen(ctx, c))
            && (ref in ctx && !Holds(ctx[ref], path) ==> !Chosen(ctx, c))
            && forall x | ref in ctx && HoldsAt(ctx[ref], path, x) :: Chosen(ctx, c) <==> Same(x, literal)
  {
    var c := Condition(ref, Some(path), Equals(literal));
    forall x | ref in ctx && HoldsAt(ctx[ref], path, x) ensures Chosen(ctx, c) <==> Same(x, literal) {
      forall y | HoldsAt(ctx[ref], PathOf(c), y) ensures x == y { OneHolding(ctx[ref], path, x, y); }
    }
  }

  /** `exists: true` and `exists: false` choose opposite branches of an entry, and neither chooses one that is
      missing altogether. */
  lemma ExistsChosenIff(ctx: Context, ref: string, path: seq<string>)
    ensures var present, absent := Condition(ref, Some(path), Exists(true)), Condition(ref, Some(path), Exists(false));
            (Chosen(ctx, present) <==> ref in ctx && Holds(ctx[ref], path))
            && (Chosen(ctx, absent) <==> ref in ctx && !Chosen(ctx, present))
  {
  }

  /** A finished branch is labelled with the branch that ran. */
  lemma BranchStep(n: Node, id: string, taken: bool, r: Value, s: Run, b: Limits, path: seq<nat>, ev: Event,
                   t': Task, s': Run)
    requires Step(InBranch(n, id, taken, Done(r)), s, b, path, ev) == Some((t', s'))
    ensures t'.Done? && t'.result.Obj? && s' == s.(context := s.context[id := t'.result])
    ensures t'.result.fields.Keys == {"node_id", "kind", "taken", "branch"}
    ensures t'.result.fields["node_id"] == Str(id) && t'.result.fields["kind"] == Str("conditional")
    ensures t'.result.fields["branch"] == r
    ensures t'.result.fields["taken"] == if taken then Str("if_true") else Str("if_false")
  {
  }

  // ----- loops

  /** A loop's stop condition is satisfied by an iteration's result. */
  ghost predicate Stops(n: Node, r: Value)
    requires n.Loop?
  {
    n.stop.Some? && Satisfies(r, n.stop.value)
  }

  predicate IsLoopResult(r: Value, id: string, iterations: seq<Value>, reason: string) {
    r.Obj? && r.fields == map["node_id" := Str(id), "kind" := Str("loop"), "iterations" := Arr(iterations),
                              "stopped_reason" := Str(reason)]
  }

  lemma LoopReason(r: Value, id: string, iterations: seq<Value>, reason: string)
    requires IsLoopResult(r, id, iterations, reason)
    ensures r.fields["stopped_reason"] == Str(reason)
  {
  }

  /** After an iteration the loop stops with "condition_met" exactly when that iteration's result satisfies the
      stop condition; otherwise it goes on under the next iteration's id, up to maxIterations of them. */
  lemma LoopStep(n: Node, id: string, depth: nat, done: seq<Value>, r: Value, s: Run, b: Limits, path: seq<nat>,
                 ev: Event, t': Task, s': Run)
    requires n.Loop? && !(n.stop.Some? && n.stop.value.cmp.Unsupported?)
    requires Step(InLoop(n, id, depth, done, Done(r)), s, b, path, ev) == Some((t', s'))
    ensures Stops(n, r) <==> t'.Done? && IsLoopResult(t'.result, id, done + [r], "condition_met")
    ensures !Stops(n, r) && |done| + 1 >= n.maxIterations <==>
              t'.Done? && IsLoopResult(t'.result, id, done + [r], "max_iterations")
    ensures !Stops(n, r) && |done| + 1 < n.maxIterations ==>
              t' == InLoop(n, id, depth, done + [r], Start(n.body, IterationId(n.body.id, |done| + 1), depth)) && s' == s
    ensures t'.Done? ==> s' == s.(context := s.context[id := t'.result])
  {
    if n.stop.Some? { MatchesIffSatisfies(r, n.stop.value); }
    assert (done + [r])[|done + [r]| - 1] == r;
    if t'.Done? && IsLoopResult(t'.result, id, done + [r], "condition_met") {
      LoopReason(t'.result, id, done + [r], "condition_met");
    }
    if t'.Done? && IsLoopResult(t'.result, id, done + [r], "max_iterations") {
      LoopReason(t'.result, id, done + [r], "max_iterations");
    }
  }

  // ----- the meaning of a composite node, as the list of what was run

  /** The context after the first i outcomes. */
  function After(ctx: Context, os: seq<Outcome>, i: nat): Context
    requires i <= |os|
  {
    if i == 0 then ctx else After(ctx, os, i - 1) + os[i - 1].writes
  }

  /** Everything the outcomes from i on wrote, later ones winning. */
  function WritesFrom(os: seq<Outcome>, i: nat): Context
    requires i <= |os|
    decreases |os| - i
  {
    if i == |os| then map[] else os[i].writes + WritesFrom(os, i + 1)
  }

  function ResultsOf(os: seq<Outcome>): seq<Value> {
    seq(|os|, i requires 0 <= i < |os| => os[i].result)
  }

  lemma ResultsOfNext(os: seq<Outcome>, i: nat)
    requires i < |os|
    ensures ResultsOf(os[..i]) + [os[i].result] == ResultsOf(os[..i + 1])
    ensures ResultsOf(os[..|os|]) == ResultsOf(os)
  {
    assert os[..|os|] == os;
  }

  /** A node's own outcome, after what its parts wrote. */
  predicate Closes(o: Option<Outcome>, id: string, fields: map<string, Value>, writes: Context) {
    o == Some(Outcome(Obj(fields), writes + map[id := Obj(fields)]))
  }

  /** os[i] is the outcome of a sequence's child i, in the context the earlier ones left. */
  predicate ChildRan(w: World, n: Node, ctx: Context, os: seq<Outcome>, i: nat)
    requires n.Sequential? && |os| <= |n.children| && i < |os|
  {
    Eval(w, n.children[i], n.children[i].id, After(ctx, os, i)) == Some(os[i])
  }

  /** Every child of a sequence ran. */
  predicate ChildrenRan(w: World, n: Node, ctx: Context, os: seq<Outcome>)
    requires n.Sequential?
  {
    |os| == |n.children| && forall i | 0 <= i < |os| :: ChildRan(w, n, ctx, os, i)
  }

  /** o is the outcome of a gather's child i. */
  predicate KidRan(w: World, n: Node, ctx: Context, i: nat, o: Outcome)
    requires (n.Parallel? || n.FanIn?) && i < |n.children|
  {
    Eval(w, n.children[i], n.children[i].id, ctx) == Some(o)
  }

  /** Every child of a gather ran, all from one context. */
  predicate GatherRan(w: World, n: Node, ctx: Context, os: seq<Outcome>)
    requires n.Parallel? || n.FanIn?
  {
    |os| == |n.children| && forall i | 0 <= i < |os| :: KidRan(w, n, ctx, i, os[i])
  }

  /** os[i] is the outcome of a loop's iteration i, in the context the earlier ones left. */
  predicate IterationRan(w: World, n: Node, ctx: Context, os: seq<Outcome>, i: nat)
    requires n.Loop? && i < |os|
  {
    Eval(w, n.body, IterationId(n.body.id, i), After(ctx, os, i)) == Some(os[i])
  }

  /** The iterations of a loop, each in the context the earlier ones left: no result before the last satisfies the
      stop condition, and the last one does or is the maxIterations-th. */
  ghost predicate IterationsRan(w: World, n: Node, ctx: Context, os: seq<Outcome>)
    requires n.Loop?
  {
    0 < |os| <= n.maxIterations
    && (forall i | 0 <= i < |os| :: IterationRan(w, n, ctx, os, i))
    && (forall i | 0 <= i < |os| - 1 :: !Stops(n, os[i].result))
    && (|os| < n.maxIterations ==> Stops(n, os[|os| - 1].result))
  }

  function SequenceFields(id: string, results: seq<Value>): map<string, Value> {
    map["node_id" := Str(id), "kind" := Str("sequential"), "children" := Arr(results)]
  }

  lemma PrependCloses(o: Option<Outcome>, id: string, fields: map<string, Value>, w1: Context, w2: Context)
    requires Closes(o, id, fields, w2)
    ensures Closes(Prepend(w1, o), id, fields, w1 + w2)
  {
    assert w1 + (w2 + map[id := Obj(fields)]) == w1 + w2 + map[id := Obj(fields)];
  }

  lemma SequenceNext(w: World, n: Node, id: string, ctx: Context, os: seq<Outcome>, i: nat)
    requires n.Sequential? && i < |os| && ChildrenRan(w, n, ctx, os)
    ensures SequenceFrom(w, n, id, ResultsOf(os[..i]), After(ctx, os, i))
            == Prepend(os[i].writes, SequenceFrom(w, n, id, ResultsOf(os[..i + 1]), After(ctx, os, i + 1)))
  {
    ResultsOfNext(os, i);
    assert |ResultsOf(os[..i])| == i && ChildRan(w, n, ctx, os, i);
  }

  /** A chain of outcomes, each what one part wrote and then the next, up to the node's own. */
  predicate Chained(rests: seq<Option<Outcome>>, os: seq<Outcome>, last: Option<Outcome>) {
    |rests| == |os| + 1 && rests[|os|] == last
    && forall i | 0 <= i < |os| :: rests[i] == Prepend(os[i].writes, rests[i + 1])
  }

  lemma {:induction false} ChainCloses(rests: seq<Option<Outcome>>, os: seq<Outcome>, id: string,
                                       fields: map<string, Value>, i: nat)
    requires i <= |os| && Chained(rests, os, Close(id, Obj(fields)))
    ensures Closes(rests[i], id, fields, WritesFrom(os, i))
    decreases |os| - i
  {
    if i < |os| {
      ChainCloses(rests, os, id, fields, i + 1);
      PrependCloses(rests[i + 1], id, fields, os[i].writes, WritesFrom(os, i + 1));
    } else {
      assert map[] + map[id := Obj(fields)] == map[id := Obj(fields)];
    }
  }

  lemma SequenceChain(w: World, n: Node, id: string, ctx: Context, os: seq<Outcome>) returns (rests: seq<Option<Outcome>>)
    requires n.Sequential? && ChildrenRan(w, n, ctx, os)
    ensures Chained(rests, os, Close(id, Obj(SequenceFields(id, ResultsOf(os)))))
    ensures rests[0] == SequenceFrom(w, n, id, [], ctx)
  {
    rests := seq(|os| + 1, i requires 0 <= i <= |os| => SequenceFrom(w, n, id, ResultsOf(os[..i]), After(ctx, os, i)));
    forall i | 0 <= i < |os| ensures rests[i] == Prepend(os[i].writes, rests[i + 1]) { SequenceNext(w, n, id, ctx, os, i); }
    assert os[..|os|] == os;
    SequenceEnds(w, n, id, ResultsOf(os), After(ctx, os, |os|));
    assert ResultsOf(os[..0]) == [];
  }

  lemma SequenceEnds(w: World, n: Node, id: string, done: seq<Value>, ctx: Context)
    requires n.Sequential? && |done| == |n.children|
    ensures SequenceFrom(w, n, id, done, ctx) == Close(id, Obj(SequenceFields(id, done)))
  {
  }

  lemma SequenceBegins(w: World, n: Node, id: string, ctx: Context)
    requires n.Sequential? && id != ""
    ensures Eval(w, n, id, ctx) == SequenceFrom(w, n, id, [], ctx)
  {
  }

  /** A sequence that runs all its children one after the other lists their results in that order. */
  lemma SequenceMeaning(w: World, n: Node, id: string, ctx: Context, os: seq<Outcome>)
    requires n.Sequential? && id != "" && ChildrenRan(w, n, ctx, os)
    ensures Closes(Eval(w, n, id, ctx), id,
                   map["node_id" := Str(id), "kind" := Str("sequential"), "children" := Arr(ResultsOf(os))],
                   WritesFrom(os, 0))
  {
    var rests := SequenceChain(w, n, id, ctx, os);
    ChainCloses(rests, os, id, SequenceFields(id, ResultsOf(os)), 0);
    SequenceBegins(w, n, id, ctx);
  }

  function LoopFields(id: string, results: seq<Value>, met: bool): map<string, Value> {
    map["node_id" := Str(id), "kind" := Str("loop"), "iterations" := Arr(results),
        "stopped_reason" := Str(if met then "condition_met" else "max_iterations")]
  }

  lemma LoopNext(w: World, n: Node, id: string, ctx: Context, os: seq<Outcome>, i: nat, rest: Option<Outcome>)
    requires n.Loop? && i < |os| && IterationsRan(w, n, ctx, os)
    requires !(n.stop.Some? && n.stop.value.cmp.Unsupported?)
    requires rest == if i + 1 < |os| then LoopFrom(w, n, id, ResultsOf(os[..i + 1]), After(ctx, os, i + 1))
                     else Close(id, Obj(LoopFields(id, ResultsOf(os), Stops(n, os[|os| - 1].result))))
    ensures LoopFrom(w, n, id, ResultsOf(os[..i]), After(ctx, os, i)) == Prepend(os[i].writes, rest)
  {
    ResultsOfNext(os, i);
    var done := ResultsOf(os[..i + 1]);
    assert |ResultsOf(os[..i])| == i && done[i] == os[i].result && IterationRan(w, n, ctx, os, i);
    if n.stop.Some? { MatchesIffSatisfies(os[i].result, n.stop.value); }
    if i + 1 == |os| { assert os[..i + 1] == os; }
  }

  lemma LoopChain(w: World, n: Node, id: string, ctx: Context, os: seq<Outcome>) returns (rests: seq<Option<Outcome>>)
    requires n.Loop? && IterationsRan(w, n, ctx, os) && !(n.stop.Some? && n.stop.value.cmp.Unsupported?)
    ensures Chained(rests, os, Close(id, Obj(LoopFields(id, ResultsOf(os), Stops(n, os[|os| - 1].result)))))
    ensures rests[0] == LoopFrom(w, n, id, [], ctx)
  {
    var last := Close(id, Obj(LoopFields(id, ResultsOf(os), Stops(n, os[|os| - 1].result))));
    rests := seq(|os| + 1, i requires 0 <= i <= |os| =>
                   if i < |os| then LoopFrom(w, n, id, ResultsOf(os[..i]), After(ctx, os, i)) else last);
    forall i | 0 <= i < |os| ensures rests[i] == Prepend(os[i].writes, rests[i + 1]) {
      LoopNext(w, n, id, ctx, os, i, rests[i + 1]);
    }
    assert ResultsOf(os[..0]) == [];
  }

  lemma LoopBegins(w: World, n: Node, id: string, ctx: Context)
    requires n.Loop? && id != "" && n.maxIterations >= 1
    ensures Eval(w, n, id, ctx) == LoopFrom(w, n, id, [], ctx)
  {
  }

  /** A loop runs its body until the first result that satisfies the stop condition, at most maxIterations times,
      and says which of the two ended it. */
  lemma LoopMeaning(w: World, n: Node, id: string, ctx: Context, os: seq<Outcome>)
    requires n.Loop? && id != "" && IterationsRan(w, n, ctx, os)
    requires !(n.stop.Some? && n.stop.value.cmp.Unsupported?)
    ensures Closes(Eval(w, n, id, ctx), id,
                   map["node_id" := Str(id), "kind" := Str("loop"), "iterations" := Arr(ResultsOf(os)),
                       "stopped_reason" := Str(if Stops(n, os[|os| - 1].result) then "condition_met" else "max_iterations")],
                   WritesFrom(os, 0))
  {
    var rests := LoopChain(w, n, id, ctx, os);
    ChainCloses(rests, os, id, LoopFields(id, ResultsOf(os), Stops(n, os[|os| - 1].result)), 0);
    LoopBegins(w, n, id, ctx);
  }

  // ----- gathers

  lemma GatherNext(w: World, n: Node, ctx: Context, os: seq<Outcome>, i: nat, rest: Gathered)
    requires (n.Parallel? || n.FanIn?) && i < |os| && GatherRan(w, n, ctx, os)
    requires GatherFrom(w, n, i + 1, ctx) == Some(rest)
    ensures GatherFrom(w, n, i, ctx) == Some(Gathered([os[i].result] + rest.results, os[i].writes + rest.writes))
  {
    assert KidRan(w, n, ctx, i, os[i]);
  }

  lemma {:induction false} GatherRest(w: World, n: Node, ctx: Context, os: seq<Outcome>, i: nat)
    requires (n.Parallel? || n.FanIn?) && i <= |os| && GatherRan(w, n, ctx, os)
    ensures GatherFrom(w, n, i, ctx) == Some(Gathered(ResultsOf(os)[i..], WritesFrom(os, i)))
    decreases |os| - i
  {
    if i < |os| {
      GatherRest(w, n, ctx, os, i + 1);
      GatherNext(w, n, ctx, os, i, Gathered(ResultsOf(os)[i + 1..], WritesFrom(os, i + 1)));
      assert [os[i].result] + ResultsOf(os)[i + 1..] == ResultsOf(os)[i..];
    } else {
      assert ResultsOf(os)[i..] == [];
    }
  }

  /** What a fan-in keeps of each child: the child's own "result" entry, or all of it when it has none. */
  predicate IsMerged(merged: seq<Value>, results: seq<Value>) {
    |merged| == |results|
    && forall i | 0 <= i < |results| ::
         if results[i].Obj? && "result" in results[i].fields then merged[i] == results[i].fields["result"]
         else merged[i] == results[i]
  }

  /** A gather lists its children's results in the order of the spec, whatever order they finish in. */
  lemma GatherMeaning(w: World, n: Node, id: string, ctx: Context, os: seq<Outcome>) returns (merged: seq<Value>)
    requires (n.Parallel? || n.FanIn?) && id != "" && GatherRan(w, n, ctx, os)
    ensures IsMerged(merged, ResultsOf(os))
    ensures n.Parallel? ==>
              Closes(Eval(w, n, id, ctx), id,
                     map["node_id" := Str(id), "kind" := Str("parallel"), "children" := Arr(ResultsOf(os))], WritesFrom(os, 0))
    ensures n.FanIn? ==>
              Closes(Eval(w, n, id, ctx), id,
                     map["node_id" := Str(id), "kind" := Str("fan_in"), "merged" := Arr(merged),
                         "children" := Arr(ResultsOf(os))], WritesFrom(os, 0))
  {
    merged := MergedResults(ResultsOf(os));
    GatherRest(w, n, ctx, os, 0);
  }

  // ----- every meaning arises this way

  predicate ChildrenRanSoFar(w: World, n: Node, ctx: Context, os: seq<Outcome>)
    requires n.Sequential?
  {
    |os| <= |n.children| && forall i | 0 <= i < |os| :: ChildRan(w, n, ctx, os, i)
  }

  lemma RanOneMore(w: World, n: Node, ctx: Context, os: seq<Outcome>, o: Outcome)
    requires n.Sequential? && |os| < |n.children| && ChildrenRanSoFar(w, n, ctx, os)
    requires Eval(w, n.children[|os|], n.children[|os|].id, After(ctx, os, |os|)) == Some(o)
    ensures ChildrenRanSoFar(w, n, ctx, os + [o])
    ensures After(ctx, os + [o], |os| + 1) == After(ctx, os, |os|) + o.writes
  {
    var more := os + [o];
    AfterAppend(ctx, os, o, |os|);
    forall i | 0 <= i < |more| ensures ChildRan(w, n, ctx, more, i) {
      AfterAppend(ctx, os, o, i);
      if i < |os| { assert more[i] == os[i] && ChildRan(w, n, ctx, os, i); }
    }
  }

  lemma SequenceUnfolds(w: World, n: Node, id: string, done: seq<Value>, ctx: Context) returns (o: Outcome)
    requires n.Sequential? && |done| < |n.children| && SequenceFrom(w, n, id, done, ctx).Some?
    ensures Eval(w, n.children[|done|], n.children[|done|].id, ctx) == Some(o)
    ensures SequenceFrom(w, n, id, done + [o.result], ctx + o.writes).Some?
  {
    o := Eval(w, n.children[|done|], n.children[|done|].id, ctx).value;
  }

  lemma SequenceGoesOn(w: World, n: Node, id: string, ctx: Context, os: seq<Outcome>) returns (more: seq<Outcome>)
    requires n.Sequential? && |os| < |n.children| && ChildrenRanSoFar(w, n, ctx, os)
    requires SequenceFrom(w, n, id, ResultsOf(os), After(ctx, os, |os|)).Some?
    ensures |more| == |os| + 1 && ChildrenRanSoFar(w, n, ctx, more)
    ensures SequenceFrom(w, n, id, ResultsOf(more), After(ctx, more, |more|)).Some?
  {
    var o := SequenceUnfolds(w, n, id, ResultsOf(os), After(ctx, os, |os|));
    more := os + [o];
    RanOneMore(w, n, ctx, os, o);
    assert ResultsOf(os) + [o.result] == ResultsOf(more);
  }

  lemma {:induction false} SequenceTraceFrom(w: World, n: Node, id: string, ctx: Context, ran: seq<Outcome>)
    returns (os: seq<Outcome>)
    requires n.Sequential? && ChildrenRanSoFar(w, n, ctx, ran)
    requires SequenceFrom(w, n, id, ResultsOf(ran), After(ctx, ran, |ran|)).Some?
    ensures ChildrenRan(w, n, ctx, os)
    decreases |n.children| - |ran|
  {
    os := ran;
    if |ran| < |n.children| {
      var more := SequenceGoesOn(w, n, id, ctx, ran);
      os := SequenceTraceFrom(w, n, id, ctx, more);
    }
  }

  ghost predicate IterationsRanSoFar(w: World, n: Node, ctx: Context, os: seq<Outcome>)
    requires n.Loop?
  {
    |os| < n.maxIterations && forall i | 0 <= i < |os| :: IterationRan(w, n, ctx, os, i) && !Stops(n, os[i].result)
  }

  lemma LoopUnfolds(w: World, n: Node, id: string, done: seq<Value>, ctx: Context) returns (o: Outcome)
    requires n.Loop? && |done| < n.maxIterations && LoopFrom(w, n, id, done, ctx).Some?
    ensures Eval(w, n.body, IterationId(n.body.id, |done|), ctx) == Some(o)
    ensures !Stops(n, o.result) && |done| + 1 < n.maxIterations ==>
              LoopFrom(w, n, id, done + [o.result], ctx + o.writes).Some?
  {
    o := Eval(w, n.body, IterationId(n.body.id, |done|), ctx).value;
    var more := done + [o.result];
    assert more[|more| - 1] == o.result;
    if n.stop.Some? { MatchesIffSatisfies(o.result, n.stop.value); }
  }

  lemma IteratedOneMore(w: World, n: Node, ctx: Context, os: seq<Outcome>, o: Outcome)
    requires n.Loop? && IterationsRanSoFar(w, n, ctx, os)
    requires Eval(w, n.body, IterationId(n.body.id, |os|), After(ctx, os, |os|)) == Some(o)
    ensures forall i | 0 <= i <= |os| :: IterationRan(w, n, ctx, os + [o], i)
    ensures After(ctx, os + [o], |os| + 1) == After(ctx, os, |os|) + o.writes
  {
    var more := os + [o];
    AfterAppend(ctx, os, o, |os|);
    forall i | 0 <= i < |more| ensures IterationRan(w, n, ctx, more, i) {
      AfterAppend(ctx, os, o, i);
      if i < |os| { assert more[i] == os[i] && IterationRan(w, n, ctx, os, i); }
    }
  }

  lemma RanOn(w: World, n: Node, ctx: Context, ran: seq<Outcome>, o: Outcome)
    requires n.Loop? && IterationsRanSoFar(w, n, ctx, ran)
    requires forall i | 0 <= i <= |ran| :: IterationRan(w, n, ctx, ran + [o], i)
    ensures if Stops(n, o.result) || |ran| + 1 == n.maxIterations then IterationsRan(w, n, ctx, ran + [o])
            else IterationsRanSoFar(w, n, ctx, ran + [o])
  {
    var os := ran + [o];
    forall i | 0 <= i < |ran| ensures !Stops(n, os[i].result) { assert os[i] == ran[i] && IterationRan(w, n, ctx, ran, i); }
  }

  lemma ResultsAppend(os: seq<Outcome>, o: Outcome)
    ensures ResultsOf(os + [o]) == ResultsOf(os) + [o.result]
  {
  }

  lemma LoopGoesOn(w: World, n: Node, id: string, ctx: Context, ran: seq<Outcome>) returns (os: seq<Outcome>)
    requires n.Loop? && IterationsRanSoFar(w, n, ctx, ran)
    requires LoopFrom(w, n, id, ResultsOf(ran), After(ctx, ran, |ran|)).Some?
    ensures |os| == |ran| + 1
    ensures IterationsRan(w, n, ctx, os)
            || (IterationsRanSoFar(w, n, ctx, os) && LoopFrom(w, n, id, ResultsOf(os), After(ctx, os, |os|)).Some?)
  {
    var done, c := ResultsOf(ran), After(ctx, ran, |ran|);
    var o := LoopUnfolds(w, n, id, done, c);
    os := ran + [o];
    IteratedOneMore(w, n, ctx, ran, o);
    RanOn(w, n, ctx, ran, o);
    ResultsAppend(ran, o);
    assert c + o.writes == After(ctx, os, |os|);
  }

  lemma {:induction false} LoopTraceFrom(w: World, n: Node, id: string, ctx: Context, ran: seq<Outcome>)
    returns (os: seq<Outcome>)
    requires n.Loop? && IterationsRanSoFar(w, n, ctx, ran)
    requires LoopFrom(w, n, id, ResultsOf(ran), After(ctx, ran, |ran|)).Some?
    ensures IterationsRan(w, n, ctx, os)
    decreases n.maxIterations - |ran|
  {
    os := LoopGoesOn(w, n, id, ctx, ran);
    if !IterationsRan(w, n, ctx, os) {
      os := LoopTraceFrom(w, n, id, ctx, os);
    }
  }

  /** A loop that has a meaning has it by a list of iterations of that kind. */
  lemma LoopTrace(w: World, n: Node, id: string, ctx: Context) returns (os: seq<Outcome>)
    requires n.Loop? && Eval(w, n, id, ctx).Some?
    ensures IterationsRan(w, n, ctx, os)
  {
    assert ResultsOf([]) == [];
    os := LoopTraceFrom(w, n, id, ctx, []);
  }

  /** A sequence that has a meaning has it by running all its children. */
  lemma SequenceTrace(w: World, n: Node, id: string, ctx: Context) returns (os: seq<Outcome>)
    requires n.Sequential? && Eval(w, n, id, ctx).Some?
    ensures ChildrenRan(w, n, ctx, os)
  {
    assert ResultsOf([]) == [];
    os := SequenceTraceFrom(w, n, id, ctx, []);
  }

  lemma {:induction false} KidsHaveRun(w: World, n: Node, i: nat, k: nat, ctx: Context)
    requires (n.Parallel? || n.FanIn?) && i <= k < |n.children| && GatherFrom(w, n, i, ctx).Some?
    ensures Eval(w, n.children[k], n.children[k].id, ctx).Some?
    decreases k - i
  {
    if i < k { KidsHaveRun(w, n, i + 1, k, ctx); }
  }

  lemma GatherBegins(w: World, n: Node, id: string, ctx: Context)
    requires (n.Parallel? || n.FanIn?) && Eval(w, n, id, ctx).Some?
    ensures GatherFrom(w, n, 0, ctx).Some?
  {
  }

  /** So does a gather. */
  lemma GatherTrace(w: World, n: Node, id: string, ctx: Context) returns (os: seq<Outcome>)
    requires (n.Parallel? || n.FanIn?) && Eval(w, n, id, ctx).Some?
    ensures GatherRan(w, n, ctx, os)
  {
    GatherBegins(w, n, id, ctx);
    os := [];
    for i := 0 to |n.children|
      invariant |os| == i && forall k | 0 <= k < i :: KidRan(w, n, ctx, k, os[k])
    {
      KidsHaveRun(w, n, 0, i, ctx);
      var o := Eval(w, n.children[i], n.children[i].id, ctx).value;
      assert KidRan(w, n, ctx, i, o);
      os := os + [o];
    }
  }

  // ----- the other nodes

  /** What a conditional means: `ifTrue` exactly when its entry satisfies the condition, `ifFalse` or "none" when
      the entry is missing or does not. */
  lemma ConditionalMeaning(w: World, n: Node, id: string, ctx: Context)
    requires n.Conditional? && id != "" && !Undecidable(ctx, n.cond)
    ensures Chosen(ctx, n.cond) ==>
              match Eval(w, n.ifTrue, n.ifTrue.id, ctx)
              case None => Eval(w, n, id, ctx).None?
              case Some(o) => Closes(Eval(w, n, id, ctx), id, BranchFields(id, "if_true", o.result), o.writes)
    ensures !Chosen(ctx, n.cond) && n.ifFalse.Some? ==>
              match Eval(w, n.ifFalse.value, n.ifFalse.value.id, ctx)
              case None => Eval(w, n, id, ctx).None?
              case Some(o) => Closes(Eval(w, n, id, ctx), id, BranchFields(id, "if_false", o.result), o.writes)
    ensures !Chosen(ctx, n.cond) && n.ifFalse.None? ==>
              Closes(Eval(w, n, id, ctx), id, BranchFields(id, "none", Null), map[])
  {
    TakesIffChosen(ctx, n.cond);
    assert forall r :: map[] + map[id := Obj(r)] == map[id := Obj(r)];
  }

  function BranchFields(id: string, taken: string, branch: Value): map<string, Value> {
    map["node_id" := Str(id), "kind" := Str("conditional"), "taken" := Str(taken), "branch" := branch]
  }

  /** A subgraph wraps its graph's result under its own id. */
  lemma SubgraphMeaning(w: World, n: Node, id: string, ctx: Context)
    requires n.Subgraph? && id != ""
    ensures match Eval(w, n.graph, n.graph.id, ctx)
            case None => Eval(w, n, id, ctx).None?
            case Some(o) =>
              Closes(Eval(w, n, id, ctx), id,
                     map["node_id" := Str(id), "kind" := Str("subgraph"), "graph_result" := o.result], o.writes)
  {
  }

  /** A tool call's result is what its tool answered, next to the call's id and digest. */
  lemma ToolMeaning(w: World, n: Node, id: string, ctx: Context)
    requires n.ToolCall? && id != ""
    ensures var answer := w.tool(n.tool, n.args);
            Closes(Eval(w, n, id, ctx), id,
                   map["node_id" := Str(id), "kind" := Str("tool_call"), "deduplicated" := Bool(answer.deduplicated),
                       "idempotency_key" := BlankKey(), "result" := Erase(answer.result)], map[])
  {
    var fields := map["node_id" := Str(id), "kind" := Str("tool_call"),
                      "deduplicated" := Bool(w.tool(n.tool, n.args).deduplicated),
                      "idempotency_key" := BlankKey(), "result" := Erase(w.tool(n.tool, n.args).result)];
    assert map[] + map[id := Obj(fields)] == map[id := Obj(fields)];
  }

  /** An external activity's result names the activity, its queue and the policy that let it through. */
  lemma ActivityMeaning(w: World, n: Node, id: string, ctx: Context)
    requires n.Activity? && id != ""
    ensures Eval(w, n, id, ctx).None? <==> n.name == "" || n.queue == ""
    ensures n.name != "" && n.queue != "" ==>
              Closes(Eval(w, n, id, ctx), id,
                     map["node_id" := Str(id), "kind" := Str("activity"), "activity_name" := Str(n.name),
                         "task_queue" := Str(n.queue), "policy_id" := Erase(w.policy(n.name, n.queue)),
                         "result" := Erase(w.activity(n.name, n.queue, n.args))], map[])
  {
    var fields := map["node_id" := Str(id), "kind" := Str("activity"), "activity_name" := Str(n.name),
                      "task_queue" := Str(n.queue), "policy_id" := Erase(w.policy(n.name, n.queue)),
                      "result" := Erase(w.activity(n.name, n.queue, n.args))];
    assert map[] + map[id := Obj(fields)] == map[id := Obj(fields)];
  }

  lemma {:induction false} AfterAppend(ctx: Context, os: seq<Outcome>, o: Outcome, i: nat)
    requires i <= |os|
    ensures After(ctx, os + [o], i) == After(ctx, os, i)
  {
    if i > 0 { AfterAppend(ctx, os, o, i - 1); }
  }
}
