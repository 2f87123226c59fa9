/** Contradiction groups are the connected components of the contradiction graph. */
module ContradictionGroups {
  import opened Json
  import opened EvidenceLedger

  // ----- the contradiction graph

  type Edges = set<(ClaimId, ClaimId)>

  predicate Linked(e: Edges, a: ClaimId, b: ClaimId) {
    (a, b) in e || (b, a) in e
  }

  predicate IsPath(e: Edges, path: seq<ClaimId>, a: ClaimId, b: ClaimId) {
    path != [] && path[0] == a && path[|path| - 1] == b
    && forall i | 0 <= i < |path| - 1 :: Linked(e, path[i], path[i + 1])
  }

  ghost predicate Connected(e: Edges, a: ClaimId, b: ClaimId) {
    exists path :: IsPath(e, path, a, b)
  }

  lemma ConnectedSelf(e: Edges, a: ClaimId)
    ensures Connected(e, a, a)
  {
    assert IsPath(e, [a], a, a);
  }

  lemma ConnectedEdge(e: Edges, a: ClaimId, b: ClaimId)
    requires Linked(e, a, b)
    ensures Connected(e, a, b)
  {
    assert IsPath(e, [a, b], a, b);
  }

  lemma ConnectedThrough(e: Edges, a: ClaimId, b: ClaimId, c: ClaimId)
    requires Connected(e, a, b) && Connected(e, b, c)
    ensures Connected(e, a, c)
  {
    var p :| IsPath(e, p, a, b);
    var q :| IsPath(e, q, b, c);
    var r := p + q[1..];
    forall i | 0 <= i < |r| - 1 ensures Linked(e, r[i], r[i + 1]) {
      if i >= |p| - 1 { assert r[i] == q[i - |p| + 1] && r[i + 1] == q[i - |p| + 2]; }
    }
    assert IsPath(e, r, a, c);
  }

  lemma ConnectedBack(e: Edges, a: ClaimId, b: ClaimId)
    requires Connected(e, a, b)
    ensures Connected(e, b, a)
  {
    var p :| IsPath(e, p, a, b);
    var q := seq(|p|, i requires 0 <= i < |p| => p[|p| - 1 - i]);
    forall i | 0 <= i < |q| - 1 ensures Linked(e, q[i], q[i + 1]) {
      assert Linked(e, p[|p| - 2 - i], p[|p| - 2 - i + 1]);
    }
    assert IsPath(e, q, b, a);
  }

  lemma ConnectedMore(e: Edges, e': Edges, a: ClaimId, b: ClaimId)
    requires Connected(e, a, b) && e <= e'
    ensures Connected(e', a, b)
  {
    var p :| IsPath(e, p, a, b);
    assert IsPath(e', p, a, b);
  }

  /** A path that ends elsewhere than it starts ends with an edge. */
  lemma PathEndsWithEdge(e: Edges, path: seq<ClaimId>, a: ClaimId, b: ClaimId)
    requires IsPath(e, path, a, b) && a != b
    ensures exists y :: y in e && (y.0 == b || y.1 == b)
  {
    var m := path[|path| - 2];
    assert Linked(e, m, path[|path| - 2 + 1]);
    assert (m, b) in e || (b, m) in e;
  }

  // ----- histories

  /** One call of `add`, with the UUID it would draw. */
  datatype Op = Op(packet: Packet, contradicts: seq<ClaimId>, newId: GroupId)

  function Replay(ops: seq<Op>): Ledger
    decreases |ops|
  {
    if ops == [] then Ledger(map[], map[])
    else
      var op := ops[|ops| - 1];
      Step(Replay(ops[..|ops| - 1]), op.packet, op.contradicts, op.newId)
  }

  function NewEdges(l: Ledger, op: Op): Edges {
    if Accepts(l, op.packet, op.contradicts) then set c | c in op.contradicts :: (op.packet.claimId, c) else {}
  }

  /** The contradictions accepted along a history. */
  function Contradictions(ops: seq<Op>): Edges
    decreases |ops|
  {
    if ops == [] then {}
    else Contradictions(ops[..|ops| - 1]) + NewEdges(Replay(ops[..|ops| - 1]), ops[|ops| - 1])
  }

  predicate UsesGroup(l: Ledger, g: GroupId) {
    exists id :: id in l.packets && l.packets[id].group == Some(g)
  }

  /** An accepted packet arrives without a group, and the UUID drawn for it is new. */
  predicate CleanOp(l: Ledger, op: Op) {
    Accepts(l, op.packet, op.contradicts) ==> op.packet.group.None? && !UsesGroup(l, op.newId)
  }

  /** An accepted packet has a claim id of its own, or reuses one without harm: the replaced claim had no group, or
      the packet contradicts something and takes that group along, or nobody else was in it. */
  predicate SafeReuse(l: Ledger, op: Op) {
    Accepts(l, op.packet, op.contradicts) && op.packet.claimId in l.packets && l.packets[op.packet.claimId].group.Some? ==>
      var g := l.packets[op.packet.claimId].group.value;
      op.contradicts != []
      && (g in GroupsOf(l, op.contradicts) || forall y | y in l.packets && l.packets[y].group == Some(g) :: y == op.packet.claimId)
  }

  predicate CleanHistory(ops: seq<Op>)
    decreases |ops|
  {
    ops == [] || (CleanHistory(ops[..|ops| - 1]) && CleanOp(Replay(ops[..|ops| - 1]), ops[|ops| - 1]))
  }

  predicate SafeHistory(ops: seq<Op>)
    decreases |ops|
  {
    ops == [] || (SafeHistory(ops[..|ops| - 1]) && SafeReuse(Replay(ops[..|ops| - 1]), ops[|ops| - 1]))
  }

  predicate SameGroup(l: Ledger, a: ClaimId, b: ClaimId)
    requires a in l.packets && b in l.packets
  {
    l.packets[a].group.Some? && l.packets[a].group == l.packets[b].group
  }

  predicate Touched(e: Edges, a: ClaimId) {
    exists x :: x in e && (x.0 == a || x.1 == a)
  }

  /** The groups of l are the components of e. */
  ghost predicate Components(l: Ledger, e: Edges) {
    && (forall x | x in e :: x.0 in l.packets && x.1 in l.packets)
    && (forall a, b | a in l.packets && b in l.packets && a != b :: SameGroup(l, a, b) <==> Connected(e, a, b))
    && (forall a | a in l.packets :: l.packets[a].group.Some? <==> Touched(e, a))
  }

  // ----- one more claim

  /** a is connected to the added claim, or to something that one contradicts. */
  ghost predicate Reached(e: Edges, x: ClaimId, contradicts: seq<ClaimId>, a: ClaimId) {
    Connected(e, a, x) || exists c :: c in contradicts && Connected(e, a, c)
  }

  ghost predicate JoinedBy(e: Edges, x: ClaimId, contradicts: seq<ClaimId>, a: ClaimId, b: ClaimId) {
    Connected(e, a, b) || (Reached(e, x, contradicts, a) && Reached(e, x, contradicts, b))
  }

  lemma ReachedAlong(e: Edges, x: ClaimId, contradicts: seq<ClaimId>, a: ClaimId, b: ClaimId)
    requires Reached(e, x, contradicts, a) && Connected(e, a, b)
    ensures Reached(e, x, contradicts, b)
  {
    ConnectedBack(e, a, b);
    if Connected(e, a, x) {
      ConnectedThrough(e, b, a, x);
    } else {
      var c :| c in contradicts && Connected(e, a, c);
      ConnectedThrough(e, b, a, c);
    }
  }

  /** A path in the grown graph adds nothing but passages through the added claim. */
  lemma {:induction false} PathInGrown(e: Edges, e': Edges, x: ClaimId, contradicts: seq<ClaimId>,
                                       path: seq<ClaimId>, a: ClaimId, b: ClaimId)
    requires e' == e + set c | c in contradicts :: (x, c)
    requires IsPath(e', path, a, b)
    ensures JoinedBy(e, x, contradicts, a, b)
    decreases |path|
  {
    if |path| == 1 {
      ConnectedSelf(e, a);
    } else {
      var m := path[|path| - 2];
      assert Linked(e', m, path[|path| - 2 + 1]);
      PathInGrown(e, e', x, contradicts, path[..|path| - 1], a, m);
      if Linked(e, m, b) {
        ConnectedEdge(e, m, b);
        if Connected(e, a, m) {
          ConnectedThrough(e, a, m, b);
        } else {
          ReachedAlong(e, x, contradicts, m, b);
        }
      } else {
        ConnectedSelf(e, m);
        ConnectedSelf(e, b);
        assert Reached(e, x, contradicts, m) && Reached(e, x, contradicts, b);
        if Connected(e, a, m) {
          ConnectedBack(e, a, m);
          ReachedAlong(e, x, contradicts, m, a);
        }
      }
    }
  }

  lemma ReachedInGrown(e: Edges, e': Edges, x: ClaimId, contradicts: seq<ClaimId>, a: ClaimId)
    requires e' == e + set c | c in contradicts :: (x, c)
    requires Reached(e, x, contradicts, a)
    ensures Connected(e', a, x)
  {
    if Connected(e, a, x) {
      ConnectedMore(e, e', a, x);
    } else {
      var c :| c in contradicts && Connected(e, a, c);
      ConnectedMore(e, e', a, c);
      assert (x, c) in e';
      ConnectedEdge(e', c, x);
      ConnectedThrough(e', a, c, x);
    }
  }

  lemma GrownConnections(e: Edges, e': Edges, x: ClaimId, contradicts: seq<ClaimId>, a: ClaimId, b: ClaimId)
    requires e' == e + set c | c in contradicts :: (x, c)
    ensures Connected(e', a, b) <==> JoinedBy(e, x, contradicts, a, b)
  {
    if Connected(e', a, b) {
      var p :| IsPath(e', p, a, b);
      PathInGrown(e, e', x, contradicts, p, a, b);
    }
    if Connected(e, a, b) {
      ConnectedMore(e, e', a, b);
    } else if Reached(e, x, contradicts, a) && Reached(e, x, contradicts, b) {
      ReachedInGrown(e, e', x, contradicts, a);
      ReachedInGrown(e, e', x, contradicts, b);
      ConnectedBack(e', b, x);
      ConnectedThrough(e', a, x, b);
    }
  }

  /** What one accepted packet is added to. */
  ghost predicate Ready(l: Ledger, e: Edges, op: Op) {
    Components(l, e) && Accepts(l, op.packet, op.contradicts) && CleanOp(l, op)
  }

  predicate Regroups(l: Ledger, contradicts: seq<ClaimId>, a: ClaimId)
    requires a in l.packets && forall c | c in contradicts :: c in l.packets
  {
    a in contradicts || (l.packets[a].group.Some? && l.packets[a].group.value in GroupsOf(l, contradicts))
  }

  /** A claim that regroups is connected to something contradicted. */
  lemma RegroupedIsReached(l: Ledger, e: Edges, op: Op, a: ClaimId)
    requires Ready(l, e, op) && a in l.packets && Regroups(l, op.contradicts, a)
    ensures Reached(e, op.packet.claimId, op.contradicts, a)
  {
    if a in op.contradicts {
      ConnectedSelf(e, a);
    } else {
      var c :| c in op.contradicts && l.packets[c].group == l.packets[a].group;
      assert SameGroup(l, a, c);
    }
  }

  lemma ConnectedRegroups(l: Ledger, e: Edges, op: Op, a: ClaimId, c: ClaimId)
    requires Ready(l, e, op) && a in l.packets && c in op.contradicts && Connected(e, a, c)
    ensures Regroups(l, op.contradicts, a)
  {
    if a != c { assert SameGroup(l, a, c); }
  }

  /** Conversely every other claim the packet reaches regroups, unless it is left behind in the replaced claim's group. */
  lemma ReachedRegroups(l: Ledger, e: Edges, op: Op, a: ClaimId)
    requires Ready(l, e, op) && SafeReuse(l, op) && op.contradicts != []
    requires a in l.packets && a != op.packet.claimId && Reached(e, op.packet.claimId, op.contradicts, a)
    ensures Regroups(l, op.contradicts, a)
  {
    var x := op.packet.claimId;
    if exists c :: c in op.contradicts && Connected(e, a, c) {
      var c :| c in op.contradicts && Connected(e, a, c);
      ConnectedRegroups(l, e, op, a, c);
    } else {
      var p :| IsPath(e, p, a, x);
      PathEndsWithEdge(e, p, a, x);
      assert SameGroup(l, a, x);
    }
  }

  lemma TargetIsNew(l: Ledger, contradicts: seq<ClaimId>, newId: GroupId, a: ClaimId)
    requires forall c | c in contradicts :: c in l.packets
    requires a in l.packets && !UsesGroup(l, newId)
    requires l.packets[a].group.Some? ==> l.packets[a].group.value !in GroupsOf(l, contradicts)
    ensures l.packets[a].group != Some(TargetGroup(l, contradicts, newId))
  {
  }

  lemma PairStaysRight(l: Ledger, e: Edges, op: Op, a: ClaimId, b: ClaimId)
    requires Ready(l, e, op) && SafeReuse(l, op) && op.contradicts != []
    requires a in l.packets && b in l.packets && a != b && a != op.packet.claimId && b != op.packet.claimId
    ensures var l' := Added(l, op.packet, op.contradicts, op.newId);
            SameGroup(l', a, b) <==> JoinedBy(e, op.packet.claimId, op.contradicts, a, b)
  {
    var x := op.packet.claimId;
    var (ra, rb) := (Reached(e, x, op.contradicts, a), Reached(e, x, op.contradicts, b));
    assert ra <==> Regroups(l, op.contradicts, a) by {
      if ra { ReachedRegroups(l, e, op, a); } else if Regroups(l, op.contradicts, a) { RegroupedIsReached(l, e, op, a); }
    }
    assert rb <==> Regroups(l, op.contradicts, b) by {
      if rb { ReachedRegroups(l, e, op, b); } else if Regroups(l, op.contradicts, b) { RegroupedIsReached(l, e, op, b); }
    }
    if ra && !rb {
      TargetIsNew(l, op.contradicts, op.newId, b);
      if Connected(e, a, b) { ReachedAlong(e, x, op.contradicts, a, b); }
    } else if rb && !ra {
      TargetIsNew(l, op.contradicts, op.newId, a);
      if Connected(e, a, b) {
        ConnectedBack(e, a, b);
        ReachedAlong(e, x, op.contradicts, b, a);
      }
    }
  }

  lemma NewClaimIsRight(l: Ledger, e: Edges, op: Op, a: ClaimId)
    requires Ready(l, e, op) && SafeReuse(l, op) && op.contradicts != []
    requires a in l.packets && a != op.packet.claimId
    ensures var l' := Added(l, op.packet, op.contradicts, op.newId);
            SameGroup(l', a, op.packet.claimId) <==> JoinedBy(e, op.packet.claimId, op.contradicts, a, op.packet.claimId)
  {
    var x := op.packet.claimId;
    ConnectedSelf(e, x);
    if Reached(e, x, op.contradicts, a) {
      ReachedRegroups(l, e, op, a);
    } else {
      if Regroups(l, op.contradicts, a) { RegroupedIsReached(l, e, op, a); }
      TargetIsNew(l, op.contradicts, op.newId, a);
    }
  }

  lemma LonelyClaim(e: Edges, x: ClaimId, a: ClaimId)
    requires !Touched(e, x) && a != x
    ensures !Connected(e, a, x) && !Connected(e, x, a)
  {
    if Connected(e, x, a) { ConnectedBack(e, x, a); }
    if Connected(e, a, x) {
      var p :| IsPath(e, p, a, x);
      PathEndsWithEdge(e, p, a, x);
    }
  }

  lemma AddedKeepsComponents(l: Ledger, e: Edges, op: Op)
    requires Ready(l, e, op) && SafeReuse(l, op)
    ensures Components(Added(l, op.packet, op.contradicts, op.newId), e + NewEdges(l, op))
  {
    var l' := Added(l, op.packet, op.contradicts, op.newId);
    var x := op.packet.claimId;
    var e' := e + NewEdges(l, op);
    forall a, b | a in l'.packets && b in l'.packets && a != b
      ensures SameGroup(l', a, b) <==> Connected(e', a, b)
    {
      if op.contradicts == [] {
        assert e' == e;
        if a == x || b == x {
          LonelyClaim(e, x, if a == x then b else a);
        }
      } else {
        GrownConnections(e, e', x, op.contradicts, a, b);
        if a == x {
          NewClaimIsRight(l, e, op, b);
          JoinedBack(e, x, op.contradicts, b, x);
          JoinedBack(e, x, op.contradicts, x, b);
        } else if b == x {
          NewClaimIsRight(l, e, op, a);
        } else {
          PairStaysRight(l, e, op, a, b);
        }
      }
    }
    forall a | a in l'.packets ensures l'.packets[a].group.Some? <==> Touched(e', a) {
      GroupedIffTouched(l, e, op, a);
    }
  }

  lemma JoinedBack(e: Edges, x: ClaimId, contradicts: seq<ClaimId>, a: ClaimId, b: ClaimId)
    ensures JoinedBy(e, x, contradicts, a, b) ==> JoinedBy(e, x, contradicts, b, a)
  {
    if Connected(e, a, b) { ConnectedBack(e, a, b); }
  }

  lemma GroupedIffTouched(l: Ledger, e: Edges, op: Op, a: ClaimId)
    requires Ready(l, e, op) && SafeReuse(l, op)
    requires a in l.packets || a == op.packet.claimId
    ensures Added(l, op.packet, op.contradicts, op.newId).packets[a].group.Some? <==> Touched(e + NewEdges(l, op), a)
  {
    var x := op.packet.claimId;
    var added := NewEdges(l, op);
    if a == x {
      if op.contradicts != [] { assert (x, op.contradicts[0]) in added; }
    } else {
      if a in op.contradicts { assert (x, a) in added; }
      if Touched(e, a) {
        var y :| y in e && (y.0 == a || y.1 == a);
        assert y in e + added;
      }
    }
  }

  /** A harmful reuse breaks the groups at once: the replaced claim loses its group or parts from those it shared it
      with. */
  lemma HarmfulReuseBreaks(l: Ledger, e: Edges, op: Op)
    requires Ready(l, e, op) && !SafeReuse(l, op)
    ensures !Components(Added(l, op.packet, op.contradicts, op.newId), e + NewEdges(l, op))
  {
    var l' := Added(l, op.packet, op.contradicts, op.newId);
    var x := op.packet.claimId;
    var e' := e + NewEdges(l, op);
    if op.contradicts == [] {
      var y :| y in e && (y.0 == x || y.1 == x);
      assert y in e' && Touched(e', x);
      assert l'.packets[x].group.None?;
    } else {
      var y :| y in l.packets && y != x && l.packets[y].group == l.packets[x].group;
      assert SameGroup(l, x, y) && Connected(e, x, y);
      ConnectedMore(e, e', x, y);
      TargetIsNew(l, op.contradicts, op.newId, y);
      assert l'.packets[y].group == l.packets[y].group;
      assert !SameGroup(l', x, y);
    }
  }

  /** From groups that are components, an accepted packet leaves them so exactly when it reuses no claim id or reuses
      it without harm. */
  lemma ReuseKeepsComponentsIff(l: Ledger, e: Edges, op: Op)
    requires Ready(l, e, op)
    ensures Components(Added(l, op.packet, op.contradicts, op.newId), e + NewEdges(l, op)) <==> SafeReuse(l, op)
  {
    if SafeReuse(l, op) {
      AddedKeepsComponents(l, e, op);
    } else {
      HarmfulReuseBreaks(l, e, op);
    }
  }

  // ----- histories of adds

  lemma HistoryStep(ops: seq<Op>)
    requires ops != [] && CleanHistory(ops)
    requires Components(Replay(ops[..|ops| - 1]), Contradictions(ops[..|ops| - 1]))
    ensures Components(Replay(ops), Contradictions(ops)) <==> SafeReuse(Replay(ops[..|ops| - 1]), ops[|ops| - 1])
  {
    var before, op := ops[..|ops| - 1], ops[|ops| - 1];
    if Accepts(Replay(before), op.packet, op.contradicts) {
      ReuseKeepsComponentsIff(Replay(before), Contradictions(before), op);
    } else {
      assert Contradictions(ops) == Contradictions(before);
    }
  }

  /** The groups are the components now and after every earlier add. */
  ghost predicate AlwaysComponents(ops: seq<Op>)
    decreases |ops|
  {
    Components(Replay(ops), Contradictions(ops)) && (ops == [] || AlwaysComponents(ops[..|ops| - 1]))
  }

  lemma {:induction false} AlwaysAtEveryAdd(ops: seq<Op>, n: nat)
    requires AlwaysComponents(ops) && n <= |ops|
    ensures Components(Replay(ops[..n]), Contradictions(ops[..n]))
    decreases |ops|
  {
    if n == |ops| {
      assert ops[..n] == ops;
    } else {
      AlwaysAtEveryAdd(ops[..|ops| - 1], n);
      assert ops[..|ops| - 1][..n] == ops[..n];
    }
  }

  /** The groups are the components after every add of a history exactly when no add of it reuses an id harmfully. */
  lemma {:induction false} AlwaysComponentsIff(ops: seq<Op>)
    requires CleanHistory(ops)
    ensures SafeHistory(ops) <==> AlwaysComponents(ops)
    decreases |ops|
  {
    if ops == [] {
      NothingIsComponents();
    } else {
      var before := ops[..|ops| - 1];
      AlwaysComponentsIff(before);
      if AlwaysComponents(before) {
        HistoryStep(ops);
      }
    }
  }

  lemma NothingIsComponents()
    ensures Components(Replay([]), Contradictions([]))
  {
  }

  /** After any history of adds without a harmful reuse, two claims share a contradiction group iff they are connected
      by accepted contradictions, and a claim has a group iff it is part of some contradiction. */
  lemma GroupsAreComponents(ops: seq<Op>, a: ClaimId, b: ClaimId)
    requires CleanHistory(ops) && SafeHistory(ops) && a in Replay(ops).packets && b in Replay(ops).packets
    ensures a != b ==> (SameGroup(Replay(ops), a, b) <==> Connected(Contradictions(ops), a, b))
    ensures Replay(ops).packets[a].group.Some? <==> Touched(Contradictions(ops), a)
  {
    AlwaysComponentsIff(ops);
  }

  /** Without fresh claim ids it fails: reusing a claim's id replaces the packet and forgets its group, although
      the contradiction was accepted. */
  lemma ReusedClaimIdLosesItsGroup()
    ensures var ops := [Op(Packet("a", "s", "q1", None), [], 0), Op(Packet("b", "s", "q2", None), ["a"], 1),
                        Op(Packet("a", "s", "q3", None), [], 2)];
            && "a" in Replay(ops).packets && "b" in Replay(ops).packets
            && Connected(Contradictions(ops), "a", "b") && !SameGroup(Replay(ops), "a", "b")
  {
    var o1 := Op(Packet("a", "s", "q1", None), [], 0);
    var o2 := Op(Packet("b", "s", "q2", None), ["a"], 1);
    var o3 := Op(Packet("a", "s", "q3", None), [], 2);
    var none: seq<Op> := [];
    assert [o1, o2, o3][..2] == [o1, o2] && [o1, o2][..1] == [o1] && [o1][..0] == none;
    var l1 := Replay([o1]);
    assert Replay(none) == Ledger(map[], map[]);
    assert l1 == Step(Ledger(map[], map[]), o1.packet, [], 0);
    assert l1.packets["a"].group == None;
    assert Accepts(l1, o2.packet, ["a"]);
    var l2 := Replay([o1, o2]);
    assert l2 == Step(l1, o2.packet, ["a"], 1);
    assert Accepts(l2, o3.packet, []);
    assert Replay([o1, o2, o3]) == Step(l2, o3.packet, [], 2);
    assert ("b", "a") in NewEdges(l1, o2);
    assert ("b", "a") in Contradictions([o1, o2]);
    ConnectedEdge(Contradictions([o1, o2, o3]), "a", "b");
  }
}
