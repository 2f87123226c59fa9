/** Choosing which lanes a prompt keeps, and the last check before the model sees it. */
module ContextBudget {
  import opened Json
  import opened ContextLanes
  import opened Compaction
  import opened RecallPointers

  /** Most stable first, so that the longest prefix of a prompt survives from call to call. */
  const CACHE_STABLE_ORDER: seq<Lane> := [L0Policy, L6Skills, L1State, L2Evidence, L3Episodic, L4Artifacts, L5Memory]

  predicate NeverDropped(l: Lane) {
    l == L0Policy || l == L1State
  }

  type Blocks = map<Lane, Block>

  datatype Decision = Decision(included: seq<Lane>, dropped: seq<Lane>, rendered: seq<Block>)

  datatype Budgeted = Fits(decision: Decision) | PinnedLanesExceed(tokens: nat) | FidelityViolation(violation: Violation)

  function CostOf(blocks: Blocks, l: Lane): nat {
    if l in blocks then blocks[l].tokens else 0
  }

  function PinnedTokens(blocks: Blocks): nat {
    CostOf(blocks, L0Policy) + CostOf(blocks, L1State)
  }

  // ----- the greedy choice

  /** Tokens the optional lanes kept among the first k of the order use. */
  function OptionalUse(blocks: Blocks, room: int, k: nat): nat
    requires k <= |CACHE_STABLE_ORDER|
    decreases k, 0
  {
    if k == 0 then 0
    else
      var l := CACHE_STABLE_ORDER[k - 1];
      OptionalUse(blocks, room, k - 1) + if !NeverDropped(l) && Kept(blocks, room, k - 1) then CostOf(blocks, l) else 0
  }

  /** A present lane is kept when it can never be dropped, or fits beside the optional lanes kept before it. */
  predicate Kept(blocks: Blocks, room: int, k: nat)
    requires k < |CACHE_STABLE_ORDER|
    decreases k, 1
  {
    var l := CACHE_STABLE_ORDER[k];
    l in blocks && (NeverDropped(l) || OptionalUse(blocks, room, k) + CostOf(blocks, l) <= room)
  }

  function KeptLanes(blocks: Blocks, room: int, k: nat): seq<Lane>
    requires k <= |CACHE_STABLE_ORDER|
  {
    if k == 0 then []
    else KeptLanes(blocks, room, k - 1) + if Kept(blocks, room, k - 1) then [CACHE_STABLE_ORDER[k - 1]] else []
  }

  function DroppedLanes(blocks: Blocks, room: int, k: nat): seq<Lane>
    requires k <= |CACHE_STABLE_ORDER|
  {
    if k == 0 then []
    else
      var l := CACHE_STABLE_ORDER[k - 1];
      DroppedLanes(blocks, room, k - 1) + if l in blocks && !Kept(blocks, room, k - 1) then [l] else []
  }

  function BlocksFor(blocks: Blocks, kept: seq<Lane>): seq<Block>
    requires forall l | l in kept :: l in blocks
  {
    seq(|kept|, i requires 0 <= i < |kept| => blocks[kept[i]])
  }

  lemma {:induction false} KeptArePresent(blocks: Blocks, room: int, k: nat)
    requires k <= |CACHE_STABLE_ORDER|
    ensures forall l | l in KeptLanes(blocks, room, k) :: l in blocks
  {
    if k > 0 {
      KeptArePresent(blocks, room, k - 1);
    }
  }

  // ----- the operations

  method ByLane(rendered: seq<Block>, ghost blocks: Blocks) returns (byLane: Blocks)
    requires rendered == InOrder(blocks, LANES) && forall l | l in blocks :: blocks[l].lane == l
    ensures byLane == blocks
  {
    byLane := map[];
    for i := 0 to |rendered|
      invariant forall l | l in byLane :: l in blocks && byLane[l] == blocks[l]
      invariant forall j | 0 <= j < i :: rendered[j].lane in byLane
    {
      InOrderOnly(blocks, LANES, rendered[i]);
      byLane := byLane[rendered[i].lane := rendered[i]];
    }
    EveryLaneListed();
    forall l | l in blocks ensures l in byLane {
      InOrderHas(blocks, LANES, l);
      var j :| 0 <= j < |rendered| && rendered[j] == blocks[l];
      assert rendered[j].lane in byLane;
    }
    assert byLane.Keys == blocks.Keys;
  }

  /** Keeps the lanes that fit a token budget. */
  method Budget(lanes: Lanes, maxTokens: int, show: Printer) returns (r: Budgeted)
    ensures r.FidelityViolation? <==> !AllRender(lanes, show)
    ensures AllRender(lanes, show) ==>
              var blocks := BlocksOf(lanes, show);
              var room := maxTokens - PinnedTokens(blocks);
              if room < 0 then r == PinnedLanesExceed(PinnedTokens(blocks)) else Chosen(blocks, room, r)
  {
    var full, problem := Assemble(lanes, show);
    if problem.Some? { return FidelityViolation(problem.value); }
    ghost var blocks := BlocksOf(lanes, show);
    var byLane := ByLane(full, blocks);
    var pinned := PinnedTokens(byLane);
    if pinned > maxTokens { return PinnedLanesExceed(pinned); }
    r := Choose(byLane, maxTokens - pinned);
  }

  predicate Chosen(blocks: Blocks, room: int, r: Budgeted) {
    var kept := KeptLanes(blocks, room, |CACHE_STABLE_ORDER|);
    r.Fits? && r.decision.included == kept && r.decision.dropped == DroppedLanes(blocks, room, |CACHE_STABLE_ORDER|)
    && (forall l | l in kept :: l in blocks) && r.decision.rendered == BlocksFor(blocks, kept)
  }

  method Choose(byLane: Blocks, room: int) returns (r: Budgeted)
    ensures Chosen(byLane, room, r)
  {
    var included: seq<Lane>, dropped: seq<Lane> := [], [];
    var used := 0;
    for k := 0 to |CACHE_STABLE_ORDER|
      invariant included == KeptLanes(byLane, room, k) && dropped == DroppedLanes(byLane, room, k)
      invariant used == OptionalUse(byLane, room, k)
    {
      var l := CACHE_STABLE_ORDER[k];
      if l in byLane {
        var cost := byLane[l].tokens;
        if NeverDropped(l) {
          included := included + [l];
        } else if used + cost <= room {
          included := included + [l];
          used := used + cost;
        } else {
          dropped := dropped + [l];
        }
      }
    }
    KeptArePresent(byLane, room, |CACHE_STABLE_ORDER|);
    r := Fits(Decision(included, dropped, BlocksFor(byLane, included)));
  }

  // ----- what the choice guarantees

  lemma {:induction false} UseIsWithinRoom(blocks: Blocks, room: int, k: nat)
    requires k <= |CACHE_STABLE_ORDER| && room >= 0
    ensures OptionalUse(blocks, room, k) <= room
  {
    if k > 0 {
      UseIsWithinRoom(blocks, room, k - 1);
    }
  }

  lemma {:induction false} UseGrows(blocks: Blocks, room: int, j: nat, k: nat)
    requires j <= k <= |CACHE_STABLE_ORDER|
    ensures OptionalUse(blocks, room, j) <= OptionalUse(blocks, room, k)
    decreases k
  {
    if j < k {
      UseGrows(blocks, room, j, k - 1);
    }
  }

  /** Pinned tokens among the first k of the order. */
  function PinnedUse(blocks: Blocks, k: nat): nat
    requires k <= |CACHE_STABLE_ORDER|
  {
    if k == 0 then 0
    else PinnedUse(blocks, k - 1) + if NeverDropped(CACHE_STABLE_ORDER[k - 1]) then CostOf(blocks, CACHE_STABLE_ORDER[k - 1]) else 0
  }

  lemma BlocksOneMore(blocks: Blocks, kept: seq<Lane>, l: Lane)
    requires l in blocks && forall x | x in kept :: x in blocks
    ensures (forall x | x in kept + [l] :: x in blocks) && BlocksFor(blocks, kept + [l]) == BlocksFor(blocks, kept) + [blocks[l]]
    ensures TokensIn(BlocksFor(blocks, kept + [l])) == TokensIn(BlocksFor(blocks, kept)) + blocks[l].tokens
  {
    assert BlocksFor(blocks, kept + [l]) == BlocksFor(blocks, kept) + [blocks[l]];
    assert (BlocksFor(blocks, kept) + [blocks[l]])[..|kept|] == BlocksFor(blocks, kept);
  }

  lemma {:induction false} TokensSplit(blocks: Blocks, room: int, k: nat)
    requires k <= |CACHE_STABLE_ORDER|
    ensures (forall l | l in KeptLanes(blocks, room, k) :: l in blocks)
            && TokensIn(BlocksFor(blocks, KeptLanes(blocks, room, k))) == OptionalUse(blocks, room, k) + PinnedUse(blocks, k)
  {
    KeptArePresent(blocks, room, k);
    if k > 0 {
      var l := CACHE_STABLE_ORDER[k - 1];
      TokensSplit(blocks, room, k - 1);
      assert l in blocks ==> CostOf(blocks, l) == blocks[l].tokens;
      if Kept(blocks, room, k - 1) {
        assert KeptLanes(blocks, room, k) == KeptLanes(blocks, room, k - 1) + [l];
        BlocksOneMore(blocks, KeptLanes(blocks, room, k - 1), l);
      } else {
        assert KeptLanes(blocks, room, k) == KeptLanes(blocks, room, k - 1);
      }
    }
  }

  lemma AllPinnedUse(blocks: Blocks)
    ensures PinnedUse(blocks, |CACHE_STABLE_ORDER|) == PinnedTokens(blocks)
  {
    assert PinnedUse(blocks, 3) == PinnedTokens(blocks) by {
      assert PinnedUse(blocks, 1) == CostOf(blocks, L0Policy);
      assert PinnedUse(blocks, 2) == CostOf(blocks, L0Policy);
    }
    assert PinnedUse(blocks, 5) == PinnedUse(blocks, 3) by { assert PinnedUse(blocks, 4) == PinnedUse(blocks, 3); }
    assert PinnedUse(blocks, 7) == PinnedUse(blocks, 5) by { assert PinnedUse(blocks, 6) == PinnedUse(blocks, 5); }
  }

  /** The prompt is within its budget, holds every lane that may not be dropped, and no dropped lane would have fitted
      in what it leaves free. */
  lemma BudgetIsGreedy(blocks: Blocks, maxTokens: int, r: Budgeted)
    requires maxTokens >= PinnedTokens(blocks) && Chosen(blocks, maxTokens - PinnedTokens(blocks), r)
    ensures TokensIn(r.decision.rendered) <= maxTokens
    ensures forall l | l in blocks && NeverDropped(l) :: l in r.decision.included
    ensures forall l | l in r.decision.dropped ::
              l in blocks && !NeverDropped(l) && TokensIn(r.decision.rendered) + blocks[l].tokens > maxTokens
    ensures forall l | l in blocks :: l in r.decision.included <==> l !in r.decision.dropped
  {
    var room, n := maxTokens - PinnedTokens(blocks), |CACHE_STABLE_ORDER|;
    TokensSplit(blocks, room, n);
    AllPinnedUse(blocks);
    UseIsWithinRoom(blocks, room, n);
    forall l: Lane
      ensures l in blocks && NeverDropped(l) ==> l in r.decision.included
      ensures l in blocks ==> (l in r.decision.included <==> l !in r.decision.dropped)
      ensures l in r.decision.dropped ==>
                l in blocks && !NeverDropped(l) && OptionalUse(blocks, room, n) + CostOf(blocks, l) > room
    {
      var k := PlaceOf(l);
      WhereKept(blocks, room, k, n);
      UseGrows(blocks, room, k, n);
    }
  }

  lemma PlaceOf(l: Lane) returns (k: nat)
    ensures k < |CACHE_STABLE_ORDER| && CACHE_STABLE_ORDER[k] == l
  {
    match l
    case L0Policy => k := 0;
    case L6Skills => k := 1;
    case L1State => k := 2;
    case L2Evidence => k := 3;
    case L3Episodic => k := 4;
    case L4Artifacts => k := 5;
    case L5Memory => k := 6;
  }

  lemma {:induction false} WhereKept(blocks: Blocks, room: int, i: nat, k: nat)
    requires i < |CACHE_STABLE_ORDER| && k <= |CACHE_STABLE_ORDER|
    ensures var l := CACHE_STABLE_ORDER[i];
            (l in KeptLanes(blocks, room, k) <==> i < k && Kept(blocks, room, i))
            && (l in DroppedLanes(blocks, room, k) <==> i < k && l in blocks && !Kept(blocks, room, i))
    decreases k
  {
    if k > 0 {
      WhereKept(blocks, room, i, k - 1);
      DistinctPlaces(i, k - 1);
    }
  }

  lemma DistinctPlaces(i: nat, j: nat)
    requires i < |CACHE_STABLE_ORDER| && j < |CACHE_STABLE_ORDER|
    ensures CACHE_STABLE_ORDER[i] == CACHE_STABLE_ORDER[j] ==> i == j
  {
  }

  // ----- the cached prefix

  predicate AgreeUpTo(a: Blocks, b: Blocks, k: nat)
    requires k <= |CACHE_STABLE_ORDER|
  {
    forall i | 0 <= i < k :: var l := CACHE_STABLE_ORDER[i]; (l in a <==> l in b) && (l in a && l in b ==> a[l] == b[l])
  }

  /** For each optional lane among the first k of a's prompt, the other room decides as a's own room does. */
  predicate SameVerdicts(a: Blocks, roomA: int, roomB: int, k: nat)
    requires k <= |CACHE_STABLE_ORDER|
  {
    forall i | 0 <= i < k && CACHE_STABLE_ORDER[i] in a && !NeverDropped(CACHE_STABLE_ORDER[i]) ::
      FitsAt(a, roomA, roomA, i) <==> FitsAt(a, roomA, roomB, i)
  }

  /** Beside what a keeps before it, lane i of the order fits into `room`. */
  predicate FitsAt(a: Blocks, roomA: int, room: int, i: nat)
    requires i < |CACHE_STABLE_ORDER|
  {
    OptionalUse(a, roomA, i) + CostOf(a, CACHE_STABLE_ORDER[i]) <= room
  }

  lemma {:induction false} SameChoicesUpTo(a: Blocks, b: Blocks, roomA: int, roomB: int, k: nat)
    requires k <= |CACHE_STABLE_ORDER| && AgreeUpTo(a, b, k) && SameVerdicts(a, roomA, roomB, k)
    ensures OptionalUse(a, roomA, k) == OptionalUse(b, roomB, k) && KeptLanes(a, roomA, k) == KeptLanes(b, roomB, k)
  {
    if k > 0 {
      SameChoicesUpTo(a, b, roomA, roomB, k - 1);
      var l := CACHE_STABLE_ORDER[k - 1];
      assert l in a <==> l in b;
      if l in a && !NeverDropped(l) {
        assert FitsAt(a, roomA, roomA, k - 1) <==> FitsAt(a, roomA, roomB, k - 1);
      }
    }
  }

  lemma {:induction false} LaterLanesOnlyAppend(blocks: Blocks, room: int, k: nat, n: nat)
    requires k <= n <= |CACHE_STABLE_ORDER|
    ensures KeptLanes(blocks, room, k) <= KeptLanes(blocks, room, n)
    decreases n
  {
    if k < n {
      LaterLanesOnlyAppend(blocks, room, k, n - 1);
    }
  }

  lemma {:induction false} SameUse(a: Blocks, b: Blocks, roomA: int, roomB: int, k: nat, i: nat)
    requires i <= k <= |CACHE_STABLE_ORDER| && AgreeUpTo(a, b, k)
    requires KeptLanes(a, roomA, k) == KeptLanes(b, roomB, k)
    ensures OptionalUse(a, roomA, i) == OptionalUse(b, roomB, i)
    decreases i
  {
    if i > 0 {
      SameUse(a, b, roomA, roomB, k, i - 1);
      WhereKept(a, roomA, i - 1, k);
      WhereKept(b, roomB, i - 1, k);
      var l := CACHE_STABLE_ORDER[i - 1];
      assert l in a <==> l in b;
    }
  }

  /** When two turns agree on the first k lanes of the order, they keep the same ones among them exactly when the room
      the second turn leaves decides each of these lanes as the first turn's did; and then both prompts begin with the
      same blocks. An unchanged pinned total is one way to have that. */
  lemma PrefixIsStableIff(a: Blocks, b: Blocks, maxTokens: int, k: nat, ra: Budgeted, rb: Budgeted)
    requires k <= |CACHE_STABLE_ORDER| && AgreeUpTo(a, b, k)
    requires Chosen(a, maxTokens - PinnedTokens(a), ra) && Chosen(b, maxTokens - PinnedTokens(b), rb)
    ensures var roomA, roomB := maxTokens - PinnedTokens(a), maxTokens - PinnedTokens(b);
            var prefix := KeptLanes(a, roomA, k);
            && (KeptLanes(b, roomB, k) == prefix <==> SameVerdicts(a, roomA, roomB, k))
            && (PinnedTokens(a) == PinnedTokens(b) ==> SameVerdicts(a, roomA, roomB, k))
            && (SameVerdicts(a, roomA, roomB, k) ==>
                  prefix <= ra.decision.included && prefix <= rb.decision.included
                  && |prefix| <= |ra.decision.rendered| && |prefix| <= |rb.decision.rendered|
                  && ra.decision.rendered[..|prefix|] == rb.decision.rendered[..|prefix|])
  {
    var roomA, roomB := maxTokens - PinnedTokens(a), maxTokens - PinnedTokens(b);
    if SameVerdicts(a, roomA, roomB, k) {
      SameChoicesUpTo(a, b, roomA, roomB, k);
      SamePrefix(a, b, roomA, roomB, k, ra, rb);
    }
    if KeptLanes(b, roomB, k) == KeptLanes(a, roomA, k) {
      forall i | 0 <= i < k && CACHE_STABLE_ORDER[i] in a && !NeverDropped(CACHE_STABLE_ORDER[i])
        ensures FitsAt(a, roomA, roomA, i) <==> FitsAt(a, roomA, roomB, i)
      {
        WhereKept(a, roomA, i, k);
        WhereKept(b, roomB, i, k);
        SameUse(a, b, roomA, roomB, k, i);
      }
    }
  }

  lemma SamePrefix(a: Blocks, b: Blocks, roomA: int, roomB: int, k: nat, ra: Budgeted, rb: Budgeted)
    requires k <= |CACHE_STABLE_ORDER| && AgreeUpTo(a, b, k) && KeptLanes(a, roomA, k) == KeptLanes(b, roomB, k)
    requires Chosen(a, roomA, ra) && Chosen(b, roomB, rb)
    ensures var prefix := KeptLanes(a, roomA, k);
            prefix <= ra.decision.included && prefix <= rb.decision.included
            && |prefix| <= |ra.decision.rendered| && |prefix| <= |rb.decision.rendered|
            && ra.decision.rendered[..|prefix|] == rb.decision.rendered[..|prefix|]
  {
    var prefix := KeptLanes(a, roomA, k);
    LaterLanesOnlyAppend(a, roomA, k, |CACHE_STABLE_ORDER|);
    LaterLanesOnlyAppend(b, roomB, k, |CACHE_STABLE_ORDER|);
    forall i | 0 <= i < |prefix|
      ensures ra.decision.rendered[i] == rb.decision.rendered[i]
    {
      assert prefix[i] == ra.decision.included[i] == rb.decision.included[i];
      var j := PlaceOf(prefix[i]);
      WhereKept(a, roomA, j, k);
      assert prefix[i] in prefix;
    }
  }

  function BlockOfSize(l: Lane, tokens: nat): Block {
    Block(l, FidelityOf(l), "", tokens)
  }

  /** A task state that grows by one token evicts a skill lane before it, although nothing before the state changed. */
  lemma GrowingStateBreaksThePrefix()
    ensures var skills := BlockOfSize(L6Skills, 1);
            var a := map[L6Skills := skills, L1State := BlockOfSize(L1State, 1)];
            var b := map[L6Skills := skills, L1State := BlockOfSize(L1State, 2)];
            AgreeUpTo(a, b, 2) && KeptLanes(a, 2 - PinnedTokens(a), 2) == [L6Skills] && KeptLanes(b, 2 - PinnedTokens(b), 2) == []
  {
    var skills := BlockOfSize(L6Skills, 1);
    var a := map[L6Skills := skills, L1State := BlockOfSize(L1State, 1)];
    var b := map[L6Skills := skills, L1State := BlockOfSize(L1State, 2)];
    assert OptionalUse(a, 1, 1) == 0 && OptionalUse(b, 0, 1) == 0;
    assert KeptLanes(a, 1, 1) == [] && KeptLanes(b, 0, 1) == [];
  }

  // ----- which lanes go first

  predicate Optional(blocks: Blocks, i: nat)
    requires i < |CACHE_STABLE_ORDER|
  {
    CACHE_STABLE_ORDER[i] in blocks && !NeverDropped(CACHE_STABLE_ORDER[i])
  }

  lemma {:induction false} UseStandsStill(blocks: Blocks, room: int, i: nat, j: nat)
    requires i <= j <= |CACHE_STABLE_ORDER|
    requires forall h | i <= h < j && Optional(blocks, h) :: !Kept(blocks, room, h)
    ensures OptionalUse(blocks, room, j) == OptionalUse(blocks, room, i)
    decreases j
  {
    if i < j {
      UseStandsStill(blocks, room, i, j - 1);
      assert Optional(blocks, j - 1) ==> !Kept(blocks, room, j - 1);
    }
  }

  lemma {:induction false} NoneFitsAfter(blocks: Blocks, room: int, i: nat, j: nat)
    requires i <= j <= |CACHE_STABLE_ORDER|
    requires forall h | i <= h < j && Optional(blocks, h) :: OptionalUse(blocks, room, i) + CostOf(blocks, CACHE_STABLE_ORDER[h]) > room
    ensures forall h | i <= h < j && Optional(blocks, h) :: !Kept(blocks, room, h)
    decreases j
  {
    if i < j {
      NoneFitsAfter(blocks, room, i, j - 1);
      UseStandsStill(blocks, room, i, j - 1);
    }
  }

  /** Once lane i is dropped, everything more volatile is dropped too exactly when none of it would fit in the room that
      was left at lane i: otherwise a later, smaller lane is kept in its place. */
  lemma MostVolatileFirstIff(blocks: Blocks, room: int, i: nat)
    requires i < |CACHE_STABLE_ORDER| && Optional(blocks, i) && !Kept(blocks, room, i)
    ensures (forall j | i < j < |CACHE_STABLE_ORDER| && Optional(blocks, j) :: !Kept(blocks, room, j)) <==>
            (forall j | i < j < |CACHE_STABLE_ORDER| && Optional(blocks, j) ::
               OptionalUse(blocks, room, i) + CostOf(blocks, CACHE_STABLE_ORDER[j]) > room)
  {
    var n := |CACHE_STABLE_ORDER|;
    if forall j | i < j < n && Optional(blocks, j) :: !Kept(blocks, room, j) {
      forall j | i < j < n && Optional(blocks, j)
        ensures OptionalUse(blocks, room, i) + CostOf(blocks, CACHE_STABLE_ORDER[j]) > room
      {
        UseStandsStill(blocks, room, i, j);
      }
    }
    if forall j | i < j < n && Optional(blocks, j) :: OptionalUse(blocks, room, i) + CostOf(blocks, CACHE_STABLE_ORDER[j]) > room {
      NoneFitsAfter(blocks, room, i, n);
    }
  }

  /** A large evidence lane is dropped while the more volatile memory lane after it is kept. */
  lemma LessVolatileLaneDropped()
    ensures var blocks := map[L2Evidence := BlockOfSize(L2Evidence, 5), L5Memory := BlockOfSize(L5Memory, 1)];
            DroppedLanes(blocks, 1, 7) == [L2Evidence] && KeptLanes(blocks, 1, 7) == [L5Memory]
  {
    var blocks := map[L2Evidence := BlockOfSize(L2Evidence, 5), L5Memory := BlockOfSize(L5Memory, 1)];
    assert OptionalUse(blocks, 1, 3) == 0 by { assert OptionalUse(blocks, 1, 2) == 0 by { assert OptionalUse(blocks, 1, 1) == 0; } }
    assert KeptLanes(blocks, 1, 3) == [] by { assert KeptLanes(blocks, 1, 2) == [] by { assert KeptLanes(blocks, 1, 1) == []; } }
    assert DroppedLanes(blocks, 1, 3) == [] by { assert DroppedLanes(blocks, 1, 2) == [] by { assert DroppedLanes(blocks, 1, 1) == []; } }
    assert !Kept(blocks, 1, 3);
    assert OptionalUse(blocks, 1, 6) == 0 by { assert OptionalUse(blocks, 1, 5) == 0 by { assert OptionalUse(blocks, 1, 4) == 0; } }
    assert KeptLanes(blocks, 1, 6) == [] by { assert KeptLanes(blocks, 1, 5) == [] by { assert KeptLanes(blocks, 1, 4) == []; } }
    assert DroppedLanes(blocks, 1, 6) == [L2Evidence] by {
      assert DroppedLanes(blocks, 1, 5) == [L2Evidence] by { assert DroppedLanes(blocks, 1, 4) == [L2Evidence]; }
    }
    assert Kept(blocks, 1, 6);
  }

  // ----- the integrity gate

  datatype Report = Report(ok: bool, missing: seq<string>, dangling: seq<string>, tokens: nat, maxTokens: Option<int>)

  /** What a finished prompt lacks: constraints not in its text, recall pointers that resolve to nothing, room. */
  method Check(rendered: seq<Block>, constraints: seq<string>, known: Option<set<string>>, maxTokens: Option<int>)
    returns (r: Report)
    ensures forall c :: c in r.missing <==> c in constraints && !Contains(FullText(rendered), c)
    ensures forall p :: p in r.dangling <==> p in Ids(FullText(rendered)) && known.Some? && p !in known.value
    ensures r.tokens == TokensIn(rendered) && r.maxTokens == maxTokens
    ensures r.ok <==>
              (forall c | c in constraints :: Contains(FullText(rendered), c))
              && (known.Some? ==> forall p | p in Ids(FullText(rendered)) :: p in known.value)
              && (maxTokens.Some? ==> TokensIn(rendered) <= maxTokens.value)
  {
    var text := FullText(rendered);
    var missing: seq<string>, dangling: seq<string> := [], [];
    for i := 0 to |constraints|
      invariant forall c :: c in missing <==> c in constraints[..i] && !Contains(text, c)
    {
      var found := Find(text, constraints[i]);
      if !found { missing := missing + [constraints[i]]; }
      assert constraints[..i + 1] == constraints[..i] + [constraints[i]];
    }
    if known.Some? {
      var pointers := FindIds(text);
      for i := 0 to |pointers|
        invariant forall p :: p in dangling <==> p in pointers[..i] && p !in known.value
      {
        if pointers[i] !in known.value { dangling := dangling + [pointers[i]]; }
        assert pointers[..i + 1] == pointers[..i] + [pointers[i]];
      }
      assert pointers[..|pointers|] == pointers;
    }
    assert constraints[..|constraints|] == constraints;
    var over := maxTokens.Some? && TokensIn(rendered) > maxTokens.value;
    r := Report(missing == [] && dangling == [] && !over, missing, dangling, TokensIn(rendered), maxTokens);
    assert missing != [] ==> missing[0] in missing;
    assert dangling != [] ==> dangling[0] in dangling;
  }

  method Find(s: string, c: string) returns (found: bool)
    ensures found <==> Contains(s, c)
  {
    for i := 0 to |s| + 1
      invariant forall j | 0 <= j < i :: !OccursAt(s, c, j)
    {
      if OccursAt(s, c, i) { return true; }
    }
    found := false;
  }

  // ----- from lanes to the model

  /** Lanes filed under their own name, as a run builds them. */
  predicate WellFiled(lanes: Lanes) {
    forall l | l in lanes :: lanes[l].lane == l
  }

  lemma {:induction false} PinnedLaneUntouched(lanes: Lanes, targets: seq<int>, show: Printer)
    requires WellFiled(lanes)
    ensures var after := CompactedThrough(lanes, targets, show);
            WellFiled(after) && after.Keys == lanes.Keys && (L0Policy in lanes ==> after[L0Policy] == lanes[L0Policy])
    decreases |targets|
  {
    if targets != [] {
      PinnedLaneUntouched(lanes, targets[..|targets| - 1], show);
    }
  }

  /** Both sets of lanes render, and no block of the first is larger. */
  ghost predicate NoLarger(a: Lanes, b: Lanes, show: Printer) {
    a.Keys == b.Keys && AllRender(a, show) && AllRender(b, show)
    && forall l | l in a :: EstimateTokens(TextOf(a[l], show)) <= EstimateTokens(TextOf(b[l], show))
  }

  lemma CompactLanesNoLarger(lanes: Lanes, target: int, show: Printer)
    requires AllRender(lanes, show)
    ensures NoLarger(CompactedLanes(lanes, target, show), lanes, show)
  {
    var after := CompactedLanes(lanes, target, show);
    forall l | l in lanes
      ensures Renders(after[l], show) && EstimateTokens(TextOf(after[l], show)) <= EstimateTokens(TextOf(lanes[l], show))
    {
      CompactionNeverGrows(lanes[l], target, show);
      EstimateIsMonotone(TextOf(after[l], show), TextOf(lanes[l], show));
    }
  }

  lemma {:induction false} HistoryNeverGrows(lanes: Lanes, targets: seq<int>, show: Printer)
    requires AllRender(lanes, show)
    ensures NoLarger(CompactedThrough(lanes, targets, show), lanes, show)
    decreases |targets|
  {
    if targets != [] {
      var n := |targets| - 1;
      HistoryNeverGrows(lanes, targets[..n], show);
      CompactLanesNoLarger(CompactedThrough(lanes, targets[..n], show), targets[n], show);
    }
  }

  /** Compaction never turns a prompt that fits into one that does not: lanes that render keep rendering, and pinned
      lanes within the budget stay within it. */
  lemma CompactionNeverBreaksTheBudget(lanes: Lanes, targets: seq<int>, maxTokens: int, show: Printer)
    requires AllRender(lanes, show) && PinnedTokens(BlocksOf(lanes, show)) <= maxTokens
    ensures var after := CompactedThrough(lanes, targets, show);
            AllRender(after, show) && PinnedTokens(BlocksOf(after, show)) <= maxTokens
  {
    HistoryNeverGrows(lanes, targets, show);
  }

  lemma EntryIsInItsBlock(lanes: Lanes, show: Printer, i: nat, c: string)
    requires AllRender(lanes, show) && L0Policy in lanes && lanes[L0Policy].lane == L0Policy
    requires i < |lanes[L0Policy].entries| && lanes[L0Policy].entries[i].text.Some?
    requires Contains(lanes[L0Policy].entries[i].text.value, c)
    ensures Contains(BlocksOf(lanes, show)[L0Policy].text, c)
  {
    var s := lanes[L0Policy];
    assert Lines(s, show)[i] == s.entries[i].text.value;
    JoinContains(Lines(s, show), i, c);
  }

  lemma BlockIsInTheText(rendered: seq<Block>, b: Block, c: string)
    requires b in rendered && Contains(b.text, c)
    ensures Contains(FullText(rendered), c)
  {
    var k :| 0 <= k < |rendered| && rendered[k] == b;
    assert Texts(rendered)[k] == b.text;
    JoinContains(Texts(rendered), k, c);
  }

  /** Pinned content survives the whole pipeline: however often the lanes are compacted, a budget that is met leaves
      every piece of every policy entry in the prompt, within its tokens. */
  lemma PinnedContentSurvives(lanes: Lanes, targets: seq<int>, after: Lanes, maxTokens: int, show: Printer, r: Budgeted, i: nat, c: string)
    requires WellFiled(lanes) && L0Policy in lanes && i < |lanes[L0Policy].entries| && HoldsText(lanes[L0Policy].entries[i], c)
    requires after == CompactedThrough(lanes, targets, show) && AllRender(after, show)
    requires PinnedTokens(BlocksOf(after, show)) <= maxTokens
    requires Chosen(BlocksOf(after, show), maxTokens - PinnedTokens(BlocksOf(after, show)), r)
    ensures Contains(FullText(r.decision.rendered), c) && TokensIn(r.decision.rendered) <= maxTokens
  {
    PinnedLaneUntouched(lanes, targets, show);
    var blocks := BlocksOf(after, show);
    BudgetIsGreedy(blocks, maxTokens, r);
    assert L0Policy in r.decision.included;
    var k :| 0 <= k < |r.decision.included| && r.decision.included[k] == L0Policy;
    assert r.decision.rendered[k] == blocks[L0Policy];
    EntryIsInItsBlock(after, show, i, c);
    BlockIsInTheText(r.decision.rendered, blocks[L0Policy], c);
  }

  /** Some policy entry's text contains c. */
  ghost predicate IsPolicyText(lanes: Lanes, c: string)
    requires L0Policy in lanes
  {
    exists i :: 0 <= i < |lanes[L0Policy].entries| && HoldsText(lanes[L0Policy].entries[i], c)
  }

  ghost predicate HoldsText(e: Entry, c: string) {
    e.text.Some? && Contains(e.text.value, c)
  }
}
