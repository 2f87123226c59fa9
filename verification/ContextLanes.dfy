/** The seven context lanes and how each renders, by the fidelity its identity fixes. */
module ContextLanes {
  import opened Json

  datatype Lane = L0Policy | L1State | L2Evidence | L3Episodic | L4Artifacts | L5Memory | L6Skills

  datatype Fidelity =
    PinnedExact | Structured | EvidenceAtomic | Addressable | CanonicalExternal | RetrievalOnDemand | ProgressiveDisclosure

  function FidelityOf(lane: Lane): Fidelity {
    match lane
    case L0Policy => PinnedExact
    case L1State => Structured
    case L2Evidence => EvidenceAtomic
    case L3Episodic => Addressable
    case L4Artifacts => CanonicalExternal
    case L5Memory => RetrievalOnDemand
    case L6Skills => ProgressiveDisclosure
  }

  /** A lane entry by the keys the renderers look at, each possibly absent; `rest` is everything else in it. */
  datatype Entry = Entry(text: Option<string>, recallId: Option<string>, summary: Option<string>,
                         claimId: Option<string>, claim: Option<string>, sourceId: Option<string>, locator: Option<string>, rest: string)

  datatype LaneState = LaneState(lane: Lane, entries: seq<Entry>, cacheStable: bool)

  datatype Block = Block(lane: Lane, fidelity: Fidelity, text: string, tokens: nat)

  /** A lane that violates its fidelity, and its first entry that does. */
  datatype Violation = Violation(lane: Lane, at: nat)

  /** The printed form of an entry as a dictionary. */
  type Printer = Entry -> string

  // ----- text

  function Join(parts: seq<string>): string {
    if parts == [] then ""
    else if |parts| == 1 then parts[0]
    else Join(parts[..|parts| - 1]) + "\n" + parts[|parts| - 1]
  }

  /** c occurs in s. */
  ghost predicate Contains(s: string, c: string) {
    exists i :: 0 <= i <= |s| && OccursAt(s, c, i)
  }

  predicate OccursAt(s: string, c: string, i: nat) {
    i + |c| <= |s| && s[i..i + |c|] == c
  }

  lemma ContainsInside(a: string, b: string, d: string, c: string)
    requires Contains(b, c)
    ensures Contains(a + b + d, c)
  {
    var i :| 0 <= i <= |b| && OccursAt(b, c, i);
    var s := a + b + d;
    assert s[|a| + i..|a| + i + |c|] == b[i..i + |c|];
    assert OccursAt(s, c, |a| + i);
  }

  lemma {:induction false} JoinContains(parts: seq<string>, k: nat, c: string)
    requires k < |parts| && Contains(parts[k], c)
    ensures Contains(Join(parts), c)
    decreases |parts|
  {
    var n := |parts| - 1;
    if n > 0 {
      var before := Join(parts[..n]);
      if k == n {
        ContainsInside(before + "\n", parts[n], "", c);
        assert before + "\n" + parts[n] + "" == Join(parts);
      } else {
        JoinContains(parts[..n], k, c);
        ContainsInside("", before, "\n" + parts[n], c);
        assert "" + before + ("\n" + parts[n]) == Join(parts);
      }
    }
  }

  /** A quarter of the characters, but nothing only for nothing. */
  function EstimateTokens(text: string): nat {
    if text == "" then 0 else if |text| / 4 > 1 then |text| / 4 else 1
  }

  lemma EstimateIsMonotone(a: string, b: string)
    requires |a| <= |b|
    ensures EstimateTokens(a) <= EstimateTokens(b)
  {
  }

  // ----- one lane

  /** An entry's line, or None where its lane's fidelity is violated. */
  function RenderEntry(fidelity: Fidelity, e: Entry, show: Printer): Option<string> {
    match fidelity
    case PinnedExact => e.text
    case EvidenceAtomic =>
      if e.claimId.Some? && e.claim.Some? && e.sourceId.Some?
      then Some("[" + e.claimId.value + "] " + e.claim.value
                + " (source=" + e.sourceId.value + " locator=" + e.locator.GetOr("{}") + ")")
      else None
    case Addressable =>
      if e.recallId.Some? then Some("[recall:" + e.recallId.value + "] " + e.summary.GetOr("")) else e.text
    case _ => Some(e.text.GetOr(show(e)))
  }

  predicate Renders(s: LaneState, show: Printer) {
    forall i | 0 <= i < |s.entries| :: RenderEntry(FidelityOf(s.lane), s.entries[i], show).Some?
  }

  function Lines(s: LaneState, show: Printer): seq<string>
    requires Renders(s, show)
  {
    seq(|s.entries|, i requires 0 <= i < |s.entries| => RenderEntry(FidelityOf(s.lane), s.entries[i], show).value)
  }

  function TextOf(s: LaneState, show: Printer): string
    requires Renders(s, show)
  {
    Join(Lines(s, show))
  }

  method Render(s: LaneState, show: Printer) returns (text: Option<string>, at: nat)
    ensures text.Some? <==> Renders(s, show)
    ensures text.Some? ==> text.value == TextOf(s, show)
    ensures text.None? ==>
              at < |s.entries| && RenderEntry(FidelityOf(s.lane), s.entries[at], show).None?
              && forall i | 0 <= i < at :: RenderEntry(FidelityOf(s.lane), s.entries[i], show).Some?
  {
    var parts: seq<string> := [];
    at := 0;
    while at < |s.entries|
      invariant 0 <= at <= |s.entries| && |parts| == at
      invariant forall i | 0 <= i < at :: RenderEntry(FidelityOf(s.lane), s.entries[i], show) == Some(parts[i])
    {
      var line := RenderEntry(FidelityOf(s.lane), s.entries[at], show);
      if line.None? { return None, at; }
      parts := parts + [line.value];
      at := at + 1;
    }
    assert parts == Lines(s, show);
    text := Some(Join(parts));
  }

  // ----- all lanes

  const LANES: seq<Lane> := [L0Policy, L1State, L2Evidence, L3Episodic, L4Artifacts, L5Memory, L6Skills]

  type Lanes = map<Lane, LaneState>

  predicate AllRender(lanes: Lanes, show: Printer) {
    forall l | l in lanes :: Renders(lanes[l], show)
  }

  function BlockOf(l: Lane, s: LaneState, show: Printer): Block
    requires Renders(s, show)
  {
    Block(l, FidelityOf(s.lane), TextOf(s, show), EstimateTokens(TextOf(s, show)))
  }

  function BlocksOf(lanes: Lanes, show: Printer): map<Lane, Block>
    requires AllRender(lanes, show)
  {
    map l | l in lanes :: BlockOf(l, lanes[l], show)
  }

  /** The blocks there are, in a given order of lanes. */
  function InOrder(blocks: map<Lane, Block>, order: seq<Lane>): seq<Block> {
    if order == [] then []
    else InOrder(blocks, order[..|order| - 1])
         + if order[|order| - 1] in blocks then [blocks[order[|order| - 1]]] else []
  }

  function Texts(blocks: seq<Block>): seq<string> {
    seq(|blocks|, i requires 0 <= i < |blocks| => blocks[i].text)
  }

  function FullText(blocks: seq<Block>): string {
    Join(Texts(blocks))
  }

  function TokensIn(blocks: seq<Block>): nat {
    if blocks == [] then 0 else TokensIn(blocks[..|blocks| - 1]) + blocks[|blocks| - 1].tokens
  }

  /** Renders every present lane in the fixed order of lanes, or reports the first violation in that order. */
  method Assemble(lanes: Lanes, show: Printer) returns (blocks: seq<Block>, problem: Option<Violation>)
    ensures problem.None? <==> AllRender(lanes, show)
    ensures problem.None? ==> blocks == InOrder(BlocksOf(lanes, show), LANES)
    ensures problem.Some? ==> problem.value.lane in lanes && !Renders(lanes[problem.value.lane], show)
  {
    blocks := [];
    problem := None;
    for k := 0 to |LANES|
      invariant problem.None?
      invariant forall j | 0 <= j < k && LANES[j] in lanes :: Renders(lanes[LANES[j]], show)
      invariant AllRender(lanes, show) ==> blocks == InOrder(BlocksOf(lanes, show), LANES[..k])
    {
      var l := LANES[k];
      InOrderOneMore(LANES, k);
      if l in lanes {
        var text, at := Render(lanes[l], show);
        if text.None? { return [], Some(Violation(l, at)); }
        blocks := blocks + [Block(l, FidelityOf(lanes[l].lane), text.value, EstimateTokens(text.value))];
      }
    }
    assert LANES[..|LANES|] == LANES;
    EveryLaneListed();
    forall l | l in lanes ensures Renders(lanes[l], show) {
      assert l in LANES;
    }
  }

  lemma InOrderOneMore(order: seq<Lane>, k: nat)
    requires k < |order|
    ensures forall blocks :: InOrder(blocks, order[..k + 1]) ==
                             InOrder(blocks, order[..k]) + if order[k] in blocks then [blocks[order[k]]] else []
  {
    assert order[..k + 1][..k] == order[..k];
  }

  lemma EveryLaneListed()
    ensures forall l: Lane {:trigger l in LANES} :: l in LANES
  {
    forall l: Lane ensures l in LANES {
      match l
      case L0Policy => assert LANES[0] == l;
      case L1State => assert LANES[1] == l;
      case L2Evidence => assert LANES[2] == l;
      case L3Episodic => assert LANES[3] == l;
      case L4Artifacts => assert LANES[4] == l;
      case L5Memory => assert LANES[5] == l;
      case L6Skills => assert LANES[6] == l;
    }
  }

  lemma {:induction false} InOrderHas(blocks: map<Lane, Block>, order: seq<Lane>, l: Lane)
    requires l in blocks && l in order
    ensures blocks[l] in InOrder(blocks, order)
    decreases |order|
  {
    var n := |order| - 1;
    if order[n] != l {
      assert l in order[..n];
      InOrderHas(blocks, order[..n], l);
    }
  }

  lemma {:induction false} InOrderOnly(blocks: map<Lane, Block>, order: seq<Lane>, b: Block)
    requires b in InOrder(blocks, order)
    ensures exists l :: l in order && l in blocks && blocks[l] == b
    decreases |order|
  {
    if order != [] {
      var n := |order| - 1;
      if b in InOrder(blocks, order[..n]) {
        InOrderOnly(blocks, order[..n], b);
        var l :| l in order[..n] && l in blocks && blocks[l] == b;
        assert l in order;
      } else {
        assert order[n] in order && blocks[order[n]] == b;
      }
    }
  }

  // ----- what a prompt shows of its entries

  /** A quarter of the characters, rounded down, and one token for the shortest texts. */
  lemma EstimateTells(text: string)
    ensures EstimateTokens(text) == 0 <==> |text| == 0
    ensures 0 < |text| < 4 ==> EstimateTokens(text) == 1
    ensures |text| >= 4 ==> |text| - 3 <= 4 * EstimateTokens(text) <= |text|
  {
  }

  /** The line an entry must leave in a prompt, by its lane: a policy its text, a claim its id, wording, source and
      locator, an episode its recall pointer and summary or else its text, and any other its text or printed form. */
  predicate LineOf(l: Lane, e: Entry, show: Printer, line: string) {
    match l
    case L0Policy => e.text == Some(line)
    case L2Evidence =>
      e.claimId.Some? && e.claim.Some? && e.sourceId.Some?
      && var where := if e.locator.Some? then e.locator.value else "{}";
         line == "[" + e.claimId.value + "] " + e.claim.value + " (source=" + e.sourceId.value + " locator=" + where + ")"
    case L3Episodic =>
      (e.recallId.Some? && e.summary.Some? ==> line == "[recall:" + e.recallId.value + "] " + e.summary.value)
      && (e.recallId.Some? && e.summary.None? ==> line == "[recall:" + e.recallId.value + "] ")
      && (e.recallId.None? ==> e.text == Some(line))
    case _ => (e.text.Some? ==> line == e.text.value) && (e.text.None? ==> line == show(e))
  }

  ghost predicate HasLine(l: Lane, e: Entry, show: Printer) {
    exists line :: LineOf(l, e, show, line)
  }

  /** A lane renders exactly when each of its entries has such a line; the lines are then its text, in order. */
  lemma RenderTells(s: LaneState, show: Printer)
    ensures Renders(s, show) <==> forall i | 0 <= i < |s.entries| :: HasLine(s.lane, s.entries[i], show)
    ensures Renders(s, show) ==>
              |Lines(s, show)| == |s.entries|
              && forall i | 0 <= i < |s.entries| :: LineOf(s.lane, s.entries[i], show, Lines(s, show)[i])
  {
    forall i | 0 <= i < |s.entries|
      ensures RenderEntry(FidelityOf(s.lane), s.entries[i], show).Some? <==> HasLine(s.lane, s.entries[i], show)
      ensures RenderEntry(FidelityOf(s.lane), s.entries[i], show).Some? ==>
                LineOf(s.lane, s.entries[i], show, RenderEntry(FidelityOf(s.lane), s.entries[i], show).value)
    {
      EntryTells(s.lane, s.entries[i], show);
    }
  }

  lemma EntryTells(l: Lane, e: Entry, show: Printer)
    ensures RenderEntry(FidelityOf(l), e, show).Some? <==> HasLine(l, e, show)
    ensures RenderEntry(FidelityOf(l), e, show).Some? ==> LineOf(l, e, show, RenderEntry(FidelityOf(l), e, show).value)
  {
    if RenderEntry(FidelityOf(l), e, show).Some? {
      var line := RenderEntry(FidelityOf(l), e, show).value;
      assert LineOf(l, e, show, line);
    }
  }

  lemma ContainsItself(s: string)
    ensures Contains(s, s)
  {
    assert OccursAt(s, s, 0);
  }

  /** Every entry of every lane given is in the assembled prompt, as its line. */
  lemma EveryEntryIsInThePrompt(lanes: Lanes, show: Printer, l: Lane, i: nat) returns (line: string)
    requires AllRender(lanes, show) && l in lanes && lanes[l].lane == l && i < |lanes[l].entries|
    ensures LineOf(l, lanes[l].entries[i], show, line)
    ensures Contains(FullText(InOrder(BlocksOf(lanes, show), LANES)), line)
  {
    RenderTells(lanes[l], show);
    line := Lines(lanes[l], show)[i];
    ContainsItself(line);
    JoinContains(Lines(lanes[l], show), i, line);
    EveryLaneListed();
    var blocks := InOrder(BlocksOf(lanes, show), LANES);
    InOrderHas(BlocksOf(lanes, show), LANES, l);
    var k :| 0 <= k < |blocks| && blocks[k] == BlocksOf(lanes, show)[l];
    JoinContains(Texts(blocks), k, line);
  }

  /** A lane's number in its name. */
  function Number(l: Lane): nat {
    match l
    case L0Policy => 0
    case L1State => 1
    case L2Evidence => 2
    case L3Episodic => 3
    case L4Artifacts => 4
    case L5Memory => 5
    case L6Skills => 6
  }

  lemma {:induction false} FirstLanesInOrder(blocks: map<Lane, Block>, k: nat)
    requires k <= |LANES| && forall l | l in blocks :: blocks[l].lane == l
    ensures var shown := InOrder(blocks, LANES[..k]);
            (forall i | 0 <= i < |shown| :: Number(shown[i].lane) < k)
            && forall i, j | 0 <= i < j < |shown| :: Number(shown[i].lane) < Number(shown[j].lane)
    decreases k
  {
    if k > 0 {
      FirstLanesInOrder(blocks, k - 1);
      InOrderOneMore(LANES, k - 1);
      var last := LANES[k - 1];
      assert Number(last) == k - 1;
      assert InOrder(blocks, LANES[..k]) ==
             InOrder(blocks, LANES[..k - 1]) + if last in blocks then [blocks[last]] else [];
    }
  }

  /** The blocks of a prompt stand in the order of their lanes' numbers, one per lane given. */
  lemma BlocksAreInLaneOrder(lanes: Lanes, show: Printer)
    requires AllRender(lanes, show)
    ensures var blocks := InOrder(BlocksOf(lanes, show), LANES);
            (forall i, j | 0 <= i < j < |blocks| :: Number(blocks[i].lane) < Number(blocks[j].lane))
            && (forall i | 0 <= i < |blocks| :: blocks[i].lane in lanes)
            && (forall l | l in lanes :: exists i :: 0 <= i < |blocks| && blocks[i].lane == l)
  {
    var byLane := BlocksOf(lanes, show);
    var blocks := InOrder(byLane, LANES);
    FirstLanesInOrder(byLane, |LANES|);
    assert LANES[..|LANES|] == LANES;
    EveryLaneListed();
    forall i | 0 <= i < |blocks| ensures blocks[i].lane in lanes { InOrderOnly(byLane, LANES, blocks[i]); }
    forall l | l in lanes ensures exists i :: 0 <= i < |blocks| && blocks[i].lane == l {
      InOrderHas(byLane, LANES, l);
      var i :| 0 <= i < |blocks| && blocks[i] == byLane[l];
    }
  }
}
