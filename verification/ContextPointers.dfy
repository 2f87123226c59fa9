/** Recall pointers through the context pipeline: which ids the gate finds in a prompt that was compacted. */
module ContextPointers {
  import opened Json
  import opened ContextLanes
  import opened Compaction
  import opened ContextBudget
  import opened RecallPointers

  // ----- joined lines

  predicate AllClosed(parts: seq<string>) {
    forall i | 0 <= i < |parts| :: Closed(parts[i])
  }

  /** No line that leaves a pointer open is followed by one with a closing bracket. */
  predicate NoneClosedLater(parts: seq<string>) {
    forall i, j | 0 <= i < j < |parts| && ']' in parts[j] :: Closed(parts[i])
  }

  ghost predicate FoundIn(parts: seq<string>, id: string) {
    exists i :: 0 <= i < |parts| && id in Ids(parts[i])
  }

  /** The pointers each line finds, line after line. */
  function IdsOfAll(parts: seq<string>): seq<string> {
    if parts == [] then [] else IdsOfAll(parts[..|parts| - 1]) + Ids(parts[|parts| - 1])
  }

  lemma {:induction false} ClosedJoin(parts: seq<string>)
    requires AllClosed(parts)
    ensures Closed(Join(parts))
    decreases |parts|
  {
    if |parts| > 1 {
      var n := |parts| - 1;
      ClosedJoin(parts[..n]);
      ClosedLines(Join(parts[..n]), parts[n]);
    }
  }

  lemma {:induction false} OpenJoin(parts: seq<string>, i: nat)
    requires i < |parts| && !Closed(parts[i]) && forall j | i < j < |parts| :: ']' !in parts[j]
    ensures !Closed(Join(parts))
    decreases |parts|
  {
    var n := |parts| - 1;
    if n > 0 {
      OpenLines(Join(parts[..n]), parts[n]);
      if i < n { OpenJoin(parts[..n], i); }
    }
  }

  /** Whether one more line leaves the lines before it their own pointers. */
  lemma NoneClosedLaterSplits(parts: seq<string>)
    requires |parts| > 1
    ensures var before, last := parts[..|parts| - 1], parts[|parts| - 1];
            NoneClosedLater(parts) <==> NoneClosedLater(before) && (Closed(Join(before)) || ']' !in last)
  {
    var n := |parts| - 1;
    var before, last := parts[..n], parts[n];
    if NoneClosedLater(parts) && ']' in last {
      forall i | 0 <= i < n ensures Closed(before[i]) { assert Closed(parts[i]); }
      ClosedJoin(before);
    }
    if NoneClosedLater(before) && Closed(Join(before)) && ']' in last {
      forall i | 0 <= i < n ensures Closed(before[i]) {
        if !Closed(before[i]) { OpenJoin(before, i); }
      }
    }
  }

  /** Joined lines find exactly their own pointers, each line's after the other's, iff no pointer that one leaves open is
      closed by a later one. */
  lemma {:induction false} JoinFindsItsOwnIff(parts: seq<string>)
    ensures |Ids(Join(parts))| >= |IdsOfAll(parts)|
    ensures Ids(Join(parts)) == IdsOfAll(parts) <==> NoneClosedLater(parts)
    decreases |parts|
  {
    if |parts| == 1 {
      assert parts[..0] == [];
    } else if |parts| > 1 {
      var n := |parts| - 1;
      var before, last := parts[..n], parts[n];
      JoinFindsItsOwnIff(before);
      NoneClosedLaterSplits(parts);
      var text := Join(before);
      LinesFindTheirOwnIff(text, last);
      if !Closed(text) && ']' in last {
        var id, f := SpanningId(text, last);
        AtMostOneBefore(last, f, 0);
        SpanningDiffers(Ids(text), IdsOfAll(before), id, IdsFrom(last, f + 1), Ids(last), f);
      } else {
        SameSuffix(Ids(text), IdsOfAll(before), Ids(last));
      }
    }
  }

  lemma SameSuffix<T>(x: seq<T>, y: seq<T>, z: seq<T>)
    ensures x + z == y + z <==> x == y
  {
    if x + z == y + z {
      assert x == (x + z)[..|x|] && y == (y + z)[..|y|];
    }
  }

  lemma SpanningDiffers(x: seq<string>, y: seq<string>, id: string, rest: seq<string>, own: seq<string>, f: nat)
    requires |x| >= |y| && |id| > f && (own == rest || (|own| == 1 + |rest| && |own[0]| < f))
    ensures |x + [id] + rest| >= |y + own| && x + [id] + rest != y + own
  {
    if |x + [id] + rest| == |y + own| {
      assert (x + [id] + rest)[|x|] == id && (y + own)[|x|] == own[0];
    }
  }

  // ----- compacted lines

  /** A truncated text finds the pointers that were not cut, in order, and no other. */
  lemma TruncateFindsAPrefix(text: string, budget: nat)
    ensures Ids(Truncate(text, budget)) <= Ids(text)
  {
    if |text| > budget {
      var p := TrimEnd(text[..budget]);
      OpenTailAddsNothing(p, p + ELLIPSIS, 0);
      PrefixFindsAPrefix(p, text, 0);
    }
  }

  lemma EntryFindsNothingNew(f: Fidelity, e: Entry, budget: nat, show: Printer, id: string)
    requires f != PinnedExact && f != EvidenceAtomic && RenderEntry(f, e, show).Some?
    ensures RenderEntry(f, CompactEntry(f, e, budget), show).Some?
    ensures id in Ids(RenderEntry(f, CompactEntry(f, e, budget), show).value) ==> id in Ids(RenderEntry(f, e, show).value)
  {
    if e.text.Some? {
      TruncateFindsAPrefix(e.text.value, budget);
    }
  }

  lemma LineFindsNothingNew(s: LaneState, target: int, show: Printer, i: nat, id: string)
    requires Renders(s, show)
    ensures Renders(Compacted(s, target, show), show) && |Compacted(s, target, show).entries| <= |s.entries|
    ensures i < |Compacted(s, target, show).entries| && id in Ids(Lines(Compacted(s, target, show), show)[i]) ==>
              id in Ids(Lines(s, show)[i])
  {
    CompactionNeverGrows(s, target, show);
    var f, c := FidelityOf(s.lane), Compacted(s, target, show);
    if i < |c.entries| {
      assert RenderEntry(f, s.entries[i], show).Some? && RenderEntry(f, c.entries[i], show).Some?;
      if f != EvidenceAtomic && f != PinnedExact {
        EntryFindsNothingNew(f, s.entries[i], PerEntry(target, |s.entries|), show, id);
      }
    }
  }

  // ----- whole prompts

  /** Some line of some lane holds the pointer. */
  ghost predicate Mentioned(lanes: Lanes, show: Printer, id: string)
    requires AllRender(lanes, show)
  {
    exists l :: l in lanes && FoundIn(Lines(lanes[l], show), id)
  }

  /** A lane's lines; an empty lane still takes one. */
  function LineList(s: LaneState, show: Printer): seq<string>
    requires Renders(s, show)
  {
    if s.entries == [] then [""] else Lines(s, show)
  }

  /** The lines of a prompt, in its order of lanes. */
  function PromptLines(lanes: Lanes, show: Printer, included: seq<Lane>): seq<string>
    requires AllRender(lanes, show) && forall l | l in included :: l in lanes
  {
    if included == [] then []
    else PromptLines(lanes, show, included[..|included| - 1]) + LineList(lanes[included[|included| - 1]], show)
  }

  lemma CompactLanesMentionsNothingNew(lanes: Lanes, target: int, show: Printer, id: string)
    requires AllRender(lanes, show)
    ensures AllRender(CompactedLanes(lanes, target, show), show)
    ensures Mentioned(CompactedLanes(lanes, target, show), show, id) ==> Mentioned(lanes, show, id)
  {
    var after := CompactedLanes(lanes, target, show);
    forall l | l in lanes ensures Renders(after[l], show) {
      LineFindsNothingNew(lanes[l], target, show, 0, id);
    }
    if Mentioned(after, show, id) {
      var l :| l in after && FoundIn(Lines(after[l], show), id);
      var i :| 0 <= i < |Lines(after[l], show)| && id in Ids(Lines(after[l], show)[i]);
      LineFindsNothingNew(lanes[l], target, show, i, id);
      assert FoundIn(Lines(lanes[l], show), id);
    }
  }

  lemma HistoryMentionsNothingNew(lanes: Lanes, targets: seq<int>, show: Printer, id: string)
    requires AllRender(lanes, show)
    ensures AllRender(CompactedThrough(lanes, targets, show), show)
    ensures Mentioned(CompactedThrough(lanes, targets, show), show, id) ==> Mentioned(lanes, show, id)
  {
    if targets != [] {
      HistoryIsLeastTarget(lanes, targets, show);
      CompactLanesMentionsNothingNew(lanes, Least(targets), show, id);
    }
  }

  lemma {:induction false} JoinAppends(a: seq<string>, b: seq<string>)
    requires a != [] && b != []
    ensures Join(a + b) == Lined(Join(a), Join(b))
    decreases |b|
  {
    var n := |b| - 1;
    assert (a + b)[..|a| + n] == a + b[..n];
    if n == 0 {
      assert a + b[..n] == a;
    } else {
      JoinAppends(a, b[..n]);
    }
  }

  /** Joining the lanes' texts is joining their lines. */
  lemma {:induction false} PromptIsItsLines(lanes: Lanes, show: Printer, included: seq<Lane>, texts: seq<string>)
    requires AllRender(lanes, show) && |texts| == |included|
    requires forall i | 0 <= i < |included| :: included[i] in lanes && texts[i] == TextOf(lanes[included[i]], show)
    ensures Join(texts) == Join(PromptLines(lanes, show, included))
    ensures included != [] ==> PromptLines(lanes, show, included) != []
    decreases |included|
  {
    if included != [] {
      var n := |included| - 1;
      var before := PromptLines(lanes, show, included[..n]);
      var mine := LineList(lanes[included[n]], show);
      PromptIsItsLines(lanes, show, included[..n], texts[..n]);
      assert n == 0 ==> before == [];
      JoinOneMore(texts, before, mine);
    }
  }

  lemma JoinOneMore(texts: seq<string>, before: seq<string>, mine: seq<string>)
    requires texts != [] && mine != [] && texts[|texts| - 1] == Join(mine)
    requires Join(texts[..|texts| - 1]) == Join(before) && (before == [] <==> |texts| == 1)
    ensures Join(texts) == Join(before + mine)
  {
    if before == [] {
      assert before + mine == mine;
    } else {
      JoinAppends(before, mine);
    }
  }

  lemma {:induction false} PromptLinesMention(lanes: Lanes, show: Printer, included: seq<Lane>, id: string)
    requires AllRender(lanes, show) && forall l | l in included :: l in lanes
    requires id in IdsOfAll(PromptLines(lanes, show, included))
    ensures Mentioned(lanes, show, id)
    decreases |included|
  {
    var n := |included| - 1;
    var before, mine := PromptLines(lanes, show, included[..n]), LineList(lanes[included[n]], show);
    IdsOfAppend(before, mine);
    if id in IdsOfAll(before) {
      PromptLinesMention(lanes, show, included[..n], id);
    } else {
      var i := FoundByLine(mine, id);
      assert lanes[included[n]].entries != [];
      assert FoundIn(Lines(lanes[included[n]], show), id);
    }
  }

  lemma {:induction false} IdsOfAppend(a: seq<string>, b: seq<string>)
    ensures IdsOfAll(a + b) == IdsOfAll(a) + IdsOfAll(b)
    decreases |b|
  {
    if b == [] {
      assert a + b == a;
    } else {
      IdsOfAppend(a, b[..|b| - 1]);
      assert (a + b)[..|a + b| - 1] == a + b[..|b| - 1];
    }
  }

  lemma {:induction false} FoundByLine(parts: seq<string>, id: string) returns (i: nat)
    requires id in IdsOfAll(parts)
    ensures i < |parts| && id in Ids(parts[i])
    decreases |parts|
  {
    var n := |parts| - 1;
    if id in Ids(parts[n]) { i := n; } else { i := FoundByLine(parts[..n], id); }
  }

  /** A prompt finds exactly the pointers of its lines iff no pointer that a line leaves open is closed by a later line of
      the prompt; and those its lanes mention. */
  lemma PromptFindsItsOwnIff(lanes: Lanes, room: int, show: Printer, r: Budgeted)
    requires AllRender(lanes, show) && Chosen(BlocksOf(lanes, show), room, r)
    ensures var lines := PromptLines(lanes, show, r.decision.included);
            (Ids(FullText(r.decision.rendered)) == IdsOfAll(lines) <==> NoneClosedLater(lines))
            && forall id | id in IdsOfAll(lines) :: Mentioned(lanes, show, id)
  {
    var included := r.decision.included;
    var texts := Texts(r.decision.rendered);
    forall i | 0 <= i < |included| ensures included[i] in lanes && texts[i] == TextOf(lanes[included[i]], show) {
      assert included[i] in included;
    }
    PromptIsItsLines(lanes, show, included, texts);
    JoinFindsItsOwnIff(PromptLines(lanes, show, included));
    forall id | id in IdsOfAll(PromptLines(lanes, show, included)) ensures Mentioned(lanes, show, id) {
      PromptLinesMention(lanes, show, included, id);
    }
  }

  /** If every pointer the lanes mentioned resolves, and no line of the compacted prompt closes a pointer that an earlier
      one leaves open, no pointer dangles. */
  lemma NothingDangles(lanes: Lanes, targets: seq<int>, after: Lanes, room: int, known: set<string>, show: Printer, r: Budgeted)
    requires AllRender(lanes, show) && forall x | Mentioned(lanes, show, x) :: x in known
    requires after == CompactedThrough(lanes, targets, show) && AllRender(after, show)
    requires Chosen(BlocksOf(after, show), room, r) && NoneClosedLater(PromptLines(after, show, r.decision.included))
    ensures forall id | id in Ids(FullText(r.decision.rendered)) :: id in known
  {
    PromptFindsItsOwnIff(after, room, show, r);
    forall id | id in Ids(FullText(r.decision.rendered))
      ensures id in known
    {
      HistoryMentionsNothingNew(lanes, targets, show, id);
    }
  }

  lemma PolicyTextSurvives(lanes: Lanes, targets: seq<int>, after: Lanes, maxTokens: int, show: Printer, r: Budgeted, c: string)
    requires WellFiled(lanes) && L0Policy in lanes && IsPolicyText(lanes, c)
    requires after == CompactedThrough(lanes, targets, show) && AllRender(after, show)
    requires PinnedTokens(BlocksOf(after, show)) <= maxTokens
    requires Chosen(BlocksOf(after, show), maxTokens - PinnedTokens(BlocksOf(after, show)), r)
    ensures Contains(FullText(r.decision.rendered), c)
  {
    var i :| 0 <= i < |lanes[L0Policy].entries| && HoldsText(lanes[L0Policy].entries[i], c);
    PinnedContentSurvives(lanes, targets, after, maxTokens, show, r, i, c);
  }

  /** A prompt holds every piece of every policy entry, within its tokens, and no pointer of it dangles. */
  lemma PromptPasses(lanes: Lanes, targets: seq<int>, after: Lanes, maxTokens: int, constraints: seq<string>, known: set<string>,
                     show: Printer, r: Budgeted)
    requires WellFiled(lanes) && L0Policy in lanes && AllRender(lanes, show)
    requires forall c | c in constraints :: IsPolicyText(lanes, c)
    requires forall x | Mentioned(lanes, show, x) :: x in known
    requires after == CompactedThrough(lanes, targets, show) && AllRender(after, show)
    requires PinnedTokens(BlocksOf(after, show)) <= maxTokens
    requires Chosen(BlocksOf(after, show), maxTokens - PinnedTokens(BlocksOf(after, show)), r)
    ensures forall c | c in constraints :: Contains(FullText(r.decision.rendered), c)
    ensures TokensIn(r.decision.rendered) <= maxTokens
    ensures NoneClosedLater(PromptLines(after, show, r.decision.included)) ==>
              forall id | id in Ids(FullText(r.decision.rendered)) :: id in known
  {
    BudgetIsGreedy(BlocksOf(after, show), maxTokens, r);
    forall c | c in constraints
      ensures Contains(FullText(r.decision.rendered), c)
    {
      PolicyTextSurvives(lanes, targets, after, maxTokens, show, r, c);
    }
    if NoneClosedLater(PromptLines(after, show, r.decision.included)) {
      NothingDangles(lanes, targets, after, maxTokens - PinnedTokens(BlocksOf(after, show)), known, show, r);
    }
  }

  /** Lanes that meet the budget meet it after compaction and pass the gate: every required constraint that is a piece of
      a policy entry is there, the tokens are within the limit, and no pointer dangles unless a line of the prompt closes one
      that an earlier line left open. */
  lemma GatePasses(lanes: Lanes, targets: seq<int>, after: Lanes, maxTokens: int, constraints: seq<string>, known: set<string>,
                   show: Printer, r: Budgeted)
    requires WellFiled(lanes) && L0Policy in lanes && AllRender(lanes, show)
    requires PinnedTokens(BlocksOf(lanes, show)) <= maxTokens
    requires forall c | c in constraints :: IsPolicyText(lanes, c)
    requires forall x | Mentioned(lanes, show, x) :: x in known
    requires after == CompactedThrough(lanes, targets, show)
    ensures AllRender(after, show) && PinnedTokens(BlocksOf(after, show)) <= maxTokens
    ensures Chosen(BlocksOf(after, show), maxTokens - PinnedTokens(BlocksOf(after, show)), r) ==>
              (forall c | c in constraints :: Contains(FullText(r.decision.rendered), c))
              && TokensIn(r.decision.rendered) <= maxTokens
              && (NoneClosedLater(PromptLines(after, show, r.decision.included)) ==>
                    forall id | id in Ids(FullText(r.decision.rendered)) :: id in known)
  {
    CompactionNeverBreaksTheBudget(lanes, targets, maxTokens, show);
    if Chosen(BlocksOf(after, show), maxTokens - PinnedTokens(BlocksOf(after, show)), r) {
      PromptPasses(lanes, targets, after, maxTokens, constraints, known, show, r);
    }
  }

  // ----- a pointer cut open

  function CutText(): string {
    seq(40, _ => 'x') + "[recall:abcd] and more"
  }

  function CutLane(): LaneState {
    LaneState(L3Episodic,
              [Entry(Some(CutText()), None, None, None, None, None, None, ""),
               Entry(None, Some("r1"), Some("earlier"), None, None, None, None, "")], true)
  }

  lemma CutTextIsCut()
    ensures Truncate(CutText(), 50) == seq(40, _ => 'x') + "[recall:ab" + ELLIPSIS
    ensures !Closed(Truncate(CutText(), 50))
  {
    var x := seq(40, _ => 'x');
    var cut := x + "[recall:ab";
    assert CutText()[..50] == cut;
    assert cut[49] == 'b' && !IsSpace('b');
    TrimEndUnique(cut, cut);
    var t := cut + ELLIPSIS;
    assert t[40] == '[' && t[41] == 'r' && t[42] == 'e' && t[43] == 'c' && t[44] == 'a' && t[45] == 'l' && t[46] == 'l' && t[47] == ':';
    assert t[48] == 'a' && t[49] == 'b' && t[50] == ELLIPSIS[0];
    assert OpensAt(t, 40);
    var e := CloseFrom(t, 48);
    assert e == |t|;
    assert LeftOpen(t, 40);
  }

  /** A text cut inside a pointer swallows the pointer on the next line: the compacted lane holds an id that neither of
      its lines mentioned. */
  lemma CutPointerDangles(show: Printer) returns (id: string)
    ensures Renders(CutLane(), show) && Renders(Compacted(CutLane(), 0, show), show)
    ensures id in Ids(TextOf(Compacted(CutLane(), 0, show), show)) && '\n' in id
  {
    var first, second := Truncate(CutText(), 50), "[recall:r1] earlier";
    CutLaneLines(show);
    JoinTwo(first, second);
    CutTextIsCut();
    assert second[10] == ']';
    id := OpenLineDangles(first, second);
  }

  lemma JoinTwo(a: string, b: string)
    ensures Join([a, b]) == Lined(a, b)
  {
    assert [a, b][..1] == [a];
  }

  lemma CutLaneLines(show: Printer)
    ensures Renders(CutLane(), show) && Renders(Compacted(CutLane(), 0, show), show)
    ensures Lines(Compacted(CutLane(), 0, show), show) == [Truncate(CutText(), 50), "[recall:r1] earlier"]
  {
    var c := Compacted(CutLane(), 0, show);
    assert PerEntry(0, 2) == 50;
    assert c.entries[0].text == Some(Truncate(CutText(), 50)) && c.entries[1] == CutLane().entries[1];
    assert RenderEntry(Addressable, c.entries[1], show) == Some("[recall:r1] earlier") by {
      assert "[recall:" + "r1" + "] " + "earlier" == "[recall:r1] earlier";
    }
  }
}
