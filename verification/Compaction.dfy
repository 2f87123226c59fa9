/** Shrinking a lane in the only way its fidelity allows: never, by whole claims, or entry by entry. */
module Compaction {
  import opened Json
  import opened ContextLanes

  const ELLIPSIS := "\U{2026}"

  /** White space as Python's rstrip removes it. */
  predicate IsSpace(c: char) {
    c in "\t\n\U{000B}\U{000C}\r \U{0085}\U{00A0}\U{1680}\U{2028}\U{2029}\U{202F}\U{205F}\U{3000}"
    || '\U{001C}' <= c <= '\U{001F}' || '\U{2000}' <= c <= '\U{200A}'
  }

  function TrimEnd(s: string): (t: string)
    ensures t <= s && (t != [] ==> !IsSpace(t[|t| - 1])) && forall i | |t| <= i < |s| :: IsSpace(s[i])
  {
    if s != [] && IsSpace(s[|s| - 1]) then TrimEnd(s[..|s| - 1]) else s
  }

  /** A trimmed prefix is fixed by where its trailing space begins. */
  lemma TrimEndUnique(s: string, t: string)
    requires t <= s && (t != [] ==> !IsSpace(t[|t| - 1])) && forall i | |t| <= i < |s| :: IsSpace(s[i])
    ensures TrimEnd(s) == t
  {
    var u := TrimEnd(s);
    assert t == [] || !IsSpace(s[|t| - 1]);
    assert u == [] || !IsSpace(s[|u| - 1]);
  }

  // ----- one text

  /** Cut to a budget, with an ellipsis where something was cut. */
  function Truncate(text: string, budget: nat): string {
    if |text| > budget then TrimEnd(text[..budget]) + ELLIPSIS else text
  }

  lemma TruncateNeverGrows(text: string, budget: nat)
    ensures |Truncate(text, budget)| <= |text|
    ensures |Truncate(text, budget)| <= budget + 1
  {
  }

  /** Truncating twice is truncating once, to the smaller budget, in whichever order and although a cut text may be one
      character over its budget. */
  lemma TruncateTwice(text: string, a: nat, b: nat)
    ensures Truncate(Truncate(text, a), b) == Truncate(text, if a <= b then a else b)
  {
    if |text| > a {
      var p := TrimEnd(text[..a]);
      var once := p + ELLIPSIS;
      assert |once| == |p| + 1;
      if b < a && |p| >= b {
        assert once[..b] == p[..b] == text[..b];
      } else if b < a {
        TrimEndUnique(text[..b], p);
      } else if |once| > b {
        assert once[..b] == p;
        TrimEndUnique(p, p);
      }
    }
  }

  // ----- one lane

  /** Python's floor division by a positive count, with a floor of fifty characters. */
  function PerEntry(target: int, entries: nat): nat {
    var share := target / (if entries > 1 then entries else 1);
    if share > 50 then share else 50
  }

  /** A cut text is its longest beginning within the budget that ends in no white space, and an ellipsis. */
  lemma TruncateTells(text: string, budget: nat) returns (kept: nat)
    ensures |text| <= budget ==> Truncate(text, budget) == text
    ensures |text| > budget ==>
              kept <= budget && Truncate(text, budget) == text[..kept] + ['\U{2026}']
              && (kept > 0 ==> !IsSpace(text[kept - 1])) && forall i | kept <= i < budget :: IsSpace(text[i])
  {
    kept := 0;
    if |text| > budget {
      kept := |TrimEnd(text[..budget])|;
      assert text[..budget][..kept] == text[..kept];
      assert forall i | kept <= i < budget :: text[..budget][i] == text[i];
    }
  }

  /** The code points Python's rstrip removes. */
  lemma SpaceCodes(c: char)
    ensures IsSpace(c) <==>
              var n := c as int;
              9 <= n <= 13 || 0x1C <= n <= 0x20 || n in [0x85, 0xA0, 0x1680, 0x2028, 0x2029, 0x202F, 0x205F, 0x3000]
              || 0x2000 <= n <= 0x200A
  {
  }

  /** An equal share of the target, rounded down, and never less than fifty. */
  lemma PerEntryTells(target: int, entries: nat)
    requires entries > 0
    ensures PerEntry(target, entries) >= 50
    ensures PerEntry(target, entries) > 50 ==>
              entries * PerEntry(target, entries) <= target < entries * (PerEntry(target, entries) + 1)
    ensures target >= 50 * entries ==> entries * PerEntry(target, entries) <= target < entries * (PerEntry(target, entries) + 1)
  {
    var share := target / entries;
    assert entries * share <= target < entries * share + entries;
    assert entries * (share + 1) == entries * share + entries;
    if share < 50 && target >= 50 * entries {
      MulIsMonotone(entries, share + 1, 50);
    }
  }

  lemma PerEntryOfLesser(a: int, b: int, entries: nat)
    ensures PerEntry(if a <= b then a else b, entries) ==
            if PerEntry(a, entries) <= PerEntry(b, entries) then PerEntry(a, entries) else PerEntry(b, entries)
  {
    if a <= b { DivIsMonotone(a, b, if entries > 1 then entries else 1); }
    else { DivIsMonotone(b, a, if entries > 1 then entries else 1); }
  }

  lemma DivIsMonotone(a: int, b: int, d: int)
    requires a <= b && d > 0
    ensures a / d <= b / d
  {
    var q, r := a / d, b / d;
    assert d * q <= a && b < d * (r + 1);
    if r + 1 <= q {
      MulIsMonotone(d, r + 1, q);
    }
  }

  lemma MulIsMonotone(d: int, x: int, y: int)
    requires d > 0 && x <= y
    ensures d * x <= d * y
  {
  }

  function Shortened(e: Entry, budget: nat): Entry {
    match e.text
    case None => e
    case Some(text) => e.(text := Some(Truncate(text, budget)))
  }

  function CompactEntry(fidelity: Fidelity, e: Entry, budget: nat): Entry {
    if fidelity == Addressable && e.recallId.Some? then e else Shortened(e, budget)
  }

  function PrintedLength(entries: seq<Entry>, show: Printer): nat {
    if entries == [] then 0 else PrintedLength(entries[..|entries| - 1], show) + |show(entries[|entries| - 1])|
  }

  /** Whole entries dropped from the end until the rest fits or only one is left. */
  function DropFromEnd(entries: seq<Entry>, target: int, show: Printer): (kept: seq<Entry>)
    ensures kept <= entries
    ensures |kept| <= 1 || PrintedLength(kept, show) <= target
    ensures |kept| < |entries| ==> |kept| >= 1 && PrintedLength(entries[..|kept| + 1], show) > target
    decreases |entries|
  {
    if |entries| > 1 && PrintedLength(entries, show) > target then
      assert entries[..|entries|] == entries;
      var kept := DropFromEnd(entries[..|entries| - 1], target, show);
      assert |kept| < |entries| - 1 ==> entries[..|entries| - 1][..|kept| + 1] == entries[..|kept| + 1];
      kept
    else entries
  }

  function CompactEntries(fidelity: Fidelity, entries: seq<Entry>, target: int, show: Printer): seq<Entry> {
    match fidelity
    case PinnedExact => entries
    case EvidenceAtomic => DropFromEnd(entries, target, show)
    case _ =>
      seq(|entries|, i requires 0 <= i < |entries| => CompactEntry(fidelity, entries[i], PerEntry(target, |entries|)))
  }

  function Compacted(s: LaneState, target: int, show: Printer): LaneState {
    LaneState(s.lane, CompactEntries(FidelityOf(s.lane), s.entries, target, show), s.cacheStable)
  }

  method CompactLane(s: LaneState, target: int, show: Printer) returns (r: LaneState)
    ensures r == Compacted(s, target, show)
  {
    match FidelityOf(s.lane)
    case PinnedExact => r := s;
    case EvidenceAtomic => r := CompactEvidenceAtomic(s, target, show);
    case _ => r := CompactTexts(s, target);
  }

  method CompactEvidenceAtomic(s: LaneState, target: int, show: Printer) returns (r: LaneState)
    ensures r == LaneState(s.lane, DropFromEnd(s.entries, target, show), s.cacheStable)
  {
    var entries, total := s.entries, 0;
    for i := 0 to |entries|
      invariant total == PrintedLength(entries[..i], show)
    {
      assert entries[..i + 1][..i] == entries[..i];
      total := total + |show(entries[i])|;
    }
    assert entries[..|entries|] == entries;
    while total > target && |entries| > 1
      invariant total == PrintedLength(entries, show)
      invariant DropFromEnd(entries, target, show) == DropFromEnd(s.entries, target, show)
    {
      var dropped := entries[|entries| - 1];
      entries := entries[..|entries| - 1];
      total := total - |show(dropped)|;
    }
    r := LaneState(s.lane, entries, s.cacheStable);
  }

  /** The addressable and the generic compactor: they differ in leaving a recall pointer alone. */
  method CompactTexts(s: LaneState, target: int) returns (r: LaneState)
    ensures r.lane == s.lane && r.cacheStable == s.cacheStable && |r.entries| == |s.entries|
    ensures forall i | 0 <= i < |s.entries| ::
              r.entries[i] == CompactEntry(FidelityOf(s.lane), s.entries[i], PerEntry(target, |s.entries|))
  {
    var budget := PerEntry(target, |s.entries|);
    var entries: seq<Entry> := [];
    for i := 0 to |s.entries|
      invariant |entries| == i
      invariant forall j | 0 <= j < i :: entries[j] == CompactEntry(FidelityOf(s.lane), s.entries[j], budget)
    {
      var e := s.entries[i];
      if !(FidelityOf(s.lane) == Addressable && e.recallId.Some?) && e.text.Some? && |e.text.value| > budget {
        e := e.(text := Some(TrimEnd(e.text.value[..budget]) + ELLIPSIS));
      }
      entries := entries + [e];
    }
    r := LaneState(s.lane, entries, s.cacheStable);
  }

  // ----- compacting again

  lemma CompactEntryTwice(fidelity: Fidelity, e: Entry, a: nat, b: nat)
    ensures CompactEntry(fidelity, CompactEntry(fidelity, e, a), b) == CompactEntry(fidelity, e, if a <= b then a else b)
  {
    if e.text.Some? {
      TruncateTwice(e.text.value, a, b);
    }
  }

  /** The printed length of a list of entries is the sum of theirs. */
  lemma {:induction false} PrintedLengthIsSum(a: seq<Entry>, b: seq<Entry>, e: Entry, show: Printer)
    ensures PrintedLength(a + b, show) == PrintedLength(a, show) + PrintedLength(b, show)
    ensures PrintedLength([e], show) == |show(e)| && PrintedLength([], show) == 0
    decreases |b|
  {
    assert [e][..0] == [];
    if b == [] {
      assert a + b == a;
    } else {
      var n := |b| - 1;
      PrintedLengthIsSum(a, b[..n], e, show);
      assert (a + b)[..|a + b| - 1] == a + b[..n] && (a + b)[|a + b| - 1] == b[n];
    }
  }

  lemma {:induction false} LongerPrintsLonger(entries: seq<Entry>, i: nat, j: nat, show: Printer)
    requires i <= j <= |entries|
    ensures PrintedLength(entries[..i], show) <= PrintedLength(entries[..j], show)
    decreases j
  {
    if i < j {
      LongerPrintsLonger(entries, i, j - 1, show);
      assert entries[..j][..j - 1] == entries[..j - 1];
    }
  }

  /** The first n entries are the longest prefix that fits, or one entry that does not. */
  predicate IsCut(entries: seq<Entry>, n: nat, target: int, show: Printer) {
    n <= |entries| && (n <= 1 || PrintedLength(entries[..n], show) <= target)
    && (n < |entries| ==> n >= 1 && PrintedLength(entries[..n + 1], show) > target)
  }

  lemma CutUnique(entries: seq<Entry>, n: nat, d: nat, target: int, show: Printer)
    requires IsCut(entries, n, target, show) && IsCut(entries, d, target, show)
    ensures n == d
  {
    if n < d {
      LongerPrintsLonger(entries, n + 1, d, show);
    } else if d < n {
      LongerPrintsLonger(entries, d + 1, n, show);
    }
  }

  lemma DropIsCut(entries: seq<Entry>, target: int, show: Printer) returns (n: nat)
    ensures IsCut(entries, n, target, show) && DropFromEnd(entries, target, show) == entries[..n]
  {
    n := |DropFromEnd(entries, target, show)|;
    assert entries[..n] == DropFromEnd(entries, target, show);
  }

  lemma DropTwice(entries: seq<Entry>, a: int, b: int, show: Printer)
    ensures DropFromEnd(DropFromEnd(entries, a, show), b, show) == DropFromEnd(entries, if a <= b then a else b, show)
  {
    var n := DropIsCut(entries, a, show);
    var k := DropIsCut(entries[..n], b, show);
    var d := DropIsCut(entries, if a <= b then a else b, show);
    CutOfCut(entries, n, k, a, b, show);
    CutUnique(entries, k, d, if a <= b then a else b, show);
    TakeTwice(entries, n, k);
  }

  lemma TakeTwice<T>(s: seq<T>, n: nat, k: nat)
    requires k <= n <= |s|
    ensures s[..n][..k] == s[..k]
  {
  }

  lemma CutOfCut(entries: seq<Entry>, n: nat, k: nat, a: int, b: int, show: Printer)
    requires IsCut(entries, n, a, show) && IsCut(entries[..n], k, b, show)
    ensures IsCut(entries, k, if a <= b then a else b, show)
  {
    assert entries[..n][..k] == entries[..k];
    LongerPrintsLonger(entries, k, n, show);
    if k < n {
      assert entries[..n][..k + 1] == entries[..k + 1];
    }
  }

  /** What compacting leaves of an entry outside the claims lane: all of it in the policy lane, behind a recall pointer
      or without a text, and otherwise everything but the end of its text. */
  lemma CompactedEntryTells(s: LaneState, target: int, show: Printer, i: nat)
    requires !s.lane.L2Evidence? && i < |s.entries|
    ensures |Compacted(s, target, show).entries| == |s.entries|
    ensures var e, e' := s.entries[i], Compacted(s, target, show).entries[i];
            (s.lane.L0Policy? || (s.lane.L3Episodic? && e.recallId.Some?) || e.text.None? ==> e' == e)
            && (!s.lane.L0Policy? && !(s.lane.L3Episodic? && e.recallId.Some?) && e.text.Some? ==>
                  e' == e.(text := Some(Truncate(e.text.value, PerEntry(target, |s.entries|)))))
  {
  }

  /** What it leaves of the claims: the longest beginning of them that prints within the target, or the first one. */
  lemma CompactedClaimsTell(s: LaneState, target: int, show: Printer) returns (n: nat)
    requires s.lane.L2Evidence?
    ensures n <= |s.entries| && Compacted(s, target, show).entries == s.entries[..n]
    ensures n == |s.entries| || n >= 1
    ensures n <= 1 || PrintedLength(s.entries[..n], show) <= target
    ensures forall m | n < m <= |s.entries| :: PrintedLength(s.entries[..m], show) > target
  {
    n := DropIsCut(s.entries, target, show);
    forall m | n < m <= |s.entries| ensures PrintedLength(s.entries[..m], show) > target {
      LongerPrintsLonger(s.entries, n + 1, m, show);
    }
  }

  /** Compacting a lane twice is compacting it once, to the smaller target: so repeating a target changes nothing, and
      the order of targets does not matter. */
  lemma CompactTwice(s: LaneState, a: int, b: int, show: Printer)
    ensures Compacted(Compacted(s, a, show), b, show) == Compacted(s, if a <= b then a else b, show)
  {
    var f := FidelityOf(s.lane);
    if f == EvidenceAtomic {
      DropTwice(s.entries, a, b, show);
    } else if f != PinnedExact {
      var n := |s.entries|;
      PerEntryOfLesser(a, b, n);
      forall i | 0 <= i < n
        ensures CompactEntries(f, CompactEntries(f, s.entries, a, show), b, show)[i] ==
                CompactEntries(f, s.entries, if a <= b then a else b, show)[i]
      {
        CompactEntryTwice(f, s.entries[i], PerEntry(a, n), PerEntry(b, n));
      }
      assert CompactEntries(f, CompactEntries(f, s.entries, a, show), b, show) ==
             CompactEntries(f, s.entries, if a <= b then a else b, show);
    }
  }

  // ----- all lanes

  function CompactedLanes(lanes: Lanes, target: int, show: Printer): Lanes {
    map l | l in lanes :: Compacted(lanes[l], target, show)
  }

  method CompactLanes(lanes: Lanes, target: int, show: Printer) returns (compacted: Lanes)
    ensures compacted == CompactedLanes(lanes, target, show)
  {
    compacted := map[];
    var left := lanes.Keys;
    while left != {}
      invariant left <= lanes.Keys && compacted.Keys == lanes.Keys - left
      invariant forall l | l in compacted :: compacted[l] == Compacted(lanes[l], target, show)
      decreases |left|
    {
      var l :| l in left;
      var s := CompactLane(lanes[l], target, show);
      compacted := compacted[l := s];
      left := left - {l};
    }
  }

  /** Any number of compactions, one target after another. */
  function CompactedThrough(lanes: Lanes, targets: seq<int>, show: Printer): Lanes {
    if targets == [] then lanes
    else CompactedLanes(CompactedThrough(lanes, targets[..|targets| - 1], show), targets[|targets| - 1], show)
  }

  function Least(targets: seq<int>): int
    requires targets != []
  {
    if |targets| == 1 then targets[0]
    else
      var before, last := Least(targets[..|targets| - 1]), targets[|targets| - 1];
      if before <= last then before else last
  }

  /** A whole history of compactions comes to one, to its least target. */
  lemma {:induction false} HistoryIsLeastTarget(lanes: Lanes, targets: seq<int>, show: Printer)
    requires targets != []
    ensures CompactedThrough(lanes, targets, show) == CompactedLanes(lanes, Least(targets), show)
    decreases |targets|
  {
    var n := |targets| - 1;
    if n == 0 {
      assert targets[..0] == [];
      assert CompactedThrough(lanes, targets[..0], show) == lanes;
    } else {
      HistoryIsLeastTarget(lanes, targets[..n], show);
      CompactLanesTwice(lanes, Least(targets[..n]), targets[n], show);
    }
  }

  lemma CompactLanesTwice(lanes: Lanes, a: int, b: int, show: Printer)
    ensures CompactedLanes(CompactedLanes(lanes, a, show), b, show) == CompactedLanes(lanes, if a <= b then a else b, show)
  {
    forall l | l in lanes
      ensures CompactedLanes(CompactedLanes(lanes, a, show), b, show)[l] ==
              CompactedLanes(lanes, if a <= b then a else b, show)[l]
    {
      CompactTwice(lanes[l], a, b, show);
    }
  }

  // ----- what compaction cannot do

  /** A pinned lane comes back as it was, and a surviving claim unedited. */
  lemma CompactionIsFaithful(s: LaneState, target: int, show: Printer)
    ensures FidelityOf(s.lane) == PinnedExact ==> Compacted(s, target, show) == s
    ensures FidelityOf(s.lane) == EvidenceAtomic ==> Compacted(s, target, show).entries <= s.entries
    ensures FidelityOf(s.lane) == EvidenceAtomic && s.entries != [] ==> Compacted(s, target, show).entries != []
  {
  }

  lemma {:induction false} JoinNeverGrows(a: seq<string>, b: seq<string>)
    requires |a| == |b| && forall i | 0 <= i < |a| :: |a[i]| <= |b[i]|
    ensures |Join(a)| <= |Join(b)|
    decreases |a|
  {
    if |a| > 1 {
      JoinNeverGrows(a[..|a| - 1], b[..|b| - 1]);
    }
  }

  lemma {:induction false} JoinPrefixIsShorter(a: seq<string>, n: nat)
    requires n <= |a|
    ensures |Join(a[..n])| <= |Join(a)|
    decreases |a|
  {
    if n == |a| {
      assert a[..n] == a;
    } else {
      JoinPrefixIsShorter(a[..|a| - 1], n);
      assert a[..|a| - 1][..n] == a[..n];
    }
  }

  /** A lane that renders still renders compacted, and never to more text. */
  lemma CompactionNeverGrows(s: LaneState, target: int, show: Printer)
    requires Renders(s, show)
    ensures Renders(Compacted(s, target, show), show)
    ensures |TextOf(Compacted(s, target, show), show)| <= |TextOf(s, show)|
  {
    var f := FidelityOf(s.lane);
    var c := Compacted(s, target, show);
    if f == EvidenceAtomic {
      assert Lines(c, show) == Lines(s, show)[..|c.entries|];
      JoinPrefixIsShorter(Lines(s, show), |c.entries|);
    } else if f != PinnedExact {
      forall i | 0 <= i < |s.entries|
        ensures RenderEntry(f, c.entries[i], show).Some?
                && |RenderEntry(f, c.entries[i], show).value| <= |RenderEntry(f, s.entries[i], show).value|
      {
        assert RenderEntry(f, s.entries[i], show).Some?;
        EntryNeverGrows(f, s.entries[i], PerEntry(target, |s.entries|), show);
      }
      JoinNeverGrows(Lines(c, show), Lines(s, show));
    }
  }

  lemma EntryNeverGrows(f: Fidelity, e: Entry, budget: nat, show: Printer)
    requires f != PinnedExact && f != EvidenceAtomic && RenderEntry(f, e, show).Some?
    ensures RenderEntry(f, CompactEntry(f, e, budget), show).Some?
    ensures |RenderEntry(f, CompactEntry(f, e, budget), show).value| <= |RenderEntry(f, e, show).value|
  {
    if e.text.Some? {
      TruncateNeverGrows(e.text.value, budget);
    }
  }
}
