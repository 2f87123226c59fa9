/** A run's journal and the state indexed from it: which steps are completed, which were merely attempted, and where
    the journal continues. */
module RunJournal {
  import opened Json

  datatype Phase = Attempted | Completed | UnknownPhase(name: string)

  /** A payload as StepOutcome reads it: empty, an outcome envelope, or anything else. */
  datatype Payload = NoPayload | Envelope(outcome: string, reason: string) | OtherPayload

  datatype Record = Record(subRunId: string, stepId: string, phase: Phase, payload: Payload, seqNo: int)

  datatype StepKey = StepKey(subRunId: string, stepId: string)

  type Index = map<StepKey, map<Phase, Record>>

  function KeyOf(r: Record): StepKey {
    StepKey(r.subRunId, r.stepId)
  }

  // ----- what the loop builds

  function Indexed(ix: Index, r: Record): Index {
    ix[KeyOf(r) := (if KeyOf(r) in ix then ix[KeyOf(r)] else map[])[r.phase := r]]
  }

  function IndexOf(records: seq<Record>): Index {
    if records == [] then map[] else Indexed(IndexOf(records[..|records| - 1]), records[|records| - 1])
  }

  function NextSeqOf(records: seq<Record>): int {
    if records == [] then 0
    else
      var before := NextSeqOf(records[..|records| - 1]);
      if records[|records| - 1].seqNo >= before then records[|records| - 1].seqNo + 1 else before
  }

  predicate InOrder(records: seq<Record>) {
    forall i, j | 0 <= i < j < |records| :: records[i].seqNo <= records[j].seqNo
  }

  function Lookup(ix: Index, key: StepKey, phase: Phase): Option<Record> {
    if key in ix && phase in ix[key] then Some(ix[key][phase]) else None
  }

  datatype DurabilityLevel = PerStep | PerActivity | Mixed | UnknownDurability

  datatype Durability = Durability(level: DurabilityLevel, steps: nat, stepsWithIntent: nat)

  /** The steps that recorded intent. */
  function WithIntent(ix: Index): set<StepKey> {
    set k | k in ix && Attempted in ix[k]
  }

  class RunState {
    const runId: string
    const subRunId: string
    const records: seq<Record>
    const byStep: Index
    const nextSeq: int

    /** sort.Slice promises an ordered permutation and nothing about equal sequence numbers. */
    constructor FromRecords(runId: string, records: seq<Record>)
      ensures this.runId == runId && subRunId == ""
      ensures multiset(this.records) == multiset(records) && InOrder(this.records)
      ensures byStep == IndexOf(this.records) && nextSeq == NextSeqOf(this.records)
    {
      var sorted := SortBySeq(records);
      var ix: Index := map[];
      var next := 0;
      for i := 0 to |sorted|
        invariant ix == IndexOf(sorted[..i]) && next == NextSeqOf(sorted[..i])
      {
        assert sorted[..i + 1][..i] == sorted[..i];
        var rec := sorted[i];
        if KeyOf(rec) !in ix {
          ix := ix[KeyOf(rec) := map[]];
        }
        ix := ix[KeyOf(rec) := ix[KeyOf(rec)][rec.phase := rec]];
        if rec.seqNo >= next {
          next := rec.seqNo + 1;
        }
      }
      assert sorted[..|sorted|] == sorted;
      this.runId, this.subRunId, this.records, this.byStep, this.nextSeq := runId, "", sorted, ix, next;
    }

    /** One sub-run's journal, continued at the run-wide position. */
    constructor ForSubRun(runId: string, subRunId: string, records: seq<Record>, runWideNextSeq: int)
      ensures this.runId == runId && this.subRunId == subRunId && nextSeq == runWideNextSeq
      ensures multiset(this.records) == multiset(records) && InOrder(this.records)
      ensures byStep == IndexOf(this.records)
    {
      var s := new RunState.FromRecords(runId, records);
      this.runId, this.subRunId, this.records, this.byStep, this.nextSeq :=
        runId, subRunId, s.records, s.byStep, runWideNextSeq;
    }

    method CompletedRecord(subRunId: string, stepId: string) returns (r: Option<Record>)
      ensures r == Lookup(byStep, StepKey(subRunId, stepId), Completed)
    {
      var key := StepKey(subRunId, stepId);
      if key in byStep && Completed in byStep[key] {
        return Some(byStep[key][Completed]);
      }
      return None;
    }

    method WasAttempted(subRunId: string, stepId: string) returns (b: bool)
      ensures b == OnlyAttempted(byStep, StepKey(subRunId, stepId))
    {
      var key := StepKey(subRunId, stepId);
      if key !in byStep {
        return false;
      }
      var phases := byStep[key];
      return Attempted in phases && Completed !in phases;
    }

    /** How a completed step concluded: as its envelope says, and as an ordinary result when there is none. */
    method StepOutcome(subRunId: string, stepId: string) returns (outcome: string, reason: string, concluded: bool)
      ensures concluded <==> Lookup(byStep, StepKey(subRunId, stepId), Completed).Some?
      ensures (outcome, reason) == OutcomeOf(Lookup(byStep, StepKey(subRunId, stepId), Completed))
    {
      var rec := CompletedRecord(subRunId, stepId);
      if rec.None? {
        return "", "", false;
      }
      match rec.value.payload
      case NoPayload => return "result", "", true;
      case OtherPayload => return "result", "", true;
      case Envelope(o, why) =>
        if o == "" {
          return "result", "", true;
        }
        return o, why, true;
    }

    method ComputeDurability() returns (d: Durability)
      ensures d.steps == |byStep| && d.stepsWithIntent == |WithIntent(byStep)|
      ensures d.level.UnknownDurability? <==> byStep == map[]
      ensures d.level.PerStep? <==> byStep != map[] && forall k | k in byStep :: Attempted in byStep[k]
      ensures d.level.PerActivity? <==> byStep != map[] && forall k | k in byStep :: Attempted !in byStep[k]
    {
      var left := byStep.Keys;
      var withIntent: nat := 0;
      ghost var seen: set<StepKey> := {};
      while left != {}
        invariant left <= byStep.Keys && seen == WithIntent(byStep) - left
        invariant withIntent == |seen|
        decreases |left|
      {
        var k :| k in left;
        if Attempted in byStep[k] {
          withIntent := withIntent + 1;
          seen := seen + {k};
        }
        left := left - {k};
      }
      assert seen == WithIntent(byStep);
      IntentCounts(byStep);
      var level :=
        if |byStep| == 0 then UnknownDurability
        else if withIntent == |byStep| then PerStep
        else if withIntent == 0 then PerActivity
        else Mixed;
      d := Durability(level, |byStep|, withIntent);
    }
  }

  lemma IntentCounts(ix: Index)
    ensures |ix| == 0 <==> ix == map[]
    ensures |WithIntent(ix)| == |ix| <==> forall k | k in ix :: Attempted in ix[k]
    ensures |WithIntent(ix)| == 0 <==> forall k | k in ix :: Attempted !in ix[k]
  {
    var w := WithIntent(ix);
    assert w <= ix.Keys;
    assert |ix.Keys - w| == |ix| - |w|;
    if |w| == |ix| {
      assert ix.Keys - w == {};
      forall k | k in ix ensures Attempted in ix[k] { assert k !in ix.Keys - w; }
    }
    if forall k | k in ix :: Attempted in ix[k] { assert w == ix.Keys; }
    if |w| == 0 { forall k | k in ix ensures Attempted !in ix[k] { assert k !in w; } }
    if forall k | k in ix :: Attempted !in ix[k] { assert w == {}; }
  }

  function OutcomeOf(rec: Option<Record>): (string, string) {
    match rec
    case None => ("", "")
    case Some(r) =>
      if r.payload.Envelope? && r.payload.outcome != "" then (r.payload.outcome, r.payload.reason) else ("result", "")
  }

  predicate OnlyAttempted(ix: Index, key: StepKey) {
    Lookup(ix, key, Attempted).Some? && Lookup(ix, key, Completed).None?
  }

  method SortBySeq(records: seq<Record>) returns (sorted: seq<Record>)
    ensures multiset(sorted) == multiset(records) && InOrder(sorted)
  {
    sorted := [];
    for i := 0 to |records|
      invariant multiset(sorted) == multiset(records[..i]) && InOrder(sorted)
    {
      sorted := InsertBySeq(sorted, records[i]);
      assert records[..i + 1] == records[..i] + [records[i]];
    }
    assert records[..|records|] == records;
  }

  method InsertBySeq(sorted: seq<Record>, r: Record) returns (more: seq<Record>)
    requires InOrder(sorted)
    ensures InOrder(more) && multiset(more) == multiset(sorted) + multiset{r}
  {
    var k: nat := |sorted|;
    while k > 0 && sorted[k - 1].seqNo > r.seqNo
      invariant k <= |sorted|
      invariant forall j | k <= j < |sorted| :: sorted[j].seqNo > r.seqNo
    {
      k := k - 1;
    }
    more := sorted[..k] + [r] + sorted[k..];
    assert sorted == sorted[..k] + sorted[k..];
    InsertInOrder(sorted, k, r, more);
  }

  lemma InsertInOrder(sorted: seq<Record>, k: nat, r: Record, more: seq<Record>)
    requires InOrder(sorted) && k <= |sorted| && more == sorted[..k] + [r] + sorted[k..]
    requires k > 0 ==> sorted[k - 1].seqNo <= r.seqNo
    requires forall j | k <= j < |sorted| :: sorted[j].seqNo > r.seqNo
    ensures InOrder(more)
  {
    forall i, j | 0 <= i < j < |more| ensures more[i].seqNo <= more[j].seqNo {
      assert more[i] == if i < k then sorted[i] else if i == k then r else sorted[i - 1];
      assert more[j] == if j < k then sorted[j] else if j == k then r else sorted[j - 1];
      assert i < k ==> sorted[i].seqNo <= sorted[k - 1].seqNo;
    }
  }

  // ----- the index agrees with the journal

  predicate DistinctSeqs(records: seq<Record>) {
    forall i, j | 0 <= i < j < |records| :: records[i].seqNo != records[j].seqNo
  }

  predicate Matches(r: Record, key: StepKey, phase: Phase) {
    KeyOf(r) == key && r.phase == phase
  }

  /** r is the latest record of the step and phase. */
  predicate IsLatest(records: seq<Record>, key: StepKey, phase: Phase, r: Record) {
    r in records && Matches(r, key, phase)
    && forall x | x in records && Matches(x, key, phase) :: x.seqNo <= r.seqNo
  }

  lemma LookupStep(ix: Index, r: Record, key: StepKey, phase: Phase)
    ensures Lookup(Indexed(ix, r), key, phase) == if Matches(r, key, phase) then Some(r) else Lookup(ix, key, phase)
    ensures key in Indexed(ix, r) <==> key in ix || key == KeyOf(r)
  {
  }

  /** What the last record of an ordered journal changes. */
  lemma LatestStep(before: seq<Record>, last: Record, key: StepKey, phase: Phase, found: Option<Record>)
    requires InOrder(before + [last])
    requires found.Some? ==> IsLatest(before, key, phase, found.value)
    requires found.None? ==> forall x | x in before :: !Matches(x, key, phase)
    ensures var found' := if Matches(last, key, phase) then Some(last) else found;
            && (found'.Some? ==> IsLatest(before + [last], key, phase, found'.value))
            && (found'.None? ==> forall x | x in before + [last] :: !Matches(x, key, phase))
  {
    forall x | x in before ensures x.seqNo <= last.seqNo {
      var i :| 0 <= i < |before| && before[i] == x;
      assert (before + [last])[i] == x && (before + [last])[|before|] == last;
    }
  }

  /** Looking a step and phase up gives the latest such record, and nothing iff there is none. */
  lemma {:induction false} LookupIsLatest(sorted: seq<Record>, key: StepKey, phase: Phase)
    requires InOrder(sorted)
    ensures var found := Lookup(IndexOf(sorted), key, phase);
            && (found.Some? ==> IsLatest(sorted, key, phase, found.value))
            && (found.None? ==> forall x | x in sorted :: !Matches(x, key, phase))
    decreases |sorted|
  {
    if sorted != [] {
      var before, last := sorted[..|sorted| - 1], sorted[|sorted| - 1];
      LookupIsLatest(before, key, phase);
      assert sorted == before + [last];
      LatestStep(before, last, key, phase, Lookup(IndexOf(before), key, phase));
      LookupStep(IndexOf(before), last, key, phase);
    }
  }

  /** A step is in the index iff the journal mentions it. */
  lemma {:induction false} SeenIffMentioned(sorted: seq<Record>, key: StepKey)
    ensures key in IndexOf(sorted) <==> exists x :: x in sorted && KeyOf(x) == key
    decreases |sorted|
  {
    if sorted != [] {
      var before, last := sorted[..|sorted| - 1], sorted[|sorted| - 1];
      SeenIffMentioned(before, key);
      assert sorted == before + [last];
    }
  }

  /** r records that the step has this phase. */
  predicate Notes(r: Record, subRunId: string, stepId: string, phase: Phase) {
    r.subRunId == subRunId && r.stepId == stepId && r.phase == phase
  }

  /** What the state answers about a step, read off the journal's records: the completion found is the latest one; the
      step was merely attempted when intent is noted and no completion; and a completion says what its envelope says,
      an ordinary result when it has none or names no outcome. */
  lemma AnswersTell(sorted: seq<Record>, subRunId: string, stepId: string)
    requires InOrder(sorted)
    ensures var key := StepKey(subRunId, stepId);
            var found := Lookup(IndexOf(sorted), key, Completed);
            && (found.None? <==> forall x | x in sorted :: !Notes(x, subRunId, stepId, Completed))
            && (found.Some? ==> found.value in sorted && Notes(found.value, subRunId, stepId, Completed)
                                && forall x | x in sorted && Notes(x, subRunId, stepId, Completed) :: x.seqNo <= found.value.seqNo)
            && (OnlyAttempted(IndexOf(sorted), key) <==>
                  (exists x :: x in sorted && Notes(x, subRunId, stepId, Attempted))
                  && forall x | x in sorted :: !Notes(x, subRunId, stepId, Completed))
            && (found.None? ==> OutcomeOf(found) == ("", ""))
            && (found.Some? ==>
                  match found.value.payload
                  case Envelope(outcome, reason) =>
                    OutcomeOf(found) == if |outcome| > 0 then (outcome, reason) else ("result", "")
                  case NoPayload => OutcomeOf(found) == ("result", "")
                  case OtherPayload => OutcomeOf(found) == ("result", ""))
  {
    var key := StepKey(subRunId, stepId);
    forall x, phase ensures Matches(x, key, phase) <==> Notes(x, subRunId, stepId, phase) {}
    LookupIsLatest(sorted, key, Completed);
    LookupIsLatest(sorted, key, Attempted);
  }

  /** The journal continues above every sequence number, at 0 or right after one. */
  lemma {:induction false} NextSeqIsAbove(records: seq<Record>)
    ensures forall x | x in records :: x.seqNo < NextSeqOf(records)
    ensures NextSeqOf(records) == 0 || exists x :: x in records && NextSeqOf(records) == x.seqNo + 1
    decreases |records|
  {
    if records != [] {
      var before, last := records[..|records| - 1], records[|records| - 1];
      NextSeqIsAbove(before);
      assert records == before + [last];
    }
  }

  lemma {:induction false} OrderIsUnique(a: seq<Record>, b: seq<Record>)
    requires multiset(a) == multiset(b) && InOrder(a) && InOrder(b) && DistinctSeqs(a)
    ensures a == b
    decreases |a|
  {
    assert |a| == |multiset(a)| == |multiset(b)| == |b|;
    if a != [] {
      var n := |a| - 1;
      LastIsGreatest(a, b);
      WithoutLast(a);
      WithoutLast(b);
      OrderIsUnique(a[..n], b[..n]);
    }
  }

  lemma WithoutLast(a: seq<Record>)
    requires a != []
    ensures a == a[..|a| - 1] + [a[|a| - 1]]
    ensures multiset(a[..|a| - 1]) == multiset(a) - multiset{a[|a| - 1]}
  {
    assert a == a[..|a| - 1] + [a[|a| - 1]];
  }

  lemma LastIsGreatest(a: seq<Record>, b: seq<Record>)
    requires multiset(a) == multiset(b) && InOrder(a) && InOrder(b) && DistinctSeqs(a) && a != [] && b != []
    ensures a[|a| - 1] == b[|b| - 1]
  {
    var (x, y) := (a[|a| - 1], b[|b| - 1]);
    assert y in multiset(a) && x in multiset(b);
    var i :| 0 <= i < |a| && a[i] == y;
    var j :| 0 <= j < |b| && b[j] == x;
    assert y.seqNo <= x.seqNo && x.seqNo <= y.seqNo;
    assert i == |a| - 1;
  }

  /** Any two states built from the same records, in whatever order these arrived, are the same. */
  lemma StateIgnoresArrivalOrder(records1: seq<Record>, records2: seq<Record>, sorted1: seq<Record>, sorted2: seq<Record>)
    requires DistinctSeqs(records1) && multiset(records1) == multiset(records2)
    requires multiset(sorted1) == multiset(records1) && InOrder(sorted1)
    requires multiset(sorted2) == multiset(records2) && InOrder(sorted2)
    ensures sorted1 == sorted2 && IndexOf(sorted1) == IndexOf(sorted2) && NextSeqOf(sorted1) == NextSeqOf(sorted2)
  {
    DistinctUnderPermutation(records1, sorted1);
    OrderIsUnique(sorted1, sorted2);
  }

  lemma {:induction false} DistinctUnderPermutation(a: seq<Record>, b: seq<Record>)
    requires DistinctSeqs(a) && multiset(a) == multiset(b)
    ensures DistinctSeqs(b)
  {
    forall i, j | 0 <= i < j < |b| ensures b[i].seqNo != b[j].seqNo {
      assert b[i] in multiset(a) && b[j] in multiset(a);
      if b[i].seqNo == b[j].seqNo {
        var x :| 0 <= x < |a| && a[x] == b[i];
        var y :| 0 <= y < |a| && a[y] == b[j];
        assert x == y;
        TwiceInSequence(b, i, j);
        OnceInSequence(a, x);
      }
    }
  }

  lemma TwiceInSequence(b: seq<Record>, i: nat, j: nat)
    requires i < j < |b| && b[i] == b[j]
    ensures multiset(b)[b[i]] >= 2
  {
    assert b == b[..i] + [b[i]] + b[i + 1..j] + [b[j]] + b[j + 1..];
  }

  lemma OnceInSequence(a: seq<Record>, x: nat)
    requires x < |a| && DistinctSeqs(a)
    ensures multiset(a)[a[x]] == 1
  {
    assert a == a[..x] + [a[x]] + a[x + 1..];
    assert a[x] !in a[..x] && a[x] !in a[x + 1..];
  }

  /** A step whose records have known phases is exactly one of completed, attempted and unseen; with an unknown
      phase alone it is none of them. */
  lemma ExactlyOneAnswer(sorted: seq<Record>, key: StepKey)
    requires InOrder(sorted)
    ensures var ix := IndexOf(sorted);
            var completed, attempted, unseen :=
              Lookup(ix, key, Completed).Some?, OnlyAttempted(ix, key), !exists x :: x in sorted && KeyOf(x) == key;
            && !(completed && attempted) && !(completed && unseen) && !(attempted && unseen)
            && (completed || attempted || unseen <==>
                  (unseen || exists x :: x in sorted && KeyOf(x) == key && !x.phase.UnknownPhase?))
  {
    LookupIsLatest(sorted, key, Completed);
    LookupIsLatest(sorted, key, Attempted);
  }

  function OfSubRun(records: seq<Record>, subRunId: string): seq<Record> {
    if records == [] then []
    else
      OfSubRun(records[..|records| - 1], subRunId)
      + (if records[|records| - 1].subRunId == subRunId then [records[|records| - 1]] else [])
  }

  /** A sub-run's own records answer every question about its steps as the whole journal does. */
  lemma {:induction false} SubRunAnswersAgree(sorted: seq<Record>, subRunId: string, stepId: string, phase: Phase)
    ensures var key := StepKey(subRunId, stepId);
            && Lookup(IndexOf(OfSubRun(sorted, subRunId)), key, phase) == Lookup(IndexOf(sorted), key, phase)
            && (key in IndexOf(OfSubRun(sorted, subRunId)) <==> key in IndexOf(sorted))
    ensures InOrder(sorted) ==> InOrder(OfSubRun(sorted, subRunId))
    ensures forall x | x in OfSubRun(sorted, subRunId) :: x in sorted
    decreases |sorted|
  {
    if sorted != [] {
      var before, last := sorted[..|sorted| - 1], sorted[|sorted| - 1];
      var mine := OfSubRun(before, subRunId);
      SubRunAnswersAgree(before, subRunId, stepId, phase);
      assert sorted == before + [last];
      LookupStep(IndexOf(before), last, StepKey(subRunId, stepId), phase);
      if last.subRunId == subRunId {
        IndexOfAppend(mine, last);
        LookupStep(IndexOf(mine), last, StepKey(subRunId, stepId), phase);
        if InOrder(sorted) { AppendInOrder(mine, before, last); }
      } else {
        assert OfSubRun(sorted, subRunId) == mine;
      }
    }
  }

  lemma IndexOfAppend(records: seq<Record>, r: Record)
    ensures IndexOf(records + [r]) == Indexed(IndexOf(records), r)
  {
    assert (records + [r])[..|records + [r]| - 1] == records;
  }

  lemma AppendInOrder(mine: seq<Record>, before: seq<Record>, last: Record)
    requires InOrder(before + [last]) && (InOrder(before) ==> InOrder(mine)) && forall x | x in mine :: x in before
    ensures InOrder(mine + [last])
  {
    assert forall i | 0 <= i < |before| :: (before + [last])[i] == before[i];
    forall i | 0 <= i < |mine| ensures mine[i].seqNo <= last.seqNo {
      assert mine[i] in before;
      var j :| 0 <= j < |before| && before[j] == mine[i];
      assert (before + [last])[j] == mine[i] && (before + [last])[|before|] == last;
    }
  }

  /** Deriving the next position from a sub-run's records alone would hand out numbers its siblings have used. */
  lemma FilteredNextSeqCollides()
    ensures var records := [Record("a", "s", Completed, NoPayload, 0), Record("b", "s", Completed, NoPayload, 1)];
            && exists x :: x in records && x.seqNo == NextSeqOf(OfSubRun(records, "a"))
  {
    var r0, r1 := Record("a", "s", Completed, NoPayload, 0), Record("b", "s", Completed, NoPayload, 1);
    assert [r0, r1][..1] == [r0] && [r0][..0] == [];
    assert OfSubRun([r0], "a") == [r0];
    assert OfSubRun([r0, r1], "a") == [r0];
    assert NextSeqOf([r0]) == 1;
    assert r1 in [r0, r1];
  }
}
