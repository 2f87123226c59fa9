/** The recall pointers in a text: what the pattern `[recall:` ... `]` finds, scanning from the left. */
module RecallPointers {

  /** The length of `[recall:`. */
  const WIDTH := 8

  predicate OpensAt(s: string, i: nat) {
    i + WIDTH <= |s| && s[i] == '[' && s[i + 1] == 'r' && s[i + 2] == 'e' && s[i + 3] == 'c' && s[i + 4] == 'a'
    && s[i + 5] == 'l' && s[i + 6] == 'l' && s[i + 7] == ':'
  }

  lemma OpensAtIff(s: string, i: nat)
    ensures OpensAt(s, i) <==> i + WIDTH <= |s| && s[i..i + WIDTH] == "[recall:"
  {
    if i + WIDTH <= |s| {
      var w := s[i..i + WIDTH];
      assert OpensAt(s, i) <==> OpensAt(w, 0);
      assert OpensAt(w, 0) ==> w == "[recall:";
    }
  }

  /** The first closing bracket at or after i, or the end of the text. */
  function CloseFrom(s: string, i: nat): (e: nat)
    requires i <= |s|
    ensures i <= e <= |s| && (e < |s| ==> s[e] == ']') && forall j | i <= j < e :: s[j] != ']'
    decreases |s| - i
  {
    if i == |s| || s[i] == ']' then i else CloseFrom(s, i + 1)
  }

  /** A pointer opened at i that the text does not close. */
  predicate LeftOpen(s: string, i: nat) {
    OpensAt(s, i) && CloseFrom(s, i + WIDTH) == |s|
  }

  /** A pointer with a nonempty id starts at i. */
  predicate PointsAt(s: string, i: nat) {
    OpensAt(s, i) && i + WIDTH < CloseFrom(s, i + WIDTH) < |s|
  }

  /** The ids found from i on: matches are taken leftmost first and do not overlap. */
  function IdsFrom(s: string, i: nat): seq<string>
    decreases |s| - i
  {
    if i >= |s| then []
    else if PointsAt(s, i) then
      var e := CloseFrom(s, i + WIDTH);
      [s[i + WIDTH..e]] + IdsFrom(s, e + 1)
    else IdsFrom(s, i + 1)
  }

  function Ids(s: string): seq<string> {
    IdsFrom(s, 0)
  }

  method FindIds(s: string) returns (ids: seq<string>)
    ensures ids == Ids(s)
  {
    ids := [];
    var i := 0;
    while i < |s|
      invariant i <= |s| && Ids(s) == ids + IdsFrom(s, i)
    {
      var next := i + 1;
      if OpensAt(s, i) {
        var e := i + WIDTH;
        while e < |s| && s[e] != ']'
          invariant i + WIDTH <= e <= |s| && CloseFrom(s, i + WIDTH) == CloseFrom(s, e)
        {
          e := e + 1;
        }
        if i + WIDTH < e < |s| {
          ids := ids + [s[i + WIDTH..e]];
          next := e + 1;
        }
      }
      i := next;
    }
  }

  // ----- what is found

  /** The pattern `[recall:` id `]` stands at i: its id is not empty and has no closing bracket. */
  predicate MatchAt(s: string, i: nat, id: string) {
    id != "" && ']' !in id && i + |id| + 9 <= |s|
    && s[i..i + 8] == "[recall:" && s[i + 8..i + 8 + |id|] == id && s[i + 8 + |id|] == ']'
  }

  lemma PointsAtIff(s: string, i: nat, id: string)
    ensures MatchAt(s, i, id) <==> PointsAt(s, i) && id == s[i + WIDTH..CloseFrom(s, i + WIDTH)]
  {
    OpensAtIff(s, i);
    if MatchAt(s, i, id) {
      var e := i + 8 + |id|;
      forall j | i + 8 <= j < e ensures s[j] != ']' {
        assert s[j] == s[i + 8..e][j - i - 8];
        assert s[i + 8..e][j - i - 8] in id;
      }
      assert CloseFrom(s, i + 8) == e;
    }
    if PointsAt(s, i) && id == s[i + WIDTH..CloseFrom(s, i + WIDTH)] {
      forall c | c in id ensures c != ']' {
        var k :| 0 <= k < |id| && id[k] == c;
        assert c == s[i + WIDTH + k];
      }
    }
  }

  /** The ids stand in the text at these places, from i on, left to right and apart from each other. */
  predicate StandApart(s: string, i: nat, ids: seq<string>, at: seq<nat>) {
    |at| == |ids|
    && (forall k | 0 <= k < |at| :: i <= at[k] && MatchAt(s, at[k], ids[k]))
    && forall k | 0 <= k < |at| - 1 :: at[k] + |ids[k]| + 9 <= at[k + 1]
  }

  /** Place j lies inside one of the matches. */
  predicate InsideOne(ids: seq<string>, at: seq<nat>, j: nat)
    requires |at| == |ids|
  {
    exists k :: 0 <= k < |at| && at[k] <= j < at[k] + |ids[k]| + 9
  }

  lemma StandOneMore(s: string, i: nat, first: string, ids: seq<string>, at: seq<nat>)
    requires MatchAt(s, i, first) && StandApart(s, i + |first| + 9, ids, at)
    ensures StandApart(s, i, [first] + ids, [i] + at)
  {
    var ids', at' := [first] + ids, [i] + at;
    forall k | 0 <= k < |at'| ensures i <= at'[k] && MatchAt(s, at'[k], ids'[k]) {
      if k > 0 { assert at'[k] == at[k - 1] && ids'[k] == ids[k - 1]; }
    }
    forall k | 0 <= k < |at'| - 1 ensures at'[k] + |ids'[k]| + 9 <= at'[k + 1] {
      if k > 0 { assert at[k - 1] + |ids[k - 1]| + 9 <= at[k - 1 + 1]; }
    }
  }

  lemma InsideOneMore(i: nat, first: string, ids: seq<string>, at: seq<nat>, j: nat)
    requires |at| == |ids| && i <= j
    requires j < i + |first| + 9 || InsideOne(ids, at, j)
    ensures InsideOne([first] + ids, [i] + at, j)
  {
    var ids', at' := [first] + ids, [i] + at;
    if j < i + |first| + 9 {
      assert at'[0] == i && ids'[0] == first;
    } else {
      var k :| 0 <= k < |at| && at[k] <= j < at[k] + |ids[k]| + 9;
      assert at'[k + 1] == at[k] && ids'[k + 1] == ids[k];
    }
  }

  /** Every occurrence of the pattern from i on begins inside one of the matches. */
  predicate Covers(s: string, i: nat, ids: seq<string>, at: seq<nat>)
    requires |at| == |ids|
  {
    forall j | i <= j < |s| && PointsAt(s, j) :: InsideOne(ids, at, j)
  }

  lemma CoverOneMore(s: string, i: nat, first: string, ids: seq<string>, at: seq<nat>)
    requires |at| == |ids| && Covers(s, i + |first| + 9, ids, at)
    ensures Covers(s, i, [first] + ids, [i] + at)
  {
    forall j | i <= j < |s| && PointsAt(s, j) ensures InsideOne([first] + ids, [i] + at, j) {
      InsideOneMore(i, first, ids, at, j);
    }
  }

  lemma {:induction false} FoundFrom(s: string, i: nat) returns (at: seq<nat>)
    ensures StandApart(s, i, IdsFrom(s, i), at) && Covers(s, i, IdsFrom(s, i), at)
    decreases |s| - i
  {
    at := [];
    if i < |s| && PointsAt(s, i) {
      var e := CloseFrom(s, i + WIDTH);
      var first := s[i + WIDTH..e];
      PointsAtIff(s, i, first);
      IdsHit(s, i, e);
      var rest := FoundFrom(s, e + 1);
      at := [i] + rest;
      StandOneMore(s, i, first, IdsFrom(s, e + 1), rest);
      CoverOneMore(s, i, first, IdsFrom(s, e + 1), rest);
    } else if i < |s| {
      at := FoundFrom(s, i + 1);
      IdsMiss(s, i);
    }
  }

  /** The ids found stand in the text as pointers, from left to right and apart from each other, and every other occurrence
      of the pattern begins inside one of them. */
  lemma FoundLeftmost(s: string) returns (at: seq<nat>)
    ensures StandApart(s, 0, Ids(s), at)
    ensures forall j: nat, id: string | MatchAt(s, j, id) :: InsideOne(Ids(s), at, j)
  {
    at := FoundFrom(s, 0);
    forall j: nat, id: string | MatchAt(s, j, id) ensures InsideOne(Ids(s), at, j) { PointsAtIff(s, j, id); }
  }

  // ----- texts cut short

  lemma IdsHit(s: string, i: nat, e: nat)
    requires PointsAt(s, i) && e == CloseFrom(s, i + WIDTH)
    ensures IdsFrom(s, i) == [s[i + WIDTH..e]] + IdsFrom(s, e + 1)
  {
  }

  lemma IdsMiss(s: string, i: nat)
    requires i < |s| && !PointsAt(s, i)
    ensures IdsFrom(s, i) == IdsFrom(s, i + 1)
  {
  }

  lemma {:induction false} NothingWithoutClose(s: string, i: nat)
    requires forall j | i + WIDTH <= j < |s| :: s[j] != ']'
    ensures IdsFrom(s, i) == []
    decreases |s| - i
  {
    if i < |s| {
      assert !PointsAt(s, i);
      NothingWithoutClose(s, i + 1);
    }
  }

  lemma CloseInPrefix(p: string, s: string, i: nat)
    requires p <= s && i <= |p| && CloseFrom(p, i) < |p|
    ensures CloseFrom(s, i) == CloseFrom(p, i)
  {
    var e, f := CloseFrom(p, i), CloseFrom(s, i);
    assert s[e] == ']';
    assert f < |p| ==> p[f] == s[f];
    assert f <= e;
  }

  lemma OpensInPrefix(p: string, s: string, i: nat)
    requires p <= s && i + WIDTH <= |p|
    ensures OpensAt(s, i) <==> OpensAt(p, i)
  {
  }

  /** Where p opens a pointer it also closes it, a longer text finds the same. */
  lemma SameStepInPrefix(p: string, s: string, i: nat)
    requires p <= s && i + WIDTH <= |p| && !LeftOpen(p, i)
    ensures PointsAt(s, i) <==> PointsAt(p, i)
    ensures PointsAt(p, i) ==>
              var e := CloseFrom(p, i + WIDTH); CloseFrom(s, i + WIDTH) == e && s[i + WIDTH..e] == p[i + WIDTH..e]
  {
    OpensInPrefix(p, s, i);
    if OpensAt(p, i) {
      CloseInPrefix(p, s, i + WIDTH);
    }
  }

  lemma PrefixOneMore(x: string, a: seq<string>, b: seq<string>)
    requires a <= b
    ensures [x] + a <= [x] + b
  {
  }

  /** Cutting a text loses its last pointers and finds no new ones. */
  lemma {:induction false} PrefixFindsAPrefix(p: string, s: string, i: nat)
    requires p <= s && i <= |p|
    ensures IdsFrom(p, i) <= IdsFrom(s, i)
    decreases |p| - i
  {
    if i + WIDTH > |p| || LeftOpen(p, i) {
      NothingWithoutClose(p, i);
    } else {
      SameStepInPrefix(p, s, i);
      if PointsAt(p, i) {
        var e := CloseFrom(p, i + WIDTH);
        IdsHit(p, i, e);
        IdsHit(s, i, e);
        PrefixFindsAPrefix(p, s, e + 1);
        PrefixOneMore(p[i + WIDTH..e], IdsFrom(p, e + 1), IdsFrom(s, e + 1));
      } else {
        IdsMiss(p, i);
        IdsMiss(s, i);
        PrefixFindsAPrefix(p, s, i + 1);
      }
    }
  }

  /** Text without a closing bracket adds no pointer. */
  lemma {:induction false} OpenTailAddsNothing(p: string, s: string, i: nat)
    requires p <= s && i <= |p| && forall j | |p| <= j < |s| :: s[j] != ']'
    ensures IdsFrom(s, i) == IdsFrom(p, i)
    decreases |p| - i
  {
    if i + WIDTH > |p| || LeftOpen(p, i) {
      forall j | i + WIDTH <= j < |s| ensures s[j] != ']' {
        if j < |p| { assert s[j] == p[j]; }
      }
      NothingWithoutClose(p, i);
      NothingWithoutClose(s, i);
    } else {
      SameStepInPrefix(p, s, i);
      if PointsAt(p, i) {
        var e := CloseFrom(p, i + WIDTH);
        IdsHit(p, i, e);
        IdsHit(s, i, e);
        OpenTailAddsNothing(p, s, e + 1);
      } else {
        IdsMiss(p, i);
        IdsMiss(s, i);
        OpenTailAddsNothing(p, s, i + 1);
      }
    }
  }

  // ----- lines joined

  /** Every pointer opened in s is closed in s. */
  predicate Closed(s: string) {
    forall i | 0 <= i <= |s| :: !LeftOpen(s, i)
  }

  function Lined(a: string, b: string): string {
    a + "\n" + b
  }

  lemma CloseShifted(a: string, b: string, j: nat)
    requires j <= |b|
    ensures CloseFrom(Lined(a, b), |a| + 1 + j) == |a| + 1 + CloseFrom(b, j)
    decreases |b| - j
  {
    if j < |b| {
      assert Lined(a, b)[|a| + 1 + j] == b[j];
      CloseShifted(a, b, j + 1);
    }
  }

  lemma PointsShifted(a: string, b: string, j: nat, s: string, i: nat)
    requires j <= |b| && s == Lined(a, b) && i == |a| + 1 + j
    ensures PointsAt(s, i) <==> PointsAt(b, j)
    ensures PointsAt(b, j) ==>
              var e := CloseFrom(b, j + WIDTH);
              CloseFrom(s, i + WIDTH) == |a| + 1 + e && s[i + WIDTH..|a| + 1 + e] == b[j + WIDTH..e]
  {
    if j + WIDTH <= |b| {
      CloseShifted(a, b, j + WIDTH);
    }
  }

  lemma {:induction false} IdsShifted(a: string, b: string, j: nat, s: string, i: nat)
    requires j <= |b| && s == Lined(a, b) && i == |a| + 1 + j
    ensures IdsFrom(s, i) == IdsFrom(b, j)
    decreases |b| - j
  {
    if j < |b| {
      PointsShifted(a, b, j, s, i);
      if PointsAt(b, j) {
        var e := CloseFrom(b, j + WIDTH);
        var e' := |a| + 1 + e;
        IdsShifted(a, b, e + 1, s, e' + 1);
        assert IdsFrom(b, j) == [b[j + WIDTH..e]] + IdsFrom(b, e + 1) by { IdsHit(b, j, e); }
        assert IdsFrom(s, i) == [s[i + WIDTH..e']] + IdsFrom(s, e' + 1) by { IdsHit(s, i, e'); }
      } else {
        IdsMiss(b, j);
        IdsMiss(s, i);
        IdsShifted(a, b, j + 1, s, i + 1);
      }
    }
  }

  lemma NothingAcrossTheBreak(a: string, b: string, i: nat)
    requires i <= |a| < i + WIDTH
    ensures !OpensAt(Lined(a, b), i)
  {
    var s := Lined(a, b);
    assert s[|a|] == '\n';
  }

  /** From i on, when every pointer a opens from there is closed in a. */
  lemma {:induction false} IdsBeforeTheBreak(a: string, b: string, i: nat)
    requires i <= |a| && forall j | i <= j <= |a| :: !LeftOpen(a, j)
    ensures IdsFrom(Lined(a, b), i) == IdsFrom(a, i) + Ids(b)
    decreases |a| - i
  {
    var s := Lined(a, b);
    assert a <= s;
    if i + WIDTH > |a| {
      NothingAcrossTheBreak(a, b, i);
      NothingWithoutClose(a, i);
      if i == |a| {
        IdsMiss(s, i);
        IdsShifted(a, b, 0, s, i + 1);
      } else {
        IdsBeforeTheBreak(a, b, i + 1);
        NothingWithoutClose(a, i + 1);
      }
    } else {
      SameStepInPrefix(a, s, i);
      if PointsAt(a, i) {
        var e := CloseFrom(a, i + WIDTH);
        IdsHit(a, i, e);
        IdsHit(s, i, e);
        IdsBeforeTheBreak(a, b, e + 1);
        Regroup([a[i + WIDTH..e]], IdsFrom(a, e + 1), Ids(b));
      } else {
        IdsMiss(a, i);
        IdsMiss(s, i);
        IdsBeforeTheBreak(a, b, i + 1);
      }
    }
  }

  /** The first pointer that a opens and does not close. */
  function FirstOpen(a: string, i: nat): (p: nat)
    requires exists j :: i <= j <= |a| && LeftOpen(a, j)
    ensures i <= p <= |a| && LeftOpen(a, p)
    ensures forall j | i <= j < p :: !LeftOpen(a, j)
    decreases |a| - i
  {
    if LeftOpen(a, i) then i else FirstOpen(a, i + 1)
  }

  /** Up to the first open pointer both texts find the same. */
  lemma Regroup<T>(x: seq<T>, y: seq<T>, z: seq<T>)
    ensures x + (y + z) == (x + y) + z
  {
  }

  lemma {:induction false} IdsUpTo(a: string, s: string, p: nat, i: nat)
    requires a <= s && i <= p && LeftOpen(a, p)
    requires forall j | i <= j < p :: !LeftOpen(a, j)
    ensures IdsFrom(s, i) == IdsFrom(a, i) + IdsFrom(s, p)
    decreases p - i
  {
    if i == p {
      NothingWithoutClose(a, p);
    } else {
      SameStepInPrefix(a, s, i);
      if PointsAt(a, i) {
        var e := CloseFrom(a, i + WIDTH);
        ClosesBefore(a, p, e);
        IdsUpTo(a, s, p, e + 1);
        HitUpTo(a, s, p, i, e);
      } else {
        IdsMiss(a, i);
        IdsMiss(s, i);
        IdsUpTo(a, s, p, i + 1);
      }
    }
  }

  lemma HitUpTo(a: string, s: string, p: nat, i: nat, e: nat)
    requires PointsAt(a, i) && PointsAt(s, i) && e == CloseFrom(a, i + WIDTH) == CloseFrom(s, i + WIDTH)
    requires s[i + WIDTH..e] == a[i + WIDTH..e]
    requires IdsFrom(s, e + 1) == IdsFrom(a, e + 1) + IdsFrom(s, p)
    ensures IdsFrom(s, i) == IdsFrom(a, i) + IdsFrom(s, p)
  {
    var id := a[i + WIDTH..e];
    assert IdsFrom(a, i) == [id] + IdsFrom(a, e + 1) by { IdsHit(a, i, e); }
    assert IdsFrom(s, i) == [id] + IdsFrom(s, e + 1) by { IdsHit(s, i, e); }
    Regroup([id], IdsFrom(a, e + 1), IdsFrom(s, p));
  }

  lemma ClosesBefore(a: string, p: nat, e: nat)
    requires LeftOpen(a, p) && e < |a| && a[e] == ']'
    ensures e < p
  {
  }

  /** Up to its first closing bracket at f, a text finds at most one pointer, shorter than f. */
  lemma {:induction false} AtMostOneBefore(b: string, f: nat, i: nat)
    requires i <= f < |b| && b[f] == ']' && forall j | i <= j < f :: b[j] != ']'
    ensures IdsFrom(b, i) == IdsFrom(b, f + 1)
            || (|IdsFrom(b, i)| == 1 + |IdsFrom(b, f + 1)| && |IdsFrom(b, i)[0]| < f - i)
    decreases f - i
  {
    if PointsAt(b, i) {
      OpenHasNoClose(b, i, f);
      assert CloseFrom(b, i + WIDTH) == f;
    } else if i < f {
      AtMostOneBefore(b, f, i + 1);
    }
  }

  lemma OpenHasNoClose(b: string, i: nat, f: nat)
    requires OpensAt(b, i) && i <= f < |b| && b[f] == ']'
    ensures i + WIDTH <= f
  {
  }

  /** The id that runs from a pointer left open in a, over the break, to the first closing bracket of b. */
  lemma SpanningId(a: string, b: string) returns (id: string, f: nat)
    requires !Closed(a) && ']' in b
    ensures f < |b| && b[f] == ']' && forall j | 0 <= j < f :: b[j] != ']'
    ensures |id| > f && '\n' in id
    ensures Ids(Lined(a, b)) == Ids(a) + [id] + IdsFrom(b, f + 1)
  {
    var p := FirstOpen(a, 0);
    f := CloseFrom(b, 0);
    assert a <= Lined(a, b);
    IdsUpTo(a, Lined(a, b), p, 0);
    id := OpenPointerSpans(a, b, p, f);
  }

  lemma OpenPointerSpans(a: string, b: string, p: nat, f: nat) returns (id: string)
    requires LeftOpen(a, p)
    requires f < |b| && b[f] == ']' && forall j | 0 <= j < f :: b[j] != ']'
    ensures IdsFrom(Lined(a, b), p) == [id] + IdsFrom(b, f + 1) && |id| > f && '\n' in id
  {
    var s, start, e := Lined(a, b), p + WIDTH, |a| + 1 + f;
    assert OpensAt(s, p) by {
      assert a <= s;
      OpensInPrefix(a, s, p);
    }
    assert CloseFrom(s, start) == e by { SpanningClose(a, b, start, f); }
    id := s[start..e];
    assert id[|a| - start] == '\n';
    IdsHit(s, p, e);
    IdsShifted(a, b, f + 1, s, e + 1);
  }

  lemma SpanningClose(a: string, b: string, start: nat, f: nat)
    requires start <= |a| && CloseFrom(a, start) == |a|
    requires f < |b| && b[f] == ']' && forall j | 0 <= j < f :: b[j] != ']'
    ensures CloseFrom(Lined(a, b), start) == |a| + 1 + f
  {
    var s, e := Lined(a, b), |a| + 1 + f;
    assert s[e] == b[f];
    forall j | start <= j < e ensures s[j] != ']' {
      if j < |a| { assert s[j] == a[j]; } else if j > |a| { assert s[j] == b[j - |a| - 1]; }
    }
  }

  /** Joining two lines finds exactly the pointers of each, unless the first leaves one open and the second closes it. */
  lemma LinesFindTheirOwnIff(a: string, b: string)
    ensures Ids(Lined(a, b)) == Ids(a) + Ids(b) <==> Closed(a) || ']' !in b
  {
    if Closed(a) {
      IdsBeforeTheBreak(a, b, 0);
    } else if ']' !in b {
      assert a <= Lined(a, b);
      OpenTailAddsNothing(a, Lined(a, b), 0);
      NothingWithoutClose(b, 0);
    } else {
      var id, f := SpanningId(a, b);
      AtMostOneBefore(b, f, 0);
      assert Ids(Lined(a, b))[|Ids(a)|] == id;
    }
  }

  /** Otherwise it finds an id that spans the break, which no line of its own can hold. */
  lemma OpenLineDangles(a: string, b: string) returns (id: string)
    requires !Closed(a) && ']' in b
    ensures id in Ids(Lined(a, b)) && '\n' in id
  {
    var f: nat;
    id, f := SpanningId(a, b);
  }

  lemma ClosedLines(a: string, b: string)
    requires Closed(a) && Closed(b)
    ensures Closed(Lined(a, b))
  {
    var s := Lined(a, b);
    assert a <= s;
    forall i | 0 <= i <= |s| && OpensAt(s, i) ensures !LeftOpen(s, i) {
      if i + WIDTH <= |a| {
        OpensInPrefix(a, s, i);
        assert !LeftOpen(a, i);
        CloseInPrefix(a, s, i + WIDTH);
      } else if i <= |a| {
        NothingAcrossTheBreak(a, b, i);
      } else {
        var j := i - |a| - 1;
        assert OpensAt(b, j) && !LeftOpen(b, j);
        CloseShifted(a, b, j + WIDTH);
      }
    }
  }

  /** A pointer the first line leaves open stays open when the second closes nothing, and so does one of the second. */
  lemma OpenLines(a: string, b: string)
    ensures !Closed(a) && ']' !in b ==> !Closed(Lined(a, b))
    ensures !Closed(b) ==> !Closed(Lined(a, b))
  {
    if !Closed(a) && ']' !in b { OpenFirstLine(a, b, FirstOpen(a, 0)); }
    if !Closed(b) { OpenSecondLine(a, b, FirstOpen(b, 0)); }
  }

  lemma OpenFirstLine(a: string, b: string, p: nat)
    requires LeftOpen(a, p) && ']' !in b
    ensures !Closed(Lined(a, b))
  {
    var s := Lined(a, b);
    assert a <= s;
    OpensInPrefix(a, s, p);
    NeverCloses(a, b, p + WIDTH);
    assert LeftOpen(s, p);
  }

  lemma NeverCloses(a: string, b: string, start: nat)
    requires start <= |a| && CloseFrom(a, start) == |a| && ']' !in b
    ensures CloseFrom(Lined(a, b), start) == |Lined(a, b)|
  {
    var s := Lined(a, b);
    forall j | start <= j < |s| ensures s[j] != ']' {
      if j < |a| { assert s[j] == a[j]; } else if j > |a| { assert s[j] == b[j - |a| - 1]; }
    }
  }

  lemma OpenSecondLine(a: string, b: string, p: nat)
    requires LeftOpen(b, p)
    ensures !Closed(Lined(a, b))
  {
    CloseShifted(a, b, p + WIDTH);
    assert LeftOpen(Lined(a, b), |a| + 1 + p);
  }
}
