/** What a ledger remembers of its history, said of the calls alone: which calls it accepts, what it answers, and
    what it stores. An accepted call is one `add` answered with a stored packet. */
module EvidenceHistory {
  import opened Json
  import opened EvidenceLedger
  import opened ContradictionGroups

  /** Every stored packet's own quote is indexed under its claim id. */
  predicate Sound(l: Ledger) {
    Indexed(l)
    && forall c | c in l.packets ::
         l.packets[c].claimId == c && (Quoted(l.packets[c]) in l.dedup) && l.dedup[Quoted(l.packets[c])] == c
  }

  function Quoted(p: Packet): (string, string) {
    (p.sourceId, p.quote)
  }

  lemma {:induction false} ReplaySound(ops: seq<Op>)
    ensures Sound(Replay(ops))
    decreases |ops|
  {
    if ops != [] { ReplaySound(ops[..|ops| - 1]); }
  }

  /** What `add` answers to op after a history. */
  function AnswerAfter(ops: seq<Op>, op: Op): AddResult {
    ReplaySound(ops);
    Answer(Replay(ops), op.packet, op.contradicts, op.newId)
  }

  function ReplayAfter(ops: seq<Op>, op: Op): Ledger {
    Replay(ops + [op])
  }

  predicate Accepted(ops: seq<Op>, i: nat)
    requires i < |ops|
  {
    AnswerAfter(ops[..i], ops[i]).Stored?
  }

  lemma ReplayNext(ops: seq<Op>, i: nat)
    requires i < |ops|
    ensures Replay(ops[..i + 1]) == Step(Replay(ops[..i]), ops[i].packet, ops[i].contradicts, ops[i].newId)
    ensures Accepted(ops, i) <==> Accepts(Replay(ops[..i]), ops[i].packet, ops[i].contradicts)
    ensures !Accepted(ops, i) ==> Replay(ops[..i + 1]) == Replay(ops[..i])
  {
    assert ops[..i + 1][..i] == ops[..i];
    ReplaySound(ops[..i]);
  }

  /** Call i was accepted, for claim c. */
  predicate AcceptedFor(ops: seq<Op>, i: nat, c: ClaimId)
    requires i < |ops|
  {
    Accepted(ops, i) && ops[i].packet.claimId == c
  }

  /** i is the last accepted call for claim c among the first n. */
  predicate Latest(ops: seq<Op>, n: nat, c: ClaimId, i: nat)
    requires n <= |ops|
  {
    i < n && AcceptedFor(ops, i, c) && forall j | i < j < n :: !AcceptedFor(ops, j, c)
  }

  lemma LatestWithout(ops: seq<Op>, n: nat, c: ClaimId, i: nat)
    requires 0 < n <= |ops| && i < n - 1
    ensures Latest(ops, n, c, i) <==> Latest(ops, n - 1, c, i) && !AcceptedFor(ops, n - 1, c)
  {
  }

  lemma StepEffect(l: Ledger, op: Op, k: (string, string), c: ClaimId)
    requires Sound(l)
    ensures var l' := Step(l, op.packet, op.contradicts, op.newId);
            var accepted := Accepts(l, op.packet, op.contradicts);
            (k in l'.dedup <==> k in l.dedup || (accepted && k == Quoted(op.packet)))
            && (k in l'.dedup ==> l'.dedup[k] == if accepted && k == Quoted(op.packet) then op.packet.claimId else l.dedup[k])
            && (c in l'.packets <==> c in l.packets || (accepted && c == op.packet.claimId))
            && (c in l'.packets ==>
                  Quoted(l'.packets[c]) == if accepted && c == op.packet.claimId then Quoted(op.packet)
                                           else Quoted(l.packets[c]))
  {
  }

  /** One more call, seen through what it does to a quote and to a claim. */
  lemma HistoryStep(ops: seq<Op>, i: nat, k: (string, string), c: ClaimId)
    requires i < |ops|
    ensures var l, l', p := Replay(ops[..i]), Replay(ops[..i + 1]), ops[i].packet;
            (k in l'.dedup <==> k in l.dedup || (Accepted(ops, i) && k == Quoted(p)))
            && (k in l'.dedup ==> l'.dedup[k] == if Accepted(ops, i) && k == Quoted(p) then p.claimId else l.dedup[k])
            && (Accepted(ops, i) ==> Quoted(p) !in l.dedup)
            && (c in l'.packets <==> c in l.packets || (Accepted(ops, i) && c == p.claimId))
            && (c in l'.packets ==>
                  Quoted(l'.packets[c]) == if Accepted(ops, i) && c == p.claimId then Quoted(p) else Quoted(l.packets[c]))
  {
    ReplaySound(ops[..i]);
    ReplayNext(ops, i);
    StepEffect(Replay(ops[..i]), ops[i], k, c);
  }

  /** An accepted call's quote stays indexed under its claim. */
  lemma {:induction false} StaysIndexed(ops: seq<Op>, n: nat, i: nat)
    requires i < n <= |ops| && Accepted(ops, i)
    ensures Quoted(ops[i].packet) in Replay(ops[..n]).dedup
    ensures Replay(ops[..n]).dedup[Quoted(ops[i].packet)] == ops[i].packet.claimId
    decreases n
  {
    HistoryStep(ops, n - 1, Quoted(ops[i].packet), "");
    if i < n - 1 { StaysIndexed(ops, n - 1, i); }
  }

  /** Every indexed quote is some accepted call's. */
  lemma {:induction false} IndexedBy(ops: seq<Op>, n: nat, k: (string, string)) returns (i: nat)
    requires n <= |ops| && k in Replay(ops[..n]).dedup
    ensures i < n && Accepted(ops, i) && Quoted(ops[i].packet) == k
    decreases n
  {
    HistoryStep(ops, n - 1, k, "");
    if k in Replay(ops[..n - 1]).dedup {
      i := IndexedBy(ops, n - 1, k);
    } else {
      i := n - 1;
    }
  }

  /** A claim is stored once a call for it was accepted, with the source and quote of the latest such call. */
  lemma {:induction false} StoredAsLatest(ops: seq<Op>, n: nat, c: ClaimId, i: nat)
    requires n <= |ops| && Latest(ops, n, c, i)
    ensures c in Replay(ops[..n]).packets && Quoted(Replay(ops[..n]).packets[c]) == Quoted(ops[i].packet)
    decreases n
  {
    HistoryStep(ops, n - 1, ("", ""), c);
    if i < n - 1 {
      LatestWithout(ops, n, c, i);
      StoredAsLatest(ops, n - 1, c, i);
    }
  }

  /** Every stored claim was put there by an accepted call. */
  lemma {:induction false} StoredBy(ops: seq<Op>, n: nat, c: ClaimId) returns (i: nat)
    requires n <= |ops| && c in Replay(ops[..n]).packets
    ensures Latest(ops, n, c, i)
    decreases n
  {
    HistoryStep(ops, n - 1, ("", ""), c);
    if AcceptedFor(ops, n - 1, c) {
      i := n - 1;
    } else {
      i := StoredBy(ops, n - 1, c);
      LatestWithout(ops, n, c, i);
    }
  }

  /** After any history, two different stored claims never have the same source and quote. */
  lemma OneClaimPerQuote(ops: seq<Op>, c1: ClaimId, c2: ClaimId)
    requires c1 in Replay(ops).packets && c2 in Replay(ops).packets
    requires Replay(ops).packets[c1].sourceId == Replay(ops).packets[c2].sourceId
    requires Replay(ops).packets[c1].quote == Replay(ops).packets[c2].quote
    ensures c1 == c2
  {
    ReplaySound(ops);
  }

  /** A call is a duplicate exactly when an earlier accepted call had its source and quote, and then it changes
      nothing. */
  lemma DuplicateIff(ops: seq<Op>, op: Op)
    ensures AnswerAfter(ops, op).Duplicate? <==>
              exists i :: 0 <= i < |ops| && Accepted(ops, i) && ops[i].packet.sourceId == op.packet.sourceId
                          && ops[i].packet.quote == op.packet.quote
    ensures AnswerAfter(ops, op).Duplicate? ==> ReplayAfter(ops, op) == Replay(ops)
  {
    assert ops[..|ops|] == ops && (ops + [op])[..|ops|] == ops;
    ReplaySound(ops);
    if AnswerAfter(ops, op).Duplicate? {
      var i := IndexedBy(ops, |ops|, Quoted(op.packet));
    }
    if i :| 0 <= i < |ops| && Accepted(ops, i) && ops[i].packet.sourceId == op.packet.sourceId
            && ops[i].packet.quote == op.packet.quote {
      StaysIndexed(ops, |ops|, i);
    }
  }

  /** The packet a duplicate is answered with is the one stored for the claim of the call it repeats; it has the
      repeated source and quote exactly when no later call for that claim was accepted. */
  lemma DuplicateReturnsTheQuoteIff(ops: seq<Op>, op: Op, i: nat)
    requires i < |ops| && Accepted(ops, i) && Quoted(ops[i].packet) == Quoted(op.packet)
    ensures AnswerAfter(ops, op).Duplicate? && AnswerAfter(ops, op).packet.claimId == ops[i].packet.claimId
    ensures AnswerAfter(ops, op).packet.sourceId == op.packet.sourceId && AnswerAfter(ops, op).packet.quote == op.packet.quote
            <==> forall j | i < j < |ops| :: !AcceptedFor(ops, j, ops[i].packet.claimId)
  {
    assert ops[..|ops|] == ops;
    var c := ops[i].packet.claimId;
    StaysIndexed(ops, |ops|, i);
    ReplaySound(ops);
    assert AnswerAfter(ops, op).packet == Replay(ops).packets[c];
    var m := StoredBy(ops, |ops|, c);
    StoredAsLatest(ops, |ops|, c, m);
    if m != i {
      assert AcceptedFor(ops, i, c) && i < m;
      NewQuote(ops, i, m);
    }
  }

  /** Two accepted calls never have the same quote. */
  lemma NewQuote(ops: seq<Op>, i: nat, j: nat)
    requires i < j < |ops| && Accepted(ops, i) && Accepted(ops, j)
    ensures Quoted(ops[i].packet) != Quoted(ops[j].packet)
  {
    StaysIndexed(ops, j, i);
    HistoryStep(ops, j, Quoted(ops[j].packet), "");
  }

  predicate Known(ops: seq<Op>, c: ClaimId) {
    exists i :: 0 <= i < |ops| && AcceptedFor(ops, i, c)
  }

  lemma KnownIsStored(ops: seq<Op>, c: ClaimId)
    ensures c in Replay(ops).packets <==> Known(ops, c)
  {
    assert ops[..|ops|] == ops;
    if c in Replay(ops).packets {
      var i := StoredBy(ops, |ops|, c);
    }
    if Known(ops, c) {
      var i :| 0 <= i < |ops| && AcceptedFor(ops, i, c);
      var m := LastFor(ops, c, i);
      StoredAsLatest(ops, |ops|, c, m);
    }
  }

  lemma {:induction false} LastFor(ops: seq<Op>, c: ClaimId, i: nat) returns (m: nat)
    requires i < |ops| && AcceptedFor(ops, i, c)
    ensures Latest(ops, |ops|, c, m)
    decreases |ops| - i
  {
    if j :| i < j < |ops| && AcceptedFor(ops, j, c) {
      m := LastFor(ops, c, j);
    } else {
      m := i;
    }
  }

  /** A call that repeats no quote is stored exactly when it contradicts known claims only; otherwise it changes
      nothing and names the first claim of its list that no accepted call was for. */
  lemma StoredIff(ops: seq<Op>, op: Op)
    requires !AnswerAfter(ops, op).Duplicate?
    ensures AnswerAfter(ops, op).Stored? <==> forall c | c in op.contradicts :: Known(ops, c)
    ensures AnswerAfter(ops, op).UnknownClaim? ==>
              ReplayAfter(ops, op) == Replay(ops)
              && exists i :: 0 <= i < |op.contradicts| && op.contradicts[i] == AnswerAfter(ops, op).claimId
                             && !Known(ops, op.contradicts[i]) && forall c | c in op.contradicts[..i] :: Known(ops, c)
    ensures AnswerAfter(ops, op).Stored? ==>
              op.packet.claimId in ReplayAfter(ops, op).packets
              && AnswerAfter(ops, op).packet == ReplayAfter(ops, op).packets[op.packet.claimId]
              && Quoted(AnswerAfter(ops, op).packet) == Quoted(op.packet)
              && (op.contradicts == [] ==> AnswerAfter(ops, op).packet == op.packet)
  {
    forall c ensures c in Replay(ops).packets <==> Known(ops, c) { KnownIsStored(ops, c); }
    assert (ops + [op])[..|ops|] == ops;
    ReplaySound(ops);
  }
}
