/** The cost ledger a model call writes to, and the ceiling that later calls of the same run are checked against. */
module CostCeiling {
  import opened Json
  import opened ModelRouting

  /** One ledger row. An absent cost or counter was not priced or not reported. */
  datatype Row = Row(runId: string, provider: string, model: string, cost: Option<real>, prompt: Option<nat>, completion: Option<nat>,
                     discarded: bool, replayOf: string)

  datatype Measure = Cost | Tokens | Calls

  datatype Ceiling = Ceiling(cost: Option<real>, tokens: Option<nat>, calls: Option<nat>)

  /** The price of a call, when there is a rate for its model and the rate can price it. */
  type Pricing = (string, string, nat, nat) -> Option<real>

  // ----- spend

  function Weight(m: Measure, r: Row): real {
    match m
    case Cost => r.cost.GetOr(0.0)
    case Tokens => (r.prompt.GetOr(0) + r.completion.GetOr(0)) as real
    case Calls => 1.0
  }

  /** What a sequence of rows adds up to for one run. */
  function Spend(rows: seq<Row>, runId: string, m: Measure): real {
    if rows == [] then 0.0
    else
      var last := rows[|rows| - 1];
      Spend(rows[..|rows| - 1], runId, m) + if last.runId == runId then Weight(m, last) else 0.0
  }

  predicate Sensible(rows: seq<Row>) {
    forall i | 0 <= i < |rows| :: rows[i].cost.GetOr(0.0) >= 0.0
  }

  lemma {:induction false} SpendAppend(a: seq<Row>, b: seq<Row>, runId: string, m: Measure)
    ensures Spend(a + b, runId, m) == Spend(a, runId, m) + Spend(b, runId, m)
    decreases |b|
  {
    if b == [] {
      assert a + b == a;
    } else {
      var n := |b| - 1;
      SpendAppend(a, b[..n], runId, m);
      assert (a + b)[..|a + b| - 1] == a + b[..n];
    }
  }

  lemma {:induction false} SpendIsNonNegative(rows: seq<Row>, runId: string, m: Measure)
    requires Sensible(rows)
    ensures Spend(rows, runId, m) >= 0.0
    decreases |rows|
  {
    if rows != [] {
      SpendIsNonNegative(rows[..|rows| - 1], runId, m);
    }
  }

  lemma SpendOne(r: Row, m: Measure)
    ensures Spend([r], r.runId, m) == Weight(m, r)
  {
    assert [r][..0] == [];
    assert Spend([], r.runId, m) == 0.0;
  }

  // ----- the ceiling check

  function Limit(c: Ceiling, m: Measure): Option<real> {
    match m
    case Cost => c.cost
    case Tokens => (match c.tokens case None => None case Some(n) => Some(n as real))
    case Calls => (match c.calls case None => None case Some(n) => Some(n as real))
  }

  predicate Reached(c: Ceiling, rows: seq<Row>, runId: string, m: Measure) {
    Limit(c, m).Some? && Spend(rows, runId, m) >= Limit(c, m).value
  }

  /** The first ceiling reached, cost before tokens before calls. */
  function Exceeded(c: Ceiling, rows: seq<Row>, runId: string): (e: Option<Measure>)
    ensures e.None? <==> forall m :: !Reached(c, rows, runId, m)
    ensures e.Some? ==> Reached(c, rows, runId, e.value)
    ensures Reached(c, rows, runId, Cost) ==> e == Some(Cost)
    ensures Reached(c, rows, runId, Tokens) ==> e == Some(Cost) || e == Some(Tokens)
  {
    if Reached(c, rows, runId, Cost) then Some(Cost)
    else if Reached(c, rows, runId, Tokens) then Some(Tokens)
    else if Reached(c, rows, runId, Calls) then Some(Calls)
    else None
  }

  /** The ceiling a call of a run is refused for, if any. A call that names no run, has no declared ceiling, or finds the
      ledger unreadable goes through unchecked. */
  function Refusal(runId: string, ceiling: Option<Ceiling>, readable: bool, rows: seq<Row>): (refusal: Option<Measure>)
    ensures refusal.Some? <==>
              runId != "" && ceiling.Some? && readable && exists m :: Reached(ceiling.value, rows, runId, m)
  {
    if runId == "" || ceiling.None? || !readable then None else Exceeded(ceiling.value, rows, runId)
  }

  // ----- rows of one call

  function Counter(o: Output, prompt: bool): Option<nat> {
    match o.usage
    case None => None
    case Some(u) => if prompt then u.prompt else u.completion
  }

  function Reported(o: Output): nat {
    Counter(o, true).GetOr(0) + Counter(o, false).GetOr(0)
  }

  /** Priced only when both counters were reported and the model has a usable rate. */
  function PriceOf(pricing: Pricing, provider: string, model: string, o: Output): Option<real> {
    if Counter(o, true).Some? && Counter(o, false).Some?
    then pricing(provider, model, Counter(o, true).value, Counter(o, false).value) else None
  }

  function RowOf(pricing: Pricing, runId: string, provider: string, model: string, o: Output, discarded: bool): Row {
    Row(runId, provider, model, PriceOf(pricing, provider, model, o), Counter(o, true), Counter(o, false), discarded, "")
  }

  predicate ReportsUsage(o: Output) {
    Counter(o, true).Some? || Counter(o, false).Some?
  }

  /** A row for each discarded attempt whose answer carried usage. */
  function DiscardedRows(pricing: Pricing, runId: string, attempts: seq<AttemptRecord>): seq<Row> {
    if attempts == [] then []
    else
      var a := attempts[|attempts| - 1];
      DiscardedRows(pricing, runId, attempts[..|attempts| - 1])
      + if a.discarded.Some? && ReportsUsage(a.discarded.value)
        then [RowOf(pricing, runId, a.provider, a.model, a.discarded.value, true)] else []
  }

  /** The rows a finished call leaves: served fresh, served as a replay of an earlier generation, or not served. */
  function RowsOf(pricing: Pricing, runId: string, result: Result): seq<Row> {
    match result
    case NoRestrictedCandidate => []
    case AllCandidatesFailed(attempts) => DiscardedRows(pricing, runId, attempts)
    case Decided(provider, model, o, attempts) =>
      if o.replayOf != "" then [Row(runId, provider, model, Some(0.0), Some(0), Some(0), false, o.replayOf)]
      else [RowOf(pricing, runId, provider, model, o, false)] + DiscardedRows(pricing, runId, attempts)
  }

  class ModelGatewayHandlers {
    var rows: seq<Row>
    const pricing: Pricing

    constructor (pricing: Pricing)
      ensures rows == [] && this.pricing == pricing
    {
      this.pricing, rows := pricing, [];
    }

    /** The refusal for a call of a run: none when no ceiling applies, when the ledger cannot be read, or while
        every declared ceiling is above the recorded spend. */
    method OverBudget(runId: string, ceiling: Option<Ceiling>, readable: bool) returns (refusal: Option<Measure>)
      ensures refusal == Refusal(runId, ceiling, readable, rows)
    {
      if runId == "" || ceiling.None? || !readable { return None; }
      var c := ceiling.value;
      if c.cost.Some? && Spend(rows, runId, Cost) >= c.cost.value {
        assert Reached(c, rows, runId, Cost);
        return Some(Cost);
      }
      if c.tokens.Some? && Spend(rows, runId, Tokens) >= c.tokens.value as real {
        assert Reached(c, rows, runId, Tokens);
        return Some(Tokens);
      }
      if c.calls.Some? && Spend(rows, runId, Calls) >= c.calls.value as real {
        assert Reached(c, rows, runId, Calls);
        return Some(Calls);
      }
      return None;
    }

    method RecordCost(result: Result, runId: string)
      requires result.Decided?
      modifies this
      ensures rows == old(rows) + RowsOf(pricing, runId, result)
    {
      var o := result.output;
      if o.replayOf != "" {
        rows := rows + [Row(runId, result.provider, result.model, Some(0.0), Some(0), Some(0), false, o.replayOf)];
        return;
      }
      rows := rows + [RowOf(pricing, runId, result.provider, result.model, o, false)];
      RecordDiscardedAttempts(result.attempts, runId);
    }

    method RecordFailure(result: Result, runId: string)
      requires !result.Decided?
      modifies this
      ensures rows == old(rows) + RowsOf(pricing, runId, result)
    {
      if result.AllCandidatesFailed? {
        RecordDiscardedAttempts(result.attempts, runId);
      }
    }

    method RecordDiscardedAttempts(attempts: seq<AttemptRecord>, runId: string)
      modifies this
      ensures rows == old(rows) + DiscardedRows(pricing, runId, attempts)
    {
      var discarded := DiscardedAttempts(attempts);
      OnlyDiscardedMatter(pricing, runId, attempts);
      for i := 0 to |discarded|
        invariant rows == old(rows) + DiscardedRows(pricing, runId, discarded[..i])
      {
        assert discarded[..i + 1][..i] == discarded[..i];
        var a := discarded[i];
        if a.discarded.Some? && ReportsUsage(a.discarded.value) {
          rows := rows + [RowOf(pricing, runId, a.provider, a.model, a.discarded.value, true)];
        }
      }
      assert discarded[..|discarded|] == discarded;
    }
  }

  lemma {:induction false} OnlyDiscardedMatter(pricing: Pricing, runId: string, attempts: seq<AttemptRecord>)
    ensures DiscardedRows(pricing, runId, Discarded(attempts)) == DiscardedRows(pricing, runId, attempts)
    decreases |attempts|
  {
    if attempts != [] {
      var n := |attempts| - 1;
      OnlyDiscardedMatter(pricing, runId, attempts[..n]);
      if attempts[n].discarded.Some? {
        assert Discarded(attempts)[..|Discarded(attempts)| - 1] == Discarded(attempts[..n]);
      } else {
        assert Discarded(attempts) == Discarded(attempts[..n]);
      }
    }
  }

  // ----- conservation of tokens

  /** The tokens a candidate's model reported having spent on this call, whether or not its answer was used. */
  function ReportedBy(providers: Providers, s: Slot): nat {
    if Invokes(providers, s) && s.reply.Answered? && s.reply.output.Some? then Reported(s.reply.output.value) else 0
  }

  function ReportedByAll(providers: Providers, tried: seq<Slot>): nat {
    if tried == [] then 0
    else ReportedByAll(providers, tried[..|tried| - 1]) + ReportedBy(providers, tried[|tried| - 1])
  }

  function DiscardedRow(pricing: Pricing, runId: string, a: AttemptRecord): seq<Row> {
    if a.discarded.Some? && ReportsUsage(a.discarded.value)
    then [RowOf(pricing, runId, a.provider, a.model, a.discarded.value, true)] else []
  }

  lemma DiscardedRowsOneMore(pricing: Pricing, runId: string, attempts: seq<AttemptRecord>, a: AttemptRecord)
    ensures DiscardedRows(pricing, runId, attempts + [a]) == DiscardedRows(pricing, runId, attempts) + DiscardedRow(pricing, runId, a)
  {
    assert (attempts + [a])[..|attempts|] == attempts;
  }

  lemma AttemptTokens(providers: Providers, pricing: Pricing, runId: string, s: Slot)
    requires !Serves(providers, s)
    ensures Spend(DiscardedRow(pricing, runId, LogOf(providers, s)), runId, Tokens) == ReportedBy(providers, s) as real
  {
    var a := LogOf(providers, s);
    if a.discarded.Some? && ReportsUsage(a.discarded.value) {
      SpendOne(RowOf(pricing, runId, a.provider, a.model, a.discarded.value, true), Tokens);
    }
  }

  lemma {:induction false} DiscardedTokens(providers: Providers, pricing: Pricing, runId: string, tried: seq<Slot>)
    requires forall i | 0 <= i < |tried| :: !Serves(providers, tried[i])
    ensures Spend(DiscardedRows(pricing, runId, Logs(providers, tried)), runId, Tokens) == ReportedByAll(providers, tried) as real
    decreases |tried|
  {
    if tried != [] {
      var n := |tried| - 1;
      var before, s := tried[..n], tried[n];
      DiscardedTokens(providers, pricing, runId, before);
      assert tried == before + [s];
      LogOneMore(providers, before, s);
      var a := LogOf(providers, s);
      DiscardedRowsOneMore(pricing, runId, Logs(providers, before), a);
      SpendAppend(DiscardedRows(pricing, runId, Logs(providers, before)), DiscardedRow(pricing, runId, a), runId, Tokens);
      AttemptTokens(providers, pricing, runId, s);
    }
  }

  lemma ServingLogIsNotDiscarded(providers: Providers, pricing: Pricing, runId: string, tried: seq<Slot>)
    requires tried != [] && Serves(providers, tried[|tried| - 1])
    ensures DiscardedRows(pricing, runId, Logs(providers, tried)) ==
            DiscardedRows(pricing, runId, Logs(providers, tried[..|tried| - 1]))
  {
    var before, last := tried[..|tried| - 1], tried[|tried| - 1];
    assert Logs(providers, tried) == Logs(providers, before) + [LogOf(providers, last)] by {
      assert tried == before + [last];
      LogOneMore(providers, before, last);
    }
    assert DiscardedRow(pricing, runId, LogOf(providers, last)) == [];
    DiscardedRowsOneMore(pricing, runId, Logs(providers, before), LogOf(providers, last));
  }

  /** The tokens of the tried candidates whose answers were thrown away. */
  function WastedTokens(providers: Providers, order: seq<Slot>, result: Result): nat
    requires result.AllCandidatesFailed? || (result.Decided? && 0 < |result.attempts| <= |order|)
  {
    if result.Decided? then ReportedByAll(providers, order[..|result.attempts| - 1]) else ReportedByAll(providers, order)
  }

  // ----- conservation of money

  /** What a tried candidate's answer costs: the rate of its model for the two counters it reported, used or not. */
  function Charge(providers: Providers, pricing: Pricing, s: Slot): real {
    if s.degraded || s.candidate.provider !in providers then 0.0
    else match s.reply
      case Answered(Some(Output(_, _, Some(Usage(Some(prompt), Some(completion))), _))) =>
        pricing(s.candidate.provider, s.candidate.model, prompt, completion).GetOr(0.0)
      case _ => 0.0
  }

  function Charges(providers: Providers, pricing: Pricing, tried: seq<Slot>): real {
    if tried == [] then 0.0
    else Charges(providers, pricing, tried[..|tried| - 1]) + Charge(providers, pricing, tried[|tried| - 1])
  }

  lemma AttemptMoney(providers: Providers, pricing: Pricing, runId: string, s: Slot)
    requires !Serves(providers, s)
    ensures Spend(DiscardedRow(pricing, runId, LogOf(providers, s)), runId, Cost) == Charge(providers, pricing, s)
  {
    var a := LogOf(providers, s);
    if a.discarded.Some? && ReportsUsage(a.discarded.value) {
      SpendOne(RowOf(pricing, runId, a.provider, a.model, a.discarded.value, true), Cost);
    }
  }

  lemma {:induction false} DiscardedMoney(providers: Providers, pricing: Pricing, runId: string, tried: seq<Slot>)
    requires forall i | 0 <= i < |tried| :: !Serves(providers, tried[i])
    ensures Spend(DiscardedRows(pricing, runId, Logs(providers, tried)), runId, Cost) == Charges(providers, pricing, tried)
    decreases |tried|
  {
    if tried != [] {
      var n := |tried| - 1;
      var before, s := tried[..n], tried[n];
      DiscardedMoney(providers, pricing, runId, before);
      assert tried == before + [s];
      LogOneMore(providers, before, s);
      var a := LogOf(providers, s);
      DiscardedRowsOneMore(pricing, runId, Logs(providers, before), a);
      SpendAppend(DiscardedRows(pricing, runId, Logs(providers, before)), DiscardedRow(pricing, runId, a), runId, Cost);
      AttemptMoney(providers, pricing, runId, s);
    }
  }

  /** The money a call records is the charge of every candidate that answered with both counters, served and discarded
      alike, unless it was served by a replay: that records nothing. */
  lemma MoneyIsConserved(providers: Providers, pricing: Pricing, runId: string, order: seq<Slot>, result: Result, invoked: seq<Slot>)
    requires Routed(providers, order, result, invoked)
    ensures Spend(RowsOf(pricing, runId, result), runId, Cost)
            == if result.Decided? && result.output.replayOf != "" then 0.0
               else Charges(providers, pricing, order[..|result.attempts|])
  {
    if result.AllCandidatesFailed? {
      DiscardedMoney(providers, pricing, runId, order);
      assert order[..|order|] == order;
    } else if result.output.replayOf != "" {
      SpendOne(Row(runId, result.provider, result.model, Some(0.0), Some(0), Some(0), false, result.output.replayOf), Cost);
    } else {
      FreshMoney(providers, pricing, runId, order, result, invoked);
    }
  }

  lemma FreshMoney(providers: Providers, pricing: Pricing, runId: string, order: seq<Slot>, result: Result, invoked: seq<Slot>)
    requires Routed(providers, order, result, invoked) && result.Decided? && result.output.replayOf == ""
    ensures Spend(RowsOf(pricing, runId, result), runId, Cost) == Charges(providers, pricing, order[..|result.attempts|])
  {
    var k := |result.attempts| - 1;
    var tried := order[..k + 1];
    assert tried[..k] == order[..k] && tried[k] == order[k];
    var own := RowOf(pricing, runId, result.provider, result.model, result.output, false);
    SpendAppend([own], DiscardedRows(pricing, runId, result.attempts), runId, Cost);
    SpendOne(own, Cost);
    ServingLogIsNotDiscarded(providers, pricing, runId, tried);
    DiscardedMoney(providers, pricing, runId, order[..k]);
  }

  /** How many of the tried candidates gave an answer that was thrown away although it reported a counter. */
  function BilledInVain(providers: Providers, tried: seq<Slot>): nat {
    if tried == [] then 0
    else
      var s := tried[|tried| - 1];
      BilledInVain(providers, tried[..|tried| - 1])
      + match s.reply
        case Answered(Some(o)) =>
          if Replies(providers, s) && !Useful(o) && o.usage.Some? && (o.usage.value.prompt.Some? || o.usage.value.completion.Some?)
          then 1 else 0
        case _ => 0
  }

  lemma AttemptCalls(providers: Providers, pricing: Pricing, runId: string, s: Slot)
    requires !Serves(providers, s)
    ensures Spend(DiscardedRow(pricing, runId, LogOf(providers, s)), runId, Calls) == BilledInVain(providers, [s]) as real
  {
    var a := LogOf(providers, s);
    ServesIffUseful(providers, s);
    assert [s][..0] == [];
    if a.discarded.Some? && ReportsUsage(a.discarded.value) {
      SpendOne(RowOf(pricing, runId, a.provider, a.model, a.discarded.value, true), Calls);
    }
  }

  lemma {:induction false} DiscardedCalls(providers: Providers, pricing: Pricing, runId: string, tried: seq<Slot>)
    requires forall i | 0 <= i < |tried| :: !Serves(providers, tried[i])
    ensures Spend(DiscardedRows(pricing, runId, Logs(providers, tried)), runId, Calls) == BilledInVain(providers, tried) as real
    decreases |tried|
  {
    if tried != [] {
      var n := |tried| - 1;
      var before, s := tried[..n], tried[n];
      DiscardedCalls(providers, pricing, runId, before);
      assert tried == before + [s];
      LogOneMore(providers, before, s);
      var a := LogOf(providers, s);
      DiscardedRowsOneMore(pricing, runId, Logs(providers, before), a);
      SpendAppend(DiscardedRows(pricing, runId, Logs(providers, before)), DiscardedRow(pricing, runId, a), runId, Calls);
      AttemptCalls(providers, pricing, runId, s);
      assert [s][..0] == [] && [s][0] == s;
    }
  }

  /** A call counts once for the answer it serves, replayed or not, and, unless it is a replay, once for every answer it
      threw away that reported a counter. */
  lemma CallsAreCounted(providers: Providers, pricing: Pricing, runId: string, order: seq<Slot>, result: Result, invoked: seq<Slot>)
    requires Routed(providers, order, result, invoked)
    ensures Spend(RowsOf(pricing, runId, result), runId, Calls)
            == if result.AllCandidatesFailed? then BilledInVain(providers, order) as real
               else if result.output.replayOf != "" then 1.0
               else 1.0 + BilledInVain(providers, order[..|result.attempts| - 1]) as real
  {
    if result.AllCandidatesFailed? {
      DiscardedCalls(providers, pricing, runId, order);
    } else if result.output.replayOf != "" {
      SpendOne(Row(runId, result.provider, result.model, Some(0.0), Some(0), Some(0), false, result.output.replayOf), Calls);
    } else {
      var k := |result.attempts| - 1;
      var tried := order[..k + 1];
      assert tried[..k] == order[..k] && tried[k] == order[k];
      var own := RowOf(pricing, runId, result.provider, result.model, result.output, false);
      SpendAppend([own], DiscardedRows(pricing, runId, result.attempts), runId, Calls);
      SpendOne(own, Calls);
      ServingLogIsNotDiscarded(providers, pricing, runId, tried);
      DiscardedCalls(providers, pricing, runId, order[..k]);
    }
  }

  /** r is the row of slot s's answer o: its candidate, the counters as reported, and whether the answer was thrown away. */
  predicate TellsOf(pricing: Pricing, runId: string, providers: Providers, s: Slot, o: Output, r: Row) {
    Replies(providers, s) && s.reply.output == Some(o)
    && r.runId == runId && r.provider == s.candidate.provider && r.model == s.candidate.model
    && r.prompt == (if o.usage.Some? then o.usage.value.prompt else None)
    && r.completion == (if o.usage.Some? then o.usage.value.completion else None)
    && (r.cost.Some? ==> r.prompt.Some? && r.completion.Some?)
    && (r.prompt.Some? && r.completion.Some? ==> r.cost == pricing(r.provider, r.model, r.prompt.value, r.completion.value))
    && (r.discarded <==> !Useful(o)) && r.replayOf == ""
  }

  lemma {:induction false} DiscardedRowTells(providers: Providers, pricing: Pricing, runId: string, tried: seq<Slot>, r: Row)
    returns (s: Slot, o: Output)
    requires forall i | 0 <= i < |tried| :: !Serves(providers, tried[i])
    requires r in DiscardedRows(pricing, runId, Logs(providers, tried))
    ensures s in tried && TellsOf(pricing, runId, providers, s, o, r)
    decreases |tried|
  {
    var n := |tried| - 1;
    var before, last := tried[..n], tried[n];
    assert tried == before + [last];
    LogOneMore(providers, before, last);
    DiscardedRowsOneMore(pricing, runId, Logs(providers, before), LogOf(providers, last));
    if r in DiscardedRow(pricing, runId, LogOf(providers, last)) {
      s, o := last, LogOf(providers, last).discarded.value;
      ServesIffUseful(providers, last);
    } else {
      s, o := DiscardedRowTells(providers, pricing, runId, before, r);
    }
  }

  /** Every row a call leaves tells of one answer it got; a replay leaves one row of nothing, under the generation it
      repeats. */
  lemma RowTells(providers: Providers, pricing: Pricing, runId: string, order: seq<Slot>, result: Result, invoked: seq<Slot>,
                 r: Row)
    returns (s: Slot, o: Output)
    requires Routed(providers, order, result, invoked) && r in RowsOf(pricing, runId, result)
    ensures result.Decided? && result.output.replayOf != "" ==>
              r == Row(runId, result.provider, result.model, Some(0.0), Some(0), Some(0), false, result.output.replayOf)
    ensures !(result.Decided? && result.output.replayOf != "") ==>
              s in order[..|result.attempts|] && TellsOf(pricing, runId, providers, s, o, r)
  {
    if result.AllCandidatesFailed? {
      s, o := DiscardedRowTells(providers, pricing, runId, order, r);
      assert order[..|order|] == order;
    } else {
      var k := |result.attempts| - 1;
      s, o := order[k], result.output;
      if o.replayOf == "" {
        var tried := order[..k + 1];
        assert tried[..k] == order[..k] && tried[k] == order[k];
        ServingLogIsNotDiscarded(providers, pricing, runId, tried);
        ServesIffUseful(providers, s);
        if r in DiscardedRows(pricing, runId, result.attempts) {
          s, o := DiscardedRowTells(providers, pricing, runId, order[..k], r);
          assert s in tried;
        }
      }
    }
  }

  /** Tokens are conserved from the providers' answers to the ledger exactly when the call was not served by a replay
      or threw nothing away before it: a call that failed records all that was reported, a call served fresh all that
      was reported plus what it served, and a replay, which used nothing new itself, records nothing at all. */
  lemma TokensConservedIff(providers: Providers, pricing: Pricing, runId: string, order: seq<Slot>, result: Result, invoked: seq<Slot>)
    requires Routed(providers, order, result, invoked)
    ensures var recorded := Spend(RowsOf(pricing, runId, result), runId, Tokens);
            var own := if result.Decided? && result.output.replayOf == "" then Reported(result.output) else 0;
            recorded == (WastedTokens(providers, order, result) + own) as real
            <==> !(result.Decided? && result.output.replayOf != "") || WastedTokens(providers, order, result) == 0
  {
    if result.AllCandidatesFailed? {
      DiscardedTokens(providers, pricing, runId, order);
    } else {
      var k := |result.attempts| - 1;
      var o := result.output;
      if o.replayOf != "" {
        SpendOne(Row(runId, result.provider, result.model, Some(0.0), Some(0), Some(0), false, o.replayOf), Tokens);
      } else {
        FreshTokens(providers, pricing, runId, order, result, invoked);
      }
    }
  }

  lemma FreshTokens(providers: Providers, pricing: Pricing, runId: string, order: seq<Slot>, result: Result, invoked: seq<Slot>)
    requires Routed(providers, order, result, invoked) && result.Decided? && result.output.replayOf == ""
    ensures Spend(RowsOf(pricing, runId, result), runId, Tokens) ==
            (WastedTokens(providers, order, result) + Reported(result.output)) as real
  {
    var k := |result.attempts| - 1;
    var row := RowOf(pricing, runId, result.provider, result.model, result.output, false);
    var tried := order[..k + 1];
    assert tried[..k] == order[..k];
    ServingLogIsNotDiscarded(providers, pricing, runId, tried);
    DiscardedTokens(providers, pricing, runId, order[..k]);
    SpendAppend([row], DiscardedRows(pricing, runId, result.attempts), runId, Tokens);
    SpendOne(row, Tokens);
  }

  // ----- tokens actually spent

  /** The tokens a candidate's answer used up on this call: a replay of an earlier generation uses none. */
  function SpentBy(providers: Providers, s: Slot): nat {
    if IsReplay(s) then 0 else ReportedBy(providers, s)
  }

  predicate IsReplay(s: Slot) {
    s.reply.Answered? && s.reply.output.Some? && s.reply.output.value.replayOf != ""
  }

  function SpentByAll(providers: Providers, tried: seq<Slot>): nat {
    if tried == [] then 0
    else SpentByAll(providers, tried[..|tried| - 1]) + SpentBy(providers, tried[|tried| - 1])
  }

  /** The tokens that replays among the answers merely repeat. */
  function RepeatedByAll(providers: Providers, tried: seq<Slot>): nat {
    if tried == [] then 0
    else RepeatedByAll(providers, tried[..|tried| - 1])
         + if IsReplay(tried[|tried| - 1]) then ReportedBy(providers, tried[|tried| - 1]) else 0
  }

  lemma {:induction false} ReportedIsSpentAndRepeated(providers: Providers, tried: seq<Slot>)
    ensures ReportedByAll(providers, tried) == SpentByAll(providers, tried) + RepeatedByAll(providers, tried)
    decreases |tried|
  {
    if tried != [] {
      ReportedIsSpentAndRepeated(providers, tried[..|tried| - 1]);
    }
  }

  /** The tried candidates whose answers were not served. */
  function Unserved(order: seq<Slot>, result: Result): seq<Slot>
    requires result.AllCandidatesFailed? || (result.Decided? && 0 < |result.attempts| <= |order|)
  {
    if result.Decided? then order[..|result.attempts| - 1] else order
  }

  /** The ledger records exactly the tokens a call spent iff nothing it threw away goes wrong: when a replay serves, no
      answer before it spent any, since none of them leaves a row; otherwise none of them was itself a replay that
      reports tokens, since such an answer is charged again. */
  lemma TokensSpentIff(providers: Providers, pricing: Pricing, runId: string, order: seq<Slot>, result: Result, invoked: seq<Slot>)
    requires Routed(providers, order, result, invoked)
    ensures var recorded := Spend(RowsOf(pricing, runId, result), runId, Tokens);
            var unserved := Unserved(order, result);
            var replayed := result.Decided? && result.output.replayOf != "";
            var own := if result.Decided? && !replayed then Reported(result.output) else 0;
            recorded == (SpentByAll(providers, unserved) + own) as real
            <==> if replayed then SpentByAll(providers, unserved) == 0 else RepeatedByAll(providers, unserved) == 0
  {
    var unserved := Unserved(order, result);
    ReportedIsSpentAndRepeated(providers, unserved);
    if result.AllCandidatesFailed? {
      DiscardedTokens(providers, pricing, runId, order);
    } else if result.output.replayOf != "" {
      SpendOne(Row(runId, result.provider, result.model, Some(0.0), Some(0), Some(0), false, result.output.replayOf), Tokens);
    } else {
      FreshTokens(providers, pricing, runId, order, result, invoked);
    }
  }

  /** An unusable answer that is itself a replay: it spent nothing and is charged ten tokens. */
  lemma DiscardedReplayIsChargedAgain(pricing: Pricing)
    ensures var replay := Output([], "a", Some(Usage(Some(10), None)), "g0");
            var order := [Slot(Candidate("p", "a", 1, true), false, Answered(Some(replay)), Return(None))];
            var providers := map["p" := Adapter(false)];
            var result := AllCandidatesFailed(Logs(providers, order));
            Routed(providers, order, result, order) && SpentByAll(providers, order) == 0
            && Spend(RowsOf(pricing, "r", result), "r", Tokens) == 10.0
  {
    var replay := Output([], "a", Some(Usage(Some(10), None)), "g0");
    var slot := Slot(Candidate("p", "a", 1, true), false, Answered(Some(replay)), Return(None));
    var order := [slot];
    var providers := map["p" := Adapter(false)];
    assert order[..0] == [];
    assert Called(providers, []) == [] && Called(providers, order) == order;
    assert SpentByAll(providers, []) == 0 && ReportedByAll(providers, []) == 0;
    assert !Serves(providers, slot);
    DiscardedTokens(providers, pricing, "r", order);
    assert ReportedByAll(providers, order) == 10;
  }

  /** A replay that follows a discarded answer: ten tokens were spent and none recorded. */
  lemma ReplayHidesDiscardedTokens(pricing: Pricing)
    ensures var wasted := Output([], "a", Some(Usage(Some(10), None)), "");
            var replay := Output([Choice("stop", "ok", 0, "")], "b", Some(Usage(Some(5), Some(5))), "g1");
            var order := [Slot(Candidate("p", "a", 1, true), false, Answered(Some(wasted)), Return(None)),
                          Slot(Candidate("p", "b", 2, true), false, Answered(Some(replay)), Return(None))];
            var providers := map["p" := Adapter(false)];
            var result := Decided("p", "b", replay, Logs(providers, order));
            Routed(providers, order, result, order)
            && ReportedByAll(providers, order[..1]) == 10
            && Spend(RowsOf(pricing, "r", result), "r", Tokens) == 0.0
  {
    var wasted := Output([], "a", Some(Usage(Some(10), None)), "");
    var replay := Output([Choice("stop", "ok", 0, "")], "b", Some(Usage(Some(5), Some(5))), "g1");
    var first := Slot(Candidate("p", "a", 1, true), false, Answered(Some(wasted)), Return(None));
    var second := Slot(Candidate("p", "b", 2, true), false, Answered(Some(replay)), Return(None));
    var order := [first, second];
    var providers := map["p" := Adapter(false)];
    assert replay.choices[0].content[0] == 'o' && !IsSpace('o') && !Blank(replay.choices[0].content);
    assert Serves(providers, second) && !Serves(providers, first);
    assert order[..2] == order && order[..1] == [first] && [first][..0] == [];
    assert Called(providers, []) == [] && Called(providers, [first]) == [first];
    assert Called(providers, order) == order;
    assert ReportedByAll(providers, []) == 0;
    SpendOne(Row("r", "p", "b", Some(0.0), Some(0), Some(0), false, "g1"), Tokens);
  }

  ghost predicate NoNegativeRate(pricing: Pricing) {
    forall p, m, i, o :: pricing(p, m, i, o).GetOr(0.0) >= 0.0
  }

  lemma {:induction false} DiscardedRowsAreSensible(pricing: Pricing, runId: string, attempts: seq<AttemptRecord>)
    requires NoNegativeRate(pricing)
    ensures Sensible(DiscardedRows(pricing, runId, attempts)) && OfRun(DiscardedRows(pricing, runId, attempts), runId)
    decreases |attempts|
  {
    if attempts != [] {
      DiscardedRowsAreSensible(pricing, runId, attempts[..|attempts| - 1]);
    }
  }

  /** With no negative rate, a call writes only rows of its own run, none of negative cost. */
  lemma RowsAreSensible(pricing: Pricing, runId: string, result: Result)
    requires NoNegativeRate(pricing)
    ensures Sensible(RowsOf(pricing, runId, result)) && OfRun(RowsOf(pricing, runId, result), runId)
  {
    if !result.NoRestrictedCandidate? {
      DiscardedRowsAreSensible(pricing, runId, result.attempts);
    }
  }

  // ----- whole runs

  predicate OfRun(rows: seq<Row>, runId: string) {
    forall i | 0 <= i < |rows| :: rows[i].runId == runId
  }

  /** One run as concurrent requests see it: the ledger, the rows each admitted request has still to write, and those
      same lists as they stood right after the latest admission. */
  datatype Flow = Flow(rows: seq<Row>, pending: seq<seq<Row>>, snapshot: seq<seq<Row>>)

  /** A run named by its calls, with the ceiling its manifest declares and the rates in force. */
  datatype CappedRun = CappedRun(runId: string, ceiling: Ceiling, pricing: Pricing)

  ghost predicate Governed(run: CappedRun) {
    run.runId != "" && NoNegativeRate(run.pricing)
  }

  /** A request asks to be admitted, with the result it will turn out to have; an admitted one writes its next row, or
      loses it to a ledger error; another run's request writes a row. */
  datatype FlowEvent =
    | Ask(result: Result, readable: bool)
    | Write(at: nat)
    | Lose(at: nat)
    | Elsewhere(row: Row)

  /** The rows a call with this result records. */
  function PlanOf(run: CappedRun, result: Result): seq<Row> {
    RowsOf(run.pricing, run.runId, result)
  }

  function FlowStep(f: Flow, e: FlowEvent, run: CappedRun): Flow {
    match e
    case Ask(result, readable) =>
      if Refusal(run.runId, Some(run.ceiling), readable, f.rows).Some? then f
      else
        var pending := f.pending + [PlanOf(run, result)];
        Flow(f.rows, pending, pending)
    case Write(at) =>
      if at < |f.pending| && f.pending[at] != []
      then Flow(f.rows + [f.pending[at][0]], f.pending[at := f.pending[at][1..]], f.snapshot) else f
    case Lose(at) =>
      if at < |f.pending| && f.pending[at] != [] then Flow(f.rows, f.pending[at := f.pending[at][1..]], f.snapshot) else f
    case Elsewhere(row) => Flow(f.rows + [row], f.pending, f.snapshot)
  }

  function FlowAfter(f: Flow, events: seq<FlowEvent>, run: CappedRun): Flow {
    if events == [] then f
    else FlowStep(FlowAfter(f, events[..|events| - 1], run), events[|events| - 1], run)
  }

  predicate SensibleEvent(e: FlowEvent, run: CappedRun) {
    match e
    case Ask(_, readable) => readable
    case Elsewhere(row) => row.runId != run.runId && row.cost.GetOr(0.0) >= 0.0
    case _ => true
  }

  predicate SensibleEvents(events: seq<FlowEvent>, run: CappedRun) {
    forall i | 0 <= i < |events| :: SensibleEvent(events[i], run)
  }

  predicate SensibleFlow(f: Flow, run: CappedRun) {
    Sensible(f.rows) && forall i | 0 <= i < |f.pending| :: Sensible(f.pending[i]) && OfRun(f.pending[i], run.runId)
  }

  function Pending(pending: seq<seq<Row>>, runId: string, m: Measure): real {
    if pending == [] then 0.0
    else Pending(pending[..|pending| - 1], runId, m) + Spend(pending[|pending| - 1], runId, m)
  }

  lemma {:induction false} PendingUpdate(pending: seq<seq<Row>>, at: nat, rows: seq<Row>, runId: string, m: Measure)
    requires at < |pending|
    ensures Pending(pending[at := rows], runId, m) ==
            Pending(pending, runId, m) - Spend(pending[at], runId, m) + Spend(rows, runId, m)
    decreases |pending|
  {
    var n := |pending| - 1;
    if at == n {
      assert pending[at := rows][..n] == pending[..n];
    } else {
      assert pending[at := rows][..n] == pending[..n][at := rows];
      PendingUpdate(pending[..n], at, rows, runId, m);
    }
  }

  lemma {:induction false} PendingIsNonNegative(pending: seq<seq<Row>>, runId: string, m: Measure)
    requires forall i | 0 <= i < |pending| :: Sensible(pending[i])
    ensures Pending(pending, runId, m) >= 0.0
    decreases |pending|
  {
    if pending != [] {
      PendingIsNonNegative(pending[..|pending| - 1], runId, m);
      SpendIsNonNegative(pending[|pending| - 1], runId, m);
    }
  }

  lemma StepKeepsSensible(f: Flow, e: FlowEvent, run: CappedRun)
    requires Governed(run) && SensibleFlow(f, run) && SensibleEvent(e, run)
    ensures SensibleFlow(FlowStep(f, e, run), run)
  {
    if e.Ask? {
      RowsAreSensible(run.pricing, run.runId, e.result);
    }
  }

  /** What is recorded and still to be recorded: an admission adds its plan, a write moves weight, a loss sheds some. */
  function Committed(f: Flow, runId: string, m: Measure): real {
    Spend(f.rows, runId, m) + Pending(f.pending, runId, m)
  }

  lemma TakeFirst(f: Flow, at: nat, run: CappedRun, m: Measure)
    requires SensibleFlow(f, run) && at < |f.pending| && f.pending[at] != []
    ensures Pending(f.pending[at := f.pending[at][1..]], run.runId, m) == Pending(f.pending, run.runId, m) - Weight(m, f.pending[at][0])
    ensures Spend(f.rows + [f.pending[at][0]], run.runId, m) == Spend(f.rows, run.runId, m) + Weight(m, f.pending[at][0])
    ensures Weight(m, f.pending[at][0]) >= 0.0
  {
    var rows := f.pending[at];
    assert Sensible(rows) && rows[0].runId == run.runId;
    PendingUpdate(f.pending, at, rows[1..], run.runId, m);
    assert rows == [rows[0]] + rows[1..];
    SpendAppend([rows[0]], rows[1..], run.runId, m);
    SpendAppend(f.rows, [rows[0]], run.runId, m);
    SpendOne(rows[0], m);
  }

  lemma StepCommits(f: Flow, e: FlowEvent, run: CappedRun, m: Measure)
    requires Governed(run) && SensibleFlow(f, run) && SensibleEvent(e, run)
    ensures var next := FlowStep(f, e, run);
            Spend(next.rows, run.runId, m) >= Spend(f.rows, run.runId, m)
            && ((next.snapshot == f.snapshot && |next.pending| == |f.pending| && Committed(next, run.runId, m) <= Committed(f, run.runId, m))
                || (e.Ask? && !Reached(run.ceiling, f.rows, run.runId, m) && next.rows == f.rows
                    && next.pending == next.snapshot == f.pending + [PlanOf(run, e.result)]))
  {
    match e
    case Ask(_, _) =>
    case Write(at) => if at < |f.pending| && f.pending[at] != [] { TakeFirst(f, at, run, m); }
    case Lose(at) => if at < |f.pending| && f.pending[at] != [] { TakeFirst(f, at, run, m); }
    case Elsewhere(row) =>
      SpendAppend(f.rows, [row], run.runId, m);
      assert [row][..0] == [] && Spend([], run.runId, m) == 0.0;
      assert Spend([row], run.runId, m) == 0.0;
  }

  lemma {:induction false} EventsKeepSensible(f: Flow, events: seq<FlowEvent>, run: CappedRun)
    requires Governed(run) && SensibleFlow(f, run) && SensibleEvents(events, run)
    ensures SensibleFlow(FlowAfter(f, events, run), run)
    decreases |events|
  {
    if events != [] {
      var n := |events| - 1;
      EventsKeepSensible(f, events[..n], run);
      StepKeepsSensible(FlowAfter(f, events[..n], run), events[n], run);
    }
  }

  const START := Flow([], [], [])

  /** However requests of a run overlap, and whatever rows are lost, what is recorded and still owed stays below a
      declared ceiling plus what was in flight just after the latest admission. */
  lemma {:induction false} CeilingOverEveryRun(events: seq<FlowEvent>, run: CappedRun, m: Measure)
    requires Governed(run) && SensibleEvents(events, run) && Limit(run.ceiling, m).Some?
    ensures var f := FlowAfter(START, events, run);
            if f.snapshot == [] then Committed(f, run.runId, m) <= 0.0
            else Spend(f.rows, run.runId, m) <= Committed(f, run.runId, m) < Limit(run.ceiling, m).value + Pending(f.snapshot, run.runId, m)
    decreases |events|
  {
    if events != [] {
      var n := |events| - 1;
      var f := FlowAfter(START, events[..n], run);
      CeilingOverEveryRun(events[..n], run, m);
      EventsKeepSensible(START, events[..n], run);
      StepKeepsSensible(f, events[n], run);
      StepCommits(f, events[n], run, m);
      PendingIsNonNegative(FlowStep(f, events[n], run).pending, run.runId, m);
    }
  }

  /** Requests of the run come one at a time: each is asked when every earlier one has written its rows. */
  predicate Sequential(events: seq<FlowEvent>, run: CappedRun) {
    forall i | 0 <= i < |events| && events[i].Ask? :: Drained(FlowAfter(START, events[..i], run))
  }

  predicate Drained(f: Flow) {
    forall i | 0 <= i < |f.pending| :: f.pending[i] == []
  }

  lemma {:induction false} DrainedOwesNothing(pending: seq<seq<Row>>, runId: string, m: Measure)
    requires forall i | 0 <= i < |pending| :: pending[i] == []
    ensures Pending(pending, runId, m) == 0.0
    decreases |pending|
  {
    if pending != [] {
      DrainedOwesNothing(pending[..|pending| - 1], runId, m);
    }
  }

  lemma SequentialPrefix(events: seq<FlowEvent>, run: CappedRun)
    requires Sequential(events, run) && events != []
    ensures Sequential(events[..|events| - 1], run)
    ensures events[|events| - 1].Ask? ==> Drained(FlowAfter(START, events[..|events| - 1], run))
  {
    var before := events[..|events| - 1];
    forall i | 0 <= i < |before| && before[i].Ask?
      ensures Drained(FlowAfter(START, before[..i], run))
    {
      assert before[..i] == events[..i] && events[i].Ask?;
    }
  }

  lemma SnapshotAfter(f: Flow, e: FlowEvent, run: CappedRun, m: Measure)
    requires e.Ask? ==> Drained(f)
    ensures var s := FlowStep(f, e, run).snapshot;
            s == f.snapshot || (s != [] && Pending(s, run.runId, m) == Spend(s[|s| - 1], run.runId, m))
  {
    if e.Ask? {
      DrainedOwesNothing(f.pending, run.runId, m);
      assert (f.pending + [PlanOf(run, e.result)])[..|f.pending|] == f.pending;
    }
  }

  lemma {:induction false} SequentialLoad(events: seq<FlowEvent>, run: CappedRun, m: Measure)
    requires Sequential(events, run)
    ensures var s := FlowAfter(START, events, run).snapshot;
            s != [] ==> Pending(s, run.runId, m) == Spend(s[|s| - 1], run.runId, m)
    decreases |events|
  {
    if events != [] {
      var n := |events| - 1;
      SequentialPrefix(events, run);
      SequentialLoad(events[..n], run, m);
      SnapshotAfter(FlowAfter(START, events[..n], run), events[n], run, m);
    }
  }

  /** One request at a time, a run never passes a ceiling by as much as its last admitted request cost. */
  lemma SequentialOvershoot(events: seq<FlowEvent>, run: CappedRun, m: Measure)
    requires Governed(run) && SensibleEvents(events, run) && Limit(run.ceiling, m).Some? && Sequential(events, run)
    ensures var f := FlowAfter(START, events, run);
            f.snapshot != [] ==>
              Spend(f.rows, run.runId, m) < Limit(run.ceiling, m).value + Spend(f.snapshot[|f.snapshot| - 1], run.runId, m)
  {
    CeilingOverEveryRun(events, run, m);
    SequentialLoad(events, run, m);
  }

  function Tens(): Result {
    Decided("p", "a", Output([], "a", Some(Usage(Some(10), None)), ""), [])
  }

  function TenTokens(pricing: Pricing): CappedRun {
    CappedRun("r", Ceiling(None, Some(1), None), pricing)
  }

  function TensRow(pricing: Pricing): Row {
    RowOf(pricing, "r", "p", "a", Tens().output, false)
  }

  lemma TensPlan(pricing: Pricing)
    ensures PlanOf(TenTokens(pricing), Tens()) == [TensRow(pricing)]
    ensures Spend([], "r", Tokens) == 0.0 && Spend([TensRow(pricing)], "r", Tokens) == 10.0
    ensures Spend([TensRow(pricing), TensRow(pricing)], "r", Tokens) == 20.0
  {
    var row := TensRow(pricing);
    assert DiscardedRows(pricing, "r", []) == [];
    SpendOne(row, Tokens);
    assert [row] + [row] == [row, row];
    SpendAppend([row], [row], "r", Tokens);
  }

  lemma Admits(f: Flow, pricing: Pricing)
    requires f.rows == []
    ensures var more := f.pending + [[TensRow(pricing)]]; FlowStep(f, Ask(Tens(), true), TenTokens(pricing)) == Flow([], more, more)
  {
    TensPlan(pricing);
    assert Spend(f.rows, "r", Tokens) == 0.0;
  }

  lemma BothAdmitted(pricing: Pricing)
    ensures var row := TensRow(pricing);
            FlowAfter(START, [Ask(Tens(), true), Ask(Tens(), true)], TenTokens(pricing)) == Flow([], [[row], [row]], [[row], [row]])
  {
    var run, row, ask := TenTokens(pricing), TensRow(pricing), Ask(Tens(), true);
    assert FlowAfter(START, [ask], run) == Flow([], [[row]], [[row]]) by {
      Admits(START, pricing);
      FlowOneMore(START, [], ask, run);
      assert [] + [ask] == [ask];
    }
    Admits(Flow([], [[row]], [[row]]), pricing);
    FlowOneMore(START, [ask], ask, run);
    assert [ask] + [ask] == [ask, ask];
  }

  lemma BothWritten(f: Flow, run: CappedRun, row: Row)
    requires f == Flow([], [[row], [row]], f.snapshot)
    ensures FlowStep(FlowStep(f, Write(0), run), Write(1), run).rows == [row, row]
  {
    assert [row][1..] == [];
    assert FlowStep(f, Write(0), run) == Flow([row], [[], [row]], f.snapshot);
  }

  /** Two overlapping requests of ten tokens each, both admitted under a ceiling of one token: the overshoot exceeds what
      one call costs. */
  lemma OverlappingOvershoot(pricing: Pricing)
    ensures var run := TenTokens(pricing);
            var f := FlowAfter(START, [Ask(Tens(), true), Ask(Tens(), true), Write(0), Write(1)], run);
            Spend(f.rows, "r", Tokens) == 20.0
            && Spend(f.rows, "r", Tokens) > Limit(run.ceiling, Tokens).value + Spend(PlanOf(run, Tens()), "r", Tokens)
  {
    var run, row, ask := TenTokens(pricing), TensRow(pricing), Ask(Tens(), true);
    var f := FlowAfter(START, [ask, ask], run);
    TensPlan(pricing);
    BothAdmitted(pricing);
    BothWritten(f, run, row);
    FlowOneMore(START, [ask, ask], Write(0), run);
    FlowOneMore(START, [ask, ask] + [Write(0)], Write(1), run);
    assert [ask, ask] + [Write(0)] + [Write(1)] == [ask, ask, Write(0), Write(1)];
  }

  lemma FlowOneMore(f: Flow, events: seq<FlowEvent>, e: FlowEvent, run: CappedRun)
    ensures FlowAfter(f, events + [e], run) == FlowStep(FlowAfter(f, events, run), e, run)
  {
    assert (events + [e])[..|events|] == events;
  }

  /** A ceiling once reached stays reached: nothing more is admitted, and the run can only finish what it owes. */
  lemma {:induction false} ReachedIsFinal(f: Flow, events: seq<FlowEvent>, run: CappedRun, m: Measure)
    requires Governed(run) && SensibleFlow(f, run) && SensibleEvents(events, run) && Reached(run.ceiling, f.rows, run.runId, m)
    ensures var after := FlowAfter(f, events, run);
            Reached(run.ceiling, after.rows, run.runId, m) && after.snapshot == f.snapshot && |after.pending| == |f.pending|
            && Spend(after.rows, run.runId, m) <= Committed(after, run.runId, m) <= Committed(f, run.runId, m)
    decreases |events|
  {
    if events == [] {
      PendingIsNonNegative(f.pending, run.runId, m);
    } else {
      var n := |events| - 1;
      var before := FlowAfter(f, events[..n], run);
      ReachedIsFinal(f, events[..n], run, m);
      EventsKeepSensible(f, events[..n], run);
      StepKeepsSensible(before, events[n], run);
      StepCommits(before, events[n], run, m);
      PendingIsNonNegative(FlowStep(before, events[n], run).pending, run.runId, m);
    }
  }
}
