/** The model gateway's cascade: candidates in priority order, each tried until one gives a usable answer. */
module ModelRouting {
  import opened Json

  datatype Candidate = Candidate(provider: string, model: string, priority: int, inNetwork: bool)

  /** Token counters a provider may or may not have reported. */
  datatype Usage = Usage(prompt: Option<nat>, completion: Option<nat>)

  /** A response choice; a field the provider left out reads as "" or no calls. */
  datatype Choice = Choice(finishReason: string, content: string, toolCalls: nat, reasoning: string)

  /** A provider's answer; `replayOf` names the earlier generation an idempotent replay repeats, or is "". */
  datatype Output = Output(choices: seq<Choice>, model: string, usage: Option<Usage>, replayOf: string)

  datatype Reply = Errored(message: string) | Answered(output: Option<Output>)

  datatype Chunk = Chunk(delta: string, finishReason: string, model: string, usage: Option<Usage>)

  /** Everything a streaming adapter may do: emit a chunk and go on according to whether the caller took it, or
      return. */
  datatype Script = Return(error: Option<string>) | Emit(chunk: Chunk, accepted: Script, refused: Script)

  /** A configured candidate with what would happen were it tried: the quality gate's verdict and the provider's
      answer, whole or streamed. */
  datatype Slot = Slot(candidate: Candidate, degraded: bool, reply: Reply, script: Script)

  datatype AttemptRecord = AttemptRecord(provider: string, model: string, error: string, cause: Option<string>, discarded: Option<Output>)

  datatype Result =
    | Decided(provider: string, model: string, output: Output, attempts: seq<AttemptRecord>)
    | AllCandidatesFailed(attempts: seq<AttemptRecord>)
    | NoRestrictedCandidate

  /** A registered provider, and whether it can stream. */
  datatype Adapter = Adapter(streams: bool)

  // ----- usable answers

  /** Unicode white space, as strings.TrimSpace removes it. */
  predicate IsSpace(c: char) {
    c in "\t\n\U{000B}\U{000C}\r \U{0085}\U{00A0}\U{1680}\U{2028}\U{2029}\U{202F}\U{205F}\U{3000}"
    || '\U{2000}' <= c <= '\U{200A}'
  }

  predicate Blank(s: string) {
    forall c | c in s :: IsSpace(c)
  }

  /** Why an answer is unusable, or "" when it is fine. */
  function EmptyAnswer(output: Option<Output>): string {
    if output.None? || output.value.choices == [] then "provider returned no choices"
    else
      var choice := output.value.choices[0];
      if choice.finishReason == "length" || !Blank(choice.content) || choice.toolCalls > 0 then ""
      else if !Blank(choice.reasoning) then "provider returned only reasoning and no answer"
      else "provider returned empty content"
  }

  datatype Outcome =
    | Degraded
    | Unregistered
    | Failed(message: string)
    | Unusable(reason: string, output: Option<Output>)
    | Usable(answer: Output)

  type Providers = map<string, Adapter>

  function OutcomeOf(providers: Providers, s: Slot): (o: Outcome)
    ensures o.Usable? ==> s.reply.Answered? && s.reply.output == Some(o.answer)
  {
    if s.degraded then Degraded
    else if s.candidate.provider !in providers then Unregistered
    else match s.reply
      case Errored(message) => Failed(message)
      case Answered(output) =>
        if EmptyAnswer(output) != "" then Unusable(EmptyAnswer(output), output) else Usable(output.value)
  }

  predicate Serves(providers: Providers, s: Slot) {
    OutcomeOf(providers, s).Usable?
  }

  predicate Invokes(providers: Providers, s: Slot) {
    !s.degraded && s.candidate.provider in providers
  }

  /** The one line an attempt leaves in the log. */
  function LogOf(providers: Providers, s: Slot): AttemptRecord {
    var p, m := s.candidate.provider, s.candidate.model;
    match OutcomeOf(providers, s)
    case Degraded => AttemptRecord(p, m, "skipped: quality score degraded below threshold", None, None)
    case Unregistered => AttemptRecord(p, m, "provider not registered", None, None)
    case Failed(message) => AttemptRecord(p, m, message, Some(message), None)
    case Unusable(reason, output) => AttemptRecord(p, m, reason, None, output)
    case Usable(_) => AttemptRecord(p, m, "", None, None)
  }

  // ----- routing order

  /** A sequence arranged by nondecreasing priority: what an unstable sort guarantees of its result. */
  ghost predicate Ordered(order: seq<Slot>, pool: seq<Slot>) {
    multiset(order) == multiset(pool) && ByPriority(order)
  }

  predicate ByPriority(order: seq<Slot>) {
    forall i, j | 0 <= i < j < |order| :: order[i].candidate.priority <= order[j].candidate.priority
  }

  predicate Allowed(s: Slot, sensitivity: string) {
    sensitivity == "restricted" ==> s.candidate.inNetwork
  }

  function Pool(slots: seq<Slot>, sensitivity: string): seq<Slot> {
    if slots == [] then []
    else Pool(slots[..|slots| - 1], sensitivity)
         + if Allowed(slots[|slots| - 1], sensitivity) then [slots[|slots| - 1]] else []
  }

  lemma {:induction false} PoolIsAllowed(slots: seq<Slot>, sensitivity: string, s: Slot)
    ensures s in Pool(slots, sensitivity) <==> s in slots && Allowed(s, sensitivity)
    decreases |slots|
  {
    if slots != [] {
      PoolIsAllowed(slots[..|slots| - 1], sensitivity, s);
      assert slots == slots[..|slots| - 1] + [slots[|slots| - 1]];
    }
  }

  lemma {:induction false} UnrestrictedPool(slots: seq<Slot>, sensitivity: string)
    requires sensitivity != "restricted"
    ensures Pool(slots, sensitivity) == slots
    decreases |slots|
  {
    if slots != [] {
      UnrestrictedPool(slots[..|slots| - 1], sensitivity);
    }
  }

  /** Narrows to the candidates declared in-network when the data is restricted; none left is an error. */
  method RestrictPool(slots: seq<Slot>, sensitivity: string) returns (pool: seq<Slot>, ok: bool)
    ensures ok <==> sensitivity == "restricted" ==> exists s :: s in slots && s.candidate.inNetwork
    ensures ok ==> pool == Pool(slots, sensitivity)
    ensures !ok ==> pool == []
  {
    if sensitivity != "restricted" {
      UnrestrictedPool(slots, sensitivity);
      return slots, true;
    }
    pool := [];
    for i := 0 to |slots|
      invariant pool == Pool(slots[..i], sensitivity)
    {
      assert slots[..i + 1][..i] == slots[..i];
      if slots[i].candidate.inNetwork {
        pool := pool + [slots[i]];
      }
    }
    assert slots[..|slots|] == slots;
    ok := pool != [];
    if ok {
      PoolIsAllowed(slots, sensitivity, pool[0]);
    } else {
      forall s ensures !(s in slots && s.candidate.inNetwork) {
        PoolIsAllowed(slots, sensitivity, s);
      }
    }
  }

  /** Some arrangement by priority; candidates of equal priority may come out in any order. */
  method SortByPriority(pool: seq<Slot>) returns (order: seq<Slot>)
    ensures Ordered(order, pool)
  {
    order := [];
    for i := 0 to |pool|
      invariant Ordered(order, pool[..i])
    {
      order := Insert(order, pool[i]);
      assert pool[..i + 1] == pool[..i] + [pool[i]];
    }
    assert pool[..|pool|] == pool;
  }

  method Insert(order: seq<Slot>, s: Slot) returns (longer: seq<Slot>)
    requires ByPriority(order)
    ensures Ordered(longer, order + [s])
  {
    var k := |order|;
    while k > 0 && order[k - 1].candidate.priority > s.candidate.priority
      invariant 0 <= k <= |order|
      invariant forall i | k <= i < |order| :: order[i].candidate.priority > s.candidate.priority
    {
      k := k - 1;
    }
    longer := order[..k] + [s] + order[k..];
    InsertedElements(order, k, s);
    InsertKeepsOrder(order, k, s);
  }

  lemma InsertKeepsOrder(order: seq<Slot>, k: nat, s: Slot)
    requires ByPriority(order) && k <= |order|
    requires k > 0 ==> order[k - 1].candidate.priority <= s.candidate.priority
    requires k < |order| ==> s.candidate.priority <= order[k].candidate.priority
    ensures ByPriority(order[..k] + [s] + order[k..])
  {
    var longer := order[..k] + [s] + order[k..];
    forall i, j | 0 <= i < j < |longer|
      ensures longer[i].candidate.priority <= longer[j].candidate.priority
    {
      if i < k {
        assert longer[i] == order[i];
        assert order[i].candidate.priority <= order[k - 1].candidate.priority;
      }
      if j > k {
        assert longer[j] == order[j - 1];
        assert order[k].candidate.priority <= order[j - 1].candidate.priority;
      }
    }
  }

  lemma InsertedElements<T>(a: seq<T>, k: nat, x: T)
    requires k <= |a|
    ensures multiset(a[..k] + [x] + a[k..]) == multiset(a + [x])
  {
    assert a == a[..k] + a[k..];
  }

  lemma SameElements<T>(a: seq<T>, b: seq<T>, x: T)
    requires multiset(a) == multiset(b)
    ensures x in a <==> x in b
  {
    assert x in a <==> x in multiset(a);
    assert x in b <==> x in multiset(b);
  }

  // ----- the cascade

  ghost predicate FirstServing(providers: Providers, order: seq<Slot>, k: nat) {
    k <= |order| && (k < |order| ==> Serves(providers, order[k]))
    && forall i | 0 <= i < k :: !Serves(providers, order[i])
  }

  function Logs(providers: Providers, tried: seq<Slot>): seq<AttemptRecord> {
    seq(|tried|, i requires 0 <= i < |tried| => LogOf(providers, tried[i]))
  }

  class Gateway {
    var providers: map<string, Adapter>

    constructor ()
      ensures providers == map[]
    {
      providers := map[];
    }

    method RegisterProvider(name: string, adapter: Adapter)
      modifies this
      ensures providers == old(providers)[name := adapter]
    {
      providers := providers[name := adapter];
    }

    /** Serves the call from the first candidate of a priority order that answers usably. `invoked` lists the
        candidates whose provider was called, in order. */
    method Decide(slots: seq<Slot>, sensitivity: string) returns (result: Result, invoked: seq<Slot>, ghost order: seq<Slot>)
      ensures result.NoRestrictedCandidate? <==>
                sensitivity == "restricted" && forall s | s in slots :: !s.candidate.inNetwork
      ensures result.NoRestrictedCandidate? ==> invoked == []
      ensures !result.NoRestrictedCandidate? ==> Ordered(order, Pool(slots, sensitivity)) && Routed(providers, order, result, invoked)
    {
      order, invoked := [], [];
      var pool, ok := RestrictPool(slots, sensitivity);
      if !ok { return NoRestrictedCandidate, [], []; }
      var sorted := SortByPriority(pool);
      result, invoked := Cascade(sorted);
      order := sorted;
    }

    method Cascade(sorted: seq<Slot>) returns (result: Result, invoked: seq<Slot>)
      ensures Routed(providers, sorted, result, invoked)
    {
      var attempts: seq<AttemptRecord> := [];
      invoked := [];
      for k := 0 to |sorted|
        invariant forall i | 0 <= i < k :: !Serves(providers, sorted[i])
        invariant attempts == Logs(providers, sorted[..k])
        invariant invoked == Called(providers, sorted[..k])
      {
        var s := sorted[k];
        TriedOneMore(providers, sorted, k);
        var attempt, called, answer := Try(s);
        attempts := attempts + [attempt];
        if called {
          invoked := invoked + [s];
        }
        if answer.Some? {
          result := Decided(s.candidate.provider, s.candidate.model, answer.value, attempts);
          assert |attempts| == k + 1;
          return;
        }
      }
      assert sorted[..|sorted|] == sorted;
      result := AllCandidatesFailed(attempts);
    }

    method Try(s: Slot) returns (attempt: AttemptRecord, called: bool, answer: Option<Output>)
      ensures attempt == LogOf(providers, s) && called == Invokes(providers, s)
      ensures answer.Some? == Serves(providers, s) && (answer.Some? ==> s.reply == Answered(answer))
    {
      var provider, model := s.candidate.provider, s.candidate.model;
      if s.degraded {
        return AttemptRecord(provider, model, "skipped: quality score degraded below threshold", None, None), false, None;
      }
      if provider !in providers {
        return AttemptRecord(provider, model, "provider not registered", None, None), false, None;
      }
      match s.reply
      case Errored(message) =>
        return AttemptRecord(provider, model, message, Some(message), None), true, None;
      case Answered(output) =>
        var unusable := EmptyAnswer(output);
        if unusable != "" {
          return AttemptRecord(provider, model, unusable, None, output), true, None;
        }
        return AttemptRecord(provider, model, "", None, None), true, output;
    }
  }

  /** The result comes from the first candidate that serves, with one attempt logged for it and each before it; with
      none, every candidate's attempt is logged. */
  ghost predicate Routed(providers: Providers, order: seq<Slot>, result: Result, invoked: seq<Slot>) {
    match result
    case NoRestrictedCandidate => false
    case AllCandidatesFailed(attempts) =>
      FirstServing(providers, order, |order|) && attempts == Logs(providers, order)
      && invoked == Called(providers, order)
    case Decided(provider, model, output, attempts) =>
      var k := |attempts| - 1;
      0 <= k < |order| && FirstServing(providers, order, k) && attempts == Logs(providers, order[..k + 1])
      && invoked == Called(providers, order[..k + 1])
      && provider == order[k].candidate.provider && model == order[k].candidate.model
      && order[k].reply == Answered(Some(output))
  }

  /** The providers called over the tried slots: every tried slot neither degraded nor unregistered, in order. */
  function Called(providers: Providers, tried: seq<Slot>): seq<Slot> {
    if tried == [] then []
    else Called(providers, tried[..|tried| - 1])
         + if Invokes(providers, tried[|tried| - 1]) then [tried[|tried| - 1]] else []
  }

  lemma TriedOneMore(providers: Providers, order: seq<Slot>, k: nat)
    requires k < |order|
    ensures Logs(providers, order[..k + 1]) == Logs(providers, order[..k]) + [LogOf(providers, order[k])]
    ensures Called(providers, order[..k + 1]) ==
            Called(providers, order[..k]) + if Invokes(providers, order[k]) then [order[k]] else []
  {
    assert order[..k + 1] == order[..k] + [order[k]];
    LogOneMore(providers, order[..k], order[k]);
    CallOneMore(providers, order[..k], order[k]);
  }

  lemma CallOneMore(providers: Providers, tried: seq<Slot>, s: Slot)
    ensures Called(providers, tried + [s]) == Called(providers, tried) + if Invokes(providers, s) then [s] else []
  {
    assert (tried + [s])[..|tried|] == tried;
  }

  lemma LogOneMore(providers: Providers, tried: seq<Slot>, s: Slot)
    ensures Logs(providers, tried + [s]) == Logs(providers, tried) + [LogOf(providers, s)]
  {
  }

  // ----- what a caller may rely on

  /** A call is served exactly when some allowed candidate can serve it, and by one of least priority among them. */
  lemma ServedIsBest(providers: Providers, slots: seq<Slot>, sensitivity: string, order: seq<Slot>, k: nat)
    requires Ordered(order, Pool(slots, sensitivity)) && FirstServing(providers, order, k)
    ensures k < |order| <==> exists s :: s in slots && Allowed(s, sensitivity) && Serves(providers, s)
    ensures k < |order| ==>
              order[k] in slots && Allowed(order[k], sensitivity)
              && forall s | s in slots && Allowed(s, sensitivity) && Serves(providers, s) ::
                   order[k].candidate.priority <= s.candidate.priority
  {
    forall s ensures s in order <==> s in slots && Allowed(s, sensitivity) {
      SameElements(order, Pool(slots, sensitivity), s);
      PoolIsAllowed(slots, sensitivity, s);
    }
    if k < |order| {
      assert order[k] in order;
    }
    forall s | s in slots && Allowed(s, sensitivity) && Serves(providers, s)
      ensures k < |order| && order[k].candidate.priority <= s.candidate.priority
    {
      var i :| 0 <= i < |order| && order[i] == s;
      assert i >= k;
    }
  }

  /** Restricted data reaches in-network providers only. */
  lemma {:induction false} RestrictedStaysInside(providers: Providers, slots: seq<Slot>, order: seq<Slot>, k: nat, s: Slot)
    requires Ordered(order, Pool(slots, "restricted")) && k <= |order|
    requires s in Called(providers, order[..k])
    ensures s.candidate.inNetwork && s in slots && Invokes(providers, s)
    decreases k
  {
    assert order[..k][..k - 1] == order[..k - 1];
    if s == order[k - 1] && Invokes(providers, s) {
      assert s in order;
      SameElements(order, Pool(slots, "restricted"), s);
      PoolIsAllowed(slots, "restricted", s);
    } else {
      RestrictedStaysInside(providers, slots, order, k - 1, s);
    }
  }

  predicate DistinctPriorities(slots: seq<Slot>) {
    forall i, j | 0 <= i < j < |slots| :: slots[i].candidate.priority != slots[j].candidate.priority
  }

  /** With no two candidates of one priority the route is forced, however the bundle lists them. */
  lemma {:induction false} OrderIsForced(a: seq<Slot>, b: seq<Slot>)
    requires multiset(a) == multiset(b) && ByPriority(a) && ByPriority(b) && DistinctPriorities(a)
    ensures a == b
    decreases |a|
  {
    SameLength(a, b);
    if a != [] {
      var n := |a| - 1;
      LastIsForced(a, b);
      SameButLast(a, b);
      OrderIsForced(a[..n], b[..n]);
      assert a == a[..n] + [a[n]] && b == b[..n] + [b[n]];
    }
  }

  lemma LastIsForced(a: seq<Slot>, b: seq<Slot>)
    requires multiset(a) == multiset(b) && |a| == |b| > 0 && ByPriority(a) && ByPriority(b) && DistinctPriorities(a)
    ensures a[|a| - 1] == b[|a| - 1]
  {
    var n := |a| - 1;
    assert a[n] in a && b[n] in b;
    SameElements(a, b, a[n]);
    SameElements(a, b, b[n]);
    var i :| 0 <= i <= n && b[i] == a[n];
    var j :| 0 <= j <= n && a[j] == b[n];
    assert b[i].candidate.priority <= b[n].candidate.priority;
    assert a[j].candidate.priority <= a[n].candidate.priority;
  }

  lemma SameLength<T>(a: seq<T>, b: seq<T>)
    requires multiset(a) == multiset(b)
    ensures |a| == |b|
  {
    assert |a| == |multiset(a)| && |b| == |multiset(b)|;
  }

  lemma SameButLast<T>(a: seq<T>, b: seq<T>)
    requires multiset(a) == multiset(b) && |a| == |b| > 0 && a[|a| - 1] == b[|a| - 1]
    ensures multiset(a[..|a| - 1]) == multiset(b[..|a| - 1])
  {
    var n := |a| - 1;
    assert a == a[..n] + [a[n]] && b == b[..n] + [b[n]];
    assert multiset(a[..n]) == multiset(a) - multiset{a[n]} == multiset(b[..n]);
  }

  // ----- what the log and the answer tell, read off the providers' replies

  /** The code points strings.TrimSpace removes. */
  lemma SpaceCodes(c: char)
    ensures IsSpace(c) <==>
              var n := c as int;
              9 <= n <= 13 || n in [0x20, 0x85, 0xA0, 0x1680, 0x2028, 0x2029, 0x202F, 0x205F, 0x3000] || 0x2000 <= n <= 0x200A
  {
  }

  /** An answer the caller can use: its first choice was cut off by length, calls a tool, or says something. */
  predicate Useful(o: Output) {
    o.choices != []
    && var first := o.choices[0];
       first.finishReason == "length" || first.toolCalls != 0
       || exists i | 0 <= i < |first.content| :: !IsSpace(first.content[i])
  }

  /** The provider of a candidate is called and answers. */
  predicate Replies(providers: Providers, s: Slot) {
    !s.degraded && s.candidate.provider in providers && s.reply.Answered?
  }

  lemma ServesIffUseful(providers: Providers, s: Slot)
    ensures Serves(providers, s) <==> Replies(providers, s) && s.reply.output.Some? && Useful(s.reply.output.value)
  {
    if Replies(providers, s) && s.reply.output.Some? && s.reply.output.value.choices != [] {
      var first := s.reply.output.value.choices[0];
      assert Blank(first.content) <==> !exists i | 0 <= i < |first.content| :: !IsSpace(first.content[i]);
    }
  }

  /** The cascade is served exactly when some candidate's provider gives a useful answer, and then it ends at the
      first one with that very answer. */
  lemma EndsAtFirstUsefulAnswer(providers: Providers, order: seq<Slot>, result: Result, invoked: seq<Slot>)
    requires Routed(providers, order, result, invoked)
    ensures result.Decided? <==>
              exists i :: 0 <= i < |order| && Replies(providers, order[i]) && order[i].reply.output.Some?
                          && Useful(order[i].reply.output.value)
    ensures result.Decided? ==>
              var k := |result.attempts| - 1;
              0 <= k < |order| && order[k].reply == Answered(Some(result.output))
              && result.provider == order[k].candidate.provider && result.model == order[k].candidate.model
              && Replies(providers, order[k]) && Useful(result.output)
              && forall i | 0 <= i < k && Replies(providers, order[i]) && order[i].reply.output.Some? ::
                   !Useful(order[i].reply.output.value)
    ensures result.AllCandidatesFailed? ==> |result.attempts| == |order|
  {
    forall i | 0 <= i < |order|
      ensures Serves(providers, order[i]) <==>
                Replies(providers, order[i]) && order[i].reply.output.Some? && Useful(order[i].reply.output.value)
    {
      ServesIffUseful(providers, order[i]);
    }
  }

  lemma {:induction false} CalledWhich(providers: Providers, tried: seq<Slot>, s: Slot)
    ensures s in Called(providers, tried) <==> s in tried && !s.degraded && s.candidate.provider in providers
    ensures |Called(providers, tried)| <= |tried|
    decreases |tried|
  {
    if tried != [] {
      CalledWhich(providers, tried[..|tried| - 1], s);
      assert tried == tried[..|tried| - 1] + [tried[|tried| - 1]];
    }
  }

  /** The providers called are those of the tried candidates that are registered and not degraded: none past the answer
      that is served. */
  lemma InvokedTells(providers: Providers, order: seq<Slot>, result: Result, invoked: seq<Slot>, s: Slot)
    requires Routed(providers, order, result, invoked)
    ensures s in invoked <==> s in order[..|result.attempts|] && !s.degraded && s.candidate.provider in providers
  {
    CalledWhich(providers, order[..|result.attempts|], s);
    assert order[..|order|] == order;
  }

  /** Every attempt names its candidate and says what became of it: skipped, not registered, failed with the provider's
      error, or answered. An answer that is no use is kept with the attempt, under a reason that tells apart no choices,
      reasoning only, and nothing at all. */
  lemma AttemptTells(providers: Providers, order: seq<Slot>, result: Result, invoked: seq<Slot>, i: nat)
    requires Routed(providers, order, result, invoked) && i < |result.attempts|
    ensures i < |order|
    ensures var a, s := result.attempts[i], order[i];
            a.provider == s.candidate.provider && a.model == s.candidate.model
            && (a.cause.Some? <==> Invokes(providers, s) && s.reply.Errored?)
            && (a.discarded.Some? ==> s.reply == Answered(a.discarded))
            && (s.degraded ==> a.error == "skipped: quality score degraded below threshold" && a.discarded.None?)
            && (!s.degraded && s.candidate.provider !in providers ==> a.error == "provider not registered" && a.discarded.None?)
            && (Invokes(providers, s) && s.reply.Errored? ==>
                  a.error == s.reply.message && a.cause == Some(s.reply.message) && a.discarded.None?)
            && (Replies(providers, s) && s.reply.output.None? ==>
                  a.error == "provider returned no choices" && a.discarded.None?)
  {
  }

  lemma AnswerTells(providers: Providers, order: seq<Slot>, result: Result, invoked: seq<Slot>, i: nat, o: Output)
    requires Routed(providers, order, result, invoked) && i < |result.attempts| && i < |order|
    requires Replies(providers, order[i]) && order[i].reply.output == Some(o)
    ensures var a := result.attempts[i];
            (a.discarded == if Useful(o) then None else Some(o))
            && (Useful(o) ==> a.error == "" && result.Decided? && i == |result.attempts| - 1)
            && (o.choices == [] ==> a.error == "provider returned no choices")
            && (!Useful(o) && o.choices != [] ==>
                  var thought := exists j | 0 <= j < |o.choices[0].reasoning| :: !IsSpace(o.choices[0].reasoning[j]);
                  a.error == if thought then "provider returned only reasoning and no answer"
                             else "provider returned empty content")
  {
    ServesIffUseful(providers, order[i]);
    if o.choices != [] {
      var said := o.choices[0].reasoning;
      assert Blank(said) <==> !exists j | 0 <= j < |said| :: !IsSpace(said[j]);
    }
  }

  // ----- discarded attempts

  function Discarded(attempts: seq<AttemptRecord>): seq<AttemptRecord> {
    if attempts == [] then []
    else Discarded(attempts[..|attempts| - 1])
         + if attempts[|attempts| - 1].discarded.Some? then [attempts[|attempts| - 1]] else []
  }

  method DiscardedAttempts(attempts: seq<AttemptRecord>) returns (out: seq<AttemptRecord>)
    ensures out == Discarded(attempts)
  {
    out := [];
    for i := 0 to |attempts|
      invariant out == Discarded(attempts[..i])
    {
      assert attempts[..i + 1][..i] == attempts[..i];
      if attempts[i].discarded.Some? {
        out := out + [attempts[i]];
      }
    }
    assert attempts[..|attempts|] == attempts;
  }

  /** The slots among the tried ones whose model answered, unusably. */
  function Wasted(providers: Providers, tried: seq<Slot>): seq<Slot> {
    if tried == [] then []
    else
      var last := tried[|tried| - 1];
      Wasted(providers, tried[..|tried| - 1])
      + if OutcomeOf(providers, last).Unusable? && OutcomeOf(providers, last).output.Some? then [last] else []
  }

  /** The discarded attempts of a log are those whose model answered and was not used, each with its whole answer. */
  lemma {:induction false} DiscardedAreWasted(providers: Providers, tried: seq<Slot>)
    ensures Discarded(Logs(providers, tried)) == Logs(providers, Wasted(providers, tried))
    ensures forall s | s in Wasted(providers, tried) :: s in tried && s.reply.Answered? && LogOf(providers, s).discarded == s.reply.output
    decreases |tried|
  {
    if tried != [] {
      var n := |tried| - 1;
      var before, last := tried[..n], tried[n];
      DiscardedAreWasted(providers, before);
      assert Discarded(Logs(providers, tried)) ==
             Discarded(Logs(providers, before)) + if LogOf(providers, last).discarded.Some? then [LogOf(providers, last)] else [] by {
        assert tried == before + [last];
        LogOneMore(providers, before, last);
        assert Logs(providers, tried)[..n] == Logs(providers, before);
      }
      LogOneMore(providers, Wasted(providers, before), last);
    }
  }
}
