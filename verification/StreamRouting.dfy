/** The streaming cascade: candidates in the same order, falling back only while nothing has reached the caller. */
module StreamRouting {
  import opened Json
  import opened ModelRouting

  /** What happens around one call, in order. `at` is the candidate's place in the routing order. */
  datatype Event =
    | Started(at: nat, provider: string, model: string, streamed: bool)
    | Invoked(at: nat)
    | Delivered(at: nat, chunk: Chunk)

  /** The caller's answer to each chunk, given every chunk it has been handed so far: an error refuses it. */
  type Caller = seq<Chunk> -> Option<string>

  datatype StreamResult =
    | Served(provider: string, model: string, streamed: bool, attempts: seq<AttemptRecord>, error: Option<string>)
    | AllFailed(attempts: seq<AttemptRecord>)
    | NoneInNetwork

  // ----- one candidate's stream

  /** The chunks handed over and the adapter's error, if any, when a script runs against a caller. */
  function Play(script: Script, caller: Caller, sent: seq<Chunk>): (r: (seq<Chunk>, Option<string>))
    ensures sent <= r.0
    decreases script
  {
    match script
    case Return(error) => (sent, error)
    case Emit(chunk, accepted, refused) =>
      if caller(sent + [chunk]).None? then Play(accepted, caller, sent + [chunk]) else Play(refused, caller, sent + [chunk])
  }

  /** A whole answer as one chunk: the first choice's content, with the model and usage reported. */
  function OneChunk(output: Option<Output>): Chunk {
    match output
    case None => Chunk("", "", "", None)
    case Some(o) =>
      if o.choices == [] then Chunk("", "", o.model, o.usage)
      else Chunk(o.choices[0].content, o.choices[0].finishReason, o.model, o.usage)
  }

  function Stream(providers: Providers, s: Slot, caller: Caller): (seq<Chunk>, Option<string>)
    requires Invokes(providers, s)
  {
    if providers[s.candidate.provider].streams then Play(s.script, caller, [])
    else match s.reply
      case Errored(message) => ([], Some(message))
      case Answered(output) => ([OneChunk(output)], caller([OneChunk(output)]))
  }

  /** The cascade ends at a candidate that was invoked and did not fail before its first chunk. */
  predicate Stops(providers: Providers, s: Slot, caller: Caller) {
    Invokes(providers, s) && var (chunks, error) := Stream(providers, s, caller); chunks != [] || error.None?
  }

  function StreamLog(providers: Providers, s: Slot, caller: Caller): AttemptRecord {
    var p, m := s.candidate.provider, s.candidate.model;
    if s.degraded then AttemptRecord(p, m, "skipped: quality score degraded below threshold", None, None)
    else if p !in providers then AttemptRecord(p, m, "provider not registered", None, None)
    else
      var error := Stream(providers, s, caller).1;
      AttemptRecord(p, m, error.GetOr(""), error, None)
  }

  function StreamLogs(providers: Providers, tried: seq<Slot>, caller: Caller): seq<AttemptRecord> {
    seq(|tried|, i requires 0 <= i < |tried| => StreamLog(providers, tried[i], caller))
  }

  // ----- traces

  function Deliveries(at: nat, chunks: seq<Chunk>): seq<Event> {
    seq(|chunks|, i requires 0 <= i < |chunks| => Delivered(at, chunks[i]))
  }

  function Opening(at: nat, c: Candidate, streamed: bool, announces: bool): seq<Event> {
    (if announces then [Started(at, c.provider, c.model, streamed)] else []) + [Invoked(at)]
  }

  /** What is announced and invoked over the tried slots. */
  function Openings(providers: Providers, tried: seq<Slot>, announces: bool): seq<Event> {
    if tried == [] then []
    else
      var n := |tried| - 1;
      var s := tried[n];
      Openings(providers, tried[..n], announces)
      + if Invokes(providers, s) then Opening(n, s.candidate, providers[s.candidate.provider].streams, announces) else []
  }

  /** The call went to the first candidate that stops the cascade: its chunks, and only its chunks, reached the
      caller, and its error, if any, is the caller's. */
  ghost predicate Routed(providers: Providers, order: seq<Slot>, caller: Caller, announces: bool, result: StreamResult, trace: seq<Event>) {
    match result
    case NoneInNetwork => false
    case AllFailed(attempts) =>
      FirstStop(providers, order, caller, |order|) && attempts == StreamLogs(providers, order, caller)
      && trace == Openings(providers, order, announces)
    case Served(provider, model, streamed, attempts, error) =>
      var k := |attempts| - 1;
      0 <= k < |order| && FirstStop(providers, order, caller, k)
      && attempts == StreamLogs(providers, order[..k + 1], caller)
      && provider == order[k].candidate.provider && model == order[k].candidate.model
      && streamed == providers[provider].streams
      && error == Stream(providers, order[k], caller).1
      && trace == Openings(providers, order[..k + 1], announces) + Deliveries(k, Stream(providers, order[k], caller).0)
  }

  ghost predicate FirstStop(providers: Providers, order: seq<Slot>, caller: Caller, k: nat) {
    k <= |order| && (k < |order| ==> Stops(providers, order[k], caller))
    && forall i | 0 <= i < k :: !Stops(providers, order[i], caller)
  }

  // ----- the cascade

  /** Routes like Gateway.Decide and streams the chosen answer; `announces` says whether the caller asked to be told
      of each start. */
  method DecideStream(gateway: Gateway, slots: seq<Slot>, sensitivity: string, caller: Caller, announces: bool)
    returns (result: StreamResult, trace: seq<Event>, ghost order: seq<Slot>)
    ensures result.NoneInNetwork? <==> sensitivity == "restricted" && forall s | s in slots :: !s.candidate.inNetwork
    ensures result.NoneInNetwork? ==> trace == []
    ensures !result.NoneInNetwork? ==>
              Ordered(order, Pool(slots, sensitivity))
              && Routed(gateway.providers, order, caller, announces, result, trace)
    ensures Unspliced(trace, order, announces)
  {
    order, trace := [], [];
    var pool, ok := RestrictPool(slots, sensitivity);
    if !ok { return NoneInNetwork, [], []; }
    var sorted := SortByPriority(pool);
    result, trace := StreamCascade(gateway, sorted, caller, announces);
    order := sorted;
    RoutedIsUnspliced(gateway.providers, order, caller, announces, result, trace);
  }

  method StreamCascade(gateway: Gateway, sorted: seq<Slot>, caller: Caller, announces: bool)
    returns (result: StreamResult, trace: seq<Event>)
    ensures Routed(gateway.providers, sorted, caller, announces, result, trace)
  {
    var attempts: seq<AttemptRecord> := [];
    trace := [];
    for k := 0 to |sorted|
      invariant forall i | 0 <= i < k :: !Stops(gateway.providers, sorted[i], caller)
      invariant attempts == StreamLogs(gateway.providers, sorted[..k], caller)
      invariant trace == Openings(gateway.providers, sorted[..k], announces)
    {
      var s := sorted[k];
      assert sorted[..k + 1] == sorted[..k] + [s];
      StreamLogOneMore(gateway.providers, sorted[..k], s, caller);
      OpeningsOneMore(gateway.providers, sorted[..k], s, announces);
      if s.degraded {
        attempts := attempts + [AttemptRecord(s.candidate.provider, s.candidate.model,
                                              "skipped: quality score degraded below threshold", None, None)];
      } else if s.candidate.provider !in gateway.providers {
        attempts := attempts + [AttemptRecord(s.candidate.provider, s.candidate.model, "provider not registered", None, None)];
      } else {
        var streams := gateway.providers[s.candidate.provider].streams;
        trace := trace + Opening(k, s.candidate, streams, announces);
        var chunks, error := Invoke(streams, s, caller);
        assert (chunks, error) == Stream(gateway.providers, s, caller);
        attempts := attempts + [AttemptRecord(s.candidate.provider, s.candidate.model, error.GetOr(""), error, None)];
        trace := trace + Deliveries(k, chunks);
        if chunks != [] || error.None? {
          result := Served(s.candidate.provider, s.candidate.model, streams, attempts, error);
          assert |attempts| == k + 1;
          return;
        }
        assert Deliveries(k, chunks) == [];
      }
    }
    assert sorted[..|sorted|] == sorted;
    result := AllFailed(attempts);
  }

  method Invoke(streams: bool, s: Slot, caller: Caller) returns (chunks: seq<Chunk>, error: Option<string>)
    ensures streams ==> (chunks, error) == Play(s.script, caller, [])
    ensures !streams && s.reply.Errored? ==> chunks == [] && error == Some(s.reply.message)
    ensures !streams && s.reply.Answered? ==>
              chunks == [OneChunk(s.reply.output)] && error == caller(chunks)
  {
    if streams {
      chunks, error := RunAdapter(s.script, caller);
    } else {
      match s.reply
      case Errored(message) => return [], Some(message);
      case Answered(output) =>
        chunks := [OneChunk(output)];
        error := caller(chunks);
    }
  }

  method RunAdapter(script: Script, caller: Caller) returns (sent: seq<Chunk>, error: Option<string>)
    ensures (sent, error) == Play(script, caller, [])
  {
    sent := [];
    var rest := script;
    while rest.Emit?
      invariant Play(rest, caller, sent) == Play(script, caller, [])
      decreases rest
    {
      sent := sent + [rest.chunk];
      rest := if caller(sent).None? then rest.accepted else rest.refused;
    }
    error := rest.error;
  }

  lemma StreamLogOneMore(providers: Providers, tried: seq<Slot>, s: Slot, caller: Caller)
    ensures StreamLogs(providers, tried + [s], caller) == StreamLogs(providers, tried, caller) + [StreamLog(providers, s, caller)]
  {
  }

  lemma OpeningsOneMore(providers: Providers, tried: seq<Slot>, s: Slot, announces: bool)
    ensures Openings(providers, tried + [s], announces) ==
            Openings(providers, tried, announces)
            + if Invokes(providers, s) then Opening(|tried|, s.candidate, providers[s.candidate.provider].streams, announces) else []
  {
    assert (tried + [s])[..|tried|] == tried;
  }

  // ----- no splicing

  /** Event by event: a chunk follows an invocation or a chunk of its own candidate, nothing but chunks follows a
      chunk, and where starts are announced each invocation directly follows the announcement naming it. */
  ghost predicate WellFormed(trace: seq<Event>, order: seq<Slot>, announces: bool) {
    forall i | 0 <= i < |trace| :: WellPlaced(trace, i, order, announces)
  }

  predicate WellPlaced(trace: seq<Event>, i: nat, order: seq<Slot>, announces: bool)
    requires i < |trace|
  {
    match trace[i]
    case Started(at, provider, model, _) =>
      at < |order| && order[at].candidate.provider == provider && order[at].candidate.model == model
      && (i > 0 ==> !trace[i - 1].Delivered?)
    case Invoked(at) =>
      (i > 0 ==> !trace[i - 1].Delivered?)
      && (announces ==> i > 0 && trace[i - 1].Started? && trace[i - 1].at == at)
    case Delivered(at, _) =>
      i > 0 && trace[i - 1].at == at && !trace[i - 1].Started?
  }

  lemma {:induction false} OpeningsWellFormed(providers: Providers, tried: seq<Slot>, order: seq<Slot>, announces: bool)
    requires tried <= order
    ensures WellFormed(Openings(providers, tried, announces), order, announces)
    ensures forall e | e in Openings(providers, tried, announces) :: !e.Delivered?
    decreases |tried|
  {
    if tried != [] {
      var n := |tried| - 1;
      var before, s := Openings(providers, tried[..n], announces), tried[n];
      OpeningsWellFormed(providers, tried[..n], order, announces);
      var all := Openings(providers, tried, announces);
      assert s == order[n];
      forall i | 0 <= i < |all|
        ensures WellPlaced(all, i, order, announces) && !all[i].Delivered?
      {
        if i < |before| {
          assert all[i] == before[i] && WellPlaced(before, i, order, announces) && before[i] in before;
        } else if 0 < i == |before| {
          assert all[i - 1] == before[i - 1] && before[i - 1] in before;
        }
      }
    }
  }

  lemma LastOpening(providers: Providers, tried: seq<Slot>, announces: bool)
    requires tried != [] && Invokes(providers, tried[|tried| - 1])
    ensures var o := Openings(providers, tried, announces); o != [] && o[|o| - 1] == Invoked(|tried| - 1)
  {
  }

  /** The trace the streaming cascade leaves is well formed. */
  lemma TraceIsWellFormed(providers: Providers, order: seq<Slot>, caller: Caller, announces: bool, result: StreamResult, trace: seq<Event>)
    requires Routed(providers, order, caller, announces, result, trace)
    ensures WellFormed(trace, order, announces)
  {
    if result.AllFailed? {
      OpeningsWellFormed(providers, order, order, announces);
    } else {
      var k := |result.attempts| - 1;
      var tried := order[..k + 1];
      OpeningsWellFormed(providers, tried, order, announces);
      LastOpening(providers, tried, announces);
      DeliveriesWellFormed(Openings(providers, tried, announces), k, Stream(providers, order[k], caller).0, order, announces);
    }
  }

  lemma DeliveriesWellFormed(head: seq<Event>, at: nat, chunks: seq<Chunk>, order: seq<Slot>, announces: bool)
    requires WellFormed(head, order, announces) && head != [] && head[|head| - 1] == Invoked(at)
    ensures WellFormed(head + Deliveries(at, chunks), order, announces)
  {
    var all := head + Deliveries(at, chunks);
    forall i | 0 <= i < |all|
      ensures WellPlaced(all, i, order, announces)
    {
      if i < |head| {
        assert all[i] == head[i] && WellPlaced(head, i, order, announces);
      } else {
        assert all[i] == Delivered(at, chunks[i - |head|]);
        assert i == |head| || all[i - 1] == Delivered(at, chunks[i - 1 - |head|]);
      }
    }
  }

  lemma {:induction false} SourceOf(trace: seq<Event>, order: seq<Slot>, announces: bool, i: nat) returns (j: nat)
    requires WellFormed(trace, order, announces) && i < |trace| && trace[i].Delivered?
    ensures j < i && trace[j] == Invoked(trace[i].at)
    decreases i
  {
    assert WellPlaced(trace, i, order, announces);
    if trace[i - 1].Invoked? {
      j := i - 1;
    } else {
      j := SourceOf(trace, order, announces, i - 1);
    }
  }

  lemma {:induction false} OnlyChunksFollowAChunk(trace: seq<Event>, order: seq<Slot>, announces: bool, i: nat, k: nat)
    requires WellFormed(trace, order, announces) && i <= k < |trace| && trace[i].Delivered?
    ensures trace[k].Delivered? && trace[k].at == trace[i].at
    decreases k
  {
    if i < k {
      OnlyChunksFollowAChunk(trace, order, announces, i, k - 1);
      assert WellPlaced(trace, k, order, announces);
    }
  }

  /** One model per stream: all chunks come from one candidate, nothing is invoked or announced once the first is out,
      and the last announcement before it named that candidate. */
  lemma NoSplicing(trace: seq<Event>, order: seq<Slot>, announces: bool, i: nat)
    requires WellFormed(trace, order, announces) && i < |trace| && trace[i].Delivered?
    ensures forall k | 0 <= k < |trace| && trace[k].Delivered? :: trace[k].at == trace[i].at
    ensures forall k | i <= k < |trace| :: trace[k].Delivered?
    ensures announces ==> AnnouncedLast(trace, order, i)
  {
    forall k | 0 <= k < |trace| && (trace[k].Delivered? || k >= i)
      ensures trace[k].Delivered? && trace[k].at == trace[i].at
    {
      if k < i {
        OnlyChunksFollowAChunk(trace, order, announces, k, i);
      } else {
        OnlyChunksFollowAChunk(trace, order, announces, i, k);
      }
    }
    if announces {
      var j := LastAnnouncement(trace, order, i);
    }
  }

  lemma LastAnnouncement(trace: seq<Event>, order: seq<Slot>, i: nat) returns (j: nat)
    requires WellFormed(trace, order, true) && i < |trace| && trace[i].Delivered?
    ensures j < i && Names(trace[j], order, trace[i].at)
    ensures forall k | j < k < |trace| :: !trace[k].Started?
    decreases i
  {
    assert WellPlaced(trace, i, order, true);
    if trace[i - 1].Invoked? {
      assert WellPlaced(trace, i - 1, order, true);
      j := i - 2;
      assert WellPlaced(trace, j, order, true);
      forall k | i <= k < |trace| ensures !trace[k].Started? {
        OnlyChunksFollowAChunk(trace, order, true, i, k);
      }
    } else {
      j := LastAnnouncement(trace, order, i - 1);
    }
  }

  /** Nothing is ever spliced: all chunks come from one candidate, after the first of them nothing is invoked or
      announced, and the last announcement before it named that candidate. */
  ghost predicate Unspliced(trace: seq<Event>, order: seq<Slot>, announces: bool) {
    forall i | 0 <= i < |trace| && trace[i].Delivered? ::
      (forall k | 0 <= k < |trace| && trace[k].Delivered? :: trace[k].at == trace[i].at)
      && (forall k | i <= k < |trace| :: trace[k].Delivered?)
      && (announces ==> AnnouncedLast(trace, order, i))
  }

  ghost predicate AnnouncedLast(trace: seq<Event>, order: seq<Slot>, i: nat)
    requires i < |trace|
  {
    exists j :: 0 <= j < i && Names(trace[j], order, trace[i].at) && forall k | j < k < |trace| :: !trace[k].Started?
  }

  predicate Names(e: Event, order: seq<Slot>, at: nat) {
    e.Started? && e.at == at < |order| && e.provider == order[at].candidate.provider && e.model == order[at].candidate.model
  }

  /** So it is in every trace of DecideStream. */
  lemma RoutedIsUnspliced(providers: Providers, order: seq<Slot>, caller: Caller, announces: bool, result: StreamResult, trace: seq<Event>)
    requires Routed(providers, order, caller, announces, result, trace)
    ensures Unspliced(trace, order, announces)
  {
    TraceIsWellFormed(providers, order, caller, announces, result, trace);
    forall i | 0 <= i < |trace| && trace[i].Delivered?
      ensures (forall k | 0 <= k < |trace| && trace[k].Delivered? :: trace[k].at == trace[i].at)
      ensures forall k | i <= k < |trace| :: trace[k].Delivered?
      ensures announces ==> AnnouncedLast(trace, order, i)
    {
      NoSplicing(trace, order, announces, i);
    }
  }

  // ----- what the caller is handed, read off the adapters

  /** ss are the stages of an adapter's run: after handing over chunk i it goes on as accepted or refused by what the
      caller said to the first i + 1 chunks, and at the end it returns `error`. */
  predicate IsRun(ss: seq<Script>, script: Script, caller: Caller, chunks: seq<Chunk>, error: Option<string>) {
    |ss| == |chunks| + 1 && ss[0] == script && ss[|chunks|] == Return(error)
    && forall i | 0 <= i < |chunks| :: GoesOn(ss[i], ss[i + 1], caller, chunks[..i], chunks[i])
  }

  predicate GoesOn(stage: Script, next: Script, caller: Caller, sent: seq<Chunk>, chunk: Chunk) {
    stage.Emit? && stage.chunk == chunk
    && next == if caller(sent + [chunk]).None? then stage.accepted else stage.refused
  }

  lemma {:induction false} PlayIsARun(script: Script, caller: Caller, sent: seq<Chunk>) returns (ss: seq<Script>)
    ensures var (chunks, error) := Play(script, caller, sent);
            |ss| == |chunks| - |sent| + 1 && ss[0] == script && ss[|ss| - 1] == Return(error)
            && forall j | 0 <= j < |ss| - 1 :: GoesOn(ss[j], ss[j + 1], caller, chunks[..|sent| + j], chunks[|sent| + j])
    decreases script
  {
    ss := [script];
    if script.Emit? {
      var next := sent + [script.chunk];
      var rest := if caller(next).None? then script.accepted else script.refused;
      var tail := PlayIsARun(rest, caller, next);
      var chunks := Play(rest, caller, next).0;
      ss := [script] + tail;
      assert chunks[..|sent|] == sent && chunks[|sent|] == script.chunk;
      forall j | 0 <= j < |ss| - 1
        ensures GoesOn(ss[j], ss[j + 1], caller, chunks[..|sent| + j], chunks[|sent| + j])
      {
        if j > 0 {
          assert GoesOn(tail[j - 1], tail[j - 1 + 1], caller, chunks[..|next| + (j - 1)], chunks[|next| + (j - 1)]);
          assert |next| + (j - 1) == |sent| + j;
        }
      }
    }
  }

  /** A streaming adapter that ends the cascade was run from start to end: the trace holds its chunks in order, each
      handed over after the caller's answer to the one before, and the call's error is what it returned. */
  lemma StreamedIsARun(providers: Providers, order: seq<Slot>, caller: Caller, announces: bool, result: StreamResult, trace: seq<Event>)
    returns (k: nat, from: nat, chunks: seq<Chunk>, ss: seq<Script>)
    requires Routed(providers, order, caller, announces, result, trace) && result.Served? && result.streamed
    ensures k < |order| && k == |result.attempts| - 1 && IsRun(ss, order[k].script, caller, chunks, result.error)
    ensures |trace| == from + |chunks|
    ensures forall i | 0 <= i < |chunks| :: trace[from + i] == Delivered(k, chunks[i])
    ensures forall i | 0 <= i < from :: !trace[i].Delivered?
  {
    k := |result.attempts| - 1;
    chunks := Stream(providers, order[k], caller).0;
    ss := PlayIsARun(order[k].script, caller, []);
    assert order[..k + 1][k] == order[k];
    forall i | 0 <= i < |chunks| ensures GoesOn(ss[i], ss[i + 1], caller, chunks[..i], chunks[i]) {
      assert GoesOn(ss[i], ss[i + 1], caller, chunks[..0 + i], chunks[0 + i]);
    }
    OpeningsWellFormed(providers, order[..k + 1], order, announces);
    var opening := Openings(providers, order[..k + 1], announces);
    from := |opening|;
    forall i | 0 <= i < from ensures !trace[i].Delivered? { assert trace[i] == opening[i] && opening[i] in opening; }
  }

  /** Without streaming the caller is handed one chunk, with the content and finish reason of the answer's first choice
      and the model and usage it reported. */
  lemma SingleChunkTells(providers: Providers, order: seq<Slot>, caller: Caller, announces: bool, result: StreamResult, trace: seq<Event>)
    returns (k: nat, c: Chunk)
    requires Routed(providers, order, caller, announces, result, trace) && result.Served? && !result.streamed
    ensures k < |order| && k == |result.attempts| - 1 && order[k].reply.Answered?
    ensures trace != [] && trace[|trace| - 1] == Delivered(k, c) && forall i | 0 <= i < |trace| - 1 :: !trace[i].Delivered?
    ensures result.error == caller([c])
    ensures match order[k].reply.output
            case None => c.delta == "" && c.finishReason == "" && c.model == "" && c.usage.None?
            case Some(o) =>
              c.model == o.model && c.usage == o.usage
              && (o.choices == [] ==> c.delta == "" && c.finishReason == "")
              && (o.choices != [] ==> c.delta == o.choices[0].content && c.finishReason == o.choices[0].finishReason)
  {
    k := |result.attempts| - 1;
    assert order[..k + 1][k] == order[k];
    c := Stream(providers, order[k], caller).0[0];
    assert Stream(providers, order[k], caller).0 == [c] && Deliveries(k, [c]) == [Delivered(k, c)];
    OpeningsWellFormed(providers, order[..k + 1], order, announces);
    var opening := Openings(providers, order[..k + 1], announces);
    forall i | 0 <= i < |trace| - 1 ensures !trace[i].Delivered? { assert trace[i] == opening[i] && opening[i] in opening; }
  }

  /** Who was called, and who was announced, and as what. */
  lemma {:induction false} OpeningsTell(providers: Providers, tried: seq<Slot>, announces: bool, i: nat)
    ensures Invoked(i) in Openings(providers, tried, announces) <==> i < |tried| && Invokes(providers, tried[i])
    ensures forall p, m, streamed ::
              Started(i, p, m, streamed) in Openings(providers, tried, announces) <==>
                announces && i < |tried| && Invokes(providers, tried[i]) && p == tried[i].candidate.provider
                && m == tried[i].candidate.model && streamed == providers[p].streams
    decreases |tried|
  {
    if tried != [] {
      OpeningsTell(providers, tried[..|tried| - 1], announces, i);
    }
  }

  /** A call invokes exactly the tried candidates that are registered and not degraded, and announces each of them,
      under its own name and with whether it streams, exactly when the caller asked. Each attempt names its candidate
      and says what became of it. */
  lemma StreamTells(providers: Providers, order: seq<Slot>, caller: Caller, announces: bool, result: StreamResult,
                    trace: seq<Event>, i: nat)
    requires Routed(providers, order, caller, announces, result, trace) && i < |result.attempts|
    ensures i < |order|
    ensures var a, s, called := result.attempts[i], order[i], !order[i].degraded && order[i].candidate.provider in providers;
            a.provider == s.candidate.provider && a.model == s.candidate.model && a.discarded.None?
            && (Invoked(i) in trace <==> called)
            && (forall p, m, streamed :: Started(i, p, m, streamed) in trace <==>
                  announces && called && p == a.provider && m == a.model && streamed == providers[p].streams)
            && (s.degraded ==> a.error == "skipped: quality score degraded below threshold" && a.cause.None?)
            && (!s.degraded && !called ==> a.error == "provider not registered" && a.cause.None?)
            && (called && i < |result.attempts| - 1 ==> a.cause.Some?)
            && (i == |result.attempts| - 1 && result.Served? ==>
                  called && result.provider == a.provider && result.model == a.model
                  && result.streamed == providers[a.provider].streams && a.cause == result.error)
            && (called ==> a.error == a.cause.GetOr(""))
            && (called && !providers[a.provider].streams && s.reply.Errored? ==> a.cause == Some(s.reply.message))
  {
    var tried := order[..|result.attempts|];
    assert tried[i] == order[i] && order[..|order|] == order;
    OpeningsTell(providers, tried, announces, i);
    if result.Served? {
      var k := |result.attempts| - 1;
      var rest := Deliveries(k, Stream(providers, order[k], caller).0);
      assert forall e | e in rest :: e.Delivered?;
    }
  }

  // ----- streaming against deciding

  /** A candidate's two adapters tell the same story: its stream fails before the first chunk exactly when its whole
      answer would be an error. Without streaming there is only one adapter. */
  predicate Consistent(providers: Providers, s: Slot, caller: Caller) {
    Invokes(providers, s) && providers[s.candidate.provider].streams ==>
      var (chunks, error) := Stream(providers, s, caller);
      (chunks == [] && error.Some?) <==> s.reply.Errored?
  }

  /** A consistent candidate ends the streaming cascade whenever it answers at all, usably or not: no answer is
      inspected, so nothing is discarded. */
  lemma StopsIffAnswered(providers: Providers, s: Slot, caller: Caller)
    requires Consistent(providers, s, caller)
    ensures Stops(providers, s, caller) <==> OutcomeOf(providers, s).Usable? || OutcomeOf(providers, s).Unusable?
  {
    if Invokes(providers, s) {
      var (chunks, error) := Stream(providers, s, caller);
      assert s.reply.Errored? <==> OutcomeOf(providers, s).Failed?;
    }
  }

  /** Both cascades stop at the same candidate exactly when Decide discards no answer on the way. */
  lemma RoutesLikeDecideIff(providers: Providers, order: seq<Slot>, caller: Caller, k: nat, d: nat)
    requires forall i | 0 <= i < |order| :: Consistent(providers, order[i], caller)
    requires FirstServing(providers, order, d) && FirstStop(providers, order, caller, k)
    ensures k <= d
    ensures k == d <==> forall i | 0 <= i < d :: !OutcomeOf(providers, order[i]).Unusable?
  {
    forall i | 0 <= i < |order|
      ensures Stops(providers, order[i], caller) <==>
                OutcomeOf(providers, order[i]).Usable? || OutcomeOf(providers, order[i]).Unusable?
    {
      StopsIffAnswered(providers, order[i], caller);
    }
    assert d < |order| ==> Stops(providers, order[d], caller);
    if k < d {
      assert Stops(providers, order[k], caller);
    }
  }

  /** Two candidates, the first of which answers with nothing: asked for a whole answer the gateway serves the second,
      asked for a stream the first, whether or not these can stream. */
  lemma StreamServesAnEmptyAnswer(streams: bool)
    ensures var empty := Output([], "a", None, "");
            var full := Output([Choice("stop", "ok", 0, "")], "b", None, "");
            var order := [Slot(Candidate("p", "a", 1, true), false, Answered(Some(empty)), Return(None)),
                          Slot(Candidate("p", "b", 2, true), false, Answered(Some(full)), Return(None))];
            var providers := map["p" := Adapter(streams)];
            var caller: Caller := (sent: seq<Chunk>) => None;
            (forall i | 0 <= i < |order| :: Consistent(providers, order[i], caller))
            && FirstServing(providers, order, 1) && FirstStop(providers, order, caller, 0)
  {
    var empty := Output([], "a", None, "");
    var full := Output([Choice("stop", "ok", 0, "")], "b", None, "");
    var first := Slot(Candidate("p", "a", 1, true), false, Answered(Some(empty)), Return(None));
    var second := Slot(Candidate("p", "b", 2, true), false, Answered(Some(full)), Return(None));
    var providers := map["p" := Adapter(streams)];
    var caller: Caller := (sent: seq<Chunk>) => None;
    assert full.choices[0].content[0] == 'o' && !IsSpace('o') && !Blank(full.choices[0].content);
    assert Serves(providers, second) && !Serves(providers, first);
    assert Stops(providers, first, caller);
  }
}
