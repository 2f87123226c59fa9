/** The circuit breaker: a rolling window of outcomes per agent version, latched once it trips. */
module CircuitBreaker {
  import opened Json

  datatype Thresholds = Thresholds(windowSize: int, minSamples: int, maxFailureRate: real, maxAvgCostUsd: real)

  const DEFAULT_THRESHOLDS := Thresholds(10, 5, 0.5, 0.0)

  datatype Observation = Observation(success: bool, costUsd: Option<real>)

  datatype AgentKey = AgentKey(name: string, version: string)

  datatype Verdict = Calm | AlreadyQuarantined | FailureRate | AverageCost

  type Window = seq<Observation>

  /** A breaker's windows and latches; a key without a window has an empty one. */
  datatype State = State(windows: map<AgentKey, Window>, quarantine: set<AgentKey>)

  // ----- one window

  function Failures(w: Window): nat {
    if w == [] then 0 else Failures(w[..|w| - 1]) + (if w[|w| - 1].success then 0 else 1)
  }

  function Priced(w: Window): nat {
    if w == [] then 0 else Priced(w[..|w| - 1]) + (if w[|w| - 1].costUsd.Some? then 1 else 0)
  }

  function TotalCost(w: Window): real {
    if w == [] then 0.0 else TotalCost(w[..|w| - 1]) + w[|w| - 1].costUsd.GetOr(0.0)
  }

  function Ratio(total: real, n: nat): real
    requires n > 0
  {
    total / n as real
  }

  /** The verdict on a window: too many failures, or too high an average over the priced runs. */
  function Judge(th: Thresholds, w: Window): Verdict
    requires w != []
  {
    if |w| < th.minSamples then Calm
    else if Ratio(Failures(w) as real, |w|) > th.maxFailureRate then FailureRate
    else if th.maxAvgCostUsd > 0.0 && Priced(w) > 0 && Ratio(TotalCost(w), Priced(w)) > th.maxAvgCostUsd
    then AverageCost
    else Calm
  }

  function LastN(n: int, w: Window): Window {
    if n < 0 then [] else if |w| > n then w[|w| - n..] else w
  }

  // ----- one call

  function WindowOf(st: State, key: AgentKey): Window {
    if key in st.windows then st.windows[key] else []
  }

  function Slid(th: Thresholds, w: Window, obs: Observation): Window {
    LastN(th.windowSize, w + [obs])
  }

  function Recorded(th: Thresholds, st: State, key: AgentKey, obs: Observation): State
    requires th.windowSize > 0
  {
    if key in st.quarantine then st
    else
      var w := Slid(th, WindowOf(st, key), obs);
      State(st.windows[key := w], if Judge(th, w).Calm? then st.quarantine else st.quarantine + {key})
  }

  function WasReset(st: State, key: AgentKey): State {
    State(st.windows - {key}, st.quarantine - {key})
  }

  class Breaker {
    const thresholds: Thresholds
    var windows: map<AgentKey, Window>
    var quarantine: set<AgentKey>

    predicate Valid()
    {
      thresholds.windowSize > 0
    }

    function Value(): State
      reads this
    {
      State(windows, quarantine)
    }

    constructor (thresholds: Thresholds)
      ensures Valid() && Value() == State(map[], {})
      ensures this.thresholds == if thresholds.windowSize <= 0 then DEFAULT_THRESHOLDS else thresholds
    {
      this.thresholds := if thresholds.windowSize <= 0 then DEFAULT_THRESHOLDS else thresholds;
      windows, quarantine := map[], {};
    }

    method RecordOutcome(name: string, version: string, obs: Observation) returns (v: Verdict)
      requires Valid()
      modifies this
      ensures Value() == Recorded(thresholds, old(Value()), AgentKey(name, version), obs)
      ensures !v.Calm? <==> AgentKey(name, version) in quarantine
      ensures v.AlreadyQuarantined? <==> AgentKey(name, version) in old(quarantine)
      ensures AgentKey(name, version) !in old(quarantine) ==>
                v == Judge(thresholds, Slid(thresholds, WindowOf(old(Value()), AgentKey(name, version)), obs))
    {
      var key := AgentKey(name, version);
      if key in quarantine {
        return AlreadyQuarantined;
      }
      var window := (if key in windows then windows[key] else []) + [obs];
      if |window| > thresholds.windowSize {
        window := window[|window| - thresholds.windowSize..];
      }
      assert window == Slid(thresholds, WindowOf(old(Value()), key), obs);
      windows := windows[key := window];
      v := Evaluate(window);
      if !v.Calm? {
        quarantine := quarantine + {key};
      }
    }

    method Evaluate(window: Window) returns (v: Verdict)
      requires window != []
      ensures v == Judge(thresholds, window)
    {
      if |window| < thresholds.minSamples {
        return Calm;
      }
      var failures: nat, priced: nat, totalCost := 0, 0, 0.0;
      for i := 0 to |window|
        invariant failures == Failures(window[..i]) && priced == Priced(window[..i])
        invariant totalCost == TotalCost(window[..i])
      {
        assert window[..i + 1][..i] == window[..i];
        var o := window[i];
        if !o.success {
          failures := failures + 1;
        }
        if o.costUsd.Some? {
          totalCost := totalCost + o.costUsd.value;
          priced := priced + 1;
        }
      }
      assert window[..|window|] == window;
      if Ratio(failures as real, |window|) > thresholds.maxFailureRate {
        return FailureRate;
      }
      if thresholds.maxAvgCostUsd > 0.0 && priced > 0 {
        var avgCost := Ratio(totalCost, priced);
        if avgCost > thresholds.maxAvgCostUsd {
          return AverageCost;
        }
      }
      return Calm;
    }

    method Reset(name: string, version: string)
      modifies this
      ensures Value() == WasReset(old(Value()), AgentKey(name, version))
    {
      var key := AgentKey(name, version);
      windows := windows - {key};
      quarantine := quarantine - {key};
    }
  }

  // ----- histories

  datatype Op = Record(key: AgentKey, obs: Observation) | Reset(key: AgentKey)

  function Replay(th: Thresholds, ops: seq<Op>): State
    requires th.windowSize > 0
  {
    if ops == [] then State(map[], {})
    else
      var before := Replay(th, ops[..|ops| - 1]);
      match ops[|ops| - 1]
      case Record(key, obs) => Recorded(th, before, key, obs)
      case Reset(key) => WasReset(before, key)
  }

  /** Everything reported for a version since its creation or last reset. */
  function Since(ops: seq<Op>, key: AgentKey): seq<Observation> {
    if ops == [] then []
    else
      var before := Since(ops[..|ops| - 1], key);
      match ops[|ops| - 1]
      case Record(k, obs) => if k == key then before + [obs] else before
      case Reset(k) => if k == key then [] else before
  }

  /** Some rolling window along obs is beyond the thresholds. */
  predicate TripsAlong(th: Thresholds, obs: seq<Observation>)
    requires th.windowSize > 0
  {
    exists j :: 1 <= j <= |obs| && TripsAt(th, obs, j)
  }

  predicate TripsAt(th: Thresholds, obs: seq<Observation>, j: nat)
    requires th.windowSize > 0 && 1 <= j <= |obs|
  {
    !Judge(th, LastN(th.windowSize, obs[..j])).Calm?
  }

  /** How many of the observations were taken in: all of them, or those up to the first that tripped. */
  function TakenIn(th: Thresholds, obs: seq<Observation>): (m: nat)
    requires th.windowSize > 0
    ensures m <= |obs|
  {
    if obs == [] then 0
    else if TripsAlong(th, obs[..|obs| - 1]) then TakenIn(th, obs[..|obs| - 1])
    else |obs|
  }

  lemma SlideIsLastN(n: int, obs: seq<Observation>, next: Observation)
    requires n > 0
    ensures LastN(n, LastN(n, obs) + [next]) == LastN(n, obs + [next])
  {
  }

  lemma TripsAlongStep(th: Thresholds, obs: seq<Observation>, next: Observation)
    requires th.windowSize > 0
    ensures TripsAlong(th, obs + [next]) <==> TripsAlong(th, obs) || TripsAt(th, obs + [next], |obs| + 1)
  {
    var more := obs + [next];
    assert forall j | 1 <= j <= |obs| :: more[..j] == obs[..j];
    if TripsAlong(th, obs) {
      var j :| 1 <= j <= |obs| && TripsAt(th, obs, j);
      assert TripsAt(th, more, j);
    }
    if TripsAlong(th, more) {
      var j :| 1 <= j <= |more| && TripsAt(th, more, j);
      if j <= |obs| { assert TripsAt(th, obs, j); }
    }
  }

  /** What a version's window and latch are, for any history: they depend only on what was reported for that
      version since its last reset. The window is the last windowSize observations taken in, and the version is
      quarantined iff some window on the way tripped; so a trip latches until a reset, and versions never affect
      each other. */
  lemma {:induction false} WindowIsLastObservations(th: Thresholds, ops: seq<Op>, key: AgentKey)
    requires th.windowSize > 0
    ensures var st, obs := Replay(th, ops), Since(ops, key);
            && (key in st.quarantine <==> TripsAlong(th, obs))
            && WindowOf(st, key) == LastN(th.windowSize, obs[..TakenIn(th, obs)])
    decreases |ops|
  {
    if ops != [] {
      var before, op := ops[..|ops| - 1], ops[|ops| - 1];
      WindowIsLastObservations(th, before, key);
      if op.Record? && op.key == key {
        RecordKeepsWindow(th, Replay(th, before), Since(before, key), key, op.obs);
      }
    }
  }

  lemma RecordKeepsWindow(th: Thresholds, st: State, obs: seq<Observation>, key: AgentKey, next: Observation)
    requires th.windowSize > 0
    requires key in st.quarantine <==> TripsAlong(th, obs)
    requires WindowOf(st, key) == LastN(th.windowSize, obs[..TakenIn(th, obs)])
    ensures var (st', more) := (Recorded(th, st, key, next), obs + [next]);
            && (key in st'.quarantine <==> TripsAlong(th, more))
            && WindowOf(st', key) == LastN(th.windowSize, more[..TakenIn(th, more)])
  {
    var more := obs + [next];
    assert more[..|obs|] == obs && more[..|more|] == more;
    TripsAlongStep(th, obs, next);
    if TripsAlong(th, obs) {
      assert more[..TakenIn(th, obs)] == obs[..TakenIn(th, obs)];
    } else {
      AllTakenIn(th, obs);
      assert obs[..|obs|] == obs;
      SlideIsLastN(th.windowSize, obs, next);
    }
  }

  lemma AllTakenIn(th: Thresholds, obs: seq<Observation>)
    requires th.windowSize > 0 && !TripsAlong(th, obs)
    ensures TakenIn(th, obs) == |obs|
  {
    if obs != [] {
      var shorter := obs[..|obs| - 1];
      if TripsAlong(th, shorter) {
        assert obs == shorter + [obs[|obs| - 1]];
        TripsAlongStep(th, shorter, obs[|obs| - 1]);
      }
    }
  }

  // ----- unpriced runs

  function OnlyPriced(w: Window): Window {
    if w == [] then []
    else OnlyPriced(w[..|w| - 1]) + (if w[|w| - 1].costUsd.Some? then [w[|w| - 1]] else [])
  }

  /** Unpriced runs neither raise nor lower the average: deleting them leaves sum and divisor as they were. */
  lemma {:induction false} UnpricedRunsDoNotCount(w: Window)
    ensures TotalCost(OnlyPriced(w)) == TotalCost(w) && Priced(OnlyPriced(w)) == Priced(w) == |OnlyPriced(w)|
  {
    if w != [] {
      var shorter, last := w[..|w| - 1], w[|w| - 1];
      UnpricedRunsDoNotCount(shorter);
      if last.costUsd.Some? {
        var kept := OnlyPriced(shorter) + [last];
        assert kept[..|kept| - 1] == OnlyPriced(shorter);
      } else {
        assert OnlyPriced(w) == OnlyPriced(shorter);
      }
    }
  }

  // ----- the verdict in counts and sums

  /** The runs of a stretch of observations that failed. */
  function FailedIn(obs: seq<Observation>, lo: nat, hi: nat): set<int>
    requires lo <= hi <= |obs|
  {
    set i | lo <= i < hi && !obs[i].success
  }

  /** The runs whose cost is known. */
  function PricedIn(obs: seq<Observation>, lo: nat, hi: nat): set<int>
    requires lo <= hi <= |obs|
  {
    set i | lo <= i < hi && obs[i].costUsd.Some?
  }

  /** What the runs of a stretch are known to have cost. */
  function CostIn(obs: seq<Observation>, lo: nat, hi: nat): real
    requires lo <= hi <= |obs|
    decreases hi - lo
  {
    if lo == hi then 0.0
    else (match obs[lo].costUsd case Some(c) => c case None => 0.0) + CostIn(obs, lo + 1, hi)
  }

  lemma {:induction false} CostInAppends(obs: seq<Observation>, lo: nat, hi: nat)
    requires lo <= hi < |obs|
    ensures CostIn(obs, lo, hi + 1) == CostIn(obs, lo, hi) + obs[hi].costUsd.GetOr(0.0)
    decreases hi - lo
  {
    if lo < hi { CostInAppends(obs, lo + 1, hi); }
  }

  lemma LastOfWindow(obs: seq<Observation>, lo: nat, hi: nat)
    requires lo < hi <= |obs|
    ensures obs[lo..hi] != [] && obs[lo..hi][..hi - lo - 1] == obs[lo..hi - 1] && obs[lo..hi][hi - lo - 1] == obs[hi - 1]
  {
  }

  lemma {:induction false} WindowFailures(obs: seq<Observation>, lo: nat, hi: nat)
    requires lo <= hi <= |obs|
    ensures Failures(obs[lo..hi]) == |FailedIn(obs, lo, hi)|
    decreases hi - lo
  {
    if lo < hi {
      var h := hi - 1;
      WindowFailures(obs, lo, h);
      LastOfWindow(obs, lo, hi);
      assert FailedIn(obs, lo, hi) == FailedIn(obs, lo, h) + if obs[h].success then {} else {h};
    }
  }

  lemma {:induction false} WindowPriced(obs: seq<Observation>, lo: nat, hi: nat)
    requires lo <= hi <= |obs|
    ensures Priced(obs[lo..hi]) == |PricedIn(obs, lo, hi)|
    decreases hi - lo
  {
    if lo < hi {
      var h := hi - 1;
      WindowPriced(obs, lo, h);
      LastOfWindow(obs, lo, hi);
      assert PricedIn(obs, lo, hi) == PricedIn(obs, lo, h) + if obs[h].costUsd.Some? then {h} else {};
    }
  }

  lemma {:induction false} WindowCost(obs: seq<Observation>, lo: nat, hi: nat)
    requires lo <= hi <= |obs|
    ensures TotalCost(obs[lo..hi]) == CostIn(obs, lo, hi)
    decreases hi - lo
  {
    if lo < hi {
      WindowCost(obs, lo, hi - 1);
      CostInAppends(obs, lo, hi - 1);
      LastOfWindow(obs, lo, hi);
    }
  }

  /** The running totals of a window are the counts and the sum. */
  lemma WindowCounts(obs: seq<Observation>, lo: nat, hi: nat)
    requires lo <= hi <= |obs|
    ensures Failures(obs[lo..hi]) == |FailedIn(obs, lo, hi)| && Priced(obs[lo..hi]) == |PricedIn(obs, lo, hi)|
    ensures TotalCost(obs[lo..hi]) == CostIn(obs, lo, hi)
  {
    WindowFailures(obs, lo, hi);
    WindowPriced(obs, lo, hi);
    WindowCost(obs, lo, hi);
  }

  /** More than maxFailureRate of the runs failed. */
  predicate TooManyFailures(th: Thresholds, obs: seq<Observation>, lo: nat, hi: nat)
    requires lo <= hi <= |obs|
  {
    |FailedIn(obs, lo, hi)| as real > th.maxFailureRate * (hi - lo) as real
  }

  /** The runs of known cost cost more than maxAvgCostUsd each; zero switches the check off. */
  predicate TooCostly(th: Thresholds, obs: seq<Observation>, lo: nat, hi: nat)
    requires lo <= hi <= |obs|
  {
    th.maxAvgCostUsd > 0.0 && PricedIn(obs, lo, hi) != {}
    && CostIn(obs, lo, hi) > th.maxAvgCostUsd * |PricedIn(obs, lo, hi)| as real
  }

  lemma RatioAbove(total: real, n: nat, bound: real)
    requires n > 0
    ensures Ratio(total, n) > bound <==> total > bound * n as real
  {
    var d := n as real;
    assert Ratio(total, n) * d == total;
    if Ratio(total, n) > bound { assert (Ratio(total, n) - bound) * d > 0.0; }
    if Ratio(total, n) <= bound { assert (bound - Ratio(total, n)) * d >= 0.0; }
  }

  lemma JudgeIff(th: Thresholds, obs: seq<Observation>, lo: nat, hi: nat)
    requires lo < hi <= |obs|
    ensures var v, enough := Judge(th, obs[lo..hi]), hi - lo >= th.minSamples;
            (v.FailureRate? <==> enough && TooManyFailures(th, obs, lo, hi))
            && (v.AverageCost? <==> enough && !TooManyFailures(th, obs, lo, hi) && TooCostly(th, obs, lo, hi))
            && (v.Calm? <==> !enough || (!TooManyFailures(th, obs, lo, hi) && !TooCostly(th, obs, lo, hi)))
  {
    WindowCounts(obs, lo, hi);
    RatioAbove(Failures(obs[lo..hi]) as real, hi - lo, th.maxFailureRate);
    if Priced(obs[lo..hi]) > 0 {
      RatioAbove(TotalCost(obs[lo..hi]), Priced(obs[lo..hi]), th.maxAvgCostUsd);
    }
  }

  function WindowStart(th: Thresholds, j: nat): nat {
    if j > th.windowSize >= 0 then j - th.windowSize else 0
  }

  /** After any history a version is quarantined exactly when, at some moment since its last reset, its latest
      windowSize runs numbered at least minSamples and either too many of them failed or those of known cost cost too
      much on average. */
  lemma QuarantinedIff(th: Thresholds, ops: seq<Op>, key: AgentKey)
    requires th.windowSize > 0
    ensures var obs := Since(ops, key);
            key in Replay(th, ops).quarantine <==>
              exists j :: 1 <= j <= |obs| && j - WindowStart(th, j) >= th.minSamples
                          && (TooManyFailures(th, obs, WindowStart(th, j), j) || TooCostly(th, obs, WindowStart(th, j), j))
  {
    var obs := Since(ops, key);
    WindowIsLastObservations(th, ops, key);
    forall j | 1 <= j <= |obs|
      ensures TripsAt(th, obs, j) <==>
                j - WindowStart(th, j) >= th.minSamples
                && (TooManyFailures(th, obs, WindowStart(th, j), j) || TooCostly(th, obs, WindowStart(th, j), j))
    {
      assert LastN(th.windowSize, obs[..j]) == obs[WindowStart(th, j)..j];
      JudgeIff(th, obs, WindowStart(th, j), j);
    }
    if key in Replay(th, ops).quarantine {
      var j :| 1 <= j <= |obs| && TripsAt(th, obs, j);
      assert TooManyFailures(th, obs, WindowStart(th, j), j) || TooCostly(th, obs, WindowStart(th, j), j);
    }
  }

  /** More than half of the ten latest runs failed, or of all there were, if these are at least five. */
  predicate MostlyFailing(obs: seq<Observation>, j: nat)
    requires j <= |obs|
  {
    var lo := if j > 10 then j - 10 else 0;
    j - lo >= 5 && 2 * |FailedIn(obs, lo, j)| > j - lo
  }

  /** A breaker built without usable thresholds quarantines a version exactly when, at some moment since its last reset,
      most of its latest runs had failed; what they cost does not matter. */
  lemma DefaultsQuarantineIff(ops: seq<Op>, key: AgentKey)
    ensures var obs := Since(ops, key);
            key in Replay(DEFAULT_THRESHOLDS, ops).quarantine <==> exists j :: 1 <= j <= |obs| && MostlyFailing(obs, j)
  {
    var th, obs := DEFAULT_THRESHOLDS, Since(ops, key);
    QuarantinedIff(th, ops, key);
    forall j | 1 <= j <= |obs|
      ensures MostlyFailing(obs, j) <==>
                j - WindowStart(th, j) >= th.minSamples
                && (TooManyFailures(th, obs, WindowStart(th, j), j) || TooCostly(th, obs, WindowStart(th, j), j))
    {
    }
    if exists j :: 1 <= j <= |obs| && MostlyFailing(obs, j) {
      var j :| 1 <= j <= |obs| && MostlyFailing(obs, j);
      assert TooManyFailures(th, obs, WindowStart(th, j), j);
    }
  }

  lemma WholeWindow(th: Thresholds, w: Window)
    requires w != []
    ensures w[0..|w|] == w
    ensures TooCostly(th, w, 0, |w|) <==>
              th.maxAvgCostUsd > 0.0 && Priced(w) > 0 && TotalCost(w) > th.maxAvgCostUsd * Priced(w) as real
  {
    assert w[0..|w|] == w;
    WindowCounts(w, 0, |w|);
  }

  /** Runs of unknown cost never hide a costly version: deleting them from a window keeps its cost verdict, as long as
      enough runs are left to judge and failures do not decide either window. */
  lemma UnpricedRunsHideNothing(th: Thresholds, w: Window)
    requires w != [] && OnlyPriced(w) != [] && |OnlyPriced(w)| >= th.minSamples && |w| >= th.minSamples
    requires !Judge(th, w).FailureRate? && !Judge(th, OnlyPriced(w)).FailureRate?
    ensures Judge(th, w) == Judge(th, OnlyPriced(w))
  {
    UnpricedRunsDoNotCount(w);
    WholeWindow(th, w);
    WholeWindow(th, OnlyPriced(w));
    JudgeIff(th, w, 0, |w|);
    JudgeIff(th, OnlyPriced(w), 0, |OnlyPriced(w)|);
  }
}
