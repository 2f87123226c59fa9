/** The effects ledger, and what step numbers and the ledger achieve together: under any pattern of retries, each
    scheduled tool call takes effect once and every attempt at it sees the first attempt's result. */
module Idempotency {
  import opened Json
  import opened GraphRun
  import GraphSafety

  type Entries = map<Value, Value>

  function Recorded(m: Entries, key: Value, result: Value): Entries {
    if key in m then m else m[key := result]
  }

  /** What is at the ledger's path. */
  datatype File = Missing | Garbled | Holds(entries: Entries)

  /** A missing or undecodable file reads as an empty ledger. */
  function Read(f: File): Entries {
    if f.Holds? then f.entries else map[]
  }

  /** A file-backed table of effects; the file survives the process. */
  class EffectsLedger {
    var file: File

    /** Opening a path that already holds a file keeps it. */
    constructor (onDisk: File)
      ensures file == if onDisk.Missing? then Holds(map[]) else onDisk
    {
      file := if onDisk.Missing? then Holds(map[]) else onDisk;
    }

    method RecordOnce(key: Value, result: Value) returns (deduplicated: bool, recorded: Value)
      modifies this
      ensures Read(file) == Recorded(Read(old(file)), key, result)
      ensures deduplicated ==> file == old(file)
      ensures !deduplicated ==> file.Holds?
      ensures deduplicated == (key in Read(old(file)))
      ensures key in Read(file) && recorded == Read(file)[key]
    {
      var ledger := Read(file);
      if key in ledger {
        return true, ledger[key];
      }
      file := Holds(ledger[key := result]);
      return false, result;
    }

    method Count(key: Value) returns (n: nat)
      ensures n == Counted(Read(file), key)
    {
      n := if key in Read(file) then 1 else 0;
    }
  }

  function Counted(m: Entries, key: Value): nat {
    if key in m then 1 else 0
  }

  /** One execution attempt of an activity: the key it derives and the result it would record. */
  datatype Attempt = Attempt(key: Value, result: Value)

  datatype Answer = Answer(deduplicated: bool, recorded: Value)

  /** The ledger after a series of attempts. */
  function After(m: Entries, attempts: seq<Attempt>): Entries
    decreases |attempts|
  {
    if attempts == [] then m
    else
      var last := attempts[|attempts| - 1];
      Recorded(After(m, attempts[..|attempts| - 1]), last.key, last.result)
  }

  /** What attempt i is told: the answer of RecordOnce on the ledger the earlier attempts left. */
  function AnswerTo(m: Entries, attempts: seq<Attempt>, i: nat): Answer
    requires i < |attempts|
  {
    var before := After(m, attempts[..i]);
    Answer(attempts[i].key in before, Recorded(before, attempts[i].key, attempts[i].result)[attempts[i].key])
  }

  /** i is the first attempt with its key. */
  predicate IsFirst(attempts: seq<Attempt>, i: nat)
    requires i < |attempts|
  {
    forall j | 0 <= j < i :: attempts[j].key != attempts[i].key
  }

  /** A key ends up with the result of the first attempt that carried it, and with none if no attempt did. */
  lemma {:induction false} FirstAttemptWins(attempts: seq<Attempt>, key: Value)
    ensures key in After(map[], attempts) <==> exists i :: 0 <= i < |attempts| && attempts[i].key == key
    ensures forall i | 0 <= i < |attempts| && attempts[i].key == key && IsFirst(attempts, i) ::
              key in After(map[], attempts) && After(map[], attempts)[key] == attempts[i].result
    decreases |attempts|
  {
    if attempts != [] {
      var n := |attempts| - 1;
      var rest := attempts[..n];
      FirstAttemptWins(rest, key);
      assert forall i | 0 <= i < n :: attempts[i] == rest[i];
      forall i | 0 <= i < |attempts| && attempts[i].key == key && IsFirst(attempts, i)
        ensures key in After(map[], attempts) && After(map[], attempts)[key] == attempts[i].result
      {
        if i < n { assert IsFirst(rest, i); }
      }
      if exists i :: 0 <= i < |attempts| && attempts[i].key == key {
        var i :| 0 <= i < |attempts| && attempts[i].key == key;
        if i < n { assert rest[i].key == key; }
      }
    }
  }

  lemma {:induction false} FirstExists(attempts: seq<Attempt>, i: nat) returns (f: nat)
    requires i < |attempts|
    ensures f <= i && attempts[f].key == attempts[i].key && IsFirst(attempts, f)
  {
    f := i;
    if !IsFirst(attempts, i) {
      var j :| 0 <= j < i && attempts[j].key == attempts[i].key;
      f := FirstExists(attempts, j);
    }
  }

  /** How many attempts at a key wrote. */
  function Writes(attempts: seq<Attempt>, key: Value): nat
    decreases |attempts|
  {
    if attempts == [] then 0
    else
      var n := |attempts| - 1;
      Writes(attempts[..n], key)
      + if attempts[n].key == key && !AnswerTo(map[], attempts, n).deduplicated then 1 else 0
  }

  /** The count is the number of writes that happened under a key: none before an attempt at it, one ever after. */
  lemma {:induction false} CountIsWrites(attempts: seq<Attempt>, key: Value)
    ensures Counted(After(map[], attempts), key) == Writes(attempts, key)
    ensures Writes(attempts, key) == if exists i :: 0 <= i < |attempts| && attempts[i].key == key then 1 else 0
    decreases |attempts|
  {
    FirstAttemptWins(attempts, key);
    if attempts != [] {
      CountIsWrites(attempts[..|attempts| - 1], key);
    }
  }

  // ----- tool calls of a run

  /** derive_idempotency_key: an injective function of run, node, step number and arguments. */
  function KeyOf(runId: string, d: ToolDispatch): Value {
    Key(runId, d.nodeId, d.stepSeq, d.args)
  }

  /** An attempt at the i-th scheduled tool call of a run. */
  datatype CallAttempt = CallAttempt(call: nat, result: Value)

  function AttemptsAt(runId: string, tools: seq<ToolDispatch>, tries: seq<CallAttempt>): seq<Attempt>
    requires forall k | 0 <= k < |tries| :: tries[k].call < |tools|
  {
    seq(|tries|, k requires 0 <= k < |tries| => Attempt(KeyOf(runId, tools[tries[k].call]), tries[k].result))
  }

  /** Exactly-once effects. Whatever schedule a run took and however its tool calls were retried and interleaved,
      an attempt writes iff it is the first at its call, and is told the result of that first attempt. */
  lemma ExactlyOnce(n: Node, runId: string, b: Limits, moves: seq<Move>, t': Task, s': Run, tries: seq<CallAttempt>, k: nat)
    returns (f: nat)
    requires Execute(Root(n), NewRun(runId), b, moves) == Some((t', s'))
    requires forall k | 0 <= k < |tries| :: tries[k].call < |s'.tools|
    requires k < |tries|
    ensures f <= k && tries[f].call == tries[k].call
    ensures forall j | 0 <= j < f :: tries[j].call != tries[k].call
    ensures AnswerTo(map[], AttemptsAt(runId, s'.tools, tries), k) == Answer(f < k, tries[f].result)
  {
    var attempts := AttemptsAt(runId, s'.tools, tries);
    forall i, j | 0 <= i < |tries| && 0 <= j < |tries| && attempts[i].key == attempts[j].key
      ensures tries[i].call == tries[j].call
    {
      var x, y := tries[i].call, tries[j].call;
      if x < y {
        GraphSafety.StepNumbersDistinct(n, runId, b, moves, t', s', x, y);
      } else if y < x {
        GraphSafety.StepNumbersDistinct(n, runId, b, moves, t', s', y, x);
      }
    }
    f := FirstExists(attempts, k);
    FirstAttemptWins(attempts[..k], attempts[k].key);
    if f < k {
      assert attempts[..k][f] == attempts[f];
      assert IsFirst(attempts[..k], f);
    } else {
      assert forall i | 0 <= i < k :: attempts[..k][i].key == attempts[i].key != attempts[k].key;
    }
    assert forall j | 0 <= j < f :: attempts[j].key != attempts[f].key;
    assert forall j | 0 <= j < f && tries[j].call == tries[k].call :: attempts[j].key == attempts[k].key;
  }
}
