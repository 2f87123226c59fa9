/** The live MCP tool catalogue: a server's tool list kept in step with a registry that lists every version of every
    tool. */
module ToolCatalog {
  import opened Json

  /** What the registry stores about a tool; `marshals` says whether it can be encoded as JSON. */
  datatype Descriptor = Descriptor(description: string, inputSchema: Option<string>, rest: string, marshals: bool)

  datatype ToolRecord = ToolRecord(name: string, version: string, createdAt: int, updatedAt: int, descriptor: Descriptor)

  /** SHA-256 taken as injective: a digest is what was hashed. A descriptor that does not marshal is identified by
      version and update time alone. */
  datatype Fingerprint = Hashed(version: string, descriptor: Descriptor) | Unhashable(version: string, updatedAt: int)

  datatype Tool = Tool(name: string, description: string, inputSchema: string)

  datatype Change = Change(added: seq<string>, updated: seq<string>, removed: seq<string>)

  /** The catalogue's record of what it registered, the server's tool table, and how often the server was called. */
  datatype State = State(registered: map<string, Fingerprint>, server: map<string, Tool>, calls: nat)

  const OBJECT_SCHEMA := "{\"type\":\"object\"}"

  function FingerprintOf(r: ToolRecord): Fingerprint {
    if r.descriptor.marshals then Hashed(r.version, r.descriptor) else Unhashable(r.version, r.updatedAt)
  }

  function ToolOf(name: string, d: Descriptor): Tool {
    Tool(name, d.description, d.inputSchema.GetOr(OBJECT_SCHEMA))
  }

  // ----- the newest record of each tool

  function Newer(newest: map<string, ToolRecord>, entry: Option<ToolRecord>): map<string, ToolRecord> {
    match entry
    case None => newest
    case Some(r) =>
      if r.name == "" || (r.name in newest && r.createdAt <= newest[r.name].createdAt) then newest
      else newest[r.name := r]
  }

  function Newest(tools: seq<Option<ToolRecord>>): map<string, ToolRecord> {
    if tools == [] then map[] else Newer(Newest(tools[..|tools| - 1]), tools[|tools| - 1])
  }

  /** i is the most recently created row of its tool, and the first such row. */
  predicate IsCurrent(tools: seq<Option<ToolRecord>>, i: nat)
    requires i < |tools|
  {
    tools[i].Some? && tools[i].value.name != "" &&
    forall j | 0 <= j < |tools| && tools[j].Some? && tools[j].value.name == tools[i].value.name ::
      tools[j].value.createdAt <= tools[i].value.createdAt
      && (j < i ==> tools[j].value.createdAt < tools[i].value.createdAt)
  }

  /** A tool is current with exactly its newest row: created last, the earliest row winning a tie, whatever order
      the registry lists versions in. */
  lemma {:induction false} NewestIsCurrent(tools: seq<Option<ToolRecord>>, name: string)
    ensures name in Newest(tools) <==> name != "" && exists i :: 0 <= i < |tools| && tools[i].Some? && tools[i].value.name == name
    ensures name in Newest(tools) ==>
              exists i :: 0 <= i < |tools| && IsCurrent(tools, i) && tools[i] == Some(Newest(tools)[name])
                          && tools[i].value.name == name
    decreases |tools|
  {
    if tools != [] {
      var n := |tools| - 1;
      var before, last := tools[..n], tools[n];
      NewestIsCurrent(before, name);
      assert forall j | 0 <= j < n :: before[j] == tools[j];
      if name in Newest(tools) {
        if last.Some? && last.value.name == name && (name !in Newest(before) || last.value.createdAt > Newest(before)[name].createdAt) {
          assert Newest(tools)[name] == last.value;
          assert IsCurrent(tools, n);
        } else {
          assert Newest(tools)[name] == Newest(before)[name];
          var i :| 0 <= i < n && IsCurrent(before, i) && before[i] == Some(Newest(before)[name]) && before[i].value.name == name;
          assert IsCurrent(tools, i);
        }
      }
    }
  }

  // ----- one Apply

  function Registered(current: map<string, ToolRecord>): map<string, Fingerprint> {
    map n | n in current :: FingerprintOf(current[n])
  }

  predicate Unchanged(st: State, current: map<string, ToolRecord>, n: string) {
    n in current && n in st.registered && st.registered[n] == FingerprintOf(current[n])
  }

  function Served(st: State, current: map<string, ToolRecord>): map<string, Tool> {
    map n | n in current ::
      if Unchanged(st, current, n) && n in st.server then st.server[n] else ToolOf(n, current[n].descriptor)
  }

  function AddedNames(st: State, current: map<string, ToolRecord>): set<string> {
    current.Keys - st.registered.Keys
  }

  function UpdatedNames(st: State, current: map<string, ToolRecord>): set<string> {
    set n | n in current && n in st.registered && st.registered[n] != FingerprintOf(current[n])
  }

  function RemovedNames(st: State, current: map<string, ToolRecord>): set<string> {
    st.registered.Keys - current.Keys
  }

  function CallsFor(st: State, current: map<string, ToolRecord>): nat {
    |AddedNames(st, current)| + |UpdatedNames(st, current)| + |RemovedNames(st, current)|
  }

  function Applied(st: State, tools: seq<Option<ToolRecord>>): State {
    var current := Newest(tools);
    State(Registered(current), Served(st, current), st.calls + CallsFor(st, current))
  }

  // ----- the same, one server call at a time

  /** base, with the entries of top for the keys in `done`. */
  function Overlay<K, V>(base: map<K, V>, top: map<K, V>, done: set<K>): map<K, V>
    requires done <= top.Keys
  {
    map n | n in base.Keys + done :: if n in done then top[n] else base[n]
  }

  lemma OverlayNone<K, V>(base: map<K, V>, top: map<K, V>)
    ensures Overlay(base, top, {}) == base
  {
  }

  lemma OverlayOne<K, V>(base: map<K, V>, top: map<K, V>, done: set<K>, n: K)
    requires done <= top.Keys && n in top && n !in done
    ensures Overlay(base, top, done + {n}) == Overlay(base, top, done)[n := top[n]]
    ensures n in Overlay(base, top, done) <==> n in base
    ensures n in base ==> Overlay(base, top, done)[n] == base[n]
    ensures n in base && base[n] == top[n] ==> Overlay(base, top, done + {n}) == Overlay(base, top, done)
  {
  }

  lemma OverlayAll<K, V>(base: map<K, V>, top: map<K, V>)
    ensures Overlay(base, top, top.Keys).Keys == base.Keys + top.Keys
    ensures Overlay(base, top, top.Keys) - (base.Keys - top.Keys) == top
  {
  }

  /** The state once the names in `done` have been looked at. */
  function Settled(was: State, current: map<string, ToolRecord>, done: set<string>): State
    requires done <= current.Keys && Paired(was)
  {
    State(Overlay(was.registered, Registered(current), done),
          Overlay(was.server, Served(was, current), done),
          was.calls + |AddedNames(was, current) * done| + |UpdatedNames(was, current) * done|)
  }

  lemma GrowByOne<K>(s: set<K>, done: set<K>, n: K)
    requires n !in done
    ensures s * (done + {n}) == if n in s then s * done + {n} else s * done
    ensures |s * (done + {n})| == if n in s then |s * done| + 1 else |s * done|
  {
    if n in s {
      assert s * (done + {n}) == s * done + {n};
    } else {
      assert s * (done + {n}) == s * done;
    }
  }

  lemma WhichName(st: State, current: map<string, ToolRecord>, n: string)
    requires n in current && Paired(st)
    ensures n in AddedNames(st, current) <==> n !in st.registered
    ensures n in UpdatedNames(st, current) <==> n in st.registered && st.registered[n] != FingerprintOf(current[n])
    ensures Registered(current)[n] == FingerprintOf(current[n])
    ensures Served(st, current)[n] == if Unchanged(st, current, n) then st.server[n] else ToolOf(n, current[n].descriptor)
  {
  }

  lemma SettleNone(was: State, current: map<string, ToolRecord>)
    requires Paired(was)
    ensures Settled(was, current, {}) == was
  {
    OverlayNone(was.registered, Registered(current));
    OverlayNone(was.server, Served(was, current));
  }

  function Visited(st: State, name: string, r: ToolRecord): State {
    if name in st.registered && st.registered[name] == FingerprintOf(r) then st
    else State(st.registered[name := FingerprintOf(r)], st.server[name := ToolOf(name, r.descriptor)], st.calls + 1)
  }

  /** Looking at one more tool is one server call and one registration, or nothing when its fingerprint is known. */
  lemma SettleOne(was: State, current: map<string, ToolRecord>, done: set<string>, n: string)
    requires Paired(was) && done <= current.Keys && n in current && n !in done
    ensures n in Settled(was, current, done).registered <==> n in was.registered
    ensures n in was.registered ==> Settled(was, current, done).registered[n] == was.registered[n]
    ensures Settled(was, current, done + {n}) == Visited(Settled(was, current, done), n, current[n])
  {
    WhichName(was, current, n);
    OverlayOne(was.registered, Registered(current), done, n);
    OverlayOne(was.server, Served(was, current), done, n);
    CountOne(was, current, done, n);
  }

  lemma CountOne(was: State, current: map<string, ToolRecord>, done: set<string>, n: string)
    requires Paired(was) && done <= current.Keys && n in current && n !in done
    ensures Settled(was, current, done + {n}).calls ==
            Settled(was, current, done).calls + if Unchanged(was, current, n) then 0 else 1
  {
    WhichName(was, current, n);
    GrowByOne(AddedNames(was, current), done, n);
    GrowByOne(UpdatedNames(was, current), done, n);
  }

  function Withdrawn(st: State, gone: set<string>): State {
    State(st.registered - gone, st.server - gone, st.calls + |gone|)
  }

  function WithoutTool(st: State, name: string): State {
    State(st.registered - {name}, st.server - {name}, st.calls + 1)
  }

  lemma WithdrawNone(st: State)
    ensures Withdrawn(st, {}) == st
  {
    WithoutNone(st.registered);
    WithoutNone(st.server);
  }

  lemma WithoutNone<K, V>(m: map<K, V>)
    ensures m - {} == m
  {
  }

  lemma WithdrawOne(st: State, gone: set<string>, n: string)
    requires n !in gone
    ensures Withdrawn(st, gone + {n}) == WithoutTool(Withdrawn(st, gone), n)
  {
    WithoutOneMore(st.registered, gone, n);
    WithoutOneMore(st.server, gone, n);
  }

  lemma WithoutOneMore<K, V>(m: map<K, V>, gone: set<K>, n: K)
    ensures m - (gone + {n}) == m - gone - {n}
  {
  }

  lemma WithinKeys<K>(s: set<K>, keys: set<K>)
    requires s <= keys
    ensures s * keys == s
  {
  }

  lemma KeysOfApplied(was: State, current: map<string, ToolRecord>)
    requires Paired(was)
    ensures Registered(current).Keys == current.Keys && Served(was, current).Keys == current.Keys
    ensures AddedNames(was, current) <= current.Keys && UpdatedNames(was, current) <= current.Keys
  {
  }

  lemma SettleThenWithdraw(was: State, tools: seq<Option<ToolRecord>>)
    requires Paired(was)
    ensures var current := Newest(tools);
            var settled := Settled(was, current, current.Keys);
            settled.registered.Keys - current.Keys == RemovedNames(was, current)
            && AddedNames(was, current) * current.Keys == AddedNames(was, current)
            && UpdatedNames(was, current) * current.Keys == UpdatedNames(was, current)
            && Withdrawn(settled, RemovedNames(was, current)) == Applied(was, tools)
  {
    var current := Newest(tools);
    KeysOfApplied(was, current);
    WithinKeys(AddedNames(was, current), current.Keys);
    WithinKeys(UpdatedNames(was, current), current.Keys);
    OverlayAll(was.registered, Registered(current));
    OverlayAll(was.server, Served(was, current));
  }

  /** xs lists the elements of s, each once. */
  ghost predicate Lists<K(!new)>(xs: seq<K>, s: set<K>) {
    (forall x :: x in xs <==> x in s) && |xs| == |s|
  }

  lemma ListOneMore<K(!new)>(xs: seq<K>, s: set<K>, n: K)
    requires Lists(xs, s) && n !in s
    ensures Lists(xs + [n], s + {n})
  {
  }

  lemma MoreNames<K(!new)>(xs: seq<K>, s: set<K>, done: set<K>, n: K)
    requires Lists(xs, s * done) && n !in done
    ensures Lists(if n in s then xs + [n] else xs, s * (done + {n}))
  {
    GrowByOne(s, done, n);
    if n in s {
      ListOneMore(xs, s * done, n);
    }
  }

  ghost predicate Splits<K>(all: set<K>, done: set<K>, left: set<K>) {
    done + left == all && done !! left
  }

  lemma MoveOne<K>(all: set<K>, done: set<K>, left: set<K>, n: K)
    requires Splits(all, done, left) && n in left
    ensures Splits(all, done + {n}, left - {n}) && n !in done && n in all && done <= all && |left - {n}| < |left|
  {
  }

  lemma MovedAll<K>(all: set<K>, done: set<K>)
    requires Splits(all, done, {})
    ensures done == all
  {
  }

  /** The report lists what the tools looked at so far brought. */
  ghost predicate Reported(was: State, current: map<string, ToolRecord>, done: set<string>, added: seq<string>, updated: seq<string>) {
    Lists(added, AddedNames(was, current) * done) && Lists(updated, UpdatedNames(was, current) * done)
  }

  lemma ReportOne(was: State, current: map<string, ToolRecord>, done: set<string>, added: seq<string>, updated: seq<string>, n: string)
    requires Reported(was, current, done, added, updated) && Paired(was)
    requires done <= current.Keys && n in current && n !in done
    ensures Reported(was, current, done + {n}, if n in was.registered then added else added + [n],
                     if n in was.registered && was.registered[n] != FingerprintOf(current[n]) then updated + [n] else updated)
  {
    WhichName(was, current, n);
    MoreNames(added, AddedNames(was, current), done, n);
    MoreNames(updated, UpdatedNames(was, current), done, n);
  }

  /** One more tool looked at: the state and the report both move on. */
  lemma LookOne(was: State, current: map<string, ToolRecord>, left: set<string>, done: set<string>,
                st: State, added: seq<string>, updated: seq<string>, n: string)
    requires Looked(was, current, left, done, st, added, updated) && n in left && n in current
    ensures var known := n in st.registered;
            var changed := !(known && st.registered[n] == FingerprintOf(current[n]));
            Looked(was, current, left - {n}, done + {n}, Visited(st, n, current[n]),
                   if changed && !known then added + [n] else added, if changed && known then updated + [n] else updated)
            && |left - {n}| < |left|
  {
    MoveOne(current.Keys, done, left, n);
    SettleOne(was, current, done, n);
    ReportOne(was, current, done, added, updated, n);
  }

  ghost predicate Looked(was: State, current: map<string, ToolRecord>, left: set<string>, done: set<string>, st: State,
                         added: seq<string>, updated: seq<string>)
  {
    Paired(was) && done <= current.Keys && Splits(current.Keys, done, left) && st == Settled(was, current, done)
    && Reported(was, current, done, added, updated)
  }

  lemma LookedAll(was: State, current: map<string, ToolRecord>, done: set<string>, st: State, added: seq<string>, updated: seq<string>)
    requires Looked(was, current, {}, done, st, added, updated)
    ensures st == Settled(was, current, current.Keys) && Reported(was, current, current.Keys, added, updated)
  {
    MovedAll(current.Keys, done);
  }

  lemma LookedNone(was: State, current: map<string, ToolRecord>)
    requires Paired(was)
    ensures Looked(was, current, current.Keys, {}, was, [], [])
  {
    SettleNone(was, current);
    ListNone(AddedNames(was, current));
    ListNone(UpdatedNames(was, current));
  }

  lemma ListNone<K(!new)>(s: set<K>)
    ensures Lists<K>([], s * {})
  {
    assert s * {} == {};
  }

  class Catalog {
    var registered: map<string, Fingerprint>
    var server: map<string, Tool>
    var calls: nat

    function Value(): State
      reads this
    {
      State(registered, server, calls)
    }

    constructor ()
      ensures Value() == State(map[], map[], 0)
    {
      registered, server, calls := map[], map[], 0;
    }

    /** Loads or refreshes: adds, replaces and removes only what differs, one server call each. */
    method Apply(tools: seq<Option<ToolRecord>>) returns (change: Change)
      requires Paired(Value())
      modifies this
      ensures Value() == Applied(old(Value()), tools)
      ensures Lists(change.added, AddedNames(old(Value()), Newest(tools)))
      ensures Lists(change.updated, UpdatedNames(old(Value()), Newest(tools)))
      ensures Lists(change.removed, RemovedNames(old(Value()), Newest(tools)))
    {
      var current := CurrentVersions(tools);
      SettleThenWithdraw(Value(), tools);
      var added, updated := AddOrReplace(current);
      var removed := RemoveGone(current);
      change := Change(added, updated, removed);
    }

    method AddOrReplace(current: map<string, ToolRecord>) returns (added: seq<string>, updated: seq<string>)
      requires Paired(Value())
      modifies this
      ensures Value() == Settled(old(Value()), current, current.Keys)
      ensures Reported(old(Value()), current, current.Keys, added, updated)
    {
      ghost var was := Value();
      added, updated := [], [];
      var left := current.Keys;
      ghost var done: set<string> := {};
      LookedNone(was, current);
      while left != {}
        invariant left <= current.Keys && Looked(was, current, left, done, Value(), added, updated)
        decreases |left|
      {
        var n :| n in left;
        LookOne(was, current, left, done, Value(), added, updated, n);
        var known, changed := Visit(n, current[n]);
        if changed {
          if known { updated := updated + [n]; } else { added := added + [n]; }
        }
        done := done + {n};
        left := left - {n};
      }
      LookedAll(was, current, done, Value(), added, updated);
    }

    method Visit(name: string, r: ToolRecord) returns (known: bool, changed: bool)
      modifies this
      ensures known <==> name in old(registered)
      ensures changed <==> !(known && old(registered)[name] == FingerprintOf(r))
      ensures Value() == Visited(old(Value()), name, r)
    {
      var fp := FingerprintOf(r);
      known := name in registered;
      if known && registered[name] == fp { return known, false; }
      AddTool(ToolOf(name, r.descriptor));
      registered := registered[name := fp];
      changed := true;
    }

    method RemoveGone(current: map<string, ToolRecord>) returns (removed: seq<string>)
      modifies this
      ensures Value() == Withdrawn(old(Value()), old(registered).Keys - current.Keys)
      ensures Lists(removed, old(registered).Keys - current.Keys)
    {
      ghost var was := Value();
      removed := [];
      var left := registered.Keys - current.Keys;
      ghost var gone := left;
      ghost var done: set<string> := {};
      WithdrawNone(was);
      while left != {}
        invariant Splits(gone, done, left)
        invariant Value() == Withdrawn(was, done)
        invariant Lists(removed, done)
        decreases |left|
      {
        var n :| n in left;
        MoveOne(gone, done, left, n);
        WithdrawOne(was, done, n);
        ListOneMore(removed, done, n);
        Withdraw(n);
        removed := removed + [n];
        done := done + {n};
        left := left - {n};
      }
      MovedAll(gone, done);
    }

    method Withdraw(name: string)
      modifies this
      ensures Value() == WithoutTool(old(Value()), name)
    {
      RemoveTool(name);
      registered := registered - {name};
    }

    method AddTool(tool: Tool)
      modifies this`server, this`calls
      ensures server == old(server)[tool.name := tool] && calls == old(calls) + 1
    {
      server, calls := server[tool.name := tool], calls + 1;
    }

    method RemoveTool(name: string)
      modifies this`server, this`calls
      ensures server == old(server) - {name} && calls == old(calls) + 1
    {
      server, calls := server - {name}, calls + 1;
    }

    /** The poll loop: one tick per read of the registry, until the process stops. */
    method Watch(ticks: seq<Tick>, interval: int)
      requires Paired(Value())
      modifies this
      ensures Value() == if interval <= 0 then old(Value()) else Replayed(old(Value()), ticks)
    {
      if interval <= 0 { return; }
      ghost var was := Value();
      for i := 0 to |ticks|
        invariant Paired(Value())
        invariant Value() == Replayed(was, ticks[..i])
      {
        assert ticks[..i + 1][..i] == ticks[..i];
        if ticks[i].Read? {
          var _ := Apply(ticks[i].tools);
        }
      }
      assert ticks[..|ticks|] == ticks;
    }
  }

  // ----- whole histories

  /** One poll: what the registry listed, or a failed read. */
  datatype Tick = Read(tools: seq<Option<ToolRecord>>) | Failed

  function Replayed(st: State, ticks: seq<Tick>): (after: State)
    decreases |ticks|
  {
    if ticks == [] then st else
    var before := Replayed(st, ticks[..|ticks| - 1]);
    match ticks[|ticks| - 1]
    case Read(tools) => Applied(before, tools)
    case Failed => before
  }

  const EMPTY := State(map[], map[], 0)

  predicate Paired(st: State) {
    st.registered.Keys == st.server.Keys
  }

  /** What a server shows for a tool known by its descriptor's digest is what that descriptor says. */
  predicate Sound(st: State) {
    Paired(st) &&
    forall n | n in st.registered && st.registered[n].Hashed? :: st.server[n] == ToolOf(n, st.registered[n].descriptor)
  }

  lemma {:induction false} HistoriesAreSound(ticks: seq<Tick>)
    ensures Sound(Replayed(EMPTY, ticks))
    decreases |ticks|
  {
    if ticks != [] {
      HistoriesAreSound(ticks[..|ticks| - 1]);
      var before := Replayed(EMPTY, ticks[..|ticks| - 1]);
      match ticks[|ticks| - 1]
      case Read(tools) => ApplyKeepsSound(before, tools);
      case Failed =>
    }
  }

  lemma ApplyKeepsSound(st: State, tools: seq<Option<ToolRecord>>)
    requires Sound(st)
    ensures Sound(Applied(st, tools))
  {
    var current := Newest(tools);
    forall n | n in current && FingerprintOf(current[n]).Hashed?
      ensures Served(st, current)[n] == ToolOf(n, current[n].descriptor)
    {
    }
  }

  /** A current tool whose descriptor does not marshal, whose version and update time were seen before, and which the
      server shows differently. */
  predicate Stale(st: State, current: map<string, ToolRecord>, n: string) {
    n in current && !current[n].descriptor.marshals && n in st.registered && n in st.server
    && st.registered[n] == Unhashable(current[n].version, current[n].updatedAt)
    && st.server[n] != ToolOf(n, current[n].descriptor)
  }

  lemma ServedIsFreshUnlessStale(st: State, current: map<string, ToolRecord>, n: string)
    requires Sound(st) && n in current
    ensures Served(st, current)[n] == ToolOf(n, current[n].descriptor) <==> !Stale(st, current, n)
  {
  }

  lemma ColdStart(tools: seq<Option<ToolRecord>>)
    ensures var current := Newest(tools);
            Applied(EMPTY, tools).server.Keys == current.Keys
            && forall n | n in current :: Applied(EMPTY, tools).server[n] == ToolOf(n, current[n].descriptor)
  {
  }

  lemma SameMap<K, V>(a: map<K, V>, b: map<K, V>)
    requires a.Keys == b.Keys && forall k | k in a :: a[k] == b[k]
    ensures a == b
  {
  }

  /** A refresh shows what a cold start from the same rows would, exactly when no current tool is stale. */
  lemma RefreshIsColdStartIff(st: State, tools: seq<Option<ToolRecord>>)
    requires Sound(st)
    ensures Applied(st, tools).registered == Applied(EMPTY, tools).registered
    ensures Applied(st, tools).server == Applied(EMPTY, tools).server <==> forall n :: !Stale(st, Newest(tools), n)
  {
    var current := Newest(tools);
    var warm, cold := Served(st, current), Applied(EMPTY, tools).server;
    ColdStart(tools);
    forall n | n in current
      ensures warm[n] == cold[n] <==> !Stale(st, current, n)
    {
      ServedIsFreshUnlessStale(st, current, n);
    }
    if forall n :: !Stale(st, current, n) {
      SameMap(warm, cold);
    }
  }

  lemma FailedReadsChangeNothing(ticks: seq<Tick>, failures: nat)
    ensures Replayed(EMPTY, ticks + seq(failures, _ => Failed)) == Replayed(EMPTY, ticks)
    decreases failures
  {
    var all := ticks + seq(failures, _ => Failed);
    if failures == 0 {
      assert all == ticks;
    } else {
      FailedReadsChangeNothing(ticks, failures - 1);
      assert all[..|all| - 1] == ticks + seq(failures - 1, _ => Failed);
    }
  }

  /** Whatever was applied before, and through any failed reads after it, the table is a cold start from the last
      list read, provided its current descriptors marshal. */
  lemma HistoryDoesNotMatter(before: seq<Tick>, tools: seq<Option<ToolRecord>>, failures: nat)
    requires forall n | n in Newest(tools) :: Newest(tools)[n].descriptor.marshals
    ensures var after := Replayed(EMPTY, before + [Read(tools)] + seq(failures, _ => Failed));
            var cold := Applied(EMPTY, tools);
            after.server == cold.server && after.registered == cold.registered
  {
    var ticks := before + [Read(tools)];
    FailedReadsChangeNothing(ticks, failures);
    assert ticks[..|ticks| - 1] == before;
    HistoriesAreSound(before);
    var st := Replayed(EMPTY, before);
    assert Replayed(EMPTY, ticks) == Applied(st, tools);
    RefreshIsColdStartIff(st, tools);
  }

  /** What a client finds on the server after any history, read off the rows of the last list read: a tool for each name
      listed, with the description and input schema of that name's newest row, and the schema of any object where the row
      has none. */
  lemma ServerShowsNewestRows(before: seq<Tick>, tools: seq<Option<ToolRecord>>, failures: nat, i: nat)
    requires forall j | 0 <= j < |tools| && tools[j].Some? :: tools[j].value.descriptor.marshals
    ensures var server := Replayed(EMPTY, before + [Read(tools)] + seq(failures, _ => Failed)).server;
            (forall name :: name in server <==>
               name != "" && exists j :: 0 <= j < |tools| && tools[j].Some? && tools[j].value.name == name)
            && (i < |tools| && IsCurrent(tools, i) ==>
                  var row := tools[i].value;
                  row.name in server && server[row.name].name == row.name
                  && server[row.name].description == row.descriptor.description
                  && (row.descriptor.inputSchema.Some? ==> server[row.name].inputSchema == row.descriptor.inputSchema.value)
                  && (row.descriptor.inputSchema.None? ==> server[row.name].inputSchema == "{\"type\":\"object\"}"))
  {
    var server := Replayed(EMPTY, before + [Read(tools)] + seq(failures, _ => Failed)).server;
    forall n | n in Newest(tools) ensures Newest(tools)[n].descriptor.marshals { NewestIsCurrent(tools, n); }
    HistoryDoesNotMatter(before, tools, failures);
    ColdStart(tools);
    assert server.Keys == Newest(tools).Keys;
    forall name
      ensures name in server <==>
                name != "" && exists j :: 0 <= j < |tools| && tools[j].Some? && tools[j].value.name == name
    {
      NewestIsCurrent(tools, name);
    }
    if i < |tools| && IsCurrent(tools, i) {
      var name := tools[i].value.name;
      NewestIsCurrent(tools, name);
      var k :| 0 <= k < |tools| && IsCurrent(tools, k) && tools[k] == Some(Newest(tools)[name]) && tools[k].value.name == name;
      OneCurrent(tools, i, k);
    }
  }

  lemma OneCurrent(tools: seq<Option<ToolRecord>>, i: nat, k: nat)
    requires i < |tools| && k < |tools| && IsCurrent(tools, i) && IsCurrent(tools, k)
    requires tools[i].value.name == tools[k].value.name
    ensures i == k
  {
  }

  /** A tool listed in two reads in a row is reported updated exactly when its newest row changed in version or in what
      it says of itself; where that cannot be encoded, in version or update time. */
  lemma UpdatedIffTheRowChanged(st: State, first: seq<Option<ToolRecord>>, second: seq<Option<ToolRecord>>, n: string)
    requires n in Newest(first) && n in Newest(second)
    ensures var a, b := Newest(first)[n], Newest(second)[n];
            n in UpdatedNames(Applied(st, first), Newest(second)) <==>
              a.version != b.version || a.descriptor.marshals != b.descriptor.marshals
              || (a.descriptor.marshals && a.descriptor != b.descriptor)
              || (!a.descriptor.marshals && a.updatedAt != b.updatedAt)
  {
  }

  /** A second read leaves the server showing something else than a cold start from it would. */
  predicate GoesStale(first: seq<Option<ToolRecord>>, second: seq<Option<ToolRecord>>) {
    Replayed(EMPTY, [Read(first), Read(second)]).server != Applied(EMPTY, second).server
  }

  /** Two rows of one unmarshallable tool, told apart by their descriptions only: the second is never served. */
  lemma UnmarshallableToolGoesStale() returns (first: seq<Option<ToolRecord>>, second: seq<Option<ToolRecord>>)
    ensures GoesStale(first, second)
  {
    var one := ToolRecord("t", "1", 0, 0, Descriptor("a", None, "", false));
    var two := one.(descriptor := Descriptor("b", None, "", false));
    assert "a"[0] != "b"[0];
    StaleRow(one, two);
    first, second := [Some(one)], [Some(two)];
  }

  lemma StaleRow(one: ToolRecord, two: ToolRecord)
    requires one.name == two.name != "" && FingerprintOf(one) == FingerprintOf(two)
    requires one.descriptor.description != two.descriptor.description
    ensures GoesStale([Some(one)], [Some(two)])
  {
    TwoReads([Some(one)], [Some(two)]);
    AppliedOne(EMPTY, one);
    AppliedOne(Applied(EMPTY, [Some(one)]), two);
    AppliedOne(EMPTY, two);
  }

  lemma TwoReads(first: seq<Option<ToolRecord>>, second: seq<Option<ToolRecord>>)
    ensures Replayed(EMPTY, [Read(first), Read(second)]) == Applied(Applied(EMPTY, first), second)
  {
    var ticks := [Read(first), Read(second)];
    assert ticks[..1] == [Read(first)] && [Read(first)][..0] == [];
    assert Replayed(EMPTY, []) == EMPTY;
    assert Replayed(EMPTY, ticks[..1]) == Applied(EMPTY, first);
  }

  lemma AppliedOne(st: State, r: ToolRecord)
    requires r.name != ""
    ensures var after := Applied(st, [Some(r)]);
            after.registered == map[r.name := FingerprintOf(r)]
            && after.server.Keys == {r.name}
            && after.server[r.name] ==
               if r.name in st.registered && st.registered[r.name] == FingerprintOf(r) && r.name in st.server
               then st.server[r.name] else ToolOf(r.name, r.descriptor)
  {
    NewestOfOne(r);
  }

  lemma NewestOfOne(r: ToolRecord)
    requires r.name != ""
    ensures Newest([Some(r)]) == map[r.name := r]
  {
    assert [Some(r)][..0] == [];
    assert Newest([]) == map[];
  }

  /** A change report is a partition of the difference between two tables, named by fingerprint. */
  lemma ChangeIsTheDifference(st: State, tools: seq<Option<ToolRecord>>, n: string)
    ensures var current := Newest(tools);
            var after := Applied(st, tools);
            var added, updated, removed := AddedNames(st, current), UpdatedNames(st, current), RemovedNames(st, current);
            added !! updated && updated !! removed && added !! removed
            && (n in added <==> n in after.registered && n !in st.registered)
            && (n in removed <==> n in st.registered && n !in after.registered)
            && (n in updated <==> n in st.registered && n in after.registered && st.registered[n] != after.registered[n])
            && (n !in added + updated + removed && Paired(st) ==>
                  (n in st.server <==> n in after.server) && (n in st.server ==> st.server[n] == after.server[n]))
  {
  }

  /** Applying what the catalogue already holds calls the server not once and changes nothing. */
  lemma ReapplyIsSilent(st: State, tools: seq<Option<ToolRecord>>)
    requires Paired(st)
    ensures var after := Applied(st, tools); Applied(after, tools) == after
    ensures CallsFor(Applied(st, tools), Newest(tools)) == 0
  {
    var current := Newest(tools);
    var after := Applied(st, tools);
    KeysOfApplied(st, current);
    KeysOfApplied(after, current);
    forall n | n in current
      ensures Unchanged(after, current, n) && Served(after, current)[n] == after.server[n]
    {
      WhichName(after, current, n);
    }
    assert UpdatedNames(after, current) == {};
    SameMap(Served(after, current), after.server);
  }

  // ----- several sources read as one

  datatype Listing = Rows(rows: seq<Option<ToolRecord>>) | ReadError(message: string)

  function Joined(answers: seq<Listing>): seq<Option<ToolRecord>> {
    if answers == [] then [] else
    Joined(answers[..|answers| - 1]) + match answers[|answers| - 1] case Rows(rows) => rows case ReadError(_) => []
  }

  /** All the sources' rows in order, or the first failure: never a partial list. `asked` counts the sources read. */
  method ListMerged(answers: seq<Listing>) returns (merged: Listing, asked: nat)
    ensures merged.Rows? <==> forall i :: 0 <= i < |answers| ==> answers[i].Rows?
    ensures merged.Rows? ==> merged.rows == Joined(answers) && asked == |answers|
    ensures merged.ReadError? ==>
              0 < asked <= |answers| && merged == answers[asked - 1]
              && forall i :: 0 <= i < asked - 1 ==> answers[i].Rows?
  {
    var all: seq<Option<ToolRecord>> := [];
    for i := 0 to |answers|
      invariant forall j :: 0 <= j < i ==> answers[j].Rows?
      invariant all == Joined(answers[..i])
    {
      assert answers[..i + 1][..i] == answers[..i];
      match answers[i]
      case Rows(rows) => all := all + rows;
      case ReadError(_) => return answers[i], i + 1;
    }
    assert answers[..|answers|] == answers;
    return Rows(all), |answers|;
  }

  method CurrentVersions(tools: seq<Option<ToolRecord>>) returns (newest: map<string, ToolRecord>)
    ensures newest == Newest(tools)
  {
    newest := map[];
    for i := 0 to |tools|
      invariant newest == Newest(tools[..i])
    {
      assert tools[..i + 1][..i] == tools[..i];
      if tools[i].Some? && tools[i].value.name != "" {
        var r := tools[i].value;
        if r.name !in newest || r.createdAt > newest[r.name].createdAt {
          newest := newest[r.name := r];
        }
      }
    }
    assert tools[..|tools|] == tools;
  }
}
