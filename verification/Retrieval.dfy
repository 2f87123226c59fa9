/** The retrieval gateway: access control and scoring per connector, a cache of each connector's truncated list, and a
    final sort over all of them. */
module Retrieval {
  import opened StableSort

  datatype Document = Document(id: string, text: string, acl: set<string>)

  /** A registered connector: its name and the raw candidates it returns for a query. */
  datatype Source = Source(name: string, search: string -> seq<Document>)

  datatype CacheKey = CacheKey(name: string, query: string, scopes: set<string>, topK: nat)

  type Cache = map<CacheKey, seq<Scored<Document>>>

  type Scorer = (string, Document) -> real

  /** Public, or in one of the caller's scopes. */
  predicate Visible(d: Document, scopes: set<string>) {
    d.acl == {} || d.acl * scopes != {}
  }

  /** The visible candidates with their scores, in the connector's order. */
  function VisibleScored(score: Scorer, query: string, scopes: set<string>, docs: seq<Document>): seq<Scored<Document>> {
    if docs == [] then []
    else if Visible(docs[0], scopes) then
      [Scored(docs[0], score(query, docs[0]))] + VisibleScored(score, query, scopes, docs[1..])
    else VisibleScored(score, query, scopes, docs[1..])
  }

  /** What one connector contributes when it is asked. */
  function Asked(score: Scorer, s: Source, query: string, scopes: set<string>, topK: nat): seq<Scored<Document>> {
    Take(topK, Sort(VisibleScored(score, query, scopes, s.search(query))))
  }

  function KeyFor(s: Source, query: string, scopes: set<string>, topK: nat): CacheKey {
    CacheKey(s.name, query, scopes, topK)
  }

  function Contribution(score: Scorer, cache: Cache, s: Source, query: string, scopes: set<string>, topK: nat)
    : seq<Scored<Document>>
  {
    var key := KeyFor(s, query, scopes, topK);
    if key in cache then cache[key] else Asked(score, s, query, scopes, topK)
  }

  /** The cache after the sources were visited in order. */
  function Filled(score: Scorer, cache: Cache, sources: seq<Source>, query: string, scopes: set<string>, topK: nat): Cache
    decreases |sources|
  {
    if sources == [] then cache
    else
      var n := |sources| - 1;
      var before := Filled(score, cache, sources[..n], query, scopes, topK);
      before[KeyFor(sources[n], query, scopes, topK) := Contribution(score, before, sources[n], query, scopes, topK)]
  }

  /** The lists the sources contribute in turn, the later ones seeing what the earlier ones cached. */
  function Contributions(score: Scorer, cache: Cache, sources: seq<Source>, query: string, scopes: set<string>, topK: nat)
    : seq<seq<Scored<Document>>>
    decreases |sources|
  {
    if sources == [] then []
    else
      var n := |sources| - 1;
      Contributions(score, cache, sources[..n], query, scopes, topK)
      + [Contribution(score, Filled(score, cache, sources[..n], query, scopes, topK), sources[n], query, scopes, topK)]
  }

  function SearchResult(score: Scorer, cache: Cache, sources: seq<Source>, query: string, scopes: set<string>, topK: nat)
    : seq<Scored<Document>>
  {
    Take(topK, Sort(Flatten(Contributions(score, cache, sources, query, scopes, topK))))
  }

  /** Registering a name again replaces the connector and keeps its place. */
  function Registered(sources: seq<Source>, s: Source): seq<Source>
    decreases |sources|
  {
    if sources == [] then [s]
    else if sources[0].name == s.name then [s] + sources[1..]
    else [sources[0]] + Registered(sources[1..], s)
  }

  class Gateway {
    const score: Scorer
    var sources: seq<Source>
    var cache: Cache

    constructor (score: Scorer)
      ensures this.score == score && sources == [] && cache == map[]
    {
      this.score := score;
      sources, cache := [], map[];
    }

    method RegisterConnector(name: string, search: string -> seq<Document>)
      modifies this`sources
      ensures sources == Registered(old(sources), Source(name, search))
    {
      ghost var all := Registered(sources, Source(name, search));
      var i := 0;
      while i < |sources| && sources[i].name != name
        invariant i <= |sources|
        invariant all == sources[..i] + Registered(sources[i..], Source(name, search))
      {
        assert sources[i..][0] == sources[i] && sources[i..][1..] == sources[i + 1..];
        i := i + 1;
      }
      assert sources == sources[..i] + sources[i..];
      if i < |sources| {
        assert sources[i..][1..] == sources[i + 1..];
        sources := sources[..i] + [Source(name, search)] + sources[i + 1..];
      } else {
        sources := sources + [Source(name, search)];
      }
    }

    method Search(query: string, scopes: set<string>, topK: nat) returns (r: seq<Scored<Document>>)
      modifies this`cache
      ensures r == SearchResult(score, old(cache), sources, query, scopes, topK)
      ensures cache == Filled(score, old(cache), sources, query, scopes, topK)
    {
      ghost var before := cache;
      var results: seq<Scored<Document>> := [];
      for i := 0 to |sources|
        invariant cache == Filled(score, before, sources[..i], query, scopes, topK)
        invariant results == Flatten(Contributions(score, before, sources[..i], query, scopes, topK))
      {
        var s := sources[i];
        assert sources[..i + 1][..i] == sources[..i] && sources[..i + 1][i] == s;
        FlattenAppend(Contributions(score, before, sources[..i], query, scopes, topK),
                      Contribution(score, cache, s, query, scopes, topK));
        var key := KeyFor(s, query, scopes, topK);
        if key in cache {
          results := results + cache[key];
          assert cache == cache[key := cache[key]];
        } else {
          var candidates := s.search(query);
          var visible := FilterVisible(query, scopes, candidates);
          var top := Take(topK, Sort(visible));
          cache := cache[key := top];
          results := results + top;
        }
      }
      assert sources[..|sources|] == sources;
      r := Take(topK, Sort(results));
    }

    method FilterVisible(query: string, scopes: set<string>, docs: seq<Document>) returns (r: seq<Scored<Document>>)
      ensures r == VisibleScored(score, query, scopes, docs)
    {
      r := [];
      for i := 0 to |docs|
        invariant VisibleScored(score, query, scopes, docs) == r + VisibleScored(score, query, scopes, docs[i..])
      {
        assert docs[i..][0] == docs[i] && docs[i..][1..] == docs[i + 1..];
        if Visible(docs[i], scopes) {
          r := r + [Scored(docs[i], score(query, docs[i]))];
        }
      }
    }
  }

  lemma {:induction false} FlattenAppend<T>(lists: seq<seq<T>>, last: seq<T>)
    ensures Flatten(lists + [last]) == Flatten(lists) + last
  {
    if lists == [] {
      assert [last][1..] == [];
    } else {
      FlattenAppend(lists[1..], last);
      assert (lists + [last])[1..] == lists[1..] + [last];
    }
  }

  // ----- the cache is transparent

  /** Every cached list is what its connector would answer now. */
  predicate Sound(score: Scorer, cache: Cache, sources: seq<Source>) {
    forall key, i | key in cache && 0 <= i < |sources| && sources[i].name == key.name ::
      cache[key] == Asked(score, sources[i], key.query, key.scopes, key.topK)
  }

  predicate DistinctNames(sources: seq<Source>) {
    forall i, j | 0 <= i < j < |sources| :: sources[i].name != sources[j].name
  }

  lemma {:induction false} FillingKeepsSound(score: Scorer, cache: Cache, all: seq<Source>, n: nat,
                                             query: string, scopes: set<string>, topK: nat)
    requires n <= |all| && DistinctNames(all) && Sound(score, cache, all)
    ensures Sound(score, Filled(score, cache, all[..n], query, scopes, topK), all)
    decreases n
  {
    if n > 0 {
      FillingKeepsSound(score, cache, all, n - 1, query, scopes, topK);
      assert all[..n][..n - 1] == all[..n - 1];
    }
  }

  /** The plain search: score every visible candidate of every source, sort once, cut once. */
  function PlainSearch(score: Scorer, sources: seq<Source>, query: string, scopes: set<string>, topK: nat)
    : seq<Scored<Document>>
  {
    Take(topK, Sort(Flatten(Everything(score, sources, query, scopes))))
  }

  function Everything(score: Scorer, sources: seq<Source>, query: string, scopes: set<string>)
    : seq<seq<Scored<Document>>>
  {
    seq(|sources|, i requires 0 <= i < |sources| => VisibleScored(score, query, scopes, sources[i].search(query)))
  }

  lemma {:induction false} ContributionsAreTops(score: Scorer, cache: Cache, all: seq<Source>, n: nat,
                                                query: string, scopes: set<string>, topK: nat)
    requires n <= |all| && DistinctNames(all) && Sound(score, cache, all)
    ensures Contributions(score, cache, all[..n], query, scopes, topK)
            == TopEach(topK, Everything(score, all[..n], query, scopes))
    decreases n
  {
    if n > 0 {
      ContributionsAreTops(score, cache, all, n - 1, query, scopes, topK);
      FillingKeepsSound(score, cache, all, n - 1, query, scopes, topK);
      assert all[..n][..n - 1] == all[..n - 1];
    }
  }

  /** From a sound cache, the truncated and cached search returns exactly the plain search. */
  lemma SearchIsPlain(score: Scorer, cache: Cache, sources: seq<Source>, query: string, scopes: set<string>, topK: nat)
    requires DistinctNames(sources) && Sound(score, cache, sources)
    ensures SearchResult(score, cache, sources, query, scopes, topK) == PlainSearch(score, sources, query, scopes, topK)
  {
    assert sources[..|sources|] == sources;
    ContributionsAreTops(score, cache, sources, |sources|, query, scopes, topK);
    TwoLevelTopK(topK, Everything(score, sources, query, scopes));
  }

  // ----- histories

  datatype Op = Register(source: Source) | Search(query: string, scopes: set<string>, topK: nat)

  datatype State = State(sources: seq<Source>, cache: Cache)

  function ReplayFrom(score: Scorer, st: State, ops: seq<Op>): State
    decreases |ops|
  {
    if ops == [] then st
    else
      var before := ReplayFrom(score, st, ops[..|ops| - 1]);
      match ops[|ops| - 1]
      case Register(s) => before.(sources := Registered(before.sources, s))
      case Search(query, scopes, topK) =>
        before.(cache := Filled(score, before.cache, before.sources, query, scopes, topK))
  }

  const EMPTY := State([], map[])

  /** s would answer every list cached under its name as it is cached; so it does when none is. */
  predicate Agrees(score: Scorer, cache: Cache, s: Source) {
    forall key | key in cache && key.name == s.name :: cache[key] == Asked(score, s, key.query, key.scopes, key.topK)
  }

  /** Whatever is registered on the way agrees with the cache it meets. */
  predicate AgreeingFrom(score: Scorer, st: State, ops: seq<Op>)
    decreases |ops|
  {
    ops == [] ||
    (AgreeingFrom(score, st, ops[..|ops| - 1]) &&
     (ops[|ops| - 1].Register? ==> Agrees(score, ReplayFrom(score, st, ops[..|ops| - 1]).cache, ops[|ops| - 1].source)))
  }

  lemma {:induction false} RegisteredNames(sources: seq<Source>, s: Source)
    requires DistinctNames(sources)
    ensures var after := Registered(sources, s);
            && DistinctNames(after) && s in after
            && (forall x | x in after :: x == s || (x in sources && x.name != s.name))
            && (forall x | x in sources && x.name != s.name :: x in after)
  {
    if sources != [] {
      var rest := sources[1..];
      assert sources == [sources[0]] + rest;
      assert forall i | 0 <= i < |rest| :: rest[i] == sources[i + 1];
      if sources[0].name != s.name {
        RegisteredNames(rest, s);
        var after := Registered(rest, s);
        forall i | 0 <= i < |after| ensures after[i].name != sources[0].name { assert after[i] in after; }
      }
    }
  }

  lemma SoundBySource(score: Scorer, cache: Cache, sources: seq<Source>)
    ensures Sound(score, cache, sources) <==>
              forall key, s | key in cache && s in sources && s.name == key.name ::
                cache[key] == Asked(score, s, key.query, key.scopes, key.topK)
  {
  }

  /** Registering keeps the cache sound exactly when the new connector agrees with it. */
  lemma RegisteringSoundIff(score: Scorer, cache: Cache, sources: seq<Source>, s: Source)
    requires DistinctNames(sources) && Sound(score, cache, sources)
    ensures Sound(score, cache, Registered(sources, s)) <==> Agrees(score, cache, s)
  {
    RegisteredNames(sources, s);
    SoundBySource(score, cache, sources);
    SoundBySource(score, cache, Registered(sources, s));
  }

  lemma {:induction false} HistoryIsSound(score: Scorer, st: State, ops: seq<Op>)
    requires DistinctNames(st.sources) && Sound(score, st.cache, st.sources) && AgreeingFrom(score, st, ops)
    ensures var after := ReplayFrom(score, st, ops); DistinctNames(after.sources) && Sound(score, after.cache, after.sources)
    decreases |ops|
  {
    if ops != [] {
      var n := |ops| - 1;
      var before := ReplayFrom(score, st, ops[..n]);
      HistoryIsSound(score, st, ops[..n]);
      if ops[n].Register? {
        RegisteredNames(before.sources, ops[n].source);
        RegisteringSoundIff(score, before.cache, before.sources, ops[n].source);
      } else {
        var all := before.sources;
        assert all[..|all|] == all;
        FillingKeepsSound(score, before.cache, all, |all|, ops[n].query, ops[n].scopes, ops[n].topK);
      }
    }
  }

  /** After any history of searches and agreeing registrations, a search returns the first topK of all visible scored
      documents in stable descending order. */
  lemma EverySearchIsPlain(score: Scorer, ops: seq<Op>, query: string, scopes: set<string>, topK: nat)
    requires AgreeingFrom(score, EMPTY, ops)
    ensures PlainAfter(score, EMPTY, ops, query, scopes, topK)
  {
    HistoryIsSound(score, EMPTY, ops);
    var st := ReplayFrom(score, EMPTY, ops);
    SearchIsPlain(score, st.cache, st.sources, query, scopes, topK);
  }

  // ----- exactly when a registration is harmless

  predicate PlainAfter(score: Scorer, st: State, ops: seq<Op>, query: string, scopes: set<string>, topK: nat) {
    var after := ReplayFrom(score, st, ops);
    SearchResult(score, after.cache, after.sources, query, scopes, topK)
    == PlainSearch(score, after.sources, query, scopes, topK)
  }

  /** The connectors registered when s stands between others, as it does after replacing one of its name. */
  function Among(before: seq<Source>, s: Source, after: seq<Source>): seq<Source> {
    before + [s] + after
  }

  /** With s registered, every later search is plain, whatever sound connectors stand before and after it and whatever
      agreeing registrations and searches come in between. */
  ghost predicate Harmless(score: Scorer, cache: Cache, s: Source) {
    forall before, after, later, query, scopes, topK
      | DistinctNames(Among(before, s, after)) && Sound(score, cache, before) && Sound(score, cache, after)
        && AgreeingFrom(score, State(Among(before, s, after), cache), later) ::
      PlainAfter(score, State(Among(before, s, after), cache), later, query, scopes, topK)
  }

  /** Every cached list was once some connector's answer. */
  ghost predicate Answers(score: Scorer, cache: Cache) {
    forall key | key in cache :: WasAsked(score, key, cache[key])
  }

  ghost predicate WasAsked(score: Scorer, key: CacheKey, list: seq<Scored<Document>>) {
    exists s: Source :: list == Asked(score, s, key.query, key.scopes, key.topK)
  }

  lemma {:induction false} FillingKeepsAnswers(score: Scorer, cache: Cache, sources: seq<Source>,
                                               query: string, scopes: set<string>, topK: nat)
    requires Answers(score, cache)
    ensures Answers(score, Filled(score, cache, sources, query, scopes, topK))
    decreases |sources|
  {
    if sources != [] {
      var n := |sources| - 1;
      FillingKeepsAnswers(score, cache, sources[..n], query, scopes, topK);
      var before := Filled(score, cache, sources[..n], query, scopes, topK);
      var key := KeyFor(sources[n], query, scopes, topK);
      var list := Contribution(score, before, sources[n], query, scopes, topK);
      assert WasAsked(score, key, list);
      var after := before[key := list];
      forall k | k in after ensures WasAsked(score, k, after[k]) {
        if k != key { assert WasAsked(score, k, before[k]); }
      }
    }
  }

  /** Whatever was registered over whatever, cached lists are old answers. */
  lemma {:induction false} HistoryKeepsAnswers(score: Scorer, ops: seq<Op>)
    ensures Answers(score, ReplayFrom(score, EMPTY, ops).cache)
    decreases |ops|
  {
    if ops != [] {
      var before := ReplayFrom(score, EMPTY, ops[..|ops| - 1]);
      HistoryKeepsAnswers(score, ops[..|ops| - 1]);
      match ops[|ops| - 1]
      case Register(_) =>
      case Search(query, scopes, topK) => FillingKeepsAnswers(score, before.cache, before.sources, query, scopes, topK);
    }
  }

  lemma AskedIsSettled(score: Scorer, key: CacheKey, list: seq<Scored<Document>>)
    requires WasAsked(score, key, list)
    ensures Take(key.topK, Sort(list)) == list
  {
    var s: Source :| list == Asked(score, s, key.query, key.scopes, key.topK);
    var docs := VisibleScored(score, key.query, key.scopes, s.search(key.query));
    SortIsStableDescending(docs, 0.0);
    TakeDescending(key.topK, Sort(docs));
    SortOfSorted(list);
    TakeTake(key.topK, key.topK, Sort(docs));
  }

  lemma FlattenOne<T>(list: seq<T>)
    ensures Flatten([list]) == list
  {
    assert [list][1..] == [];
    assert Flatten([list][1..]) == [];
  }

  /** Alone, s returns its cached list where there is one, and its own answer is the plain search. */
  lemma SearchAlone(score: Scorer, cache: Cache, s: Source, key: CacheKey)
    requires Answers(score, cache) && key in cache && key.name == s.name
    ensures SearchResult(score, cache, [s], key.query, key.scopes, key.topK) == cache[key]
    ensures PlainSearch(score, [s], key.query, key.scopes, key.topK) == Asked(score, s, key.query, key.scopes, key.topK)
  {
    assert [s][..0] == [];
    assert KeyFor(s, key.query, key.scopes, key.topK) == key;
    assert Filled(score, cache, [], key.query, key.scopes, key.topK) == cache;
    assert Contributions(score, cache, [s], key.query, key.scopes, key.topK) == [cache[key]];
    FlattenOne(cache[key]);
    assert WasAsked(score, key, cache[key]);
    AskedIsSettled(score, key, cache[key]);
    var visible := VisibleScored(score, key.query, key.scopes, s.search(key.query));
    assert Everything(score, [s], key.query, key.scopes) == [visible];
    FlattenOne(visible);
  }

  /** Registering a connector over cached lists is harmless to callers exactly when it agrees with each list cached under
      its name. */
  lemma RegisteringHarmlessIff(score: Scorer, cache: Cache, s: Source)
    requires Answers(score, cache)
    ensures Harmless(score, cache, s) <==> Agrees(score, cache, s)
  {
    if Agrees(score, cache, s) {
      forall before, after, later, query, scopes, topK
        | DistinctNames(Among(before, s, after)) && Sound(score, cache, before) && Sound(score, cache, after)
          && AgreeingFrom(score, State(Among(before, s, after), cache), later)
        ensures PlainAfter(score, State(Among(before, s, after), cache), later, query, scopes, topK)
      {
        var st := State(Among(before, s, after), cache);
        SoundAmong(score, cache, before, s, after);
        HistoryIsSound(score, st, later);
        var end := ReplayFrom(score, st, later);
        SearchIsPlain(score, end.cache, end.sources, query, scopes, topK);
      }
    }
    if Harmless(score, cache, s) {
      forall key | key in cache && key.name == s.name
        ensures cache[key] == Asked(score, s, key.query, key.scopes, key.topK)
      {
        var none: seq<Source> := [];
        assert Among(none, s, none) == [s];
        assert PlainAfter(score, State(Among(none, s, none), cache), [], key.query, key.scopes, key.topK);
        SearchAlone(score, cache, s, key);
      }
    }
  }

  lemma SoundAmong(score: Scorer, cache: Cache, before: seq<Source>, s: Source, after: seq<Source>)
    requires Sound(score, cache, before) && Sound(score, cache, after) && Agrees(score, cache, s)
    ensures Sound(score, cache, Among(before, s, after))
  {
    SoundBySource(score, cache, before);
    SoundBySource(score, cache, after);
    SoundBySource(score, cache, Among(before, s, after));
  }

  // ----- access control

  predicate AllVisible(list: seq<Scored<Document>>, scopes: set<string>) {
    forall x | x in list :: Visible(x.item, scopes)
  }

  predicate CacheVisible(cache: Cache) {
    forall key | key in cache :: AllVisible(cache[key], key.scopes)
  }

  lemma {:induction false} ScoredAreVisible(score: Scorer, query: string, scopes: set<string>, docs: seq<Document>)
    ensures AllVisible(VisibleScored(score, query, scopes, docs), scopes)
  {
    if docs != [] {
      ScoredAreVisible(score, query, scopes, docs[1..]);
    }
  }

  lemma TopIsVisible(list: seq<Scored<Document>>, topK: nat, scopes: set<string>)
    requires AllVisible(list, scopes)
    ensures AllVisible(Take(topK, Sort(list)), scopes)
  {
    SortIsStableDescending(list, 0.0);
    forall x | x in Take(topK, Sort(list)) ensures Visible(x.item, scopes) {
      assert x in multiset(Sort(list));
      assert x in list;
    }
  }

  lemma {:induction false} FlattenIsVisible(lists: seq<seq<Scored<Document>>>, scopes: set<string>)
    requires forall i | 0 <= i < |lists| :: AllVisible(lists[i], scopes)
    ensures AllVisible(Flatten(lists), scopes)
  {
    if lists != [] {
      assert AllVisible(lists[0], scopes);
      assert forall i | 0 <= i < |lists[1..]| :: lists[1..][i] == lists[i + 1];
      FlattenIsVisible(lists[1..], scopes);
    }
  }

  lemma {:induction false} FillingStaysVisible(score: Scorer, cache: Cache, sources: seq<Source>,
                                               query: string, scopes: set<string>, topK: nat)
    requires CacheVisible(cache)
    ensures CacheVisible(Filled(score, cache, sources, query, scopes, topK))
    ensures forall i | 0 <= i < |Contributions(score, cache, sources, query, scopes, topK)| ::
              AllVisible(Contributions(score, cache, sources, query, scopes, topK)[i], scopes)
    decreases |sources|
  {
    if sources != [] {
      var n := |sources| - 1;
      FillingStaysVisible(score, cache, sources[..n], query, scopes, topK);
      var before := Filled(score, cache, sources[..n], query, scopes, topK);
      var docs := sources[n].search(query);
      ScoredAreVisible(score, query, scopes, docs);
      TopIsVisible(VisibleScored(score, query, scopes, docs), topK, scopes);
      assert AllVisible(Contribution(score, before, sources[n], query, scopes, topK), scopes);
    }
  }

  lemma {:induction false} HistoryStaysVisible(score: Scorer, ops: seq<Op>)
    ensures CacheVisible(ReplayFrom(score, EMPTY, ops).cache)
    decreases |ops|
  {
    if ops != [] {
      var before := ReplayFrom(score, EMPTY, ops[..|ops| - 1]);
      HistoryStaysVisible(score, ops[..|ops| - 1]);
      match ops[|ops| - 1]
      case Register(_) =>
      case Search(query, scopes, topK) => FillingStaysVisible(score, before.cache, before.sources, query, scopes, topK);
    }
  }

  /** After any history at all, connectors replaced over cached lists included, every document a caller gets is public
      or names one of the caller's scopes. */
  lemma NothingHiddenIsReturned(score: Scorer, ops: seq<Op>, query: string, scopes: set<string>, topK: nat)
    ensures var st := ReplayFrom(score, EMPTY, ops);
            forall x | x in SearchResult(score, st.cache, st.sources, query, scopes, topK) ::
              x.item.acl == {} || exists p :: p in x.item.acl && p in scopes
  {
    var st := ReplayFrom(score, EMPTY, ops);
    HistoryStaysVisible(score, ops);
    FillingStaysVisible(score, st.cache, st.sources, query, scopes, topK);
    var lists := Contributions(score, st.cache, st.sources, query, scopes, topK);
    FlattenIsVisible(lists, scopes);
    TopIsVisible(Flatten(lists), topK, scopes);
    forall x | x in SearchResult(score, st.cache, st.sources, query, scopes, topK)
      ensures x.item.acl == {} || exists p :: p in x.item.acl && p in scopes
    {
      assert Visible(x.item, scopes);
      if x.item.acl * scopes != {} {
        var p :| p in x.item.acl * scopes;
      }
    }
  }

  /** How many candidates the sources return for a query. */
  function Candidates(sources: seq<Source>, query: string): nat {
    if sources == [] then 0 else |sources[0].search(query)| + Candidates(sources[1..], query)
  }

  /** x is a candidate of some source that a caller with these scopes may read, with its score. */
  ghost predicate MayBeRead(score: Scorer, sources: seq<Source>, query: string, scopes: set<string>, x: Scored<Document>) {
    (exists s :: s in sources && x.item in s.search(query))
    && x.score == score(query, x.item)
    && (x.item.acl == {} || exists p :: p in x.item.acl && p in scopes)
  }

  lemma {:induction false} ScoredWhich(score: Scorer, query: string, scopes: set<string>, docs: seq<Document>,
                                       x: Scored<Document>)
    ensures x in VisibleScored(score, query, scopes, docs) <==>
              x.item in docs && x.score == score(query, x.item)
              && (x.item.acl == {} || exists p :: p in x.item.acl && p in scopes)
    ensures |VisibleScored(score, query, scopes, docs)| <= |docs|
  {
    if docs != [] {
      ScoredWhich(score, query, scopes, docs[1..], x);
      assert docs == [docs[0]] + docs[1..];
      SharedScope(docs[0], scopes);
    }
  }

  lemma SharedScope(d: Document, scopes: set<string>)
    ensures Visible(d, scopes) <==> d.acl == {} || exists p :: p in d.acl && p in scopes
  {
    if p :| p in d.acl && p in scopes { assert p in d.acl * scopes; }
    if d.acl * scopes != {} { var p :| p in d.acl * scopes; }
  }

  lemma {:induction false} EverythingWhich(score: Scorer, sources: seq<Source>, query: string, scopes: set<string>,
                                           x: Scored<Document>)
    ensures x in Flatten(Everything(score, sources, query, scopes)) <==> MayBeRead(score, sources, query, scopes, x)
    ensures |Flatten(Everything(score, sources, query, scopes))| <= Candidates(sources, query)
  {
    if sources != [] {
      var rest := sources[1..];
      assert sources == [sources[0]] + rest;
      EverythingWhich(score, rest, query, scopes, x);
      ScoredWhich(score, query, scopes, sources[0].search(query), x);
      assert Everything(score, sources, query, scopes)[1..] == Everything(score, rest, query, scopes);
    }
  }

  /** With room for every candidate, a search from a sound cache returns exactly the candidates the caller may read:
      nothing hidden, and nothing readable left out. */
  lemma SearchReturnsWhatMayBeRead(score: Scorer, cache: Cache, sources: seq<Source>, query: string, scopes: set<string>,
                                   topK: nat, x: Scored<Document>)
    requires DistinctNames(sources) && Sound(score, cache, sources) && Candidates(sources, query) <= topK
    ensures x in SearchResult(score, cache, sources, query, scopes, topK) <==> MayBeRead(score, sources, query, scopes, x)
  {
    SearchIsPlain(score, cache, sources, query, scopes, topK);
    EverythingWhich(score, sources, query, scopes, x);
    var all := Flatten(Everything(score, sources, query, scopes));
    SortIsStableDescending(all, 0.0);
    assert |Sort(all)| == |multiset(Sort(all))| == |multiset(all)| == |all|;
    assert Take(topK, Sort(all)) == Sort(all);
    assert x in multiset(Sort(all)) <==> x in multiset(all);
  }

  /** A caller without scopes gets the public documents and no others, and more scopes hide nothing. */
  lemma ScopesOnlyReveal(score: Scorer, cache1: Cache, cache2: Cache, sources: seq<Source>, query: string,
                         scopes1: set<string>, scopes2: set<string>, topK: nat, x: Scored<Document>)
    requires DistinctNames(sources) && Candidates(sources, query) <= topK
    requires Sound(score, cache1, sources) && Sound(score, cache2, sources) && scopes1 <= scopes2
    ensures x in SearchResult(score, cache1, sources, query, scopes1, topK) ==>
              x in SearchResult(score, cache2, sources, query, scopes2, topK)
    ensures scopes1 == {} ==>
              (x in SearchResult(score, cache1, sources, query, scopes1, topK) <==>
                 x in SearchResult(score, cache2, sources, query, scopes2, topK) && x.item.acl == {})
  {
    SearchReturnsWhatMayBeRead(score, cache1, sources, query, scopes1, topK, x);
    SearchReturnsWhatMayBeRead(score, cache2, sources, query, scopes2, topK, x);
  }

  /** Registering a cached name again serves the old connector's documents. */
  lemma ReplacedConnectorIsStale(score: Scorer)
    ensures var first := Source("c", (q: string) => [Document("old", "", {})]);
            var second := Source("c", (q: string) => []);
            var cache := Filled(score, map[], [first], "q", {}, 1);
            SearchResult(score, cache, Registered([first], second), "q", {}, 1)
            != PlainSearch(score, Registered([first], second), "q", {}, 1)
  {
    var doc := Document("old", "", {});
    var first := Source("c", (q: string) => [doc]);
    var second := Source("c", (q: string) => []);
    var hit := Scored(doc, score("q", doc));
    var key := CacheKey("c", "q", {}, 1);
    assert first.search("q")[1..] == [];
    assert VisibleScored(score, "q", {}, first.search("q")) == [hit];
    assert [hit][1..] == [] && Sort([hit]) == [hit];
    assert [first][..0] == [];
    var cache := Filled(score, map[], [first], "q", {}, 1);
    var none: Cache := map[];
    assert Filled(score, none, [first][..0], "q", {}, 1) == none;
    assert Asked(score, first, "q", {}, 1) == [hit];
    assert Contribution(score, none, first, "q", {}, 1) == [hit];
    assert cache == none[KeyFor(first, "q", {}, 1) := [hit]];
    var sources := Registered([first], second);
    assert sources == [second];
    assert [second][..0] == [];
    assert Contributions(score, cache, [second], "q", {}, 1) == [[hit]];
    assert [[hit]][1..] == [];
    assert Flatten([[hit]]) == [hit];
    assert second.search("q") == [];
    var everything := Everything(score, [second], "q", {});
    assert everything == [[]];
    assert everything[1..] == [];
    assert Flatten(everything) == [];
  }
}
