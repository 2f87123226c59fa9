/** Stable descending sort of scored items, as Python's `sorted(key=score, reverse=True)` gives it, and how it
    interacts with truncation. */
module StableSort {

  datatype Scored<T> = Scored(item: T, score: real)

  /** x goes before the first item that does not outrank it, so before its equals. */
  function Insert<T>(x: Scored<T>, s: seq<Scored<T>>): seq<Scored<T>> {
    if s == [] then [x]
    else if x.score >= s[0].score then [x] + s
    else [s[0]] + Insert(x, s[1..])
  }

  function Sort<T>(s: seq<Scored<T>>): seq<Scored<T>> {
    if s == [] then [] else Insert(s[0], Sort(s[1..]))
  }

  predicate Descending<T>(s: seq<Scored<T>>) {
    forall i, j | 0 <= i < j < |s| :: s[i].score >= s[j].score
  }

  /** The items of one score, in order. */
  function OfScore<T>(s: seq<Scored<T>>, score: real): seq<Scored<T>> {
    if s == [] then []
    else if s[0].score == score then [s[0]] + OfScore(s[1..], score)
    else OfScore(s[1..], score)
  }

  lemma {:induction false} InsertKeepsItems<T>(x: Scored<T>, s: seq<Scored<T>>)
    ensures multiset(Insert(x, s)) == multiset{x} + multiset(s)
  {
    if s != [] && x.score < s[0].score {
      InsertKeepsItems(x, s[1..]);
      assert s == [s[0]] + s[1..];
    }
  }

  lemma {:induction false} InsertDescending<T>(x: Scored<T>, s: seq<Scored<T>>)
    requires Descending(s)
    ensures Descending(Insert(x, s))
  {
    if s != [] && x.score < s[0].score {
      var rest := Insert(x, s[1..]);
      InsertDescending(x, s[1..]);
      InsertKeepsItems(x, s[1..]);
      forall i | 0 <= i < |rest| ensures s[0].score >= rest[i].score {
        assert rest[i] in multiset(rest);
        assert rest[i] == x || rest[i] in s[1..];
      }
    }
  }

  lemma {:induction false} InsertStable<T>(x: Scored<T>, s: seq<Scored<T>>, score: real)
    ensures OfScore(Insert(x, s), score) == OfScore([x] + s, score)
  {
    assert ([x] + s)[1..] == s;
    if s != [] && x.score < s[0].score {
      InsertStable(x, s[1..], score);
      assert ([x] + s[1..])[1..] == s[1..];
      assert ([s[0]] + Insert(x, s[1..]))[1..] == Insert(x, s[1..]);
    }
  }

  /** What sorting means: the same items in descending score, items of equal score in their original order. */
  lemma {:induction false} SortIsStableDescending<T>(s: seq<Scored<T>>, score: real)
    ensures Descending(Sort(s)) && multiset(Sort(s)) == multiset(s)
    ensures OfScore(Sort(s), score) == OfScore(s, score)
  {
    if s != [] {
      SortIsStableDescending(s[1..], score);
      InsertKeepsItems(s[0], Sort(s[1..]));
      InsertDescending(s[0], Sort(s[1..]));
      InsertStable(s[0], Sort(s[1..]), score);
      assert s == [s[0]] + s[1..];
      assert ([s[0]] + Sort(s[1..]))[1..] == Sort(s[1..]);
    }
  }

  lemma {:induction false} NoneOfScore<T>(s: seq<Scored<T>>, score: real)
    requires forall i | 0 <= i < |s| :: s[i].score != score
    ensures OfScore(s, score) == []
  {
    if s != [] { NoneOfScore(s[1..], score); }
  }

  lemma HeadHasItsScore<T>(s: seq<Scored<T>>)
    requires s != []
    ensures OfScore(s, s[0].score) != []
  {
  }

  /** That meaning leaves one possible result. */
  lemma {:induction false} StableOrderUnique<T>(r: seq<Scored<T>>, t: seq<Scored<T>>)
    requires Descending(r) && Descending(t)
    requires forall q: real :: OfScore(r, q) == OfScore(t, q)
    ensures r == t
  {
    if r == [] || t == [] {
      if r != [] { HeadHasItsScore(r); }
      if t != [] { HeadHasItsScore(t); }
    } else {
      if r[0].score > t[0].score { NoneOfScore(t, r[0].score); }
      if t[0].score > r[0].score { NoneOfScore(r, t[0].score); }
      assert OfScore(r, r[0].score)[0] == r[0] && OfScore(t, t[0].score)[0] == t[0];
      forall q: real ensures OfScore(r[1..], q) == OfScore(t[1..], q) {
        assert OfScore(r, q) == OfScore(t, q);
        if r[0].score == q {
          assert OfScore(r[1..], q) == OfScore(r, q)[1..] && OfScore(t[1..], q) == OfScore(t, q)[1..];
        }
      }
      StableOrderUnique(r[1..], t[1..]);
      assert r == [r[0]] + r[1..] && t == [t[0]] + t[1..];
    }
  }

  lemma {:induction false} SortOfSorted<T>(s: seq<Scored<T>>)
    requires Descending(s)
    ensures Sort(s) == s
  {
    if s != [] {
      SortOfSorted(s[1..]);
      assert s == [s[0]] + s[1..];
    }
  }

  // ----- merging and truncating

  function Merge<T>(a: seq<Scored<T>>, b: seq<Scored<T>>): seq<Scored<T>> {
    if a == [] then b
    else if b == [] then a
    else if a[0].score >= b[0].score then [a[0]] + Merge(a[1..], b)
    else [b[0]] + Merge(a, b[1..])
  }

  lemma {:induction false} InsertMerge<T>(x: Scored<T>, a: seq<Scored<T>>, b: seq<Scored<T>>)
    ensures Insert(x, Merge(a, b)) == Merge(Insert(x, a), b)
    decreases |a| + |b|
  {
    if b == [] {
    } else if a == [] {
      if x.score < b[0].score { InsertMerge(x, a, b[1..]); }
    } else if x.score < a[0].score && a[0].score >= b[0].score {
      InsertMerge(x, a[1..], b);
    } else if x.score < b[0].score {
      InsertMerge(x, a, b[1..]);
    } else {
      assert ([x] + a)[1..] == a;
    }
  }

  lemma {:induction false} SortAppend<T>(a: seq<Scored<T>>, b: seq<Scored<T>>)
    ensures Sort(a + b) == Merge(Sort(a), Sort(b))
  {
    if a == [] {
      assert a + b == b;
    } else {
      SortAppend(a[1..], b);
      assert (a + b)[1..] == a[1..] + b;
      InsertMerge(a[0], Sort(a[1..]), Sort(b));
    }
  }

  function Take<T>(k: nat, s: seq<T>): seq<T> {
    if k < |s| then s[..k] else s
  }

  /** Only the first k of either side can be among the first k of a merge. */
  lemma {:induction false} TakeMerge<T>(k: nat, i: nat, j: nat, a: seq<Scored<T>>, b: seq<Scored<T>>)
    requires k <= i && k <= j
    ensures Take(k, Merge(a, b)) == Take(k, Merge(Take(i, a), Take(j, b)))
    decreases |a| + |b|
  {
    var (a', b') := (Take(i, a), Take(j, b));
    if k == 0 || a == [] || b == [] {
      TakeTake(k, i, a);
      TakeTake(k, j, b);
    } else if a[0].score >= b[0].score {
      TakeMerge(k - 1, i - 1, j, a[1..], b);
      assert a'[1..] == Take(i - 1, a[1..]);
      TakeCons(k, a[0], Merge(a[1..], b));
      TakeCons(k, a[0], Merge(a'[1..], b'));
    } else {
      TakeMerge(k - 1, i, j - 1, a, b[1..]);
      assert b'[1..] == Take(j - 1, b[1..]);
      TakeCons(k, b[0], Merge(a, b[1..]));
      TakeCons(k, b[0], Merge(a', b'[1..]));
    }
  }

  lemma TakeTake<T>(k: nat, i: nat, s: seq<T>)
    requires k <= i
    ensures Take(k, Take(i, s)) == Take(k, s)
  {
  }

  lemma TakeCons<T>(k: nat, x: T, s: seq<T>)
    requires k > 0
    ensures Take(k, [x] + s) == [x] + Take(k - 1, s)
  {
  }

  lemma TakeDescending<T>(k: nat, s: seq<Scored<T>>)
    requires Descending(s)
    ensures Descending(Take(k, s))
  {
  }

  function Flatten<T>(lists: seq<seq<T>>): seq<T> {
    if lists == [] then [] else lists[0] + Flatten(lists[1..])
  }

  /** Each list sorted and cut to its first k. */
  function TopEach<T>(k: nat, lists: seq<seq<Scored<T>>>): seq<seq<Scored<T>>> {
    seq(|lists|, i requires 0 <= i < |lists| => Take(k, Sort(lists[i])))
  }

  /** Cutting every list to its k best before the final sort and cut loses nothing, ties included. */
  lemma {:induction false} TwoLevelTopK<T>(k: nat, lists: seq<seq<Scored<T>>>)
    ensures Take(k, Sort(Flatten(TopEach(k, lists)))) == Take(k, Sort(Flatten(lists)))
  {
    if lists != [] {
      var (first, rest) := (lists[0], lists[1..]);
      var (top, others) := (Take(k, Sort(first)), Flatten(TopEach(k, rest)));
      TwoLevelTopK(k, rest);
      assert TopEach(k, lists)[1..] == TopEach(k, rest);
      SortAppend(top, others);
      SortAppend(first, Flatten(rest));
      SortIsStableDescending(first, 0.0);
      TakeDescending(k, Sort(first));
      SortOfSorted(top);
      TakeMerge(k, k, k, top, Sort(others));
      TakeMerge(k, k, k, Sort(first), Sort(Flatten(rest)));
      TakeTake(k, k, Sort(first));
    }
  }
}
