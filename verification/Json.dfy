/** The JSON values a graph run passes around, and the two ways a graph spec inspects them:
    dotted-path lookup and the `equals` / `exists` comparators. */
module Json {

  datatype Option<+T> = None | Some(value: T) {
    function GetOr(default: T): T {
      if Some? then value else default
    }
  }

  /** A JSON value. `Key` stands for the SHA-256 digest that names one scheduled tool call: the hash is taken
      to be injective, so a digest is represented by what was hashed. */
  datatype Value =
    | Null
    | Bool(b: bool)
    | Num(n: real)
    | Str(s: string)
    | Key(runId: string, nodeId: string, stepSeq: nat, args: Value)
    | Arr(items: seq<Value>)
    | Obj(fields: map<string, Value>)

  /** Python compares `True == 1`; two values are equal to `==` when their canonical forms are. */
  function Canon(v: Value): Value {
    match v
    case Bool(b) => Num(if b then 1.0 else 0.0)
    case Arr(xs) => Arr(seq(|xs|, i requires 0 <= i < |xs| => Canon(xs[i])))
    case Obj(m) => Obj(map k | k in m :: Canon(m[k]))
    case _ => v
  }

  predicate PyEqual(a: Value, b: Value) {
    Canon(a) == Canon(b)
  }

  /** Follows a path through nested objects; anything but an object on the way is a miss. */
  function Resolve(v: Value, path: seq<string>): Option<Value> {
    if path == [] then Some(v)
    else if v.Obj? && path[0] in v.fields then Resolve(v.fields[path[0]], path[1..])
    else None
  }

  datatype Comparator = Equals(literal: Value) | Exists(expected: bool) | Unsupported

  datatype Condition = Condition(nodeRef: string, path: Option<seq<string>>, cmp: Comparator)

  /** None is the GraphError raised for a condition with no comparator. */
  function Matches(v: Value, c: Condition): Option<bool> {
    var resolved := if c.path.Some? then Resolve(v, c.path.value) else Some(v);
    match c.cmp
    case Equals(literal) => Some(resolved.Some? && PyEqual(resolved.value, literal))
    case Exists(expected) => Some(resolved.Some? == expected)
    case Unsupported => None
  }

  // ----- values up to idempotency keys

  /** v with every digest replaced by one fixed placeholder. */
  function Erase(v: Value): Value {
    match v
    case Key(_, _, _, _) => BlankKey()
    case Arr(xs) => Arr(seq(|xs|, i requires 0 <= i < |xs| => Erase(xs[i])))
    case Obj(m) => Obj(map k | k in m :: Erase(m[k]))
    case _ => v
  }

  function BlankKey(): Value {
    Key("", "", 0, Null)
  }

  function EraseAll(xs: seq<Value>): seq<Value> {
    seq(|xs|, i requires 0 <= i < |xs| => Erase(xs[i]))
  }

  function EraseMap(m: map<string, Value>): map<string, Value> {
    map k | k in m :: Erase(m[k])
  }

  lemma EraseContainers(xs: seq<Value>, m: map<string, Value>)
    ensures Erase(Arr(xs)) == Arr(EraseAll(xs))
    ensures Erase(Obj(m)) == Obj(EraseMap(m))
  {
    assert Erase(Arr(xs)).items == EraseAll(xs);
    assert Erase(Obj(m)).fields == EraseMap(m);
  }

  /** No digest anywhere in v. A literal written in a graph spec is keyless: it is fixed before the run that
      mints the digests. */
  predicate Keyless(v: Value) {
    match v
    case Key(_, _, _, _) => false
    case Arr(xs) => forall i | 0 <= i < |xs| :: Keyless(xs[i])
    case Obj(m) => forall k | k in m :: Keyless(m[k])
    case _ => true
  }

  predicate KeylessLiteral(c: Condition) {
    c.cmp.Equals? ==> Keyless(c.cmp.literal)
  }

  lemma {:induction false} CanonKeepsKeys(v: Value)
    ensures Keyless(Canon(v)) == Keyless(v)
  {
    match v
    case Arr(xs) =>
      forall i | 0 <= i < |xs| ensures Keyless(Canon(v).items[i]) == Keyless(xs[i]) { CanonKeepsKeys(xs[i]); }
    case Obj(m) =>
      forall k | k in m ensures Keyless(Canon(v).fields[k]) == Keyless(m[k]) { CanonKeepsKeys(m[k]); }
    case _ =>
  }

  lemma {:induction false} EraseKeepsKeys(v: Value)
    ensures Keyless(Erase(v)) == Keyless(v)
  {
    match v
    case Arr(xs) =>
      forall i | 0 <= i < |xs| ensures Keyless(Erase(v).items[i]) == Keyless(xs[i]) { EraseKeepsKeys(xs[i]); }
    case Obj(m) =>
      forall k | k in m ensures Keyless(Erase(v).fields[k]) == Keyless(m[k]) { EraseKeepsKeys(m[k]); }
    case _ =>
  }

  lemma {:induction false} EraseKeyless(v: Value)
    requires Keyless(v)
    ensures Erase(v) == v
  {
    match v
    case Arr(xs) =>
      forall i | 0 <= i < |xs| ensures Erase(xs[i]) == xs[i] { EraseKeyless(xs[i]); }
      assert Erase(v).items == xs;
    case Obj(m) =>
      forall k | k in m ensures Erase(m[k]) == m[k] { EraseKeyless(m[k]); }
      assert Erase(v).fields == m;
    case _ =>
  }

  lemma {:induction false} EraseTwice(v: Value)
    ensures Erase(Erase(v)) == Erase(v)
  {
    match v
    case Arr(xs) =>
      forall i | 0 <= i < |xs| ensures Erase(Erase(xs[i])) == Erase(xs[i]) { EraseTwice(xs[i]); }
      assert Erase(Erase(v)).items == Erase(v).items;
    case Obj(m) =>
      forall k | k in m ensures Erase(Erase(m[k])) == Erase(m[k]) { EraseTwice(m[k]); }
      assert Erase(Erase(v)).fields == Erase(v).fields;
    case _ =>
  }

  lemma {:induction false} ResolveErased(v: Value, path: seq<string>)
    ensures Resolve(v, path).Some? == Resolve(Erase(v), path).Some?
    ensures Resolve(v, path).Some? ==> Resolve(Erase(v), path).value == Erase(Resolve(v, path).value)
    decreases path
  {
    if path != [] && v.Obj? && path[0] in v.fields {
      ResolveErased(v.fields[path[0]], path[1..]);
    }
  }

  lemma {:induction false} PyEqualErased(v: Value, literal: Value)
    requires Keyless(literal)
    ensures PyEqual(v, literal) == PyEqual(Erase(v), literal)
  {
    CanonKeepsKeys(v);
    CanonKeepsKeys(Erase(v));
    CanonKeepsKeys(literal);
    EraseKeepsKeys(v);
    if Keyless(v) {
      EraseKeyless(v);
    }
  }

  /** A condition whose literal is keyless cannot tell a result from the same result with other keys. */
  lemma {:induction false} MatchesErased(v: Value, c: Condition)
    requires KeylessLiteral(c)
    ensures Matches(v, c) == Matches(Erase(v), c)
  {
    var path := if c.path.Some? then c.path.value else [];
    ResolveErased(v, path);
    if c.cmp.Equals? && Resolve(v, path).Some? {
      PyEqualErased(Resolve(v, path).value, c.cmp.literal);
    }
  }
}
