/** The dynamically typed values of the request payload (decoded JSON), with the
    few Python operations the core applies to them: truthiness, `dict.get`,
    `x[0]` and the `or` operator. */
module Values {

  datatype Option<+T> = None | Some(value: T)

  /** The reply dict `{"fulfillmentText": t, "displayText": t}`. */
  datatype Reply<T> = Reply(fulfillmentText: T, displayText: T)

  /** A decoded JSON value. `Num` covers Python's int and float. */
  datatype Val =
    | Null
    | Bool(b: bool)
    | Num(n: real)
    | Str(s: string)
    | List(items: seq<Val>)
    | Dict(entries: map<string, Val>)

  /** Python truthiness: None, False, 0, "", [] and {} are falsy. */
  predicate Truthy(v: Val)
  {
    match v
    case Null => false
    case Bool(b) => b
    case Num(n) => n != 0.0
    case Str(s) => |s| > 0
    case List(items) => |items| > 0
    case Dict(entries) => |entries| > 0
  }

  /** `d.get(k)`: the value under `k`, or None when the key is absent. */
  function Get(d: map<string, Val>, k: string): (r: Val)
    ensures k in d ==> r == d[k]
    ensures k !in d ==> r == Null
  {
    if k in d then d[k] else Null
  }

  /** `d.get(k, default)`. */
  function GetOr(d: map<string, Val>, k: string, default: Val): (r: Val)
    ensures k in d ==> r == d[k]
    ensures k !in d ==> r == default
  {
    if k in d then d[k] else default
  }

  /** Python `a or b`: `a` when it is truthy, otherwise `b`. */
  function Or(a: Val, b: Val): (r: Val)
    ensures Truthy(r) <==> Truthy(a) || Truthy(b)
    ensures Truthy(a) ==> r == a
    ensures !Truthy(a) ==> r == b
  {
    if Truthy(a) then a else b
  }

  /** Python `v[0]`. A string yields its first character, a list its first item.
      Indexing an empty string or list raises IndexError, a dict raises KeyError
      (JSON keys are strings, never 0), None, booleans and numbers raise
      TypeError; every such raise is `None` here. */
  function Index0(v: Val): (r: Option<Val>)
    ensures r.Some? <==> (v.Str? || v.List?) && Truthy(v)
    ensures v.List? && r.Some? ==> r.value == v.items[0]
    ensures v.Str? && r.Some? ==> r.value == Str([v.s[0]])
  {
    match v
    case Str(s) => if |s| > 0 then Some(Str([s[0]])) else None
    case List(items) => if |items| > 0 then Some(items[0]) else None
    case _ => None
  }

  /** `random.choice(pool)`; the random draw is the parameter `pick`. */
  function Choice<T>(pool: seq<T>, pick: nat): (r: T)
    requires |pool| > 0
    ensures r in pool
  {
    pool[pick % |pool|]
  }

  /** Every item of the pool is drawn by some pick. */
  lemma ChoiceReachesAll<T>(pool: seq<T>, t: T)
    requires t in pool
    ensures exists pick: nat :: Choice(pool, pick) == t
  {
    var i :| 0 <= i < |pool| && pool[i] == t;
    ModBelow(i, |pool|);
    assert Choice(pool, i) == t;
  }

  lemma ModBelow(i: int, n: int)
    requires 0 <= i < n
    ensures i % n == i
  {
    assert i / n == 0;
  }
}
