/**
 * The Eloquent query builder as the repository sees it: a builder is the trace
 * of the builder operations applied to it, oldest first. Nothing here executes
 * a query. Also the request parameter map the repository interprets.
 */
module QueryBuilder {
  import opened Wrappers
  import opened PhpValues

  /** One call on the builder. */
  datatype Op =
    | Select(columns: seq<string>)
    | With(relations: Entries)
    | WithCount(relations: Entries)
    | Scope(name: string, args: Entries)
    | Where(field: string, operator: string, value: Value)
    | WhereIn(field: string, values: Entries)
    | WhereBetween(field: string, low: Value, high: Value)
    | WhereNull(field: string)
    | WhereNotNull(field: string)
    | OnlyTrashed
    | WithTrashed
    | OrderBy(column: string, direction: string)
    | WhereKey(id: Value)

  /** A builder, as the sequence of operations applied to it. */
  type Builder = seq<Op>

  /** The column a where-family operation constrains. */
  function FieldOf(op: Op): Option<string> {
    match op
    case Where(f, _, _) => Some(f)
    case WhereIn(f, _) => Some(f)
    case WhereBetween(f, _, _) => Some(f)
    case WhereNull(f) => Some(f)
    case WhereNotNull(f) => Some(f)
    case _ => None
  }

  /**
   * What a user callable does to the builder it is handed: `builder` is the
   * state it leaves that builder in (builders are mutated in place), and
   * `returned` is its return value, `None` when it returns null.
   */
  datatype TapResult = TapResult(builder: Builder, returned: Option<Builder>)

  /** A registered or one-shot query tap. */
  type Tap = Builder -> TapResult

  /** `$callable($q) ?? $q`: the returned builder, or the handed one when the callable returns null. */
  function Resolve(t: TapResult): Builder {
    t.returned.GetOr(t.builder)
  }

  /** `array_keys($m)` of an ordered map with string keys, in order. */
  function KeysOf<X>(m: seq<(string, X)>): (ks: seq<string>)
    ensures |ks| == |m|
    ensures forall i :: 0 <= i < |m| ==> ks[i] == m[i].0
  {
    seq(|m|, i requires 0 <= i < |m| => m[i].0)
  }

  /** `$m[$k]` for a key that exists. */
  function Find<X>(m: seq<(string, X)>, k: string): (r: Option<X>)
    ensures r.Some? <==> k in KeysOf(m)
    ensures r.Some? ==> (k, r.value) in m
  {
    if |m| == 0 then None
    else if m[0].0 == k then Some(m[0].1)
    else
      var r := Find(m[1..], k);
      assert KeysOf(m) == [m[0].0] + KeysOf(m[1..]);
      assert forall e :: e in m[1..] ==> e in m;
      r
  }

  /** The request parameters: unique string keys with PHP values, in request order. */
  type Params = seq<(string, Value)>

  /** `$parameters[$k] ?? null` as `empty()` sees it: an absent key reads as null. */
  function ParamOrNull(p: Params, k: string): Value {
    Find(p, k).GetOr(Null)
  }

  /** `$parameters[$k] ?? …`: `None` when the key is absent or holds null. */
  function Coalesce(p: Params, k: string): (r: Option<Value>)
    ensures r.Some? ==> r.value != Null && Find(p, k) == Some(r.value)
    ensures r.None? ==> Find(p, k).None? || Find(p, k) == Some(Null)
  {
    match Find(p, k)
    case Some(v) => if v == Null then None else Some(v)
    case None => None
  }
}
