/**
 * The declarative filter of `BaseRepository::filterConditions`: a condition
 * map names, per column, how a request parameter of the same name constrains
 * the query. Only parameters whose key is also a key of the condition map
 * ever reach the builder.
 */
module Filtering {
  import opened Wrappers
  import opened PhpValues
  import opened QueryBuilder

  /** A condition map entry: a callable `(Builder, value) → ?Builder`, or a condition string. */
  datatype CondSpec =
    | Callable(apply: (Builder, Value) -> TapResult)
    | Named(name: string)

  /** `conditions()`: column name to condition, in declaration order. */
  type ConditionMap = seq<(string, CondSpec)>

  /** The cases of the `switch` on a condition string. */
  datatype Kind = Like | In | Between | IsNull | NotNull | Compare(operator: string)

  /** The `switch ($condition)`: the five keywords, and any other string as a comparison operator. */
  function Classify(name: string): (k: Kind)
    ensures k.Compare? <==> name !in {"like", "in", "between", "null", "not_null"}
    ensures k.Compare? ==> k.operator == name
    ensures k == Like <==> name == "like"
  {
    if name == "like" then Like
    else if name == "in" then In
    else if name == "between" then Between
    else if name == "null" then IsNull
    else if name == "not_null" then NotNull
    else Compare(name)
  }

  /** The builder operations one condition string adds for `field` with request value `value`. */
  function FieldOps(field: string, kind: Kind, value: Value): (ops: seq<Op>)
    ensures |ops| <= 1
    ensures forall op :: op in ops ==> FieldOf(op) == Some(field)
  {
    match kind
    case Like =>
      if value == Null || value == Str("") then []
      else [Where(field, "like", Str("%" + ToStr(value) + "%"))]
    case In =>
      if value.Arr? && |value.entries| > 0 then [WhereIn(field, value.entries)] else []
    case Between =>
      if value.Arr? && |value.entries| == 2
      then [WhereBetween(field, Lookup(value.entries, IntKey(0)).GetOr(Null), Lookup(value.entries, IntKey(1)).GetOr(Null))]
      else []
    case IsNull => [WhereNull(field)]
    case NotNull => [WhereNotNull(field)]
    case Compare(op) =>
      if value == Null then [WhereNull(field)] else [Where(field, op, value)]
  }

  /**
   * `array_intersect(array_keys($parameters), array_keys($conditions))`, with
   * each key's parameter value: the parameters whose key the condition map
   * also has, in parameter order.
   */
  function Commons(p: Params, c: ConditionMap): Params {
    if |p| == 0 then []
    else (if p[0].0 in KeysOf(c) then [p[0]] else []) + Commons(p[1..], c)
  }

  /** One iteration of the `foreach ($commons as $field)` loop. */
  function ApplyField(q: Builder, e: (string, Value), c: ConditionMap): Builder {
    match Find<CondSpec>(c, e.0)
    case Some(Callable(f)) => Resolve(f(q, e.1))
    case Some(Named(name)) => q + FieldOps(e.0, Classify(name), e.1)
    case None => q
  }

  /** The loop over `es`, in order. */
  function ApplyFields(q: Builder, es: Params, c: ConditionMap): Builder {
    if |es| == 0 then q else ApplyField(ApplyFields(q, es[..|es| - 1], c), es[|es| - 1], c)
  }

  /**
   * `filterConditions($query, $parameters)` with `$conditions = c`. Its
   * emptiness guards change nothing: filtering is always the loop over the
   * common parameters.
   */
  function Filter(q: Builder, p: Params, c: ConditionMap): (r: Builder)
    ensures |p| == 0 || |c| == 0 ==> r == q
    ensures r == ApplyFields(q, Commons(p, c), c)
  {
    if |p| == 0 || |c| == 0 then CommonsEmptyWhenDisjoint(p, c); q
    else
      var commons := Commons(p, c);
      if |commons| == 0 then q else ApplyFields(q, commons, c)
  }

  /** No parameter in `es` is handled by a callable condition. */
  predicate NoCallables(es: Params, c: ConditionMap) {
    forall i :: 0 <= i < |es| ==> !(Find(c, es[i].0).Some? && Find(c, es[i].0).value.Callable?)
  }

  /** The operations the condition strings add for `es`, in order. */
  function DeclarativeOps(es: Params, c: ConditionMap): seq<Op> {
    if |es| == 0 then []
    else
      var e := es[|es| - 1];
      DeclarativeOps(es[..|es| - 1], c)
      + (match Find<CondSpec>(c, e.0) case Some(Named(name)) => FieldOps(e.0, Classify(name), e.1) case _ => [])
  }

  /** The common parameters are exactly the parameters the condition map knows, kept in parameter order. */
  lemma {:induction false} CommonsAreTheKnownParameters(p: Params, c: ConditionMap)
    ensures forall e :: e in Commons(p, c) <==> e in p && e.0 in KeysOf(c)
    ensures IsSubsequence(Commons(p, c), p)
  {
    if |p| > 0 {
      CommonsAreTheKnownParameters(p[1..], c);
      assert p == [p[0]] + p[1..];
      var cs := Commons(p, c);
      if p[0].0 in KeysOf(c) {
        assert cs == [p[0]] + Commons(p[1..], c);
        assert cs[1..] == Commons(p[1..], c);
        assert cs[0] == p[0];
      } else {
        assert cs == Commons(p[1..], c);
      }
      assert IsSubsequence(cs, p);
    }
  }

  /** No parameter key is a condition key: nothing is common. */
  lemma {:induction false} CommonsEmptyWhenDisjoint(p: Params, c: ConditionMap)
    requires forall i :: 0 <= i < |p| ==> p[i].0 !in KeysOf(c)
    ensures Commons(p, c) == []
  {
    if |p| > 0 {
      CommonsEmptyWhenDisjoint(p[1..], c);
    }
  }

  /** Filtering leaves the query unchanged when no parameter key is a condition key (in particular when either map is empty). */
  lemma FilterUnchangedWithoutCommonKeys(q: Builder, p: Params, c: ConditionMap)
    requires forall k :: k in KeysOf(p) ==> k !in KeysOf(c)
    ensures Filter(q, p, c) == q
  {
    forall i | 0 <= i < |p| ensures p[i].0 !in KeysOf(c) {
      assert KeysOf(p)[i] == p[i].0;
    }
    CommonsEmptyWhenDisjoint(p, c);
  }

  /**
   * Without callable conditions the loop only appends: exactly the operations
   * the condition strings prescribe, parameter by parameter in order.
   */
  lemma {:induction false} DeclarativeLoopAppends(q: Builder, es: Params, c: ConditionMap)
    requires NoCallables(es, c)
    ensures ApplyFields(q, es, c) == q + DeclarativeOps(es, c)
  {
    if |es| > 0 {
      var init := es[..|es| - 1];
      var e := es[|es| - 1];
      assert NoCallables(init, c) by {
        forall i | 0 <= i < |init| ensures !(Find(c, init[i].0).Some? && Find(c, init[i].0).value.Callable?) {
          assert init[i] == es[i];
        }
      }
      DeclarativeLoopAppends(q, init, c);
      assert !(Find(c, e.0).Some? && Find(c, e.0).value.Callable?);
    }
  }

  /** Every operation a condition string adds constrains a column that is a key of `es` and of the condition map. */
  lemma {:induction false} DeclarativeOpsFields(es: Params, c: ConditionMap)
    ensures forall op :: op in DeclarativeOps(es, c) ==>
              FieldOf(op).Some? && FieldOf(op).value in KeysOf(es) && FieldOf(op).value in KeysOf(c)
  {
    if |es| > 0 {
      var init := es[..|es| - 1];
      var e := es[|es| - 1];
      DeclarativeOpsFields(init, c);
      assert forall k :: k in KeysOf(init) ==> k in KeysOf(es) by {
        forall k | k in KeysOf(init) ensures k in KeysOf(es) {
          var i :| 0 <= i < |init| && KeysOf(init)[i] == k;
          assert KeysOf(es)[i] == k;
        }
      }
      assert KeysOf(es)[|es| - 1] == e.0;
    }
  }

  /**
   * Filtering touches only columns present both in the request and in the
   * condition map: unless a callable condition takes over, it appends
   * where-family predicates on those columns, in parameter order, and
   * changes nothing else.
   */
  lemma FilterOnlyConstrainsCommonColumns(q: Builder, p: Params, c: ConditionMap)
    requires NoCallables(Commons(p, c), c)
    ensures Filter(q, p, c) == q + DeclarativeOps(Commons(p, c), c)
    ensures forall op :: op in Filter(q, p, c)[|q|..] ==>
              FieldOf(op).Some? && FieldOf(op).value in KeysOf(p) && FieldOf(op).value in KeysOf(c)
  {
    var cs := Commons(p, c);
    DeclarativeLoopAppends(q, cs, c);
    DeclarativeOpsFields(cs, c);
    CommonsAreTheKnownParameters(p, c);
    assert Filter(q, p, c)[|q|..] == DeclarativeOps(cs, c);
    forall k | k in KeysOf(cs) ensures k in KeysOf(p) {
      var i :| 0 <= i < |cs| && KeysOf(cs)[i] == k;
      assert cs[i] in p;
      var j :| 0 <= j < |p| && p[j] == cs[i];
      assert KeysOf(p)[j] == k;
    }
  }

  /** A callable condition's non-null result replaces the query; a null result keeps the builder as the callable left it. */
  lemma CallableConditionResult(q: Builder, e: (string, Value), c: ConditionMap, f: (Builder, Value) -> TapResult)
    requires Find(c, e.0) == Some(Callable(f))
    ensures f(q, e.1).returned.Some? ==> ApplyField(q, e, c) == f(q, e.1).returned.value
    ensures f(q, e.1).returned.None? ==> ApplyField(q, e, c) == f(q, e.1).builder
  {
  }

  /**
   * The guards of the condition strings: `like` skips null and '' and wraps
   * the value in `%…%`; `in` needs a non-empty array; `between` needs exactly
   * two entries; `null` and `not_null` ignore the value; a comparison with a
   * null value degrades to `whereNull`.
   */
  lemma ConditionGuards(field: string, value: Value)
    ensures FieldOps(field, Like, value) == [] <==> value == Null || value == Str("")
    ensures value != Null && value != Str("") ==>
              FieldOps(field, Like, value) == [Where(field, "like", Str("%" + ToStr(value) + "%"))]
    ensures FieldOps(field, In, value) != [] <==> value.Arr? && !IsEmpty(value)
    ensures FieldOps(field, Between, value) != [] <==> value.Arr? && |value.entries| == 2
    ensures FieldOps(field, IsNull, value) == [WhereNull(field)]
    ensures FieldOps(field, NotNull, value) == [WhereNotNull(field)]
    ensures forall op :: value == Null ==> FieldOps(field, Compare(op), value) == [WhereNull(field)]
    ensures forall op :: value != Null ==> FieldOps(field, Compare(op), value) == [Where(field, op, value)]
  {
  }

  /**
   * `between` reads the keys 0 and 1 of the value, not its first two
   * entries: a two-entry list gives its bounds, a two-entry array with other
   * keys gives null bounds. PHP also raises an "Undefined array key" warning
   * for each missing key, which a framework that turns warnings into
   * exceptions makes fatal; that warning is not modelled.
   */
  lemma BetweenReadsKeysZeroAndOne(field: string, lo: Value, hi: Value)
    ensures FieldOps(field, Between, Arr([(IntKey(0), lo), (IntKey(1), hi)])) == [WhereBetween(field, lo, hi)]
    ensures FieldOps(field, Between, Arr([(StrKey("from"), lo), (StrKey("to"), hi)])) == [WhereBetween(field, Null, Null)]
  {
    var list: Entries := [(IntKey(0), lo), (IntKey(1), hi)];
    assert Lookup(list, IntKey(0)) == Some(lo);
    assert list[1..] == [(IntKey(1), hi)];
    assert Lookup(list, IntKey(1)) == Some(hi);
    var named: Entries := [(StrKey("from"), lo), (StrKey("to"), hi)];
    assert Lookup(named, IntKey(0)) == None;
    assert Lookup(named, IntKey(1)) == None;
  }
}
