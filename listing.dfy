/**
 * The pure side of `BaseRepository`: the model binding (`instance`), the base
 * query (`query`), the include, sort and export stages, the whole `list`
 * pipeline, and the error rules of `updateById` and `destroyById`, as
 * functions of the repository's configuration and its registered taps.
 */
module Listing {
  import opened Wrappers
  import opened PhpValues
  import opened QueryBuilder
  import opened Filtering

  /** What the repository learns from the model instance. */
  datatype ModelFacts = ModelFacts(
    className: string,     // get_class($this->model)
    keyName: string,       // getKeyName()
    perPage: int,          // getPerPage()
    softDeletes: bool)     // the class uses the SoftDeletes trait

  /** The class `$entity` names, when it exists. */
  datatype ClassInfo = ClassInfo(isModel: bool, facts: ModelFacts)

  /** `static::class` and `static::$entity`, with what the class name resolves to. */
  datatype Binding = Binding(repository: string, entity: string, resolved: Option<ClassInfo>)

  /** The hooks a concrete repository overrides; the base class's defaults are given by `DefaultConfig`. */
  datatype Config = Config(
    binding: Binding,
    defaultSelect: seq<string>,
    defaultWith: Entries,
    defaultWithCount: Entries,
    defaultScopes: seq<(string, Value)>,
    listQuery: (Builder, Params) -> Builder,
    conditions: Builder -> ConditionMap,
    sortable: Option<seq<string>>)   // None: the default `sortableColumns()`

  /** The base class's hooks for a given binding. */
  function DefaultConfig(b: Binding): (cfg: Config)
    ensures cfg.defaultSelect == ["*"] && cfg.defaultWith == [] && cfg.defaultWithCount == []
    ensures cfg.defaultScopes == [] && cfg.sortable.None?
    ensures forall q, p :: cfg.listQuery(q, p) == q
    ensures forall q :: cfg.conditions(q) == []
  {
    Config(b, ["*"], [], [], [], (q, p) => q, q => [], None)
  }

  /** The exceptions the repository raises. */
  datatype RepoError =
    | EntityNotConfigured(repository: string)     // `$entity` empty or not an existing class
    | NotAModel(entity: string)                   // the class is not an Eloquent Model
    | TapReturnedNull                             // a registered tap returned null
    | NotFound(model: string, ids: seq<Value>)    // ModelNotFoundException
    | ReturnTypeMismatch(expected: string)        // a declared return type was violated

  /** `instance()`: the model, or the configuration error. */
  function Instance(b: Binding): (r: Result<ModelFacts, RepoError>)
    ensures r.Success? <==> b.entity != "" && b.resolved.Some? && b.resolved.value.isModel
    ensures r.Success? ==> r.value == b.resolved.value.facts
    ensures b.entity == "" || b.resolved.None? ==> r == Failure(EntityNotConfigured(b.repository))
    ensures b.entity != "" && b.resolved.Some? && !b.resolved.value.isModel ==> r == Failure(NotAModel(b.entity))
  {
    if b.entity == "" || b.resolved.None? then Failure(EntityNotConfigured(b.repository))
    else if !b.resolved.value.isModel then Failure(NotAModel(b.entity))
    else Success(b.resolved.value.facts)
  }

  /** The default scopes as builder calls, `$q->{$scope}(...(array)$args)`, in declared order. */
  function ScopeOps(scopes: seq<(string, Value)>): (ops: seq<Op>)
    ensures |ops| == |scopes|
    ensures forall i :: 0 <= i < |scopes| ==> ops[i] == Scope(scopes[i].0, ArrayCast(scopes[i].1))
  {
    if |scopes| == 0 then []
    else
      var last := scopes[|scopes| - 1];
      ScopeOps(scopes[..|scopes| - 1]) + [Scope(last.0, ArrayCast(last.1))]
  }

  /** `newQuery()->select(...)`, then the default relations and counts when there are any. */
  function DefaultHead(cfg: Config): (q: Builder)
    ensures |q| >= 1 && q[0] == Select(cfg.defaultSelect)
    ensures With(cfg.defaultWith) in q <==> |cfg.defaultWith| > 0
    ensures WithCount(cfg.defaultWithCount) in q <==> |cfg.defaultWithCount| > 0
  {
    [Select(cfg.defaultSelect)]
    + (if |cfg.defaultWith| > 0 then [With(cfg.defaultWith)] else [])
    + (if |cfg.defaultWithCount| > 0 then [WithCount(cfg.defaultWithCount)] else [])
  }

  /** The base query before any registered tap. */
  function DefaultQuery(cfg: Config): Builder {
    DefaultHead(cfg) + ScopeOps(cfg.defaultScopes)
  }

  /** `$q = $tap($q)`. */
  function ApplyTap(q: Builder, t: Tap): Result<Builder, RepoError> {
    match t(q).returned
    case Some(q') => Success(q')
    case None => Failure(TapReturnedNull)
  }

  /** The registered taps, applied in registration order; the only way they fail is a tap returning null. */
  function ApplyTaps(q: Builder, ts: seq<Tap>): (r: Result<Builder, RepoError>)
    ensures |ts| == 0 ==> r == Success(q)
    ensures r.Failure? ==> r.error == TapReturnedNull
  {
    if |ts| == 0 then Success(q)
    else
      match ApplyTaps(q, ts[..|ts| - 1])
      case Success(q') => ApplyTap(q', ts[|ts| - 1])
      case Failure(e) => Failure(e)
  }

  /** `query()`: a configuration error first, otherwise the registered taps over the default query. */
  function BaseQuery(cfg: Config, ts: seq<Tap>): (r: Result<Builder, RepoError>)
    ensures Instance(cfg.binding).Failure? ==> r == Failure(Instance(cfg.binding).error)
    ensures Instance(cfg.binding).Success? ==> r == ApplyTaps(DefaultQuery(cfg), ts)
    ensures r.Failure? ==> r.error.EntityNotConfigured? || r.error.NotAModel? || r.error == TapReturnedNull
  {
    match Instance(cfg.binding)
    case Failure(e) => Failure(e)
    case Success(_) => ApplyTaps(DefaultQuery(cfg), ts)
  }

  /** Applying `a + b` is applying `a`, then `b` to its result; a failure stops the rest. */
  lemma {:induction false} ApplyTapsAppend(q: Builder, a: seq<Tap>, b: seq<Tap>)
    ensures ApplyTaps(q, a + b) ==
              match ApplyTaps(q, a)
              case Success(q') => ApplyTaps(q', b)
              case Failure(e) => Failure(e)
    decreases |b|
  {
    if |b| == 0 {
      assert a + b == a;
    } else {
      var b' := b[..|b| - 1];
      ApplyTapsAppend(q, a, b');
      assert (a + b)[..|a + b| - 1] == a + b';
      assert (a + b)[|a + b| - 1] == b[|b| - 1];
    }
  }

  /** Applying the taps fails exactly when one of them, reached with a builder, returns null. */
  lemma {:induction false} TapsFailOnlyOnNull(q: Builder, ts: seq<Tap>)
    ensures ApplyTaps(q, ts).Failure? <==>
              exists i :: 0 <= i < |ts| && ApplyTaps(q, ts[..i]).Success? && ts[i](ApplyTaps(q, ts[..i]).value).returned.None?
  {
    if |ts| > 0 {
      var n := |ts| - 1;
      var init := ts[..n];
      TapsFailOnlyOnNull(q, init);
      forall i | 0 <= i < n ensures ts[..i] == init[..i] && ts[i] == init[i] {
      }
      assert ts[..n] == init;
    }
  }

  /** Two taps registered one after the other run in registration order, each on the other's result. */
  lemma TapsRunInRegistrationOrder(cfg: Config, ts: seq<Tap>, t1: Tap, t2: Tap, q: Builder)
    requires BaseQuery(cfg, ts) == Success(q)
    requires t1(q).returned.Some?
    ensures BaseQuery(cfg, ts + [t1, t2]) == ApplyTap(t1(q).returned.value, t2)
  {
    ApplyTapsAppend(DefaultQuery(cfg), ts, [t1, t2]);
    assert ApplyTaps(DefaultQuery(cfg), ts) == Success(q);
    assert [t1, t2][..1] == [t1] && [t1][..0] == [];
    assert ApplyTaps(q, [t1]) == Success(t1(q).returned.value);
    assert ApplyTaps(q, [t1, t2]) == ApplyTap(t1(q).returned.value, t2);
  }

  /** With no registered tap the base query is the default select, relations and scopes. */
  lemma ClearedTapsGiveDefaultQuery(cfg: Config)
    requires Instance(cfg.binding).Success?
    ensures BaseQuery(cfg, []) == Success(DefaultQuery(cfg))
    ensures DefaultQuery(cfg)[0] == Select(cfg.defaultSelect)
  {
  }

  /** `applyIncludes`: the operations it adds to the builder. */
  function IncludesOps(p: Params, softDeletes: bool): (ops: seq<Op>)
    ensures forall op :: op in ops ==> op.With? || op.WithCount? || op.OnlyTrashed? || op.WithTrashed?
  {
    (if !IsEmpty(ParamOrNull(p, "with")) then [With(ArrayCast(ParamOrNull(p, "with")))] else [])
    + (if !IsEmpty(ParamOrNull(p, "with_count")) then [WithCount(ArrayCast(ParamOrNull(p, "with_count")))] else [])
    + (if !softDeletes then []
       else if !IsEmpty(ParamOrNull(p, "only_trashed")) then [OnlyTrashed]
       else if !IsEmpty(ParamOrNull(p, "with_trashed")) then [WithTrashed]
       else [])
  }

  /** The trashed scopes of `applyIncludes`: only for soft-deleting models, at most one, `only_trashed` first. */
  lemma TrashedScopePrecedence(p: Params, softDeletes: bool)
    ensures OnlyTrashed in IncludesOps(p, softDeletes) <==> softDeletes && !IsEmpty(ParamOrNull(p, "only_trashed"))
    ensures WithTrashed in IncludesOps(p, softDeletes) <==>
              softDeletes && IsEmpty(ParamOrNull(p, "only_trashed")) && !IsEmpty(ParamOrNull(p, "with_trashed"))
    ensures !(OnlyTrashed in IncludesOps(p, softDeletes) && WithTrashed in IncludesOps(p, softDeletes))
    ensures (exists rs :: With(rs) in IncludesOps(p, softDeletes)) <==> !IsEmpty(ParamOrNull(p, "with"))
    ensures (exists rs :: WithCount(rs) in IncludesOps(p, softDeletes)) <==> !IsEmpty(ParamOrNull(p, "with_count"))
  {
    var ops := IncludesOps(p, softDeletes);
    if !IsEmpty(ParamOrNull(p, "with")) {
      assert With(ArrayCast(ParamOrNull(p, "with"))) in ops;
    }
    if !IsEmpty(ParamOrNull(p, "with_count")) {
      assert WithCount(ArrayCast(ParamOrNull(p, "with_count"))) in ops;
    }
  }

  /** `sort_direction` read case-insensitively: "asc", and anything else "desc". */
  function Direction(p: Params): (d: string)
    ensures d == "asc" || d == "desc"
  {
    var raw := Coalesce(p, "sort_direction").GetOr(Str("desc"));
    if Lower(ToStr(raw)) == "asc" then "asc" else "desc"
  }

  /** `sortableColumns()`. */
  function SortableColumns(cfg: Config, facts: ModelFacts): (allowed: seq<string>)
    ensures cfg.sortable.None? ==> allowed == [facts.keyName, "created_at"]
  {
    cfg.sortable.GetOr([facts.keyName, "created_at"])
  }

  /** `sort_by` when it is one of the allowed columns, the primary key otherwise. */
  function SortColumn(p: Params, keyName: string, allowed: seq<string>): (col: string)
    ensures col == keyName || col in allowed
  {
    var sortBy := Coalesce(p, "sort_by").GetOr(Str(keyName));
    if sortBy.Str? && sortBy.s in allowed then sortBy.s else keyName
  }

  /** `sort`: exactly one `orderBy` appended, on an allowed column or the key, ascending or descending. */
  function Sort(q: Builder, p: Params, keyName: string, allowed: seq<string>): (r: Builder)
    ensures |r| == |q| + 1 && r[..|q|] == q && r[|q|].OrderBy?
    ensures r[|q|].direction in {"asc", "desc"}
    ensures r[|q|].column == keyName || r[|q|].column in allowed
  {
    q + [OrderBy(SortColumn(p, keyName, allowed), Direction(p))]
  }

  /** The direction is ascending exactly when `sort_direction` is a string that lower-cases to "asc". */
  lemma DirectionAscIff(p: Params)
    ensures Direction(p) == "asc" <==>
              Coalesce(p, "sort_direction").Some? && Coalesce(p, "sort_direction").value.Str?
              && Lower(Coalesce(p, "sort_direction").value.s) == "asc"
  {
    var raw := Coalesce(p, "sort_direction").GetOr(Str("desc"));
    if !raw.Str? {
      LowerToStrOfNonString(raw);
    } else if Coalesce(p, "sort_direction").None? {
      assert Lower("desc")[0] == 'd';
    }
  }

  /** The column is `sort_by` exactly when that is a string in the allow-list; otherwise the primary key. */
  lemma SortColumnAllowList(p: Params, keyName: string, allowed: seq<string>)
    ensures var v := Coalesce(p, "sort_by");
            (v.Some? && v.value.Str? && v.value.s in allowed ==> SortColumn(p, keyName, allowed) == v.value.s)
            && (!(v.Some? && v.value.Str? && v.value.s in allowed) ==> SortColumn(p, keyName, allowed) == keyName)
  {
  }

  /** An unknown column and an unknown direction degrade to the primary key, descending; "ASC" on an allowed column sorts ascending. */
  lemma SortExamples(q: Builder, keyName: string)
    requires keyName != "nonexistent_column"
    ensures Sort(q, [("sort_by", Str("nonexistent_column")), ("sort_direction", Str("up"))], keyName, [keyName, "created_at"])
            == q + [OrderBy(keyName, "desc")]
    ensures Sort(q, [("sort_by", Str("created_at")), ("sort_direction", Str("ASC"))], keyName, [keyName, "created_at"])
            == q + [OrderBy("created_at", "asc")]
  {
    var p1: Params := [("sort_by", Str("nonexistent_column")), ("sort_direction", Str("up"))];
    assert Find(p1, "sort_direction") == Some(Str("up"));
    assert Lower("up") != "asc";
    var p2: Params := [("sort_by", Str("created_at")), ("sort_direction", Str("ASC"))];
    assert Find(p2, "sort_direction") == Some(Str("ASC"));
    assert Lower("ASC") == "asc";
  }

  /** The four shapes `list` can return. */
  datatype ExportResult =
    | BuilderOut(query: Builder)                                    // the unexecuted builder
    | CollectionOut(query: Builder, columns: seq<string>)           // `get($columns)`
    | ArrayOut(query: Builder, columns: seq<string>)                // `get($columns)->toArray()`
    | PageOut(query: Builder, perPage: int, columns: seq<string>)   // `paginate($perPage, $columns)`

  /** The `export` parameter: `None` when absent or null. */
  function ExportMode(p: Params): Option<Value> {
    Coalesce(p, "export")
  }

  /** `export`: a strict four-way dispatch on `export`, paginating by default. */
  function Export(q: Builder, p: Params, columns: seq<string>, defaultPerPage: int): (r: ExportResult)
    ensures r.BuilderOut? <==> ExportMode(p) == Some(Str("builder"))
    ensures r.CollectionOut? <==> ExportMode(p) == Some(Str("collection"))
    ensures r.ArrayOut? <==> ExportMode(p) == Some(Str("array"))
    ensures r.BuilderOut? ==> r.query == q + [Select(columns)]
    ensures !r.BuilderOut? ==> r.query == q && r.columns == columns
    ensures r.PageOut? && Coalesce(p, "per_page").Some? ==> r.perPage == IntCast(Coalesce(p, "per_page").value)
    ensures r.PageOut? && Coalesce(p, "per_page").None? ==> r.perPage == defaultPerPage
  {
    match ExportMode(p)
    case Some(Str("builder")) => BuilderOut(q + [Select(columns)])
    case Some(Str("collection")) => CollectionOut(q, columns)
    case Some(Str("array")) => ArrayOut(q, columns)
    case _ =>
      var perPage := match Coalesce(p, "per_page") case Some(v) => IntCast(v) case None => defaultPerPage;
      PageOut(q, perPage, columns)
  }

  /** Without `export`, `per_page=5` asks for pages of 5; `export=collection` ignores `per_page`; a negative `per_page` is passed on as is. */
  lemma ExportExamples(q: Builder, columns: seq<string>, defaultPerPage: int)
    ensures Export(q, [("per_page", Str("5"))], columns, defaultPerPage) == PageOut(q, 5, columns)
    ensures Export(q, [("export", Str("collection")), ("per_page", Str("5"))], columns, defaultPerPage) == CollectionOut(q, columns)
    ensures Export(q, [("per_page", Int(-3))], columns, defaultPerPage) == PageOut(q, -3, columns)
    ensures Export(q, [("export", Str("csv"))], columns, defaultPerPage) == PageOut(q, defaultPerPage, columns)
  {
    var p1: Params := [("per_page", Str("5"))];
    assert Find(p1, "per_page") == Some(Str("5"));
    assert Find(p1, "export") == None;
    assert LeadingDigits("5") == "5";
    assert DigitsValue("5") == 5 by {
      assert "5"[..0] == [];
    }
    var p2: Params := [("export", Str("collection")), ("per_page", Str("5"))];
    assert Find(p2, "export") == Some(Str("collection"));
    var p3: Params := [("per_page", Int(-3))];
    assert Find(p3, "export") == None;
    assert Find(p3, "per_page") == Some(Int(-3));
    var p4: Params := [("export", Str("csv"))];
    assert Find(p4, "export") == Some(Str("csv"));
    assert Find(p4, "per_page") == None;
  }

  /**
   * `$tap($builder) ?? $builder` when a one-shot tap is given: the tap's
   * builder when it returns one, and otherwise the builder as the tap left it.
   */
  function OneShot(q: Builder, tap: Option<Tap>): (r: Builder)
    ensures tap.None? ==> r == q
    ensures tap.Some? && tap.value(q).returned.Some? ==> r == tap.value(q).returned.value
    ensures tap.Some? && tap.value(q).returned.None? ==> r == tap.value(q).builder
  {
    match tap
    case Some(t) => Resolve(t(q))
    case None => q
  }

  /** The builder after `listQuery` and `applyIncludes`, the one the condition map is asked for. */
  function Included(cfg: Config, base: Builder, p: Params, facts: ModelFacts): Builder {
    cfg.listQuery(base, p) + IncludesOps(p, facts.softDeletes)
  }

  /**
   * `list($parameters, $columns, $tap)`. Only `query()` can make it fail;
   * every later stage is total, apart from PHP warnings, which are not modelled.
   */
  function ListSpec(cfg: Config, ts: seq<Tap>, p: Params, columns: seq<string>, tap: Option<Tap>): (r: Result<ExportResult, RepoError>)
    ensures r.Failure? <==> BaseQuery(cfg, ts).Failure?
    ensures r.Failure? ==> r.error == BaseQuery(cfg, ts).error
  {
    match Instance(cfg.binding)
    case Failure(e) => Failure(e)
    case Success(facts) =>
      match ApplyTaps(DefaultQuery(cfg), ts)
      case Failure(e) => Failure(e)
      case Success(base) =>
        var included := Included(cfg, base, p, facts);
        var filtered := Filter(included, p, cfg.conditions(included));
        var tapped := OneShot(filtered, tap);
        var sorted := Sort(tapped, p, facts.keyName, SortableColumns(cfg, facts));
        Success(Export(sorted, p, columns, facts.perPage))
  }

  /**
   * `list` runs its stages in a fixed order: the hook, then the includes,
   * then the declarative filters in parameter order, then one `orderBy`, and
   * for `export=builder` a final `select`.
   */
  lemma ListStagesInOrder(cfg: Config, ts: seq<Tap>, p: Params, columns: seq<string>, facts: ModelFacts, base: Builder)
    requires Instance(cfg.binding) == Success(facts)
    requires ApplyTaps(DefaultQuery(cfg), ts) == Success(base)
    requires NoCallables(Commons(p, cfg.conditions(Included(cfg, base, p, facts))), cfg.conditions(Included(cfg, base, p, facts)))
    ensures ListSpec(cfg, ts, p, columns, None).Success?
    ensures var r := ListSpec(cfg, ts, p, columns, None).value;
            var c := cfg.conditions(Included(cfg, base, p, facts));
            var sorted := cfg.listQuery(base, p) + IncludesOps(p, facts.softDeletes) + DeclarativeOps(Commons(p, c), c)
                          + [OrderBy(SortColumn(p, facts.keyName, SortableColumns(cfg, facts)), Direction(p))];
            (r.BuilderOut? ==> r.query == sorted + [Select(columns)]) && (!r.BuilderOut? ==> r.query == sorted)
  {
    var included := Included(cfg, base, p, facts);
    FilterOnlyConstrainsCommonColumns(included, p, cfg.conditions(included));
  }

  /**
   * `updateById`: run `update` on the base query narrowed to the key; zero
   * affected rows is NotFound for the model's class and `[id]`, so a call that
   * returns at all returns true.
   */
  function UpdateByIdSpec(cfg: Config, ts: seq<Tap>, id: Value, p: Params, affected: (Builder, Params) -> nat): (r: Result<bool, RepoError>)
    ensures r != Success(false)
    ensures BaseQuery(cfg, ts).Failure? ==> r == Failure(BaseQuery(cfg, ts).error)
    ensures r.Failure? && r.error.NotFound? ==>
              BaseQuery(cfg, ts).Success? && r.error == NotFound(Instance(cfg.binding).value.className, [id])
  {
    match Instance(cfg.binding)
    case Failure(e) => Failure(e)
    case Success(facts) =>
      match ApplyTaps(DefaultQuery(cfg), ts)
      case Failure(e) => Failure(e)
      case Success(q) =>
        if affected(q + [WhereKey(id)], p) == 0 then Failure(NotFound(facts.className, [id])) else Success(true)
  }

  /** Once the query is built, `updateById` either reports NotFound for the model and `[id]` (zero rows) or returns true; never false. */
  lemma UpdateByIdOutcomes(cfg: Config, ts: seq<Tap>, id: Value, p: Params, affected: (Builder, Params) -> nat, q: Builder)
    requires BaseQuery(cfg, ts) == Success(q)
    ensures var notFound := Failure(NotFound(Instance(cfg.binding).value.className, [id]));
            UpdateByIdSpec(cfg, ts, id, p, affected) == notFound <==> affected(q + [WhereKey(id)], p) == 0
    ensures UpdateByIdSpec(cfg, ts, id, p, affected) == Success(true) <==> affected(q + [WhereKey(id)], p) > 0
    ensures UpdateByIdSpec(cfg, ts, id, p, affected) != Success(false)
  {
  }

  /** A value returned from a function declared `: bool` in a file with `strict_types=1`. */
  function StrictBool(v: Value): Result<bool, RepoError> {
    if v.Bool? then Success(v.b) else Failure(ReturnTypeMismatch("bool"))
  }

  /** `destroyById` as written: returns the builder's `delete()` result, an affected-row count, from a `: bool` method. */
  function DestroyByIdAsWritten(cfg: Config, ts: seq<Tap>, id: Value, deleted: Builder -> nat): (r: Result<bool, RepoError>)
    ensures r.Failure?
    ensures BaseQuery(cfg, ts).Failure? ==> r == Failure(BaseQuery(cfg, ts).error)
  {
    match BaseQuery(cfg, ts)
    case Failure(e) => Failure(e)
    case Success(q) => StrictBool(Int(deleted(q + [WhereKey(id)])))
  }

  /**
   * As written, every `destroyById` whose query builds ends in a return-type
   * error, found or not, where the intended method answers whether a row was
   * deleted.
   */
  lemma DestroyByIdAsWrittenAlwaysThrows(cfg: Config, ts: seq<Tap>, id: Value, deleted: Builder -> nat)
    requires BaseQuery(cfg, ts).Success?
    ensures DestroyByIdAsWritten(cfg, ts, id, deleted) == Failure(ReturnTypeMismatch("bool"))
    ensures DestroyByIdSpec(cfg, ts, id, deleted) == Success(deleted(BaseQuery(cfg, ts).value + [WhereKey(id)]) > 0)
  {
  }

  /** `destroyById` as intended: whether any row was deleted; it fails only where `query()` does. */
  function DestroyByIdSpec(cfg: Config, ts: seq<Tap>, id: Value, deleted: Builder -> nat): (r: Result<bool, RepoError>)
    ensures r.Success? <==> BaseQuery(cfg, ts).Success?
    ensures r.Failure? ==> r == Failure(BaseQuery(cfg, ts).error) && !r.error.NotFound?
  {
    match BaseQuery(cfg, ts)
    case Failure(e) => Failure(e)
    case Success(q) => Success(deleted(q + [WhereKey(id)]) > 0)
  }

  /** Deleting by id never raises NotFound: a missing id gives false, a deleted row true. */
  lemma DestroyByIdNeverNotFound(cfg: Config, ts: seq<Tap>, id: Value, deleted: Builder -> nat, q: Builder)
    requires BaseQuery(cfg, ts) == Success(q)
    ensures DestroyByIdSpec(cfg, ts, id, deleted).Success?
    ensures DestroyByIdSpec(cfg, ts, id, deleted).value <==> deleted(q + [WhereKey(id)]) > 0
  {
  }
}
