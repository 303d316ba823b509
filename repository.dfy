/**
 * `BaseRepository` as an object: its registered query taps are instance
 * state that `withQuery` and `clearQuery` change in place, and `query`,
 * `list` and the filter and include stages build the query step by step.
 * Each method is proved against the functions of module Listing.
 */
module Repository {
  import opened Wrappers
  import opened PhpValues
  import opened QueryBuilder
  import opened Filtering
  import opened Listing

  class BaseRepository {
    /** The hooks the concrete repository class overrides, and its model binding. */
    const config: Config
    /** `$queryTaps`, in registration order. */
    var taps: seq<Tap>

    constructor (config: Config)
      ensures this.config == config
      ensures taps == []
    {
      this.config := config;
      taps := [];
    }

    /** `withQuery($tap)`: registers one more tap, run after all earlier ones; returns this repository. */
    method WithQuery(tap: Tap) returns (self: BaseRepository)
      modifies this
      ensures self == this
      ensures taps == old(taps) + [tap]
      ensures BaseQuery(config, taps) ==
        (match BaseQuery(config, old(taps)) case Success(b) => ApplyTap(b, tap) case Failure(e) => Failure(e))
    {
      ApplyTapsAppend(DefaultQuery(config), taps, [tap]);
      taps := taps + [tap];
      self := this;
    }

    /** `clearQuery()`: forgets every registered tap; returns this repository. */
    method ClearQuery() returns (self: BaseRepository)
      modifies this
      ensures self == this
      ensures taps == []
      ensures Instance(config.binding).Success? ==> BaseQuery(config, taps) == Success(DefaultQuery(config))
    {
      taps := [];
      self := this;
    }

    /** `query()`: the default select, relations, counts and scopes, then every registered tap in order. */
    method Query() returns (r: Result<Builder, RepoError>)
      ensures r == BaseQuery(config, taps)
    {
      var instance := Instance(config.binding);
      if instance.Failure? {
        return Failure(instance.error);
      }
      var q := DefaultBuilder();
      r := RunTaps(q);
    }

    /** The first half of `query()`: `select`, the default `with` and `withCount`, then the default scopes in order. */
    method DefaultBuilder() returns (q: Builder)
      ensures q == DefaultQuery(config)
    {
      q := [Select(config.defaultSelect)];
      if |config.defaultWith| > 0 {
        q := q + [With(config.defaultWith)];
      }
      if |config.defaultWithCount| > 0 {
        q := q + [WithCount(config.defaultWithCount)];
      }
      var scopes := config.defaultScopes;
      for i := 0 to |scopes|
        invariant q == DefaultHead(config) + ScopeOps(scopes[..i])
      {
        assert scopes[..i + 1][..i] == scopes[..i];
        q := q + [Scope(scopes[i].0, ArrayCast(scopes[i].1))];
      }
      assert scopes[..|scopes|] == scopes;
    }

    /** The second half of `query()`: `$q = $tap($q)` for every registered tap; a tap returning null stops the query. */
    method RunTaps(q0: Builder) returns (r: Result<Builder, RepoError>)
      ensures r == ApplyTaps(q0, taps)
    {
      var q := q0;
      var registered := taps;
      for j := 0 to |registered|
        invariant ApplyTaps(q0, registered[..j]) == Success(q)
      {
        assert registered[..j + 1][..j] == registered[..j];
        var out := registered[j](q);
        if out.returned.None? {
          ApplyTapsAppend(q0, registered[..j + 1], registered[j + 1..]);
          assert registered[..j + 1] + registered[j + 1..] == registered;
          return Failure(TapReturnedNull);
        }
        q := out.returned.value;
      }
      assert registered[..|registered|] == registered;
      r := Success(q);
    }

    /** `all($columns)`: the base query's rows. */
    method All(columns: seq<string> := ["*"]) returns (r: Result<ExportResult, RepoError>)
      ensures r.Success? <==> BaseQuery(config, taps).Success?
      ensures r.Success? ==> r.value == CollectionOut(BaseQuery(config, taps).value, columns)
    {
      var q := Query();
      if q.Failure? {
        return Failure(q.error);
      }
      r := Success(CollectionOut(q.value, columns));
    }

    /** `filterConditions`: the `foreach` over the parameters the condition map also names, adding predicates to the builder. */
    method FilterConditions(query: Builder, parameters: Params) returns (r: Builder)
      ensures r == Filter(query, parameters, config.conditions(query))
    {
      var conditions := config.conditions(query);
      if |parameters| == 0 || |conditions| == 0 {
        return query;
      }
      var commons := Commons(parameters, conditions);
      if |commons| == 0 {
        return query;
      }
      r := query;
      for i := 0 to |commons|
        invariant r == ApplyFields(query, commons[..i], conditions)
      {
        assert commons[..i + 1][..i] == commons[..i];
        var (field, value) := commons[i];
        match Find<CondSpec>(conditions, field)
        case Some(Callable(f)) =>
          r := Resolve(f(r, value));
        case Some(Named(name)) => {
          match Classify(name)
          case Like =>
            if value != Null && value != Str("") {
              r := r + [Where(field, "like", Str("%" + ToStr(value) + "%"))];
            }
          case In =>
            if value.Arr? && |value.entries| > 0 {
              r := r + [WhereIn(field, value.entries)];
            }
          case Between =>
            if value.Arr? && |value.entries| == 2 {
              var low := Lookup(value.entries, IntKey(0)).GetOr(Null);
              var high := Lookup(value.entries, IntKey(1)).GetOr(Null);
              r := r + [WhereBetween(field, low, high)];
            }
          case IsNull =>
            r := r + [WhereNull(field)];
          case NotNull =>
            r := r + [WhereNotNull(field)];
          case Compare(op) =>
            if value == Null {
              r := r + [WhereNull(field)];
            } else {
              r := r + [Where(field, op, value)];
            }
        }
        case None =>
      }
      assert commons[..|commons|] == commons;
    }

    /** `applyIncludes`: relations, relation counts, and for soft-deleting models one trashed scope. */
    method ApplyIncludes(q: Builder, parameters: Params, facts: ModelFacts) returns (r: Builder)
      ensures r == q + IncludesOps(parameters, facts.softDeletes)
    {
      r := q;
      var with := ParamOrNull(parameters, "with");
      if !IsEmpty(with) {
        r := r + [With(ArrayCast(with))];
      }
      var withCount := ParamOrNull(parameters, "with_count");
      if !IsEmpty(withCount) {
        r := r + [WithCount(ArrayCast(withCount))];
      }
      if facts.softDeletes {
        if !IsEmpty(ParamOrNull(parameters, "only_trashed")) {
          r := r + [OnlyTrashed];
        } else if !IsEmpty(ParamOrNull(parameters, "with_trashed")) {
          r := r + [WithTrashed];
        }
      }
    }

    /** `list($parameters, $columns, $tap)`: hook, includes, filters, one-shot tap, sort, export. */
    method List(parameters: Params, columns: seq<string> := ["*"], tap: Option<Tap> := None) returns (r: Result<ExportResult, RepoError>)
      ensures r == ListSpec(config, taps, parameters, columns, tap)
    {
      var base := Query();
      if base.Failure? {
        return Failure(base.error);
      }
      var facts := Instance(config.binding).value;
      var builder := config.listQuery(base.value, parameters);
      builder := ApplyIncludes(builder, parameters, facts);
      builder := FilterConditions(builder, parameters);
      if tap.Some? {
        builder := Resolve(tap.value(builder));
      }
      builder := Sort(builder, parameters, facts.keyName, SortableColumns(config, facts));
      r := Success(Export(builder, parameters, columns, facts.perPage));
    }

    /** `updateById($id, $parameters)`, with the storage's affected-row count as a parameter. */
    method UpdateById(id: Value, parameters: Params, affected: (Builder, Params) -> nat) returns (r: Result<bool, RepoError>)
      ensures r == UpdateByIdSpec(config, taps, id, parameters, affected)
    {
      var q := Query();
      if q.Failure? {
        return Failure(q.error);
      }
      var rows := affected(q.value + [WhereKey(id)], parameters);
      if rows == 0 {
        return Failure(NotFound(Instance(config.binding).value.className, [id]));
      }
      r := Success(rows > 0);
    }

    /** `destroyById($id)`, returning whether a row was deleted (see DestroyByIdAsWritten for the code as written). */
    method DestroyById(id: Value, deleted: Builder -> nat) returns (r: Result<bool, RepoError>)
      ensures r == DestroyByIdSpec(config, taps, id, deleted)
    {
      var q := Query();
      if q.Failure? {
        return Failure(q.error);
      }
      r := Success(deleted(q.value + [WhereKey(id)]) > 0);
    }
  }
}
