# alikhani97/helper in Dafny

This is a model of the two pieces of logic in the `alikhani97/helper` Laravel package.

**`BaseRepository`** is a generic Eloquent repository.
- `query()` builds a base query from overridable defaults (select, relations, relation counts, scopes). It then runs every tap registered with `withQuery`, in order.
- `list()` runs a fixed pipeline on that query:
  - the `listQuery` hook;
  - the `with` / `with_count` / trashed includes;
  - the declarative filter driven by the `conditions()` map;
  - an optional one-shot tap;
  - a single `orderBy` restricted to an allow-list;
  - the export choice: the builder, a collection, an array or a page.
- `updateById` and `destroyById` add their error rules on top of the base query.

**`Responser`** builds the JSON envelope `{ok, status, message, code, data, errors, meta}` for successes, errors and paginated collections.

The model is organised as follows:

- `wrappers.dfy` (`Wrappers`) holds `Option` and `Result`.
- `php_values.dfy` (`PhpValues`) holds the PHP values the code inspects (null, bool, int, string, ordered arrays with int or string keys). It also holds the conversions the code relies on: `empty()`, `(array)`, `(string)`, `(int)` and `strtolower`.
- `query_builder.dfy` (`QueryBuilder`) models an Eloquent builder as the trace of operations applied to it (`Builder = seq<Op>`).
  - A user callable is a function from builder to `TapResult`. It records the state it leaves the builder in (builders are mutated in place) and what it returns (`None` for null).
  - `Resolve` is `$f($q) ?? $q`.
  - The request parameters are an ordered list of unique string keys.
- `filtering.dfy` (`Filtering`) holds the `filterConditions` logic as functions, with its lemmas.
- `listing.dfy` (`Listing`) holds the pure side of the repository as functions of its configuration and its registered taps: `instance`, the default query, includes, sort, export, the whole `list` pipeline, and the `updateById`/`destroyById` rules.
- `repository.dfy` (`Repository`) holds the class `BaseRepository`.
  - The tap list is a mutable field that `WithQuery` and `ClearQuery` change.
  - `Query`, `FilterConditions`, `ApplyIncludes`, `List`, `UpdateById` and `DestroyById` are methods. Each one's loops and branches are proved equal to the `Listing`/`Filtering` functions.
- `responser.dfy` (`Responser`) holds the envelope helpers as functions over PHP values.
  - Translation lookups (`__()`) are a `Translator` parameter.
  - `Response::json` becomes the `JsonResponse` value it would be handed.

These things become parameters:
- the storage engine: the affected-row counts of `update`/`delete`;
- the concrete repository's overridable hooks: a `Config` record;
- PHP reflection (`class_exists`, `instanceof Model`, `class_uses_recursive`): a `Binding` and `ModelFacts`.

`per_page` is handed to `paginate` after a bare `(int)` cast, with no check that it is positive. The model keeps that: `Listing.ExportExamples` passes a negative page size through.

## Model

| member | source | states |
|---|---|---|
| `Listing.Instance` | src/Repository/BaseRepository.php:28-43 | Succeeds iff `$entity` is non-empty, names an existing class and that class is a Model. An empty or unknown entity is the configuration error; a non-Model class is the "must extend Model" error. |
| `Listing.DefaultConfig` | src/Repository/BaseRepository.php:99-127 | The base class's hooks: select `*`, no default relations, counts or scopes, `listQuery` the identity, an empty condition map, default sortable columns. |
| `Listing.DefaultHead` | src/Repository/BaseRepository.php:47-54 | The base query starts with `select(defaultSelect)`. `with` and `withCount` appear iff their defaults are non-empty. |
| `Listing.ScopeOps` | src/Repository/BaseRepository.php:56-58 | One scope call per default scope, in declared order, with `(array)` of its arguments. |
| `Listing.ApplyTaps` | src/Repository/BaseRepository.php:60-64 | No taps leave the query as it is. The only error applying taps can give is the null-tap error. |
| `Listing.TapsFailOnlyOnNull` | src/Repository/BaseRepository.php:60-64 | Applying the taps fails iff some tap, reached with a builder, returns null. |
| `Listing.BaseQuery` | src/Repository/BaseRepository.php:45-65 | A configuration error from `instance()` comes first and unchanged. Otherwise the result is the taps applied to the default query. It can only fail with a configuration error or the null-tap error. |
| `Listing.ApplyTapsAppend` | src/Repository/BaseRepository.php:60-62 | Running taps `a + b` is running `a`, then `b` on its result. A tap returning null stops the chain with an error. |
| `Listing.TapsRunInRegistrationOrder` | src/Repository/BaseRepository.php:60-71 | Two taps registered one after the other run in that order, the second on the first's result. |
| `Listing.ClearedTapsGiveDefaultQuery` | src/Repository/BaseRepository.php:45-77 | With no taps, `query()` is the default select, relations and scopes. |
| `Repository.BaseRepository.constructor` | src/Repository/BaseRepository.php:16-19 | A new repository has its configuration and an empty tap list. |
| `Repository.BaseRepository.WithQuery` | src/Repository/BaseRepository.php:67-71 | Appends exactly one tap at the end and keeps the others. Returns the same instance. The new base query is the old one followed by the new tap. |
| `Repository.BaseRepository.ClearQuery` | src/Repository/BaseRepository.php:73-77 | Empties the tap list and returns the same instance. Afterwards the base query is the default query. |
| `Repository.BaseRepository.Query` | src/Repository/BaseRepository.php:45-65 | Equals the specification `BaseQuery`: the model check, then the default head and scopes, then every registered tap in order. |
| `Repository.BaseRepository.DefaultBuilder` | src/Repository/BaseRepository.php:47-58 | The scope loop builds exactly `DefaultHead + ScopeOps(defaultScopes)`. |
| `Repository.BaseRepository.RunTaps` | src/Repository/BaseRepository.php:60-64 | The tap loop yields `ApplyTaps`: each tap's result replaces the query, and a null result is the tap error. |
| `Repository.BaseRepository.All` | src/Repository/BaseRepository.php:79-82 | `all()` fails exactly when `query()` fails, and otherwise fetches the base query's rows with the given columns (by default `['*']`). |
| `Repository.BaseRepository.FilterConditions` | src/Repository/BaseRepository.php:129-188 | The guarded `foreach` over the common keys, with its `switch`, equals the specification `Filter`. |
| `Repository.BaseRepository.ApplyIncludes` | src/Repository/BaseRepository.php:220-243 | Appends exactly `IncludesOps` to the builder. |
| `Repository.BaseRepository.List` | src/Repository/BaseRepository.php:84-97 | Equals `ListSpec`: base query → `listQuery` → includes → filters → one-shot tap → sort → export. By default the columns are `['*']` and there is no one-shot tap. |
| `Repository.BaseRepository.UpdateById` | src/Repository/BaseRepository.php:276-285 | Equals `UpdateByIdSpec`: NotFound for the model's class and `[id]` when zero rows are affected, otherwise true. |
| `Repository.BaseRepository.DestroyById` | src/Repository/BaseRepository.php:292-295 | Equals the corrected `DestroyByIdSpec` (see Findings). |
| `Filtering.Classify` | src/Repository/BaseRepository.php:150-184 | A condition string is a comparison operator iff it is none of `like`, `in`, `between`, `null`, `not_null`. The operator is the string itself. |
| `Filtering.FieldOps` | src/Repository/BaseRepository.php:150-184 | A condition string adds at most one predicate, and it constrains the condition's own column. |
| `Filtering.CommonsAreTheKnownParameters` | src/Repository/BaseRepository.php:136 | The common keys are exactly the parameters whose key the condition map has, in parameter order. |
| `Filtering.CommonsEmptyWhenDisjoint` | src/Repository/BaseRepository.php:136-139 | When no parameter key is a condition key, the intersection is empty. |
| `Filtering.Filter` | src/Repository/BaseRepository.php:129-141 | Empty parameters or conditions return the query unchanged. The emptiness guards are only shortcuts: filtering always equals the loop over the common parameters. |
| `Filtering.FilterUnchangedWithoutCommonKeys` | src/Repository/BaseRepository.php:129-139 | No common key (in particular empty parameters or conditions) means the query is returned unchanged. |
| `Filtering.DeclarativeLoopAppends` | src/Repository/BaseRepository.php:141-185 | Without callable conditions, the loop only appends the predicates the condition strings prescribe, in order. |
| `Filtering.DeclarativeOpsFields` | src/Repository/BaseRepository.php:141-185 | Every predicate added constrains a column that is both a parameter key and a condition key. |
| `Filtering.FilterOnlyConstrainsCommonColumns` | src/Repository/BaseRepository.php:129-187 | Without callable conditions, filtering keeps the query as a prefix and appends only predicates on common columns, in parameter order. |
| `Filtering.CallableConditionResult` | src/Repository/BaseRepository.php:145-148 | A callable condition's non-null result replaces the query. A null result keeps the builder as the callable left it. |
| `Filtering.ConditionGuards` | src/Repository/BaseRepository.php:150-184 | The guards for each condition string (details below the table). |
| `Filtering.BetweenReadsKeysZeroAndOne` | src/Repository/BaseRepository.php:163-167 | `between` reads keys 0 and 1, not the first two entries. A two-entry array with other keys gives null bounds. |
| `Listing.IncludesOps` | src/Repository/BaseRepository.php:220-243 | `applyIncludes` adds only relation, count and trashed operations. |
| `Listing.TrashedScopePrecedence` | src/Repository/BaseRepository.php:220-243 | `with`/`with_count` are added iff non-empty in the `empty()` sense. A trashed scope is added only for soft-deleting models, at most one, and `only_trashed` wins over `with_trashed`. |
| `Listing.Direction` | src/Repository/BaseRepository.php:192-193 | The direction is always `asc` or `desc`. |
| `Listing.DirectionAscIff` | src/Repository/BaseRepository.php:192-193 | The direction is `asc` iff `sort_direction` is a string that lower-cases to `asc`. |
| `Listing.SortableColumns` | src/Repository/BaseRepository.php:202-205 | The default allow-list is `[keyName, 'created_at']`. |
| `Listing.SortColumn` | src/Repository/BaseRepository.php:195-197 | The sort column is the key name or an allowed column. |
| `Listing.SortColumnAllowList` | src/Repository/BaseRepository.php:195-197 | The column is `sort_by` iff that is a string strictly in the allow-list, otherwise the primary key. |
| `Listing.Sort` | src/Repository/BaseRepository.php:190-200 | Exactly one `orderBy` is appended, ascending or descending, on an allowed column or the key. The rest of the query is unchanged. |
| `Listing.SortExamples` | src/Repository/BaseRepository.php:190-200 | An unknown column and direction degrade to the key, descending. `ASC` on `created_at` sorts ascending. |
| `Listing.Export` | src/Repository/BaseRepository.php:207-218 | Dispatch on `export`: `builder`, `collection`, `array`, and pagination otherwise (details below the table). |
| `Listing.ExportExamples` | src/Repository/BaseRepository.php:207-218 | Examples: `per_page=5` asks for pages of 5; `export=collection` ignores `per_page`; a negative `per_page` passes through; an unknown mode paginates by default. |
| `Listing.OneShot` | src/Repository/BaseRepository.php:90-92 | Without a tap the builder is kept. A tap's non-null result replaces it. A tap that returns null leaves the builder as the tap left it. |
| `Listing.ListSpec` | src/Repository/BaseRepository.php:84-97 | `list` fails iff `query()` fails, with the same error. Every later stage is total (apart from the PHP warnings listed under Left out). |
| `Listing.ListStagesInOrder` | src/Repository/BaseRepository.php:84-97 | Without callable conditions and a one-shot tap, the result is `listQuery(base)` + includes + the declarative filters in parameter order + one `orderBy`, plus a final `select` for `export=builder`. |
| `Listing.UpdateByIdSpec` | src/Repository/BaseRepository.php:276-285 | Never returns false. A failing `query()` passes its error on. A NotFound error carries `get_class` of the model and `[id]`. |
| `Listing.UpdateByIdOutcomes` | src/Repository/BaseRepository.php:276-285 | Once the query builds, the result is NotFound(the model's class, `[id]`) iff zero rows are affected, and true iff some are. |
| `Listing.DestroyByIdAsWritten` | src/Repository/BaseRepository.php:292-295 | As written, `destroyById` never returns normally. A failing `query()` passes its error on. |
| `Listing.DestroyByIdAsWrittenAlwaysThrows` | src/Repository/BaseRepository.php:292-295 | As written, every call whose query builds ends in a `bool` return-type error, where the corrected method answers whether a row was deleted. |
| `Listing.DestroyByIdSpec` | src/Repository/BaseRepository.php:292-295 | Corrected: succeeds iff `query()` does. It fails only with `query()`'s error, never NotFound. |
| `Listing.DestroyByIdNeverNotFound` | src/Repository/BaseRepository.php:292-295 | Corrected: a missing id gives false and a deleted row gives true. Never NotFound. |
| `PhpValues.IntCastInvertsToStr` | src/Repository/BaseRepository.php:214 | `(int)` of an integer's decimal text is that integer, so a numeric `per_page` string is read as its number. |
| `PhpValues.LowerToStrOfNonString` | src/Repository/BaseRepository.php:192 | Only a string `sort_direction` can lower-case to `asc`. |
| `Responser.CoerceMessage` | src/Responser.php:220 | A message reaching a parameter typed string, array or null is null, a string or an array. Integers and booleans arrive as their string form. |
| `Responser.FirstText` | src/Responser.php:225-234 | The search returns the first element that offers a text (a string, or an array with a string `text`), even an empty one. It returns None iff no element offers one. |
| `Responser.NormalizeMessage` | src/Responser.php:220-236 | A non-empty string is kept. An array gives its first text, else the default. Null or `''` gives the default. |
| `Responser.NormalizedMessageEmpty` | src/Responser.php:220-236 | The normalised message is empty only if the default is empty or the array's first text is empty. |
| `Responser.ErrorEntries` | src/Responser.php:241-245 | True iff every key is a string and every value a string or an array. |
| `Responser.ErrorsOrNull` | src/Responser.php:248-251 | Returns the input unchanged (non-empty) iff it looks like errors, otherwise null. |
| `Responser.LooksLikeErrors` | src/Responser.php:238-246 | Errors-shaped iff a non-empty array with string keys and string-or-array values. |
| `Responser.Respond` | src/Responser.php:193-218 | HTTP status is the given code, and `ok` iff 200 ≤ code < 400. `status` is a truthy hint, or `success`/`error` by `ok`. The message is normalised against the generic success or error text, chosen by `ok`. `data`, `errors`, `meta` and `code` pass through unchanged, with app code, hint and errors null by default. |
| `Responser.Json` | src/Responser.php:15-18 | `json()` normalises the message once, against the generic text. It sets no hint, code or errors; the status follows `ok`; meta is `(array)$meta`. |
| `Responser.Hinted` | src/Responser.php:20-51 | A named helper's message is normalised against the helper's own default and then against the generic text. Its hint becomes the status, and data, meta, code and errors pass through. |
| `Responser.HelperMessageCases` | src/Responser.php:20-51 | A named helper sends the caller's non-empty text. When the caller offers no text it sends its own default, or the generic text when that default is empty. An empty first text gives the generic text. |
| `Responser.SuccessResponse` | src/Responser.php:20-24 | `success()`: status `success`, the given code, data and `(array)` meta, no code, no errors. The message is the caller's text, else the success translation. |
| `Responser.InfoResponse` | src/Responser.php:26-30 | `info()`: status `info`, the given code, data and meta, no code, no errors. The message is the caller's text, else the info translation, else the generic one. |
| `Responser.CreatedResponse` | src/Responser.php:32-36 | `created()`: always 201 with `ok` and status `success`. The message is the caller's text, else the created translation, else the generic success text. |
| `Responser.DeletedResponse` | src/Responser.php:38-42 | `deleted()`: always 200 with `ok` and status `info`. The message is the caller's text, else the deleted translation, else the generic success text. |
| `Responser.ErrorResponse` | src/Responser.php:44-51 | `error()`: the given code (400 by default), status `error`, the given app code (null by default) and `(array)` meta. The message is the caller's text, else the error translation. |
| `Responser.ErrorSplitsDataAndErrors` | src/Responser.php:44-51 | Errors-shaped input goes to `errors` with `data = []`. Anything else goes to `data` with null `errors`. |
| `Responser.ErrorWithSuccessfulCode` | src/Responser.php:44-51 | `error()` given 200 sends `ok: true` beside status `error`. |
| `Responser.HttpStatus` | src/Responser.php:53-163 | Every fixed-code helper's HTTP code is a 4xx or 500. |
| `Responser.KindOfStatus` | src/Responser.php:53-163 | Maps an HTTP code back to the helper whose code it is. |
| `Responser.KindOfAppCode` | src/Responser.php:53-163 | Maps an application code back to the helper whose code it is. |
| `Responser.FixedCodesRoundTrip` | src/Responser.php:53-163 | Each helper is recovered from its HTTP code and from its application code. |
| `Responser.FixedCodesDistinct` | src/Responser.php:53-163 | Different helpers have different HTTP codes and different application codes. |
| `Responser.FixedErrorResponse` | src/Responser.php:53-163 | A fixed-code helper sends its own HTTP code and app code, `ok: false`, status `error`, `data = []`, `errorsOrNull` of its input and `(array)` meta. The message is the caller's text, else the helper's translation, else the generic error text. |
| `Responser.UnprocessableResponse` | src/Responser.php:85-91 | `unprocessable()`: 422, `VALIDATION_ERROR`, `ok: false`, status `error`, `data = []`. The message is the caller's text, else the unprocessable translation, else the generic error text. |
| `Responser.UnprocessableErrors` | src/Responser.php:85-91 | `errors` is never null (details below the table). |
| `Responser.SimpleMeta` | src/Responser.php:254-264 | An entry is kept iff it is in the input and its key is one of the six pagination keys. No key is added. |
| `Responser.SimpleMetaKeepsOrder` | src/Responser.php:254-264 | The kept entries keep their original order. |
| `Responser.SimpleMetaIdempotent` | src/Responser.php:254-264 | Filtering twice is filtering once. |
| `Responser.CollectionResponse` | src/Responser.php:165-189 | `collection()` always has status `info`, the given code, no app code and null errors. The message is the caller's text, else the info translation, else the generic text. |
| `Responser.CollectionMeta` | src/Responser.php:165-189 | A paginator, bare or wrapped in a resource collection, gives `simpleMeta(toArray())`; a Collection, a plain array or a non-paginated resource gives empty meta. The data is the paginator's items, the resource's items, the Collection's `toArray()` or the plain array itself. |
| `Responser.NamedHelpersSendAMessage` | src/Responser.php:205 | With non-empty translations, every named helper sends a non-empty message, because `respond` normalises a second time. |
| `Responser.JsonCanSendEmptyMessage` | src/Responser.php:15-18 | `json()` normalises only once, so the message `['']` reaches the body as `""`. |
| `Responser.DefaultArguments` | src/Responser.php:15-165 | With PHP's default arguments, `json`, `success`, `info` and `collection` answer 200 and `error` answers 400. Data and meta are empty, and each helper sends its own translation, or the generic one when that is empty. |
| `Responser.InfoEmptyTextFallsBackToGeneric` | src/Responser.php:26-30 | `info()` with the message `['']` loses its own default and sends the generic success text, or the error text for a failing code. |

Details behind the rows marked "below the table":

- **`Filtering.ConditionGuards`**:
  - `like` is a no-op exactly for null and `''`; otherwise it adds `where(field, 'like', "%v%")`.
  - `in` needs a non-empty array.
  - `between` needs exactly two entries.
  - `null` and `not_null` ignore the value.
  - A comparison with a null value becomes `whereNull`.
- **`Listing.Export`**:
  - `builder` appends `select(columns)` and returns the builder.
  - `collection` fetches the rows and `array` fetches them and converts them with `toArray`.
  - Anything else, or nothing, paginates with `(int)per_page` when given, else the model's default.
- **`Responser.UnprocessableErrors`**:
  - An array is sent as it is.
  - Anything else is sent as `['error' => (string)$errors]`.

## Left out

- Floats, objects and resources are not PHP values here.
  - Where `list` or the helpers would receive one, the model does not cover the call.
  - A collection's `toArray` and a resource collection's transformed items are opaque values.
- `PhpValues.StrToInt`: `(int)` of a string covers leading whitespace, a sign and the leading decimal digits.
  - Exponent and fractional forms (`"1e3"`) are not covered.
  - Saturation at the 64-bit limits is not covered.
- Query execution (`get`, `paginate`, `update`, `delete`) is not modelled.
  - `ExportResult` records what would be executed.
  - Affected-row counts are parameters.
- `find`, `findOrFail`, `findByField`, `findOrFailByField`, `store`, `update` and `destroy` are single delegations to Eloquent with no logic of their own, so they are not modelled.
- `__get('model')` is `instance()` and is not modelled separately.
- Each `$this->model` use re-instantiates the model. It is taken as deterministic and resolved once per call.
- A registered tap that returns null is modelled as the error `TapReturnedNull`. In PHP this is a `TypeError` whose exact point (the next tap, or `query()`'s return type) is not modelled.
- `is_callable` on a condition string is not modelled.
  - A condition is either a callable or a string.
  - A string that happens to name a global PHP function (e.g. `"trim"`) is treated as a condition string.
- Three PHP warnings are not modelled. A framework that turns warnings into exceptions (Laravel's default error handler does) would make each of them fatal, where the model carries on.
  - `like` with an array value: "Array to string conversion" at src/Repository/BaseRepository.php:153.
  - `between` with a two-entry array missing key 0 or 1: "Undefined array key" at src/Repository/BaseRepository.php:165.
  - An array `sort_direction`: "Array to string conversion" at src/Repository/BaseRepository.php:192.
- PHP arrays are not required to be well formed. A string key such as `"5"` that PHP would store as the integer 5, and a key repeated twice, are both representable in `Value`. Every function treats them as the entries they are, with lookups finding the first match.
- Parameter arrays with integer keys are not modelled. `array_intersect` compares keys by their string form, and the model's parameter keys are strings.
- Translations (`__()`) are a parameter. A translation key that resolves to an array is not modelled.
- `Response::json` is not modelled beyond its inputs.
  - Its rejection of status codes outside 100–599 is left out.
  - JSON encoding is left out.
- The `$statusHint` of `respond` only ever receives literals or null. The model keeps the `?:` truthiness test but takes the hint as an optional string.
- `src/HelperServiceProvider.php` is not part of this model (framework registration, translations, middleware aliasing). `src/Contracts/BaseRepositoryInterface.php` only declares signatures.
- Builders are values: the trace of operations.
  - Aliasing between a builder a callable mutates and one it returns is represented only through `TapResult`.
  - Two variables sharing one builder object are not modelled.

## Findings

| source | as written | input that shows it | evidently intended | confidence | as-written member | corrected member |
|---|---|---|---|---|---|---|
| src/Repository/BaseRepository.php:292-295 | `destroyById(): bool` returns `$this->query()->whereKey($id)->delete()`, which is an affected-row count (`int`). The file declares `strict_types=1`, so the `bool` return type rejects it. | any id on a repository whose query builds (e.g. a missing id, 0 rows deleted, or an existing one, 1 row) | return whether a row was deleted, never raising for a missing id | not executed | `Listing.DestroyByIdAsWrittenAlwaysThrows` | `Listing.DestroyByIdNeverNotFound` |
