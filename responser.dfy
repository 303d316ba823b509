/**
 * `Responser`: the static helpers that wrap a result or an error in the JSON
 * envelope `{ok, status, message, code, data, errors, meta}`. Translation
 * lookups are a `Translator` parameter; `Response::json` becomes the
 * `JsonResponse` value it would be handed.
 */
module Responser {
  import opened Wrappers
  import opened PhpValues

  /** `__($key)` for the package's translation keys. */
  type Translator = string -> string

  const KeySuccess := "responser::response.success"
  const KeyInfo := "responser::response.info"
  const KeyCreated := "responser::response.created"
  const KeyDeleted := "responser::response.deleted"
  const KeyError := "responser::response.error"
  const KeyUnprocessable := "responser::response.unprocessable"

  /** The response body; `code` and `errors` are JSON null when `None`. */
  datatype Envelope = Envelope(
    ok: bool,
    status: string,
    message: string,
    code: Option<string>,
    data: Value,
    errors: Option<Entries>,
    meta: Entries)

  /** What `Response::json($body, $statusCode)` is asked to send. */
  datatype JsonResponse = JsonResponse(httpStatus: int, body: Envelope)

  // ---------------------------------------------------------------- messages

  /**
   * A message handed to a `string|array|null` parameter: outside strict mode
   * PHP turns an integer or a boolean into its string form.
   */
  function CoerceMessage(v: Value): (m: Value)
    ensures m.Null? || m.Str? || m.Arr?
    ensures v.Int? || v.Bool? ==> m == Str(ToStr(v))
    ensures !(v.Int? || v.Bool?) ==> m == v
  {
    match v
    case Int(_) => Str(ToStr(v))
    case Bool(_) => Str(ToStr(v))
    case _ => v
  }

  /** The text one element of a message array offers: its string `text` entry, or the element itself when it is a string. */
  function CandidateText(m: Value): Option<string> {
    if m.Arr? && Lookup(m.entries, StrKey("text")).Some? && Lookup(m.entries, StrKey("text")).value.Str? then
      Some(Lookup(m.entries, StrKey("text")).value.s)
    else if m.Str? then Some(m.s)
    else None
  }

  /** The `foreach` of `normalizeMessage`: the first element that offers a text, even an empty one. */
  function FirstText(es: Entries): (r: Option<string>)
    ensures r.None? <==> forall i :: 0 <= i < |es| ==> CandidateText(es[i].1).None?
    ensures r.Some? ==> exists i :: 0 <= i < |es| && CandidateText(es[i].1) == r &&
                                    forall j :: 0 <= j < i ==> CandidateText(es[j].1).None?
  {
    if |es| == 0 then None
    else if CandidateText(es[0].1).Some? then CandidateText(es[0].1)
    else
      var r := FirstText(es[1..]);
      assert forall i :: 1 <= i < |es| ==> es[i] == es[1..][i - 1];
      r
  }

  /**
   * `normalizeMessage($message, $default)`: a non-empty string is kept, an
   * array gives the first text it offers, and anything else the default.
   */
  function NormalizeMessage(message: Value, default: string): (r: string)
    ensures var m := CoerceMessage(message);
            && (m.Str? && m.s != "" ==> r == m.s)
            && (m.Arr? ==> r == FirstText(m.entries).GetOr(default))
            && (m.Null? || m == Str("") ==> r == default)
  {
    var m := CoerceMessage(message);
    if m.Str? && m.s != "" then m.s
    else if m.Arr? && FirstText(m.entries).Some? then FirstText(m.entries).value
    else default
  }

  /** The result is empty only when the default is, or when the first text the array offers is empty. */
  lemma NormalizedMessageEmpty(message: Value, default: string)
    requires NormalizeMessage(message, default) == ""
    ensures default == "" || (CoerceMessage(message).Arr? && FirstText(CoerceMessage(message).entries) == Some(""))
  {
    var m := CoerceMessage(message);
    if m.Arr? && FirstText(m.entries).Some? {
      assert FirstText(m.entries) == Some("");
    }
  }

  // ------------------------------------------------------------------ errors

  /** Every key is a string and every value a string or an array. */
  function ErrorEntries(es: Entries): (r: bool)
    ensures r <==> forall i :: 0 <= i < |es| ==> es[i].0.StrKey? && (es[i].1.Str? || es[i].1.Arr?)
  {
    if |es| == 0 then true
    else if !es[0].0.StrKey? || !(es[0].1.Str? || es[0].1.Arr?) then false
    else
      var r := ErrorEntries(es[1..]);
      assert forall i :: 1 <= i < |es| ==> es[i] == es[1..][i - 1];
      r
  }

  /** `looksLikeErrorsArray($data)`: a non-empty array of field name to message(s). */
  function LooksLikeErrors(v: Value): (r: bool)
    ensures r <==> v.Arr? && |v.entries| > 0 &&
                   forall i :: 0 <= i < |v.entries| ==> v.entries[i].0.StrKey? && (v.entries[i].1.Str? || v.entries[i].1.Arr?)
  {
    v.Arr? && |v.entries| > 0 && ErrorEntries(v.entries)
  }

  /** `errorsOrNull($data)`. */
  function ErrorsOrNull(v: Value): (r: Option<Entries>)
    ensures r.Some? <==> LooksLikeErrors(v)
    ensures r.Some? ==> Arr(r.value) == v && |r.value| > 0
  {
    if LooksLikeErrors(v) then Some(v.entries) else None
  }

  // ---------------------------------------------------------------- envelope

  /** The text `respond` falls back on: the generic success or error translation, chosen by `ok`. */
  function Generic(ok: bool, tr: Translator): string {
    if ok then tr(KeySuccess) else tr(KeyError)
  }

  /** `respond(...)`: the one place that builds the envelope. */
  function Respond(data: Value, message: Value, statusCode: int, meta: Entries, appCode: Option<string> := None,
                   statusHint: Option<string> := None, errors: Option<Entries> := None, tr: Translator): (r: JsonResponse)
    ensures r.httpStatus == statusCode
    ensures r.body.message == NormalizeMessage(message, Generic(r.body.ok, tr))
    ensures r.body.ok <==> 200 <= statusCode < 400
    ensures statusHint.Some? && statusHint.value != "" && statusHint.value != "0" ==> r.body.status == statusHint.value
    ensures statusHint.None? ==> r.body.status == (if r.body.ok then "success" else "error")
    ensures r.body.data == data && r.body.errors == errors && r.body.meta == meta && r.body.code == appCode
  {
    var ok := 200 <= statusCode && statusCode < 400;
    var status := if statusHint.Some? && statusHint.value != "" && statusHint.value != "0" then statusHint.value
                  else if ok then "success" else "error";
    var msg := NormalizeMessage(message, Generic(ok, tr));
    JsonResponse(statusCode, Envelope(ok, status, msg, appCode, data, errors, meta))
  }

  /** `json($data, $message, $statusCode, $meta)`: no hint, no code, no errors; the message is normalised once, by `respond`. */
  function Json(data: Value := Arr([]), message: Value := Arr([]), statusCode: int := 200, meta: Value := Arr([]),
                tr: Translator): (r: JsonResponse)
    ensures r.body.message == NormalizeMessage(message, Generic(r.body.ok, tr))
    ensures r.httpStatus == statusCode && r.body.data == data && r.body.meta == ArrayCast(meta)
    ensures r.body.code.None? && r.body.errors.None?
    ensures r.body.status == (if 200 <= statusCode < 400 then "success" else "error")
  {
    Respond(data, message, statusCode, ArrayCast(meta), None, None, None, tr)
  }

  /**
   * The message a named helper sends: `normalizeMessage` against the helper's
   * own default, and, when that is empty, `respond`'s second normalisation
   * against the generic text.
   */
  function HelperMessage(message: Value, default: string, ok: bool, tr: Translator): string {
    var own := NormalizeMessage(message, default);
    if own != "" then own else Generic(ok, tr)
  }

  /** A message that offers no text: null, `''`, or an array none of whose elements is a string or has a string `text`. */
  predicate OffersNoText(message: Value) {
    var m := CoerceMessage(message);
    m.Null? || m == Str("") || (m.Arr? && FirstText(m.entries).None?)
  }

  /**
   * A named helper sends the caller's own non-empty text; when the caller offers
   * no text, the helper's default unless it is empty; and the generic text
   * when either of those is empty.
   */
  lemma HelperMessageCases(message: Value, default: string, ok: bool, tr: Translator)
    ensures var m := CoerceMessage(message);
            && (m.Str? && m.s != "" ==> HelperMessage(message, default, ok, tr) == m.s)
            && (m.Arr? && FirstText(m.entries).Some? && FirstText(m.entries).value != "" ==>
                  HelperMessage(message, default, ok, tr) == FirstText(m.entries).value)
            && (m.Arr? && FirstText(m.entries) == Some("") ==> HelperMessage(message, default, ok, tr) == Generic(ok, tr))
            && (OffersNoText(message) ==>
                  HelperMessage(message, default, ok, tr) == if default != "" then default else Generic(ok, tr))
  {
  }

  /** A helper that normalises the message against its own default, then hands `respond` a status hint. */
  function Hinted(data: Value, message: Value, default: string, statusCode: int, meta: Entries, appCode: Option<string>,
                  hint: string, errors: Option<Entries>, tr: Translator): (r: JsonResponse)
    ensures r.body.message == HelperMessage(message, default, 200 <= statusCode < 400, tr)
    ensures r.httpStatus == statusCode && r.body.ok == (200 <= statusCode < 400)
    ensures hint != "" && hint != "0" ==> r.body.status == hint
    ensures r.body.data == data && r.body.meta == meta && r.body.code == appCode && r.body.errors == errors
  {
    Respond(data, Str(NormalizeMessage(message, default)), statusCode, meta, appCode, Some(hint), errors, tr)
  }

  /** `success(...)`. */
  function SuccessResponse(data: Value := Arr([]), message: Value := Arr([]), statusCode: int := 200, meta: Value := Arr([]),
                           tr: Translator): (r: JsonResponse)
    ensures r.body.message == HelperMessage(message, tr(KeySuccess), r.body.ok, tr)
    ensures r.httpStatus == statusCode && r.body.status == "success" && r.body.data == data
    ensures r.body.meta == ArrayCast(meta) && r.body.code.None? && r.body.errors.None?
  {
    Hinted(data, message, tr(KeySuccess), statusCode, ArrayCast(meta), None, "success", None, tr)
  }

  /** `info(...)`. */
  function InfoResponse(data: Value := Arr([]), message: Value := Arr([]), statusCode: int := 200, meta: Value := Arr([]),
                        tr: Translator): (r: JsonResponse)
    ensures r.body.message == HelperMessage(message, tr(KeyInfo), r.body.ok, tr)
    ensures r.httpStatus == statusCode && r.body.status == "info" && r.body.data == data
    ensures r.body.meta == ArrayCast(meta) && r.body.code.None? && r.body.errors.None?
  {
    Hinted(data, message, tr(KeyInfo), statusCode, ArrayCast(meta), None, "info", None, tr)
  }

  /** `created(...)`: always 201. */
  function CreatedResponse(data: Value := Arr([]), message: Value := Arr([]), meta: Value := Arr([]), tr: Translator): (r: JsonResponse)
    ensures r.body.message == HelperMessage(message, tr(KeyCreated), true, tr)
    ensures r.httpStatus == 201 && r.body.ok && r.body.status == "success" && r.body.data == data
    ensures r.body.meta == ArrayCast(meta) && r.body.code.None? && r.body.errors.None?
  {
    Hinted(data, message, tr(KeyCreated), 201, ArrayCast(meta), None, "success", None, tr)
  }

  /** `deleted(...)`: always 200, with the `info` status. */
  function DeletedResponse(data: Value := Arr([]), message: Value := Arr([]), meta: Value := Arr([]), tr: Translator): (r: JsonResponse)
    ensures r.body.message == HelperMessage(message, tr(KeyDeleted), true, tr)
    ensures r.httpStatus == 200 && r.body.ok && r.body.status == "info" && r.body.data == data
    ensures r.body.meta == ArrayCast(meta) && r.body.code.None? && r.body.errors.None?
  {
    Hinted(data, message, tr(KeyDeleted), 200, ArrayCast(meta), None, "info", None, tr)
  }

  /** `error($dataOrErrors, $message, $statusCode = 400, $meta, $code)`. */
  function ErrorResponse(dataOrErrors: Value := Arr([]), message: Value := Arr([]), statusCode: int := 400,
                         meta: Value := Arr([]), code: Option<string> := None, tr: Translator): (r: JsonResponse)
    ensures r.body.message == HelperMessage(message, tr(KeyError), r.body.ok, tr)
    ensures r.httpStatus == statusCode && r.body.status == "error" && r.body.code == code
    ensures r.body.meta == ArrayCast(meta)
  {
    var errors := ErrorsOrNull(dataOrErrors);
    var data := if errors.Some? then Arr([]) else dataOrErrors;
    Hinted(data, message, tr(KeyError), statusCode, ArrayCast(meta), code, "error", errors, tr)
  }

  /** `error()` splits its input: errors-shaped input goes to `errors` with empty `data`, anything else to `data` with null `errors`. */
  lemma ErrorSplitsDataAndErrors(dataOrErrors: Value, message: Value, statusCode: int, meta: Value, code: Option<string>,
                                 tr: Translator)
    ensures var b := ErrorResponse(dataOrErrors, message, statusCode, meta, code, tr).body;
            && (b.errors.Some? <==> LooksLikeErrors(dataOrErrors))
            && (b.errors.Some? ==> b.data == Arr([]) && Arr(b.errors.value) == dataOrErrors)
            && (b.errors.None? ==> b.data == dataOrErrors)
  {
  }

  /** `error()` given a 2xx or 3xx code sends `ok: true` beside the `error` status: the hint is not checked against the code. */
  lemma ErrorWithSuccessfulCode(dataOrErrors: Value, message: Value, meta: Value, tr: Translator)
    ensures var b := ErrorResponse(dataOrErrors, message, 200, meta, None, tr).body;
            b.ok && b.status == "error"
  {
  }

  // ------------------------------------------------------- fixed-code errors

  /** The helpers with a fixed HTTP code and application code. */
  datatype FixedError =
    | ServerError
    | NotFound
    | Unauthorized
    | Forbidden
    | PaymentRequired
    | TooManyRequests
    | MethodNotAllowed
    | MethodNotAcceptable
    | ProxyAuthenticationRequired
    | RequestTimeout
    | Conflict
    | Gone
    | LengthRequired

  /** Each helper's HTTP code. */
  function HttpStatus(k: FixedError): (s: int)
    ensures 400 <= s <= 500
  {
    match k
    case ServerError => 500
    case NotFound => 404
    case Unauthorized => 401
    case Forbidden => 403
    case PaymentRequired => 402
    case TooManyRequests => 429
    case MethodNotAllowed => 405
    case MethodNotAcceptable => 406
    case ProxyAuthenticationRequired => 407
    case RequestTimeout => 408
    case Conflict => 409
    case Gone => 410
    case LengthRequired => 411
  }

  /** Each helper's application code. */
  function AppCode(k: FixedError): string {
    match k
    case ServerError => "SERVER_ERROR"
    case NotFound => "NOT_FOUND"
    case Unauthorized => "UNAUTHENTICATED"
    case Forbidden => "FORBIDDEN"
    case PaymentRequired => "PAYMENT_REQUIRED"
    case TooManyRequests => "TOO_MANY_REQUESTS"
    case MethodNotAllowed => "METHOD_NOT_ALLOWED"
    case MethodNotAcceptable => "NOT_ACCEPTABLE"
    case ProxyAuthenticationRequired => "PROXY_AUTH_REQUIRED"
    case RequestTimeout => "REQUEST_TIMEOUT"
    case Conflict => "CONFLICT"
    case Gone => "GONE"
    case LengthRequired => "LENGTH_REQUIRED"
  }

  /** Each helper's default-message translation key. */
  function TranslationKey(k: FixedError): string {
    "responser::response." +
    match k
    case ServerError => "serverError"
    case NotFound => "notFound"
    case Unauthorized => "unauthorized"
    case Forbidden => "forbidden"
    case PaymentRequired => "paymentRequired"
    case TooManyRequests => "tooManyRequests"
    case MethodNotAllowed => "methodNotAllowed"
    case MethodNotAcceptable => "notAcceptable"
    case ProxyAuthenticationRequired => "proxyAuthenticationRequired"
    case RequestTimeout => "requestTimeout"
    case Conflict => "conflict"
    case Gone => "gone"
    case LengthRequired => "lengthRequired"
  }

  /** The helper an HTTP code belongs to, if any: the inverse of HttpStatus. */
  function KindOfStatus(s: int): (k: Option<FixedError>)
    ensures k.Some? ==> HttpStatus(k.value) == s
  {
    if s == 500 then Some(ServerError)
    else if s == 404 then Some(NotFound)
    else if s == 401 then Some(Unauthorized)
    else if s == 403 then Some(Forbidden)
    else if s == 402 then Some(PaymentRequired)
    else if s == 429 then Some(TooManyRequests)
    else if s == 405 then Some(MethodNotAllowed)
    else if s == 406 then Some(MethodNotAcceptable)
    else if s == 407 then Some(ProxyAuthenticationRequired)
    else if s == 408 then Some(RequestTimeout)
    else if s == 409 then Some(Conflict)
    else if s == 410 then Some(Gone)
    else if s == 411 then Some(LengthRequired)
    else None
  }

  /** The helper an application code belongs to, if any: the inverse of AppCode. */
  function KindOfAppCode(c: string): (k: Option<FixedError>)
    ensures k.Some? ==> AppCode(k.value) == c
  {
    if c == "SERVER_ERROR" then Some(ServerError)
    else if c == "NOT_FOUND" then Some(NotFound)
    else if c == "UNAUTHENTICATED" then Some(Unauthorized)
    else if c == "FORBIDDEN" then Some(Forbidden)
    else if c == "PAYMENT_REQUIRED" then Some(PaymentRequired)
    else if c == "TOO_MANY_REQUESTS" then Some(TooManyRequests)
    else if c == "METHOD_NOT_ALLOWED" then Some(MethodNotAllowed)
    else if c == "NOT_ACCEPTABLE" then Some(MethodNotAcceptable)
    else if c == "PROXY_AUTH_REQUIRED" then Some(ProxyAuthenticationRequired)
    else if c == "REQUEST_TIMEOUT" then Some(RequestTimeout)
    else if c == "CONFLICT" then Some(Conflict)
    else if c == "GONE" then Some(Gone)
    else if c == "LENGTH_REQUIRED" then Some(LengthRequired)
    else None
  }

  /** Each helper is recovered from its HTTP code and from its application code. */
  lemma FixedCodesRoundTrip(k: FixedError)
    ensures KindOfStatus(HttpStatus(k)) == Some(k)
    ensures KindOfAppCode(AppCode(k)) == Some(k)
  {
    match k
    case ServerError =>
    case NotFound =>
    case Unauthorized =>
    case Forbidden =>
    case PaymentRequired =>
    case TooManyRequests =>
    case MethodNotAllowed =>
    case MethodNotAcceptable =>
    case ProxyAuthenticationRequired =>
    case RequestTimeout =>
    case Conflict =>
    case Gone =>
    case LengthRequired =>
  }

  /** No two fixed-code helpers share an HTTP code, nor an application code. */
  lemma FixedCodesDistinct(k1: FixedError, k2: FixedError)
    requires k1 != k2
    ensures HttpStatus(k1) != HttpStatus(k2)
    ensures AppCode(k1) != AppCode(k2)
  {
    FixedCodesRoundTrip(k1);
    FixedCodesRoundTrip(k2);
  }

  /** `serverError`, `notFound`, … `lengthRequired`: empty data, the `error` status, the helper's own codes. */
  function FixedErrorResponse(k: FixedError, dataOrErrors: Value := Arr([]), message: Value := Arr([]), meta: Value := Arr([]),
                              tr: Translator): (r: JsonResponse)
    ensures r.body.message == HelperMessage(message, tr(TranslationKey(k)), false, tr)
    ensures r.httpStatus == HttpStatus(k) && !r.body.ok && r.body.status == "error"
    ensures r.body.code == Some(AppCode(k)) && r.body.data == Arr([])
    ensures r.body.errors == ErrorsOrNull(dataOrErrors) && r.body.meta == ArrayCast(meta)
  {
    Hinted(Arr([]), message, tr(TranslationKey(k)), HttpStatus(k), ArrayCast(meta), Some(AppCode(k)), "error",
           ErrorsOrNull(dataOrErrors), tr)
  }

  /** `unprocessable($errors, $message, $meta)`: 422 and `VALIDATION_ERROR`. */
  function UnprocessableResponse(errors: Value := Arr([]), message: Value := Arr([]), meta: Value := Arr([]),
                                 tr: Translator): (r: JsonResponse)
    ensures r.body.message == HelperMessage(message, tr(KeyUnprocessable), false, tr)
    ensures r.httpStatus == 422 && !r.body.ok && r.body.status == "error"
    ensures r.body.code == Some("VALIDATION_ERROR") && r.body.data == Arr([]) && r.body.meta == ArrayCast(meta)
  {
    var errs := match ErrorsOrNull(errors)
      case Some(e) => e
      case None => if errors.Arr? then errors.entries else [(StrKey("error"), Str(ToStr(errors)))];
    Hinted(Arr([]), message, tr(KeyUnprocessable), 422, ArrayCast(meta), Some("VALIDATION_ERROR"), "error", Some(errs), tr)
  }

  /** `unprocessable` never sends null errors: an array is sent as it is, anything else as `['error' => (string)$errors]`. */
  lemma UnprocessableErrors(errors: Value, message: Value, meta: Value, tr: Translator)
    ensures var e := UnprocessableResponse(errors, message, meta, tr).body.errors;
            && e.Some?
            && (errors.Arr? ==> e.value == errors.entries)
            && (!errors.Arr? ==> e.value == [(StrKey("error"), Str(ToStr(errors)))])
  {
  }

  // -------------------------------------------------------------- pagination

  /** The pagination keys `simpleMeta` keeps. */
  const PageMetaKeys: seq<string> := ["current_page", "last_page", "per_page", "from", "to", "total"]

  predicate IsPageMetaKey(k: Key) {
    k.StrKey? && k.s in PageMetaKeys
  }

  /** `simpleMeta($meta)`, i.e. `Arr::only` with the six pagination keys. */
  function SimpleMeta(meta: Entries): (r: Entries)
    ensures forall e :: e in r <==> e in meta && IsPageMetaKey(e.0)
  {
    if |meta| == 0 then []
    else
      var rest := SimpleMeta(meta[1..]);
      assert forall e :: e in meta <==> e == meta[0] || e in meta[1..];
      if IsPageMetaKey(meta[0].0) then [meta[0]] + rest else rest
  }

  /** `simpleMeta` keeps its entries in their original order. */
  lemma {:induction false} SimpleMetaKeepsOrder(meta: Entries)
    ensures IsSubsequence(SimpleMeta(meta), meta)
  {
    if |meta| > 0 {
      SimpleMetaKeepsOrder(meta[1..]);
      var r := SimpleMeta(meta);
      if IsPageMetaKey(meta[0].0) {
        assert r[0] == meta[0] && r[1..] == SimpleMeta(meta[1..]);
      } else {
        assert r == SimpleMeta(meta[1..]);
        SubsequenceOfTail(r, meta);
      }
    }
  }

  lemma SubsequenceOfTail<T>(xs: seq<T>, ys: seq<T>)
    requires |ys| > 0 && IsSubsequence(xs, ys[1..])
    ensures IsSubsequence(xs, ys)
  {
  }

  /** Applying `simpleMeta` twice is applying it once. */
  lemma {:induction false} SimpleMetaIdempotent(meta: Entries)
    ensures SimpleMeta(SimpleMeta(meta)) == SimpleMeta(meta)
  {
    if |meta| > 0 {
      SimpleMetaIdempotent(meta[1..]);
      var r := SimpleMeta(meta);
      if IsPageMetaKey(meta[0].0) {
        assert r[0] == meta[0] && r[1..] == SimpleMeta(meta[1..]);
      }
    }
  }

  /** A paginator: what its `toArray()` gives and what its `items()` gives. */
  datatype Paginator = Paginator(asArray: Entries, items: Value)

  /** The argument of `collection()`; a resource collection's transformed items are opaque. */
  datatype CollectionData =
    | Paginated(paginator: Paginator)
    | Items(asArray: Value)
    | Resources(resource: Option<Paginator>, collection: Value)
    | Plain(entries: Entries)

  /** `collection($data, $message, $statusCode)`. */
  function CollectionResponse(data: CollectionData, message: Value := Arr([]), statusCode: int := 200,
                              tr: Translator): (r: JsonResponse)
    ensures r.body.message == HelperMessage(message, tr(KeyInfo), r.body.ok, tr)
    ensures r.httpStatus == statusCode && r.body.status == "info"
    ensures r.body.code.None? && r.body.errors.None?
  {
    var meta := match data
      case Paginated(p) => SimpleMeta(p.asArray)
      case Resources(Some(p), _) => SimpleMeta(p.asArray)
      case _ => [];
    var items := match data
      case Paginated(p) => p.items
      case Items(a) => a
      case Resources(_, c) => c
      case Plain(es) => Arr(es);
    Hinted(items, message, tr(KeyInfo), statusCode, meta, None, "info", None, tr)
  }

  /** A paginator, bare or inside a resource collection, gives the six-key meta of its `toArray()`; anything else gives empty meta. */
  lemma CollectionMeta(data: CollectionData, message: Value, statusCode: int, tr: Translator)
    ensures var b := CollectionResponse(data, message, statusCode, tr).body;
            && (data.Paginated? ==> b.meta == SimpleMeta(data.paginator.asArray) && b.data == data.paginator.items)
            && (data.Resources? && data.resource.Some? ==> b.meta == SimpleMeta(data.resource.value.asArray))
            && (data.Resources? ==> b.data == data.collection)
            && (data.Items? ==> b.data == data.asArray)
            && (data.Plain? ==> b.data == Arr(data.entries))
            && (data.Items? || data.Plain? || (data.Resources? && data.resource.None?) ==> b.meta == [])
            && (forall e :: e in b.meta ==> IsPageMetaKey(e.0))
  {
  }

  // ----------------------------------------------------- message end to end

  /** The translations the envelope falls back on are all non-empty. */
  predicate NonEmptyTranslations(tr: Translator) {
    tr(KeySuccess) != "" && tr(KeyInfo) != "" && tr(KeyCreated) != "" && tr(KeyDeleted) != "" &&
    tr(KeyError) != "" && tr(KeyUnprocessable) != "" &&
    forall k: FixedError :: tr(TranslationKey(k)) != ""
  }

  /** With non-empty translations, every named helper sends a non-empty message: the second normalisation in `respond` catches an empty one. */
  lemma NamedHelpersSendAMessage(data: Value, message: Value, statusCode: int, meta: Value, k: FixedError,
                                 items: CollectionData, tr: Translator)
    requires NonEmptyTranslations(tr)
    ensures SuccessResponse(data, message, statusCode, meta, tr).body.message != ""
    ensures InfoResponse(data, message, statusCode, meta, tr).body.message != ""
    ensures CreatedResponse(data, message, meta, tr).body.message != ""
    ensures DeletedResponse(data, message, meta, tr).body.message != ""
    ensures ErrorResponse(data, message, statusCode, meta, None, tr).body.message != ""
    ensures FixedErrorResponse(k, data, message, meta, tr).body.message != ""
    ensures UnprocessableResponse(data, message, meta, tr).body.message != ""
    ensures CollectionResponse(items, message, statusCode, tr).body.message != ""
  {
  }

  /** `json()` alone normalises only once, so a message array whose first text is empty reaches the body empty. */
  lemma JsonCanSendEmptyMessage(tr: Translator)
    ensures Json(Arr([]), Arr([(IntKey(0), Str(""))]), 200, Arr([]), tr).body.message == ""
  {
    assert FirstText([(IntKey(0), Str(""))]) == Some("");
  }

  /**
   * A helper's own default is lost when the message array's first text is empty:
   * `info()` then sends the generic success text (or the error text for a failing code), not the info text.
   */
  lemma InfoEmptyTextFallsBackToGeneric(data: Value, statusCode: int, meta: Value, tr: Translator)
    ensures InfoResponse(data, Arr([(IntKey(0), Str(""))]), statusCode, meta, tr).body.message ==
            if 200 <= statusCode < 400 then tr(KeySuccess) else tr(KeyError)
  {
    assert FirstText([(IntKey(0), Str(""))]) == Some("");
  }

  /**
   * The PHP default arguments: `json()`, `success()`, `info()` and `collection()`
   * answer 200, `error()` 400, with empty data and meta; with the default
   * message `[]` each helper sends its own translation, or the generic one when
   * that is empty.
   */
  lemma DefaultArguments(k: FixedError, tr: Translator)
    ensures var r := Json(tr := tr);
            r.httpStatus == 200 && r.body.ok && r.body.message == tr(KeySuccess) && r.body.data == Arr([]) && r.body.meta == []
    ensures var r := SuccessResponse(tr := tr);
            r.httpStatus == 200 && r.body.message == tr(KeySuccess) && r.body.data == Arr([]) && r.body.meta == []
    ensures var r := InfoResponse(tr := tr);
            r.httpStatus == 200 && r.body.message == (if tr(KeyInfo) != "" then tr(KeyInfo) else tr(KeySuccess))
    ensures var r := ErrorResponse(tr := tr);
            && r.httpStatus == 400 && !r.body.ok && r.body.message == tr(KeyError)
            && r.body.data == Arr([]) && r.body.errors.None? && r.body.code.None? && r.body.meta == []
    ensures var r := FixedErrorResponse(k, tr := tr);
            r.body.message == (if tr(TranslationKey(k)) != "" then tr(TranslationKey(k)) else tr(KeyError)) && r.body.errors.None?
    ensures var r := UnprocessableResponse(tr := tr);
            r.body.errors == Some([]) && r.body.message == (if tr(KeyUnprocessable) != "" then tr(KeyUnprocessable) else tr(KeyError))
    ensures var r := CollectionResponse(Plain([]), tr := tr);
            r.httpStatus == 200 && r.body.message == (if tr(KeyInfo) != "" then tr(KeyInfo) else tr(KeySuccess))
  {
    assert OffersNoText(Arr([]));
    HelperMessageCases(Arr([]), tr(KeySuccess), true, tr);
    HelperMessageCases(Arr([]), tr(KeyInfo), true, tr);
    HelperMessageCases(Arr([]), tr(KeyError), false, tr);
    HelperMessageCases(Arr([]), tr(TranslationKey(k)), false, tr);
    HelperMessageCases(Arr([]), tr(KeyUnprocessable), false, tr);
  }
}
