/**
 * Error responses that hide details outside development, and the mapping of
 * raw error messages onto a fixed set of user-facing messages.
 *
 * The response body is kept as its fields rather than its JSON text.
 */
module ErrorHandler {
  import opened Wrappers
  import opened JsText
  import opened RuntimeEnv

  /** The `error` argument: nothing, a message string, or an error object. */
  datatype ErrorArg =
    | NoError
    | Message(text: string)
    | ErrorObject(message: Option<string>, code: Option<string>, stack: Option<string>)

  /** The `details` field: a text, or the error object itself when it has no message. */
  datatype Details = DetailText(text: string) | DetailObject(error: ErrorArg)

  datatype Body = Body(error: string, details: Option<Details>, errorCode: Option<string>, stack: Option<seq<string>>)

  datatype Response = Response(status: int, headers: map<string, string>, body: Body)

  const DefaultUserMessage: string := "エラーが発生しました"
  const DefaultDatabaseMessage: string := "データベースエラーが発生しました"
  const DefaultAuthMessage: string := "認証エラー"
  const DefaultValidationMessage: string := "入力内容に誤りがあります"

  const BaseHeaders: map<string, string> := map[
    "Content-Type" := "application/json",
    "X-Content-Type-Options" := "nosniff"]

  /** `error?.message || error || 'Unknown error'`. */
  function DetailsOf(e: ErrorArg): (d: Details)
    ensures e.NoError? ==> d == DetailText("Unknown error")
    ensures e.Message? ==> d == DetailText(if e.text != "" then e.text else "Unknown error")
    ensures e.ErrorObject? ==> d == (if Truthy(e.message) then DetailText(e.message.value) else DetailObject(e))
  {
    match e
    case NoError => DetailText("Unknown error")
    case Message(t) => if t != "" then DetailText(t) else DetailText("Unknown error")
    case ErrorObject(m, _, _) => if Truthy(m) then DetailText(m.value) else DetailObject(e)
  }

  /** `stack.split('\n').slice(0, 5)`: the first five lines of the stack. */
  function StackHead(stack: string): (r: seq<string>)
    ensures 1 <= |r| <= 5 && |r| <= |Split(stack, '\n')|
    ensures r == Split(stack, '\n')[..|r|]
    ensures |Split(stack, '\n')| >= 5 ==> |r| == 5
  {
    var lines := Split(stack, '\n');
    if |lines| <= 5 then lines else lines[..5]
  }

  /**
   * `createErrorResponse`: the user message under `error` with the given
   * status (500 by default) and the base headers overlaid by the caller's;
   * details, error code and stack are added only in development.
   */
  function CreateErrorResponse(env: Env, e: ErrorArg, userMessage: Option<string>, status: Option<int>,
                               headers: map<string, string>): (r: Response)
    ensures r.status == status.GetOr(500)
    ensures r.body.error == userMessage.GetOr(DefaultUserMessage)
    ensures r.headers == BaseHeaders + headers
    ensures !IsDevelopment(env) ==> r.body.details.None? && r.body.errorCode.None? && r.body.stack.None?
    ensures IsDevelopment(env) ==> r.body.details == Some(DetailsOf(e))
    ensures r.body.errorCode.Some? ==> e.ErrorObject? && Truthy(e.code) && r.body.errorCode == e.code
    ensures r.body.stack.Some? ==> e.ErrorObject? && Truthy(e.stack) && |r.body.stack.value| <= 5
    ensures IsDevelopment(env) && e.ErrorObject? && Truthy(e.code) ==> r.body.errorCode == e.code
    ensures IsDevelopment(env) && e.ErrorObject? && Truthy(e.stack) ==> r.body.stack == Some(StackHead(e.stack.value))
  {
    var msg := userMessage.GetOr(DefaultUserMessage);
    var dev := IsDevelopment(env);
    var code := if dev && e.ErrorObject? && Truthy(e.code) then e.code else None;
    var stack := if dev && e.ErrorObject? && Truthy(e.stack) then Some(StackHead(e.stack.value)) else None;
    Response(status.GetOr(500), BaseHeaders + headers,
             Body(msg, if dev then Some(DetailsOf(e)) else None, code, stack))
  }

  /** In production nothing about the error reaches the client: any two errors give the same response. */
  lemma ProductionHidesErrors(env: Env, e1: ErrorArg, e2: ErrorArg, m: Option<string>, s: Option<int>,
                              h: map<string, string>)
    requires !IsDevelopment(env)
    ensures CreateErrorResponse(env, e1, m, s, h) == CreateErrorResponse(env, e2, m, s, h)
  {
  }

  /** A caller's header overrides the default of the same name. */
  lemma CallerHeadersWin(env: Env, e: ErrorArg, h: map<string, string>)
    requires "Content-Type" in h
    ensures CreateErrorResponse(env, e, None, None, h).headers["Content-Type"] == h["Content-Type"]
  {
  }

  /** `createDatabaseErrorResponse`: always 500, with its own default message. */
  function CreateDatabaseErrorResponse(env: Env, e: ErrorArg, userMessage: Option<string>): (r: Response)
    ensures r.status == 500
    ensures r.body.error == userMessage.GetOr(DefaultDatabaseMessage)
    ensures !IsDevelopment(env) ==> r.body.details.None?
  {
    CreateErrorResponse(env, e, Some(userMessage.GetOr(DefaultDatabaseMessage)), Some(500), map[])
  }

  /** `createAuthErrorResponse`: no error, status 401 by default. */
  function CreateAuthErrorResponse(env: Env, userMessage: Option<string>, status: Option<int>): (r: Response)
    ensures r.status == status.GetOr(401)
    ensures r.body.error == userMessage.GetOr(DefaultAuthMessage)
    ensures r.body.errorCode.None? && r.body.stack.None?
    ensures IsDevelopment(env) ==> r.body.details == Some(DetailText("Unknown error"))
  {
    CreateErrorResponse(env, NoError, Some(userMessage.GetOr(DefaultAuthMessage)), Some(status.GetOr(401)), map[])
  }

  /**
   * The database helper is the general builder at status 500 with its own
   * default message: it shows the error's details in development and hides
   * the error entirely in production.
   */
  lemma DatabaseErrorIsGeneralError(env: Env, e: ErrorArg, other: ErrorArg, m: Option<string>)
    ensures CreateDatabaseErrorResponse(env, e, m)
         == CreateErrorResponse(env, e, Some(m.GetOr(DefaultDatabaseMessage)), Some(500), map[])
    ensures IsDevelopment(env) ==> CreateDatabaseErrorResponse(env, e, m).body.details == Some(DetailsOf(e))
    ensures !IsDevelopment(env) ==> CreateDatabaseErrorResponse(env, e, m) == CreateDatabaseErrorResponse(env, other, m)
  {
    if !IsDevelopment(env) {
      ProductionHidesErrors(env, e, other, Some(m.GetOr(DefaultDatabaseMessage)), Some(500), map[]);
    }
  }

  /**
   * The authentication helper is the general builder with no error and
   * status 401 by default; in production it cannot be told apart from the
   * general builder given any error at all.
   */
  lemma AuthErrorIsGeneralError(env: Env, e: ErrorArg, m: Option<string>, s: Option<int>)
    ensures CreateAuthErrorResponse(env, m, s)
         == CreateErrorResponse(env, NoError, Some(m.GetOr(DefaultAuthMessage)), Some(s.GetOr(401)), map[])
    ensures !IsDevelopment(env) ==>
      CreateAuthErrorResponse(env, m, s)
        == CreateErrorResponse(env, e, Some(m.GetOr(DefaultAuthMessage)), Some(s.GetOr(401)), map[])
  {
    if !IsDevelopment(env) {
      ProductionHidesErrors(env, NoError, e, Some(m.GetOr(DefaultAuthMessage)), Some(s.GetOr(401)), map[]);
    }
  }

  /** The `errors` argument: a list, or a single value. */
  datatype Errors = ErrorList(items: seq<string>) | SingleError(item: string)

  datatype ValidationResponse = ValidationResponse(status: int, error: string, validationErrors: Option<seq<string>>)

  /**
   * `createValidationErrorResponse`: always 400; the errors are listed when
   * in development or when they came as a list, a single one wrapped alone.
   */
  function CreateValidationErrorResponse(env: Env, errors: Errors, userMessage: Option<string>): (r: ValidationResponse)
    ensures r.status == 400
    ensures r.error == userMessage.GetOr(DefaultValidationMessage)
    ensures r.validationErrors.Some? <==> IsDevelopment(env) || errors.ErrorList?
    ensures r.validationErrors.Some? && errors.ErrorList? ==> r.validationErrors.value == errors.items
    ensures r.validationErrors.Some? && errors.SingleError? ==> r.validationErrors.value == [errors.item]
  {
    var list := match errors case ErrorList(items) => items case SingleError(item) => [item];
    ValidationResponse(400, userMessage.GetOr(DefaultValidationMessage),
                       if IsDevelopment(env) || errors.ErrorList? then Some(list) else None)
  }

  /**
   * In production the shape of the errors decides the listing: a list is
   * shown as given and a single error is hidden, so single errors cannot be
   * told apart; in development every error is listed.
   */
  lemma ValidationListingByShape(env: Env, errors: Errors, a: string, b: string, m: Option<string>)
    ensures !IsDevelopment(env) ==>
      CreateValidationErrorResponse(env, errors, m).validationErrors
        == (if errors.ErrorList? then Some(errors.items) else None)
    ensures !IsDevelopment(env) ==>
      CreateValidationErrorResponse(env, SingleError(a), m) == CreateValidationErrorResponse(env, SingleError(b), m)
    ensures IsDevelopment(env) ==>
      CreateValidationErrorResponse(env, errors, m).validationErrors
        == Some(if errors.ErrorList? then errors.items else [errors.item])
  {
  }

  // ---------------------------------------------------------------------------
  // sanitizeErrorMessage
  // ---------------------------------------------------------------------------

  const CredentialsMessage: string := "メールアドレスまたはパスワードが間違っています"
  const DefaultSanitized: string := "エラーが発生しました。しばらくしてから再度お試しください"

  /** ERROR_MESSAGES, in its insertion order (the "default" entry last). */
  const ErrorMessages: seq<(string, string)> := [
    ("Invalid credentials", CredentialsMessage),
    ("User not found", CredentialsMessage),
    ("Invalid token", "セッションが無効です。再度ログインしてください"),
    ("Token expired", "セッションが期限切れです。再度ログインしてください"),
    ("Duplicate entry", "既に登録されています"),
    ("Foreign key constraint", "データの整合性エラーが発生しました"),
    ("Connection timeout", "データベース接続がタイムアウトしました"),
    ("Network error", "ネットワークエラーが発生しました"),
    ("Server error", "サーバーエラーが発生しました"),
    ("default", DefaultSanitized)]

  predicate KeyMatches(message: string, k: int)
    requires 0 <= k < |ErrorMessages|
  {
    Contains(Lower(message), Lower(ErrorMessages[k].0))
  }

  /** Entry `k` is the first whose key occurs in the message, ignoring case. */
  predicate FirstMatchAt(message: string, k: int) {
    && 0 <= k < |ErrorMessages|
    && KeyMatches(message, k)
    && forall j :: 0 <= j < k ==> !KeyMatches(message, j)
  }

  function FirstMatchFrom(message: string, k: nat): (r: Option<nat>)
    requires k <= |ErrorMessages|
    ensures r.Some? ==> (
      && k <= r.value < |ErrorMessages| && KeyMatches(message, r.value)
      && forall j :: k <= j < r.value ==> !KeyMatches(message, j))
    ensures r.None? ==> forall j :: k <= j < |ErrorMessages| ==> !KeyMatches(message, j)
    decreases |ErrorMessages| - k
  {
    if k == |ErrorMessages| then None
    else if KeyMatches(message, k) then Some(k)
    else FirstMatchFrom(message, k + 1)
  }

  /**
   * `sanitizeErrorMessage`: the default for a falsy message; otherwise the
   * value of the first table key found in the message ignoring case, or the
   * default when none is.
   */
  function SanitizeErrorMessage(message: Option<string>): (r: string)
    ensures exists k :: 0 <= k < |ErrorMessages| && r == ErrorMessages[k].1
    ensures !Truthy(message) ==> r == DefaultSanitized
    ensures Truthy(message) ==> forall k :: FirstMatchAt(message.value, k) ==> r == ErrorMessages[k].1
    ensures Truthy(message) && (forall k :: 0 <= k < |ErrorMessages| ==> !KeyMatches(message.value, k)) ==>
      r == DefaultSanitized
  {
    assert ErrorMessages[9].1 == DefaultSanitized;
    if !Truthy(message) then DefaultSanitized
    else match FirstMatchFrom(message.value, 0)
      case None => DefaultSanitized
      case Some(k) =>
        assert forall j :: FirstMatchAt(message.value, j) ==> j == k;
        ErrorMessages[k].1
  }

  /** Whether the account or the password was wrong, the client sees the same message. */
  lemma SanitizeHidesAccountExistence(m: string)
    requires m != "" && Contains(Lower(m), "user not found")
    requires !Contains(Lower(m), "invalid credentials")
    ensures SanitizeErrorMessage(Some(m)) == CredentialsMessage
  {
    assert Lower(ErrorMessages[0].0) == "invalid credentials";
    assert Lower(ErrorMessages[1].0) == "user not found";
    assert FirstMatchAt(m, 1);
  }
}
