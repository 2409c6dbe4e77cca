/**
 * The submit logic of the authentication page, one function per request
 * handler. Each gives the calls the handler makes, in order, once the POST
 * has produced its outcome; `Effects.Run` turns them into the resulting
 * state. The class in module Component performs the same calls step by step.
 */
module Handlers {
  import opened JsValues
  import opened Forms
  import opened Redirects
  import opened Effects

  const SomethingWentWrong := "Something went wrong"
  const NotificationError := "notification.error"
  const UserNotActive := "usernotactive"
  const SuperAdminCode := "strapi-super-admin"
  const GuidedTourSkipped := "GUIDED_TOUR_SKIPPED"
  const OopsPath := "/auth/oops"
  const ForgotPasswordSuccessPath := "/auth/forgot-password-success"
  const UsecasePath := "/usecase"
  const WillCreateFirstAdmin := "willCreateFirstAdmin"
  const DidNotCreateFirstAdmin := "didNotCreateFirstAdmin"
  const DidLaunchGuidedtour := "didLaunchGuidedtour"

  /** Library code the page calls but whose source is not part of this model:
      lodash `camelCase`, `String.prototype.toLowerCase`, `decodeURIComponent`
      (none for the `URIError` it throws) and `formatAPIErrors`. */
  datatype Env = Env(
    camelCase: Value -> string,
    toLowerCase: string -> string,
    decodeURIComponent: string -> Option<string>,
    formatAPIErrors: Value -> Value)

  /** What a handler reads from the rendered page: the route's `authType`, the
      `hasAdmin` prop as captured when the page rendered, the parsed query,
      the form table and the library code. */
  datatype Props = Props(
    authType: string,
    hasAdmin: bool,
    query: map<string, string>,
    forms: FormTable,
    env: Env)

  /** How the POST ended: the `data.data` of a success, or a thrown error with
      `response.data` when the error carries a response. */
  datatype Outcome = Ok(token: Value, user: User) | Err(response: Option<Value>)

  function BoolText(b: bool): string
  {
    if b then "true" else "false"
  }

  /** `roles.find(({ code }) => code === wanted)`: the first role with that code. */
  function FindRole(roles: seq<Role>, wanted: string): (r: Option<Role>)
    ensures r.None? <==> forall i :: 0 <= i < |roles| ==> roles[i].code != wanted
    ensures r.Some? ==> exists i :: 0 <= i < |roles| && roles[i] == r.value && r.value.code == wanted &&
                          forall j :: 0 <= j < i ==> roles[j].code != wanted
    decreases |roles|
  {
    if roles == [] then None
    else if roles[0].code == wanted then Some(roles[0])
    else
      var r := FindRole(roles[1..], wanted);
      assert forall i :: 1 <= i < |roles| ==> roles[i] == roles[1..][i - 1];
      r
  }

  /** The test `roles && roles.find(...)`: an undefined `roles` skips the search,
      and a found role is an object, hence truthy. */
  predicate IsSuperAdmin(user: User)
  {
    user.roles.Some? && FindRole(user.roles.value, SuperAdminCode).Some?
  }

  /** `camelCase(errorMessage).toLowerCase() === 'usernotactive'`. */
  predicate IsUserNotActive(env: Env, message: Value)
  {
    env.toLowerCase(env.camelCase(message)) == UserNotActive
  }

  /** The message a failed sign-in shows. */
  function LoginErrorMessage(data: Value): (message: Value)
    // The server's `error.message` when the body has one, the fallback otherwise.
    ensures message ==
              if data.Obj? && "error" in data.props && data.props["error"].Obj? &&
                 "message" in data.props["error"].props &&
                 data.props["error"].props["message"] != Undefined
              then data.props["error"].props["message"]
              else Str(SomethingWentWrong)
    ensures message != Undefined
  {
    Get(data, ["error", "message"], Str(SomethingWentWrong))
  }

  /** `(authType === 'register' && body.userInfo.news === true) ||
      (authType === 'register-admin' && body.news === true)`; reading `news`
      of an undefined or null `userInfo` throws. */
  function NewsOptIn(authType: string, body: Fields): (r: Completion<bool>)
    ensures r.TypeError? <==> authType == Register && (Prop(body, "userInfo").Undefined? || Prop(body, "userInfo").Null?)
    ensures r == Normal(true) <==>
              (authType == Register && Prop(body, "userInfo").Obj? && Member(Prop(body, "userInfo"), "news") == Normal(Bool(true))) ||
              (authType == RegisterAdmin && Prop(body, "news") == Bool(true))
  {
    if authType == Register then
      match Member(Prop(body, "userInfo"), "news")
      case TypeError => TypeError
      case Normal(news) => Normal(news == Bool(true))
    else
      Normal(authType == RegisterAdmin && Prop(body, "news") == Bool(true))
  }

  /** `redirectToPreviousLocation()`: one push, or, when `decodeURIComponent`
      throws, the calling handler's `catch` for an error without a response. */
  function RedirectEffects(p: Props, onThrow: seq<Effect>): (r: seq<Effect>)
    ensures var target := PostSuccessTarget(p.env.decodeURIComponent, p.authType, p.query);
            if target.Some? then r == [Push(Path(target.value))] else r == onThrow
  {
    match PostSuccessTarget(p.env.decodeURIComponent, p.authType, p.query)
    case Some(target) => [Push(Path(target))]
    case None => onThrow
  }

  /** The `catch` of `loginRequest`. */
  function LoginCatch(env: Env, response: Option<Value>): (r: seq<Effect>)
    // Without a response the error is swallowed.
    ensures response.None? ==> r == []
    // A disabled account leaves for the oops page and resets the page's state;
    // any other answer shows its message on the form.
    ensures response.Some? ==>
              var message := LoginErrorMessage(response.value);
              var inactive := env.toLowerCase(env.camelCase(message)) == "usernotactive";
              (inactive ==> r == [Push(Path(OopsPath)), Dispatch(ResetProps)]) &&
              (!inactive ==> r == [SetErrors(ErrorMessage(message))])
  {
    match response
    case None => []
    case Some(data) =>
      var message := LoginErrorMessage(data);
      if IsUserNotActive(env, message) then [Push(Path(OopsPath)), Dispatch(ResetProps)]
      else [SetErrors(ErrorMessage(message))]
  }

  /** What `loginRequest` does after the POST, up to its `finally`. */
  function LoginTry(p: Props, body: Fields, outcome: Outcome): seq<Effect>
  {
    match outcome
    case Ok(token, user) =>
      var remember := Prop(body, "rememberMe");
      var locale := if Truthy(user.preferedLanguage) then [ChangeLocale(user.preferedLanguage)] else [];
      locale + [SetToken(token, remember), SetUserInfo(user, remember)] + RedirectEffects(p, LoginCatch(p.env, None))
    case Err(response) => LoginCatch(p.env, response)
  }

  /** `loginRequest(body, requestURL)`: `body` is the raw submitted values. */
  function LoginEffects(p: Props, body: Fields, url: string, outcome: Outcome): (r: seq<Effect>)
    // one request, with the omitted fields stripped, first; the `finally` last
    ensures |r| >= 2 && r[0] == Post(url, Omit(body, FieldsToOmit(p.forms, p.authType)))
    ensures r[|r| - 1] == SetSubmitting(false)
  {
    [Post(url, Omit(body, FieldsToOmit(p.forms, p.authType)))] + LoginTry(p, body, outcome) + [SetSubmitting(false)]
  }

  /** The `catch` of `registerRequest`. */
  function RegisterCatch(env: Env, response: Option<Value>): seq<Effect>
  {
    [TrackUsage(DidNotCreateFirstAdmin)] +
    match response
    case None => []
    case Some(data) => [SetErrors(ApiErrors(env.formatAPIErrors(data)))]
  }

  /** `registerRequest`'s calls that re-enable the guided tour for a super admin. */
  function TourCalls(user: User): seq<Effect>
  {
    if IsSuperAdmin(user) then [AuthSet(AuthSetCall(false, GuidedTourSkipped, true)), SetSkipped(false), TrackUsage(DidLaunchGuidedtour)]
    else []
  }

  /** What follows the tour in a successful registration: the news check and
      the redirect, or the `catch` when the check throws. */
  function RegisterLeaves(p: Props, body: Fields): seq<Effect>
  {
    match NewsOptIn(p.authType, body)
    case TypeError => RegisterCatch(p.env, None)
    case Normal(true) => [Push(PathSearch(UsecasePath, "?hasAdmin=" + BoolText(p.hasAdmin)))]
    case Normal(false) => RedirectEffects(p, RegisterCatch(p.env, None))
  }

  /** What `registerRequest` does after storing the session, inside its `try`. */
  function RegisterSuccessTail(p: Props, body: Fields, user: User): seq<Effect>
  {
    TourCalls(user) + RegisterLeaves(p, body)
  }

  /** `registerRequest(body, requestURL)`, for both `register` and
      `register-admin`; `body` is the raw submitted values. */
  function RegisterEffects(p: Props, body: Fields, url: string, outcome: Outcome): (r: seq<Effect>)
    // tracked before the request, which is sent once with the omitted fields stripped
    ensures |r| >= 3 && r[0] == TrackUsage(WillCreateFirstAdmin)
    ensures r[1] == Post(url, Omit(body, FieldsToOmit(p.forms, p.authType)))
  {
    [TrackUsage(WillCreateFirstAdmin), Post(url, Omit(body, FieldsToOmit(p.forms, p.authType)))] +
    match outcome
    case Ok(token, user) =>
      [SetToken(token, Bool(false)), SetUserInfo(user, Bool(false)), SetSubmitting(false), SetHasAdmin(true)] +
      RegisterSuccessTail(p, body, user)
    case Err(response) => RegisterCatch(p.env, response)
  }

  /** `forgotPasswordRequest(body, requestURL)`: `body` arrives already filtered. */
  function ForgotPasswordEffects(body: Fields, url: string, outcome: Outcome): (r: seq<Effect>)
    ensures |r| == 3 && r[0] == Post(url, body) && r[2] == SetSubmitting(false)
    // success moves on; every error, with or without a response, shows the same message
    ensures r[1] == if outcome.Ok? then Push(Path(ForgotPasswordSuccessPath))
                    else SetErrors(ErrorMessage(Str(NotificationError)))
  {
    [Post(url, body)] +
    (if outcome.Ok? then [Push(Path(ForgotPasswordSuccessPath))]
     else [SetErrors(ErrorMessage(Str(NotificationError)))]) +
    [SetSubmitting(false)]
  }

  /** The body `resetPasswordRequest` posts: `{ ...body, resetPasswordToken: query.get('code') }`. */
  function ResetPasswordBody(body: Fields, query: map<string, string>): (r: Fields)
    ensures r.Keys == body.Keys + {"resetPasswordToken"}
    ensures forall k :: k in body && k != "resetPasswordToken" ==> r[k] == body[k]
    ensures r["resetPasswordToken"] == if "code" in query then Str(query["code"]) else Null
  {
    body["resetPasswordToken" := match QueryGet(query, "code") case Some(code) => Str(code) case None => Null]
  }

  /** The `catch` of `resetPasswordRequest`. */
  function ResetPasswordCatch(response: Option<Value>): seq<Effect>
  {
    match response
    case None => []
    case Some(data) =>
      var message := Get(data, ["message"], Str(SomethingWentWrong));
      var status := Get(data, ["statusCode"], Num(400));
      [Dispatch(SetRequestError(message, status)), SetErrors(ErrorMessage(message))]
  }

  /** `resetPasswordRequest(body, requestURL)`: `body` arrives already filtered. */
  function ResetPasswordEffects(query: map<string, string>, body: Fields, url: string, outcome: Outcome): (r: seq<Effect>)
    ensures |r| >= 2 && r[0] == Post(url, ResetPasswordBody(body, query))
    ensures r[|r| - 1] == SetSubmitting(false)
  {
    [Post(url, ResetPasswordBody(body, query))] +
    (match outcome
     case Ok(token, user) => [SetToken(token, Bool(false)), SetUserInfo(user, Bool(false)), Push(Path(Root))]
     case Err(response) => ResetPasswordCatch(response)) +
    [SetSubmitting(false)]
  }

  predicate IsKnownMode(authType: string)
  {
    authType in {Login, Register, RegisterAdmin, ForgotPassword, ResetPassword}
  }

  /** The body a submit POSTs. */
  function PostedBody(p: Props, e: Fields): Fields
  {
    var body := Omit(e, FieldsToOmit(p.forms, p.authType));
    if p.authType == ResetPassword then ResetPasswordBody(body, p.query) else body
  }

  /** The handler `handleSubmit` picks for `authType`, called with the raw
      values for login and registration and with `fieldsToOmit` removed for
      the password forms; no handler runs for any other `authType`. */
  function HandlerEffects(p: Props, e: Fields, outcome: Outcome): (r: seq<Effect>)
    ensures IsKnownMode(p.authType) <==> |r| >= 2
    ensures IsKnownMode(p.authType) && p.authType != Register && p.authType != RegisterAdmin ==>
              r[0] == Post(RequestUrl(p.forms, p.authType), PostedBody(p, e))
    ensures p.authType == Register || p.authType == RegisterAdmin ==>
              r[1] == Post(RequestUrl(p.forms, p.authType), PostedBody(p, e))
  {
    var body := Omit(e, FieldsToOmit(p.forms, p.authType));
    var url := RequestUrl(p.forms, p.authType);
    if p.authType == Login then LoginEffects(p, e, url, outcome)
    else if p.authType == Register || p.authType == RegisterAdmin then RegisterEffects(p, e, url, outcome)
    else if p.authType == ForgotPassword then ForgotPasswordEffects(body, url, outcome)
    else if p.authType == ResetPassword then ResetPasswordEffects(p.query, body, url, outcome)
    else []
  }

  /** `handleSubmit(e)`: `submitting` goes up first, then the handler runs. */
  function SubmitEffects(p: Props, e: Fields, outcome: Outcome): (r: seq<Effect>)
    ensures |r| >= 1 && r[0] == SetSubmitting(true)
    // no handler for any other `authType`: `submitting` stays up
    ensures !IsKnownMode(p.authType) ==> r == [SetSubmitting(true)]
  {
    [SetSubmitting(true)] + HandlerEffects(p, e, outcome)
  }
}
