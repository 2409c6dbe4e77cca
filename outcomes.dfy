/**
 * What a submit leaves behind. For each request handler and each way its POST
 * can end, the state after the handler's calls is given in closed form; the
 * properties of `handleSubmit` as a whole (one request, when `submitting`
 * comes down, when the session and the form errors are written) follow.
 * `AuthPage.HandleSubmit` in module Component ends in exactly these states.
 */
module Outcomes {
  import opened JsValues
  import opened Forms
  import opened Redirects
  import opened Effects
  import opened Handlers

  /** The location `redirectToPreviousLocation` pushes: none when
      `decodeURIComponent` throws. */
  function PushedTarget(p: Props): (r: seq<Location>)
    ensures p.authType != Login ==> r == [Path(Root)]
    ensures |r| <= 1
  {
    match PostSuccessTarget(p.env.decodeURIComponent, p.authType, p.query)
    case Some(target) => [Path(target)]
    case None => []
  }

  lemma RunRedirect(x: Page, p: Props, onThrow: seq<Effect>)
    ensures PushedTarget(p) != [] ==>
              Run(x, RedirectEffects(p, onThrow)) == x.(history := x.history + PushedTarget(p))
    ensures PushedTarget(p) == [] ==> Run(x, RedirectEffects(p, onThrow)) == Run(x, onThrow)
  {
    var target := PostSuccessTarget(p.env.decodeURIComponent, p.authType, p.query);
    if target.Some? {
      RunOne(x, Push(Path(target.value)));
    }
  }

  /** A request, then what the handler does once it settles, then a last call. */
  lemma RunFramed(s: Page, first: Effect, middle: seq<Effect>, last: Effect)
    ensures Run(s, [first] + middle + [last]) == Step(Run(Step(s, first), middle), last)
  {
    RunAppend(s, [first] + middle, [last]);
    RunAppend(s, [first], middle);
    RunOne(s, first);
    RunOne(Run(Step(s, first), middle), last);
  }

  /** A successful sign-in: the session is stored with the submitted
      `rememberMe`, the user's preferred language is applied when set, the
      browser goes to the redirect target (nowhere when that target cannot be
      decoded), and the `finally` brings `submitting` down. */
  lemma LoginSucceeds(p: Props, s: Page, body: Fields, url: string, token: Value, user: User)
    ensures var remember := Prop(body, "rememberMe");
            var lang := user.preferedLanguage;
            Run(s, LoginEffects(p, body, url, Ok(token, user))) ==
              s.(submitting := false,
                 requests := s.requests + [Request(url, Omit(body, FieldsToOmit(p.forms, p.authType)))],
                 locale := if Truthy(lang) then Some(lang) else s.locale,
                 token := Some(Stored(token, remember)),
                 userInfo := Some(Stored(user, remember)),
                 history := s.history + PushedTarget(p))
  {
    var remember := Prop(body, "rememberMe");
    var lang := user.preferedLanguage;
    var post := Post(url, Omit(body, FieldsToOmit(p.forms, p.authType)));
    var locale := if Truthy(lang) then [ChangeLocale(lang)] else [];
    var session := [SetToken(token, remember), SetUserInfo(user, remember)];
    var redirect := RedirectEffects(p, LoginCatch(p.env, None));
    RunFramed(s, post, LoginTry(p, body, Ok(token, user)), SetSubmitting(false));
    var x := Step(s, post);
    RunAppend(x, locale + session, redirect);
    RunAppend(x, locale, session);
    if Truthy(lang) {
      RunOne(x, ChangeLocale(lang));
    }
    Run2(Run(x, locale), SetToken(token, remember), SetUserInfo(user, remember));
    RunRedirect(Run(x, locale + session), p, LoginCatch(p.env, None));
  }

  /** A failed sign-in. Without a response nothing but the request shows; an
      inactive account is sent to the oops page and the reducer is reset, with
      the form errors untouched; any other error message is shown on the form.
      In every case the `finally` brings `submitting` down, the inactive
      account's early `return` included. */
  lemma LoginFails(p: Props, s: Page, body: Fields, url: string, response: Option<Value>)
    ensures var done := s.(submitting := false,
                           requests := s.requests + [Request(url, Omit(body, FieldsToOmit(p.forms, p.authType)))]);
            var after := Run(s, LoginEffects(p, body, url, Err(response)));
            && (response.None? ==> after == done)
            && (response.Some? && IsUserNotActive(p.env, LoginErrorMessage(response.value)) ==>
                  after == done.(history := s.history + [Path(OopsPath)], dispatched := s.dispatched + [ResetProps]))
            && (response.Some? && !IsUserNotActive(p.env, LoginErrorMessage(response.value)) ==>
                  after == done.(formErrors := Some(ErrorMessage(LoginErrorMessage(response.value)))))
  {
    var post := Post(url, Omit(body, FieldsToOmit(p.forms, p.authType)));
    RunFramed(s, post, LoginTry(p, body, Err(response)), SetSubmitting(false));
    var x := Step(s, post);
    if response.Some? {
      if IsUserNotActive(p.env, LoginErrorMessage(response.value)) {
        Run2(x, Push(Path(OopsPath)), Dispatch(ResetProps));
      } else {
        RunOne(x, SetErrors(ErrorMessage(LoginErrorMessage(response.value))));
      }
    }
  }

  /** A super admin gets the guided tour re-enabled: `auth.set(false,
      'GUIDED_TOUR_SKIPPED', true)` is called, the tour's skipped flag is
      cleared and the launch is tracked; any other user leaves all three alone. */
  lemma TourRestarts(s: Page, user: User)
    ensures var tour := IsSuperAdmin(user);
            Run(s, TourCalls(user)) ==
              s.(authSets := s.authSets + (if tour then [AuthSetCall(false, GuidedTourSkipped, true)] else []),
                 tourSkipped := if tour then false else s.tourSkipped,
                 tracked := s.tracked + (if tour then [DidLaunchGuidedtour] else []))
  {
    if IsSuperAdmin(user) {
      Run3(s, AuthSet(AuthSetCall(false, GuidedTourSkipped, true)), SetSkipped(false), TrackUsage(DidLaunchGuidedtour));
    }
  }

  /** After registering, the browser goes to the use-case page (telling it the
      `hasAdmin` the page rendered with) when the user opted into news, home
      otherwise. When `userInfo` is missing from a `register` body the news
      check throws and the `catch` only tracks the failure. */
  lemma RegisterRedirects(p: Props, s: Page, body: Fields)
    requires p.authType == Register || p.authType == RegisterAdmin
    ensures var news := NewsOptIn(p.authType, body);
            Run(s, RegisterLeaves(p, body)) ==
              s.(tracked := s.tracked + (if news.TypeError? then [DidNotCreateFirstAdmin] else []),
                 history := s.history +
                            (if news == Normal(true) then [PathSearch(UsecasePath, "?hasAdmin=" + BoolText(p.hasAdmin))]
                             else if news == Normal(false) then [Path(Root)]
                             else []))
  {
    match NewsOptIn(p.authType, body) {
      case TypeError =>
        assert RegisterCatch(p.env, None) == [TrackUsage(DidNotCreateFirstAdmin)];
        RunOne(s, TrackUsage(DidNotCreateFirstAdmin));
      case Normal(optIn) =>
        if optIn {
          RunOne(s, Push(PathSearch(UsecasePath, "?hasAdmin=" + BoolText(p.hasAdmin))));
        } else {
          RunRedirect(s, p, RegisterCatch(p.env, None));
        }
    }
  }

  /** A successful registration (`register` or `register-admin`, the only
      modes that reach `registerRequest`): the session is stored without
      "remember me", `submitting` comes down and the parent learns an admin
      now exists, before `TourRestarts` and `RegisterRedirects`. */
  lemma RegisterSucceeds(p: Props, s: Page, body: Fields, url: string, token: Value, user: User)
    requires p.authType == Register || p.authType == RegisterAdmin
    ensures var tour := IsSuperAdmin(user);
            var news := NewsOptIn(p.authType, body);
            Run(s, RegisterEffects(p, body, url, Ok(token, user))) ==
              s.(submitting := false,
                 hasAdmin := true,
                 token := Some(Stored(token, Bool(false))),
                 userInfo := Some(Stored(user, Bool(false))),
                 requests := s.requests + [Request(url, Omit(body, FieldsToOmit(p.forms, p.authType)))],
                 authSets := s.authSets + (if tour then [AuthSetCall(false, GuidedTourSkipped, true)] else []),
                 tourSkipped := if tour then false else s.tourSkipped,
                 tracked := s.tracked + [WillCreateFirstAdmin] +
                            (if tour then [DidLaunchGuidedtour] else []) +
                            (if news.TypeError? then [DidNotCreateFirstAdmin] else []),
                 history := s.history +
                            (if news == Normal(true) then [PathSearch(UsecasePath, "?hasAdmin=" + BoolText(p.hasAdmin))]
                             else if news == Normal(false) then [Path(Root)]
                             else []))
  {
    var track := TrackUsage(WillCreateFirstAdmin);
    var post := Post(url, Omit(body, FieldsToOmit(p.forms, p.authType)));
    var session := [SetToken(token, Bool(false)), SetUserInfo(user, Bool(false)), SetSubmitting(false), SetHasAdmin(true)];
    var tail := RegisterSuccessTail(p, body, user);
    assert RegisterEffects(p, body, url, Ok(token, user)) == [track, post] + (session + tail);
    RunAppend(s, [track, post], session + tail);
    Run2(s, track, post);
    var x := Step(Step(s, track), post);
    RunAppend(x, session, tail);
    Run4(x, session[0], session[1], session[2], session[3]);
    var y := Run(x, session);
    RunAppend(y, TourCalls(user), RegisterLeaves(p, body));
    TourRestarts(y, user);
    RegisterRedirects(p, Run(y, TourCalls(user)), body);
    var extra := (if IsSuperAdmin(user) then [DidLaunchGuidedtour] else []) +
                 (if NewsOptIn(p.authType, body).TypeError? then [DidNotCreateFirstAdmin] else []);
    assert s.tracked + [WillCreateFirstAdmin] + extra ==
           s.tracked + [WillCreateFirstAdmin] + (if IsSuperAdmin(user) then [DidLaunchGuidedtour] else []) +
           (if NewsOptIn(p.authType, body).TypeError? then [DidNotCreateFirstAdmin] else []);
  }

  /** A failed registration: the failure is tracked and, when the server
      answered, its formatted errors are shown on the form. There is no
      `finally`, so `submitting` keeps the value it had. */
  lemma RegisterFails(p: Props, s: Page, body: Fields, url: string, response: Option<Value>)
    ensures Run(s, RegisterEffects(p, body, url, Err(response))) ==
              s.(requests := s.requests + [Request(url, Omit(body, FieldsToOmit(p.forms, p.authType)))],
                 tracked := s.tracked + [WillCreateFirstAdmin, DidNotCreateFirstAdmin],
                 formErrors := if response.Some? then Some(ApiErrors(p.env.formatAPIErrors(response.value)))
                               else s.formErrors)
  {
    var track := TrackUsage(WillCreateFirstAdmin);
    var post := Post(url, Omit(body, FieldsToOmit(p.forms, p.authType)));
    var failure := TrackUsage(DidNotCreateFirstAdmin);
    RunAppend(s, [track, post], RegisterCatch(p.env, response));
    Run2(s, track, post);
    var x := Step(Step(s, track), post);
    if response.Some? {
      Run2(x, failure, SetErrors(ApiErrors(p.env.formatAPIErrors(response.value))));
    } else {
      assert RegisterCatch(p.env, response) == [failure];
      RunOne(x, failure);
    }
    assert s.tracked + [WillCreateFirstAdmin] + [DidNotCreateFirstAdmin] == s.tracked + [WillCreateFirstAdmin, DidNotCreateFirstAdmin];
  }

  /** A password-reset email request: success moves to the confirmation page,
      any failure shows the same notification on the form, and `submitting`
      comes down either way. */
  lemma ForgotPasswordSettles(s: Page, body: Fields, url: string, outcome: Outcome)
    ensures Run(s, ForgotPasswordEffects(body, url, outcome)) ==
              s.(submitting := false,
                 requests := s.requests + [Request(url, body)],
                 history := if outcome.Ok? then s.history + [Path(ForgotPasswordSuccessPath)] else s.history,
                 formErrors := if outcome.Ok? then s.formErrors else Some(ErrorMessage(Str(NotificationError))))
  {
    var r := ForgotPasswordEffects(body, url, outcome);
    Run3(s, r[0], r[1], r[2]);
    assert r == [r[0], r[1], r[2]];
  }

  /** A successful password reset signs the user in without "remember me"
      and goes home; the POSTed body carries the `code` query parameter as
      `resetPasswordToken`. */
  lemma ResetPasswordSucceeds(s: Page, query: map<string, string>, body: Fields, url: string, token: Value, user: User)
    ensures Run(s, ResetPasswordEffects(query, body, url, Ok(token, user))) ==
              s.(submitting := false,
                 requests := s.requests + [Request(url, ResetPasswordBody(body, query))],
                 token := Some(Stored(token, Bool(false))),
                 userInfo := Some(Stored(user, Bool(false))),
                 history := s.history + [Path(Root)])
  {
    var post := Post(url, ResetPasswordBody(body, query));
    RunFramed(s, post, [SetToken(token, Bool(false)), SetUserInfo(user, Bool(false)), Push(Path(Root))], SetSubmitting(false));
    Run3(Step(s, post), SetToken(token, Bool(false)), SetUserInfo(user, Bool(false)), Push(Path(Root)));
  }

  /** A failed password reset: when the server answered, its message (or the
      generic one) and status (400 by default) go to the reducer and the
      same message to the form; `submitting` comes down either way. */
  lemma ResetPasswordFails(s: Page, query: map<string, string>, body: Fields, url: string, response: Option<Value>)
    ensures var done := s.(submitting := false,
                           requests := s.requests + [Request(url, ResetPasswordBody(body, query))]);
            var after := Run(s, ResetPasswordEffects(query, body, url, Err(response)));
            && (response.None? ==> after == done)
            && (response.Some? ==>
                  var message := Get(response.value, ["message"], Str(SomethingWentWrong));
                  var status := Get(response.value, ["statusCode"], Num(400));
                  after == done.(dispatched := s.dispatched + [SetRequestError(message, status)],
                                 formErrors := Some(ErrorMessage(message))))
  {
    var post := Post(url, ResetPasswordBody(body, query));
    RunFramed(s, post, ResetPasswordCatch(response), SetSubmitting(false));
    if response.Some? {
      var message := Get(response.value, ["message"], Str(SomethingWentWrong));
      var status := Get(response.value, ["statusCode"], Num(400));
      Run2(Step(s, post), Dispatch(SetRequestError(message, status)), SetErrors(ErrorMessage(message)));
    }
  }

  /** `handleSubmit` raises `submitting`, then runs the handler. */
  lemma RunSubmit(p: Props, s: Page, e: Fields, outcome: Outcome)
    ensures Run(s, SubmitEffects(p, e, outcome)) == Run(s.(submitting := true), HandlerEffects(p, e, outcome))
  {
    RunAppend(s, [SetSubmitting(true)], HandlerEffects(p, e, outcome));
    RunOne(s, SetSubmitting(true));
  }

  /** An `authType` without a handler only raises `submitting`, and it stays up. */
  lemma SubmitUnknownMode(p: Props, s: Page, e: Fields, outcome: Outcome)
    requires !IsKnownMode(p.authType)
    ensures Run(s, SubmitEffects(p, e, outcome)) == s.(submitting := true)
  {
    RunSubmit(p, s, e, outcome);
  }

  /** What every submit guarantees, whatever the mode and the outcome:
      - a known mode sends exactly one request, to its form's endpoint, with
        the fields to omit removed (and the reset code added for a password
        reset); any other `authType` sends none;
      - `submitting` is still up afterwards exactly when no handler ran or a
        registration failed (the one handler without a `finally`);
      - the session is written only by a successful login, registration or
        password reset, with the token and user the server returned, and only
        login lets the user choose to be remembered;
      - a request that succeeds never writes the form errors. */
  lemma SubmitSettles(p: Props, s: Page, e: Fields, outcome: Outcome)
    ensures var after := Run(s, SubmitEffects(p, e, outcome));
            after.requests ==
              s.requests + (if IsKnownMode(p.authType)
                            then [Request(RequestUrl(p.forms, p.authType), PostedBody(p, e))]
                            else [])
    ensures Run(s, SubmitEffects(p, e, outcome)).submitting <==>
              !IsKnownMode(p.authType) ||
              ((p.authType == Register || p.authType == RegisterAdmin) && outcome.Err?)
    ensures var after := Run(s, SubmitEffects(p, e, outcome));
            outcome.Err? || !IsKnownMode(p.authType) || p.authType == ForgotPassword ==>
              after.token == s.token && after.userInfo == s.userInfo
    ensures var after := Run(s, SubmitEffects(p, e, outcome));
            var remember := if p.authType == Login then Prop(e, "rememberMe") else Bool(false);
            outcome.Ok? && IsKnownMode(p.authType) && p.authType != ForgotPassword ==>
              after.token == Some(Stored(outcome.token, remember)) &&
              after.userInfo == Some(Stored(outcome.user, remember))
    ensures outcome.Ok? ==> Run(s, SubmitEffects(p, e, outcome)).formErrors == s.formErrors
  {
    RunSubmit(p, s, e, outcome);
    var t := s.(submitting := true);
    var url := RequestUrl(p.forms, p.authType);
    var body := Omit(e, FieldsToOmit(p.forms, p.authType));
    if p.authType == Login {
      match outcome {
        case Ok(token, user) => LoginSucceeds(p, t, e, url, token, user);
        case Err(response) => LoginFails(p, t, e, url, response);
      }
    } else if p.authType == Register || p.authType == RegisterAdmin {
      match outcome {
        case Ok(token, user) => RegisterSucceeds(p, t, e, url, token, user);
        case Err(response) => RegisterFails(p, t, e, url, response);
      }
    } else if p.authType == ForgotPassword {
      ForgotPasswordSettles(t, body, url, outcome);
    } else if p.authType == ResetPassword {
      match outcome {
        case Ok(token, user) => ResetPasswordSucceeds(t, p.query, body, url, token, user);
        case Err(response) => ResetPasswordFails(t, p.query, body, url, response);
      }
    }
  }
}
