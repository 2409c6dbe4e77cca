/**
 * The mounted authentication page as an object: its fields are what the
 * page's collaborators hold (Formik's `submitting` flag and errors, the
 * dispatched reducer actions, the session store, the locale, the router
 * history, the usage events, the parent's `hasAdmin`, the `auth.set` calls
 * and the guided tour), plus the ordered log of every call made on them. The request
 * handlers make those calls one at a time, as the page does, and each is proved
 * to make exactly the calls its function in module Handlers lists.
 */
module Component {
  import opened JsValues
  import opened Forms
  import opened Redirects
  import opened Effects
  import opened Handlers

  class AuthPage {
    const props: Props

    var submitting: bool
    var formErrors: Option<FormErrors>
    var dispatched: seq<Action>
    var token: Option<Stored<Value>>
    var userInfo: Option<Stored<User>>
    var locale: Option<Value>
    var history: seq<Location>
    var tracked: seq<string>
    var hasAdmin: bool
    var authSets: seq<AuthSetCall>
    var tourSkipped: bool
    var requests: seq<Request>

    /** Every call made so far, oldest first. */
    var log: seq<Effect>
    /** The state when the page mounted. */
    ghost const initial: Page

    function State(): Page
      reads this
    {
      Page(submitting, formErrors, dispatched, token, userInfo, locale,
           history, tracked, hasAdmin, authSets, tourSkipped, requests)
    }

    /** The fields are what the logged calls made of the initial state. */
    ghost predicate Valid()
      reads this
    {
      State() == Run(initial, log)
    }

    constructor (props: Props, start: Page)
      ensures Valid() && this.props == props && State() == start && log == []
    {
      this.props := props;
      submitting, formErrors, dispatched := start.submitting, start.formErrors, start.dispatched;
      token, userInfo, locale := start.token, start.userInfo, start.locale;
      history, tracked, hasAdmin := start.history, start.tracked, start.hasAdmin;
      authSets, tourSkipped, requests := start.authSets, start.tourSkipped, start.requests;
      log := [];
      initial := start;
    }

    /** One call on a collaborator. */
    method Perform(e: Effect)
      requires Valid()
      modifies this
      ensures Valid() && log == old(log) + [e]
    {
      match e {
      case SetSubmitting(on) => submitting := on;
      case Post(url, body) => requests := requests + [Request(url, body)];
      case ChangeLocale(code) => locale := Some(code);
      case SetToken(value, remember) => token := Some(Stored(value, remember));
      case SetUserInfo(user, remember) => userInfo := Some(Stored(user, remember));
      case Push(to) => history := history + [to];
      case Dispatch(action) => dispatched := dispatched + [action];
      case SetErrors(errors) => formErrors := Some(errors);
      case TrackUsage(event) => tracked := tracked + [event];
      case SetHasAdmin(value) => hasAdmin := value;
      case AuthSet(call) => authSets := authSets + [call];
      case SetSkipped(skipped) => tourSkipped := skipped;
      }
      assert State() == Step(old(State()), e);
      RunAppend(initial, log, [e]);
      RunOne(old(State()), e);
      log := log + [e];
    }

    /** `redirectToPreviousLocation()`; `threw` reports the `URIError` of
        `decodeURIComponent`, which the calling handler catches. */
    method RedirectToPreviousLocation() returns (threw: bool)
      requires Valid()
      modifies this
      ensures Valid()
      ensures threw <==> PostSuccessTarget(props.env.decodeURIComponent, props.authType, props.query).None?
      ensures log == old(log) + RedirectEffects(props, [])
    {
      var target := PostSuccessTarget(props.env.decodeURIComponent, props.authType, props.query);
      match target {
        case Some(redirectUrl) =>
          Perform(Push(Path(redirectUrl)));
          threw := false;
        case None =>
          threw := true;
      }
    }

    /** The `catch` of `loginRequest`. */
    method OnLoginError(response: Option<Value>)
      requires Valid()
      modifies this
      ensures Valid() && log == old(log) + LoginCatch(props.env, response)
    {
      if response.Some? {
        var errorMessage := LoginErrorMessage(response.value);
        if IsUserNotActive(props.env, errorMessage) {
          Perform(Push(Path(OopsPath)));
          Perform(Dispatch(ResetProps));
          // the `return` here leaves the `catch`, and the `finally` still runs
        } else {
          Perform(SetErrors(ErrorMessage(errorMessage)));
        }
      }
    }

    /** The `try` and `catch` of `loginRequest`, once the POST has settled. */
    method LoginAttempt(body: Fields, outcome: Outcome)
      requires Valid()
      modifies this
      ensures Valid() && log == old(log) + LoginTry(props, body, outcome)
    {
      match outcome {
        case Ok(newToken, user) =>
          ghost var locale := if Truthy(user.preferedLanguage) then [ChangeLocale(user.preferedLanguage)] else [];
          if Truthy(user.preferedLanguage) {
            Perform(ChangeLocale(user.preferedLanguage));
          }
          var remember := Prop(body, "rememberMe");
          Perform(SetToken(newToken, remember));
          Perform(SetUserInfo(user, remember));
          assert log == old(log) + locale + [SetToken(newToken, remember), SetUserInfo(user, remember)];
          var threw := RedirectToPreviousLocation();
          if threw {
            OnLoginError(None);
          }
          Regroup(old(log), locale + [SetToken(newToken, remember), SetUserInfo(user, remember)],
                  RedirectEffects(props, LoginCatch(props.env, None)));
        case Err(response) =>
          OnLoginError(response);
      }
    }

    /** `loginRequest(body, requestURL)`. */
    method LoginRequest(body: Fields, requestURL: string, outcome: Outcome)
      requires Valid()
      modifies this
      ensures Valid() && log == old(log) + LoginEffects(props, body, requestURL, outcome)
      ensures State() == Run(old(State()), LoginEffects(props, body, requestURL, outcome))
    {
      ghost var post := [Post(requestURL, Omit(body, FieldsToOmit(props.forms, props.authType)))];
      Perform(Post(requestURL, Omit(body, FieldsToOmit(props.forms, props.authType))));
      LoginAttempt(body, outcome);
      // the `finally`, which also runs after the `return` of the inactive-user branch
      Perform(SetSubmitting(false));
      Regroup(old(log), post, LoginTry(props, body, outcome));
      Regroup(old(log), post + LoginTry(props, body, outcome), [SetSubmitting(false)]);
      RunAppend(initial, old(log), LoginEffects(props, body, requestURL, outcome));
    }

    /** The `catch` of `registerRequest`. */
    method OnRegisterError(response: Option<Value>)
      requires Valid()
      modifies this
      ensures Valid() && log == old(log) + RegisterCatch(props.env, response)
    {
      Perform(TrackUsage(DidNotCreateFirstAdmin));
      if response.Some? {
        var apiErrors := props.env.formatAPIErrors(response.value);
        Perform(SetErrors(ApiErrors(apiErrors)));
      }
    }

    /** A super admin gets the guided tour back. */
    method RestartTour(user: User)
      requires Valid()
      modifies this
      ensures Valid() && log == old(log) + TourCalls(user)
    {
      if user.roles.Some? {
        var isUserSuperAdmin := FindRole(user.roles.value, SuperAdminCode);
        if isUserSuperAdmin.Some? {
          Perform(AuthSet(AuthSetCall(false, GuidedTourSkipped, true)));
          Perform(SetSkipped(false));
          Perform(TrackUsage(DidLaunchGuidedtour));
        }
      }
    }

    /** The news check and the redirect that end a successful registration. */
    method LeaveRegistration(body: Fields)
      requires Valid()
      modifies this
      ensures Valid() && log == old(log) + RegisterLeaves(props, body)
    {
      var news := NewsOptIn(props.authType, body);
      match news {
        case TypeError =>
          OnRegisterError(None);
        case Normal(optIn) =>
          if optIn {
            // the `hasAdmin` prop captured at render time, not the value just set
            Perform(Push(PathSearch(UsecasePath, "?hasAdmin=" + BoolText(props.hasAdmin))));
          } else {
            var threw := RedirectToPreviousLocation();
            if threw {
              OnRegisterError(None);
            }
          }
      }
    }

    /** What `registerRequest` does after storing the session, inside its `try`. */
    method RegisterFinish(body: Fields, user: User)
      requires Valid()
      modifies this
      ensures Valid() && log == old(log) + RegisterSuccessTail(props, body, user)
    {
      RestartTour(user);
      LeaveRegistration(body);
      Regroup(old(log), TourCalls(user), RegisterLeaves(props, body));
    }

    /** `registerRequest(body, requestURL)`, for `register` and `register-admin`. */
    method RegisterRequest(body: Fields, requestURL: string, outcome: Outcome)
      requires Valid()
      modifies this
      ensures Valid() && log == old(log) + RegisterEffects(props, body, requestURL, outcome)
      ensures State() == Run(old(State()), RegisterEffects(props, body, requestURL, outcome))
    {
      ghost var start := [TrackUsage(WillCreateFirstAdmin), Post(requestURL, Omit(body, FieldsToOmit(props.forms, props.authType)))];
      Perform(TrackUsage(WillCreateFirstAdmin));
      Perform(Post(requestURL, Omit(body, FieldsToOmit(props.forms, props.authType))));
      assert log == old(log) + start;
      match outcome {
        case Ok(newToken, user) =>
          ghost var session := [SetToken(newToken, Bool(false)), SetUserInfo(user, Bool(false)), SetSubmitting(false), SetHasAdmin(true)];
          Perform(SetToken(newToken, Bool(false)));
          Perform(SetUserInfo(user, Bool(false)));
          Perform(SetSubmitting(false));
          Perform(SetHasAdmin(true));
          assert log == old(log) + start + session;
          RegisterFinish(body, user);
          Regroup(old(log) + start, session, RegisterSuccessTail(props, body, user));
          Regroup(old(log), start, session + RegisterSuccessTail(props, body, user));
        case Err(response) =>
          OnRegisterError(response);
          Regroup(old(log), start, RegisterCatch(props.env, response));
      }
      RunAppend(initial, old(log), RegisterEffects(props, body, requestURL, outcome));
    }

    /** `forgotPasswordRequest(body, requestURL)`. */
    method ForgotPasswordRequest(body: Fields, requestURL: string, outcome: Outcome)
      requires Valid()
      modifies this
      ensures Valid() && log == old(log) + ForgotPasswordEffects(body, requestURL, outcome)
      ensures State() == Run(old(State()), ForgotPasswordEffects(body, requestURL, outcome))
    {
      Perform(Post(requestURL, body));
      if outcome.Ok? {
        Perform(Push(Path(ForgotPasswordSuccessPath)));
      } else {
        Perform(SetErrors(ErrorMessage(Str(NotificationError))));
      }
      Perform(SetSubmitting(false));
      RunAppend(initial, old(log), ForgotPasswordEffects(body, requestURL, outcome));
    }

    /** `resetPasswordRequest(body, requestURL)`. */
    method ResetPasswordRequest(body: Fields, requestURL: string, outcome: Outcome)
      requires Valid()
      modifies this
      ensures Valid() && log == old(log) + ResetPasswordEffects(props.query, body, requestURL, outcome)
      ensures State() == Run(old(State()), ResetPasswordEffects(props.query, body, requestURL, outcome))
    {
      Perform(Post(requestURL, ResetPasswordBody(body, props.query)));
      match outcome {
        case Ok(newToken, user) =>
          Perform(SetToken(newToken, Bool(false)));
          Perform(SetUserInfo(user, Bool(false)));
          Perform(Push(Path(Root)));
        case Err(response) =>
          if response.Some? {
            var errorMessage := Get(response.value, ["message"], Str(SomethingWentWrong));
            var errorStatus := Get(response.value, ["statusCode"], Num(400));
            Perform(Dispatch(SetRequestError(errorMessage, errorStatus)));
            Perform(SetErrors(ErrorMessage(errorMessage)));
          }
      }
      Perform(SetSubmitting(false));
      RunAppend(initial, old(log), ResetPasswordEffects(props.query, body, requestURL, outcome));
    }

    /** `handleSubmit(e)`, with the POST's outcome given. */
    method HandleSubmit(e: Fields, outcome: Outcome)
      requires Valid()
      modifies this
      ensures Valid() && log == old(log) + SubmitEffects(props, e, outcome)
      ensures State() == Run(old(State()), SubmitEffects(props, e, outcome))
    {
      Perform(SetSubmitting(true));
      ghost var started := log;
      var body := Omit(e, FieldsToOmit(props.forms, props.authType));
      var requestURL := RequestUrl(props.forms, props.authType);
      if props.authType == Login {
        LoginRequest(e, requestURL, outcome);
      }
      if props.authType == Register || props.authType == RegisterAdmin {
        RegisterRequest(e, requestURL, outcome);
      }
      if props.authType == ForgotPassword {
        ForgotPasswordRequest(body, requestURL, outcome);
      }
      if props.authType == ResetPassword {
        ResetPasswordRequest(body, requestURL, outcome);
      }
      assert log == started + HandlerEffects(props, e, outcome);
      Regroup(old(log), [SetSubmitting(true)], HandlerEffects(props, e, outcome));
      RunAppend(initial, old(log), SubmitEffects(props, e, outcome));
    }
  }
}
