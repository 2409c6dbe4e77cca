/**
 * The calls the authentication page makes on its collaborators (Formik's
 * helpers, the router, the reducer's `dispatch`, the session store, the locale
 * provider, usage tracking, the guided tour and the parent's `setHasAdmin`),
 * and the state those calls leave behind.
 */
module Effects {
  import opened JsValues
  import opened Redirects

  /** An entry of the `roles` array of a user returned by the server. */
  datatype Role = Role(code: string)

  /** The user object returned by the server, reduced to what the page reads;
      `roles` is none when the property is undefined or null. */
  datatype User = User(preferedLanguage: Value, roles: Option<seq<Role>>)

  /** The reducer actions the page dispatches. The reducer itself is not part
      of this model, so an action is only recorded. */
  datatype Action =
    | ResetProps
    | SetRequestError(errorMessage: Value, errorStatus: Value)

  /** The object handed to Formik's `setErrors`. */
  datatype FormErrors =
    | ErrorMessage(message: Value)
    | ApiErrors(apiErrors: Value)

  /** A value written to the session store together with its `remember` flag. */
  datatype Stored<T> = Stored(value: T, remember: Value)

  datatype Request = Request(url: string, body: Fields)

  /** The arguments of one `auth.set(value, key, isLocalStorage)` call. What the
      session store then does with them is library code outside this model. */
  datatype AuthSetCall = AuthSetCall(value: bool, key: string, isLocalStorage: bool)

  /** One call on a collaborator, in the order the page makes it. */
  datatype Effect =
    | SetSubmitting(on: bool)                  // Formik setSubmitting
    | Post(url: string, body: Fields)          // useFetchClient().post
    | ChangeLocale(locale: Value)              // useLocales().changeLocale
    | SetToken(token: Value, remember: Value)  // auth.setToken
    | SetUserInfo(user: User, remember: Value) // auth.setUserInfo
    | Push(to: Location)                       // history.push
    | Dispatch(action: Action)                 // reducer dispatch
    | SetErrors(errors: FormErrors)            // Formik setErrors
    | TrackUsage(event: string)                // useTracking().trackUsage
    | SetHasAdmin(hasAdmin: bool)              // the parent's setHasAdmin
    | AuthSet(call: AuthSetCall)               // auth.set
    | SetSkipped(skipped: bool)                // useGuidedTour().setSkipped

  /** What the collaborators hold: the observable state of one page. */
  datatype Page = Page(
    submitting: bool,
    formErrors: Option<FormErrors>,
    dispatched: seq<Action>,
    token: Option<Stored<Value>>,
    userInfo: Option<Stored<User>>,
    locale: Option<Value>,
    history: seq<Location>,
    tracked: seq<string>,
    hasAdmin: bool,
    authSets: seq<AuthSetCall>,
    tourSkipped: bool,
    requests: seq<Request>)

  /** The state after one call: each call writes its own part of the page and nothing else. */
  function Step(s: Page, e: Effect): Page
  {
    match e
    case SetSubmitting(on) => s.(submitting := on)
    case Post(url, body) => s.(requests := s.requests + [Request(url, body)])
    case ChangeLocale(locale) => s.(locale := Some(locale))
    case SetToken(token, remember) => s.(token := Some(Stored(token, remember)))
    case SetUserInfo(user, remember) => s.(userInfo := Some(Stored(user, remember)))
    case Push(to) => s.(history := s.history + [to])
    case Dispatch(action) => s.(dispatched := s.dispatched + [action])
    case SetErrors(errors) => s.(formErrors := Some(errors))
    case TrackUsage(event) => s.(tracked := s.tracked + [event])
    case SetHasAdmin(hasAdmin) => s.(hasAdmin := hasAdmin)
    case AuthSet(call) => s.(authSets := s.authSets + [call])
    case SetSkipped(skipped) => s.(tourSkipped := skipped)
  }

  /** What one call writes: each call changes its own part of the page (a flag
      or value is overwritten, a log gets the call's argument appended) and
      every other part is left as it was. */
  lemma StepWrites(s: Page, e: Effect)
    ensures Step(s, e).submitting == if e.SetSubmitting? then e.on else s.submitting
    ensures Step(s, e).requests == s.requests + if e.Post? then [Request(e.url, e.body)] else []
    ensures Step(s, e).locale == if e.ChangeLocale? then Some(e.locale) else s.locale
    ensures Step(s, e).token == if e.SetToken? then Some(Stored(e.token, e.remember)) else s.token
    ensures Step(s, e).userInfo == if e.SetUserInfo? then Some(Stored(e.user, e.remember)) else s.userInfo
    ensures Step(s, e).history == s.history + if e.Push? then [e.to] else []
    ensures Step(s, e).dispatched == s.dispatched + if e.Dispatch? then [e.action] else []
    ensures Step(s, e).formErrors == if e.SetErrors? then Some(e.errors) else s.formErrors
    ensures Step(s, e).tracked == s.tracked + if e.TrackUsage? then [e.event] else []
    ensures Step(s, e).hasAdmin == if e.SetHasAdmin? then e.hasAdmin else s.hasAdmin
    ensures Step(s, e).authSets == s.authSets + if e.AuthSet? then [e.call] else []
    ensures Step(s, e).tourSkipped == if e.SetSkipped? then e.skipped else s.tourSkipped
  {
  }

  /** The state after a sequence of calls made one after another. */
  function Run(s: Page, es: seq<Effect>): Page
    decreases |es|
  {
    if es == [] then s else Run(Step(s, es[0]), es[1..])
  }

  /** Running one call is taking one step. */
  lemma RunOne(s: Page, e: Effect)
    ensures Run(s, [e]) == Step(s, e)
  {
    assert [e][1..] == [];
  }

  lemma Run2(s: Page, a: Effect, b: Effect)
    ensures Run(s, [a, b]) == Step(Step(s, a), b)
  {
    assert [a, b] == [a] + [b];
    RunOne(Step(s, a), b);
  }

  lemma Run3(s: Page, a: Effect, b: Effect, c: Effect)
    ensures Run(s, [a, b, c]) == Step(Step(Step(s, a), b), c)
  {
    assert [a, b, c] == [a] + [b, c];
    Run2(Step(s, a), b, c);
  }

  lemma Run4(s: Page, a: Effect, b: Effect, c: Effect, d: Effect)
    ensures Run(s, [a, b, c, d]) == Step(Step(Step(Step(s, a), b), c), d)
  {
    assert [a, b, c, d] == [a] + [b, c, d];
    Run3(Step(s, a), b, c, d);
  }

  /** Running two sequences one after the other is running their concatenation. */
  lemma {:induction false} RunAppend(s: Page, a: seq<Effect>, b: seq<Effect>)
    ensures Run(s, a + b) == Run(Run(s, a), b)
    decreases |a|
  {
    if a == [] {
      assert a + b == b;
    } else {
      assert (a + b)[0] == a[0];
      assert (a + b)[1..] == a[1..] + b;
      RunAppend(Step(s, a[0]), a[1..], b);
    }
  }

  /** Regrouping a concatenation, stated once so that long proofs need not search for it. */
  lemma Regroup(a: seq<Effect>, b: seq<Effect>, c: seq<Effect>)
    ensures a + b + c == a + (b + c)
  {
  }
}
