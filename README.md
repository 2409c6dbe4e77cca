# Strapi admin authentication page — a verified model

This project models the submit and redirect logic of Strapi's admin
authentication page (`packages/core/admin/admin/src/pages/AuthPage/index.js`):

- the form table that merges the Community Edition forms with the Enterprise
  Edition ones;
- the guard evaluated before a form is rendered;
- `handleSubmit` and its four request handlers (`loginRequest`,
  `registerRequest`, `forgotPasswordRequest`, `resetPasswordRequest`);
- `redirectToPreviousLocation`.

The page talks to collaborators: Formik's `setSubmitting`/`setErrors`, the HTTP
client, the router history, the reducer's `dispatch`, the session store
(`auth`), the locale provider, usage tracking, the guided tour and the parent's
`setHasAdmin`. Each call on one of them is an `Effect`. `Effects.Step` gives
the page state after one call, and `Effects.Run` the state after a sequence of
calls.

Modules:

- `JsValues` (`values.dfy`) — JavaScript values and the operations the page
  applies to them:
  - truthiness;
  - property access that throws a `TypeError` on `undefined`/`null`;
  - lodash `get` and `omit`.
- `Forms` (`forms.dfy`) — the form table, the CE/EE `combine`, and the request
  URL `/admin/${endPoint}`.
- `Redirects` (`redirects.dfy`) — the pre-render guard and the target of
  `redirectToPreviousLocation`.
- `Effects` (`effects.dfy`) — the collaborator calls, the observable `Page`
  state, and the `Step`/`Run` fold.
- `Handlers` (`handlers.dfy`) — one function per handler. Each gives the
  ordered calls the handler makes once the POST has settled.
- `Outcomes` (`outcomes.dfy`) — the state each handler leaves, in closed form,
  for every way its POST can end, plus what every submit guarantees.
- `Component` (`component.dfy`) — the page as a class `AuthPage`:
  - its fields are the collaborators' state plus the log of calls made;
  - its handler methods make the calls one at a time, as the page does;
  - each method is proved to make exactly the calls its `Handlers` function
    lists, and to leave `Run` of them as the new state.

  The `Outcomes` lemmas therefore describe the object after `HandleSubmit`.

The POST is not executed. Its outcome is an input: `Ok(token, user)` with the
`data.data` of the response, or `Err(response)` with the `response.data` of
the thrown error. `Err(None)` stands for an error without a response, such as
a network failure or a cancellation.

These library functions are parameters of the model (`Handlers.Env`):

- lodash `camelCase`;
- `String.prototype.toLowerCase`;
- `decodeURIComponent` (`None` stands for the `URIError` it throws);
- `formatAPIErrors`.

Three behaviours of the code are easy to misread:

- Login, inactive account. The `return` at line 152 is inside the `catch`
  (lines 137-156); the `finally` at lines 157-159 still runs after it, so
  `submitting` comes down on this branch too. `Outcomes.LoginFails` and
  `Outcomes.SubmitSettles` state this.
- Registration failure. The `catch` (lines 202-211) has no `finally` and never
  lowers `submitting`. It calls `setErrors` with the formatted API errors only
  when the error carries a response (line 205).
- Registration success. When `authType` is `register` and the body has no
  `userInfo`, reading `body.userInfo.news` at line 190 throws. The session was
  already stored, `submitting` lowered and `setHasAdmin(true)` called (lines
  171-175); the `catch` then tracks `didNotCreateFirstAdmin` and sets no error.

## Model

| member | source | states |
|---|---|---|
| JsValues.Truthy | packages/core/admin/admin/src/pages/AuthPage/index.js:129 | a value is truthy exactly when it is not one of `undefined`, `null`, `false`, `0` and `""`; every object is truthy |
| JsValues.Get | packages/core/admin/admin/src/pages/AuthPage/index.js:139-143 | lodash `get` on own entries: a non-empty path through a non-object gives the default; one step gives the object's own entry when present and not `undefined`, else the default; two steps give the entry's own entry when the first entry is an object holding a defined second one, else the default; an empty path always gives the default; a `null` found is kept |
| JsValues.Omit | packages/core/admin/admin/src/pages/AuthPage/index.js:87 | the result keeps exactly the keys not omitted, each with its original value |
| Forms.Combine | packages/core/admin/admin/src/pages/AuthPage/index.js:40-44 | the merged table has the keys of both; an EE form replaces the CE form of the same key; CE-only forms stay |
| Forms.RequestUrl | packages/core/admin/admin/src/pages/AuthPage/index.js:57-58 | the URL is `/admin/` followed by the form's endpoint, or by `undefined` when `authType` has no form |
| Redirects.Guard | packages/core/admin/admin/src/pages/AuthPage/index.js:263-279 | (corrected: a form exists only as an own entry of the table) home exactly when the form is missing, a first admin would be created twice, or a token exists; first-admin registration with the query string forwarded exactly when no admin exists and another form was asked for; otherwise the form renders |
| Redirects.GuardAsWritten | packages/core/admin/admin/src/pages/AuthPage/index.js:263-279 | the same three cases with the test `!forms[authType]` as written: a name inherited from `Object.prototype` counts as a present form |
| Redirects.InheritedNamePassesGuard | packages/core/admin/admin/src/pages/AuthPage/index.js:263-291 | with no token, `/auth/toString` renders a form under the guard as written (hence an undefined component at line 291) or, without an admin, goes to first-admin registration; the corrected guard sends it home |
| Redirects.GuardsAgreeOnOwnNames | packages/core/admin/admin/src/pages/AuthPage/index.js:263-279 | the two guards decide alike on every name except inherited ones absent from the table, and the corrected guard renders only forms the table has |
| Redirects.PostSuccessTarget | packages/core/admin/admin/src/pages/AuthPage/index.js:248-257 | only login honours `redirectTo`, and only when it is non-empty, decoding it; every other case goes to `/` |
| Handlers.FindRole | packages/core/admin/admin/src/pages/AuthPage/index.js:180 | no role is found exactly when no role has the code; a found role is the first with that code |
| Handlers.LoginErrorMessage | packages/core/admin/admin/src/pages/AuthPage/index.js:139-143 | the message shown is the response body's `error.message` when it is an object holding a defined one, and `Something went wrong` otherwise; never `undefined` |
| Handlers.LoginCatch | packages/core/admin/admin/src/pages/AuthPage/index.js:137-156 | an error without a response makes no call; a disabled account (the camel-cased, lower-cased message is `usernotactive`) pushes the oops page and dispatches `RESET_PROPS`; any other error sets that message on the form |
| Handlers.NewsOptIn | packages/core/admin/admin/src/pages/AuthPage/index.js:189-192 | throws exactly for `register` when `userInfo` is undefined or null; true exactly when the mode's own `news` field is `true` |
| Effects.StepWrites | packages/core/admin/admin/src/pages/AuthPage/index.js:85-257 | each collaborator call writes only its own part of the page: a flag or value is overwritten with the call's argument, a log gets it appended, and every other part is unchanged |
| Handlers.LoginEffects | packages/core/admin/admin/src/pages/AuthPage/index.js:121-160 | the request, with the omitted fields stripped, is the first call and `setSubmitting(false)` the last, whatever the outcome |
| Handlers.RegisterEffects | packages/core/admin/admin/src/pages/AuthPage/index.js:162-169 | `willCreateFirstAdmin` is tracked before the request, which is the second call |
| Handlers.ForgotPasswordEffects | packages/core/admin/admin/src/pages/AuthPage/index.js:107-119 | exactly three calls: the request, then the confirmation page on success or the `notification.error` message on any error, then `setSubmitting(false)` |
| Handlers.ResetPasswordBody | packages/core/admin/admin/src/pages/AuthPage/index.js:222 | the posted body is the form body plus `resetPasswordToken`, holding the `code` query parameter or `null` |
| Handlers.ResetPasswordEffects | packages/core/admin/admin/src/pages/AuthPage/index.js:214-246 | the request with the reset token is the first call and `setSubmitting(false)` the last |
| Handlers.HandlerEffects | packages/core/admin/admin/src/pages/AuthPage/index.js:87-104 | a handler runs exactly for the five known modes; it posts to the form's URL the body `PostedBody` gives |
| Handlers.SubmitEffects | packages/core/admin/admin/src/pages/AuthPage/index.js:85-86 | `setSubmitting(true)` comes first; for an unknown mode it is the only call |
| Outcomes.PushedTarget | packages/core/admin/admin/src/pages/AuthPage/index.js:248-257 | at most one location is pushed, and outside login it is `/` |
| Outcomes.LoginSucceeds | packages/core/admin/admin/src/pages/AuthPage/index.js:121-136 | after a successful login exactly these change: one request, the locale if the user has one, the session stored with `rememberMe`, the redirect target pushed (none if it cannot be decoded), `submitting` false |
| Outcomes.LoginFails | packages/core/admin/admin/src/pages/AuthPage/index.js:137-159 | no response: only the request and `submitting` false; inactive account: oops page pushed, `RESET_PROPS` dispatched, no form error, `submitting` false; otherwise the error message (or `Something went wrong`) on the form |
| Outcomes.TourRestarts | packages/core/admin/admin/src/pages/AuthPage/index.js:177-187 | for a super admin `auth.set(false, 'GUIDED_TOUR_SKIPPED', true)` is called, the tour's skipped flag cleared and `didLaunchGuidedtour` tracked; any other user changes none of them |
| Outcomes.RegisterRedirects | packages/core/admin/admin/src/pages/AuthPage/index.js:189-211 | news opt-in pushes `/usecase?hasAdmin=` with the rendered `hasAdmin`; no opt-in pushes `/`; a thrown news check pushes nothing and tracks `didNotCreateFirstAdmin` |
| Outcomes.RegisterSucceeds | packages/core/admin/admin/src/pages/AuthPage/index.js:162-201 | after a successful registration: one request, session stored without remember-me, `submitting` false, `hasAdmin` true, then the tour and redirect effects above, and nothing else |
| Outcomes.RegisterFails | packages/core/admin/admin/src/pages/AuthPage/index.js:202-211 | a failed registration tracks both events, shows the formatted API errors only when there is a response, and leaves `submitting` as it was |
| Outcomes.ForgotPasswordSettles | packages/core/admin/admin/src/pages/AuthPage/index.js:107-119 | success pushes the confirmation page and leaves the errors; any failure sets `notification.error`; `submitting` false either way |
| Outcomes.ResetPasswordSucceeds | packages/core/admin/admin/src/pages/AuthPage/index.js:214-230 | success stores the session without remember-me, pushes `/` and posts the body with the reset token |
| Outcomes.ResetPasswordFails | packages/core/admin/admin/src/pages/AuthPage/index.js:231-245 | with a response, the same message (default `Something went wrong`) goes to `SET_REQUEST_ERROR` with the status (default 400) and to the form; without one nothing but `submitting` false |
| Outcomes.SubmitUnknownMode | packages/core/admin/admin/src/pages/AuthPage/index.js:85-105 | for an `authType` with no handler, the only change is `submitting` true |
| Outcomes.SubmitSettles | packages/core/admin/admin/src/pages/AuthPage/index.js:85-105 | every known mode posts exactly one request, with the right URL and body; `submitting` stays up exactly for an unknown mode or a failed registration; the session changes only on a successful login, registration or reset, with the server's token, remembered only for login; a success never touches the form errors |
| Component.AuthPage.RedirectToPreviousLocation | packages/core/admin/admin/src/pages/AuthPage/index.js:248-257 | pushes the target, or reports the decoding error without pushing |
| Component.AuthPage.OnLoginError | packages/core/admin/admin/src/pages/AuthPage/index.js:137-156 | makes exactly the calls of the login `catch` |
| Component.AuthPage.LoginAttempt | packages/core/admin/admin/src/pages/AuthPage/index.js:122-156 | makes exactly the calls of the login `try` and `catch` after the request |
| Component.AuthPage.LoginRequest | packages/core/admin/admin/src/pages/AuthPage/index.js:121-160 | appends exactly `LoginEffects` to the log, and the new state is `Run` of them from the old one |
| Component.AuthPage.OnRegisterError | packages/core/admin/admin/src/pages/AuthPage/index.js:202-211 | makes exactly the calls of the registration `catch` |
| Component.AuthPage.RestartTour | packages/core/admin/admin/src/pages/AuthPage/index.js:177-187 | makes exactly the guided-tour calls, and only for a super admin |
| Component.AuthPage.LeaveRegistration | packages/core/admin/admin/src/pages/AuthPage/index.js:189-201 | makes exactly the news-check and redirect calls, or the `catch` when the check throws |
| Component.AuthPage.RegisterFinish | packages/core/admin/admin/src/pages/AuthPage/index.js:177-201 | makes exactly the tour and redirect calls of a successful registration |
| Component.AuthPage.RegisterRequest | packages/core/admin/admin/src/pages/AuthPage/index.js:162-212 | appends exactly `RegisterEffects` to the log, and the new state is `Run` of them |
| Component.AuthPage.ForgotPasswordRequest | packages/core/admin/admin/src/pages/AuthPage/index.js:107-119 | appends exactly `ForgotPasswordEffects` to the log, and the new state is `Run` of them |
| Component.AuthPage.ResetPasswordRequest | packages/core/admin/admin/src/pages/AuthPage/index.js:214-246 | appends exactly `ResetPasswordEffects` to the log, and the new state is `Run` of them |
| Component.AuthPage.HandleSubmit | packages/core/admin/admin/src/pages/AuthPage/index.js:85-105 | appends exactly `SubmitEffects` to the log, so the `Outcomes` lemmas describe the object's new state |

## Left out

- Rendering (lines 281-306), React hooks and the reducer's own transitions
  (`reducer.js` and `init.js` are not part of this model). Dispatched actions
  are only recorded.
- `handleChange` (`ON_CHANGE`) and the `RESET_PROPS` effect on an `authType`
  change (lines 70-83). They only feed the reducer.
- Request cancellation on unmount (lines 55-66). Awaiting the POST is replaced
  by its outcome as an input.
- The asynchronous loading of the EE forms and login component. `Combine` is
  the merge they are loaded with; the `null` rendered while loading is not
  modelled.
- The contents of the CE and EE `FORMS` tables. The model takes any table.
- `camelCase`, `toLowerCase`, `decodeURIComponent` and `formatAPIErrors`: their
  source is not part of this model, so they are parameters.
- `console.error` in the forgot-password `catch`.
- Arrays: `JsValues.Value` has no array variant, so an array response body
  (such as the `data` handed to `formatAPIErrors` at line 207) is not
  represented. lodash `get` on an array finds the default, as on an object
  without the key, so no modelled decision depends on it.
- JavaScript numbers beyond integers (NaN, fractions). Only a status code is
  ever read.
- Malformed success payloads: a response without `data.data`, or a `user`
  that is not an object. In login (lines 123-127),
  registration (lines 165-169) and password reset (lines 216-224) a response
  without `data.data` throws right after the request and is caught like an
  error without a response; forgot-password never reads the response (lines
  109-111), so it still pushes `/auth/forgot-password-success`. A `user` that is
  `null` throws at different points: in login at line 129, caught without a
  response before anything is stored; in registration only at line 177, after
  the session was stored, `submitting` lowered and `setHasAdmin(true)` called,
  and the `catch` then tracks `didNotCreateFirstAdmin`.
- What `auth.set`, `auth.setToken` and `auth.setUserInfo` do inside the
  session store library, which is not part of this model: `auth.set` calls are
  recorded with their arguments, and a token or user is taken as stored with
  its remember flag.
- A `roles` entry that is null, or a `roles` value that is truthy but not an
  array.
- JsValues.Get: a lookup, here and in `JsValues.Member`, finds only an
  object's own keys. Names inherited from `Object.prototype` (`constructor`,
  `toString`, …) and the properties of primitives (`length` of a string) are
  not modelled. The keys the page reads are `news`, `userInfo`, `rememberMe`,
  `error`, `message` and `statusCode`, none of them inherited or a primitive's
  property, so no modelled decision depends on this.
- JsValues.Omit: lodash `omit` also accepts deep paths (`a.b`). The model
  removes top-level keys only, so when a form's `fieldsToOmit` names a dotted
  path the body actually posted (for example the nested register values)
  may differ from the modelled one.
- Redirects.Guard: `auth.getToken()` is reduced to the truthiness of the
  stored token (`hasToken`). A form counts as present only when it is an own
  entry of the table; `Redirects.GuardAsWritten` keeps the names inherited
  from `Object.prototype` (`constructor`, `hasOwnProperty`, `isPrototypeOf`,
  `propertyIsEnumerable`, `toLocaleString`, `toString`, `valueOf`,
  `__proto__` and the four `__define…`/`__lookup…` accessors), which the test
  at line 263 finds truthy (see Findings).
- Handlers.FindRole: a role is reduced to its `code`. The other fields play
  no part in the decision.

## Findings

| source | as written | input that shows it | evidently intended | confidence | as-written member | corrected member |
|---|---|---|---|---|---|---|
| packages/core/admin/admin/src/pages/AuthPage/index.js:263 | `!forms[authType]` also finds the names every object inherits from `Object.prototype`, so they pass as existing forms | `/auth/toString`, no token, an admin exists: the form branch is taken and the component read at line 291 from the inherited function is undefined, so rendering fails; with no admin yet it is forwarded to `/auth/register-admin` | only the table's own forms pass; any other `authType` goes home | not executed | Redirects.GuardAsWritten, Redirects.InheritedNamePassesGuard | Redirects.Guard, Redirects.GuardsAgreeOnOwnNames |
