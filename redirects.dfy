/**
 * Where the authentication page sends the browser: the guard evaluated before
 * a form is rendered and the target chosen after a successful sign-in or
 * registration.
 */
module Redirects {
  import opened JsValues
  import opened Forms

  const Root := "/"
  const RegisterAdminPath := "/auth/register-admin"

  /** An argument of the router's `push` or `<Redirect to>`: a bare path, or a
      `{ pathname, search }` location. */
  datatype Location = Path(path: string) | PathSearch(pathname: string, search: string)

  /** What the page does before rendering. */
  datatype Decision = Redirect(to: Location) | RenderForm

  /** The pre-render guard. `hasToken` is the truthiness of the token the
      session store already holds; `search` is the current query string. */
  function Guard(forms: FormTable, authType: string, hasAdmin: bool, hasToken: bool, search: string): (d: Decision)
    // Home wins over everything: unknown form, a second first-admin, or a signed-in user.
    ensures d == Redirect(Path(Root)) <==>
              authType !in forms || (hasAdmin && authType == RegisterAdmin) || hasToken
    // Without an admin every other form is replaced by first-admin registration,
    // forwarding the query string unchanged.
    ensures d == Redirect(PathSearch(RegisterAdminPath, search)) <==>
              authType in forms && !hasToken && !hasAdmin && authType != RegisterAdmin
    // So a form renders exactly when it exists, nobody is signed in, and it is
    // the first-admin form precisely when no admin exists yet.
    ensures d == RenderForm <==>
              authType in forms && !hasToken && (hasAdmin <==> authType != RegisterAdmin)
  {
    if authType !in forms || (hasAdmin && authType == RegisterAdmin) || hasToken then
      Redirect(Path(Root))
    else if !hasAdmin && authType != RegisterAdmin then
      Redirect(PathSearch(RegisterAdminPath, search))
    else
      RenderForm
  }

  /** The names every plain JavaScript object inherits from `Object.prototype`.
      Looking one of them up on the form table finds a function (or, for
      `__proto__`, the prototype itself), never a form, and both are truthy. */
  const ObjectPrototypeKeys: set<string> :=
    {"constructor", "hasOwnProperty", "isPrototypeOf", "propertyIsEnumerable",
     "toLocaleString", "toString", "valueOf", "__proto__", "__defineGetter__",
     "__defineSetter__", "__lookupGetter__", "__lookupSetter__"}

  /** The truthiness of `forms[authType]` as the page evaluates it: an own entry
      or an inherited name. */
  predicate LookupTruthy(forms: FormTable, authType: string)
  {
    authType in forms || authType in ObjectPrototypeKeys
  }

  /** The guard exactly as written, with the inherited names the test
      `!forms[authType]` lets through. */
  function GuardAsWritten(forms: FormTable, authType: string, hasAdmin: bool, hasToken: bool, search: string): (d: Decision)
    ensures d == Redirect(Path(Root)) <==>
              !LookupTruthy(forms, authType) || (hasAdmin && authType == RegisterAdmin) || hasToken
    ensures d == Redirect(PathSearch(RegisterAdminPath, search)) <==>
              LookupTruthy(forms, authType) && !hasToken && !hasAdmin && authType != RegisterAdmin
    ensures d == RenderForm <==>
              LookupTruthy(forms, authType) && !hasToken && (hasAdmin <==> authType != RegisterAdmin)
  {
    if !LookupTruthy(forms, authType) || (hasAdmin && authType == RegisterAdmin) || hasToken then
      Redirect(Path(Root))
    else if !hasAdmin && authType != RegisterAdmin then
      Redirect(PathSearch(RegisterAdminPath, search))
    else
      RenderForm
  }

  /** `/auth/toString` with nobody signed in: as written, the guard lets it
      through to rendering a form the table does not have (the component read
      from the inherited function is undefined), or, before the first admin
      exists, forwards it to first-admin registration; the guard this model
      uses sends it home in both cases. */
  lemma InheritedNamePassesGuard(forms: FormTable, search: string)
    requires "toString" !in forms
    ensures GuardAsWritten(forms, "toString", true, false, search) == RenderForm
    ensures GuardAsWritten(forms, "toString", false, false, search) == Redirect(PathSearch(RegisterAdminPath, search))
    ensures Guard(forms, "toString", true, false, search) == Redirect(Path(Root))
    ensures Guard(forms, "toString", false, false, search) == Redirect(Path(Root))
  {
    assert "toString" in ObjectPrototypeKeys;
  }

  /** The two guards differ only on inherited names: on every name the table
      has, and on every name that is neither an entry nor inherited, they
      decide alike; and only the guard this model uses never renders a form
      the table lacks. */
  lemma GuardsAgreeOnOwnNames(forms: FormTable, authType: string, hasAdmin: bool, hasToken: bool, search: string)
    ensures authType in forms || authType !in ObjectPrototypeKeys ==>
              GuardAsWritten(forms, authType, hasAdmin, hasToken, search) == Guard(forms, authType, hasAdmin, hasToken, search)
    ensures Guard(forms, authType, hasAdmin, hasToken, search) == RenderForm ==> authType in forms
  {
  }

  /** `query.get(name)`: the parameter's value, or none (JavaScript `null`). */
  function QueryGet(query: map<string, string>, name: string): Option<string>
  {
    if name in query then Some(query[name]) else None
  }

  /** The path `redirectToPreviousLocation` pushes. Only `login` honours the
      `redirectTo` parameter, and only when it is truthy (present and not
      empty); `decode` is `decodeURIComponent`, whose `None` is the `URIError`
      it throws on a malformed escape, in which case nothing is pushed. */
  function PostSuccessTarget(decode: string -> Option<string>, authType: string, query: map<string, string>): (r: Option<string>)
    ensures authType != Login ==> r == Some(Root)
    ensures r != Some(Root) ==>
              authType == Login && "redirectTo" in query && query["redirectTo"] != "" &&
              r == decode(query["redirectTo"])
    ensures authType == Login && "redirectTo" in query && query["redirectTo"] != "" ==>
              r == decode(query["redirectTo"])
  {
    if authType == Login then
      var redirectTo := QueryGet(query, "redirectTo");
      if redirectTo.Some? && redirectTo.value != "" then decode(redirectTo.value) else Some(Root)
    else
      Some(Root)
  }
}
