/**
 * The table of authentication forms, keyed by the `authType` route segment
 * (login, register, register-admin, forgot-password, reset-password and
 * whatever the enterprise edition adds), and the values the page reads from
 * the active entry.
 */
module Forms {

  /** The part of a form descriptor the submit logic uses. The validation
      schema and the rendered component are passed through untouched and are
      not modelled. */
  datatype Form = Form(
    endPoint: string,
    fieldsToOmit: set<string>,
    fieldsToDisable: set<string>,
    inputsPrefix: string)

  /** The five `authType` values the page handles itself. */
  const Login := "login"
  const Register := "register"
  const RegisterAdmin := "register-admin"
  const ForgotPassword := "forgot-password"
  const ResetPassword := "reset-password"

  type FormTable = map<string, Form>

  /** The `combine` option given to `useEnterprise`: the enterprise table is
      spread over the community table, so an enterprise entry replaces the
      community entry of the same key and community-only keys stay. */
  function Combine(ceForms: FormTable, eeForms: FormTable): (r: FormTable)
    ensures forall key :: key in r <==> key in ceForms || key in eeForms
    ensures forall key :: key in eeForms ==> r[key] == eeForms[key]
    ensures forall key :: key in ceForms && key !in eeForms ==> r[key] == ceForms[key]
  {
    ceForms + eeForms
  }

  /** `/admin/${endPoint}` where `endPoint` comes from `forms?.[authType] ?? {}`:
      a missing form leaves `endPoint` undefined, which the template literal
      prints as "undefined". */
  function RequestUrl(forms: FormTable, authType: string): (url: string)
    ensures |url| >= 7 && url[..7] == "/admin/"
    ensures authType in forms ==> url[7..] == forms[authType].endPoint
    ensures authType !in forms ==> url[7..] == "undefined"
  {
    "/admin/" + (if authType in forms then forms[authType].endPoint else "undefined")
  }

  /** `fieldsToOmit` of the active form; lodash `omit` with an undefined key list
      removes nothing. */
  function FieldsToOmit(forms: FormTable, authType: string): set<string>
  {
    if authType in forms then forms[authType].fieldsToOmit else {}
  }
}
