/** What the login and signup forms render from their `error` and `loading` state. */
module AuthForms {
  import opened Wrappers

  /** The error banner, if any, and the submit button's disabled flag and caption. */
  datatype FormView = FormView(errorBanner: Option<string>, buttonDisabled: bool, buttonLabel: string)

  /** The banner shows only a non-empty error; the button is disabled exactly while loading. */
  function Render(error: string, loading: bool, idleLabel: string, busyLabel: string): (v: FormView)
    ensures v.errorBanner.Some? <==> error != ""
    ensures v.errorBanner.Some? ==> v.errorBanner.value == error
    ensures v.buttonDisabled <==> loading
    ensures v.buttonLabel == if loading then busyLabel else idleLabel
  {
    FormView(if error != "" then Some(error) else None, loading, if loading then busyLabel else idleLabel)
  }
}
