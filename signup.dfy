/** The signup page's submit handler. */
module Signup {
  import opened Wrappers
  import Api
  import AuthContext
  import AuthForms

  const FAILURE_MESSAGE := "Signup failed"
  const IDLE_LABEL := "Sign Up"
  const BUSY_LABEL := "Creating..."
  const DASHBOARD_PATH := "/dashboard"

  class SignupPage {
    var name: string
    var email: string
    var password: string
    var error: string
    var loading: bool
    /** Every path passed to `navigate`, oldest first. */
    var navigations: seq<string>
    /** What the form showed while the signup request was in flight. */
    ghost var viewDuringCall: AuthForms.FormView

    constructor()
      ensures name == "" && email == "" && password == "" && error == "" && !loading && navigations == []
    {
      name, email, password, error := "", "", "", "";
      loading := false;
      navigations := [];
    }

    function View(): AuthForms.FormView
      reads this
    {
      AuthForms.Render(error, loading, IDLE_LABEL, BUSY_LABEL)
    }

    /**
     * Submitting: clears the error and sets loading before calling `signup`;
     * navigates to the dashboard iff the signup succeeds, shows the failure
     * message otherwise, and clears loading in every outcome.
     */
    method OnSubmit(auth: AuthContext.AuthProvider, reply: Api.Reply<AuthContext.AuthData>) returns (ok: bool)
      modifies this, auth, auth.storage, auth.api
      ensures viewDuringCall == AuthForms.FormView(None, true, BUSY_LABEL)
      ensures ok <==> reply.Ok?
      ensures navigations == old(navigations) + (if ok then [DASHBOARD_PATH] else [])
      ensures error == (if ok then "" else FAILURE_MESSAGE) && !loading
      ensures View() == AuthForms.FormView(if ok then None else Some(FAILURE_MESSAGE), false, IDLE_LABEL)
      ensures name == old(name) && email == old(email) && password == old(password)
      ensures auth.api.log == old(auth.api.log) + [Api.Post("/auth/signup", Api.Registration(name, email, password))]
      ensures ok ==> auth.user == Some(reply.data.user)
      ensures ok ==> auth.storage.entries == AuthContext.StoreSession(old(auth.storage.entries), reply.data)
      ensures !ok ==> auth.user == old(auth.user) && auth.storage.entries == old(auth.storage.entries)
      ensures auth.loading == old(auth.loading)
    {
      error := "";
      loading := true;
      viewDuringCall := View();
      ok := auth.Signup(name, email, password, reply);
      if ok {
        navigations := navigations + [DASHBOARD_PATH];
      } else {
        error := FAILURE_MESSAGE;
      }
      loading := false;
    }
  }
}
