/**
 * The application's route table and the `Protected` gate that wraps the
 * pages needing a session. Pages are named, not modelled, here.
 */
module App {
  import opened Wrappers
  import opened UserJson
  import Seqs

  datatype Page = DashboardView | TransactionsView | LoginView | SignupView

  /** What a route's element is: a redirect, a page behind the gate, or a page shown as is. */
  datatype Element = Redirect(to: string) | Guarded(page: Page) | Plain(page: Page)

  /** What ends up on screen. */
  datatype Screen = LoadingPlaceholder | NavigateTo(path: string) | Show(page: Page)

  const LOGIN_PATH := "/login"

  /** The gate: the loading check comes first, then the user check. */
  function Protected(loading: bool, user: Option<UserRef>, page: Page): (s: Screen)
    ensures s == LoadingPlaceholder <==> loading
    ensures s == NavigateTo(LOGIN_PATH) <==> !loading && user.None?
    ensures s == Show(page) <==> !loading && user.Some?
  {
    if loading then LoadingPlaceholder
    else if user.None? then NavigateTo(LOGIN_PATH)
    else Show(page)
  }

  const ROUTES: seq<(string, Element)> := [
    ("/", Redirect("/dashboard")),
    ("/dashboard", Guarded(DashboardView)),
    ("/transactions", Guarded(TransactionsView)),
    (LOGIN_PATH, Plain(LoginView)),
    ("/signup", Plain(SignupView))
  ]

  /** ASCII upper-case letters in lower case; every other character as is. */
  function LowerAscii(c: char): char
  {
    if 'A' <= c <= 'Z' then (c as int - 'A' as int + 'a' as int) as char else c
  }

  /** The path without its trailing slashes. */
  function TrimTrailingSlashes(path: string): string
  {
    if path != [] && path[|path| - 1] == '/' then TrimTrailingSlashes(path[..|path| - 1]) else path
  }

  function Lower(s: string): string
  {
    if s == [] then [] else [LowerAscii(s[0])] + Lower(s[1..])
  }

  /**
   * The spelling the router compares. A route pattern matches whatever the
   * ASCII case of the pathname (`caseSensitive` is off by default) and with
   * any number of trailing slashes after it.
   */
  function Normalize(path: string): string
  {
    Lower(TrimTrailingSlashes(path))
  }

  /** No ASCII upper-case letter in `s`. */
  predicate NoUpper(s: string)
  {
    forall c :: c in s ==> !('A' <= c <= 'Z')
  }

  /** Trimming removes a suffix of slashes and leaves no slash at the end. */
  lemma {:induction false} TrimmedPrefix(path: string)
    ensures TrimTrailingSlashes(path) <= path
    ensures var t := TrimTrailingSlashes(path); t == [] || t[|t| - 1] != '/'
    ensures forall i :: |TrimTrailingSlashes(path)| <= i < |path| ==> path[i] == '/'
    decreases |path|
  {
    if path != [] && path[|path| - 1] == '/' {
      TrimmedPrefix(path[..|path| - 1]);
    }
  }

  lemma {:induction false} LowerAt(s: string)
    ensures |Lower(s)| == |s|
    ensures forall i :: 0 <= i < |s| ==> Lower(s)[i] == LowerAscii(s[i])
    ensures NoUpper(Lower(s))
  {
    if s != [] {
      LowerAt(s[1..]);
      assert Lower(s) == [LowerAscii(s[0])] + Lower(s[1..]);
    }
  }

  lemma {:induction false} LowerOfNoUpper(s: string)
    requires NoUpper(s)
    ensures Lower(s) == s
  {
    if s != [] {
      assert s[0] in s;
      assert forall c :: c in s[1..] ==> c in s;
      LowerOfNoUpper(s[1..]);
      assert s == [s[0]] + s[1..];
    }
  }

  /**
   * The normal form: no longer than the path, no upper-case letter, no
   * trailing slash, and the path's own letters, lower-cased, up to its
   * trailing slashes.
   */
  lemma NormalForm(path: string)
    ensures var n := Normalize(path);
      |n| <= |path| && NoUpper(n) && (n == [] || n[|n| - 1] != '/')
      && (forall i :: 0 <= i < |n| ==> n[i] == LowerAscii(path[i]))
      && (forall i :: |n| <= i < |path| ==> path[i] == '/')
  {
    var t := TrimTrailingSlashes(path);
    TrimmedPrefix(path);
    LowerAt(t);
    if t != [] {
      assert LowerAscii(t[|t| - 1]) != '/';
    }
  }

  /** A path with no upper-case letter and no trailing slash is its own normal form. */
  lemma AlreadyNormal(path: string)
    requires path == [] || path[|path| - 1] != '/'
    requires NoUpper(path)
    ensures Normalize(path) == path
  {
    LowerOfNoUpper(path);
  }

  lemma LowerPrefix(s: string, k: int)
    requires 0 <= k <= |s|
    ensures |Lower(s)| == |s| && Lower(s)[..k] == Lower(s[..k])
  {
    LowerAt(s);
    LowerAt(s[..k]);
  }

  /** Lower-casing does not create or remove slashes, so trimming and lower-casing commute. */
  lemma {:induction false} TrimLower(s: string)
    ensures TrimTrailingSlashes(Lower(s)) == Lower(TrimTrailingSlashes(s))
    decreases |s|
  {
    LowerAt(s);
    if s != [] {
      var k := |s| - 1;
      if s[k] == '/' {
        LowerPrefix(s, k);
        TrimLower(s[..k]);
      } else {
        assert Lower(s)[k] != '/';
      }
    }
  }

  /** The router ignores a trailing slash. */
  lemma TrailingSlashIgnored(path: string)
    ensures Normalize(path + "/") == Normalize(path)
  {
    assert (path + "/")[..|path|] == path;
  }

  /** The router ignores ASCII case. */
  lemma CaseIgnored(path: string)
    ensures Normalize(Lower(path)) == Normalize(path)
  {
    var t := TrimTrailingSlashes(path);
    TrimLower(path);
    LowerAt(t);
    LowerOfNoUpper(Lower(t));
  }

  /** Normalizing twice is normalizing once. */
  lemma NormalizeIdempotent(path: string)
    ensures Normalize(Normalize(path)) == Normalize(path)
  {
    NormalForm(path);
    AlreadyNormal(Normalize(path));
  }

  /**
   * The element of the first route whose pattern, without its trailing
   * slashes, is the normalized path. The table's patterns are written in
   * lower case, so this is the router's case-insensitive comparison
   * (`PatternsLowerCase`).
   */
  function Match(routes: seq<(string, Element)>, path: string): Option<Element>
  {
    if routes == [] then None
    else if TrimTrailingSlashes(routes[0].0) == Normalize(path) then Some(routes[0].1)
    else Match(routes[1..], path)
  }

  /** What the router shows for `path` given the session state; None when no route matches. */
  function Render(path: string, loading: bool, user: Option<UserRef>): Option<Screen>
  {
    match Match(ROUTES, path)
    case None => None
    case Some(Redirect(to)) => Some(NavigateTo(to))
    case Some(Guarded(page)) => Some(Protected(loading, user, page))
    case Some(Plain(page)) => Some(Show(page))
  }

  /** The table's patterns, without trailing slashes, have no upper-case letter. */
  lemma PatternsHaveNoUpper()
    ensures forall k :: 0 <= k < |ROUTES| ==> NoUpper(TrimTrailingSlashes(ROUTES[k].0))
  {
    assert TrimTrailingSlashes(ROUTES[0].0) == [];
  }

  /**
   * For the table's patterns, comparing the trimmed pattern with the
   * normalized path is the router's comparison of the two normal forms.
   */
  lemma PatternsLowerCase(k: int, path: string)
    requires 0 <= k < |ROUTES|
    ensures TrimTrailingSlashes(ROUTES[k].0) == Normalize(path) <==> Normalize(ROUTES[k].0) == Normalize(path)
  {
    PatternsHaveNoUpper();
    LowerOfNoUpper(TrimTrailingSlashes(ROUTES[k].0));
  }

  /** The route table, by the normalized path. */
  lemma RouteTable(path: string)
    ensures var n := Normalize(path);
      Match(ROUTES, path) ==
        if n == "" then Some(Redirect("/dashboard"))
        else if n == "/dashboard" then Some(Guarded(DashboardView))
        else if n == "/transactions" then Some(Guarded(TransactionsView))
        else if n == LOGIN_PATH then Some(Plain(LoginView))
        else if n == "/signup" then Some(Plain(SignupView))
        else None
  {
    var n := Normalize(path);
    var r4 := [("/signup", Plain(SignupView))];
    var r3 := [(LOGIN_PATH, Plain(LoginView))] + r4;
    var r2 := [("/transactions", Guarded(TransactionsView))] + r3;
    var r1 := [("/dashboard", Guarded(DashboardView))] + r2;
    assert ROUTES == [("/", Redirect("/dashboard"))] + r1;
    assert r4[1..] == [] && r3[1..] == r4 && r2[1..] == r3 && r1[1..] == r2 && ROUTES[1..] == r1;
    assert Match(r4, path) == if n == "/signup" then Some(Plain(SignupView)) else None;
    assert Match(r3, path) == if n == LOGIN_PATH then Some(Plain(LoginView)) else Match(r4, path);
    assert Match(r2, path) == if n == "/transactions" then Some(Guarded(TransactionsView)) else Match(r3, path);
    assert Match(r1, path) == if n == "/dashboard" then Some(Guarded(DashboardView)) else Match(r2, path);
  }

  /** Exactly the spellings of `/dashboard` and `/transactions` sit behind the gate. */
  lemma GatedPaths(path: string)
    ensures (Match(ROUTES, path).Some? && Match(ROUTES, path).value.Guarded?) <==> Normalize(path) in {"/dashboard", "/transactions"}
  {
    RouteTable(path);
  }

  /** Another ASCII letter case or a trailing slash renders the same screen. */
  lemma SpellingsRenderAlike(path: string, loading: bool, user: Option<UserRef>)
    ensures Render(path + "/", loading, user) == Render(path, loading, user)
    ensures Render(Lower(path), loading, user) == Render(path, loading, user)
  {
    TrailingSlashIgnored(path);
    CaseIgnored(path);
    RouteTable(path);
    RouteTable(path + "/");
    RouteTable(Lower(path));
  }

  /** The dashboard and the transactions page are shown only once loading is over and a user is set. */
  lemma GuardedPagesNeedUser(path: string, loading: bool, user: Option<UserRef>, page: Page)
    requires Render(path, loading, user) == Some(Show(page))
    requires page == DashboardView || page == TransactionsView
    ensures !loading && user.Some?
  {
    RouteTable(path);
  }

  /** `/` always redirects to `/dashboard`; `/login` and `/signup` show whatever the session. */
  lemma OpenRoutes(loading: bool, user: Option<UserRef>)
    ensures Render("/", loading, user) == Some(NavigateTo("/dashboard"))
    ensures Render(LOGIN_PATH, loading, user) == Some(Show(LoginView))
    ensures Render("/signup", loading, user) == Some(Show(SignupView))
  {
    assert Normalize("/") == "";
    PatternsHaveNoUpper();
    assert ROUTES[3].0 == LOGIN_PATH && ROUTES[4].0 == "/signup";
    AlreadyNormal(LOGIN_PATH);
    AlreadyNormal("/signup");
    RouteTable("/");
    RouteTable(LOGIN_PATH);
    RouteTable("/signup");
  }

  /** A path that is no spelling of a route in the table matches no route, whatever the session. */
  lemma UnknownPathsMatchNothing(path: string, loading: bool, user: Option<UserRef>)
    requires Normalize(path) !in {"", "/dashboard", "/transactions", LOGIN_PATH, "/signup"}
    ensures Render(path, loading, user) == None
  {
    RouteTable(path);
  }
}
