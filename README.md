# Expense tracker client: session, route gate, transactions and dashboard logic

This project models the logic under the React views of a single-page expense
tracker client, and proves properties of that model in Dafny:

- **Session manager** (`AuthProvider`). It holds the current user and a
  `loading` flag. Its state is backed by two `localStorage` entries, `'token'`
  and `'user'`. The mount effect restores a stored session. `login` and `signup`
  post to the authentication endpoints and store the result. `logout` clears
  both entries.
- **Route gate** (`Protected`) and the route table: whether a path shows the
  loading placeholder, redirects to `/login`, or shows its page. Paths are
  compared as the router compares them by default: without regard to ASCII
  case, and ignoring trailing slashes.
- **Transactions page**:
  - the query built from five filter fields with `URLSearchParams.set`
  - the list fetch and its `loading` flag
  - delete followed by a refetch
  - the three-way table body
  - the create form, with its defaults and its submit handler
- **Dashboard**: the all-or-nothing load of the three analytics results, and
  the pie and bar datasets projected from them.
- **Login and signup pages**: each submit handler's `error`, `loading` and
  navigation steps.

The model's parts:

- **Network calls** go through `Api.Client`, which logs every request issued.
  How each awaited request settles is an input of type `Api.Reply` (`Ok(data)`
  or `Failed`).
- **`localStorage`** is the `Browser.LocalStorage` class, holding a
  `map<string, string>`.
- **The stored user text** comes from `UserJson.Stringify` and `UserJson.Parse`.
  These are a concrete JSON writer and reader for the `{ id, name, email }`
  user record. That they are inverses is proved, not assumed.
- **Components whose state changes step by step** are classes whose methods
  follow the source's statement order. The route gate, the query builder, the
  table body and the chart datasets are functions.

Files: `wrappers.dfy` (Option), `seqs.dfy` (`Array.prototype.map`), `api.dfy`,
`browser.dfy`, `user_json.dfy`, `auth_context.dfy`, `app.dfy`,
`transactions.dfy`, `dashboard.dfy`, `auth_forms.dfy`, `login.dfy`,
`signup.dfy`.

## Behaviour as the code has it

Where the code differs from what a reader might expect of these components,
the model follows the code:

- **Initialize can leave `loading` set.** When both entries are present but
  `JSON.parse` throws on the user text, the mount effect stops before
  `setLoading(false)` (`AuthProvider.Initialize`, `completed == false`, with
  `loading` unchanged). The exception escapes the effect, and no error
  boundary sits above `AuthProvider`, so React unmounts the whole tree and the
  screen is blank. What is rendered after that is not modelled.
- **Empty entries count as absent.** An entry holding `""` is falsy. So a
  session whose token is the empty string is stored but not restored after a
  reload (`StoredSessionIsRestored`).
- **A failed list fetch leaves `loading` set.** `fetchItems` has no
  `try`/`finally`. When the request rejects, `items` is kept and `loading`
  stays true.
- **No stale-response guard.** Nothing drops the reply of a superseded fetch.
- **Little client-side validation.** The create form's amount input is
  `required`, so the browser submits only with an amount entered
  (`TransactionForm.OnSubmit` requires it). The amount is sent as
  `Number(amount)`; no other field is checked.
- **No rollback.** A delete or create that succeeds, followed by a refetch that
  fails, leaves the old list on screen.
- **Duplicate declarations in `src/App.jsx`.** It declares local `Dashboard`,
  `Transactions` and `Login` functions next to imports of the same names. The
  route table is therefore modelled by path and gate only.

## Model

| member | source | states |
|---|---|---|
| `AuthContext.AuthProvider.constructor` | src/context/AuthContext.jsx:6-8 | a new provider has no user and is loading |
| `AuthContext.AuthProvider.Initialize` | src/context/AuthContext.jsx:10-15 | sets the user only when both entries are present and non-empty and the user text parses; the user is otherwise left as it was; `loading` becomes false unless the user text fails to parse (where JSON.parse throws), in which case it is unchanged |
| `AuthContext.AuthProvider.CommitSession` | src/context/AuthContext.jsx:19-21 | writes the token under `'token'` and the stringified user under `'user'`, then sets the user; `loading` is untouched |
| `AuthContext.AuthProvider.Login` | src/context/AuthContext.jsx:17-22 | issues exactly one POST `/auth/login` with the credentials; on success stores both entries and sets the user; on a rejected request nothing changes; `loading` is untouched |
| `AuthContext.AuthProvider.Signup` | src/context/AuthContext.jsx:24-29 | the same as Login, against POST `/auth/signup` with name, email and password |
| `AuthContext.AuthProvider.Logout` | src/context/AuthContext.jsx:31-35 | removes exactly the two entries, sets the user to null, leaves `loading`, and issues no request |
| `AuthContext.StoredSessionIsRestored` | src/context/AuthContext.jsx:10-22 | entries written by login/signup restore that same user on the next load, except that an empty token restores nothing |
| `AuthContext.RestoredSessionWasStored` | src/context/AuthContext.jsx:11-13 | a restored user comes with a non-empty token, and its stored text is exactly the stringified user |
| `AuthContext.ClearedSessionIsNotRestored` | src/context/AuthContext.jsx:31-35 | after logout, a reload restores no session |
| `AuthContext.ClearSessionIdempotent` | src/context/AuthContext.jsx:31-35 | logging out twice leaves the same entries as logging out once |
| `AuthContext.OtherEntriesUntouched` | src/context/AuthContext.jsx:17-35 | storing or clearing a session leaves every entry other than `'token'` and `'user'` as it was |
| `AuthContext.StoredEntriesPresent` | src/context/AuthContext.jsx:19-20 | after a session is stored, `'token'` holds the token and `'user'` holds non-empty (truthy) text |
| `AuthContext.LoginThenReload` | src/context/AuthContext.jsx:10-22 | a login followed by a fresh provider on the same storage ends with the new provider holding the logged-in user and not loading |
| `UserJson.Stringify` | src/context/AuthContext.jsx:20 | the stored user text is never empty |
| `UserJson.ParseStringify` | src/context/AuthContext.jsx:13-20 | parsing the stringified user gives back that user |
| `UserJson.StringifyParse` | src/context/AuthContext.jsx:13-20 | any text that parses to a user is exactly the stringified user (the parser accepts only canonical text) |
| `App.Protected` | src/App.jsx:58-63 | loading shows the placeholder whatever the user; otherwise no user redirects to `/login` and a user shows the page; the three cases are exclusive |
| `App.NormalForm` | src/App.jsx:70-76 | the spelling the router compares is the path up to its trailing slashes, ASCII letters lower-cased; it has no upper-case letter and no trailing slash |
| `App.NormalizeIdempotent` | src/App.jsx:70-76 | normalizing a normalized path changes nothing |
| `App.TrailingSlashIgnored` | src/App.jsx:70-76 | a path with a slash appended compares as the path |
| `App.CaseIgnored` | src/App.jsx:70-76 | a path with its ASCII letters lower-cased compares as the path |
| `App.PatternsLowerCase` | src/App.jsx:71-75 | for every pattern of the table, comparing the trimmed pattern with the normalized path is comparing the two normal forms |
| `App.RouteTable` | src/App.jsx:70-76 | the five routes, by the path's normal form (`/` is the empty one); every other normal form matches nothing |
| `App.GatedPaths` | src/App.jsx:72-75 | exactly the spellings of `/dashboard` and `/transactions` are wrapped in the gate |
| `App.SpellingsRenderAlike` | src/App.jsx:70-76 | appending a slash or lower-casing a path renders the same screen |
| `App.GuardedPagesNeedUser` | src/App.jsx:58-75 | the dashboard or transactions page is shown only when not loading and a user is set |
| `App.OpenRoutes` | src/App.jsx:71-75 | `/` redirects to `/dashboard`; `/login` and `/signup` show their pages whatever the session |
| `App.UnknownPathsMatchNothing` | src/App.jsx:70-76 | a path that is no spelling of a route in the table renders no route |
| `Transactions.StepAppends` | src/pages/Transactions.jsx:17-21 | `URLSearchParams.set` on a name ranked after all present names appends it when the value is non-empty and is skipped when it is empty |
| `Transactions.BuildQueryStepsOverFields` | src/pages/Transactions.jsx:17-21 | the five `if (field) q.set(name, field)` lines are one set step per pair of the filter field table, in table order |
| `Transactions.SetEachAppends` | src/pages/Transactions.jsx:17-21 | set steps over names in strictly ascending order, none yet present, leave exactly the pairs with non-empty values, in order |
| `Transactions.BuildQueryKeepsNonEmptyFields` | src/pages/Transactions.jsx:15-23 | the built query equals the non-empty filter fields under their parameter names, in the order type, category, startDate, endDate, search |
| `Transactions.QueryInFixedOrder` | src/pages/Transactions.jsx:17-21 | query names are strictly ascending in that fixed order, so each appears at most once |
| `Transactions.QueryCarriesNonEmptyFields` | src/pages/Transactions.jsx:16-21 | a filter field is in the query iff it is non-empty, and then with its own value |
| `Transactions.QueryEmptyIffNoFilter` | src/pages/Transactions.jsx:15-23 | the query is empty iff all five filter fields are empty |
| `Transactions.Serialize` | src/pages/Transactions.jsx:22 | the query string is empty iff there are no pairs, whatever the encoding |
| `Transactions.RequestPathShape` | src/pages/Transactions.jsx:27 | the list request goes to `/transactions` when no filter is set, else to `/transactions?` followed by the query string |
| `Transactions.Table` | src/pages/Transactions.jsx:78-95 | the loading row iff loading; otherwise "No transactions" iff the list is empty; otherwise one row per item in order, each Delete button bound to its item's id |
| `Transactions.CategoriesFixed` | src/pages/Transactions.jsx:4 | the category list has seven distinct entries and includes the default `'Food'` |
| `Transactions.TransactionForm.constructor` | src/pages/Transactions.jsx:103-109 | the form starts with type `'expense'`, empty amount and description, category `'Food'` (the first category), today's date, not loading |
| `Transactions.TransactionForm.OnSubmit` | src/pages/Transactions.jsx:111-122 | with an amount entered, issues one POST `/transactions` with the form's fields and `Number(amount)` while loading; on success clears only amount and description and reports `onCreated`; on failure changes no field; `loading` is false at the end either way |
| `Transactions.TransactionsPage.constructor` | src/pages/Transactions.jsx:7-13 | the page starts with no items, loading, and every filter field empty |
| `Transactions.TransactionsPage.FetchItems` | src/pages/Transactions.jsx:25-30 | issues one GET to the filtered path; on success replaces `items` wholesale and clears `loading`; on failure keeps `items` and leaves `loading` true, so the table shows the loading row |
| `Transactions.TransactionsPage.OnDelete` | src/pages/Transactions.jsx:36-39 | issues DELETE `/transactions/<id>`; the refetch (and its GET) happens iff the delete resolves |
| `Transactions.TransactionsPage.SubmitForm` | src/pages/Transactions.jsx:63 | the form's submit with the page's `fetchItems` as `onCreated`: the list is fetched again iff the create request resolves |
| `Dashboard.DashboardPage.constructor` | src/pages/Dashboard.jsx:17-19 | totals start at zero and both lists start empty |
| `Dashboard.DashboardPage.LoadAnalytics` | src/pages/Dashboard.jsx:21-32 | all three GETs are issued; summary, byCategory and monthly are all updated iff all three resolve, and none is updated otherwise |
| `Dashboard.Pie` | src/pages/Dashboard.jsx:34-43 | labels and data have the length of `byCategory`, and pairing `labels[i]` with `data[i]` gives back `byCategory[i]` |
| `Dashboard.Bar` | src/pages/Dashboard.jsx:45-51 | labels, income and expense have the length of `monthly`; `labels[i]` is `M` followed by the month, and the income and expense series reassemble `monthly[i]` |
| `Dashboard.DecimalInjective` | src/pages/Dashboard.jsx:46 | distinct integers are written as distinct decimal texts |
| `Dashboard.DistinctMonthsDistinctLabels` | src/pages/Dashboard.jsx:46 | bars for distinct months carry distinct labels |
| `AuthForms.Render` | src/pages/Login.jsx:31-35 | the error banner shows iff the error is non-empty; the submit button is disabled iff loading, with the busy caption while loading |
| `Login.LoginPage.constructor` | src/pages/Login.jsx:8-11 | the form starts with empty fields and error, not loading, with no navigation |
| `Login.LoginPage.OnSubmit` | src/pages/Login.jsx:13-25 | while `login` runs, the error is cleared and the button disabled; the page navigates to `/dashboard` iff login succeeds, otherwise the error is `'Invalid credentials'`; loading is false in every outcome; the session changes as `Login` says |
| `Signup.SignupPage.constructor` | src/pages/Signup.jsx:8-12 | the form starts with empty fields and error, not loading, with no navigation |
| `Signup.SignupPage.OnSubmit` | src/pages/Signup.jsx:14-26 | while `signup` runs, the error is cleared and the button disabled; the page navigates to `/dashboard` iff signup succeeds, otherwise the error is `'Signup failed'`; loading is false in every outcome; the session changes as `Signup` says |

## Left out

- JSX markup, CSS classes, the `Layout` header and its links, and chart.js rendering. Colours and dataset captions are presentation.
- The HTTP client `src/lib/api` is not part of this model. How it attaches the bearer token, and its error objects, are not modelled. A request is a log entry, and its outcome is an input.
- Percent-encoding by `URLSearchParams` is a library call. Names and values are encoded by the page's `encode` parameter, which can be any function, so the path facts hold for every encoder.
- Number and date formatting are not modelled: `toFixed(2)`, `toLocaleDateString`, `toISOString().slice(0, 10)`. Amounts are `real`, and dates are opaque strings. `Number(amount)` is the form's `number` parameter, which can be any function of the amount text. The form's initial date is a constructor parameter.
- React hook scheduling is not modelled: effects running on mount, `fetchItems` re-running when the query changes, `useMemo` caching, render batching. The caller invokes `Initialize`, `FetchItems` and `LoadAnalytics`. The `Promise.all` parallelism is reduced to its sequential all-or-nothing outcome.
- A rejected promise that nobody catches is modelled as the method returning `false` with the state as the code leaves it.
- The `onChange` setters of the inputs are plain field assignments on the page objects.
- Context propagation (`useMemo` of the provider value, `useAuth`) is left out; pages receive the provider object directly.
- The `replace` flag of `<Navigate>` is not modelled.
- The placeholder `Dashboard`, `Transactions` and `Login` functions declared in `src/App.jsx` are left out.
- `Number` months that are not integers are left out: bar labels use the decimal text of an integer month.
- Dashboard.Decimal: writes every integer in full. A template literal writes a number of magnitude 1e21 or more in exponent form (`M1e+21`); months are taken to be safe integers.
- UserJson.EscapeChar: cannot write `JSON.stringify`'s `\uXXXX` escape of a lone surrogate, because Dafny strings hold only Unicode scalar values; the user's strings are taken to hold no lone surrogates.
- AuthContext.AuthProvider.Initialize: its "JSON.parse throws" case is `UserJson.Parse` failing, which also happens for texts `JSON.parse` accepts (`null`, whitespace, another member order, extra members). For those the code sets the user to the parsed value and clears `loading`, while the model keeps `loading` true and the user unchanged.
- AuthContext.AuthProvider.CommitSession: storage writes never fail in the model. `localStorage.setItem` can throw (a full quota, or storage blocked). If the `'user'` write throws, `'token'` is already written, the user is not set and `login` rejects, so the two entries are not written atomically; the model writes both or, on a rejected request, neither.
- App.RouteTable: `path` is the router's pathname. Percent-decoding of the pathname and a router basename are not modelled; case folding and trailing slashes are.
- UserJson.Parse: reads only the text `Stringify` writes, and fails on other JSON, which `JSON.parse` would accept. That includes whitespace, another member order, extra members, other escapes and `null`. The user record is `{ id, name, email }` with string members. So a server user of another shape, or an absent `data.user` (stored as `"undefined"`), is not modelled.
- AuthContext.AuthProvider.CommitSession: does not model `setItem`'s coercion of a non-string token to a string; the token is a string.
