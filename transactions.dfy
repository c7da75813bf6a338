/**
 * The transactions page: the filter fields and the query built from them,
 * the fetched list with its loading flag, deletion, the table body, and the
 * form that creates a transaction.
 */
module Transactions {
  import opened Wrappers
  import Seqs
  import Api

  /** The fixed category list offered by the filter and by the form. */
  const CATEGORIES: seq<string> := ["Food", "Travel", "Rent", "Shopping", "Entertainment", "Misc", "Income"]

  /**
   * A transaction as the list endpoint returns it; `id` is the record's `_id`.
   * Amounts and dates are not interpreted.
   */
  datatype Transaction = Transaction(id: string, txType: string, category: string, amount: real, date: string, description: string)

  /** The five filter inputs; the empty string means "not set". */
  datatype Filter = Filter(txType: string, category: string, startDate: string, endDate: string, search: string)

  const NO_FILTER := Filter("", "", "", "", "")

  // ---------------------------------------------------------------------------
  // The query: URLSearchParams as a sequence of (name, value) pairs.

  type Param = (string, string)

  function Names(q: seq<Param>): (r: seq<string>)
    ensures |r| == |q| && forall i :: 0 <= i < |q| ==> r[i] == q[i].0
  {
    Seqs.Map((p: Param) => p.0, q)
  }

  /** URLSearchParams.get: the value of the first pair with this name. */
  function Get(q: seq<Param>, name: string): Option<string>
  {
    if q == [] then None else if q[0].0 == name then Some(q[0].1) else Get(q[1..], name)
  }

  function RemoveName(q: seq<Param>, name: string): seq<Param>
  {
    if q == [] then [] else (if q[0].0 == name then [] else [q[0]]) + RemoveName(q[1..], name)
  }

  function ReplaceFirst(q: seq<Param>, name: string, value: string): seq<Param>
  {
    if q == [] then []
    else if q[0].0 == name then [(name, value)] + RemoveName(q[1..], name)
    else [q[0]] + ReplaceFirst(q[1..], name, value)
  }

  /**
   * URLSearchParams.set: the first pair with this name takes the value and the
   * others with it are dropped; a name not yet present is appended.
   */
  function SetParam(q: seq<Param>, name: string, value: string): seq<Param>
  {
    if name in Names(q) then ReplaceFirst(q, name, value) else q + [(name, value)]
  }

  /** One `if (field) q.set(name, field)` line of the builder. */
  function SetIfPresent(q: seq<Param>, name: string, value: string): seq<Param>
  {
    if value != "" then SetParam(q, name, value) else q
  }

  /** The memoized query, built as the page builds it. */
  function BuildQuery(f: Filter): seq<Param>
  {
    var q1 := SetIfPresent([], "type", f.txType);
    var q2 := SetIfPresent(q1, "category", f.category);
    var q3 := SetIfPresent(q2, "startDate", f.startDate);
    var q4 := SetIfPresent(q3, "endDate", f.endDate);
    SetIfPresent(q4, "search", f.search)
  }

  /** The reference: every filter field under its parameter name, in the fixed order. */
  function FilterFields(f: Filter): seq<Param>
  {
    [("type", f.txType), ("category", f.category), ("startDate", f.startDate), ("endDate", f.endDate), ("search", f.search)]
  }

  function Present(p: Param): seq<Param>
  {
    if p.1 != "" then [p] else []
  }

  /** The pairs whose value is non-empty, in their original order. */
  function NonEmpty(ps: seq<Param>): seq<Param>
  {
    if ps == [] then [] else Present(ps[0]) + NonEmpty(ps[1..])
  }

  /** Position of a parameter name in the fixed order type, category, startDate, endDate, search. */
  function Rank(name: string): nat
  {
    if name == "type" then 0
    else if name == "category" then 1
    else if name == "startDate" then 2
    else if name == "endDate" then 3
    else if name == "search" then 4
    else 5
  }

  predicate Ascending(q: seq<Param>)
  {
    forall i, j :: 0 <= i < j < |q| ==> Rank(q[i].0) < Rank(q[j].0)
  }

  /** The builder's step for a name ranked after every name already present: an append. */
  lemma StepAppends(q: seq<Param>, name: string, value: string)
    requires forall k :: 0 <= k < |q| ==> Rank(q[k].0) < Rank(name)
    ensures SetIfPresent(q, name, value) == q + Present((name, value))
  {
    assert name !in Names(q);
  }

  /** The builder's steps, one `SetIfPresent` per pair of `ps`, in order. */
  function SetEach(q: seq<Param>, ps: seq<Param>): seq<Param>
    decreases |ps|
  {
    if ps == [] then q else SetEach(SetIfPresent(q, ps[0].0, ps[0].1), ps[1..])
  }

  /** The five lines of the builder are its steps over the filter fields. */
  lemma BuildQueryStepsOverFields(f: Filter)
    ensures BuildQuery(f) == SetEach([], FilterFields(f))
  {
    var ps := FilterFields(f);
    var q1 := SetIfPresent([], "type", f.txType);
    var q2 := SetIfPresent(q1, "category", f.category);
    var q3 := SetIfPresent(q2, "startDate", f.startDate);
    var q4 := SetIfPresent(q3, "endDate", f.endDate);
    assert SetEach(q4, ps[4..]) == BuildQuery(f) by { assert ps[4..][1..] == []; }
    assert SetEach(q3, ps[3..]) == SetEach(q4, ps[4..]) by { assert ps[3..][1..] == ps[4..]; }
    assert SetEach(q2, ps[2..]) == SetEach(q3, ps[3..]) by { assert ps[2..][1..] == ps[3..]; }
    assert SetEach(q1, ps[1..]) == SetEach(q2, ps[2..]) by { assert ps[1..][1..] == ps[2..]; }
    assert SetEach([], ps) == SetEach(q1, ps[1..]);
  }

  /** Appending a pair ranked at least `r` to names ranked below `r` leaves every name ranked at most the pair's. */
  lemma AppendKeepsRanksBelow(q: seq<Param>, p: Param, r: int)
    requires forall k :: 0 <= k < |q| ==> Rank(q[k].0) < r
    requires r <= Rank(p.0)
    ensures forall k :: 0 <= k < |q + Present(p)| ==> Rank((q + Present(p))[k].0) < Rank(p.0) + 1
  {
  }

  /** The tail of an ascending sequence is ascending and ranked above its head. */
  lemma AscendingTail(ps: seq<Param>)
    requires Ascending(ps) && ps != []
    ensures Ascending(ps[1..])
    ensures forall m :: 0 <= m < |ps[1..]| ==> Rank(ps[0].0) + 1 <= Rank(ps[1..][m].0)
  {
    assert forall m :: 0 <= m < |ps[1..]| ==> ps[1..][m] == ps[m + 1];
  }

  /** One step of the builder over a name ranked after every name present. */
  lemma SetEachStep(q: seq<Param>, ps: seq<Param>, r: int)
    requires ps != []
    requires forall k :: 0 <= k < |q| ==> Rank(q[k].0) < r
    requires r <= Rank(ps[0].0)
    ensures SetEach(q, ps) == SetEach(q + Present(ps[0]), ps[1..])
  {
    StepAppends(q, ps[0].0, ps[0].1);
  }

  lemma NonEmptyStep(q: seq<Param>, ps: seq<Param>)
    requires ps != []
    ensures (q + Present(ps[0])) + NonEmpty(ps[1..]) == q + NonEmpty(ps)
  {
  }

  /**
   * Steps over names in ascending rank, all ranked at least `r`, after names
   * all ranked below `r`, append the non-empty pairs.
   */
  lemma {:induction false} SetEachAppends(q: seq<Param>, ps: seq<Param>, r: int)
    requires Ascending(ps)
    requires forall k :: 0 <= k < |q| ==> Rank(q[k].0) < r
    requires forall m :: 0 <= m < |ps| ==> r <= Rank(ps[m].0)
    ensures SetEach(q, ps) == q + NonEmpty(ps)
    decreases |ps|
  {
    if ps != [] {
      SetEachStep(q, ps, r);
      AppendKeepsRanksBelow(q, ps[0], r);
      AscendingTail(ps);
      SetEachAppends(q + Present(ps[0]), ps[1..], Rank(ps[0].0) + 1);
      NonEmptyStep(q, ps);
    }
  }

  /** The builder emits exactly the non-empty filter fields, in the fixed order. */
  lemma BuildQueryKeepsNonEmptyFields(f: Filter)
    ensures BuildQuery(f) == NonEmpty(FilterFields(f))
  {
    BuildQueryStepsOverFields(f);
    FilterFieldsAscending(f);
    SetEachAppends([], FilterFields(f), 0);
    assert [] + NonEmpty(FilterFields(f)) == NonEmpty(FilterFields(f));
  }

  lemma {:induction false} NonEmptyMembers(ps: seq<Param>, p: Param)
    ensures p in NonEmpty(ps) <==> p in ps && p.1 != ""
  {
    if ps != [] {
      NonEmptyMembers(ps[1..], p);
      assert ps == [ps[0]] + ps[1..];
    }
  }

  lemma {:induction false} NonEmptyAscending(ps: seq<Param>)
    requires Ascending(ps)
    ensures Ascending(NonEmpty(ps))
  {
    if ps != [] {
      var rest := NonEmpty(ps[1..]);
      NonEmptyAscending(ps[1..]);
      forall k | 0 <= k < |rest|
        ensures Rank(ps[0].0) < Rank(rest[k].0)
      {
        NonEmptyMembers(ps[1..], rest[k]);
      }
    }
  }

  lemma {:induction false} NonEmptyIsEmpty(ps: seq<Param>)
    ensures NonEmpty(ps) == [] <==> forall i :: 0 <= i < |ps| ==> ps[i].1 == ""
  {
    if ps != [] {
      NonEmptyIsEmpty(ps[1..]);
      if ps[0].1 == "" {
        forall i | 0 < i < |ps| ensures ps[i].1 == ps[1..][i - 1].1 { }
      }
    }
  }

  /** Query parameters appear in the order type, category, startDate, endDate, search, each at most once. */
  lemma QueryInFixedOrder(f: Filter)
    ensures Ascending(BuildQuery(f))
  {
    BuildQueryKeepsNonEmptyFields(f);
    FilterFieldsAscending(f);
    NonEmptyAscending(FilterFields(f));
  }

  lemma FilterFieldsAscending(f: Filter)
    ensures Ascending(FilterFields(f))
  {
    var ps := FilterFields(f);
    assert Rank(ps[0].0) == 0 && Rank(ps[1].0) == 1 && Rank(ps[2].0) == 2 && Rank(ps[3].0) == 3 && Rank(ps[4].0) == 4;
    assert forall i :: 0 <= i < |ps| ==> Rank(ps[i].0) == i;
  }

  /** A filter field appears in the query exactly when it is non-empty, and then with its own value. */
  lemma QueryCarriesNonEmptyFields(f: Filter, i: nat)
    requires i < 5
    ensures Get(BuildQuery(f), FilterFields(f)[i].0) == if FilterFields(f)[i].1 != "" then Some(FilterFields(f)[i].1) else None
  {
    var ps := FilterFields(f);
    var p := ps[i];
    var q := BuildQuery(f);
    BuildQueryKeepsNonEmptyFields(f);
    QueryInFixedOrder(f);
    GetInAscending(q, p.0);
    if p.1 != "" {
      NonEmptyMembers(ps, p);
    } else {
      forall k | 0 <= k < |q| ensures q[k].0 != p.0 {
        NonEmptyMembers(ps, q[k]);
        SameNameSameField(f, q[k], i);
      }
    }
  }

  /** Each parameter name occurs once among the filter fields. */
  lemma SameNameSameField(f: Filter, p: Param, i: nat)
    requires i < 5 && p in FilterFields(f)
    ensures p.0 == FilterFields(f)[i].0 ==> p == FilterFields(f)[i]
  {
  }

  /** In a query with distinct names, Get finds the pair with that name, or nothing. */
  lemma {:induction false} GetInAscending(q: seq<Param>, name: string)
    requires Ascending(q)
    ensures forall k :: 0 <= k < |q| && q[k].0 == name ==> Get(q, name) == Some(q[k].1)
    ensures (forall k :: 0 <= k < |q| ==> q[k].0 != name) ==> Get(q, name) == None
  {
    if q != [] {
      GetInAscending(q[1..], name);
      assert forall k :: 0 < k < |q| ==> q[k] == q[1..][k - 1];
    }
  }

  /** The query is empty exactly when all five filter fields are empty. */
  lemma QueryEmptyIffNoFilter(f: Filter)
    ensures BuildQuery(f) == [] <==> f == NO_FILTER
  {
    BuildQueryKeepsNonEmptyFields(f);
    NonEmptyIsEmpty(FilterFields(f));
    if f != NO_FILTER {
      assert exists i :: 0 <= i < 5 && FilterFields(f)[i].1 != "";
    }
  }

  /**
   * URLSearchParams.toString: `name=value` pairs joined by `&`. The
   * percent-encoding of names and values is the parameter `encode`.
   */
  function Serialize(q: seq<Param>, encode: string -> string): (s: string)
    ensures s == "" <==> q == []
  {
    if q == [] then ""
    else
      var pair := encode(q[0].0) + "=" + encode(q[0].1);
      if |q| == 1 then pair else pair + "&" + Serialize(q[1..], encode)
  }

  const LIST_PATH := "/transactions"

  /** The path the list request is sent to. */
  function RequestPath(f: Filter, encode: string -> string): string
  {
    var query := Serialize(BuildQuery(f), encode);
    LIST_PATH + (if query != "" then "?" + query else "")
  }

  /** The request path carries `?` and the query exactly when some filter field is set. */
  lemma RequestPathShape(f: Filter, encode: string -> string)
    ensures RequestPath(f, encode) == if f == NO_FILTER then LIST_PATH else LIST_PATH + "?" + Serialize(BuildQuery(f), encode)
  {
    QueryEmptyIffNoFilter(f);
  }

  function DeletePath(id: string): string
  {
    LIST_PATH + "/" + id
  }

  // ---------------------------------------------------------------------------
  // The table body.

  /** The cells of one table row, and the id its Delete button deletes. */
  datatype Row = Row(date: string, txType: string, category: string, amount: real, description: string, deleteId: string)

  datatype TableBody = LoadingRow | NoTransactionsRow | Rows(rows: seq<Row>)

  function RowOf(tx: Transaction): Row
  {
    Row(tx.date, tx.txType, tx.category, tx.amount, tx.description, tx.id)
  }

  /** The table shows the loading row first, else "No transactions" for an empty list, else one row per item in order. */
  function Table(loading: bool, items: seq<Transaction>): (b: TableBody)
    ensures b.LoadingRow? <==> loading
    ensures b.NoTransactionsRow? <==> !loading && items == []
    ensures b.Rows? ==> |b.rows| == |items| > 0
    ensures b.Rows? ==> forall i :: 0 <= i < |items| ==> b.rows[i].deleteId == items[i].id && b.rows[i] == RowOf(items[i])
  {
    if loading then LoadingRow
    else if |items| == 0 then NoTransactionsRow
    else Rows(Seqs.Map(RowOf, items))
  }

  // ---------------------------------------------------------------------------
  // The page's list state and the form.

  class TransactionForm {
    var txType: string
    var amount: string
    var category: string
    var date: string
    var description: string
    var loading: bool
    /** `Number()` of the amount input's text, which the number input keeps to a decimal numeral. */
    const number: string -> real
    /** The form's `loading` while the create request was in flight. */
    ghost var loadingDuringPost: bool

    /** The form's initial fields; `today` is the current date the source reads from the clock. */
    constructor(today: string, number: string -> real)
      ensures txType == "expense" && amount == "" && category == "Food" && date == today && description == ""
      ensures category == CATEGORIES[0] && !loading && this.number == number
    {
      txType, amount, category, date, description := "expense", "", "Food", today, "";
      loading := false;
      this.number := number;
    }

    /**
     * Submitting: posts the fields with the amount as a number; on success
     * clears amount and description only and reports `created` (the
     * `onCreated` callback); `loading` is false afterwards whatever the
     * outcome. The amount input is `required`, so the browser submits only
     * with an amount entered.
     */
    method OnSubmit(api: Api.Client, reply: Api.Reply<Transaction>) returns (created: bool)
      requires amount != ""
      modifies this, api
      ensures api.log == old(api.log) + [Api.Post(LIST_PATH, Api.NewTransaction(txType, number(old(amount)), category, date, old(description)))]
      ensures created <==> reply.Ok?
      ensures created ==> amount == "" && description == ""
      ensures !created ==> amount == old(amount) && description == old(description)
      ensures txType == old(txType) && category == old(category) && date == old(date)
      ensures loadingDuringPost && !loading
    {
      loading := true;
      loadingDuringPost := loading;
      api.Send(Api.Post(LIST_PATH, Api.NewTransaction(txType, number(amount), category, date, description)));
      created := reply.Ok?;
      if created {
        amount := "";
        description := "";
      }
      loading := false;
    }
  }

  class TransactionsPage {
    var items: seq<Transaction>
    var loading: bool
    var filter: Filter
    const api: Api.Client
    /** The percent-encoding URLSearchParams applies to names and values. */
    const encode: string -> string

    constructor(api: Api.Client, encode: string -> string)
      ensures items == [] && loading && filter == NO_FILTER
      ensures this.api == api && this.encode == encode
    {
      items := [];
      loading := true;
      filter := NO_FILTER;
      this.api := api;
      this.encode := encode;
    }

    /** The rendered table body. */
    function View(): (b: TableBody)
      reads this
    {
      Table(loading, items)
    }

    /**
     * `fetchItems`: sets loading, requests the filtered list, and replaces
     * `items` wholesale with the response. There is no try/finally: when the
     * request rejects, `items` is kept and `loading` stays true.
     */
    method FetchItems(reply: Api.Reply<seq<Transaction>>) returns (ok: bool)
      modifies this, api
      ensures api.log == old(api.log) + [Api.Get(RequestPath(filter, encode))]
      ensures filter == old(filter)
      ensures ok <==> reply.Ok?
      ensures ok ==> items == reply.data && !loading
      ensures !ok ==> items == old(items) && loading
      ensures ok ==> View() == Table(false, reply.data)
      ensures !ok ==> View() == LoadingRow
    {
      loading := true;
      api.Send(Api.Get(RequestPath(filter, encode)));
      if reply.Failed? {
        return false;
      }
      items := reply.data;
      loading := false;
      ok := true;
    }

    /** `onDelete(id)`: the list is fetched again only once the delete request has resolved. */
    method OnDelete(id: string, deleteReply: Api.Reply<()>, fetchReply: Api.Reply<seq<Transaction>>) returns (refetched: bool)
      modifies this, api
      ensures refetched <==> deleteReply.Ok?
      ensures api.log == old(api.log) + [Api.Delete(DeletePath(id))] + (if refetched then [Api.Get(RequestPath(filter, encode))] else [])
      ensures filter == old(filter)
      ensures refetched && fetchReply.Ok? ==> items == fetchReply.data && !loading
      ensures refetched && fetchReply.Failed? ==> items == old(items) && loading
      ensures !refetched ==> items == old(items) && loading == old(loading)
    {
      api.Send(Api.Delete(DeletePath(id)));
      if deleteReply.Failed? {
        return false;
      }
      var _ := FetchItems(fetchReply);
      refetched := true;
    }

    /** Submitting the form, whose `onCreated` is this page's `fetchItems`. */
    method SubmitForm(form: TransactionForm, postReply: Api.Reply<Transaction>, fetchReply: Api.Reply<seq<Transaction>>)
      returns (created: bool)
      requires form.amount != ""
      modifies this, form, api
      ensures created <==> postReply.Ok?
      ensures created ==> form.amount == "" && form.description == ""
      ensures !created ==> form.amount == old(form.amount) && form.description == old(form.description)
      ensures form.txType == old(form.txType) && form.category == old(form.category) && form.date == old(form.date)
      ensures !form.loading
      ensures filter == old(filter)
      ensures api.log == old(api.log)
        + [Api.Post(LIST_PATH, Api.NewTransaction(form.txType, form.number(old(form.amount)), form.category, form.date, old(form.description)))]
        + (if created then [Api.Get(RequestPath(filter, encode))] else [])
      ensures created && fetchReply.Ok? ==> items == fetchReply.data && !loading
      ensures created && fetchReply.Failed? ==> items == old(items) && loading
      ensures !created ==> items == old(items) && loading == old(loading)
    {
      created := form.OnSubmit(api, postReply);
      if created {
        var _ := FetchItems(fetchReply);
      }
    }
  }

  /** The form's default category is on the fixed list of seven, which has no repeats. */
  lemma CategoriesFixed()
    ensures |CATEGORIES| == 7 && "Food" in CATEGORIES
    ensures forall i, j :: 0 <= i < j < |CATEGORIES| ==> CATEGORIES[i] != CATEGORIES[j]
  {
  }
}
