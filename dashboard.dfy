/** What the three dashboards share: the if-chain that picks a list tab's view
    from its query state, the tab labels, and what a completed logout does. */
module Dashboard {
  import opened Js
  import opened Text
  import opened Envelope
  import opened Auth
  import RootRoute

  /** A query's state as a page reads it: `isLoading`, `error` (present exactly
      when `isError`) and `data` (None while undefined). */
  datatype Query = Query(isLoading: bool, error: Option<Thrown>, data: Option<Json>)

  /** What a list tab shows: a spinner, the error's message, the page's "nothing
      here" notice, a table with one row per element, or a render that throws
      (`.map` on something that is not an array, or a row reading `x.id` of a
      null element). */
  datatype View = Spinner | ErrorBox(message: string) | EmptyNotice | Table(rows: seq<Json>) | RenderThrows

  /** `x.length === 0` on a value of the backend's JSON. */
  predicate LengthIsZero(j: Json) {
    match j
    case JArr(items) => |items| == 0
    case JStr(s) => |s| == 0
    case JObj(_) => Get(j, "length") == Some(JNum(0))
    case _ => false
  }

  /** Every element has properties to read: none is null. */
  predicate NoNullElement(items: seq<Json>) {
    forall i :: 0 <= i < |items| ==> !items[i].JNull?
  }

  /** `if (isLoading) … if (isError) … if (data && data.length === 0) … return data.map(…)`,
      where every row reads its element's `id` for the row key. The cells' contents
      are not looked at: `Table` is the page's own code completing, for records whose
      displayed cells are scalars. */
  function ListView(q: Query): (v: View)
    ensures v == Spinner <==> q.isLoading
    ensures v.ErrorBox? <==> !q.isLoading && q.error.Some?
    ensures v.ErrorBox? ==> v == ErrorBox(q.error.value.message)
    ensures v == EmptyNotice <==>
      !q.isLoading && q.error.None? && q.data.Some? && Truthy(q.data.value) && LengthIsZero(q.data.value)
    ensures v.Table? <==>
      !q.isLoading && q.error.None? && q.data.Some? && q.data.value.JArr? && |q.data.value.items| > 0 &&
      NoNullElement(q.data.value.items)
    ensures v.Table? ==> v.rows == q.data.value.items && NoNullElement(v.rows)
    ensures v == RenderThrows <==> !q.isLoading && q.error.None? && v != EmptyNotice && !v.Table?
  {
    if q.isLoading then Spinner
    else if q.error.Some? then ErrorBox(q.error.value.message)
    else if q.data.Some? && Truthy(q.data.value) && LengthIsZero(q.data.value) then EmptyNotice
    else if q.data.Some? && q.data.value.JArr? && NoNullElement(q.data.value.items) then Table(q.data.value.items)
    else RenderThrows
  }

  /** A list holding a null element throws at that row's `id`. */
  lemma NullRowThrows(items: seq<Json>, i: nat)
    requires i < |items| && items[i].JNull?
    ensures ListView(Query(false, None, Some(JArr(items)))) == RenderThrows
  {
  }

  /** A settled list query whose request succeeded: an absent `data` shows the
      empty notice (the `?? []` fallback), and an array without null elements never
      reaches the throwing branch of the if-chain. */
  lemma SettledListView(fetched: Result<Json>)
    requires fetched.Ok?
    ensures Nullish(Get(fetched.value, "data")) ==>
      ListView(Query(false, None, Some(ListResult(fetched).value))) == EmptyNotice
    ensures ListResult(fetched).value.JArr? && NoNullElement(ListResult(fetched).value.items) ==>
      ListView(Query(false, None, Some(ListResult(fetched).value))) != RenderThrows
  {
  }

  /** An undefined `data` while neither loading nor failed (a query that has not
      run) falls through to `.map` and throws. */
  lemma UndefinedDataThrows()
    ensures ListView(Query(false, None, None)) == RenderThrows
  {
  }

  /** A tab button: its id and its label, which is shown through `Text.Capitalize`. */
  datatype Tab = Tab(id: string, title: string)

  /** Logout's `onSuccess`: the session is cleared, then the login page opens. */
  method AfterLogout(auth: AuthStore) returns (to: string)
    modifies auth
    ensures auth.user == JNull
    ensures to == RootRoute.LoginPath
  {
    auth.ClearUser();
    to := RootRoute.LoginPath;
  }
}
