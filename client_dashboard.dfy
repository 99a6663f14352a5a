/** The client dashboard: the notifications request that treats "not found" as
    an empty list, when the session's queries run, and the numbered rows. */
module ClientDashboard {
  import opened Js
  import opened Text
  import opened Envelope
  import opened SafeFetch
  import opened Dashboard

  const LandsTab := "lands"
  const NotificationsTab := "notifications"
  const ProfileTab := "profile"
  const InitialTab := LandsTab
  const CreateLandPath := "/client/land/create"

  const Tabs: seq<Tab> := [Tab(LandsTab, "lands"), Tab(NotificationsTab, "notifications"), Tab(ProfileTab, "profile")]

  /** The error texts `getNotifications` reads as "the backend has no such route". */
  predicate MeansNotFound(msg: string) {
    Contains(msg, "status 404") || Contains(msg, "Cannot GET") || Contains(msg, "404")
  }

  /** `getNotifications`: the list as `getUserLands` unwraps it; a failure whose
      message reads as "not found" becomes the empty list, any other is rethrown. */
  function GetNotifications(fetched: Result<Json>): (r: Result<Json>)
    ensures fetched.Ok? ==> r == ListResult(fetched)
    ensures fetched.Err? && MeansNotFound(fetched.error.message) ==> r == Ok(JArr([]))
    ensures fetched.Err? && !MeansNotFound(fetched.error.message) ==> r == fetched
  {
    match fetched
    case Ok(_) => ListResult(fetched)
    case Err(e) => if MeansNotFound(e.message) then Ok(JArr([])) else fetched
  }

  /** The `status 404` test adds nothing: any such message also contains `404`. */
  lemma StatusPhraseSubsumed(msg: string)
    ensures MeansNotFound(msg) <==> Contains(msg, "Cannot GET") || Contains(msg, "404")
  {
    if Contains(msg, "status 404") {
      ContainsIffOccurs("status 404", "404");
      assert OccursAt("status 404", "404", 7);
      ContainsTransitive(msg, "status 404", "404");
    }
  }

  /** A message with an empty text is never read as "not found", so it is rethrown. */
  lemma EmptyMessageRethrown(e: Thrown)
    requires e.message == ""
    ensures GetNotifications(Err(e)) == Err(e)
  {
    ContainsIffOccurs("", "status 404");
    ContainsIffOccurs("", "Cannot GET");
    ContainsIffOccurs("", "404");
  }

  /** A 404 page that is not JSON (the usual "Cannot GET" page) reaches the page as
      `Non-JSON response (status 404): …` and is shown as no notifications. */
  lemma NotFoundPageIsEmpty(res: Response)
    requires !DeclaresJson(res) && res.status == 404
    ensures GetNotifications(Classify(res)) == Ok(JArr([]))
  {
    var msg := NonJsonMessage(res.status, res.body);
    var head := "Non-JSON response (status ";
    assert IntToString(404) == "404";
    assert msg == head + "404" + "): " + Take(res.body, PreviewLength);
    assert msg[|head|..|head| + 3] == "404";
    assert OccursAt(msg, "404", |head|);
    ContainsIffOccurs(msg, "404");
  }

  /** Any other failure whose text mentions `404` is swallowed as well: a server
      error whose own message holds the digits is shown as no notifications. */
  lemma ServerErrorMentioning404IsEmpty(res: Response, text: string)
    requires DeclaresJson(res) && res.status == 500
    requires res.parsed == Some(JObj(map["error" := JStr(text)]))
    requires Contains(text, "404")
    ensures Classify(res) == Err(Error(text))
    ensures GetNotifications(Classify(res)) == Ok(JArr([]))
  {
  }

  /** `enabled: !!user?.id`: both of the page's queries run only for a session
      whose record carries a truthy `id`. */
  predicate QueryEnabled(user: Json) {
    TruthyOpt(Get(user, "id"))
  }

  /** The queries run exactly for a session record with a truthy `id`: a null
      user, a record without `id`, or an id of null, false, 0 or "" keeps them off. */
  lemma QueriesNeedTruthyId(user: Json)
    ensures QueryEnabled(user) <==> user.JObj? && "id" in user.fields && Truthy(user.fields["id"])
    ensures !(user.JObj? && "id" in user.fields) ==> !QueryEnabled(user)
    ensures user.JObj? && "id" in user.fields && user.fields["id"] in {JNull, JBool(false), JNum(0), JStr("")}
      ==> !QueryEnabled(user)
  {
  }

  /** A notifications row: its number and the record's `description`. */
  datatype NotificationRow = NotificationRow(number: nat, description: Option<Json>)

  /** `items.map((n, index) => … index + 1 … n.description …)`, numbering from `first`. */
  function NumberedFrom(items: seq<Json>, first: nat): seq<NotificationRow>
    decreases |items|
  {
    if items == [] then []
    else [NotificationRow(first, Get(items[0], "description"))] + NumberedFrom(items[1..], first + 1)
  }

  lemma {:induction false} NumberedFromPositions(items: seq<Json>, first: nat)
    ensures |NumberedFrom(items, first)| == |items|
    ensures forall i :: 0 <= i < |items| ==>
      NumberedFrom(items, first)[i] == NotificationRow(first + i, Get(items[i], "description"))
    decreases |items|
  {
    if items != [] {
      NumberedFromPositions(items[1..], first + 1);
    }
  }

  /** The notification table: one row per record, in list order, numbered from 1. */
  function NotificationRows(items: seq<Json>): (rows: seq<NotificationRow>)
    ensures |rows| == |items|
    ensures forall i :: 0 <= i < |rows| ==> rows[i].number == i + 1
    ensures forall i :: 0 <= i < |rows| ==> rows[i].description == Get(items[i], "description")
  {
    NumberedFromPositions(items, 1);
    NumberedFrom(items, 1)
  }

  /** The notifications tab's table: when the view is a table, its rows are the
      numbered notification records, none of them null. */
  lemma NotificationTableRows(q: Query)
    requires ListView(q).Table?
    ensures |NotificationRows(ListView(q).rows)| == |q.data.value.items|
    ensures forall i :: 0 <= i < |q.data.value.items| ==>
      !q.data.value.items[i].JNull? &&
      NotificationRows(ListView(q).rows)[i] == NotificationRow(i + 1, Get(q.data.value.items[i], "description"))
  {
    var rows := NotificationRows(ListView(q).rows);
    forall i | 0 <= i < |q.data.value.items|
      ensures NotificationRows(ListView(q).rows)[i] == NotificationRow(i + 1, Get(q.data.value.items[i], "description"))
    {
      assert rows[i].number == i + 1;
    }
  }

  /** The "+ Add Land" button, on the lands tab only. */
  function AddLandButton(activeTab: string): (to: Option<string>)
    ensures to.Some? <==> activeTab == LandsTab
    ensures to.Some? ==> to.value == CreateLandPath
  {
    if activeTab == LandsTab then Some(CreateLandPath) else None
  }

  /** The page opens on the lands tab, where the add button is shown. */
  lemma OpensWithAddLand()
    ensures InitialTab == Tabs[0].id
    ensures AddLandButton(InitialTab) == Some(CreateLandPath)
  {
  }
}
