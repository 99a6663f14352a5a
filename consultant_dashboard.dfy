/** The consultant dashboard: seed names shown next to recommendations, and the
    create button of each tab. */
module ConsultantDashboard {
  import opened Js
  import opened Text
  import opened Dashboard

  const RecommendationTab := "recommendation"
  const SeedTab := "seed"
  const ProfileTab := "profile"
  const InitialTab := RecommendationTab
  const LoadingName := "Loading..."

  const Tabs: seq<Tab> := [Tab(RecommendationTab, "recommendation"), Tab(SeedTab, "seed"), Tab(ProfileTab, "profile")]

  /** A row of the seeds list as `getSeedName` reads it. */
  datatype Seed = Seed(id: int, name: string)

  /** `seeds.find(s => s.id === id)`, as the index of the first match. */
  function FirstWithId(seeds: seq<Seed>, id: int): (r: Option<nat>)
    ensures r.Some? ==> r.value < |seeds| && seeds[r.value].id == id
    ensures r.Some? ==> forall j :: 0 <= j < r.value ==> seeds[j].id != id
    ensures r.None? ==> forall j :: 0 <= j < |seeds| ==> seeds[j].id != id
    decreases |seeds|
  {
    if seeds == [] then None
    else if seeds[0].id == id then Some(0)
    else
      match FirstWithId(seeds[1..], id)
      case None => None
      case Some(k) => Some(k + 1)
  }

  function UnknownSeed(id: int): string {
    "Unknown (ID: " + IntToString(id) + ")"
  }

  /** `getSeedName(id)`: "Loading..." until the seeds have arrived, then the name of
      the first seed with that id, else a text naming the id. */
  function SeedName(seeds: Option<seq<Seed>>, id: int): (name: string)
    ensures seeds.None? ==> name == LoadingName
    ensures seeds.Some? && (exists j :: 0 <= j < |seeds.value| && seeds.value[j].id == id) ==>
      exists j :: 0 <= j < |seeds.value| && seeds.value[j].id == id && name == seeds.value[j].name &&
        forall k :: 0 <= k < j ==> seeds.value[k].id != id
    ensures seeds.Some? && (forall j :: 0 <= j < |seeds.value| ==> seeds.value[j].id != id) ==>
      name == UnknownSeed(id)
  {
    if seeds.None? then LoadingName
    else
      match FirstWithId(seeds.value, id)
      case Some(j) => seeds.value[j].name
      case None => UnknownSeed(id)
  }

  /** Seeds that arrive later do not change a name already found: the first match wins. */
  lemma {:induction false} FirstMatchStable(a: seq<Seed>, b: seq<Seed>, id: int)
    requires FirstWithId(a, id).Some?
    ensures FirstWithId(a + b, id) == FirstWithId(a, id)
    decreases |a|
  {
    assert (a + b)[0] == a[0];
    if a[0].id != id {
      assert (a + b)[1..] == a[1..] + b;
      FirstMatchStable(a[1..], b, id);
    }
  }

  /** Seed names are found by id alone: with duplicated ids the earlier seed's
      name is shown. */
  lemma DuplicateIdShowsFirst(s1: Seed, s2: Seed)
    requires s1.id == s2.id
    ensures SeedName(Some([s1, s2]), s1.id) == s1.name
  {
  }

  /** The button above the tabs. */
  datatype CreateAction = CreateSeed | CreateRecommendation

  function CreatePath(a: CreateAction): string {
    match a
    case CreateSeed => "/consultant/seed/create"
    case CreateRecommendation => "/consultant/recommendation/create"
  }

  /** The seed tab offers "+ Create Seed", the recommendation tab "+ Create
      Recommendation", any other tab nothing. */
  function CreateButton(activeTab: string): (a: Option<CreateAction>)
    ensures a == Some(CreateSeed) <==> activeTab == SeedTab
    ensures a == Some(CreateRecommendation) <==> activeTab == RecommendationTab
    ensures a.None? <==> activeTab != SeedTab && activeTab != RecommendationTab
  {
    if activeTab == SeedTab then Some(CreateSeed)
    else if activeTab == RecommendationTab then Some(CreateRecommendation)
    else None
  }

  /** Every tab of the bar but the profile one carries a create button, and it
      leads to that tab's own form. */
  lemma CreateButtonPerTab(i: nat)
    requires i < |Tabs|
    ensures CreateButton(Tabs[i].id).Some? <==> Tabs[i].id != ProfileTab
    ensures CreateButton(Tabs[i].id).Some? ==>
      StartsWith(CreatePath(CreateButton(Tabs[i].id).value), "/consultant/" + Tabs[i].id + "/")
  {
  }
}
