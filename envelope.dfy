/** The ways the pages unwrap the backend's `{ success, data, error }` envelope
    once `fetchJson` has resolved (Ok) or rejected (Err). */
module Envelope {
  import opened Js

  /** `json?.data ?? fallback` */
  function DataOr(json: Json, fallback: Json): (r: Json)
    ensures Nullish(Get(json, "data")) ==> r == fallback
    ensures !Nullish(Get(json, "data")) ==> json.JObj? && r == json.fields["data"] && !r.JNull?
  {
    Coalesce(Get(json, "data"), fallback)
  }

  /** `getUsers`, `getSeeds`, `getRecommendations`, `getUserLands`:
      `return json?.data ?? []`, a rejection passing through unchanged. */
  function ListResult(fetched: Result<Json>): (r: Result<Json>)
    ensures r.Err? <==> fetched.Err?
    ensures r.Err? ==> r.error == fetched.error
    ensures r.Ok? ==> !r.value.JNull?
    ensures r.Ok? && Nullish(Get(fetched.value, "data")) ==> r.value == JArr([])
    ensures r.Ok? && !Nullish(Get(fetched.value, "data")) ==> Some(r.value) == Get(fetched.value, "data")
  {
    match fetched
    case Ok(json) => Ok(DataOr(json, JArr([])))
    case Err(e) => Err(e)
  }

  /** `createLandRequest`, `createRecRequest`, `createSeedRequest`:
      `return json?.data ?? json` (the payload if present, else the whole envelope). */
  function CreatedResult(fetched: Result<Json>): (r: Result<Json>)
    ensures r.Err? <==> fetched.Err?
    ensures r.Err? ==> r.error == fetched.error
    ensures r.Ok? && Nullish(Get(fetched.value, "data")) ==> r.value == fetched.value
    ensures r.Ok? && !Nullish(Get(fetched.value, "data")) ==> Some(r.value) == Get(fetched.value, "data")
  {
    match fetched
    case Ok(json) => Ok(DataOr(json, json))
    case Err(e) => Err(e)
  }

  /** `logoutUser`: `return json ?? true`. */
  function LogoutResult(fetched: Result<Json>): (r: Result<Json>)
    ensures r.Err? <==> fetched.Err?
    ensures r.Err? ==> r.error == fetched.error
    ensures r.Ok? ==> !r.value.JNull?
    ensures r.Ok? && !fetched.value.JNull? ==> r.value == fetched.value
    ensures r.Ok? && fetched.value.JNull? ==> r.value == JBool(true)
  {
    match fetched
    case Ok(json) => Ok(Coalesce(Some(json), JBool(true)))
    case Err(e) => Err(e)
  }

  /** `deleteUser`, `deleteSeed`, `deleteRecommendation`, `deleteLand`:
      await the request, then `return true`. */
  function DeleteResult(fetched: Result<Json>): (r: Result<bool>)
    ensures r.Err? <==> fetched.Err?
    ensures r.Err? ==> r.error == fetched.error
    ensures r.Ok? ==> r.value
  {
    match fetched
    case Ok(_) => Ok(true)
    case Err(e) => Err(e)
  }

  /** `if (!json?.success) throw new Error(json?.error || fallback); return json.data`:
      the success flag decides, the backend's error text wins over the fallback
      when it is truthy, and the payload may be `undefined` (None). */
  function RequireSuccess(json: Json, fallback: string): (r: Result<Option<Json>>)
    ensures r.Ok? <==> TruthyOpt(Get(json, "success"))
    ensures r.Ok? ==> r.value == Get(json, "data")
    ensures r.Err? ==> r.error.Error?
    ensures r.Err? && TruthyOpt(Get(json, "error")) ==> r.error.message == ToText(json.fields["error"])
    ensures r.Err? && !TruthyOpt(Get(json, "error")) ==> r.error.message == fallback
  {
    if !TruthyOpt(Get(json, "success")) then
      var err := Get(json, "error");
      Err(Error(if TruthyOpt(err) then ToText(err.value) else fallback))
    else
      Ok(Get(json, "data"))
  }
}
