/** The "Add Recommendation" form: all four fields must be non-empty (no
    trimming), and the form's field names are mapped to the backend's. */
module RecommendationCreate {
  import opened Js
  import opened Text

  /** The body of `POST /recommendations`. */
  datatype RecPayload = RecPayload(name: string, description: string, recType: string, seedId: JsNumber)

  /** The activity types the type selector offers; the first is the default. */
  const RecTypes: seq<string> := ["Watering", "Fertilization", "PestControl"]
  const DefaultRecType := "Watering"
  const AllFieldsRequired := "All fields required"

  /** `!name || !desc || !type || !seedId`: some field is the empty string. */
  predicate MissingField(name: string, desc: string, recType: string, seedId: string) {
    name == "" || desc == "" || recType == "" || seedId == ""
  }

  /** The payload for a complete form, renaming `desc`, `type` and `seedId`. */
  function PayloadFor(name: string, desc: string, recType: string, seedId: string, number: string -> JsNumber)
    : (p: RecPayload)
    ensures p.name == name && p.description == desc && p.recType == recType && p.seedId == number(seedId)
  {
    RecPayload(name, desc, recType, number(seedId))
  }

  /** White space counts as content: a form whose fields are all blank but not
      empty is complete, though each field trims to nothing. */
  lemma WhitespaceCountsAsFilled(name: string, desc: string, recType: string, seedId: string)
    requires IsBlank(name) && IsBlank(desc) && IsBlank(recType) && IsBlank(seedId)
    requires name != "" && desc != "" && recType != "" && seedId != ""
    ensures !MissingField(name, desc, recType, seedId)
    ensures Trim(name) == "" && Trim(desc) == "" && Trim(recType) == "" && Trim(seedId) == ""
  {
    TrimEmptyIffBlank(name);
    TrimEmptyIffBlank(desc);
    TrimEmptyIffBlank(recType);
    TrimEmptyIffBlank(seedId);
  }

  /** The add-recommendation form's state. */
  class RecCreateForm {
    var name: string
    var desc: string
    var recType: string
    var seedId: string
    var error: string

    constructor ()
      ensures name == "" && desc == "" && recType == DefaultRecType && seedId == "" && error == ""
      ensures recType in RecTypes
    {
      name, desc, recType, seedId, error := "", "", DefaultRecType, "", "";
    }

    method EditName(value: string)
      modifies this`name
      ensures name == value
    {
      name := value;
    }

    method EditDescription(value: string)
      modifies this`desc
      ensures desc == value
    {
      desc := value;
    }

    method SelectType(value: string)
      requires value in RecTypes
      modifies this`recType
      ensures recType == value
    {
      recType := value;
    }

    method SelectSeed(value: string)
      modifies this`seedId
      ensures seedId == value
    {
      seedId := value;
    }

    /** `handleSubmit`: an incomplete form shows "All fields required" and sends
        nothing; a complete one sends the payload and leaves the error as it was. */
    method HandleSubmit(number: string -> JsNumber) returns (payload: Option<RecPayload>)
      modifies this`error
      ensures payload.Some? <==> !MissingField(name, desc, recType, seedId)
      ensures payload.Some? ==> payload.value == PayloadFor(name, desc, recType, seedId, number) && error == old(error)
      ensures payload.None? ==> error == AllFieldsRequired
    {
      if name == "" || desc == "" || recType == "" || seedId == "" {
        error := AllFieldsRequired;
        return None;
      }
      return Some(RecPayload(name, desc, recType, number(seedId)));
    }

    /** `onError`: the request's message is shown. */
    method OnError(err: Thrown)
      modifies this`error
      ensures error == err.message
    {
      error := err.message;
    }
  }
}
