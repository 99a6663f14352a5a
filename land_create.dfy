/** The "Create Land" form: every field is checked, all errors are shown
    together, and only a clean form is sent to `POST /lands`. */
module LandCreate {
  import opened Js
  import opened Text

  datatype LandField = LocationNameField | SizeField | ServerField

  type Errors = map<LandField, string>

  /** The body of `POST /lands`. */
  datatype LandPayload = LandPayload(locationName: string, size: JsNumber, userId: Json)

  const LocationRequired := "Location name is required"
  const SizeNotPositive := "Size must be greater than 0"
  const SessionMissing := "User session not found. Please relogin."

  /** `!size || Number(size) <= 0`, where `number` is JavaScript's `Number()`. */
  predicate SizeRejected(size: string, number: string -> JsNumber) {
    size == "" || AtMostZero(number(size))
  }

  /** `user?.id` is truthy. */
  predicate HasSessionId(user: Json) {
    TruthyOpt(Get(user, "id"))
  }

  /** The errors `handleSubmit` collects, each field checked independently. */
  function LandErrors(locationName: string, size: string, number: string -> JsNumber, user: Json): (e: Errors)
    ensures LocationNameField in e <==> IsBlank(locationName)
    ensures SizeField in e <==> SizeRejected(size, number)
    ensures ServerField in e <==> !HasSessionId(user)
    ensures LocationNameField in e ==> e[LocationNameField] == LocationRequired
    ensures SizeField in e ==> e[SizeField] == SizeNotPositive
    ensures ServerField in e ==> e[ServerField] == SessionMissing
  {
    TrimEmptyIffBlank(locationName);
    (if Trim(locationName) == "" then map[LocationNameField := LocationRequired] else map[])
    + (if SizeRejected(size, number) then map[SizeField := SizeNotPositive] else map[])
    + (if !HasSessionId(user) then map[ServerField := SessionMissing] else map[])
  }

  /** `Number(size)` of a non-numeric text is NaN, and `NaN <= 0` is false: such a size
      passes the check and is sent. */
  lemma NaNSizeAccepted(size: string, number: string -> JsNumber)
    requires size != "" && number(size) == NaN
    ensures !SizeRejected(size, number)
  {
  }

  /** The create-land form's state. */
  class LandCreateForm {
    var locationName: string
    var size: string
    var errors: Errors

    constructor ()
      ensures locationName == "" && size == "" && errors == map[]
    {
      locationName := "";
      size := "";
      errors := map[];
    }

    method EditLocationName(value: string)
      modifies this`locationName
      ensures locationName == value
    {
      locationName := value;
    }

    method EditSize(value: string)
      modifies this`size
      ensures size == value
    {
      size := value;
    }

    /** `handleSubmit`: collects the errors one check at a time; any error replaces
        the shown errors and nothing is sent; otherwise the untrimmed name, the
        numeric size and the session's user id are sent. */
    method HandleSubmit(user: Json, number: string -> JsNumber) returns (payload: Option<LandPayload>)
      modifies this`errors
      ensures payload.Some? <==> !IsBlank(locationName) && !SizeRejected(size, number) && HasSessionId(user)
      ensures payload.Some? ==>
        user.JObj? && "id" in user.fields &&
        payload.value == LandPayload(locationName, number(size), user.fields["id"]) && errors == old(errors)
      ensures payload.None? ==> errors == LandErrors(locationName, size, number, user)
    {
      var newErrors: Errors := map[];
      if Trim(locationName) == "" {
        newErrors := newErrors[LocationNameField := LocationRequired];
      }
      if size == "" || AtMostZero(number(size)) {
        newErrors := newErrors[SizeField := SizeNotPositive];
      }
      if !TruthyOpt(Get(user, "id")) {
        newErrors := newErrors[ServerField := SessionMissing];
      }
      assert newErrors == LandErrors(locationName, size, number, user);
      if newErrors.Keys != {} {
        errors := newErrors;
        return None;
      }
      return Some(LandPayload(locationName, number(size), Get(user, "id").value));
    }

    /** `onError`: the message becomes the only error. */
    method OnError(err: Thrown)
      modifies this`errors
      ensures errors == map[ServerField := err.message]
    {
      errors := map[ServerField := err.message];
    }
  }
}
