/** The "Add New Seed" form: one name, checked after trimming and sent as typed. */
module SeedCreate {
  import opened Js
  import opened Text

  /** The body of `POST /seeds`. */
  datatype SeedPayload = SeedPayload(name: string)

  const NameRequired := "Name required"

  /** The add-seed form's state. */
  class SeedCreateForm {
    var name: string
    var error: string

    constructor ()
      ensures name == "" && error == ""
    {
      name, error := "", "";
    }

    method EditName(value: string)
      modifies this`name
      ensures name == value
    {
      name := value;
    }

    /** `handleSubmit`: a blank name shows "Name required" and sends nothing;
        otherwise `{ name }` is sent untrimmed and the error is left as it was. */
    method HandleSubmit() returns (payload: Option<SeedPayload>)
      modifies this`error
      ensures payload.Some? <==> !IsBlank(name)
      ensures payload.Some? ==> payload.value == SeedPayload(name) && error == old(error)
      ensures payload.None? ==> error == NameRequired
    {
      TrimEmptyIffBlank(name);
      if Trim(name) == "" {
        error := NameRequired;
        return None;
      }
      return Some(SeedPayload(name));
    }

    /** `onError`: the request's message becomes the error. */
    method OnError(err: Thrown)
      modifies this`error
      ensures error == err.message
    {
      error := err.message;
    }
  }
}
