/** The "Add New Client" form: five text fields updated one at a time, and
    a submit that checks the four required ones before posting. */
module AddClientForm {
  import opened Js
  import ClientController

  /** The form's fields by name; every value is the text typed. */
  type TextForm = map<string, string>

  const InitialForm: TextForm :=
    map["fullName" := "", "idOrPassport" := "", "phone" := "", "address" := "", "licenseNumber" := ""]

  /** `!!formData[name]`. */
  predicate Filled(form: TextForm, name: string)
  {
    name in form && form[name] != ""
  }

  /** The form's check: name, phone, ID/passport and licence filled; the
      address may be left empty. */
  predicate RequiredFilled(form: TextForm)
  {
    Filled(form, "fullName") && Filled(form, "phone") && Filled(form, "idOrPassport") && Filled(form, "licenseNumber")
  }

  /** The untouched form is refused. */
  lemma InitialFormRefused()
    ensures !RequiredFilled(InitialForm)
  {
    assert InitialForm["fullName"] == "";
  }

  /** What the backend receives when the form is posted as JSON. */
  function Field(form: TextForm, name: string): Option<string>
  {
    if name in form then Some(form[name]) else None
  }

  function AsRequest(form: TextForm): ClientController.ClientRequest
  {
    ClientController.ClientRequest(
      Field(form, "fullName"), Field(form, "idOrPassport"), Field(form, "phone"),
      Field(form, "address"), Field(form, "licenseNumber"))
  }

  /** The form demands exactly the fields the backend demands: a posted
      form never fails the backend's required-field check, and a form the
      backend would accept is never stopped by the form. */
  lemma RequiredMatchesBackend(form: TextForm)
    ensures RequiredFilled(form) <==> ClientController.HasRequired(AsRequest(form))
  {
  }

  const FillRequired: string := "Please fill in all required fields"

  class ClientForm {
    var data: TextForm
    var error: string
    var loading: bool

    constructor ()
      ensures data == InitialForm && error == "" && !loading
    {
      data := InitialForm;
      error := "";
      loading := false;
    }

    /** `handleChange`: only the named field changes. */
    method HandleChange(name: string, value: string)
      modifies this
      ensures data == old(data)[name := value]
      ensures error == old(error) && loading == old(loading)
    {
      data := data[name := value];
    }

    /** `handleSubmit`: a form missing a required field shows the message
        and posts nothing; otherwise the form is posted as it is and closes
        only when the reply reports success. Loading ends false either way. */
    method Submit(reply: PostReply) returns (sent: Option<TextForm>, closed: bool)
      modifies this
      ensures sent.Some? <==> RequiredFilled(old(data))
      ensures sent.Some? ==> sent.value == old(data)
      ensures sent.None? ==> error == FillRequired && !closed
      ensures closed <==> sent.Some? && reply.Succeeded?
      ensures sent.Some? && reply.Succeeded? ==> error == ""
      ensures sent.Some? && reply.NotSucceeded? ==> error == ErrorText(reply.message, "Failed to add client")
      ensures sent.Some? && reply.Threw? ==> error == ErrorText(reply.message, "Failed to add client. Please try again.")
      ensures data == old(data) && !loading
    {
      error := "";
      loading := true;
      if !RequiredFilled(data) {
        error := FillRequired;
        loading := false;
        return None, false;
      }
      sent := Some(data);
      closed := false;
      match reply {
        case Succeeded =>
          closed := true;
        case NotSucceeded(m) =>
          error := ErrorText(m, "Failed to add client");
        case Threw(m) =>
          error := ErrorText(m, "Failed to add client. Please try again.");
      }
      loading := false;
    }
  }
}
