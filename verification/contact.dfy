/**
 * The contact form: six text fields edited one at a time, and a submit that
 * posts the form, then, depending on how the request went, clears the form
 * and shows a confirmation, keeps the form silently, or keeps it and shows
 * an error. The request itself is outside the model: its result is the
 * `Outcome` the submit is completed with.
 */
module Contact {
  import opened Wrappers

  /** The `name` attributes of the form's six inputs. */
  datatype Field = Name | Email | Company | Phone | WasteType | Message

  datatype FormData = FormData(name: string, email: string, company: string,
                               phone: string, wasteType: string, message: string)
  {
    /** `formData[field]` */
    function Get(f: Field): string
    {
      match f
      case Name => name
      case Email => email
      case Company => company
      case Phone => phone
      case WasteType => wasteType
      case Message => message
    }

    /** `{ ...formData, [field]: value }` */
    function With(f: Field, value: string): (r: FormData)
      ensures r.Get(f) == value
      ensures forall g :: g != f ==> r.Get(g) == Get(g)
    {
      match f
      case Name => this.(name := value)
      case Email => this.(email := value)
      case Company => this.(company := value)
      case Phone => this.(phone := value)
      case WasteType => this.(wasteType := value)
      case Message => this.(message := value)
    }
  }

  /** The form as it mounts, and as a successful submit leaves it. */
  const EmptyForm: FormData := FormData("", "", "", "", "", "")

  predicate IsCleared(form: FormData)
  {
    forall f :: form.Get(f) == ""
  }

  /** The inputs marked `required`: the browser submits only when these are filled. */
  predicate RequiredFilled(form: FormData)
  {
    form.name != "" && form.email != "" && form.company != ""
  }

  /**
   * How the POST ended: the server answered with a `success` flag, or the
   * request threw, possibly carrying the server's `message`.
   */
  datatype Outcome = Answered(success: bool) | Threw(serverMessage: Option<string>)

  /** A notification shown after a submit. */
  datatype Toast = Toast(title: string, description: string, destructive: bool)

  const SuccessTitle: string := "Request Submitted Successfully!"
  const SuccessDescription: string := "Our team will contact you within 24 hours."
  const FailureTitle: string := "Submission Failed"
  const GenericFailure: string := "Please try again later."

  /**
   * `error.response?.data?.message || "Please try again later."`: the
   * server's message when there is one and it is not the empty string
   * (which JavaScript's `||` treats as absent), else the generic text.
   */
  function ErrorDescription(serverMessage: Option<string>): (r: string)
    ensures r != ""
    ensures serverMessage.Some? && serverMessage.value != "" ==> r == serverMessage.value
    ensures serverMessage.None? || serverMessage.value == "" ==> r == GenericFailure
  {
    if serverMessage.Some? && serverMessage.value != "" then serverMessage.value else GenericFailure
  }

  /** The form after the submit completes with `outcome`. */
  function FormAfter(form: FormData, outcome: Outcome): FormData
  {
    if outcome.Answered? && outcome.success then EmptyForm else form
  }

  /** The notification the submit shows, if any. */
  function ToastAfter(outcome: Outcome): Option<Toast>
  {
    match outcome
    case Answered(success) =>
      if success then Some(Toast(SuccessTitle, SuccessDescription, false)) else None
    case Threw(serverMessage) =>
      Some(Toast(FailureTitle, ErrorDescription(serverMessage), true))
  }

  /** A successful answer clears every field and confirms. */
  lemma SuccessClears(form: FormData)
    ensures IsCleared(FormAfter(form, Answered(true)))
    ensures ToastAfter(Answered(true)) == Some(Toast(SuccessTitle, SuccessDescription, false))
  {
  }

  /** An answer without `success` keeps the form and shows nothing. */
  lemma UnsuccessfulAnswerIsSilent(form: FormData)
    ensures FormAfter(form, Answered(false)) == form
    ensures ToastAfter(Answered(false)).None?
  {
  }

  /** A failed request keeps every field and shows a destructive notification with a non-empty text. */
  lemma FailureKeepsForm(form: FormData, serverMessage: Option<string>)
    ensures FormAfter(form, Threw(serverMessage)) == form
    ensures ToastAfter(Threw(serverMessage)).Some?
    ensures var t := ToastAfter(Threw(serverMessage)).value;
            t.title == FailureTitle && t.destructive && t.description != ""
  {
  }

  /** The form is cleared exactly when the server reports success. */
  lemma ClearedIffSuccess(form: FormData, outcome: Outcome)
    requires RequiredFilled(form)
    ensures IsCleared(FormAfter(form, outcome)) <==> outcome == Answered(true)
  {
    if outcome != Answered(true) {
      assert FormAfter(form, outcome).Get(Name) != "";
    }
  }

  /**
   * The two end-to-end cases: Jane Doe's request against a server that
   * answers `{success: true}`, and against one that fails with
   * `{message: "Server error"}`.
   */
  lemma JaneDoeScenario()
    ensures var jane := EmptyForm.With(Name, "Jane Doe").With(Email, "jane@co.com").With(Company, "Acme");
            && IsCleared(FormAfter(jane, Answered(true)))
            && ToastAfter(Answered(true)).value.title == SuccessTitle
            && FormAfter(jane, Threw(Some("Server error"))) == jane
            && jane.name == "Jane Doe" && jane.email == "jane@co.com" && jane.company == "Acme"
            && ToastAfter(Threw(Some("Server error"))).value.description == "Server error"
  {
  }

  /** The contact section's two state hooks. */
  class ContactForm {
    var formData: FormData
    var isSubmitting: bool

    /** All six fields start empty and no submit is in flight. */
    constructor ()
      ensures formData == EmptyForm && IsCleared(formData) && !isSubmitting
    {
      formData := EmptyForm;
      isSubmitting := false;
    }

    /** `handleChange`: one input's new value replaces that field only. */
    method HandleChange(field: Field, value: string)
      modifies this
      ensures formData.Get(field) == value
      ensures forall g :: g != field ==> formData.Get(g) == old(formData).Get(g)
      ensures isSubmitting == old(isSubmitting)
    {
      formData := formData.With(field, value);
    }

    /** The first half of `handleSubmit`: mark the submit in flight and send the form. */
    method BeginSubmit() returns (payload: FormData)
      requires RequiredFilled(formData)
      modifies this
      ensures isSubmitting
      ensures payload == formData && formData == old(formData)
    {
      isSubmitting := true;
      payload := formData;
    }

    /** The second half of `handleSubmit`, once the request has ended with `outcome`. */
    method CompleteSubmit(outcome: Outcome) returns (toast: Option<Toast>)
      modifies this
      ensures !isSubmitting
      ensures formData == FormAfter(old(formData), outcome)
      ensures toast == ToastAfter(outcome)
    {
      toast := None;
      match outcome {
        case Answered(success) =>
          if success {
            toast := Some(Toast(SuccessTitle, SuccessDescription, false));
            formData := EmptyForm;
          }
        case Threw(serverMessage) =>
          toast := Some(Toast(FailureTitle, ErrorDescription(serverMessage), true));
      }
      isSubmitting := false;
    }

    /** The submit button is disabled, and reads "Submitting...", exactly while a submit is in flight. */
    method SubmitButton() returns (disabled: bool, caption: string)
      ensures disabled <==> isSubmitting
      ensures caption == if isSubmitting then "Submitting..." else "Submit Request"
    {
      disabled := isSubmitting;
      caption := if isSubmitting then "Submitting..." else "Submit Request";
    }
  }
}
