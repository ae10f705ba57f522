/** The sign-up form: the field update of `handleInputChange` and the
    validation order of `handleSubmit`. The sign-up request itself is
    outside the model; its outcome is an input. */
module Register {
  import opened Js

  const PasswordMismatchText := "비밀번호가 일치하지 않습니다."
  const AgreementRequiredText := "이용약관에 동의해주세요."
  const ConnectionFailedText := "서버 연결에 실패했습니다. 다시 시도해주세요."

  /** A form field holds the input's `value` or, for a checkbox, `checked`. */
  datatype FieldValue = Text(s: string) | Flag(b: bool)

  datatype FieldName = Name | Email | Password | ConfirmPassword | Agree

  datatype Form = Form(name: FieldValue, email: FieldValue, password: FieldValue,
                       confirmPassword: FieldValue, agree: FieldValue)

  const EmptyForm := Form(Text(""), Text(""), Text(""), Text(""), Flag(false))

  /** A change event of one of the form's inputs. */
  datatype InputEvent = InputEvent(name: FieldName, isCheckbox: bool, value: string, checked: bool)

  /** The request body of the sign-up call. */
  datatype SignupPayload = SignupPayload(name: FieldValue, email: FieldValue, password: FieldValue)

  datatype Validation = Invalid(error: string) | Accepted(payload: SignupPayload)

  /** The sign-up call's outcome; `message` is the server's
      `response.data.message`, when there is one. */
  datatype SignupOutcome = SignedUp | SignupFailed(message: Option<string>)

  function Get(f: Form, n: FieldName): FieldValue
  {
    match n
    case Name => f.name
    case Email => f.email
    case Password => f.password
    case ConfirmPassword => f.confirmPassword
    case Agree => f.agree
  }

  /** JavaScript truthiness of a field value. */
  predicate FieldTruthy(v: FieldValue)
  {
    match v
    case Text(s) => s != ""
    case Flag(b) => b
  }

  /** `handleInputChange`: the named field takes `checked` for a checkbox and
      `value` otherwise; every other field keeps its value. */
  function InputChanged(f: Form, e: InputEvent): (g: Form)
    ensures Get(g, e.name) == (if e.isCheckbox then Flag(e.checked) else Text(e.value))
    ensures forall n :: n != e.name ==> Get(g, n) == Get(f, n)
  {
    var v := if e.isCheckbox then Flag(e.checked) else Text(e.value);
    match e.name
    case Name => f.(name := v)
    case Email => f.(email := v)
    case Password => f.(password := v)
    case ConfirmPassword => f.(confirmPassword := v)
    case Agree => f.(agree := v)
  }

  /** Changes to two different fields commute, and a second change to the
      same field overrides the first. */
  lemma InputChangesCommute(f: Form, e1: InputEvent, e2: InputEvent)
    ensures e1.name != e2.name ==> InputChanged(InputChanged(f, e1), e2) == InputChanged(InputChanged(f, e2), e1)
    ensures e1.name == e2.name ==> InputChanged(InputChanged(f, e1), e2) == InputChanged(f, e2)
  {
  }

  /** The checks of `handleSubmit`: passwords first, then the agreement. */
  function Validate(f: Form): (r: Validation)
    ensures f.password != f.confirmPassword ==> r == Invalid(PasswordMismatchText)
    ensures f.password == f.confirmPassword && !FieldTruthy(f.agree) ==> r == Invalid(AgreementRequiredText)
    ensures r.Accepted? <==> f.password == f.confirmPassword && FieldTruthy(f.agree)
    ensures r.Accepted? ==> r.payload == SignupPayload(f.name, f.email, f.password)
  {
    if f.password != f.confirmPassword then Invalid(PasswordMismatchText)
    else if !FieldTruthy(f.agree) then Invalid(AgreementRequiredText)
    else Accepted(SignupPayload(f.name, f.email, f.password))
  }

  /** Filling the form through its inputs (typing the same password twice,
      ticking the agreement) makes it valid, and the payload carries what
      was typed. */
  lemma FilledFormValidates(f: Form, name: string, email: string, password: string)
    ensures var g := InputChanged(InputChanged(InputChanged(InputChanged(InputChanged(f,
                       InputEvent(Name, false, name, false)),
                       InputEvent(Email, false, email, false)),
                       InputEvent(Password, false, password, false)),
                       InputEvent(ConfirmPassword, false, password, false)),
                       InputEvent(Agree, true, "on", true));
      Validate(g) == Accepted(SignupPayload(Text(name), Text(email), Text(password)))
  {
  }

  /** The error shown when the sign-up call fails. */
  function FailureText(message: Option<string>): (t: string)
    ensures message.Some? && message.value != "" ==> t == message.value
    ensures message.None? || message.value == "" ==> t == ConnectionFailedText
    ensures t != ""
  {
    if message.Some? && message.value != "" then message.value else ConnectionFailedText
  }

  /** The state of the sign-up page. */
  class RegisterPage {
    var formData: Form
    var isLoading: bool
    var error: string

    constructor ()
      ensures formData == EmptyForm && !isLoading && error == ""
    {
      formData := EmptyForm;
      isLoading := false;
      error := "";
    }

    method HandleInputChange(e: InputEvent)
      modifies this`formData
      ensures formData == InputChanged(old(formData), e)
    {
      formData := InputChanged(formData, e);
    }

    /** `handleSubmit`: a failed check sets its error and sends nothing; a
        passed one sends the payload; `isLoading` ends false either way. */
    method HandleSubmit(outcome: SignupOutcome) returns (request: Option<SignupPayload>)
      modifies this`isLoading, this`error
      ensures !isLoading
      ensures Validate(formData).Invalid? ==> request == None && error == Validate(formData).error
      ensures Validate(formData).Accepted? ==> request == Some(Validate(formData).payload)
      ensures Validate(formData).Accepted? && outcome.SignedUp? ==> error == ""
      ensures Validate(formData).Accepted? && outcome.SignupFailed? ==> error == FailureText(outcome.message)
    {
      error := "";
      isLoading := true;
      if formData.password != formData.confirmPassword {
        error := PasswordMismatchText;
        isLoading := false;
        return None;
      }
      if !FieldTruthy(formData.agree) {
        error := AgreementRequiredText;
        isLoading := false;
        return None;
      }
      request := Some(SignupPayload(formData.name, formData.email, formData.password));
      if outcome.SignupFailed? {
        if outcome.message.Some? && outcome.message.value != "" {
          error := outcome.message.value;
        } else {
          error := ConnectionFailedText;
        }
      }
      isLoading := false;
    }
  }
}
