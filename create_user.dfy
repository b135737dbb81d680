/** The page that creates a user: full name, email and password are
    required, the age is optional. */
module CreateUser {
  import opened Basics
  import opened JsString
  import opened JsNumber
  import opened Validation

  datatype UserForm = UserForm(fullname: string, email: string, password: string, age: string)

  /** The inputs `handleChange` writes by their `name` attribute. */
  datatype UserField = FullnameField | EmailField | PasswordField | AgeField

  /** The JSON body of the create request; `age` is left out of the object
      when absent, and holds `Number(age)` otherwise. */
  datatype UserPayload = UserPayload(fullname: string, email: string, password: string, age: Option<NumberValue>)

  const EmptyForm := UserForm("", "", "", "")

  const UsersRoute := "/users"

  /** The page's messages. */
  const FullnameRequired := "Full name is required"
  const EmailRequired := "Email is required"
  const PasswordRequired := "Password is required"
  const AuthRequired := "Authentication required"
  const CreatedMessage := "User created successfully!"
  const CreateFailed := "Failed to create user!"

  /** `setFormData(prev => ({ ...prev, [name]: value }))`. */
  function SetField(form: UserForm, field: UserField, value: string): (r: UserForm)
    ensures r.fullname == (if field == FullnameField then value else form.fullname)
    ensures r.email == (if field == EmailField then value else form.email)
    ensures r.password == (if field == PasswordField then value else form.password)
    ensures r.age == (if field == AgeField then value else form.age)
  {
    match field
    case FullnameField => form.(fullname := value)
    case EmailField => form.(email := value)
    case PasswordField => form.(password := value)
    case AgeField => form.(age := value)
  }

  /** `validateForm`'s checks, in order. */
  function Checks(form: UserForm): seq<Check> {
    [ Check(!IsBlank(form.fullname), FullnameRequired),
      Check(!IsBlank(form.email), EmailRequired),
      Check(!IsBlank(form.password), PasswordRequired) ]
  }

  /** The form passes `validateForm`. */
  predicate FormOk(form: UserForm) {
    !IsBlank(form.fullname) && !IsBlank(form.email) && !IsBlank(form.password)
  }

  /** The form is valid exactly when the three required fields are not
      blank, whatever the age says. */
  lemma ValidIff(form: UserForm)
    ensures FirstFailure(Checks(form)) == None <==> FormOk(form)
    ensures FirstFailure(Checks(form)) == FirstFailure(Checks(form.(age := "")))
  {
    var cs := Checks(form);
    assert AllPass(cs) <==> cs[0].passes && cs[1].passes && cs[2].passes;
    assert Checks(form.(age := "")) == cs;
  }

  /** The body `handleSubmit` sends: the three texts as typed, and the age
      only when it is not blank. */
  function Payload(form: UserForm): UserPayload {
    var payload := UserPayload(form.fullname, form.email, form.password, None);
    if IsBlank(form.age) then payload else payload.(age := Some(ParseNumber(form.age)))
  }

  /** An age is sent exactly when typed, and a typed integer is sent as
      that integer. */
  lemma PayloadAge(form: UserForm, n: int)
    ensures Payload(form).age.Some? <==> !IsBlank(form.age)
    ensures form.age == IntToString(n) ==> Payload(form).age == Some(Num(n))
  {
    if form.age == IntToString(n) {
      ParseIntToString(n);
      assert !IsSpace(form.age[0]);
    }
  }

  class Page {
    var form: UserForm
    var isSubmitting: bool
    var snackbar: Snackbar

    constructor ()
      ensures form == EmptyForm && !isSubmitting && snackbar == Snackbar(false, "", SuccessSeverity)
    {
      form := EmptyForm;
      isSubmitting := false;
      snackbar := Snackbar(false, "", SuccessSeverity);
    }

    /** The snackbar is open with `message` as an error. */
    predicate ShowsError(message: Option<string>)
      reads this`snackbar
    {
      message.Some? && snackbar == Snackbar(true, message.value, ErrorSeverity)
    }

    /** `handleChange`. */
    method HandleChange(field: UserField, value: string)
      modifies this`form
      ensures form == SetField(old(form), field, value)
    {
      form := SetField(form, field, value);
    }

    /** `validateForm()`: the first failing check shows an error snackbar. */
    method ValidateForm() returns (ok: bool)
      modifies this`snackbar
      ensures ok <==> FormOk(form)
      ensures !ok ==> ShowsError(FirstFailure(Checks(form)))
      ensures ok ==> snackbar == old(snackbar)
    {
      var cs := Checks(form);
      if IsBlank(form.fullname) {
        FirstFailureIsEarliest(cs, 0);
        snackbar := Snackbar(true, FullnameRequired, ErrorSeverity);
        return false;
      }
      if IsBlank(form.email) {
        FirstFailureIsEarliest(cs, 1);
        snackbar := Snackbar(true, EmailRequired, ErrorSeverity);
        return false;
      }
      if IsBlank(form.password) {
        FirstFailureIsEarliest(cs, 2);
        snackbar := Snackbar(true, PasswordRequired, ErrorSeverity);
        return false;
      }
      return true;
    }

    /** `handleSubmit()`, given the stored token and the outcome of the
      create request; it returns the body it sends and the route it
      navigates to. */
    method HandleSubmit(token: Option<string>, server: ServerOutcome)
      returns (sent: Option<UserPayload>, navigateTo: Option<string>)
      modifies this`snackbar, this`isSubmitting
      ensures sent.Some? <==> FormOk(form) && !old(isSubmitting) && Present(token)
      ensures sent.Some? ==> sent.value == Payload(form)
      ensures !FormOk(form) ==> ShowsError(FirstFailure(Checks(form))) && isSubmitting == old(isSubmitting)
      ensures FormOk(form) && old(isSubmitting) ==> snackbar == old(snackbar) && isSubmitting
      ensures FormOk(form) && !old(isSubmitting) ==> !isSubmitting
      ensures FormOk(form) && !old(isSubmitting) && !Present(token) ==>
        snackbar == Snackbar(true, AuthRequired, ErrorSeverity)
      ensures navigateTo.Some? <==> sent.Some? && server == Accepted
      ensures navigateTo.Some? ==>
        navigateTo.value == UsersRoute && snackbar == Snackbar(true, CreatedMessage, SuccessSeverity)
      ensures sent.Some? && server.Rejected? ==>
        snackbar == Snackbar(true, Or(server.responseMessage, CreateFailed), ErrorSeverity)
    {
      sent, navigateTo := None, None;
      var ok := ValidateForm();
      if !ok || isSubmitting {
        return;
      }
      isSubmitting := true;
      if !Present(token) {
        snackbar := Snackbar(true, AuthRequired, ErrorSeverity);
        isSubmitting := false;
        return;
      }
      var payload := UserPayload(form.fullname, form.email, form.password, None);
      if !IsBlank(form.age) {
        payload := payload.(age := Some(ParseNumber(form.age)));
      }
      sent := Some(payload);
      match server {
        case Accepted =>
          snackbar := Snackbar(true, CreatedMessage, SuccessSeverity);
          navigateTo := Some(UsersRoute);
        case Rejected(responseMessage, _) =>
          snackbar := Snackbar(true, Or(responseMessage, CreateFailed), ErrorSeverity);
      }
      isSubmitting := false;
    }
  }
}
