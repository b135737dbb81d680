/** The page that creates a warehouse: a name, an address and an optional
    phone, each with its own error text under the field. */
module CreateWarehouse {
  import opened Basics
  import opened JsString

  /** `formValues`. */
  datatype WarehouseForm = WarehouseForm(name: string, address: string, phone: string)

  /** `formErrors`: one text per required field, '' when there is none. */
  datatype FieldErrors = FieldErrors(name: string, address: string)

  /** The inputs `handleInputChange` is called for. */
  datatype FormField = NameField | AddressField | PhoneField

  const NoErrors := FieldErrors("", "")

  const WarehousesRoute := "/warehouses"

  /** The page's messages. */
  const NameRequired := "Name is required"
  const AddressRequired := "Address is required"
  const CreateFailed := "Failed to create warehouse"

  /** `{ ...prev, [field]: value }` on the form values. */
  function SetField(form: WarehouseForm, field: FormField, value: string): (r: WarehouseForm)
    ensures field == NameField ==> r == form.(name := value)
    ensures field == AddressField ==> r == form.(address := value)
    ensures field == PhoneField ==> r == form.(phone := value)
  {
    match field
    case NameField => form.(name := value)
    case AddressField => form.(address := value)
    case PhoneField => form.(phone := value)
  }

  /** `{ ...prev, [field]: '' }` on the errors: only the edited field's text
      is cleared (the phone has none, so its edits leave both texts). */
  function ClearError(errors: FieldErrors, field: FormField): (r: FieldErrors)
    ensures field == NameField ==> r == errors.(name := "")
    ensures field == AddressField ==> r == errors.(address := "")
    ensures field == PhoneField ==> r == errors
  {
    match field
    case NameField => errors.(name := "")
    case AddressField => errors.(address := "")
    case PhoneField => errors
  }

  /** The form can be sent: name and address are not blank; the phone is not
      looked at. */
  predicate FormOk(form: WarehouseForm) {
    !IsBlank(form.name) && !IsBlank(form.address)
  }

  /** The error texts `validateForm` records, given the text it uses for a
      blank name: each field's text depends on that field alone. */
  function ErrorsFor(form: WarehouseForm, nameMessage: string): (r: FieldErrors)
    ensures r.name == (if IsBlank(form.name) then nameMessage else "")
    ensures r.address == (if IsBlank(form.address) then AddressRequired else "")
  {
    FieldErrors(if IsBlank(form.name) then nameMessage else "",
                if IsBlank(form.address) then AddressRequired else "")
  }

  /** With a non-empty message for a blank name, the form is valid exactly
      when no error text is recorded, and each text appears exactly when its
      field is blank, so both problems are reported together. */
  lemma ValidIffNoErrors(form: WarehouseForm, nameMessage: string)
    requires nameMessage != ""
    ensures FormOk(form) <==> ErrorsFor(form, nameMessage) == NoErrors
    ensures ErrorsFor(form, nameMessage).name != "" <==> IsBlank(form.name)
    ensures ErrorsFor(form, nameMessage).address != "" <==> IsBlank(form.address)
  {
  }

  class Page {
    var formValues: WarehouseForm
    var formErrors: FieldErrors
    var loading: bool
    var snackbarOpen: bool
    var errorMessage: Option<string>

    constructor ()
      ensures formValues == WarehouseForm("", "", "") && formErrors == NoErrors
      ensures !loading && !snackbarOpen && errorMessage == None
    {
      formValues := WarehouseForm("", "", "");
      formErrors := NoErrors;
      loading := false;
      snackbarOpen := false;
      errorMessage := None;
    }

    /** `handleInputChange(field, value)`. */
    method HandleInputChange(field: FormField, value: string)
      modifies this`formValues, this`formErrors
      ensures formValues == SetField(old(formValues), field, value)
      ensures formErrors == ClearError(old(formErrors), field)
    {
      formValues := SetField(formValues, field, value);
      formErrors := ClearError(formErrors, field);
    }

    /** `validateForm()`: both fields are checked, each failure recording its
        own text, and the recorded errors replace the old ones. */
    method ValidateForm() returns (valid: bool)
      modifies this`formErrors
      ensures valid <==> FormOk(formValues)
      ensures formErrors == ErrorsFor(formValues, NameRequired)
    {
      valid := true;
      var errors := NoErrors;
      if IsBlank(formValues.name) {
        errors := errors.(name := NameRequired);
        valid := false;
      }
      if IsBlank(formValues.address) {
        errors := errors.(address := AddressRequired);
        valid := false;
      }
      formErrors := errors;
    }

    /** `handleSubmit()`, given what the create request does. The values go
        out as typed, untrimmed; a rejection shows the error's own message. */
    method HandleSubmit(server: ServerOutcome) returns (sent: Option<WarehouseForm>, navigateTo: Option<string>)
      modifies this`formErrors, this`loading, this`snackbarOpen, this`errorMessage
      ensures formErrors == ErrorsFor(formValues, NameRequired)
      ensures sent.Some? <==> FormOk(formValues)
      ensures sent.Some? ==> sent.value == formValues
      ensures navigateTo.Some? <==> sent.Some? && server == Accepted
      ensures navigateTo.Some? ==> navigateTo.value == WarehousesRoute && snackbarOpen && errorMessage == None
      ensures sent.Some? && server.Rejected? ==>
        errorMessage == Some(Or(server.message, CreateFailed)) && snackbarOpen == old(snackbarOpen)
      ensures sent.Some? ==> !loading
      ensures sent.None? ==>
        loading == old(loading) && snackbarOpen == old(snackbarOpen) && errorMessage == old(errorMessage)
    {
      sent, navigateTo := None, None;
      var ok := ValidateForm();
      if !ok {
        return;
      }
      loading := true;
      errorMessage := None;
      sent := Some(formValues);
      if server == Accepted {
        snackbarOpen := true;
        navigateTo := Some(WarehousesRoute);
      } else {
        errorMessage := Some(Or(server.message, CreateFailed));
      }
      loading := false;
    }
  }
}
