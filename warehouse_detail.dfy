/** The page that shows and edits one warehouse. Its form behaves like the
    create form, but the values are trimmed before they are saved and saving
    needs the warehouse id from the route. */
module WarehouseDetail {
  import opened Basics
  import opened JsString
  import opened CreateWarehouse

  /** The page's messages. */
  const WarehouseNameRequired := "Warehouse name is required"
  const NoAccessTokenMessage := "No access token"
  const UpdatedMessage := "Warehouse updated successfully!"
  const UpdateFailed := "Failed to update warehouse"

  /** The fields of the fetched warehouse the form reads. */
  datatype ServerWarehouse = ServerWarehouse(name: Option<string>, address: Option<string>, phone: Option<string>)

  /** `{ name: data.name ?? '', address: data.address ?? '', phone: data.phone ?? '' }`:
      a missing field shows as empty, a present one as it is. */
  function LoadedForm(data: ServerWarehouse): (r: WarehouseForm)
    ensures data.name.None? ==> r.name == ""
    ensures data.name.Some? ==> r.name == data.name.value
    ensures data.address.None? ==> r.address == ""
    ensures data.address.Some? ==> r.address == data.address.value
    ensures data.phone.None? ==> r.phone == ""
    ensures data.phone.Some? ==> r.phone == data.phone.value
  {
    WarehouseForm(data.name.GetOr(""), data.address.GetOr(""), data.phone.GetOr(""))
  }

  /** The body `handleSave` sends: every field with its surrounding
      whitespace removed, and nothing else changed. */
  function TrimmedForm(form: WarehouseForm): (r: WarehouseForm)
    ensures IsTrimOf(form.name, r.name)
    ensures IsTrimOf(form.address, r.address)
    ensures IsTrimOf(form.phone, r.phone)
  {
    WarehouseForm(Trim(form.name), Trim(form.address), Trim(form.phone))
  }

  /** What is saved from a valid form has a non-empty name and address, and
      saving it again would send the same values. */
  lemma TrimmedFormSaved(form: WarehouseForm)
    requires FormOk(form)
    ensures TrimmedForm(form).name != "" && TrimmedForm(form).address != ""
    ensures TrimmedForm(TrimmedForm(form)) == TrimmedForm(form)
  {
    BlankIffTrimEmpty(form.name);
    BlankIffTrimEmpty(form.address);
    TrimIdempotent(form.name);
    TrimIdempotent(form.address);
    TrimIdempotent(form.phone);
  }

  class Page {
    const id: Option<string>
    var formValues: WarehouseForm
    var formErrors: FieldErrors
    var saving: bool
    var successMessage: Option<string>
    var errorMessage: Option<string>

    constructor (id: Option<string>)
      ensures this.id == id && formValues == WarehouseForm("", "", "") && formErrors == NoErrors
      ensures !saving && successMessage == None && errorMessage == None
    {
      this.id := id;
      formValues := WarehouseForm("", "", "");
      formErrors := NoErrors;
      saving := false;
      successMessage := None;
      errorMessage := None;
    }

    /** The form-state part of `fetchWarehouse` once the warehouse arrived. */
    method ApplyLoaded(data: ServerWarehouse)
      modifies this`formValues
      ensures formValues == LoadedForm(data)
    {
      formValues := LoadedForm(data);
    }

    /** `handleInputChange(field, value)`. */
    method HandleInputChange(field: FormField, value: string)
      modifies this`formValues, this`formErrors
      ensures formValues == SetField(old(formValues), field, value)
      ensures formErrors == ClearError(old(formErrors), field)
    {
      formValues := SetField(formValues, field, value);
      formErrors := ClearError(formErrors, field);
    }

    /** `validateForm()`, with this page's text for a blank name. */
    method ValidateForm() returns (valid: bool)
      modifies this`formErrors
      ensures valid <==> FormOk(formValues)
      ensures formErrors == ErrorsFor(formValues, WarehouseNameRequired)
    {
      valid := true;
      var errors := NoErrors;
      if IsBlank(formValues.name) {
        errors := errors.(name := WarehouseNameRequired);
        valid := false;
      }
      if IsBlank(formValues.address) {
        errors := errors.(address := AddressRequired);
        valid := false;
      }
      formErrors := errors;
    }

    /** `handleSave()`, given the stored token and what the update request
        does. Without a route id the form is not even validated. */
    method HandleSave(token: Option<string>, server: ServerOutcome) returns (sent: Option<WarehouseForm>)
      modifies this`formErrors, this`saving, this`successMessage, this`errorMessage
      ensures !Present(id) ==> formErrors == old(formErrors)
      ensures Present(id) ==> formErrors == ErrorsFor(formValues, WarehouseNameRequired)
      ensures sent.Some? <==> Present(id) && FormOk(formValues) && Present(token)
      ensures sent.Some? ==> sent.value == TrimmedForm(formValues)
      ensures sent.Some? && server == Accepted ==>
        successMessage == Some(UpdatedMessage) && errorMessage == old(errorMessage)
      ensures sent.Some? && server.Rejected? ==>
        errorMessage == Some(Or(server.responseMessage, Or(server.message, UpdateFailed)))
        && successMessage == old(successMessage)
      ensures Present(id) && FormOk(formValues) && !Present(token) ==>
        errorMessage == Some(NoAccessTokenMessage) && successMessage == old(successMessage)
      ensures Present(id) && FormOk(formValues) ==> !saving
      ensures !(Present(id) && FormOk(formValues)) ==>
        saving == old(saving) && successMessage == old(successMessage) && errorMessage == old(errorMessage)
    {
      sent := None;
      if !Present(id) {
        return;
      }
      var ok := ValidateForm();
      if !ok {
        return;
      }
      saving := true;
      if !Present(token) {
        errorMessage := Some(NoAccessTokenMessage);
      } else {
        sent := Some(TrimmedForm(formValues));
        if server == Accepted {
          successMessage := Some(UpdatedMessage);
        } else {
          errorMessage := Some(Or(server.responseMessage, Or(server.message, UpdateFailed)));
        }
      }
      saving := false;
    }

    /** `handleSuccessClose()`: hides the message and goes back to the list. */
    method HandleSuccessClose() returns (navigateTo: string)
      modifies this`successMessage
      ensures successMessage == None && navigateTo == WarehousesRoute
    {
      successMessage := None;
      navigateTo := WarehousesRoute;
    }

    /** The success snackbar's `onClose`: a click away from it is ignored,
        any other reason closes it as `handleSuccessClose` does. */
    method SuccessSnackbarClose(reason: CloseReason) returns (navigateTo: Option<string>)
      modifies this`successMessage
      ensures reason == ClickAway ==> navigateTo == None && successMessage == old(successMessage)
      ensures reason != ClickAway ==> navigateTo == Some(WarehousesRoute) && successMessage == None
    {
      if reason == ClickAway {
        return None;
      }
      var route := HandleSuccessClose();
      navigateTo := Some(route);
    }
  }
}
