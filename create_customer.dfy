/** The page that creates a customer from four required fields. */
module CreateCustomer {
  import opened Basics
  import opened JsString

  /** The JSON body of the create request. */
  datatype CustomerRequest = CustomerRequest(fullname: string, email: string, phone: string, address: string)

  const CustomersRoute := "/customers"

  /** The page's messages. */
  const AllFieldsRequired := "All fields are required"
  const NoAccessToken := "Access token not found, please login"
  const CreatedMessage := "Customer created successfully!"
  const CreateFailed := "Failed to create customer"

  /** `!fullname || !email || !phone || !address`: a field is missing only
      when it is empty, so whitespace counts as filled in. */
  predicate SomeFieldEmpty(r: CustomerRequest) {
    r.fullname == "" || r.email == "" || r.phone == "" || r.address == ""
  }

  /** Whitespace-only fields pass the check. */
  lemma BlankFieldsAccepted(r: CustomerRequest)
    requires IsBlank(r.fullname) && IsBlank(r.email) && IsBlank(r.phone) && IsBlank(r.address)
    requires r.fullname != "" && r.email != "" && r.phone != "" && r.address != ""
    ensures !SomeFieldEmpty(r)
  {
  }

  class Page {
    var fullname: string
    var email: string
    var phone: string
    var address: string
    var error: Option<string>
    var successMessage: Option<string>
    var loading: bool

    constructor ()
      ensures fullname == "" && email == "" && phone == "" && address == ""
      ensures error == None && successMessage == None && !loading
    {
      fullname, email, phone, address := "", "", "", "";
      error := None;
      successMessage := None;
      loading := false;
    }

    /** The four fields as the request would carry them. */
    function Request(): CustomerRequest
      reads this`fullname, this`email, this`phone, this`address
    {
      CustomerRequest(fullname, email, phone, address)
    }

    /** `handleSubmit()`, given the stored token and the outcome of the
      create request; it returns the request it sends and the route it
      navigates to. */
    method HandleSubmit(token: Option<string>, server: ServerOutcome)
      returns (sent: Option<CustomerRequest>, navigateTo: Option<string>)
      modifies this`fullname, this`email, this`phone, this`address
      modifies this`error, this`successMessage, this`loading
      ensures sent.Some? <==> !SomeFieldEmpty(old(Request())) && Present(token)
      ensures sent.Some? ==> sent.value == old(Request())
      ensures sent.None? ==> loading == old(loading)
      ensures sent.Some? ==> !loading
      ensures SomeFieldEmpty(old(Request())) ==>
        error == Some(AllFieldsRequired) && successMessage == None && Request() == old(Request())
      ensures !SomeFieldEmpty(old(Request())) && !Present(token) ==>
        error == Some(NoAccessToken) && successMessage == None && Request() == old(Request())
      ensures navigateTo.Some? <==> sent.Some? && server == Accepted
      ensures navigateTo.Some? ==>
        navigateTo.value == CustomersRoute && successMessage == Some(CreatedMessage) && error == None
        && Request() == CustomerRequest("", "", "", "")
      ensures sent.Some? && server.Rejected? ==>
        error == Some(Or(server.responseMessage, CreateFailed)) && successMessage == None
        && Request() == old(Request())
    {
      sent, navigateTo := None, None;
      error := None;
      successMessage := None;
      if fullname == "" || email == "" || phone == "" || address == "" {
        error := Some(AllFieldsRequired);
        return;
      }
      if !Present(token) {
        error := Some(NoAccessToken);
        return;
      }
      loading := true;
      sent := Some(CustomerRequest(fullname, email, phone, address));
      match server {
        case Accepted =>
          successMessage := Some(CreatedMessage);
          fullname, email, phone, address := "", "", "", "";
          navigateTo := Some(CustomersRoute);
        case Rejected(responseMessage, _) =>
          error := Some(Or(responseMessage, CreateFailed));
      }
      loading := false;
    }
  }
}
