/** The page that creates a category: a required name and a description. */
module CreateCategory {
  import opened Basics
  import opened JsString

  /** The JSON body of the create request. */
  datatype CategoryRequest = CategoryRequest(name: string, description: string)

  const CategoriesRoute := "/categories"

  /** The page's messages. */
  const NameRequired := "Name is required"
  const NoAccessToken := "Access token not found, please login"
  const CreatedMessage := "Category created successfully!"
  const CreateFailed := "Failed to create category"

  class Page {
    var name: string
    var description: string
    var error: Option<string>
    var successMessage: Option<string>
    var loading: bool

    constructor ()
      ensures name == "" && description == "" && error == None && successMessage == None && !loading
    {
      name, description := "", "";
      error := None;
      successMessage := None;
      loading := false;
    }

    /** `handleSubmit()`, given the stored token and the outcome of the
      create request; it returns the request it sends, whose name is not
      trimmed, and the route it navigates to. */
    method HandleSubmit(token: Option<string>, server: ServerOutcome)
      returns (sent: Option<CategoryRequest>, navigateTo: Option<string>)
      modifies this`name, this`description, this`error, this`successMessage, this`loading
      ensures sent.Some? <==> !IsBlank(old(name)) && Present(token)
      ensures sent.Some? ==> sent.value == CategoryRequest(old(name), old(description))
      ensures sent.Some? ==> !loading
      ensures sent.None? ==> loading == old(loading) && name == old(name) && description == old(description)
      ensures IsBlank(old(name)) ==> error == Some(NameRequired) && successMessage == None
      ensures !IsBlank(old(name)) && !Present(token) ==> error == Some(NoAccessToken) && successMessage == None
      ensures navigateTo.Some? <==> sent.Some? && server == Accepted
      ensures navigateTo.Some? ==>
        navigateTo.value == CategoriesRoute && successMessage == Some(CreatedMessage) && error == None
        && name == "" && description == ""
      ensures sent.Some? && server.Rejected? ==>
        error == Some(Or(server.responseMessage, CreateFailed)) && successMessage == None
        && name == old(name) && description == old(description)
    {
      sent, navigateTo := None, None;
      error := None;
      successMessage := None;
      if IsBlank(name) {
        error := Some(NameRequired);
        return;
      }
      if !Present(token) {
        error := Some(NoAccessToken);
        return;
      }
      loading := true;
      sent := Some(CategoryRequest(name, description));
      match server {
        case Accepted =>
          successMessage := Some(CreatedMessage);
          name, description := "", "";
          navigateTo := Some(CategoriesRoute);
        case Rejected(responseMessage, _) =>
          error := Some(Or(responseMessage, CreateFailed));
      }
      loading := false;
    }
  }
}
