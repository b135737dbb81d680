/** The page that edits one user and the roles assigned to them. */
module UserDetail {
  import opened Basics
  import opened JsString
  import opened JsNumber
  import opened Sequences

  /** A role as the role list returns it. */
  datatype Role = Role(id: string, name: string)

  /** The fields of the fetched user the page reads; `roleIds` are the ids
      of `userRoles[].role`. */
  datatype ServerUser = ServerUser(fullname: string, email: string, age: Option<int>, roleIds: seq<string>)

  /** The JSON body of the update request; `age` is `null` when `None`. */
  datatype UserUpdate = UserUpdate(fullname: string, email: string, age: Option<NumberValue>)

  /** The page's messages. */
  const LoadFailed := "Failed to load user"
  const UpdatedMessage := "User updated successfully"
  const UpdateFailed := "Failed to update user"
  const RoleAdded := "Role added successfully"
  const AddRoleFailed := "Failed to add role"

  /** `user?.userRoles.some(ur => ur.role.id === roleId)`; with no user
      loaded nothing counts as assigned. */
  predicate Assigned(user: Option<ServerUser>, roleId: string) {
    user.Some? && roleId in user.value.roleIds
  }

  /** The roles the "Add Role" selector offers. */
  function AssignableRoles(available: seq<Role>, user: Option<ServerUser>): (r: seq<Role>)
    ensures forall role :: role in r <==> role in available && !Assigned(user, role.id)
    ensures forall role: Role :: !Assigned(user, role.id) ==> multiset(r)[role] == multiset(available)[role]
    ensures IsSubsequence(r, available)
  {
    var r := Filter(available, (role: Role) => !Assigned(user, role.id));
    assert forall role :: role in available ==> exists i :: 0 <= i < |available| && available[i] == role;
    assert forall role :: role in r ==> exists i :: 0 <= i < |r| && r[i] == role;
    r
  }

  /** Once a role is assigned and the user refetched, it is no longer
      offered, and every other offered role still is. */
  lemma AddedRoleLeavesSelector(available: seq<Role>, user: ServerUser, roleId: string)
    ensures forall role :: role in AssignableRoles(available, Some(user.(roleIds := user.roleIds + [roleId]))) <==>
      role in AssignableRoles(available, Some(user)) && role.id != roleId
  {
  }

  /** `data.age?.toString() || ''`: the age field as loaded. */
  function AgeText(age: Option<int>): (r: string)
    ensures r == "" <==> age.None?
  {
    if age.Some? then IntToString(age.value) else ""
  }

  /** `age ? +age : null`: the age as the update sends it. */
  function AgeValue(text: string): (r: Option<NumberValue>)
    ensures r.None? <==> text == ""
  {
    if text == "" then None else Some(ParseNumber(text))
  }

  /** Saving a loaded user without touching the age sends back the age it
      had: `null` for none, the same integer otherwise. */
  lemma AgeRoundTrip(age: Option<int>)
    ensures AgeValue(AgeText(age)) == if age.Some? then Some(Num(age.value)) else None
  {
    if age.Some? {
      ParseIntToString(age.value);
    }
  }

  /** A whitespace-only age is not `null`: it is sent as `Number('  ')`, 0. */
  lemma BlankAgeSentAsZero(text: string)
    requires text != "" && IsBlank(text)
    ensures AgeValue(text) == Some(Num(0))
  {
  }

  class Page {
    const id: string
    var user: Option<ServerUser>
    var fullname: string
    var email: string
    var age: string
    var loading: bool
    var error: Option<string>
    var successMessage: Option<string>
    var availableRoles: seq<Role>
    var selectedRoleId: string

    /** The page before its data arrives. */
    constructor (id: string)
      ensures this.id == id && user == None && fullname == "" && email == "" && age == ""
      ensures loading && error == None && successMessage == None
      ensures availableRoles == [] && selectedRoleId == ""
    {
      this.id := id;
      user := None;
      fullname := "";
      email := "";
      age := "";
      loading := true;
      error := None;
      successMessage := None;
      availableRoles := [];
      selectedRoleId := "";
    }

    /** The roles the selector offers now. */
    function Offered(): seq<Role>
      reads this`availableRoles, this`user
    {
      AssignableRoles(availableRoles, user)
    }

    /** `fetchUser()`, given the stored token and what the user request
      returned (a failure carries `err.response.data.message`, '' when
      absent). A missing token throws an error with no response, so the
      default message shows. */
    method FetchUser(token: Option<string>, fetched: Result<ServerUser, string>)
      modifies this`user, this`fullname, this`email, this`age, this`loading, this`error
      ensures !loading
      ensures Present(token) && fetched.Success? ==>
        user == Some(fetched.value) && fullname == fetched.value.fullname && email == fetched.value.email
        && age == AgeText(fetched.value.age) && error == old(error)
      ensures !(Present(token) && fetched.Success?) ==>
        user == old(user) && fullname == old(fullname) && email == old(email) && age == old(age)
      ensures !Present(token) ==> error == Some(LoadFailed)
      ensures Present(token) && fetched.Failure? ==> error == Some(Or(fetched.error, LoadFailed))
    {
      loading := true;
      if !Present(token) {
        error := Some(LoadFailed);
        loading := false;
        return;
      }
      match fetched {
        case Success(data) =>
          user := Some(data);
          fullname := data.fullname;
          email := data.email;
          age := AgeText(data.age);
        case Failure(message) =>
          error := Some(Or(message, LoadFailed));
      }
      loading := false;
    }

    /** `handleUpdate()`, given the stored token and the outcome of the
      update request; it returns the body it sends. */
    method HandleUpdate(token: Option<string>, server: ServerOutcome) returns (sent: Option<UserUpdate>)
      modifies this`error, this`successMessage
      ensures sent.Some? <==> Present(token)
      ensures sent.Some? ==> sent.value == UserUpdate(fullname, email, AgeValue(age))
      ensures sent.None? ==> error == Some(UpdateFailed) && successMessage == old(successMessage)
      ensures sent.Some? && server == Accepted ==>
        successMessage == Some(UpdatedMessage) && error == old(error)
      ensures sent.Some? && server.Rejected? ==>
        error == Some(Or(server.responseMessage, UpdateFailed)) && successMessage == old(successMessage)
    {
      if !Present(token) {
        error := Some(UpdateFailed);
        return None;
      }
      var ageValue := if age != "" then Some(ParseNumber(age)) else None;
      sent := Some(UserUpdate(fullname, email, ageValue));
      match server {
        case Accepted =>
          successMessage := Some(UpdatedMessage);
        case Rejected(responseMessage, _) =>
          error := Some(Or(responseMessage, UpdateFailed));
      }
    }

    /** `handleAddRole()`, given the stored token, the outcome of the add
      request and what the refetch of the user returns; it returns the role
      id it sends. */
    method HandleAddRole(token: Option<string>, server: ServerOutcome, refetched: Result<ServerUser, string>)
      returns (sent: Option<string>)
      modifies this`selectedRoleId, this`successMessage, this`error
      modifies this`user, this`fullname, this`email, this`age, this`loading
      ensures sent.Some? <==> old(selectedRoleId) != "" && Present(token)
      ensures sent.Some? ==> sent.value == old(selectedRoleId)
      ensures sent.None? || server.Rejected? ==>
        user == old(user) && fullname == old(fullname) && email == old(email) && age == old(age)
        && loading == old(loading)
      ensures old(selectedRoleId) == "" ==>
        selectedRoleId == old(selectedRoleId) && successMessage == old(successMessage) && error == old(error)
      ensures old(selectedRoleId) != "" && !Present(token) ==>
        error == Some(AddRoleFailed) && selectedRoleId == old(selectedRoleId)
        && successMessage == old(successMessage)
      ensures sent.Some? && server == Accepted ==>
        selectedRoleId == "" && successMessage == Some(RoleAdded) && !loading
      ensures sent.Some? && server == Accepted && refetched.Success? ==>
        user == Some(refetched.value) && fullname == refetched.value.fullname
        && email == refetched.value.email && age == AgeText(refetched.value.age) && error == old(error)
      ensures sent.Some? && server == Accepted && refetched.Failure? ==>
        user == old(user) && fullname == old(fullname) && email == old(email) && age == old(age)
        && error == Some(Or(refetched.error, LoadFailed))
      ensures sent.Some? && server.Rejected? ==>
        error == Some(Or(server.responseMessage, AddRoleFailed))
        && selectedRoleId == old(selectedRoleId) && successMessage == old(successMessage)
    {
      sent := None;
      if selectedRoleId == "" {
        return;
      }
      if !Present(token) {
        error := Some(AddRoleFailed);
        return;
      }
      sent := Some(selectedRoleId);
      match server {
        case Accepted =>
          selectedRoleId := "";
          successMessage := Some(RoleAdded);
          FetchUser(token, refetched);
        case Rejected(responseMessage, _) =>
          error := Some(Or(responseMessage, AddRoleFailed));
      }
    }
  }
}
