/** The dashboard's role table: search, create and delete roles. */
module Dashboard {
  import opened Basics
  import opened JsString
  import opened CategoryList

  /** A role as the role list returns it. */
  datatype RoleRow = RoleRow(id: string, name: string)

  function RoleName(r: RoleRow): string {
    r.name
  }

  /** The page's messages. */
  const FetchFailed := "Failed to fetch roles"
  const CreatedMessage := "Role created successfully"
  const CreateFailed := "Failed to create role"
  const DeletedMessage := "Role deleted successfully"
  const DeleteFailed := "Failed to delete role"

  class Page {
    var roles: seq<RoleRow>
    var search: string
    var newRoleName: string
    var deleteDialogOpen: bool
    var roleToDelete: Option<string>
    var successMessage: Option<string>
    var error: Option<string>

    constructor ()
      ensures roles == [] && search == "" && newRoleName == "" && !deleteDialogOpen
      ensures roleToDelete == None && successMessage == None && error == None
    {
      roles := [];
      search := "";
      newRoleName := "";
      deleteDialogOpen := false;
      roleToDelete := None;
      successMessage := None;
      error := None;
    }

    /** Typing in the search box; the list is filtered again only when
      the search runs (`handleSearch`, which is `FetchRoles`). */
    method HandleSearchChange(value: string)
      modifies this`search
      ensures search == value
    {
      search := value;
    }

    /** Typing in the new-role name box. */
    method HandleNameChange(value: string)
      modifies this`newRoleName
      ensures newRoleName == value
    {
      newRoleName := value;
    }

    /** `fetchRoles()`, given what the role request returned (`None` when
      it failed). */
    method FetchRoles(fetched: Option<seq<RoleRow>>)
      modifies this`roles, this`error
      ensures fetched.Some? ==> roles == SearchFilter(fetched.value, RoleName, search) && error == old(error)
      ensures fetched.None? ==> roles == old(roles) && error == Some(FetchFailed)
    {
      match fetched {
        case None =>
          error := Some(FetchFailed);
        case Some(data) =>
          roles := SearchFilter(data, RoleName, search);
      }
    }

    /** `handleCreateRole()`, given the outcome of the create request and
      of the refetch that follows it; it returns the name it sends, which
      is not trimmed. */
    method HandleCreateRole(server: ServerOutcome, refetched: Option<seq<RoleRow>>)
      returns (sent: Option<string>)
      modifies this`newRoleName, this`successMessage, this`error, this`roles
      ensures sent.Some? <==> !IsBlank(old(newRoleName))
      ensures sent.Some? ==> sent.value == old(newRoleName)
      ensures sent.None? ==>
        newRoleName == old(newRoleName) && roles == old(roles)
        && successMessage == old(successMessage) && error == old(error)
      ensures sent.Some? && server == Accepted ==>
        newRoleName == "" && successMessage == Some(CreatedMessage)
      ensures sent.Some? && server == Accepted && refetched.Some? ==>
        roles == SearchFilter(refetched.value, RoleName, search) && error == old(error)
      ensures sent.Some? && server == Accepted && refetched.None? ==>
        roles == old(roles) && error == Some(FetchFailed)
      ensures sent.Some? && server.Rejected? ==>
        error == Some(CreateFailed) && newRoleName == old(newRoleName) && roles == old(roles)
        && successMessage == old(successMessage)
    {
      if IsBlank(newRoleName) {
        return None;
      }
      sent := Some(newRoleName);
      match server {
        case Accepted =>
          newRoleName := "";
          successMessage := Some(CreatedMessage);
          FetchRoles(refetched);
        case Rejected(_, _) =>
          error := Some(CreateFailed);
      }
    }

    /** `openDeleteDialog(id)`. */
    method OpenDeleteDialog(id: string)
      modifies this`roleToDelete, this`deleteDialogOpen
      ensures roleToDelete == Some(id) && deleteDialogOpen
    {
      roleToDelete := Some(id);
      deleteDialogOpen := true;
    }

    /** `handleDelete()`, given the outcome of the delete request and of the
      refetch that follows it; it returns the role id it sends. Whatever the
      outcome, the dialog ends closed and no role is pending. */
    method HandleDelete(server: ServerOutcome, refetched: Option<seq<RoleRow>>)
      returns (sent: Option<string>)
      modifies this`roleToDelete, this`deleteDialogOpen, this`successMessage, this`error, this`roles
      ensures sent.Some? <==> Present(old(roleToDelete))
      ensures sent.Some? ==> sent.value == old(roleToDelete).value
      ensures sent.None? ==>
        roleToDelete == old(roleToDelete) && deleteDialogOpen == old(deleteDialogOpen)
        && roles == old(roles) && successMessage == old(successMessage) && error == old(error)
      ensures sent.Some? ==> roleToDelete == None && !deleteDialogOpen
      ensures sent.Some? && server == Accepted ==> successMessage == Some(DeletedMessage)
      ensures sent.Some? && server == Accepted && refetched.Some? ==>
        roles == SearchFilter(refetched.value, RoleName, search) && error == old(error)
      ensures sent.Some? && server == Accepted && refetched.None? ==>
        roles == old(roles) && error == Some(FetchFailed)
      ensures sent.Some? && server.Rejected? ==>
        error == Some(DeleteFailed) && roles == old(roles) && successMessage == old(successMessage)
    {
      if !Present(roleToDelete) {
        return None;
      }
      sent := Some(roleToDelete.value);
      match server {
        case Accepted =>
          successMessage := Some(DeletedMessage);
          FetchRoles(refetched);
        case Rejected(_, _) =>
          error := Some(DeleteFailed);
      }
      deleteDialogOpen := false;
      roleToDelete := None;
    }
  }
}
