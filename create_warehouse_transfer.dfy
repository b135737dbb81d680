/** The page that creates a warehouse transfer: a description, a source and a
    destination warehouse, and a never-empty list of (product, quantity) rows. */
module CreateWarehouseTransfer {
  import opened Basics
  import opened JsString
  import opened JsNumber
  import opened Sequences
  import opened LineItems
  import opened Validation
  import opened Jwt

  /** One transfer row. */
  datatype TransferLine = TransferLine(productId: string, quantity: int)

  /** The row fields the editor can change. */
  datatype TransferField = ProductIdField | QuantityField

  /** The row the page starts with and appends. */
  const DefaultLine := TransferLine("", 1)

  const WarehousesRoute := "/warehouses"

  /** The page's messages. */
  const UserRequired := "User authentication required"
  const DescriptionRequired := "Please enter a description"
  const WarehousesRequired := "Please select both source and destination warehouse"
  const WarehousesMustDiffer := "Source and destination warehouse must be different"
  const DetailsIncomplete := "Please fill all transfer details correctly"
  const NoAccessToken := "No access token"
  const CreatedMessage := "Warehouse transfer created successfully!"
  const CreateFailed := "Failed to create warehouse transfer"

  /** `{ ...line, [field]: field === 'quantity' ? Number(value) || 0 : value }`. */
  function ChangeField(line: TransferLine, field: TransferField, value: string): (r: TransferLine)
    ensures field == ProductIdField ==> r == line.(productId := value)
    ensures field == QuantityField ==> r == line.(quantity := NumberOrZero(value))
  {
    match field
    case ProductIdField => line.(productId := value)
    case QuantityField => line.(quantity := NumberOrZero(value))
  }

  /** A row passes validation when it names a product and a positive quantity. */
  predicate LineOk(line: TransferLine) {
    line.productId != "" && line.quantity > 0
  }

  /** `details.some(d => !d.productId || d.quantity <= 0)`. */
  predicate SomeLineBad(details: seq<TransferLine>) {
    exists i | 0 <= i < |details| :: !LineOk(details[i])
  }

  /** `validateForm`'s checks, in the order it makes them. */
  function Checks(userId: Option<string>, description: string, fromWarehouseId: string,
                  toWarehouseId: string, details: seq<TransferLine>): seq<Check>
  {
    [ Check(Present(userId), UserRequired),
      Check(!IsBlank(description), DescriptionRequired),
      Check(fromWarehouseId != "" && toWarehouseId != "", WarehousesRequired),
      Check(fromWarehouseId != toWarehouseId, WarehousesMustDiffer),
      Check(!SomeLineBad(details), DetailsIncomplete) ]
  }

  /** The form is valid exactly when there is a user id, a non-blank
      description, two distinct warehouses and only complete rows. */
  lemma ValidIff(userId: Option<string>, description: string, fromWarehouseId: string,
                 toWarehouseId: string, details: seq<TransferLine>)
    ensures FirstFailure(Checks(userId, description, fromWarehouseId, toWarehouseId, details)) == None
      <==> Present(userId) && !IsBlank(description) && fromWarehouseId != "" && toWarehouseId != ""
           && fromWarehouseId != toWarehouseId
           && forall i :: 0 <= i < |details| ==> LineOk(details[i])
  {
    var cs := Checks(userId, description, fromWarehouseId, toWarehouseId, details);
    assert AllPass(cs) <==> cs[0].passes && cs[1].passes && cs[2].passes && cs[3].passes && cs[4].passes;
  }

  /** The request body `handleSubmit` sends. */
  datatype TransferRequest = TransferRequest(
    userId: Option<string>, fromWarehouseId: string, toWarehouseId: string,
    description: string, warehouseTransferDetails: seq<TransferLine>)

  /** `details.map(({ productId, quantity }) => ({ productId, quantity }))`:
      the rows go out as they are, same count, same order. */
  function PayloadLines(details: seq<TransferLine>): (r: seq<TransferLine>)
    ensures r == details
  {
    var r := seq(|details|, i requires 0 <= i < |details| => TransferLine(details[i].productId, details[i].quantity));
    assert forall i :: 0 <= i < |details| ==> r[i] == details[i];
    r
  }

  /** The destination selector lists every warehouse except the source. */
  function DestinationOptions(warehouses: seq<Warehouse>, fromWarehouseId: string): (r: seq<Warehouse>)
    ensures forall i :: 0 <= i < |r| ==> r[i].id != fromWarehouseId
    ensures forall i :: 0 <= i < |warehouses| && warehouses[i].id != fromWarehouseId ==> warehouses[i] in r
    ensures IsSubsequence(r, warehouses)
  {
    Filter(warehouses, (w: Warehouse) => w.id != fromWarehouseId)
  }

  /** The page's state. */
  class Page {
    const userId: Option<string>
    var warehouses: seq<Warehouse>
    var description: string
    var fromWarehouseId: string
    var toWarehouseId: string
    var details: seq<TransferLine>
    var error: Option<string>
    var success: Option<string>

    /** The row list is never empty. */
    ghost predicate Valid()
      reads this
    {
      |details| >= 1
    }

    function FormChecks(): seq<Check>
      reads this`description, this`fromWarehouseId, this`toWarehouseId, this`details
    {
      Checks(userId, description, fromWarehouseId, toWarehouseId, details)
    }

    /** The message `validateForm` shows, if any. */
    function FormFailure(): Option<string>
      reads this`description, this`fromWarehouseId, this`toWarehouseId, this`details
    {
      FirstFailure(FormChecks())
    }

    /** The form passes `validateForm`; by `ValidIff` this is exactly
        `FormFailure() == None`. */
    predicate FormValid()
      reads this`description, this`fromWarehouseId, this`toWarehouseId, this`details
    {
      Present(userId) && !IsBlank(description) && fromWarehouseId != "" && toWarehouseId != ""
      && fromWarehouseId != toWarehouseId && !SomeLineBad(details)
    }

    /** The page as first rendered. `userId` is `getUserIdFromToken()`: the
        `id` claim of the stored access token, decoded once per render and
        fixed for the handlers of that render. */
    constructor (token: Option<string>, decode: Decoder)
      ensures Valid() && userId == UserIdFromToken(token, decode)
      ensures details == [DefaultLine]
      ensures description == "" && fromWarehouseId == "" && toWarehouseId == ""
      ensures warehouses == [] && error == None && success == None
    {
      userId := UserIdFromToken(token, decode);
      warehouses := [];
      description := "";
      fromWarehouseId := "";
      toWarehouseId := "";
      details := [DefaultLine];
      error := None;
      success := None;
    }

    /** `handleAddDetail`. */
    method HandleAddDetail()
      requires Valid()
      modifies this`details
      ensures Valid() && details == AddLine(old(details), DefaultLine)
    {
      details := details + [DefaultLine];
    }

    /** `handleRemoveDetail(index)`. */
    method HandleRemoveDetail(index: nat)
      requires Valid()
      modifies this`details
      ensures Valid() && details == RemoveLine(old(details), index)
    {
      if |details| == 1 {
        return;
      }
      var updated := details;
      if index < |updated| {
        updated := updated[..index] + updated[index + 1..];
      }
      details := updated;
    }

    /** `handleDetailChange(index, field, value)`. */
    method HandleDetailChange(index: nat, field: TransferField, value: string)
      requires Valid() && index < |details|
      modifies this`details
      ensures Valid()
      ensures details == UpdateLine(old(details), index, ChangeField(old(details)[index], field, value))
    {
      var updated := details;
      updated := updated[index := ChangeField(updated[index], field, value)];
      details := updated;
    }

    /** `validateForm()`: the first failing check sets `error`. */
    method ValidateForm() returns (ok: bool)
      modifies this`error
      ensures ok <==> FormValid()
      ensures error == if ok then old(error) else FormFailure()
    {
      var cs := FormChecks();
      if !Present(userId) {
        FirstFailureIsEarliest(cs, 0);
        error := Some(UserRequired);
        return false;
      }
      if IsBlank(description) {
        FirstFailureIsEarliest(cs, 1);
        error := Some(DescriptionRequired);
        return false;
      }
      if fromWarehouseId == "" || toWarehouseId == "" {
        FirstFailureIsEarliest(cs, 2);
        error := Some(WarehousesRequired);
        return false;
      }
      if fromWarehouseId == toWarehouseId {
        FirstFailureIsEarliest(cs, 3);
        error := Some(WarehousesMustDiffer);
        return false;
      }
      if SomeLineBad(details) {
        FirstFailureIsEarliest(cs, 4);
        error := Some(DetailsIncomplete);
        return false;
      }
      return true;
    }

    /** `handleSubmit()`, given the stored token and the outcome of the create
        request; it returns the request it sends and the route it navigates to. */
    method HandleSubmit(token: Option<string>, server: ServerOutcome)
      returns (sent: Option<TransferRequest>, navigateTo: Option<string>)
      modifies this`error, this`success
      ensures sent.Some? <==> FormValid() && Present(token)
      ensures sent.Some? ==>
        sent.value == TransferRequest(userId, fromWarehouseId, toWarehouseId, description, PayloadLines(details))
      ensures navigateTo.Some? <==> sent.Some? && server == Accepted
      ensures navigateTo.Some? ==>
        navigateTo.value == WarehousesRoute && success == Some(CreatedMessage)
        && error == old(error)
      ensures !FormValid() ==>
        error == FormFailure() && success == old(success)
      ensures FormValid() && !Present(token) ==>
        error == Some(NoAccessToken) && success == old(success)
      ensures sent.Some? && server.Rejected? ==>
        error == Some(Or(server.responseMessage, Or(server.message, CreateFailed)))
        && success == old(success)
    {
      sent, navigateTo := None, None;
      var ok := ValidateForm();
      if !ok {
        return;
      }
      if !Present(token) {
        error := Some(NoAccessToken);
        return;
      }
      var payload := TransferRequest(userId, fromWarehouseId, toWarehouseId, description, PayloadLines(details));
      sent := Some(payload);
      match server
      case Accepted =>
        success := Some(CreatedMessage);
        navigateTo := Some(WarehousesRoute);
      case Rejected(responseMessage, message) =>
        error := Some(Or(responseMessage, Or(message, CreateFailed)));
    }
  }
}
