/** The page that edits an existing warehouse transfer. Rows loaded from the
    server keep their server `id`; rows added on the page have none. */
module WarehouseTransferDetail {
  import opened Basics
  import opened JsString
  import opened JsNumber
  import opened LineItems
  import opened Validation
  import opened Sequences
  import opened Jwt
  import Transfer = CreateWarehouseTransfer

  const UpdatedMessage := "Warehouse transfer updated successfully!"
  const UpdateFailed := "Failed to update warehouse transfer"

  /** One row being edited; `id` is the server's row id, absent for new rows. */
  datatype EditLine = EditLine(id: Option<string>, productId: string, quantity: int)

  /** A row as the server returns it (`{ id, quantity, product: { id } }`). */
  datatype ServerTransferItem = ServerTransferItem(id: string, productId: string, quantity: int)

  /** The fields of the fetched transfer the page reads. */
  datatype ServerTransfer = ServerTransfer(
    description: Option<string>, fromWarehouseId: Option<string>, toWarehouseId: Option<string>,
    items: seq<ServerTransferItem>)

  /** The row `handleAddDetail` appends: no id, no product, quantity 1. */
  const NewLine := EditLine(None, "", 1)

  /** The load mapping `{ id: detail.id, productId: detail.product.id, quantity }`:
      one row per server row, in server order, each keeping its id. */
  function LoadLines(items: seq<ServerTransferItem>): (r: seq<EditLine>)
    ensures |r| == |items|
    ensures forall i :: 0 <= i < |items| ==>
      r[i].id == Some(items[i].id) && r[i].productId == items[i].productId && r[i].quantity == items[i].quantity
  {
    seq(|items|, i requires 0 <= i < |items| => EditLine(Some(items[i].id), items[i].productId, items[i].quantity))
  }

  /** `{ ...line, [field]: field === 'quantity' ? Number(value) || 0 : value }`;
      a row's server id is never touched. */
  function ChangeField(line: EditLine, field: Transfer.TransferField, value: string): (r: EditLine)
    ensures r.id == line.id
    ensures field.ProductIdField? ==> r.productId == value && r.quantity == line.quantity
    ensures field.QuantityField? ==> r.productId == line.productId && r.quantity == NumberOrZero(value)
  {
    match field
    case ProductIdField => line.(productId := value)
    case QuantityField => line.(quantity := NumberOrZero(value))
  }

  predicate LineOk(line: EditLine) {
    line.productId != "" && line.quantity > 0
  }

  predicate SomeLineBad(details: seq<EditLine>) {
    exists i | 0 <= i < |details| :: !LineOk(details[i])
  }

  /** `validateForm`'s checks, in order (this page does not check the user). */
  function Checks(description: string, fromWarehouseId: string, toWarehouseId: string,
                  details: seq<EditLine>): seq<Check>
  {
    [ Check(!IsBlank(description), Transfer.DescriptionRequired),
      Check(fromWarehouseId != "" && toWarehouseId != "", Transfer.WarehousesRequired),
      Check(fromWarehouseId != toWarehouseId, Transfer.WarehousesMustDiffer),
      Check(!SomeLineBad(details), Transfer.DetailsIncomplete) ]
  }

  lemma ValidIff(description: string, fromWarehouseId: string, toWarehouseId: string, details: seq<EditLine>)
    ensures FirstFailure(Checks(description, fromWarehouseId, toWarehouseId, details)) == None
      <==> !IsBlank(description) && fromWarehouseId != "" && toWarehouseId != ""
           && fromWarehouseId != toWarehouseId
           && forall i :: 0 <= i < |details| ==> LineOk(details[i])
  {
    var cs := Checks(description, fromWarehouseId, toWarehouseId, details);
    assert AllPass(cs) <==> cs[0].passes && cs[1].passes && cs[2].passes && cs[3].passes;
  }

  /** The request body of `handleUpdate`. */
  datatype UpdateRequest = UpdateRequest(
    userId: string, description: string, fromWarehouseId: string, toWarehouseId: string,
    warehouseTransferDetails: seq<EditLine>)

  /** `details.map(({ id, productId, quantity }) => ({ id, productId, quantity }))`. */
  function PayloadLines(details: seq<EditLine>): (r: seq<EditLine>)
    ensures r == details
  {
    var r := seq(|details|, i requires 0 <= i < |details| =>
      EditLine(details[i].id, details[i].productId, details[i].quantity));
    assert forall i :: 0 <= i < |details| ==> r[i] == details[i];
    r
  }

  /** Saving a transfer right after loading it sends every server row back
      with its own id, product and quantity, in server order. */
  lemma SaveAfterLoadKeepsIds(items: seq<ServerTransferItem>)
    ensures |PayloadLines(LoadLines(items))| == |items|
    ensures forall i :: 0 <= i < |items| ==> PayloadLines(LoadLines(items))[i].id == Some(items[i].id)
  {
  }

  /** A row added after loading goes out without an id, and the loaded rows
      keep theirs. */
  lemma AddedLineHasNoId(details: seq<EditLine>)
    ensures PayloadLines(AddLine(details, NewLine))[|details|].id == None
    ensures forall i :: 0 <= i < |details| ==> PayloadLines(AddLine(details, NewLine))[i].id == details[i].id
  {
    assert AddLine(details, NewLine)[..|details|] == details;
  }

  class Page {
    const id: Option<string>
    var warehouses: seq<Warehouse>
    var description: string
    var fromWarehouseId: string
    var toWarehouseId: string
    var details: seq<EditLine>
    var error: Option<string>
    var success: Option<string>

    function FormChecks(): seq<Check>
      reads this`description, this`fromWarehouseId, this`toWarehouseId, this`details
    {
      Checks(description, fromWarehouseId, toWarehouseId, details)
    }

    /** The message `validateForm` would show, if any. */
    function FormFailure(): Option<string>
      reads this`description, this`fromWarehouseId, this`toWarehouseId, this`details
    {
      FirstFailure(FormChecks())
    }

    /** The form passes `validateForm`; `ValidIff` shows this is exactly
        `FormFailure() == None`. */
    predicate FormValid()
      reads this`description, this`fromWarehouseId, this`toWarehouseId, this`details
    {
      !IsBlank(description) && fromWarehouseId != "" && toWarehouseId != ""
      && fromWarehouseId != toWarehouseId && !SomeLineBad(details)
    }

    /** The "To Warehouse" selector: every loaded warehouse except the
        chosen source, in list order. */
    function Destinations(): (r: seq<Warehouse>)
      reads this`warehouses, this`fromWarehouseId
      ensures forall i :: 0 <= i < |r| ==> r[i].id != fromWarehouseId
      ensures forall i :: 0 <= i < |warehouses| && warehouses[i].id != fromWarehouseId ==> warehouses[i] in r
      ensures IsSubsequence(r, warehouses)
    {
      Transfer.DestinationOptions(warehouses, fromWarehouseId)
    }

    /** The page before its data arrives. */
    constructor (id: Option<string>)
      ensures this.id == id && warehouses == [] && details == [] && description == ""
      ensures fromWarehouseId == "" && toWarehouseId == "" && error == None && success == None
    {
      this.id := id;
      warehouses := [];
      description := "";
      fromWarehouseId := "";
      toWarehouseId := "";
      details := [];
      error := None;
      success := None;
    }

    /** The form-state part of `fetchData` once the warehouse list and the
        transfer have arrived. */
    method ApplyLoaded(warehouseList: seq<Warehouse>, transfer: ServerTransfer)
      modifies this`warehouses, this`description, this`fromWarehouseId, this`toWarehouseId, this`details
      ensures warehouses == warehouseList
      ensures description == transfer.description.GetOr("")
      ensures fromWarehouseId == transfer.fromWarehouseId.GetOr("")
      ensures toWarehouseId == transfer.toWarehouseId.GetOr("")
      ensures details == LoadLines(transfer.items)
    {
      warehouses := warehouseList;
      description := transfer.description.GetOr("");
      fromWarehouseId := transfer.fromWarehouseId.GetOr("");
      toWarehouseId := transfer.toWarehouseId.GetOr("");
      details := LoadLines(transfer.items);
    }

    method HandleAddDetail()
      modifies this`details
      ensures details == AddLine(old(details), NewLine)
    {
      details := details + [NewLine];
    }

    method HandleRemoveDetail(index: nat)
      modifies this`details
      ensures details == RemoveLine(old(details), index)
    {
      if |details| == 1 {
        return;
      }
      var updated := details;
      if index < |updated| {
        updated := updated[..index] + updated[index + 1..];
      }
      details := updated;
    }

    method HandleDetailChange(index: nat, field: Transfer.TransferField, value: string)
      requires index < |details|
      modifies this`details
      ensures details == UpdateLine(old(details), index, ChangeField(old(details)[index], field, value))
    {
      var updated := details;
      updated := updated[index := ChangeField(updated[index], field, value)];
      details := updated;
    }

    method ValidateForm() returns (ok: bool)
      modifies this`error
      ensures ok <==> FormValid()
      ensures error == if ok then old(error) else FormFailure()
    {
      var cs := FormChecks();
      if IsBlank(description) {
        FirstFailureIsEarliest(cs, 0);
        error := Some(Transfer.DescriptionRequired);
        return false;
      }
      if fromWarehouseId == "" || toWarehouseId == "" {
        FirstFailureIsEarliest(cs, 1);
        error := Some(Transfer.WarehousesRequired);
        return false;
      }
      if fromWarehouseId == toWarehouseId {
        FirstFailureIsEarliest(cs, 2);
        error := Some(Transfer.WarehousesMustDiffer);
        return false;
      }
      if SomeLineBad(details) {
        FirstFailureIsEarliest(cs, 3);
        error := Some(Transfer.DetailsIncomplete);
        return false;
      }
      return true;
    }

    /** `handleUpdate()`, given the stored token, the token decoder and the
        outcome of the update request; the user id is decoded from the same
        token. */
    method HandleUpdate(token: Option<string>, decode: Decoder, server: ServerOutcome)
      returns (sent: Option<UpdateRequest>)
      modifies this`error, this`success
      ensures sent.Some? <==> FormValid() && Present(token) && Present(UserIdFromToken(token, decode))
      ensures sent.Some? ==>
        sent.value == UpdateRequest(UserIdFromToken(token, decode).value, description, fromWarehouseId,
                                    toWarehouseId, PayloadLines(details))
      ensures !FormValid() ==> error == FormFailure() && success == old(success)
      ensures FormValid() && !Present(token) ==>
        error == Some(Transfer.NoAccessToken) && success == old(success)
      ensures FormValid() && Present(token) && !Present(UserIdFromToken(token, decode)) ==>
        error == Some(Transfer.UserRequired) && success == old(success)
      ensures sent.Some? && server == Accepted ==>
        success == Some(UpdatedMessage) && error == old(error)
      ensures sent.Some? && server.Rejected? ==>
        error == Some(Or(server.responseMessage, Or(server.message, UpdateFailed)))
        && success == old(success)
    {
      sent := None;
      var ok := ValidateForm();
      if !ok {
        return;
      }
      if !Present(token) {
        error := Some(Transfer.NoAccessToken);
        return;
      }
      var userId := UserIdFromToken(token, decode);
      if !Present(userId) {
        error := Some(Transfer.UserRequired);
        return;
      }
      sent := Some(UpdateRequest(userId.value, description, fromWarehouseId, toWarehouseId, PayloadLines(details)));
      match server
      case Accepted =>
        success := Some(UpdatedMessage);
      case Rejected(responseMessage, message) =>
        error := Some(Or(responseMessage, Or(message, UpdateFailed)));
    }
  }
}
