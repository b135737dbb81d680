/** The page that edits an existing import record. It loads the record's
    rows, offers the same row editor as the create page, and sends the rows
    back without checking them. */
module ImportDetail {
  import opened Basics
  import opened JsString
  import opened LineItems
  import Import = CreateImport

  /** The page's messages. */
  const UpdatedMessage := "Import updated successfully!"
  const UpdateFailed := "Failed to update import"

  /** A row as the server returns it: `{ product: { id }, warehouse: { id },
      quantity, importPrice }`. */
  datatype ServerImportItem = ServerImportItem(productId: string, warehouseId: string, quantity: int, importPrice: int)

  /** The fields of the fetched import record the form reads. */
  datatype ServerImport = ServerImport(description: string, supplierId: Option<string>, items: seq<ServerImportItem>)

  /** The load mapping: one row per server row, in server order, with the
      product id, warehouse id, quantity and price of that row. */
  function LoadLines(items: seq<ServerImportItem>): (r: seq<Import.ImportLine>)
    ensures |r| == |items|
    ensures forall i :: 0 <= i < |items| ==>
      r[i] == Import.ImportLine(items[i].productId, items[i].warehouseId, items[i].quantity, items[i].importPrice)
  {
    seq(|items|, i requires 0 <= i < |items| =>
      Import.ImportLine(items[i].productId, items[i].warehouseId, items[i].quantity, items[i].importPrice))
  }

  /** The request body of `handleUpdate`. */
  datatype UpdateRequest = UpdateRequest(
    description: string, supplierId: string, userId: string, importDetails: seq<Import.ImportLine>)

  /** Saving right after loading sends every server row back unchanged, in
      server order. */
  lemma SaveAfterLoad(items: seq<ServerImportItem>)
    ensures |Import.PayloadLines(LoadLines(items))| == |items|
    ensures forall i :: 0 <= i < |items| ==>
      var line := Import.PayloadLines(LoadLines(items))[i];
      line.productId == items[i].productId && line.warehouseId == items[i].warehouseId
      && line.quantity == items[i].quantity && line.importPrice == items[i].importPrice
  {
  }

  class Page {
    const id: Option<string>
    const userId: Option<string>
    var description: string
    var supplierId: string
    var details: seq<Import.ImportLine>
    var error: Option<string>
    var success: Option<string>

    /** The page before its data arrives: no rows yet. */
    constructor (id: Option<string>, userId: Option<string>)
      ensures this.id == id && this.userId == userId
      ensures description == "" && supplierId == "" && details == []
      ensures error == None && success == None
    {
      this.id := id;
      this.userId := userId;
      description := "";
      supplierId := "";
      details := [];
      error := None;
      success := None;
    }

    /** The form-state part of `fetchData` once the record has arrived. */
    method ApplyLoaded(record: ServerImport)
      modifies this`description, this`supplierId, this`details
      ensures description == record.description
      ensures supplierId == record.supplierId.GetOr("")
      ensures details == LoadLines(record.items)
    {
      description := record.description;
      supplierId := record.supplierId.GetOr("");
      details := LoadLines(record.items);
    }

    method HandleAddDetail()
      modifies this`details
      ensures details == AddLine(old(details), Import.DefaultLine)
    {
      details := details + [Import.DefaultLine];
    }

    method HandleRemoveDetail(index: nat)
      modifies this`details
      ensures details == RemoveLine(old(details), index)
    {
      if |details| == 1 {
        return;
      }
      var updated := details;
      if index < |updated| {
        updated := updated[..index] + updated[index + 1..];
      }
      details := updated;
    }

    method HandleDetailChange(index: nat, field: Import.ImportField, value: string)
      requires index < |details|
      modifies this`details
      ensures details == UpdateLine(old(details), index, Import.ChangeField(old(details)[index], field, value))
    {
      var updated := details;
      updated := updated[index := Import.ChangeField(updated[index], field, value)];
      details := updated;
    }

    /** `handleUpdate()`, given the stored token and the outcome of the update
        request. A missing token, record id or user id throws
        `Error('Invalid request')` inside the `try`; that error has no server
        response, so the message shown is the default one. The rows are not
        validated: whatever the editor holds is sent. */
    method HandleUpdate(token: Option<string>, server: ServerOutcome) returns (sent: Option<UpdateRequest>)
      modifies this`error, this`success
      ensures sent.Some? <==> Present(token) && Present(id) && Present(userId)
      ensures sent.Some? ==>
        sent.value == UpdateRequest(description, supplierId, userId.value, Import.PayloadLines(details))
      ensures sent.None? ==> error == Some(UpdateFailed) && success == old(success)
      ensures sent.Some? && server == Accepted ==> success == Some(UpdatedMessage) && error == old(error)
      ensures sent.Some? && server.Rejected? ==>
        error == Some(Or(server.responseMessage, UpdateFailed)) && success == old(success)
    {
      sent := None;
      if !Present(token) || !Present(id) || !Present(userId) {
        error := Some(UpdateFailed);
        return;
      }
      sent := Some(UpdateRequest(description, supplierId, userId.value, Import.PayloadLines(details)));
      if server == Accepted {
        success := Some(UpdatedMessage);
      } else {
        error := Some(Or(server.responseMessage, UpdateFailed));
      }
    }
  }
}
