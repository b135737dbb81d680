/** The page that edits an existing export record. Its rows carry no
    warehouse choices: picking a product sets the row's warehouse to the
    product's first warehouse. It shows the record's total value. */
module ExportDetail {
  import opened Basics
  import opened JsString
  import opened JsNumber
  import opened LineItems

  /** One row being edited. */
  datatype ExportDetailLine = ExportDetailLine(productId: string, warehouseId: string, quantity: int, sellingPrice: int)

  /** The row fields the editor can change. */
  datatype DetailField = ProductIdField | WarehouseIdField | QuantityField | SellingPriceField

  /** The row `handleAddDetail` appends. */
  const DefaultLine := ExportDetailLine("", "", 1, 0)

  /** The page's messages. */
  const LookupFailed := "Failed to fetch product warehouse data"
  const UpdatedMessage := "Export updated successfully!"
  const UpdateFailed := "Failed to update export"

  /** A row as the server returns it: `{ product: { id }, warehouse: { id },
      quantity, sellingPrice }`. */
  datatype ServerExportItem = ServerExportItem(productId: string, warehouseId: string, quantity: int, sellingPrice: int)

  /** The fields of the fetched export record the form reads. */
  datatype ServerExport = ServerExport(description: string, customerId: Option<string>, items: seq<ServerExportItem>)

  /** The load mapping: one row per server row, in server order. */
  function LoadLines(items: seq<ServerExportItem>): (r: seq<ExportDetailLine>)
    ensures |r| == |items|
    ensures forall i :: 0 <= i < |items| ==>
      r[i] == ExportDetailLine(items[i].productId, items[i].warehouseId, items[i].quantity, items[i].sellingPrice)
  {
    seq(|items|, i requires 0 <= i < |items| =>
      ExportDetailLine(items[i].productId, items[i].warehouseId, items[i].quantity, items[i].sellingPrice))
  }

  /** `productData?.warehouseDetails?.[0]?.warehouse?.id || ''`, given the
      ids of the product's warehouses in the order the server lists them. */
  function DefaultWarehouse(warehouseIds: seq<string>): (r: string)
    ensures |warehouseIds| == 0 ==> r == ""
    ensures |warehouseIds| > 0 ==> r == warehouseIds[0]
  {
    if |warehouseIds| == 0 then "" else Or(warehouseIds[0], "")
  }

  /** Picking product `productId` on a row: the warehouse becomes the
      product's first warehouse, or stays cleared when the lookup fails
      (`None`). */
  function SelectProduct(line: ExportDetailLine, productId: string, lookup: Option<seq<string>>): (r: ExportDetailLine)
    ensures r.productId == productId
    ensures r.quantity == line.quantity && r.sellingPrice == line.sellingPrice
    ensures lookup.None? ==> r.warehouseId == ""
    ensures lookup.Some? ==> r.warehouseId == DefaultWarehouse(lookup.value)
  {
    match lookup
    case None => line.(productId := productId, warehouseId := "")
    case Some(ids) => line.(productId := productId, warehouseId := DefaultWarehouse(ids))
  }

  /** The other fields, with `Number(value) || 0` for the numeric ones. */
  function ChangeField(line: ExportDetailLine, field: DetailField, value: string): (r: ExportDetailLine)
    requires !field.ProductIdField?
    ensures field == WarehouseIdField ==> r == line.(warehouseId := value)
    ensures field == QuantityField ==> r == line.(quantity := NumberOrZero(value))
    ensures field == SellingPriceField ==> r == line.(sellingPrice := NumberOrZero(value))
  {
    match field
    case WarehouseIdField => line.(warehouseId := value)
    case QuantityField => line.(quantity := NumberOrZero(value))
    case SellingPriceField => line.(sellingPrice := NumberOrZero(value))
  }

  /** A row's value: quantity times unit price. */
  function LineValue(line: ExportDetailLine): int {
    line.quantity * line.sellingPrice
  }

  /** `totalValue`: `reduce((total, item) => total + item.quantity *
      item.sellingPrice, 0)`, folding from the first row to the last. */
  function TotalValue(details: seq<ExportDetailLine>): (r: int)
    ensures details == [] ==> r == 0
  {
    if details == [] then 0 else TotalValue(details[..|details| - 1]) + LineValue(details[|details| - 1])
  }

  /** The sum of the row values, taken from the first row onwards. */
  function SumValues(details: seq<ExportDetailLine>): int {
    if details == [] then 0 else LineValue(details[0]) + SumValues(details[1..])
  }

  /** The total of two row lists put together is the sum of their totals. */
  lemma {:induction false} TotalValueConcat(a: seq<ExportDetailLine>, b: seq<ExportDetailLine>)
    ensures TotalValue(a + b) == TotalValue(a) + TotalValue(b)
    decreases |b|
  {
    if b != [] {
      var b' := b[..|b| - 1];
      assert (a + b)[..|a + b| - 1] == a + b';
      TotalValueConcat(a, b');
    } else {
      assert a + b == a;
    }
  }

  /** The fold `totalValue` computes is the plain sum of the row values. */
  lemma {:induction false} TotalValueIsSum(details: seq<ExportDetailLine>)
    ensures TotalValue(details) == SumValues(details)
    decreases |details|
  {
    if details != [] {
      TotalValueConcat([details[0]], details[1..]);
      assert [details[0]] + details[1..] == details;
      assert [details[0]][..0] == [];
      TotalValueIsSum(details[1..]);
    }
  }

  /** Adding the default row (quantity 1, price 0) leaves the total as it is. */
  lemma AddDefaultKeepsTotal(details: seq<ExportDetailLine>)
    ensures TotalValue(AddLine(details, DefaultLine)) == TotalValue(details)
  {
    assert AddLine(details, DefaultLine)[..|details|] == details;
  }

  /** The total of a row list with one row singled out. */
  lemma TotalAround(before: seq<ExportDetailLine>, line: ExportDetailLine, after: seq<ExportDetailLine>)
    ensures TotalValue(before + [line] + after) == TotalValue(before) + LineValue(line) + TotalValue(after)
  {
    TotalValueConcat(before + [line], after);
    TotalValueConcat(before, [line]);
    assert [line][..0] == [];
  }

  /** Deleting a row takes exactly that row's value off the total. */
  lemma RemoveLineTotal(details: seq<ExportDetailLine>, index: nat)
    requires |details| != 1 && index < |details|
    ensures TotalValue(RemoveLine(details, index)) == TotalValue(details) - LineValue(details[index])
  {
    var before, after := details[..index], details[index + 1..];
    assert details == before + [details[index]] + after;
    TotalAround(before, details[index], after);
    TotalValueConcat(before, after);
  }

  /** Replacing a row changes the total by the difference of the two rows'
      values. */
  lemma UpdateLineTotal(details: seq<ExportDetailLine>, index: nat, line: ExportDetailLine)
    requires index < |details|
    ensures TotalValue(UpdateLine(details, index, line))
      == TotalValue(details) - LineValue(details[index]) + LineValue(line)
  {
    UpdateLineSplit(details, index, line);
    TotalAround(details[..index], details[index], details[index + 1..]);
    TotalAround(details[..index], line, details[index + 1..]);
  }

  /** The request body of `handleUpdate`. */
  datatype UpdateRequest = UpdateRequest(
    description: string, customerId: string, userId: string, exportDetails: seq<ExportDetailLine>)

  /** `exportDetails.map(({ productId, warehouseId, quantity, sellingPrice }) => ...)`. */
  function PayloadLines(details: seq<ExportDetailLine>): (r: seq<ExportDetailLine>)
    ensures r == details
  {
    var r := seq(|details|, i requires 0 <= i < |details| =>
      ExportDetailLine(details[i].productId, details[i].warehouseId, details[i].quantity, details[i].sellingPrice));
    assert forall i :: 0 <= i < |details| ==> r[i] == details[i];
    r
  }

  class Page {
    const id: Option<string>
    const userId: Option<string>
    var description: string
    var customerId: string
    var details: seq<ExportDetailLine>
    var error: Option<string>
    var success: Option<string>

    /** The page before its data arrives: no rows yet. */
    constructor (id: Option<string>, userId: Option<string>)
      ensures this.id == id && this.userId == userId
      ensures description == "" && customerId == "" && details == []
      ensures error == None && success == None
    {
      this.id := id;
      this.userId := userId;
      description := "";
      customerId := "";
      details := [];
      error := None;
      success := None;
    }

    /** The form-state part of `fetchData` once the record has arrived. */
    method ApplyLoaded(record: ServerExport)
      modifies this`description, this`customerId, this`details
      ensures description == record.description
      ensures customerId == record.customerId.GetOr("")
      ensures details == LoadLines(record.items)
    {
      description := record.description;
      customerId := record.customerId.GetOr("");
      details := LoadLines(record.items);
    }

    method HandleAddDetail()
      modifies this`details
      ensures details == AddLine(old(details), DefaultLine)
    {
      details := details + [DefaultLine];
    }

    method HandleRemoveDetail(index: nat)
      modifies this`details
      ensures details == RemoveLine(old(details), index)
    {
      if |details| == 1 {
        return;
      }
      var updated := details;
      if index < |updated| {
        updated := updated[..index] + updated[index + 1..];
      }
      details := updated;
    }

    /** `handleDetailChange(index, field, value)`, given the stored token and
        the warehouse ids the product lookup returns (`None` when it fails). */
    method HandleDetailChange(index: nat, field: DetailField, value: string,
                              token: Option<string>, lookup: Option<seq<string>>)
      requires index < |details|
      modifies this`details, this`error
      ensures field.ProductIdField? ==>
        var found := if Present(token) then lookup else None;
        details == UpdateLine(old(details), index, SelectProduct(old(details)[index], value, found))
        && error == if found.Some? then old(error) else Some(LookupFailed)
      ensures !field.ProductIdField? ==>
        details == UpdateLine(old(details), index, ChangeField(old(details)[index], field, value))
        && error == old(error)
    {
      var updated := details;
      if field == ProductIdField {
        var found := None;
        if Present(token) {
          found := lookup;
        }
        if found.None? {
          error := Some(LookupFailed);
        }
        updated := updated[index := SelectProduct(updated[index], value, found)];
      } else {
        updated := updated[index := ChangeField(updated[index], field, value)];
      }
      details := updated;
    }

    /** `handleUpdate()`, given the stored token and the outcome of the update
        request. A missing token, record id or user id throws an error with
        no server response, so the default message is shown. */
    method HandleUpdate(token: Option<string>, server: ServerOutcome) returns (sent: Option<UpdateRequest>)
      modifies this`error, this`success
      ensures sent.Some? <==> Present(token) && Present(id) && Present(userId)
      ensures sent.Some? ==>
        sent.value == UpdateRequest(description, customerId, userId.value, PayloadLines(details))
      ensures sent.None? ==> error == Some(UpdateFailed) && success == old(success)
      ensures sent.Some? && server == Accepted ==> success == Some(UpdatedMessage) && error == old(error)
      ensures sent.Some? && server.Rejected? ==>
        error == Some(Or(server.responseMessage, UpdateFailed)) && success == old(success)
    {
      sent := None;
      if !Present(token) || !Present(id) || !Present(userId) {
        error := Some(UpdateFailed);
        return;
      }
      sent := Some(UpdateRequest(description, customerId, userId.value, PayloadLines(details)));
      if server == Accepted {
        success := Some(UpdatedMessage);
      } else {
        error := Some(Or(server.responseMessage, UpdateFailed));
      }
    }
  }
}
