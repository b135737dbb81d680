/** The page that records goods sent to a customer: a description, an
    optional customer and a never-empty list of (product, warehouse, quantity,
    unit price) rows. Picking a product on a row looks up the warehouses that
    stock it; the row's warehouse must then be chosen among them. */
module CreateExport {
  import opened Basics
  import opened JsString
  import opened JsNumber
  import opened LineItems
  import opened Validation
  import opened Jwt

  /** One export row; `productWarehouses` are the warehouse choices offered
      for the row's product. */
  datatype ExportLine = ExportLine(
    productId: string, warehouseId: string, quantity: int, sellingPrice: int,
    productWarehouses: seq<Warehouse>)

  /** The row fields the editor can change. */
  datatype ExportField = ProductIdField | WarehouseIdField | QuantityField | SellingPriceField

  /** The row the page starts with and appends. */
  const DefaultLine := ExportLine("", "", 1, 0, [])

  const ExportsRoute := "/exports"

  /** The page's messages. */
  const UserRequired := "User authentication required"
  const DescriptionRequired := "Please enter a description"
  const DetailsIncomplete := "Please fill all export details correctly"
  const LookupFailed := "Failed to fetch product warehouse data"
  const CreatedMessage := "Export record created successfully!"
  const CreateFailed := "Failed to create export record. Please try again."

  /** Picking product `productId` on a row: the product is stored, the
      warehouse is cleared, and the choices become the product's warehouses
      as looked up (`None` when the lookup fails, which leaves no choice). */
  function SelectProduct(line: ExportLine, productId: string, lookup: Option<seq<Warehouse>>): (r: ExportLine)
    ensures r.productId == productId && r.warehouseId == ""
    ensures r.quantity == line.quantity && r.sellingPrice == line.sellingPrice
    ensures r.productWarehouses == if lookup.Some? then lookup.value else []
  {
    line.(productId := productId, warehouseId := "", productWarehouses := lookup.GetOr([]))
  }

  /** The other fields: `{ ...line, [field]: field === 'quantity' ||
      field === 'sellingPrice' ? Number(value) || 0 : value }`. */
  function ChangeField(line: ExportLine, field: ExportField, value: string): (r: ExportLine)
    requires !field.ProductIdField?
    ensures field == WarehouseIdField ==> r == line.(warehouseId := value)
    ensures field == QuantityField ==> r == line.(quantity := NumberOrZero(value))
    ensures field == SellingPriceField ==> r == line.(sellingPrice := NumberOrZero(value))
  {
    match field
    case WarehouseIdField => line.(warehouseId := value)
    case QuantityField => line.(quantity := NumberOrZero(value))
    case SellingPriceField => line.(sellingPrice := NumberOrZero(value))
  }

  /** `disabled={!detail.productWarehouses?.length}`. */
  predicate WarehouseSelectorDisabled(line: ExportLine) {
    |line.productWarehouses| == 0
  }

  /** A row passes validation when it names a product and a warehouse and has
      a positive quantity and a positive price. */
  predicate LineOk(line: ExportLine) {
    line.productId != "" && line.warehouseId != "" && line.quantity > 0 && line.sellingPrice > 0
  }

  predicate SomeLineBad(details: seq<ExportLine>) {
    exists i | 0 <= i < |details| :: !LineOk(details[i])
  }

  /** Picking a product always leaves the row incomplete until a warehouse
      is chosen, and when the lookup fails the warehouse selector is
      disabled, so that row blocks submission. */
  lemma SelectProductNeedsWarehouse(line: ExportLine, productId: string, lookup: Option<seq<Warehouse>>)
    ensures !LineOk(SelectProduct(line, productId, lookup))
    ensures lookup.None? ==> WarehouseSelectorDisabled(SelectProduct(line, productId, lookup))
  {
  }

  /** `validateForm`'s checks, in order; a customer is not among them. */
  function Checks(userId: Option<string>, description: string, details: seq<ExportLine>): seq<Check>
  {
    [ Check(Present(userId), UserRequired),
      Check(!IsBlank(description), DescriptionRequired),
      Check(!SomeLineBad(details), DetailsIncomplete) ]
  }

  /** The form is valid exactly when there is a user id, a non-blank
      description and only complete rows, whatever the customer. */
  lemma ValidIff(userId: Option<string>, description: string, details: seq<ExportLine>)
    ensures FirstFailure(Checks(userId, description, details)) == None
      <==> Present(userId) && !IsBlank(description)
           && forall i :: 0 <= i < |details| ==> LineOk(details[i])
  {
    var cs := Checks(userId, description, details);
    assert AllPass(cs) <==> cs[0].passes && cs[1].passes && cs[2].passes;
  }

  /** A row as it is sent: the warehouse choices are dropped. */
  datatype ExportItem = ExportItem(productId: string, warehouseId: string, quantity: int, sellingPrice: int)

  /** The request body `handleSubmit` sends. */
  datatype ExportRequest = ExportRequest(
    description: string, userId: Option<string>, customerId: string, exportDetails: seq<ExportItem>)

  function Item(line: ExportLine): ExportItem {
    ExportItem(line.productId, line.warehouseId, line.quantity, line.sellingPrice)
  }

  /** `exportDetails.map(({ productId, warehouseId, quantity, sellingPrice }) => ...)`:
      one item per row, same order, carrying the row's four sent fields. */
  function PayloadLines(details: seq<ExportLine>): (r: seq<ExportItem>)
    ensures |r| == |details|
    ensures forall i :: 0 <= i < |details| ==>
      r[i].productId == details[i].productId && r[i].warehouseId == details[i].warehouseId
      && r[i].quantity == details[i].quantity && r[i].sellingPrice == details[i].sellingPrice
  {
    seq(|details|, i requires 0 <= i < |details| => Item(details[i]))
  }

  /** The warehouse choices of a row never reach the server: rows that differ
      only in their choices give the same payload. */
  lemma PayloadIgnoresChoices(details: seq<ExportLine>, i: nat, choices: seq<Warehouse>)
    requires i < |details|
    ensures PayloadLines(details[i := details[i].(productWarehouses := choices)]) == PayloadLines(details)
  {
    var changed := details[i := details[i].(productWarehouses := choices)];
    assert forall k :: 0 <= k < |details| ==> PayloadLines(changed)[k] == PayloadLines(details)[k];
  }

  /** The page's state. */
  class Page {
    const userId: Option<string>
    var description: string
    var customerId: string
    var details: seq<ExportLine>
    var error: Option<string>
    var success: Option<string>

    /** The row list is never empty. */
    ghost predicate Valid()
      reads this
    {
      |details| >= 1
    }

    function FormChecks(): seq<Check>
      reads this`description, this`details
    {
      Checks(userId, description, details)
    }

    /** The message `validateForm` shows, if any. */
    function FormFailure(): Option<string>
      reads this`description, this`details
    {
      FirstFailure(FormChecks())
    }

    /** The form passes `validateForm`; by `ValidIff` this is exactly
        `FormFailure() == None`. */
    predicate FormValid()
      reads this`description, this`details
    {
      Present(userId) && !IsBlank(description) && !SomeLineBad(details)
    }

    /** The page as first rendered. `userId` is `getUserIdFromToken()`: the
        `id` claim of the stored access token, decoded once per render and
        fixed for the handlers of that render. */
    constructor (token: Option<string>, decode: Decoder)
      ensures Valid() && userId == UserIdFromToken(token, decode)
      ensures details == [DefaultLine] && description == "" && customerId == ""
      ensures error == None && success == None
    {
      userId := UserIdFromToken(token, decode);
      description := "";
      customerId := "";
      details := [DefaultLine];
      error := None;
      success := None;
    }

    method HandleAddDetail()
      requires Valid()
      modifies this`details
      ensures Valid() && details == AddLine(old(details), DefaultLine)
    {
      details := details + [DefaultLine];
    }

    method HandleRemoveDetail(index: nat)
      requires Valid()
      modifies this`details
      ensures Valid() && details == RemoveLine(old(details), index)
    {
      if |details| == 1 {
        return;
      }
      var updated := details;
      if index < |updated| {
        updated := updated[..index] + updated[index + 1..];
      }
      details := updated;
    }

    /** `handleDetailChange(index, field, value)`, given the stored token and
        the warehouses the product lookup returns (`None` when it fails). The
        lookup is made only for a product change and only with a token. */
    method HandleDetailChange(index: nat, field: ExportField, value: string,
                              token: Option<string>, lookup: Option<seq<Warehouse>>)
      requires Valid() && index < |details|
      modifies this`details, this`error
      ensures Valid()
      ensures field.ProductIdField? ==>
        var found := if Present(token) then lookup else None;
        details == UpdateLine(old(details), index, SelectProduct(old(details)[index], value, found))
        && error == if found.Some? then old(error) else Some(LookupFailed)
      ensures !field.ProductIdField? ==>
        details == UpdateLine(old(details), index, ChangeField(old(details)[index], field, value))
        && error == old(error)
    {
      var updated := details;
      if field == ProductIdField {
        var found := None;
        if Present(token) {
          found := lookup;
        }
        if found.None? {
          error := Some(LookupFailed);
        }
        updated := updated[index := SelectProduct(updated[index], value, found)];
      } else {
        updated := updated[index := ChangeField(updated[index], field, value)];
      }
      details := updated;
    }

    /** `validateForm()`: the first failing check sets `error`. */
    method ValidateForm() returns (ok: bool)
      modifies this`error
      ensures ok <==> FormValid()
      ensures error == if ok then old(error) else FormFailure()
    {
      var cs := FormChecks();
      if !Present(userId) {
        FirstFailureIsEarliest(cs, 0);
        error := Some(UserRequired);
        return false;
      }
      if IsBlank(description) {
        FirstFailureIsEarliest(cs, 1);
        error := Some(DescriptionRequired);
        return false;
      }
      if SomeLineBad(details) {
        FirstFailureIsEarliest(cs, 2);
        error := Some(DetailsIncomplete);
        return false;
      }
      return true;
    }

    /** `handleSubmit()`, given the stored token and whether the create
        request succeeds; a missing token ends in the same message as a failed
        request. */
    method HandleSubmit(token: Option<string>, server: ServerOutcome)
      returns (sent: Option<ExportRequest>, navigateTo: Option<string>)
      modifies this`error, this`success
      ensures sent.Some? <==> FormValid() && Present(token)
      ensures sent.Some? ==>
        sent.value == ExportRequest(description, userId, customerId, PayloadLines(details))
      ensures navigateTo.Some? <==> sent.Some? && server == Accepted
      ensures navigateTo.Some? ==>
        navigateTo.value == ExportsRoute && success == Some(CreatedMessage) && error == old(error)
      ensures !FormValid() ==> error == FormFailure() && success == old(success)
      ensures FormValid() && (!Present(token) || server.Rejected?) ==>
        error == Some(CreateFailed) && success == old(success)
    {
      sent, navigateTo := None, None;
      var ok := ValidateForm();
      if !ok {
        return;
      }
      if !Present(token) {
        error := Some(CreateFailed);
        return;
      }
      sent := Some(ExportRequest(description, userId, customerId, PayloadLines(details)));
      if server == Accepted {
        success := Some(CreatedMessage);
        navigateTo := Some(ExportsRoute);
      } else {
        error := Some(CreateFailed);
      }
    }
  }
}
