/** The page that records goods received from a supplier: a description, a
    supplier and a never-empty list of (product, warehouse, quantity, unit
    price) rows. */
module CreateImport {
  import opened Basics
  import opened JsString
  import opened JsNumber
  import opened LineItems
  import opened Validation
  import opened Jwt

  /** One import row. */
  datatype ImportLine = ImportLine(productId: string, warehouseId: string, quantity: int, importPrice: int)

  /** The row fields the editor can change. */
  datatype ImportField = ProductIdField | WarehouseIdField | QuantityField | ImportPriceField

  /** The row the page starts with and appends: no product, no warehouse,
      quantity 1 and price 0. */
  const DefaultLine := ImportLine("", "", 1, 0)

  const ImportsRoute := "/imports"

  /** The page's messages. */
  const UserRequired := "User authentication required"
  const DescriptionRequired := "Please enter a description"
  const SupplierRequired := "Please select a supplier"
  const DetailsIncomplete := "Please fill all import details correctly"
  const CreatedMessage := "Import record created successfully!"
  const CreateFailed := "Failed to create import record. Please try again."

  /** `{ ...line, [field]: field === 'quantity' || field === 'importPrice'
      ? Number(value) || 0 : value }`: only the named field changes; the two
      numeric fields are coerced, the two ids are stored as typed. */
  function ChangeField(line: ImportLine, field: ImportField, value: string): (r: ImportLine)
    ensures field == ProductIdField ==> r == line.(productId := value)
    ensures field == WarehouseIdField ==> r == line.(warehouseId := value)
    ensures field == QuantityField ==> r == line.(quantity := NumberOrZero(value))
    ensures field == ImportPriceField ==> r == line.(importPrice := NumberOrZero(value))
  {
    match field
    case ProductIdField => line.(productId := value)
    case WarehouseIdField => line.(warehouseId := value)
    case QuantityField => line.(quantity := NumberOrZero(value))
    case ImportPriceField => line.(importPrice := NumberOrZero(value))
  }

  /** A row passes validation when it names a product and a warehouse and has
      a positive quantity and a positive price. */
  predicate LineOk(line: ImportLine) {
    line.productId != "" && line.warehouseId != "" && line.quantity > 0 && line.importPrice > 0
  }

  predicate SomeLineBad(details: seq<ImportLine>) {
    exists i | 0 <= i < |details| :: !LineOk(details[i])
  }

  /** `validateForm`'s checks, in the order it makes them. */
  function Checks(userId: Option<string>, description: string, supplierId: string,
                  details: seq<ImportLine>): seq<Check>
  {
    [ Check(Present(userId), UserRequired),
      Check(!IsBlank(description), DescriptionRequired),
      Check(supplierId != "", SupplierRequired),
      Check(!SomeLineBad(details), DetailsIncomplete) ]
  }

  /** The form is valid exactly when there is a user id, a non-blank
      description, a supplier and only complete rows. */
  lemma ValidIff(userId: Option<string>, description: string, supplierId: string, details: seq<ImportLine>)
    ensures FirstFailure(Checks(userId, description, supplierId, details)) == None
      <==> Present(userId) && !IsBlank(description) && supplierId != ""
           && forall i :: 0 <= i < |details| ==> LineOk(details[i])
  {
    var cs := Checks(userId, description, supplierId, details);
    assert AllPass(cs) <==> cs[0].passes && cs[1].passes && cs[2].passes && cs[3].passes;
  }

  /** A form that still holds an untouched default row cannot be submitted:
      its price is 0. */
  lemma DefaultLineBlocksSubmit(userId: Option<string>, description: string, supplierId: string,
                                details: seq<ImportLine>, i: nat)
    requires i < |details| && details[i] == DefaultLine
    ensures FirstFailure(Checks(userId, description, supplierId, details)) != None
  {
    assert !LineOk(details[i]);
    assert !Checks(userId, description, supplierId, details)[3].passes;
  }

  /** The request body `handleSubmit` sends. */
  datatype ImportRequest = ImportRequest(
    description: string, userId: Option<string>, supplierId: string, importDetails: seq<ImportLine>)

  /** `importDetails.map(({ productId, warehouseId, quantity, importPrice }) => ...)`:
      the rows go out with their four fields, same count, same order. */
  function PayloadLines(details: seq<ImportLine>): (r: seq<ImportLine>)
    ensures r == details
  {
    var r := seq(|details|, i requires 0 <= i < |details| =>
      ImportLine(details[i].productId, details[i].warehouseId, details[i].quantity, details[i].importPrice));
    assert forall i :: 0 <= i < |details| ==> r[i] == details[i];
    r
  }

  /** The page's state. */
  class Page {
    const userId: Option<string>
    var description: string
    var supplierId: string
    var details: seq<ImportLine>
    var error: Option<string>
    var success: Option<string>

    /** The row list is never empty. */
    ghost predicate Valid()
      reads this
    {
      |details| >= 1
    }

    function FormChecks(): seq<Check>
      reads this`description, this`supplierId, this`details
    {
      Checks(userId, description, supplierId, details)
    }

    /** The message `validateForm` shows, if any. */
    function FormFailure(): Option<string>
      reads this`description, this`supplierId, this`details
    {
      FirstFailure(FormChecks())
    }

    /** The form passes `validateForm`; by `ValidIff` this is exactly
        `FormFailure() == None`. */
    predicate FormValid()
      reads this`description, this`supplierId, this`details
    {
      Present(userId) && !IsBlank(description) && supplierId != "" && !SomeLineBad(details)
    }

    /** The page as first rendered. `userId` is `getUserIdFromToken()`: the
        `id` claim of the stored access token, decoded once per render and
        fixed for the handlers of that render. */
    constructor (token: Option<string>, decode: Decoder)
      ensures Valid() && userId == UserIdFromToken(token, decode)
      ensures details == [DefaultLine] && description == "" && supplierId == ""
      ensures error == None && success == None
    {
      userId := UserIdFromToken(token, decode);
      description := "";
      supplierId := "";
      details := [DefaultLine];
      error := None;
      success := None;
    }

    method HandleAddDetail()
      requires Valid()
      modifies this`details
      ensures Valid() && details == AddLine(old(details), DefaultLine)
    {
      details := details + [DefaultLine];
    }

    method HandleRemoveDetail(index: nat)
      requires Valid()
      modifies this`details
      ensures Valid() && details == RemoveLine(old(details), index)
    {
      if |details| == 1 {
        return;
      }
      var updated := details;
      if index < |updated| {
        updated := updated[..index] + updated[index + 1..];
      }
      details := updated;
    }

    method HandleDetailChange(index: nat, field: ImportField, value: string)
      requires Valid() && index < |details|
      modifies this`details
      ensures Valid()
      ensures details == UpdateLine(old(details), index, ChangeField(old(details)[index], field, value))
    {
      var updated := details;
      updated := updated[index := ChangeField(updated[index], field, value)];
      details := updated;
    }

    /** `validateForm()`: the first failing check sets `error`. */
    method ValidateForm() returns (ok: bool)
      modifies this`error
      ensures ok <==> FormValid()
      ensures error == if ok then old(error) else FormFailure()
    {
      var cs := FormChecks();
      if !Present(userId) {
        FirstFailureIsEarliest(cs, 0);
        error := Some(UserRequired);
        return false;
      }
      if IsBlank(description) {
        FirstFailureIsEarliest(cs, 1);
        error := Some(DescriptionRequired);
        return false;
      }
      if supplierId == "" {
        FirstFailureIsEarliest(cs, 2);
        error := Some(SupplierRequired);
        return false;
      }
      if SomeLineBad(details) {
        FirstFailureIsEarliest(cs, 3);
        error := Some(DetailsIncomplete);
        return false;
      }
      return true;
    }

    /** `handleSubmit()`, given the stored token and whether the create
        request succeeds. A missing token is thrown inside the `try`, so it
        ends in the same message as a failed request. */
    method HandleSubmit(token: Option<string>, server: ServerOutcome)
      returns (sent: Option<ImportRequest>, navigateTo: Option<string>)
      modifies this`error, this`success
      ensures sent.Some? <==> FormValid() && Present(token)
      ensures sent.Some? ==>
        sent.value == ImportRequest(description, userId, supplierId, PayloadLines(details))
      ensures navigateTo.Some? <==> sent.Some? && server == Accepted
      ensures navigateTo.Some? ==>
        navigateTo.value == ImportsRoute && success == Some(CreatedMessage) && error == old(error)
      ensures !FormValid() ==> error == FormFailure() && success == old(success)
      ensures FormValid() && (!Present(token) || server.Rejected?) ==>
        error == Some(CreateFailed) && success == old(success)
    {
      sent, navigateTo := None, None;
      var ok := ValidateForm();
      if !ok {
        return;
      }
      if !Present(token) {
        error := Some(CreateFailed);
        return;
      }
      sent := Some(ImportRequest(description, userId, supplierId, PayloadLines(details)));
      if server == Accepted {
        success := Some(CreatedMessage);
        navigateTo := Some(ImportsRoute);
      } else {
        error := Some(CreateFailed);
      }
    }
  }
}
