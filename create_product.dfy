/** The page that creates a product: a name, a description, an optional
    image, stock thresholds, a selling price and a category, sent as a
    multipart body together with the signed-in user's id. */
module CreateProduct {
  import opened Basics
  import opened JsString
  import opened JsNumber
  import opened Validation
  import opened Jwt
  import opened FormData

  /** The page's form state; `image` is the picked file, if any. */
  datatype ProductForm = ProductForm(
    name: string, description: string, image: Option<ImageFile>, minimumStock: string,
    sellingPrice: string, orderStock: string, categoryId: string)

  /** The text inputs `handleChange` writes by their `name` attribute. */
  datatype ProductField =
    NameField | DescriptionField | MinimumStockField | SellingPriceField | OrderStockField | CategoryIdField

  const EmptyForm := ProductForm("", "", None, "", "", "", "")

  const ProductsRoute := "/products"

  /** The page's messages. */
  const NameRequired := "Product name is required"
  const PriceRequired := "Selling price must be greater than 0"
  const AuthRequired := "Authentication required"
  const CreatedMessage := "Product created successfully!"
  const CreateFailed := "Failed to create product!"

  /** The keys of the multipart body, one per field. */
  datatype ProductKey =
    NameKey | DescriptionKey | ImageKey | MinimumStockKey | SellingPriceKey | OrderStockKey | CategoryIdKey | UserIdKey

  /** The text of each key as it goes over the wire. */
  function KeyName(k: ProductKey): string {
    match k
    case NameKey => "name"
    case DescriptionKey => "description"
    case ImageKey => "image"
    case MinimumStockKey => "minimumStock"
    case SellingPriceKey => "sellingPrice"
    case OrderStockKey => "orderStock"
    case CategoryIdKey => "categoryId"
    case UserIdKey => "userId"
  }

  /** `setFormData(prev => ({ ...prev, [name]: value }))`: the named field
      takes the typed text and every other field keeps its value. */
  function SetField(form: ProductForm, field: ProductField, value: string): (r: ProductForm)
    ensures r.image == form.image
    ensures r.name == (if field == NameField then value else form.name)
    ensures r.description == (if field == DescriptionField then value else form.description)
    ensures r.minimumStock == (if field == MinimumStockField then value else form.minimumStock)
    ensures r.sellingPrice == (if field == SellingPriceField then value else form.sellingPrice)
    ensures r.orderStock == (if field == OrderStockField then value else form.orderStock)
    ensures r.categoryId == (if field == CategoryIdField then value else form.categoryId)
  {
    match field
    case NameField => form.(name := value)
    case DescriptionField => form.(description := value)
    case MinimumStockField => form.(minimumStock := value)
    case SellingPriceField => form.(sellingPrice := value)
    case OrderStockField => form.(orderStock := value)
    case CategoryIdField => form.(categoryId := value)
  }

  /** `!sellingPrice || Number(sellingPrice) <= 0`: an empty price, or one
      whose value is zero or negative. NaN is not `<= 0`, so text that is not
      a number is not rejected here. */
  predicate PriceRejected(price: string) {
    price == "" || (ParseNumber(price).Num? && ParseNumber(price).n <= 0)
  }

  /** `validateForm`'s checks, in order. */
  function Checks(form: ProductForm): seq<Check> {
    [ Check(!IsBlank(form.name), NameRequired),
      Check(!PriceRejected(form.sellingPrice), PriceRequired) ]
  }

  /** The form passes `validateForm`. */
  predicate FormOk(form: ProductForm) {
    !IsBlank(form.name) && !PriceRejected(form.sellingPrice)
  }

  /** The form is valid exactly when the name is not blank and the price is
      not rejected; a blank name is reported before a bad price. */
  lemma ValidIff(form: ProductForm)
    ensures FirstFailure(Checks(form)) == None <==> FormOk(form)
    ensures IsBlank(form.name) ==> FirstFailure(Checks(form)) == Some(NameRequired)
    ensures !IsBlank(form.name) && PriceRejected(form.sellingPrice) ==>
      FirstFailure(Checks(form)) == Some(PriceRequired)
  {
    var cs := Checks(form);
    assert AllPass(cs) <==> cs[0].passes && cs[1].passes;
    if IsBlank(form.name) {
      FirstFailureIsEarliest(cs, 0);
    } else if PriceRejected(form.sellingPrice) {
      FirstFailureIsEarliest(cs, 1);
    }
  }

  /** A whitespace-only price counts as 0 (`Number('  ') === 0`) and is rejected. */
  lemma BlankPriceRejected(price: string)
    requires IsBlank(price)
    ensures PriceRejected(price)
  {
  }

  /** A price that is not a number passes validation. */
  lemma NonNumericPriceAccepted()
    ensures FormOk(ProductForm("Desk", "", None, "", "abc", "", ""))
  {
    TrimOfUnpadded("abc");
    assert !IsDigit("abc"[0]);
    assert !IsSpace("Desk"[0]);
  }

  /** The multipart body `handleSubmit` builds, part by part. */
  function Entries(form: ProductForm, userId: string): seq<Part<ProductKey>> {
    var p1 := Append([], NameKey, Text(Trim(form.name)));
    var p2 := Append(p1, DescriptionKey, Text(Trim(form.description)));
    var p3 := if form.image.Some? then Append(p2, ImageKey, File(form.image.value)) else p2;
    var p4 := if form.minimumStock != "" then Append(p3, MinimumStockKey, Text(form.minimumStock)) else p3;
    var p5 := Append(p4, SellingPriceKey, Text(form.sellingPrice));
    var p6 := if form.orderStock != "" then Append(p5, OrderStockKey, Text(form.orderStock)) else p5;
    var p7 := Append(p6, CategoryIdKey, Text(form.categoryId));
    Append(p7, UserIdKey, Text(userId))
  }

  /** What the create endpoint should read for each field: name and
      description trimmed; image, minimum stock and order stock only when
      given; price, category and user id always. */
  function Field(form: ProductForm, userId: string, k: ProductKey): Option<PartValue> {
    match k
    case NameKey => Some(Text(Trim(form.name)))
    case DescriptionKey => Some(Text(Trim(form.description)))
    case ImageKey => if form.image.Some? then Some(File(form.image.value)) else None
    case MinimumStockKey => if form.minimumStock != "" then Some(Text(form.minimumStock)) else None
    case SellingPriceKey => Some(Text(form.sellingPrice))
    case OrderStockKey => if form.orderStock != "" then Some(Text(form.orderStock)) else None
    case CategoryIdKey => Some(Text(form.categoryId))
    case UserIdKey => Some(Text(userId))
  }

  /** The body carries exactly `Field` for every key. */
  lemma PayloadFields(form: ProductForm, userId: string)
    ensures forall k :: Get(Entries(form, userId), k) == Field(form, userId, k)
  {
    var p := Append([], NameKey, Text(Trim(form.name)));
    GetAppendAll([], NameKey, Text(Trim(form.name)));
    GetAppendAll(p, DescriptionKey, Text(Trim(form.description)));
    p := Append(p, DescriptionKey, Text(Trim(form.description)));
    if form.image.Some? {
      GetAppendAll(p, ImageKey, File(form.image.value));
      p := Append(p, ImageKey, File(form.image.value));
    }
    if form.minimumStock != "" {
      GetAppendAll(p, MinimumStockKey, Text(form.minimumStock));
      p := Append(p, MinimumStockKey, Text(form.minimumStock));
    }
    GetAppendAll(p, SellingPriceKey, Text(form.sellingPrice));
    p := Append(p, SellingPriceKey, Text(form.sellingPrice));
    if form.orderStock != "" {
      GetAppendAll(p, OrderStockKey, Text(form.orderStock));
      p := Append(p, OrderStockKey, Text(form.orderStock));
    }
    GetAppendAll(p, CategoryIdKey, Text(form.categoryId));
    p := Append(p, CategoryIdKey, Text(form.categoryId));
    GetAppendAll(p, UserIdKey, Text(userId));
    p := Append(p, UserIdKey, Text(userId));
    assert p == Entries(form, userId);
  }

  /** A form that passes validation sends a name that is not empty. */
  lemma ValidFormSendsName(form: ProductForm, userId: string)
    requires FormOk(form)
    ensures exists t :: t != "" && Get(Entries(form, userId), NameKey) == Some(Text(t))
  {
    assert Field(form, userId, NameKey) == Some(Text(Trim(form.name)));
    PayloadFields(form, userId);
    BlankIffTrimEmpty(form.name);
  }

  /** The `formDataToSend.append` calls of `handleSubmit`, in order. */
  method BuildBody(form: ProductForm, userId: string) returns (body: seq<Part<ProductKey>>)
    ensures body == Entries(form, userId)
  {
    body := [];
    body := Append(body, NameKey, Text(Trim(form.name)));
    body := Append(body, DescriptionKey, Text(Trim(form.description)));
    if form.image.Some? {
      body := Append(body, ImageKey, File(form.image.value));
    }
    if form.minimumStock != "" {
      body := Append(body, MinimumStockKey, Text(form.minimumStock));
    }
    body := Append(body, SellingPriceKey, Text(form.sellingPrice));
    if form.orderStock != "" {
      body := Append(body, OrderStockKey, Text(form.orderStock));
    }
    body := Append(body, CategoryIdKey, Text(form.categoryId));
    body := Append(body, UserIdKey, Text(userId));
  }

  class Page {
    var form: ProductForm
    var isSubmitting: bool
    var snackbar: Snackbar

    constructor ()
      ensures form == EmptyForm && !isSubmitting && snackbar == Snackbar(false, "", SuccessSeverity)
    {
      form := EmptyForm;
      isSubmitting := false;
      snackbar := Snackbar(false, "", SuccessSeverity);
    }

    /** The snackbar is open with `message` as an error. */
    predicate ShowsError(message: Option<string>)
      reads this`snackbar
    {
      message.Some? && snackbar == Snackbar(true, message.value, ErrorSeverity)
    }

    /** `handleChange`. */
    method HandleChange(field: ProductField, value: string)
      modifies this`form
      ensures form == SetField(old(form), field, value)
    {
      form := SetField(form, field, value);
    }

    /** `handleImageChange`: a picked file replaces the image; an empty pick
      changes nothing. */
    method HandleImageChange(picked: Option<ImageFile>)
      modifies this`form
      ensures form == if picked.Some? then old(form).(image := picked) else old(form)
    {
      if picked.Some? {
        form := form.(image := picked);
      }
    }

    /** `validateForm()`: the first failing check shows an error snackbar. */
    method ValidateForm() returns (ok: bool)
      modifies this`snackbar
      ensures ok <==> FormOk(form)
      ensures !ok ==> ShowsError(FirstFailure(Checks(form)))
      ensures ok ==> snackbar == old(snackbar)
    {
      ValidIff(form);
      if IsBlank(form.name) {
        snackbar := Snackbar(true, NameRequired, ErrorSeverity);
        return false;
      }
      if form.sellingPrice == "" || (ParseNumber(form.sellingPrice).Num? && ParseNumber(form.sellingPrice).n <= 0) {
        snackbar := Snackbar(true, PriceRequired, ErrorSeverity);
        return false;
      }
      return true;
    }

    /** `handleSubmit()`, given the stored token, the token decoder and the
      outcome of the create request; it returns the body it sends and the
      route it navigates to. */
    method HandleSubmit(token: Option<string>, decode: Decoder, server: ServerOutcome)
      returns (sent: Option<seq<Part<ProductKey>>>, navigateTo: Option<string>)
      modifies this`snackbar, this`isSubmitting
      ensures sent.Some? <==>
        FormOk(form) && !old(isSubmitting) && Present(token) && Present(UserIdFromToken(token, decode))
      ensures sent.Some? ==> sent.value == Entries(form, UserIdFromToken(token, decode).value)
      ensures !FormOk(form) ==>
        ShowsError(FirstFailure(Checks(form))) && isSubmitting == old(isSubmitting)
      ensures FormOk(form) && old(isSubmitting) ==> snackbar == old(snackbar) && isSubmitting
      ensures FormOk(form) && !old(isSubmitting) ==> !isSubmitting
      ensures FormOk(form) && !old(isSubmitting) && !(Present(token) && Present(UserIdFromToken(token, decode))) ==>
        snackbar == Snackbar(true, AuthRequired, ErrorSeverity)
      ensures navigateTo.Some? <==> sent.Some? && server == Accepted
      ensures navigateTo.Some? ==>
        navigateTo.value == ProductsRoute && snackbar == Snackbar(true, CreatedMessage, SuccessSeverity)
      ensures sent.Some? && server.Rejected? ==>
        snackbar == Snackbar(true, Or(server.message, CreateFailed), ErrorSeverity)
    {
      sent, navigateTo := None, None;
      var ok := ValidateForm();
      if !ok || isSubmitting {
        return;
      }
      isSubmitting := true;
      var userId := UserIdFromToken(token, decode);
      if !Present(token) || !Present(userId) {
        snackbar := Snackbar(true, AuthRequired, ErrorSeverity);
        isSubmitting := false;
        return;
      }
      var body := BuildBody(form, userId.value);
      sent := Some(body);
      match server {
        case Accepted =>
          snackbar := Snackbar(true, CreatedMessage, SuccessSeverity);
          navigateTo := Some(ProductsRoute);
        case Rejected(_, message) =>
          snackbar := Snackbar(true, Or(message, CreateFailed), ErrorSeverity);
      }
      isSubmitting := false;
    }
  }
}
