/** The page that shows, edits and deletes one product. The update body is
    multipart, like the create body, but with its own rules for the image
    and the order stock. */
module ProductDetail {
  import opened Basics
  import opened JsString
  import opened JsNumber
  import opened FormData
  import Product = CreateProduct

  /** The editable text fields; `currentStock` is shown read-only. */
  datatype DetailForm = DetailForm(
    name: string, description: string, currentStock: string, sellingPrice: string,
    minimumStock: string, orderStock: string, categoryId: string)

  /** The inputs `handleChange` writes by their `name` attribute. */
  datatype DetailField =
    NameField | DescriptionField | SellingPriceField | MinimumStockField | OrderStockField | CategoryIdField

  /** The fields of the fetched product the page reads; `image` is the
      stored image's URL. */
  datatype ServerProduct = ServerProduct(
    name: Option<string>, description: Option<string>, currentStock: Option<int>,
    sellingPrice: Option<int>, minimumStock: Option<int>, orderStock: Option<int>,
    categoryId: Option<string>, image: Option<string>)

  const EmptyForm := DetailForm("", "", "", "", "", "", "")

  /** The page's messages. */
  const MissingData := "Missing required data"
  const LoadFailed := "Failed to load data"
  const UpdatedMessage := "Product updated successfully"
  const UpdateFailed := "Failed to update product"
  const DeletedMessage := "Product deleted successfully"
  const DeleteFailed := "Failed to delete product"
  const ImageRemoved := "Image Removed!"

  /** `n?.toString() || missing`. */
  function NumberText(n: Option<int>, missing: string): (r: string)
    ensures n.Some? ==> ParseNumber(r) == Num(n.value)
    ensures n.None? ==> r == missing
  {
    if n.Some? then
      ParseIntToString(n.value);
      IntToString(n.value)
    else missing
  }

  /** The form `fetchData` fills in: missing texts become '', a missing
      current stock shows '0', and a number shows its decimal text. */
  function LoadedForm(p: ServerProduct): (r: DetailForm)
    ensures r.name == p.name.GetOr("") && r.description == p.description.GetOr("")
    ensures r.categoryId == p.categoryId.GetOr("")
    ensures r.currentStock != ""
  {
    DetailForm(p.name.GetOr(""), p.description.GetOr(""), NumberText(p.currentStock, "0"),
               NumberText(p.sellingPrice, ""), NumberText(p.minimumStock, ""),
               NumberText(p.orderStock, ""), p.categoryId.GetOr(""))
  }

  /** Every number the form shows reads back as the product's number, and a
      missing current stock reads back as 0. */
  lemma {:induction false} LoadedNumbersReadBack(p: ServerProduct)
    ensures ParseNumber(LoadedForm(p).currentStock) == Num(p.currentStock.GetOr(0))
    ensures p.sellingPrice.Some? ==> ParseNumber(LoadedForm(p).sellingPrice) == Num(p.sellingPrice.value)
    ensures p.sellingPrice.None? ==> LoadedForm(p).sellingPrice == ""
    ensures p.minimumStock.Some? ==> ParseNumber(LoadedForm(p).minimumStock) == Num(p.minimumStock.value)
    ensures p.minimumStock.None? ==> LoadedForm(p).minimumStock == ""
  {
    if p.currentStock.None? {
      ParseIntToString(0);
      assert IntToString(0) == "0";
    }
  }

  /** `setFormData(prev => ({ ...prev, [name]: value }))`. */
  function SetField(form: DetailForm, field: DetailField, value: string): (r: DetailForm)
    ensures r.currentStock == form.currentStock
    ensures r.name == (if field == NameField then value else form.name)
    ensures r.description == (if field == DescriptionField then value else form.description)
    ensures r.sellingPrice == (if field == SellingPriceField then value else form.sellingPrice)
    ensures r.minimumStock == (if field == MinimumStockField then value else form.minimumStock)
    ensures r.orderStock == (if field == OrderStockField then value else form.orderStock)
    ensures r.categoryId == (if field == CategoryIdField then value else form.categoryId)
  {
    match field
    case NameField => form.(name := value)
    case DescriptionField => form.(description := value)
    case SellingPriceField => form.(sellingPrice := value)
    case MinimumStockField => form.(minimumStock := value)
    case OrderStockField => form.(orderStock := value)
    case CategoryIdField => form.(categoryId := value)
  }

  /** The image part of an update: a newly picked file; otherwise an empty
      text when the product has no stored image, which clears it; otherwise
      no part, which keeps it. */
  function ImagePart(selected: Option<ImageFile>, productImage: Option<string>): Option<PartValue> {
    if selected.Some? then Some(File(selected.value))
    else if !Present(productImage) then Some(Text(""))
    else None
  }

  /** The multipart body `handleUpdate` builds, part by part. */
  function UpdateEntries(form: DetailForm, selected: Option<ImageFile>, productImage: Option<string>)
    : seq<Part<Product.ProductKey>>
  {
    var p1 := Append([], Product.NameKey, Text(form.name));
    var p2 := Append(p1, Product.DescriptionKey, Text(form.description));
    var p3 := Append(p2, Product.SellingPriceKey, Text(form.sellingPrice));
    var p4 := Append(p3, Product.MinimumStockKey, Text(form.minimumStock));
    var p5 := if form.minimumStock != "" then Append(p4, Product.OrderStockKey, Text(form.orderStock)) else p4;
    var image := ImagePart(selected, productImage);
    var p6 := if image.Some? then Append(p5, Product.ImageKey, image.value) else p5;
    Append(p6, Product.CategoryIdKey, Text(Or(form.categoryId, "")))
  }

  /** What the update endpoint should read for each field: the texts as
      typed, the order stock only with a minimum stock, the image by
      `ImagePart`, the category always, and no user id. */
  function UpdateField(form: DetailForm, selected: Option<ImageFile>, productImage: Option<string>,
                       k: Product.ProductKey): Option<PartValue>
  {
    match k
    case NameKey => Some(Text(form.name))
    case DescriptionKey => Some(Text(form.description))
    case SellingPriceKey => Some(Text(form.sellingPrice))
    case MinimumStockKey => Some(Text(form.minimumStock))
    case OrderStockKey => if form.minimumStock != "" then Some(Text(form.orderStock)) else None
    case ImageKey => ImagePart(selected, productImage)
    case CategoryIdKey => Some(Text(form.categoryId))
    case UserIdKey => None
  }

  /** The body carries exactly `UpdateField` for every key. */
  lemma UpdatePayloadFields(form: DetailForm, selected: Option<ImageFile>, productImage: Option<string>)
    ensures forall k :: Get(UpdateEntries(form, selected, productImage), k) == UpdateField(form, selected, productImage, k)
  {
    var p := Append([], Product.NameKey, Text(form.name));
    GetAppendAll([], Product.NameKey, Text(form.name));
    GetAppendAll(p, Product.DescriptionKey, Text(form.description));
    p := Append(p, Product.DescriptionKey, Text(form.description));
    GetAppendAll(p, Product.SellingPriceKey, Text(form.sellingPrice));
    p := Append(p, Product.SellingPriceKey, Text(form.sellingPrice));
    GetAppendAll(p, Product.MinimumStockKey, Text(form.minimumStock));
    p := Append(p, Product.MinimumStockKey, Text(form.minimumStock));
    if form.minimumStock != "" {
      GetAppendAll(p, Product.OrderStockKey, Text(form.orderStock));
      p := Append(p, Product.OrderStockKey, Text(form.orderStock));
    }
    var image := ImagePart(selected, productImage);
    if image.Some? {
      GetAppendAll(p, Product.ImageKey, image.value);
      p := Append(p, Product.ImageKey, image.value);
    }
    GetAppendAll(p, Product.CategoryIdKey, Text(Or(form.categoryId, "")));
    p := Append(p, Product.CategoryIdKey, Text(Or(form.categoryId, "")));
    assert p == UpdateEntries(form, selected, productImage);
  }

  /** After the stored image is removed on the page and no new file is
      picked, an update clears the image on the server; while a stored image
      is kept, an update without a new file leaves it alone. */
  lemma RemovedImageIsCleared(form: DetailForm, p: ServerProduct)
    ensures Get(UpdateEntries(form, None, p.(image := None).image), Product.ImageKey) == Some(Text(""))
    ensures Present(p.image) ==> Get(UpdateEntries(form, None, p.image), Product.ImageKey) == None
  {
    UpdatePayloadFields(form, None, None);
    UpdatePayloadFields(form, None, p.image);
  }

  class Page {
    const id: Option<string>
    var product: Option<ServerProduct>
    var form: DetailForm
    var selectedImage: Option<ImageFile>
    var error: Option<string>
    var deleteDialogOpen: bool
    var snackbar: Snackbar

    /** The page before its data arrives. */
    constructor (id: Option<string>)
      ensures this.id == id && product == None && form == EmptyForm && selectedImage == None
      ensures error == None && !deleteDialogOpen && snackbar == Snackbar(false, "", InfoSeverity)
    {
      this.id := id;
      product := None;
      form := EmptyForm;
      selectedImage := None;
      error := None;
      deleteDialogOpen := false;
      snackbar := Snackbar(false, "", InfoSeverity);
    }

    /** `fetchData`, given the stored token and what the product request
      returned (the category list is not modelled). */
    method ApplyFetch(token: Option<string>, fetched: Result<ServerProduct, string>)
      modifies this`product, this`form, this`error
      ensures !Present(id) || !Present(token) ==>
        error == Some(MissingData) && product == old(product) && form == old(form)
      ensures Present(id) && Present(token) && fetched.Success? ==>
        product == Some(fetched.value) && form == LoadedForm(fetched.value) && error == old(error)
      ensures Present(id) && Present(token) && fetched.Failure? ==>
        error == Some(Or(fetched.error, LoadFailed)) && product == old(product) && form == old(form)
    {
      if !Present(id) || !Present(token) {
        error := Some(MissingData);
        return;
      }
      match fetched {
        case Success(p) =>
          product := Some(p);
          form := LoadedForm(p);
        case Failure(message) =>
          error := Some(Or(message, LoadFailed));
      }
    }

    /** `handleChange`. */
    method HandleChange(field: DetailField, value: string)
      modifies this`form
      ensures form == SetField(old(form), field, value)
    {
      form := SetField(form, field, value);
    }

    /** `handleImageChange`: a picked file becomes the selected image. */
    method HandleImageChange(picked: Option<ImageFile>)
      modifies this`selectedImage
      ensures selectedImage == if picked.Some? then picked else old(selectedImage)
    {
      if picked.Some? {
        selectedImage := picked;
      }
    }

    /** `handleUpdate()`, given the stored token and the outcome of the
      update request; it returns the body it sends. The page shows the
      update button only once the product has loaded. */
    method HandleUpdate(token: Option<string>, server: ServerOutcome)
      returns (sent: Option<seq<Part<Product.ProductKey>>>)
      requires product.Some?
      modifies this`snackbar
      ensures sent.Some? <==> Present(id) && Present(token)
      ensures sent.Some? ==> sent.value == UpdateEntries(form, selectedImage, product.value.image)
      ensures sent.None? ==> snackbar == Snackbar(true, MissingData, ErrorSeverity)
      ensures sent.Some? && server == Accepted ==> snackbar == Snackbar(true, UpdatedMessage, SuccessSeverity)
      ensures sent.Some? && server.Rejected? ==>
        snackbar == Snackbar(true, Or(server.message, UpdateFailed), ErrorSeverity)
    {
      sent := None;
      if !Present(id) || !Present(token) {
        snackbar := Snackbar(true, MissingData, ErrorSeverity);
        return;
      }
      var body: seq<Part<Product.ProductKey>> := [];
      body := Append(body, Product.NameKey, Text(form.name));
      body := Append(body, Product.DescriptionKey, Text(form.description));
      body := Append(body, Product.SellingPriceKey, Text(form.sellingPrice));
      body := Append(body, Product.MinimumStockKey, Text(form.minimumStock));
      if form.minimumStock != "" {
        body := Append(body, Product.OrderStockKey, Text(form.orderStock));
      }
      if selectedImage.Some? {
        body := Append(body, Product.ImageKey, File(selectedImage.value));
      } else if !Present(product.value.image) {
        body := Append(body, Product.ImageKey, Text(""));
      }
      body := Append(body, Product.CategoryIdKey, Text(Or(form.categoryId, "")));
      sent := Some(body);
      match server {
        case Accepted =>
          snackbar := Snackbar(true, UpdatedMessage, SuccessSeverity);
        case Rejected(_, message) =>
          snackbar := Snackbar(true, Or(message, UpdateFailed), ErrorSeverity);
      }
    }

    /** `handleDelete()`, given the stored token and the outcome of the
      delete request; it returns whether the request was sent. */
    method HandleDelete(token: Option<string>, server: ServerOutcome) returns (sent: bool)
      modifies this`snackbar, this`deleteDialogOpen
      ensures sent <==> Present(id) && Present(token)
      ensures !sent ==>
        snackbar == Snackbar(true, MissingData, ErrorSeverity) && deleteDialogOpen == old(deleteDialogOpen)
      ensures sent && server == Accepted ==>
        snackbar == Snackbar(true, DeletedMessage, SuccessSeverity) && !deleteDialogOpen
      ensures sent && server.Rejected? ==>
        snackbar == Snackbar(true, Or(server.message, DeleteFailed), ErrorSeverity)
        && deleteDialogOpen == old(deleteDialogOpen)
    {
      if !Present(id) || !Present(token) {
        snackbar := Snackbar(true, MissingData, ErrorSeverity);
        return false;
      }
      sent := true;
      match server {
        case Accepted =>
          snackbar := Snackbar(true, DeletedMessage, SuccessSeverity);
          deleteDialogOpen := false;
        case Rejected(_, message) =>
          snackbar := Snackbar(true, Or(message, DeleteFailed), ErrorSeverity);
      }
    }

    /** `handleRemoveImage()`: only the page's copy of the product loses its
      image; nothing is sent. The button exists only once the product has
      loaded. */
    method HandleRemoveImage()
      requires product.Some?
      modifies this`product, this`snackbar
      ensures product == Some(old(product).value.(image := None))
      ensures snackbar == Snackbar(true, ImageRemoved, InfoSeverity)
    {
      product := Some(product.value.(image := None));
      snackbar := Snackbar(true, ImageRemoved, InfoSeverity);
    }

    /** The snackbar's `onClose`: a timeout or a click-away closes it, and
      closing a success message leaves for the product list; the escape key
      does nothing. It returns the route it navigates to. */
    method HandleSnackbarClose(reason: CloseReason) returns (navigateTo: Option<string>)
      modifies this`snackbar
      ensures reason == EscapeKeyDown ==> snackbar == old(snackbar) && navigateTo == None
      ensures reason != EscapeKeyDown ==> snackbar == old(snackbar).(open := false)
      ensures navigateTo.Some? <==> reason != EscapeKeyDown && old(snackbar).severity == SuccessSeverity
      ensures navigateTo.Some? ==> navigateTo.value == Product.ProductsRoute
    {
      navigateTo := None;
      if reason == Timeout || reason == ClickAway {
        var severity := snackbar.severity;
        snackbar := snackbar.(open := false);
        if severity == SuccessSeverity {
          navigateTo := Some(Product.ProductsRoute);
        }
      }
    }

    /** The alert's close button only closes the snackbar. */
    method HandleAlertClose()
      modifies this`snackbar
      ensures snackbar == old(snackbar).(open := false)
    {
      snackbar := snackbar.(open := false);
    }
  }
}
