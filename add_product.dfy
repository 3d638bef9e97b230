/** The add / edit product form of fend_mm5/src/pages/AddProduct.tsx: its
    field state, the image selection handlers, and the decisions of
    `handleProductSubmit` (field check, which images to send, create or
    update). The upload and the create/update requests are not part of this
    model: the upload's outcome and the request's success are inputs. */
module AddProduct {
  import opened Text

  /** The product handed over by the list screen when editing. Its price
      is kept as the text `price.toString()` gives. */
  datatype EditedProduct = EditedProduct(
    id: Option<int>, title: string, priceText: string, description: string,
    images: Option<seq<string>>)

  /** A file picked in the file input (opaque). */
  datatype FileRef = FileRef(name: string)

  /** What the upload request gave: the stored file's location, or a failure. */
  datatype Upload = Uploaded(location: string) | UploadFailed

  /** The request body; `price` is the form text that `Number(...)` reads. */
  datatype Payload = Payload(title: string, price: string, description: string, categoryId: int, images: seq<string>)

  /** PUT to `/products/{id}` or POST to `/products/`. */
  datatype Request = Create(payload: Payload) | Update(id: int, payload: Payload)

  datatype Outcome = MissingFields | UploadError | Send(request: Request)

  datatype Toast = Toast(message: string, isError: bool)

  datatype FormField = TitleField | PriceField | DescriptionField

  const FillAllFields := "Please fill all fields"
  const UploadFailedMessage := "Failed to upload image"
  const PlaceholderImage := "https://placehold.co/600x400"
  const UpdatedMessage := "Product updated successfully"
  const AddedMessage := "Product added successfully"
  const FailedMessage := "Something went wrong."
  const DefaultCategory := 1

  /** `product && product.id`: an edited product whose id is present and
      not 0 (0 is falsy). */
  predicate IsUpdate(product: Option<EditedProduct>) {
    product.Some? && product.value.id.Some? && product.value.id.value != 0
  }

  /** The image list the submission would send, when the upload (if any)
      did not fail. */
  function ChosenImages(selected: Option<FileRef>, upload: Upload, product: Option<EditedProduct>): Option<seq<string>>
  {
    if selected.Some? then
      if upload.Uploaded? then Some([upload.location]) else None
    else if product.Some? && product.value.images.Some? then Some(product.value.images.value)
    else Some([PlaceholderImage])
  }

  /** What `handleProductSubmit` does with the current form. */
  function Decide(
    title: string, price: string, description: string,
    selected: Option<FileRef>, upload: Upload, product: Option<EditedProduct>): (r: Outcome)
    ensures r == MissingFields <==> title == "" || price == "" || description == ""
    ensures r == UploadError <==> title != "" && price != "" && description != "" && selected.Some? && upload.UploadFailed?
    ensures r.Send? ==> r.request.payload == Payload(title, price, description, DefaultCategory, r.request.payload.images)
    ensures r.Send? && selected.Some? ==> r.request.payload.images == [upload.location]
    ensures r.Send? && selected.None? && product.Some? && product.value.images.Some? ==> r.request.payload.images == product.value.images.value
    ensures r.Send? && selected.None? && (product.None? || product.value.images.None?) ==> r.request.payload.images == [PlaceholderImage]
    ensures r.Send? ==> (r.request.Update? <==> IsUpdate(product))
    ensures r.Send? && r.request.Update? ==> r.request.id == product.value.id.value
  {
    if title == "" || price == "" || description == "" then MissingFields
    else
      match ChosenImages(selected, upload, product)
      case None => UploadError
      case Some(images) =>
        var payload := Payload(title, price, description, DefaultCategory, images);
        if IsUpdate(product) then Send(Update(product.value.id.value, payload)) else Send(Create(payload))
  }

  /** A request goes out with no image at all only when an edited product
      with an empty image array is resubmitted without a new file: the
      placeholder covers every other case. */
  lemma EmptyImagesOnlyFromEditedProduct(
    title: string, price: string, description: string,
    selected: Option<FileRef>, upload: Upload, product: Option<EditedProduct>)
    ensures var r := Decide(title, price, description, selected, upload, product);
            r.Send? && r.request.payload.images == [] <==>
            title != "" && price != "" && description != "" &&
            selected.None? && product.Some? && product.value.images == Some([])
  {
  }

  /** An edited product whose id is 0 is created anew rather than updated. */
  lemma ZeroIdCreates(
    title: string, price: string, description: string,
    selected: Option<FileRef>, upload: Upload, product: EditedProduct)
    requires product.id == Some(0)
    ensures Decide(title, price, description, selected, upload, Some(product)).Send? ==>
            Decide(title, price, description, selected, upload, Some(product)).request.Create?
  {
  }

  class AddProductForm {
    const product: Option<EditedProduct>
    var title: string
    var price: string
    var description: string
    var selectedFile: Option<FileRef>
    var imagePreview: Option<string>
    var toast: Option<Toast>

    /** Mounting the form, with the prefill effect when editing: the fields
        take the product's values and the preview its first image, if that
        is a non-empty string. */
    constructor (edited: Option<EditedProduct>)
      ensures product == edited && selectedFile == None && toast == None
      ensures edited.None? ==> title == "" && price == "" && description == "" && imagePreview == None
      ensures edited.Some? ==> title == edited.value.title && price == edited.value.priceText
                               && description == edited.value.description
      ensures edited.Some? ==> (imagePreview == (var imgs := edited.value.images;
                                                 if imgs.Some? && |imgs.value| > 0 && imgs.value[0] != ""
                                                 then Some(imgs.value[0]) else None))
    {
      product := edited;
      selectedFile := None;
      toast := None;
      title, price, description, imagePreview := "", "", "", None;
      if edited.Some? {
        title := edited.value.title;
        price := edited.value.priceText;
        description := edited.value.description;
        var imgs := edited.value.images;
        if imgs.Some? && |imgs.value| > 0 && imgs.value[0] != "" {
          imagePreview := Some(imgs.value[0]);
        }
      }
    }

    /** `handleImageChange`: a picked file is selected and previewed through
        the object URL the browser made for it; no file changes nothing. */
    method HandleImageChange(file: Option<FileRef>, objectUrl: string)
      modifies this`selectedFile, this`imagePreview
      ensures file.Some? ==> selectedFile == file && imagePreview == Some(objectUrl)
      ensures file.None? ==> selectedFile == old(selectedFile) && imagePreview == old(imagePreview)
    {
      if file.Some? {
        selectedFile := file;
        imagePreview := Some(objectUrl);
      }
    }

    /** The controlled inputs: typing replaces the field's text. */
    method HandleFieldChange(field: FormField, value: string)
      modifies this`title, this`price, this`description
      ensures title == (if field == TitleField then value else old(title))
      ensures price == (if field == PriceField then value else old(price))
      ensures description == (if field == DescriptionField then value else old(description))
    {
      match field
      case TitleField => title := value;
      case PriceField => price := value;
      case DescriptionField => description := value;
    }

    /** `removeImage`: clears both the selected file and the preview. */
    method RemoveImage()
      modifies this`selectedFile, this`imagePreview
      ensures selectedFile == None && imagePreview == None
    {
      selectedFile := None;
      imagePreview := None;
    }

    /** `handleProductSubmit`: `upload` is what the upload request gives
        (consulted only when a file is selected) and `requestSucceeds`
        whether the create or update request succeeded. Returns the request
        sent, if any, and sets the toast. */
    method HandleProductSubmit(upload: Upload, requestSucceeds: bool) returns (sent: Option<Request>)
      modifies this`toast
      ensures var d := Decide(title, price, description, selectedFile, upload, product);
              && (sent.Some? <==> d.Send?)
              && (d.Send? ==> sent.value == d.request)
              && (d == MissingFields ==> toast == Some(Toast(FillAllFields, true)))
              && (d == UploadError ==> toast == Some(Toast(UploadFailedMessage, true)))
              && (d.Send? && !requestSucceeds ==> toast == Some(Toast(FailedMessage, true)))
              && (d.Send? && requestSucceeds && d.request.Update? ==> toast == Some(Toast(UpdatedMessage, false)))
              && (d.Send? && requestSucceeds && d.request.Create? ==> toast == Some(Toast(AddedMessage, false)))
    {
      if title == "" || price == "" || description == "" {
        toast := Some(Toast(FillAllFields, true));
        return None;
      }
      var imageUrls: seq<string> := [];
      if selectedFile.Some? {
        if upload.UploadFailed? {
          toast := Some(Toast(UploadFailedMessage, true));
          return None;
        }
        imageUrls := [upload.location];
      } else if product.Some? && product.value.images.Some? {
        imageUrls := product.value.images.value;
      } else {
        imageUrls := [PlaceholderImage];
      }
      var productData := Payload(title, price, description, DefaultCategory, imageUrls);
      if product.Some? && product.value.id.Some? && product.value.id.value != 0 {
        sent := Some(Update(product.value.id.value, productData));
        toast := Some(if requestSucceeds then Toast(UpdatedMessage, false) else Toast(FailedMessage, true));
      } else {
        sent := Some(Create(productData));
        toast := Some(if requestSucceeds then Toast(AddedMessage, false) else Toast(FailedMessage, true));
      }
    }
  }
}
