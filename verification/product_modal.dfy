/**
 * The admin product form of src/components/admin/ProductModal.tsx: the change detector that
 * enables the submit button in edit mode, the chosen-image state, and the multipart body
 * sent on submit.
 */
module ProductModal {
  import opened Wrappers
  import JsNumber

  /**
   * The product being edited, as the form reads it. `quantity` is `None` when the product
   * record carries no quantity (the product type declares none); `imageUrl` is `""` when the
   * product has no image.
   */
  datatype EditedProduct = EditedProduct(
    id: string, name: string, description: string, price: int, quantity: Option<int>,
    categoryId: string, isFeatured: bool, imageUrl: string)

  /** The watched form values; the two number inputs hold text. */
  datatype FormValues = FormValues(
    name: string, description: string, price: string, quantity: string,
    categoryId: string, isFeatured: bool)

  /** A file chosen in the file input. */
  datatype ImageFile = ImageFile(fileName: string)

  /** The form's initial values in edit mode; an absent quantity leaves its input empty. */
  function DefaultValues(p: EditedProduct): FormValues
  {
    FormValues(p.name, p.description, JsNumber.ToText(JsNumber.Int(p.price)),
               if p.quantity.Some? then JsNumber.ToText(JsNumber.Int(p.quantity.value)) else "",
               p.categoryId, p.isFeatured)
  }

  /** `Number(text) !== value`, where an absent value is `undefined` and differs from every number. */
  predicate NumberDiffers(text: string, value: Option<int>)
  {
    value.None? || JsNumber.ToNumber(text) != JsNumber.Int(value.value)
  }

  /**
   * The form counts as changed iff one of the six fields differs from the product; price and
   * quantity are read as numbers first.
   */
  function FormChanged(form: FormValues, p: EditedProduct): (changed: bool)
    ensures !changed <==>
      form.name == p.name && form.description == p.description
      && JsNumber.ToNumber(form.price) == JsNumber.Int(p.price)
      && p.quantity.Some? && JsNumber.ToNumber(form.quantity) == JsNumber.Int(p.quantity.value)
      && form.categoryId == p.categoryId && form.isFeatured == p.isFeatured
  {
    || form.name != p.name
    || form.description != p.description
    || NumberDiffers(form.price, Some(p.price))
    || NumberDiffers(form.quantity, p.quantity)
    || form.categoryId != p.categoryId
    || form.isFeatured != p.isFeatured
  }

  /**
   * The image counts as changed iff a new file was chosen, or the product had an image and
   * the preview has been cleared.
   */
  function ImageChanged(imageFile: Option<ImageFile>, imagePreview: Option<string>, p: EditedProduct): (changed: bool)
    ensures changed <==> imageFile.Some? || (p.imageUrl != "" && imagePreview.None?)
  {
    imageFile != None || (p.imageUrl != "" && imagePreview == None)
  }

  /** `hasChanges`: always true when creating; otherwise a form change or an image change. */
  function HasChanges(product: Option<EditedProduct>, form: FormValues, imageFile: Option<ImageFile>,
                      imagePreview: Option<string>): (changed: bool)
    ensures product.None? ==> changed
    ensures product.Some? ==>
      (changed <==> FormChanged(form, product.value) || ImageChanged(imageFile, imagePreview, product.value))
  {
    match product
    case None => true
    case Some(p) => FormChanged(form, p) || ImageChanged(imageFile, imagePreview, p)
  }

  /** The submit button is disabled while saving, and in edit mode while nothing has changed. */
  function SubmitDisabled(isPending: bool, product: Option<EditedProduct>, hasChanges: bool): (disabled: bool)
    ensures disabled <==> isPending || (product.Some? && !hasChanges)
    ensures product.None? ==> (disabled <==> isPending)
  {
    isPending || (product.Some? && !hasChanges)
  }

  /** An edit form opened on a product with a quantity and left untouched has no changes. */
  lemma UntouchedFormHasNoChanges(p: EditedProduct)
    requires p.quantity.Some?
    ensures !HasChanges(Some(p), DefaultValues(p), None, InitialPreview(Some(p)))
    ensures SubmitDisabled(false, Some(p), HasChanges(Some(p), DefaultValues(p), None, InitialPreview(Some(p))))
  {
    var form := DefaultValues(p);
    JsNumber.ToNumberRoundTrip(JsNumber.Int(p.price));
    JsNumber.ToNumberRoundTrip(JsNumber.Int(p.quantity.value));
    assert !NumberDiffers(form.price, Some(p.price));
    assert !NumberDiffers(form.quantity, p.quantity);
    assert !FormChanged(form, p);
    assert !ImageChanged(None, InitialPreview(Some(p)), p);
  }

  /** A product without a quantity always counts as changed, so its submit button is never disabled by the detector. */
  lemma MissingQuantityAlwaysChanged(p: EditedProduct, form: FormValues, imageFile: Option<ImageFile>,
                                     imagePreview: Option<string>)
    requires p.quantity.None?
    ensures HasChanges(Some(p), form, imageFile, imagePreview)
    ensures !SubmitDisabled(false, Some(p), HasChanges(Some(p), form, imageFile, imagePreview))
  {
  }

  /** The preview starts as the product's image, or none. */
  function InitialPreview(product: Option<EditedProduct>): (preview: Option<string>)
    ensures preview.Some? <==> product.Some? && product.value.imageUrl != ""
    ensures preview.Some? ==> preview.value == product.value.imageUrl
  {
    if product.Some? && product.value.imageUrl != "" then Some(product.value.imageUrl) else None
  }

  /** The six product fields sent as the JSON part named `product`. */
  datatype ProductJson = ProductJson(
    name: string, description: string, price: string, quantity: string, categoryId: string, isFeatured: bool)

  /** A part of the multipart body. */
  datatype Part = ProductPart(product: ProductJson) | ImagePart(image: ImageFile)

  /** Which endpoint the mutation calls: an update of the product being edited, or a create. */
  datatype Mutation = Update(productId: string) | Create

  function MutationFor(product: Option<EditedProduct>): (m: Mutation)
    ensures m.Create? <==> product.None?
    ensures m.Update? ==> m.productId == product.value.id
  {
    if product.Some? then Update(product.value.id) else Create
  }

  /** The parts `onSubmit` appends, in order: the product JSON, then the image when one was chosen. */
  function FormDataParts(data: FormValues, imageFile: Option<ImageFile>): (parts: seq<Part>)
    ensures |parts| == if imageFile.Some? then 2 else 1
    ensures parts[0] == ProductPart(ProductJson(data.name, data.description, data.price, data.quantity,
                                                data.categoryId, data.isFeatured))
    ensures imageFile.Some? ==> parts[1] == ImagePart(imageFile.value)
    ensures forall i :: 0 <= i < |parts| && parts[i].ImagePart? ==> imageFile == Some(parts[i].image)
  {
    var json := ProductJson(data.name, data.description, data.price, data.quantity, data.categoryId, data.isFeatured);
    [ProductPart(json)] + (if imageFile.Some? then [ImagePart(imageFile.value)] else [])
  }

  /** The modal's image state: the chosen file and the preview shown. */
  class ImageState {
    const product: Option<EditedProduct>
    var imageFile: Option<ImageFile>
    var imagePreview: Option<string>

    constructor(product: Option<EditedProduct>)
      ensures this.product == product && imageFile == None && imagePreview == InitialPreview(product)
    {
      this.product := product;
      imageFile := None;
      imagePreview := InitialPreview(product);
    }

    /** `hasChanges` for the current image state and the given form values. */
    function HasChangesWith(form: FormValues): bool
      reads this
    {
      HasChanges(product, form, imageFile, imagePreview)
    }

    /** `handleImageChange`: a chosen file replaces the current one; an empty selection changes nothing. */
    method ChangeImage(file: Option<ImageFile>)
      modifies this
      ensures file.Some? ==> imageFile == file && imagePreview == old(imagePreview)
      ensures file.None? ==> imageFile == old(imageFile) && imagePreview == old(imagePreview)
      ensures file.Some? && product.Some? ==> forall form :: HasChangesWith(form)
    {
      if file.Some? {
        imageFile := file;
      }
    }

    /** The file reader's `onloadend`: the data URL of the chosen file becomes the preview. */
    method PreviewLoaded(dataUrl: string)
      modifies this
      ensures imageFile == old(imageFile) && imagePreview == Some(dataUrl)
    {
      imagePreview := Some(dataUrl);
    }

    /** `removeImage`: clears both the file and the preview. */
    method RemoveImage()
      modifies this
      ensures imageFile == None && imagePreview == None
      ensures product.Some? && product.value.imageUrl != "" ==> forall form :: HasChangesWith(form)
      ensures forall data :: |FormDataParts(data, imageFile)| == 1
    {
      imageFile := None;
      imagePreview := None;
    }

    /** `onSubmit`: the parts sent and the endpoint they go to. */
    method Submit(data: FormValues) returns (parts: seq<Part>, mutation: Mutation)
      ensures parts == FormDataParts(data, imageFile) && mutation == MutationFor(product)
      ensures (exists i :: 0 <= i < |parts| && parts[i].ImagePart?) <==> imageFile.Some?
    {
      parts := FormDataParts(data, imageFile);
      mutation := MutationFor(product);
      if imageFile.Some? {
        assert parts[1].ImagePart?;
      }
    }
  }
}
