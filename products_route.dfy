/** `/products`: GET lists nothing yet; POST validates a multipart form, uploading and storing nothing. */
module ProductsRoute {
  import opened Wrappers
  import opened Validation
  import opened Envelope
  import opened ProductRules

  const INVALID_MESSAGE := "Failed to create product. Please check your input."
  const CREATED_MESSAGE := "Product successfully created."

  /** The form entries as `formData.get` returns them: `Null` for a missing entry. */
  datatype ProductForm = ProductForm(name: Value, description: Value, price: Value, image: Value, categoryId: Value)

  /** GET: the query parameters are read and ignored; always 200 with an empty list. */
  function Get(searchParams: map<string, seq<string>>): (r: Response<seq<Product>>)
    ensures r.status == STATUS_OK && r.body.data == Some([]) && r.body.error.Absent?
    ensures Conforms(r)
  {
    Reply(STATUS_OK, "success", GET, Some([]), Absent)
  }

  lemma GetIgnoresQuery(p: map<string, seq<string>>, q: map<string, seq<string>>)
    ensures Get(p) == Get(q)
  {
  }

  /** `image ?? undefined`: a missing image becomes absent; nothing else is touched. */
  function NormaliseImage(image: Value): (v: Value)
    ensures image.Null? ==> v.Undefined?
    ensures !image.Null? ==> v == image
  {
    if image.Null? then Undefined else image
  }

  /** The object the handler validates; only the image entry is normalised. */
  function FieldsOf(form: ProductForm): (f: ProductFields)
    ensures f.image == NormaliseImage(form.image)
    ensures f.name == form.name && f.description == form.description
    ensures f.price == form.price && f.categoryId == form.categoryId
  {
    ProductFields(form.name, form.description, form.price, NormaliseImage(form.image), form.categoryId)
  }

  /**
   * POST. `form` is the outcome of `request.formData()`: `Err` when it throws.
   * A form failing the product schema gives 400 with the field errors under
   * `error`; a valid one gives 201 with an empty list; a thrown error 500.
   */
  function Post(form: Result<ProductForm>): (r: Response<seq<Product>>)
    ensures Conforms(r)
    ensures form.Err? ==> r == ServerError(TRY_AGAIN_SENTENCE, POST, form.message)
    ensures form.Ok? && !ProductAccepted(FieldsOf(form.value)) ==>
              && r.status == STATUS_BAD_REQUEST && r.body.data.None?
              && r.body.error == Fields(ProductIssues(FieldsOf(form.value)))
    ensures form.Ok? && ProductAccepted(FieldsOf(form.value)) ==>
              r.status == STATUS_CREATED && r.body.data == Some([]) && r.body.message == CREATED_MESSAGE
  {
    match form
    case Err(thrown) => ServerError(TRY_AGAIN_SENTENCE, POST, thrown)
    case Ok(entries) =>
      match ValidateProduct(FieldsOf(entries))
      case Invalid(errors) => Reply(STATUS_BAD_REQUEST, INVALID_MESSAGE, POST, None, Fields(errors))
      case Valid(_) => Reply(STATUS_CREATED, CREATED_MESSAGE, POST, Some([]), Absent)
  }

  /** A form without an image entry is judged on its other fields alone. */
  lemma MissingImageIsAbsent(form: ProductForm)
    requires form.image.Null?
    ensures Post(Ok(form)).status == STATUS_CREATED <==>
              NameAccepted(form.name) && DescriptionAccepted(form.description)
              && form.price.Str? && form.categoryId.Str?
  {
  }
}
