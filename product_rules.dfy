/** The product schema: the field rules a product form must meet. */
module ProductRules {
  import opened Wrappers
  import opened Validation

  const MAX_MB: nat := 2
  const MAX_UPLOAD_SIZE: nat := 1024 * 1024 * MAX_MB
  const ACCEPTED_IMAGE_TYPES: seq<string> := ["image/jpeg", "image/jpg", "image/png", "image/webp"]

  const NAME_MIN: nat := 10
  const NAME_MAX: nat := 50
  const DESCRIPTION_MIN: nat := 10

  const NAME_TOO_SHORT := "Product name must be at least 10 characters long"
  const NAME_TOO_LONG := "Product name cannot be more than 50 characters long"
  const DESCRIPTION_TOO_SHORT := "Product description must be at least 10 characters long"
  const PRICE_REQUIRED := "Price is required"
  const CATEGORY_REQUIRED := "Category is required"
  const IMAGE_TOO_LARGE := "Max image size is 2 MB"
  const IMAGE_WRONG_TYPE := "Only .jpg, .jpeg, .png, and .webp formats are supported"
  const NOT_A_FILE := "Input not instance of File"

  /** The keys of the schema object. */
  const PRODUCT_KEYS: set<string> := {"name", "description", "price", "image", "category_id"}

  /** The object handed to `productSchema.safeParse`. */
  datatype ProductFields = ProductFields(name: Value, description: Value, price: Value, image: Value, categoryId: Value)

  /** The parsed product. */
  datatype Product = Product(name: string, description: string, price: string, image: Option<ImageFile>, categoryId: string)

  // The rules, stated field by field.

  predicate NameAccepted(v: Value) { v.Str? && NAME_MIN <= |v.s| <= NAME_MAX }

  predicate DescriptionAccepted(v: Value) { v.Str? && DESCRIPTION_MIN <= |v.s| }

  predicate SizeAccepted(file: ImageFile) { file.size <= MAX_UPLOAD_SIZE }

  predicate TypeAccepted(file: ImageFile) { file.mime == "" || file.mime in ACCEPTED_IMAGE_TYPES }

  predicate ImageAccepted(v: Value)
  {
    v.Undefined? || (v.FileValue? && SizeAccepted(v.file) && TypeAccepted(v.file))
  }

  predicate ProductAccepted(f: ProductFields)
  {
    && NameAccepted(f.name)
    && DescriptionAccepted(f.description)
    && f.price.Str?
    && ImageAccepted(f.image)
    && f.categoryId.Str?
  }

  // The checks as zod runs them: a type failure stops a field, every other check of it runs.

  /** `z.string().min(10, …).max(50, …)`. */
  function NameIssues(v: Value): (msgs: seq<string>)
    ensures msgs == [] <==> NameAccepted(v)
    ensures !v.Str? ==> msgs == [StringTypeIssue(v, None)]
    ensures v.Str? && |v.s| < NAME_MIN ==> msgs == [NAME_TOO_SHORT]
    ensures v.Str? && NAME_MAX < |v.s| ==> msgs == [NAME_TOO_LONG]
  {
    if !v.Str? then [StringTypeIssue(v, None)]
    else
      (if |v.s| < 10 then [NAME_TOO_SHORT] else [])
      + (if |v.s| > 50 then [NAME_TOO_LONG] else [])
  }

  /** `z.string().min(10, …)`: no upper bound. */
  function DescriptionIssues(v: Value): (msgs: seq<string>)
    ensures msgs == [] <==> DescriptionAccepted(v)
    ensures v.Str? && |v.s| < DESCRIPTION_MIN ==> msgs == [DESCRIPTION_TOO_SHORT]
    ensures !v.Str? ==> msgs == [StringTypeIssue(v, None)]
  {
    if !v.Str? then [StringTypeIssue(v, None)]
    else if |v.s| < 10 then [DESCRIPTION_TOO_SHORT]
    else []
  }

  /** `z.string({ message })`: any string passes, the empty one included. */
  function RequiredStringIssues(v: Value, message: string): (msgs: seq<string>)
    ensures msgs == [] <==> v.Str?
    ensures !v.Str? ==> msgs == [message]
  {
    if v.Str? then [] else [StringTypeIssue(v, Some(message))]
  }

  /**
   * `z.instanceof(File).optional()` followed by two independent refinements:
   * a missing image passes both, any other non-file fails the type check and
   * skips them, a file is checked for size and for type, each on its own.
   */
  function ImageIssues(v: Value): (msgs: seq<string>)
    ensures msgs == [] <==> ImageAccepted(v)
    ensures v.Undefined? ==> msgs == []
    ensures !v.Undefined? && !v.FileValue? ==> msgs == [NOT_A_FILE]
    ensures v.FileValue? ==> (IMAGE_TOO_LARGE in msgs <==> !SizeAccepted(v.file))
    ensures v.FileValue? ==> (IMAGE_WRONG_TYPE in msgs <==> !TypeAccepted(v.file))
    ensures v.FileValue? ==> NOT_A_FILE !in msgs
    ensures v.FileValue? ==>
              msgs == (if SizeAccepted(v.file) then [] else [IMAGE_TOO_LARGE])
                      + (if TypeAccepted(v.file) then [] else [IMAGE_WRONG_TYPE])
  {
    match v
    case Undefined => []
    case FileValue(file) =>
      (if file.size <= 1024 * 1024 * 2 then [] else [IMAGE_TOO_LARGE])
      + (if file.mime == "" || file.mime in ACCEPTED_IMAGE_TYPES then [] else [IMAGE_WRONG_TYPE])
    case _ => [NOT_A_FILE]
  }

  /** The messages reported under one key of the schema. */
  function IssuesAt(f: ProductFields, key: string): seq<string>
  {
    if key == "name" then NameIssues(f.name)
    else if key == "description" then DescriptionIssues(f.description)
    else if key == "price" then RequiredStringIssues(f.price, PRICE_REQUIRED)
    else if key == "image" then ImageIssues(f.image)
    else if key == "category_id" then RequiredStringIssues(f.categoryId, CATEGORY_REQUIRED)
    else []
  }

  /** `error.flatten().fieldErrors` of the product schema. */
  function ProductIssues(f: ProductFields): (r: FieldErrors)
    ensures r.Keys <= PRODUCT_KEYS
    ensures forall key :: key in r ==> r[key] != []
  {
    map key | key in PRODUCT_KEYS && IssuesAt(f, key) != [] :: IssuesAt(f, key)
  }

  /**
   * `productSchema.safeParse(f)`: valid exactly when every field rule holds,
   * and then the parsed product holds the given fields; otherwise the error
   * map has a key for exactly the fields whose rule fails.
   */
  function ValidateProduct(f: ProductFields): (r: Parsed<Product>)
    ensures r.Valid? <==> ProductAccepted(f)
    ensures r.Valid? ==> r.value == Product(
                f.name.s, f.description.s, f.price.s,
                if f.image.FileValue? then Some(f.image.file) else None,
                f.categoryId.s)
    ensures r.Invalid? ==> r.fieldErrors.Keys <= PRODUCT_KEYS && r.fieldErrors != map[]
    ensures r.Invalid? ==> ("name" in r.fieldErrors <==> !NameAccepted(f.name))
    ensures r.Invalid? ==> ("description" in r.fieldErrors <==> !DescriptionAccepted(f.description))
    ensures r.Invalid? ==> ("price" in r.fieldErrors <==> !f.price.Str?)
    ensures r.Invalid? ==> ("image" in r.fieldErrors <==> !ImageAccepted(f.image))
    ensures r.Invalid? ==> ("category_id" in r.fieldErrors <==> !f.categoryId.Str?)
    ensures r.Invalid? && "name" in r.fieldErrors ==> r.fieldErrors["name"] == NameIssues(f.name)
    ensures r.Invalid? && "description" in r.fieldErrors ==> r.fieldErrors["description"] == DescriptionIssues(f.description)
    ensures r.Invalid? && "price" in r.fieldErrors ==> r.fieldErrors["price"] == [PRICE_REQUIRED]
    ensures r.Invalid? && "image" in r.fieldErrors ==> r.fieldErrors["image"] == ImageIssues(f.image)
    ensures r.Invalid? && "category_id" in r.fieldErrors ==> r.fieldErrors["category_id"] == [CATEGORY_REQUIRED]
  {
    var errors := ProductIssues(f);
    NoIssuesIffAccepted(f);
    if errors == map[] then
      Valid(Product(
        f.name.s, f.description.s, f.price.s,
        if f.image.FileValue? then Some(f.image.file) else None,
        f.categoryId.s))
    else
      Invalid(errors)
  }

  /** The error map is empty exactly when every rule holds, and each key reports its own rule. */
  lemma NoIssuesIffAccepted(f: ProductFields)
    ensures ProductIssues(f) == map[] <==> ProductAccepted(f)
    ensures "name" in ProductIssues(f) <==> !NameAccepted(f.name)
    ensures "description" in ProductIssues(f) <==> !DescriptionAccepted(f.description)
    ensures "price" in ProductIssues(f) <==> !f.price.Str?
    ensures "image" in ProductIssues(f) <==> !ImageAccepted(f.image)
    ensures "category_id" in ProductIssues(f) <==> !f.categoryId.Str?
    ensures "name" in ProductIssues(f) ==> ProductIssues(f)["name"] == NameIssues(f.name)
    ensures "description" in ProductIssues(f) ==> ProductIssues(f)["description"] == DescriptionIssues(f.description)
    ensures "price" in ProductIssues(f) ==> ProductIssues(f)["price"] == [PRICE_REQUIRED]
    ensures "image" in ProductIssues(f) ==> ProductIssues(f)["image"] == ImageIssues(f.image)
    ensures "category_id" in ProductIssues(f) ==> ProductIssues(f)["category_id"] == [CATEGORY_REQUIRED]
  {
    var errors := ProductIssues(f);
    assert IssuesAt(f, "name") == NameIssues(f.name);
    assert IssuesAt(f, "description") == DescriptionIssues(f.description);
    assert IssuesAt(f, "price") == RequiredStringIssues(f.price, PRICE_REQUIRED);
    assert IssuesAt(f, "image") == ImageIssues(f.image);
    assert IssuesAt(f, "category_id") == RequiredStringIssues(f.categoryId, CATEGORY_REQUIRED);
    if ProductAccepted(f) {
      assert forall key :: key in PRODUCT_KEYS ==> IssuesAt(f, key) == [];
      assert errors.Keys == {};
    } else if !NameAccepted(f.name) {
      assert "name" in errors;
    } else if !DescriptionAccepted(f.description) {
      assert "description" in errors;
    } else if !f.price.Str? {
      assert "price" in errors;
    } else if !ImageAccepted(f.image) {
      assert "image" in errors;
    } else {
      assert "category_id" in errors;
    }
  }

  // The boundaries, written out.

  lemma UploadLimitIsTwoMebibytes()
    ensures MAX_UPLOAD_SIZE == 2097152
    ensures SizeAccepted(ImageFile(2097152, "image/png"))
    ensures !SizeAccepted(ImageFile(2097153, "image/png"))
  {
  }

  lemma NameBoundaries(s: string)
    ensures |s| == 9 ==> NameIssues(Str(s)) == [NAME_TOO_SHORT]
    ensures |s| == 10 || |s| == 50 ==> NameIssues(Str(s)) == []
    ensures |s| == 51 ==> NameIssues(Str(s)) == [NAME_TOO_LONG]
  {
  }

  /** A file can fail either image check, or both at once. */
  lemma ImageChecksIndependent()
    ensures ImageIssues(FileValue(ImageFile(2097153, "image/png"))) == [IMAGE_TOO_LARGE]
    ensures ImageIssues(FileValue(ImageFile(100, "image/gif"))) == [IMAGE_WRONG_TYPE]
    ensures ImageIssues(FileValue(ImageFile(2097153, "image/gif"))) == [IMAGE_TOO_LARGE, IMAGE_WRONG_TYPE]
    ensures ImageIssues(FileValue(ImageFile(0, ""))) == []
  {
  }
}
