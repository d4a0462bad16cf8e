/** The category schema: one name rule. */
module CategoryRules {
  import opened Wrappers
  import opened Validation

  const NAME_MIN: nat := 3
  const NAME_TOO_SHORT := "Category name must be at least 3 characters long"

  /** The object handed to `categorySchema.safeParse`. */
  datatype CategoryFields = CategoryFields(name: Value)

  /** The parsed category. */
  datatype Category = Category(name: string)

  /** A name is a string of at least three characters; there is no upper bound. */
  predicate NameAccepted(v: Value) { v.Str? && NAME_MIN <= |v.s| }

  /** `z.string().min(3, …)`. */
  function NameIssues(v: Value): (msgs: seq<string>)
    ensures msgs == [] <==> NameAccepted(v)
    ensures !v.Str? ==> msgs == [StringTypeIssue(v, None)]
    ensures v.Str? && |v.s| < NAME_MIN ==> msgs == [NAME_TOO_SHORT]
  {
    if !v.Str? then [StringTypeIssue(v, None)]
    else if |v.s| < 3 then [NAME_TOO_SHORT]
    else []
  }

  /**
   * `categorySchema.safeParse(f)`: valid exactly when the name rule holds, with
   * the given name; otherwise the error map holds only `name`, with its messages.
   */
  function ValidateCategory(f: CategoryFields): (r: Parsed<Category>)
    ensures r.Valid? <==> NameAccepted(f.name)
    ensures r.Valid? ==> r.value == Category(f.name.s)
    ensures r.Invalid? ==> r.fieldErrors.Keys == {"name"} && r.fieldErrors["name"] == NameIssues(f.name)
  {
    var issues := NameIssues(f.name);
    if issues == [] then Valid(Category(f.name.s)) else Invalid(map["name" := issues])
  }

  lemma NameBoundaries()
    ensures ValidateCategory(CategoryFields(Str("Bo"))) == Invalid(map["name" := [NAME_TOO_SHORT]])
    ensures ValidateCategory(CategoryFields(Str("Books"))) == Valid(Category("Books"))
    ensures ValidateCategory(CategoryFields(Undefined)) == Invalid(map["name" := ["Required"]])
  {
  }
}
