/** `/categories`: GET lists nothing yet; POST validates and echoes the body, storing nothing. */
module CategoriesRoute {
  import opened Wrappers
  import opened Validation
  import opened Envelope
  import opened CategoryRules

  const INVALID_MESSAGE := "Failed to create category. Please check your input."
  const CREATED_MESSAGE := "Category successfully created."

  /** The parsed JSON body: its `name` and whatever other keys the client sent. */
  datatype CategoryBody = CategoryBody(name: Value, others: map<string, Value>)

  /** GET: always 200 with an empty list; the handler has no failure path. */
  function Get(): (r: Response<seq<CategoryBody>>)
    ensures r.status == STATUS_OK && r.body.data == Some([]) && r.body.error.Absent?
    ensures Conforms(r)
  {
    Reply(STATUS_OK, "success", GET, Some([]), Absent)
  }

  /**
   * POST. `request` is the outcome of `request.json()` and of destructuring it:
   * `Err` when either throws. An invalid name gives 400 with the field errors
   * under `error`; a valid one gives 201 with the body itself, unparsed, as the
   * only element of `data`; a thrown error gives 500 with its message. The
   * handler writes nothing, so there is no store to change.
   */
  function Post(request: Result<CategoryBody>): (r: Response<seq<CategoryBody>>)
    ensures Conforms(r)
    ensures request.Err? ==> r == ServerError(TRY_AGAIN_SENTENCE, POST, request.message)
    ensures request.Ok? && !NameAccepted(request.value.name) ==>
              && r.status == STATUS_BAD_REQUEST && r.body.data.None?
              && r.body.error == Fields(map["name" := NameIssues(request.value.name)])
    ensures request.Ok? && NameAccepted(request.value.name) ==>
              && r.status == STATUS_CREATED && r.body.data == Some([request.value])
              && r.body.message == CREATED_MESSAGE
  {
    match request
    case Err(thrown) => ServerError(TRY_AGAIN_SENTENCE, POST, thrown)
    case Ok(body) =>
      match ValidateCategory(CategoryFields(body.name))
      case Invalid(errors) => Reply(STATUS_BAD_REQUEST, INVALID_MESSAGE, POST, None, Fields(errors))
      case Valid(_) => Reply(STATUS_CREATED, CREATED_MESSAGE, POST, Some([body]), Absent)
  }

  /** The examples a client sees: "Books" is created and echoed, "Bo" is refused with the min-length message. */
  lemma PostExamples()
    ensures Post(Ok(CategoryBody(Str("Books"), map[]))).status == 201
    ensures Post(Ok(CategoryBody(Str("Books"), map[]))).body.data == Some([CategoryBody(Str("Books"), map[])])
    ensures Post(Ok(CategoryBody(Str("Bo"), map[]))).status == 400
    ensures Post(Ok(CategoryBody(Str("Bo"), map[]))).body.error == Fields(map["name" := [NAME_TOO_SHORT]])
  {
  }
}
