/**
 * `/users`: GET lists every user with pagination metadata; PUT validates a
 * multipart form and updates the caller's name and address.
 */
module UsersRoute {
  import opened Wrappers
  import opened Validation
  import opened Envelope

  const PAGE_SIZE: nat := 10

  /** The user id PUT updates until it reads it from the session. */
  const AUTH_USER_ID := ""

  const GET_MESSAGE := "Successfully get users"
  const INVALID_MESSAGE := "Failed to update user data, please check your input"
  const UPDATED_MESSAGE := "Successfully update user data"
  const RECORD_NOT_FOUND := "Record to update not found."

  datatype UserRecord = UserRecord(id: string, name: string, address: string, image: Option<string>, role: string)

  /** The form entries as `formData.get` returns them: `Null` for a missing entry. */
  datatype UserForm = UserForm(name: Value, address: Value, image: Value)

  /** The object handed to the user schema. */
  datatype UserFields = UserFields(name: Value, address: Value, image: Value)

  /** `dataToUpdate`: `image` is declared but never assigned. */
  datatype DataToUpdate = DataToUpdate(name: string, address: string, image: Option<string>)

  /** The datastore calls, in order: GET's `findMany` and `count`, PUT's `update`. */
  datatype Step = FindMany | Count | Update

  datatype Fault = NoFault | FailAt(step: Step, message: string)

  predicate FailsAt(fault: Fault, step: Step) { fault.FailAt? && fault.step == step }

  /**
   * The user schema's rules are not part of this model. A passing verdict has
   * name and address strings, the type the handler casts both entries to.
   */
  ghost predicate DemandsFields(userBaseSchema: UserFields -> Verdict)
  {
    forall f :: userBaseSchema(f).Passed? ==> f.name.Str? && f.address.Str?
  }

  /** `Math.ceil(totalCount / 10)`. */
  function TotalPages(totalCount: nat): (pages: nat)
    ensures totalCount == 0 <==> pages == 0
    ensures totalCount > 0 ==> (pages - 1) * PAGE_SIZE < totalCount <= pages * PAGE_SIZE
  {
    (totalCount + PAGE_SIZE - 1) / PAGE_SIZE
  }

  /** The ceiling is the only page count whose last page is non-empty and holds the tail. */
  lemma TotalPagesIsTheCeiling(totalCount: nat, pages: nat)
    requires 0 < pages && (pages - 1) * PAGE_SIZE < totalCount <= pages * PAGE_SIZE
    ensures pages == TotalPages(totalCount)
  {
  }

  lemma TotalPagesExamples()
    ensures TotalPages(0) == 0 && TotalPages(1) == 1 && TotalPages(10) == 1 && TotalPages(11) == 2
  {
  }

  /** `users.findIndex(u => u.id == id)`: where `user.update({ where: { id } })` writes. */
  function IndexOfUser(users: seq<UserRecord>, id: string): (r: Option<nat>)
    ensures r.Some? ==> r.value < |users| && users[r.value].id == id
    ensures r.None? <==> forall k :: 0 <= k < |users| ==> users[k].id != id
  {
    if users == [] then None
    else if users[0].id == id then Some(0)
    else
      match IndexOfUser(users[1..], id)
      case None => None
      case Some(k) => Some(k + 1)
  }

  /**
   * `checkImage.size !== 0 ? checkImage : undefined`: an empty file becomes
   * absent, a missing entry (`null`) throws reading `size`, and a value with no
   * `size` property passes through unchanged.
   */
  function ImageToValidate(checkImage: Value): (r: Result<Value>)
    ensures r.Err? <==> checkImage.Null? || checkImage.Undefined?
    ensures r.Ok? ==> !(r.value.FileValue? && r.value.file.size == 0)
    ensures r.Ok? && r.value.Undefined? <==> checkImage.FileValue? && checkImage.file.size == 0
    ensures r.Ok? && !r.value.Undefined? ==> r.value == checkImage
  {
    match checkImage
    case Null => Err("Cannot read properties of null (reading 'size')")
    case Undefined => Err("Cannot read properties of undefined (reading 'size')")
    case FileValue(file) => if file.size != 0 then Ok(checkImage) else Ok(Undefined)
    case _ => Ok(checkImage)
  }

  /** `user.update({ data })`: only the fields `data` sets are written. */
  function ApplyUpdate(user: UserRecord, data: DataToUpdate): (r: UserRecord)
    ensures r.id == user.id && r.role == user.role
    ensures r.name == data.name && r.address == data.address
    ensures data.image.None? ==> r.image == user.image
  {
    user.(name := data.name, address := data.address,
          image := if data.image.Some? then data.image else user.image)
  }

  /** The users table. */
  class UserStore {
    var users: seq<UserRecord>

    /** `id` is the primary key. */
    ghost predicate Valid()
      reads this
    {
      forall i, j :: 0 <= i < |users| && 0 <= j < |users| && users[i].id == users[j].id ==> i == j
    }

    constructor (initial: seq<UserRecord>)
      requires forall i, j :: 0 <= i < |initial| && 0 <= j < |initial| && initial[i].id == initial[j].id ==> i == j
      ensures Valid() && users == initial
    {
      users := initial;
    }

    /** GET: every user, their count and the page count; either query throwing gives 500. */
    function Get(fault: Fault): (r: Response<seq<UserRecord>>)
      reads this
      ensures Conforms(r)
      ensures FailsAt(fault, FindMany) || FailsAt(fault, Count) ==>
                r == ServerError(TRY_AGAIN, GET, fault.message)
      ensures !FailsAt(fault, FindMany) && !FailsAt(fault, Count) ==>
                && r.status == STATUS_OK && r.body.data == Some(users) && r.body.error == NoError
                && r.body.meta == Some(PageMeta(|users|, TotalPages(|users|)))
    {
      if FailsAt(fault, FindMany) || FailsAt(fault, Count) then
        ServerError(TRY_AGAIN, GET, fault.message)
      else
        var totalCount := |users|;
        Response(STATUS_OK, Body(GET_MESSAGE, GET, Some(users), NoError, Absent,
                                 Some(PageMeta(totalCount, TotalPages(totalCount)))))
    }

    /**
     * PUT. `form` is the outcome of `request.formData()`. The image entry is
     * read first (a missing one throws); a form the user schema refuses gives
     * 400 with the field errors under `error` and writes nothing; otherwise the
     * caller's row gets the new name and address, never the image, and is
     * returned with 200. A missing row or a failing update gives 500.
     */
    method Put(form: Result<UserForm>, userBaseSchema: UserFields -> Verdict, fault: Fault)
      returns (r: Response<UserRecord>)
      requires Valid() && DemandsFields(userBaseSchema)
      modifies this
      ensures Valid() && Conforms(r)
      ensures form.Err? ==> r == ServerError(TRY_AGAIN, PUT, form.message) && users == old(users)
      ensures form.Ok? && ImageToValidate(form.value.image).Err? ==>
                r == ServerError(TRY_AGAIN, PUT, ImageToValidate(form.value.image).message) && users == old(users)
      ensures form.Ok? && ImageToValidate(form.value.image).Ok? ==>
                var fields := UserFields(form.value.name, form.value.address, ImageToValidate(form.value.image).value);
                var target := IndexOfUser(old(users), AUTH_USER_ID);
                && (userBaseSchema(fields).Failed? ==>
                      && r == Reply(STATUS_BAD_REQUEST, INVALID_MESSAGE, PUT, None, Fields(userBaseSchema(fields).fieldErrors))
                      && users == old(users))
                && (userBaseSchema(fields).Passed? && (FailsAt(fault, Update) || target.None?) ==>
                      && r == ServerError(TRY_AGAIN, PUT, if FailsAt(fault, Update) then fault.message else RECORD_NOT_FOUND)
                      && users == old(users))
                && (userBaseSchema(fields).Passed? && !FailsAt(fault, Update) && target.Some? ==>
                      && users == old(users)[target.value := ApplyUpdate(old(users)[target.value],
                                                                        DataToUpdate(fields.name.s, fields.address.s, None))]
                      && r == Reply(STATUS_OK, UPDATED_MESSAGE, PUT, Some(users[target.value]), NoError))
    {
      if form.Err? {
        return ServerError(TRY_AGAIN, PUT, form.message);
      }
      var entries := form.value;
      var image := ImageToValidate(entries.image);
      if image.Err? {
        return ServerError(TRY_AGAIN, PUT, image.message);
      }
      var fields := UserFields(entries.name, entries.address, image.value);
      var verdict := userBaseSchema(fields);
      if verdict.Failed? {
        return Reply(STATUS_BAD_REQUEST, INVALID_MESSAGE, PUT, None, Fields(verdict.fieldErrors));
      }
      var dataToUpdate := DataToUpdate(fields.name.s, fields.address.s, None);
      if FailsAt(fault, Update) {
        return ServerError(TRY_AGAIN, PUT, fault.message);
      }
      var target := IndexOfUser(users, AUTH_USER_ID);
      if target.None? {
        return ServerError(TRY_AGAIN, PUT, RECORD_NOT_FOUND);
      }
      var k := target.value;
      users := users[k := ApplyUpdate(users[k], dataToUpdate)];
      r := Reply(STATUS_OK, UPDATED_MESSAGE, PUT, Some(users[k]), NoError);
    }
  }

  /** PUT never changes a user's id, role or image, whatever the form holds. */
  lemma PutKeepsImage(user: UserRecord, name: string, address: string)
    ensures var u := ApplyUpdate(user, DataToUpdate(name, address, None));
      u.image == user.image && u.id == user.id && u.role == user.role
  {
  }
}
