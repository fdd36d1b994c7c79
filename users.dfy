/** The user controller (controllers/userControllers.js): customers with a unique contact
    number and an optional profile photo held by the external image store. */
module Users {
  import opened Values
  import opened Search
  import opened Paging

  datatype User = User(
    id: int,
    name: Value,
    contactNumber: int,
    email: Value,
    place: Value,
    profilePhoto: Option<string>)

  /** No two users share a contact number. */
  ghost predicate ContactsUnique(rows: map<int, User>) {
    forall a, b :: a in rows && b in rows && rows[a].contactNumber == rows[b].contactNumber ==> a == b
  }

  /** `findFirst({ where: { m01_contact_number: contact } })` finds a user. */
  predicate ContactTaken(rows: map<int, User>, contact: int) {
    exists k :: k in rows && rows[k].contactNumber == contact
  }

  /** The same lookup with `m01_id: { not: id }`: a user other than `id` has the number. */
  predicate ContactTakenByOther(rows: map<int, User>, contact: int, id: int) {
    exists k :: k in rows && k != id && rows[k].contactNumber == contact
  }

  /** The URL of the uploaded profile photo, `null` when no file was sent. */
  function PhotoUrl(photo: Upload<string>): Option<string>
    requires !photo.UploadFailed?
  {
    if photo.Uploaded? then Some(photo.result) else None
  }

  /** The checks createUser and updateUser share, in order: name and contact number
      present (422), the contact number parses (else NaN reaches the store: 500). Yields the
      contact number as `parseInt` reads it. */
  function CheckUser(env: Env, body: Body): (r: Result<int>)
    ensures r.Success? <==>
      && Truthy(Field(body, "m01_name")) && Truthy(Field(body, "m01_contact_number"))
      && env.parse.parseInt(Field(body, "m01_contact_number")).Some?
    ensures r.Success? ==> r.value == env.parse.parseInt(Field(body, "m01_contact_number")).value
    ensures r.Failure? ==>
      if !Truthy(Field(body, "m01_name")) || !Truthy(Field(body, "m01_contact_number"))
      then r == Failure(UNPROCESSABLE, "m01_name, m01_contact_number")
      else r == Failure(SERVER_ERROR, "m01_contact_number")
  {
    var contact := Field(body, "m01_contact_number");
    if !Truthy(Field(body, "m01_name")) || !Truthy(contact) then
      Failure(UNPROCESSABLE, "m01_name, m01_contact_number")
    else
      var n := env.parse.parseInt(contact);
      if n.None? then Failure(SERVER_ERROR, "m01_contact_number") else Success(n.value)
  }

  /** The record both createUser and updateUser write: every field from the request, an
      absent email or place as `null` and the photo as `null` when no file was sent. */
  function UserRecord(id: int, body: Body, contact: int, photo: Upload<string>): (u: User)
    requires !photo.UploadFailed?
    ensures u.id == id && u.name == Field(body, "m01_name") && u.contactNumber == contact
    ensures Truthy(Field(body, "m01_email")) ==> u.email == Field(body, "m01_email")
    ensures !Truthy(Field(body, "m01_email")) ==> u.email == Null
    ensures Truthy(Field(body, "m01_place")) ==> u.place == Field(body, "m01_place")
    ensures !Truthy(Field(body, "m01_place")) ==> u.place == Null
    ensures u.profilePhoto.Some? <==> photo.Uploaded?
    ensures photo.Uploaded? ==> u.profilePhoto == Some(photo.result)
  {
    User(id, Field(body, "m01_name"), contact, OrNull(Field(body, "m01_email")),
         OrNull(Field(body, "m01_place")), PhotoUrl(photo))
  }

  /** `parseInt(search)` in the contact clause; `None` (NaN) leaves its operand `undefined`. */
  function ContactOperand(env: Env, term: string): Option<int> {
    env.parse.parseInt(Str(term))
  }

  /** getUsers' filter. An empty term filters nothing. Otherwise name, email and place
      match by case-insensitive substring and the contact number only by equality with
      `parseInt(search)`. The `.filter` on the clause list removes nothing (each clause is an
      object); a contact clause whose operand is `undefined` puts no condition, so it adds no
      rows to the OR. */
  predicate UserMatches(env: Env, term: string, u: User)
    ensures term == "" ==> UserMatches(env, term, u)
    ensures ContactOperand(env, term) == Some(u.contactNumber) ==> UserMatches(env, term, u)
    ensures term != "" && u.name == Null && u.email == Null && u.place == Null
      && ContactOperand(env, term) != Some(u.contactNumber)
      ==> !UserMatches(env, term, u)
  {
    || term == ""
    || FieldContains(u.name, term)
    || FieldContains(u.email, term)
    || FieldContains(u.place, term)
    || (ContactOperand(env, term).Some? && u.contactNumber == ContactOperand(env, term).value)
  }

  /** The contact number is matched only as a whole number, never by its digits: a user
      whose text fields do not contain the term is found only when the term parses to
      exactly that user's number. */
  lemma ContactMatchedOnlyByEquality(env: Env, term: string, u: User)
    requires term != ""
    requires !FieldContains(u.name, term) && !FieldContains(u.email, term) && !FieldContains(u.place, term)
    ensures UserMatches(env, term, u) <==> ContactOperand(env, term) == Some(u.contactNumber)
  {
  }

  class UserTable {
    var rows: map<int, User>
    var nextId: int

    ghost predicate Valid()
      reads this
    {
      && nextId >= 1
      && (forall k :: k in rows ==> 1 <= k < nextId && rows[k].id == k)
      && ContactsUnique(rows)
    }

    constructor ()
      ensures Valid() && rows == map[]
    {
      rows := map[];
      nextId := 1;
    }

    /** createUser: 422 without name or contact number, 409 if the parsed number is in use,
        500 if the photo upload fails; otherwise the user is created and 201 sent. */
    method Create(env: Env, body: Body, photo: Upload<string>) returns (reply: Reply<User>)
      requires Valid()
      modifies this
      ensures Valid()
      ensures var check := CheckUser(env, body);
        reply == if check.Failure? then Refusal(check)
                 else if ContactTaken(old(rows), check.value) then Err(CONFLICT, "m01_contact_number")
                 else if photo.UploadFailed? then Err(SERVER_ERROR, "m01_profile_photo")
                 else Ok(CREATED, Some(UserRecord(old(nextId), body, check.value, photo)))
      ensures reply.Ok? ==>
        && old(nextId) !in old(rows)
        && rows == old(rows)[old(nextId) := reply.data.value]
        && nextId == old(nextId) + 1
      ensures reply.Err? ==> rows == old(rows) && nextId == old(nextId)
    {
      var check := CheckUser(env, body);
      if check.Failure? {
        return Refusal(check);
      }
      var contact := check.value;
      if exists k :: k in rows && rows[k].contactNumber == contact {
        return Err(CONFLICT, "m01_contact_number");
      }
      if photo.UploadFailed? {
        return Err(SERVER_ERROR, "m01_profile_photo");
      }
      var created := UserRecord(nextId, body, contact, photo);
      rows := rows[nextId := created];
      nextId := nextId + 1;
      reply := Ok(CREATED, Some(created));
    }

    /** getUsers: paginated, filtered by `UserMatches`. */
    method List(env: Env, q: Query) returns (reply: Reply<Listing<User>>, ghost ids: seq<int>)
      requires Valid() && LimitUsable(env, q)
      ensures var page := PageNumber(env, q);
        var limit := LimitNumber(env, q).value;
        var term := SearchTerm(q);
        if page.None? || page.value < 1 then reply == Err(SERVER_ERROR, "page")
        else
          && Enumerates(ids, rows, u => UserMatches(env, term, u))
          && reply == Ok(OK, Some(Listing(Window(RowsOf(rows, ids), Skip(page.value, limit), limit),
                                          |ids|, page.value, limit, TotalPages(|ids|, limit))))
    {
      var term := SearchTerm(q);
      reply, ids := ListPage(env, q, rows, nextId, u => UserMatches(env, term, u));
    }

    /** getSingleUser: a non-numeric id reaches the store as NaN (500); unknown is 404. */
    method Get(env: Env, idParam: string) returns (reply: Reply<User>)
      requires Valid()
      ensures var id := ParseId(env, idParam);
        reply == if id.None? then Err(SERVER_ERROR, "m01_id")
                 else if id.value !in rows then Err(NOT_FOUND, "m01_id")
                 else Ok(OK, Some(rows[id.value]))
    {
      var id := ParseId(env, idParam);
      if id.None? {
        return Err(SERVER_ERROR, "m01_id");
      }
      if id.value !in rows {
        return Err(NOT_FOUND, "m01_id");
      }
      reply := Ok(OK, Some(rows[id.value]));
    }

    /** updateUser: 404, then 422, then 409 from a user other than this one, then the
        upload. The write replaces every field: absent email and place become `null`, and
        the photo becomes `null` when no file is sent. */
    method Update(env: Env, idParam: string, body: Body, photo: Upload<string>)
      returns (reply: Reply<User>)
      requires Valid()
      modifies this
      ensures Valid()
      ensures var id := ParseId(env, idParam); var check := CheckUser(env, body);
        reply == if id.None? then Err(SERVER_ERROR, "m01_id")
                 else if id.value !in old(rows) then Err(NOT_FOUND, "m01_id")
                 else if check.Failure? then Refusal(check)
                 else if ContactTakenByOther(old(rows), check.value, id.value)
                 then Err(CONFLICT, "m01_contact_number")
                 else if photo.UploadFailed? then Err(SERVER_ERROR, "m01_profile_photo")
                 else Ok(OK, Some(UserRecord(id.value, body, check.value, photo)))
      ensures reply.Ok? ==> rows == old(rows)[reply.data.value.id := reply.data.value]
      ensures reply.Err? ==> rows == old(rows)
      ensures nextId == old(nextId)
    {
      var id := ParseId(env, idParam);
      if id.None? {
        return Err(SERVER_ERROR, "m01_id");
      }
      if id.value !in rows {
        return Err(NOT_FOUND, "m01_id");
      }
      var check := CheckUser(env, body);
      if check.Failure? {
        return Refusal(check);
      }
      var contact := check.value;
      if exists k :: k in rows && k != id.value && rows[k].contactNumber == contact {
        return Err(CONFLICT, "m01_contact_number");
      }
      if photo.UploadFailed? {
        return Err(SERVER_ERROR, "m01_profile_photo");
      }
      var updated := UserRecord(id.value, body, contact, photo);
      rows := rows[id.value := updated];
      reply := Ok(OK, Some(updated));
    }

    /** deleteUser: 500 for a non-numeric id, 404 if missing, else removed with 204. */
    method Delete(env: Env, idParam: string) returns (reply: Reply<User>)
      requires Valid()
      modifies this
      ensures Valid()
      ensures var id := ParseId(env, idParam);
        reply == if id.None? then Err(SERVER_ERROR, "m01_id")
                 else if id.value !in old(rows) then Err(NOT_FOUND, "m01_id")
                 else Ok(NO_CONTENT, None)
      ensures reply.Ok? ==> rows == old(rows) - {ParseId(env, idParam).value}
      ensures reply.Err? ==> rows == old(rows)
      ensures nextId == old(nextId)
    {
      var id := ParseId(env, idParam);
      if id.None? {
        return Err(SERVER_ERROR, "m01_id");
      }
      if id.value !in rows {
        return Err(NOT_FOUND, "m01_id");
      }
      rows := rows - {id.value};
      reply := Ok(NO_CONTENT, None);
    }
  }
}
