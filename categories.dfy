/** The category controller (controllers/categoryControllers.js): a table of uniquely named
    categories. Every handler runs its early-return checks in order and, only when all pass,
    makes one change to the table. */
module Categories {
  import opened Values
  import opened Paging

  datatype Category = Category(id: int, name: Value)

  /** No two categories share a name (the unique constraint the handlers pre-check). */
  ghost predicate NamesUnique(rows: map<int, Category>) {
    forall a, b :: a in rows && b in rows && rows[a].name == rows[b].name ==> a == b
  }

  /** `prisma.category.findUnique({ where: { name } })` finds a row. */
  predicate NameTaken(rows: map<int, Category>, name: Value) {
    exists k :: k in rows && rows[k].name == name
  }

  class CategoryTable {
    var rows: map<int, Category>
    var nextId: int

    /** Keys are the rows' ids, all below the next id to allocate; names are unique. */
    ghost predicate Valid()
      reads this
    {
      && nextId >= 1
      && (forall k :: k in rows ==> 1 <= k < nextId && rows[k].id == k)
      && NamesUnique(rows)
    }

    constructor ()
      ensures Valid() && rows == map[]
    {
      rows := map[];
      nextId := 1;
    }

    /** createCategory: a missing name is 422, a name in use is 409; otherwise a category
        holding only that name is created under a fresh id and returned with 201. */
    method Create(body: Body) returns (reply: Reply<Category>)
      requires Valid()
      modifies this
      ensures Valid()
      ensures var name := Field(body, "name");
        reply == if !Truthy(name) then Err(UNPROCESSABLE, "name")
                 else if NameTaken(old(rows), name) then Err(CONFLICT, "name")
                 else Ok(CREATED, Some(Category(old(nextId), name)))
      ensures reply.Ok? ==>
        && old(nextId) !in old(rows)
        && rows == old(rows)[old(nextId) := reply.data.value]
        && nextId == old(nextId) + 1
      ensures reply.Err? ==> rows == old(rows) && nextId == old(nextId)
    {
      var name := Field(body, "name");
      if !Truthy(name) {
        return Err(UNPROCESSABLE, "name");
      }
      if exists k :: k in rows && rows[k].name == name {
        return Err(CONFLICT, "name");
      }
      var created := Category(nextId, name);
      rows := rows[nextId := created];
      nextId := nextId + 1;
      reply := Ok(CREATED, Some(created));
    }

    /** getCategory: every category, unpaginated, in the store's order. */
    method List() returns (items: seq<Category>, ghost ids: seq<int>)
      requires Valid()
      ensures Enumerates(ids, rows, _ => true)
      ensures items == RowsOf(rows, ids) && |items| == |rows|
    {
      items, ids := ListAll(rows, nextId);
    }

    /** getSingleCategory: an id that is not a number reaches the store as NaN, which it
        refuses (500); an unknown id is 404. */
    method Get(env: Env, idParam: string) returns (reply: Reply<Category>)
      requires Valid()
      ensures var id := ParseId(env, idParam);
        reply == if id.None? then Err(SERVER_ERROR, "id")
                 else if id.value !in rows then Err(NOT_FOUND, "id")
                 else Ok(OK, Some(rows[id.value]))
    {
      var id := ParseId(env, idParam);
      if id.None? {
        return Err(SERVER_ERROR, "id");
      }
      if id.value !in rows {
        return Err(NOT_FOUND, "id");
      }
      reply := Ok(OK, Some(rows[id.value]));
    }

    /** updateCategories: existence (404) is checked before the name (422). The name
        lookup does not leave out the category itself, so renaming a category to its own
        current name is refused with 409. */
    method Update(env: Env, idParam: string, body: Body) returns (reply: Reply<Category>)
      requires Valid()
      modifies this
      ensures Valid()
      ensures var id := ParseId(env, idParam); var name := Field(body, "name");
        reply == if id.None? then Err(SERVER_ERROR, "id")
                 else if id.value !in old(rows) then Err(NOT_FOUND, "id")
                 else if !Truthy(name) then Err(UNPROCESSABLE, "name")
                 else if NameTaken(old(rows), name) then Err(CONFLICT, "name")
                 else Ok(OK, Some(Category(id.value, name)))
      ensures reply.Ok? ==> rows == old(rows)[reply.data.value.id := reply.data.value]
      ensures reply.Err? ==> rows == old(rows)
      ensures nextId == old(nextId)
    {
      var id := ParseId(env, idParam);
      if id.None? {
        return Err(SERVER_ERROR, "id");
      }
      if id.value !in rows {
        return Err(NOT_FOUND, "id");
      }
      var name := Field(body, "name");
      if !Truthy(name) {
        return Err(UNPROCESSABLE, "name");
      }
      if exists k :: k in rows && rows[k].name == name {
        return Err(CONFLICT, "name");
      }
      var updated := Category(id.value, name);
      rows := rows[id.value := updated];
      reply := Ok(OK, Some(updated));
    }

    /** deleteCategory: 500 for a non-numeric id, 404 for an unknown one, otherwise the row
        is removed and 204 is sent with no body. */
    method Delete(env: Env, idParam: string) returns (reply: Reply<Category>)
      requires Valid()
      modifies this
      ensures Valid()
      ensures var id := ParseId(env, idParam);
        reply == if id.None? then Err(SERVER_ERROR, "id")
                 else if id.value !in old(rows) then Err(NOT_FOUND, "id")
                 else Ok(NO_CONTENT, None)
      ensures reply.Ok? ==> rows == old(rows) - {ParseId(env, idParam).value}
      ensures reply.Err? ==> rows == old(rows)
      ensures nextId == old(nextId)
    {
      var id := ParseId(env, idParam);
      if id.None? {
        return Err(SERVER_ERROR, "id");
      }
      if id.value !in rows {
        return Err(NOT_FOUND, "id");
      }
      rows := rows - {id.value};
      reply := Ok(NO_CONTENT, None);
    }
  }
}
