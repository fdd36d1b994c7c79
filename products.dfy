/** The product controller (controllers/productControllers.js). A product is written as the
    request body itself; it must name an existing category. */
module Products {
  import opened Values
  import opened Paging
  import opened Categories

  /** A stored product: its id and the request body it was written from. */
  datatype Product = Product(id: int, data: Body)

  /** The name, price and category checks shared by create and update, in their order:
      name present (422), price present (422) and a JSON number that is not negative (422),
      category id present (422), a number (else the store is handed NaN: 500) and the id of
      a category (404). The first check that fails decides the reply. Yields the category
      id. */
  function CheckProduct(env: Env, categories: map<int, Category>, body: Body): (r: Result<int>)
    ensures r.Success? <==>
      && Truthy(Field(body, "name"))
      && Field(body, "price").Num? && Field(body, "price").n > 0.0
      && Truthy(Field(body, "categoryId"))
      && env.parse.parseInt(Field(body, "categoryId")).Some?
      && env.parse.parseInt(Field(body, "categoryId")).value in categories
    ensures r.Success? ==> env.parse.parseInt(Field(body, "categoryId")) == Some(r.value)
    ensures !Truthy(Field(body, "name")) ==> r == Failure(UNPROCESSABLE, "name")
    ensures Truthy(Field(body, "name")) && !(Field(body, "price").Num? && Field(body, "price").n > 0.0)
      ==> r == Failure(UNPROCESSABLE, "price")
    ensures Truthy(Field(body, "name")) && Field(body, "price").Num? && Field(body, "price").n > 0.0
      && !Truthy(Field(body, "categoryId"))
      ==> r == Failure(UNPROCESSABLE, "categoryId")
    ensures Truthy(Field(body, "name")) && Field(body, "price").Num? && Field(body, "price").n > 0.0
      && Truthy(Field(body, "categoryId")) && env.parse.parseInt(Field(body, "categoryId")).None?
      ==> r == Failure(SERVER_ERROR, "categoryId")
    ensures Truthy(Field(body, "name")) && Field(body, "price").Num? && Field(body, "price").n > 0.0
      && Truthy(Field(body, "categoryId")) && env.parse.parseInt(Field(body, "categoryId")).Some?
      && env.parse.parseInt(Field(body, "categoryId")).value !in categories
      ==> r == Failure(NOT_FOUND, "categoryId")
    ensures r.Failure? ==>
      || r == Failure(UNPROCESSABLE, "name")
      || r == Failure(UNPROCESSABLE, "price")
      || r == Failure(UNPROCESSABLE, "categoryId")
      || r == Failure(SERVER_ERROR, "categoryId")
      || r == Failure(NOT_FOUND, "categoryId")
  {
    var name := Field(body, "name");
    var price := Field(body, "price");
    var categoryId := Field(body, "categoryId");
    if !Truthy(name) then Failure(UNPROCESSABLE, "name")
    else if !Truthy(price) then Failure(UNPROCESSABLE, "price")
    else if !price.Num? || price.n < 0.0 then Failure(UNPROCESSABLE, "price")
    else if !Truthy(categoryId) then Failure(UNPROCESSABLE, "categoryId")
    else
      var c := env.parse.parseInt(categoryId);
      if c.None? then Failure(SERVER_ERROR, "categoryId")
      else if c.value !in categories then Failure(NOT_FOUND, "categoryId")
      else Success(c.value)
  }

  /** A price of 0 is falsy and is refused as missing, although 0 is not negative; a price
      sent as a string is refused even when it spells a number. */
  lemma PriceMustBePositiveNumber(env: Env, categories: map<int, Category>, body: Body)
    requires Truthy(Field(body, "name"))
    requires Field(body, "price") == Num(0.0) || Field(body, "price").Str?
    ensures CheckProduct(env, categories, body) == Failure(UNPROCESSABLE, "price")
  {
  }

  /** A product body naming no existing category is never accepted. */
  lemma UnknownCategoryRefused(env: Env, categories: map<int, Category>, body: Body, c: int)
    requires env.parse.parseInt(Field(body, "categoryId")) == Some(c) && c !in categories
    ensures CheckProduct(env, categories, body).Failure?
  {
  }

  /** A body that passes the name and price checks but whose category id names no
      category is refused with 404 on the category id. */
  lemma UnknownCategoryNotFound(env: Env, categories: map<int, Category>, body: Body, c: int)
    requires Truthy(Field(body, "name"))
    requires Field(body, "price").Num? && Field(body, "price").n > 0.0
    requires Truthy(Field(body, "categoryId"))
    requires env.parse.parseInt(Field(body, "categoryId")) == Some(c) && c !in categories
    ensures CheckProduct(env, categories, body) == Failure(NOT_FOUND, "categoryId")
  {
  }

  class ProductTable {
    var rows: map<int, Product>
    var nextId: int

    ghost predicate Valid()
      reads this
    {
      && nextId >= 1
      && (forall k :: k in rows ==> 1 <= k < nextId && rows[k].id == k)
    }

    constructor ()
      ensures Valid() && rows == map[]
    {
      rows := map[];
      nextId := 1;
    }

    /** createProduct: after the checks, the body is written verbatim under a fresh id and
        201 is sent with the product and its category. */
    method Create(env: Env, categories: CategoryTable, body: Body)
      returns (reply: Reply<(Product, Category)>)
      requires Valid()
      modifies this
      ensures Valid()
      ensures var check := CheckProduct(env, categories.rows, body);
        reply == if check.Failure? then Refusal(check)
                 else Ok(CREATED, Some((Product(old(nextId), body), categories.rows[check.value])))
      ensures reply.Ok? ==>
        && old(nextId) !in old(rows)
        && rows == old(rows)[old(nextId) := Product(old(nextId), body)]
        && nextId == old(nextId) + 1
      ensures reply.Err? ==> rows == old(rows) && nextId == old(nextId)
    {
      var check := CheckProduct(env, categories.rows, body);
      if check.Failure? {
        return Refusal(check);
      }
      var created := Product(nextId, body);
      rows := rows[nextId := created];
      nextId := nextId + 1;
      reply := Ok(CREATED, Some((created, categories.rows[check.value])));
    }

    /** listProducts: every product, with no filter and no pagination. */
    method List() returns (items: seq<Product>, ghost ids: seq<int>)
      requires Valid()
      ensures Enumerates(ids, rows, _ => true)
      ensures items == RowsOf(rows, ids) && |items| == |rows|
    {
      items, ids := ListAll(rows, nextId);
    }

    /** getSingleProducts: a non-numeric id reaches the store as NaN (500); unknown is 404. */
    method Get(env: Env, idParam: string) returns (reply: Reply<Product>)
      requires Valid()
      ensures var id := ParseId(env, idParam);
        reply == if id.None? then Err(SERVER_ERROR, "id")
                 else if id.value !in rows then Err(NOT_FOUND, "id")
                 else Ok(OK, Some(rows[id.value]))
    {
      var id := ParseId(env, idParam);
      if id.None? {
        return Err(SERVER_ERROR, "id");
      }
      if id.value !in rows {
        return Err(NOT_FOUND, "id");
      }
      reply := Ok(OK, Some(rows[id.value]));
    }

    /** updateProducts: existence (404) comes before the body checks; the body's fields
        then overwrite the stored ones and the other stored fields stay. */
    method Update(env: Env, categories: CategoryTable, idParam: string, body: Body)
      returns (reply: Reply<Product>)
      requires Valid()
      modifies this
      ensures Valid()
      ensures var id := ParseId(env, idParam);
        var check := CheckProduct(env, categories.rows, body);
        reply == if id.None? then Err(SERVER_ERROR, "id")
                 else if id.value !in old(rows) then Err(NOT_FOUND, "id")
                 else if check.Failure? then Refusal(check)
                 else Ok(OK, Some(Product(id.value, old(rows)[id.value].data + body)))
      ensures reply.Ok? ==> rows == old(rows)[reply.data.value.id := reply.data.value]
      ensures reply.Err? ==> rows == old(rows)
      ensures nextId == old(nextId)
    {
      var id := ParseId(env, idParam);
      if id.None? {
        return Err(SERVER_ERROR, "id");
      }
      if id.value !in rows {
        return Err(NOT_FOUND, "id");
      }
      var check := CheckProduct(env, categories.rows, body);
      if check.Failure? {
        return Refusal(check);
      }
      var updated := Product(id.value, rows[id.value].data + body);
      rows := rows[id.value := updated];
      reply := Ok(OK, Some(updated));
    }

    /** deleteProducts: 500 for a non-numeric id, 404 if missing, else removed with 204. */
    method Delete(env: Env, idParam: string) returns (reply: Reply<Product>)
      requires Valid()
      modifies this
      ensures Valid()
      ensures var id := ParseId(env, idParam);
        reply == if id.None? then Err(SERVER_ERROR, "id")
                 else if id.value !in old(rows) then Err(NOT_FOUND, "id")
                 else Ok(NO_CONTENT, None)
      ensures reply.Ok? ==> rows == old(rows) - {ParseId(env, idParam).value}
      ensures reply.Err? ==> rows == old(rows)
      ensures nextId == old(nextId)
    {
      var id := ParseId(env, idParam);
      if id.None? {
        return Err(SERVER_ERROR, "id");
      }
      if id.value !in rows {
        return Err(NOT_FOUND, "id");
      }
      rows := rows - {id.value};
      reply := Ok(NO_CONTENT, None);
    }
  }
}
