/** The accessory controller (controllers/accessoriesControllers.js): stock items with a
    unique name, an `AccessoryType`, prices and stock counts. */
module Accessories {
  import opened Values
  import opened Search
  import opened Paging

  datatype Accessory = Accessory(
    id: int,
    name: Value,
    brand: Value,
    accessoryType: Value,
    purchasePrice: Option<real>,
    sellingPrice: real,
    description: Value,
    stockCount: int,
    soldCount: int,
    status: Value)

  /** No two accessories share a name. */
  ghost predicate NamesUnique(rows: map<int, Accessory>) {
    forall a, b :: a in rows && b in rows && rows[a].name == rows[b].name ==> a == b
  }

  /** `findFirst({ where: { m03_name } })` finds an accessory. */
  predicate NameTaken(rows: map<int, Accessory>, name: Value) {
    exists k :: k in rows && rows[k].name == name
  }

  /** An accessory other than `id` has the name. */
  predicate NameTakenByOther(rows: map<int, Accessory>, name: Value, id: int) {
    exists k :: k in rows && k != id && rows[k].name == name
  }

  /** Whether the stock count counts as present: on create it must be truthy, so 0 is
      missing; on update it only has to be neither `undefined` nor `null`. */
  predicate StockSent(body: Body, onUpdate: bool) {
    if onUpdate then Given(Field(body, "m03_stock_count")) else Truthy(Field(body, "m03_stock_count"))
  }

  /** The presence and enum checks, in order, each failing with 422: name, type, selling
      price and stock count present, type one of `AccessoryType`, status absent or one of
      `ItemStatus`. The first check that fails names the field reported. */
  function CheckFields(env: Env, body: Body, onUpdate: bool): (r: Result<()>)
    ensures r.Success? <==>
      && Truthy(Field(body, "m03_name"))
      && Truthy(Field(body, "m03_type")) && IsOneOf(env.enums.accessoryType, Field(body, "m03_type"))
      && Truthy(Field(body, "m03_selling_price"))
      && StockSent(body, onUpdate)
      && (!Truthy(Field(body, "m03_status")) || IsOneOf(env.enums.itemStatus, Field(body, "m03_status")))
    ensures r.Failure? ==> r.status == UNPROCESSABLE
    ensures !Truthy(Field(body, "m03_name")) ==> r == Failure(UNPROCESSABLE, "m03_name")
    ensures Truthy(Field(body, "m03_name")) && !Truthy(Field(body, "m03_type"))
      ==> r == Failure(UNPROCESSABLE, "m03_type")
    ensures Truthy(Field(body, "m03_name")) && Truthy(Field(body, "m03_type"))
      && !Truthy(Field(body, "m03_selling_price"))
      ==> r == Failure(UNPROCESSABLE, "m03_selling_price")
    ensures Truthy(Field(body, "m03_name")) && Truthy(Field(body, "m03_type"))
      && Truthy(Field(body, "m03_selling_price"))
      && !StockSent(body, onUpdate)
      ==> r == Failure(UNPROCESSABLE, "m03_stock_count")
    ensures Truthy(Field(body, "m03_name")) && Truthy(Field(body, "m03_type"))
      && Truthy(Field(body, "m03_selling_price"))
      && StockSent(body, onUpdate)
      && !IsOneOf(env.enums.accessoryType, Field(body, "m03_type"))
      ==> r == Failure(UNPROCESSABLE, "m03_type")
    ensures Truthy(Field(body, "m03_name")) && Truthy(Field(body, "m03_type"))
      && Truthy(Field(body, "m03_selling_price"))
      && StockSent(body, onUpdate)
      && IsOneOf(env.enums.accessoryType, Field(body, "m03_type"))
      && Truthy(Field(body, "m03_status")) && !IsOneOf(env.enums.itemStatus, Field(body, "m03_status"))
      ==> r == Failure(UNPROCESSABLE, "m03_status")
  {
    var status := Field(body, "m03_status");
    if !Truthy(Field(body, "m03_name")) then Failure(UNPROCESSABLE, "m03_name")
    else if !Truthy(Field(body, "m03_type")) then Failure(UNPROCESSABLE, "m03_type")
    else if !Truthy(Field(body, "m03_selling_price")) then Failure(UNPROCESSABLE, "m03_selling_price")
    else if !StockSent(body, onUpdate) then Failure(UNPROCESSABLE, "m03_stock_count")
    else if !IsOneOf(env.enums.accessoryType, Field(body, "m03_type")) then Failure(UNPROCESSABLE, "m03_type")
    else if Truthy(status) && !IsOneOf(env.enums.itemStatus, status) then Failure(UNPROCESSABLE, "m03_status")
    else Success(())
  }

  /** The numeric checks that follow the name-conflict lookup: the selling price parses as
      a float that is not negative and the stock count as an integer that is not negative
      (422 otherwise). Yields both numbers. */
  function CheckNumbers(env: Env, body: Body): (r: Result<(real, int)>)
    ensures r.Success? <==>
      && env.parse.parseFloat(Field(body, "m03_selling_price")).Some?
      && env.parse.parseFloat(Field(body, "m03_selling_price")).value >= 0.0
      && env.parse.parseInt(Field(body, "m03_stock_count")).Some?
      && env.parse.parseInt(Field(body, "m03_stock_count")).value >= 0
    ensures r.Success? ==>
      && env.parse.parseFloat(Field(body, "m03_selling_price")) == Some(r.value.0)
      && env.parse.parseInt(Field(body, "m03_stock_count")) == Some(r.value.1)
    ensures r.Failure? ==>
      || r == Failure(UNPROCESSABLE, "m03_selling_price")
      || r == Failure(UNPROCESSABLE, "m03_stock_count")
    ensures !(env.parse.parseFloat(Field(body, "m03_selling_price")).Some?
              && env.parse.parseFloat(Field(body, "m03_selling_price")).value >= 0.0)
      ==> r == Failure(UNPROCESSABLE, "m03_selling_price")
    ensures env.parse.parseFloat(Field(body, "m03_selling_price")).Some?
      && env.parse.parseFloat(Field(body, "m03_selling_price")).value >= 0.0
      && !(env.parse.parseInt(Field(body, "m03_stock_count")).Some?
           && env.parse.parseInt(Field(body, "m03_stock_count")).value >= 0)
      ==> r == Failure(UNPROCESSABLE, "m03_stock_count")
  {
    var price := env.parse.parseFloat(Field(body, "m03_selling_price"));
    var stock := env.parse.parseInt(Field(body, "m03_stock_count"));
    if price.None? || price.value < 0.0 then Failure(UNPROCESSABLE, "m03_selling_price")
    else if stock.None? || stock.value < 0 then Failure(UNPROCESSABLE, "m03_stock_count")
    else Success((price.value, stock.value))
  }

  /** A stock count of 0 sent as a JSON number is refused as missing on create and
      accepted on update. */
  lemma ZeroStockOnlyOnUpdate(env: Env, body: Body)
    requires Truthy(Field(body, "m03_name")) && Truthy(Field(body, "m03_selling_price"))
    requires Truthy(Field(body, "m03_type")) && IsOneOf(env.enums.accessoryType, Field(body, "m03_type"))
    requires !Truthy(Field(body, "m03_status"))
    requires Field(body, "m03_stock_count") == Num(0.0)
    ensures CheckFields(env, body, false) == Failure(UNPROCESSABLE, "m03_stock_count")
    ensures CheckFields(env, body, true) == Success(())
  {
  }

  /** The optional numbers of an accessory, parsed only when truthy; a NaN reaches the store
      and is refused (500). */
  function OptionalNumbers(env: Env, body: Body): (r: Result<(Option<real>, Option<int>)>)
    ensures r.Success? <==>
      && (Truthy(Field(body, "m03_purchase_price")) ==> env.parse.parseFloat(Field(body, "m03_purchase_price")).Some?)
      && (Truthy(Field(body, "m03_sold_count")) ==> env.parse.parseInt(Field(body, "m03_sold_count")).Some?)
    ensures r.Success? ==>
      && (Truthy(Field(body, "m03_purchase_price")) ==> r.value.0 == env.parse.parseFloat(Field(body, "m03_purchase_price")))
      && (!Truthy(Field(body, "m03_purchase_price")) ==> r.value.0 == None)
      && (Truthy(Field(body, "m03_sold_count")) ==> r.value.1 == env.parse.parseInt(Field(body, "m03_sold_count")))
      && (!Truthy(Field(body, "m03_sold_count")) ==> r.value.1 == None)
    ensures r.Failure? ==> r.status == SERVER_ERROR
    ensures Truthy(Field(body, "m03_purchase_price")) && env.parse.parseFloat(Field(body, "m03_purchase_price")).None?
      ==> r == Failure(SERVER_ERROR, "m03_purchase_price")
    ensures (Truthy(Field(body, "m03_purchase_price")) ==> env.parse.parseFloat(Field(body, "m03_purchase_price")).Some?)
      && Truthy(Field(body, "m03_sold_count")) && env.parse.parseInt(Field(body, "m03_sold_count")).None?
      ==> r == Failure(SERVER_ERROR, "m03_sold_count")
  {
    var purchase :- OptionalFloat(env, Field(body, "m03_purchase_price"), "m03_purchase_price");
    var sold :- OptionalInt(env, Field(body, "m03_sold_count"), "m03_sold_count");
    Success((purchase, sold))
  }

  /** The record createAccessory writes: brand and description `null` when absent, sold
      count 0 and status "IN_STOCK" unless given, and what was given otherwise. */
  function NewAccessory(id: int, body: Body, numbers: (real, int), optional: (Option<real>, Option<int>))
    : (a: Accessory)
    ensures a.id == id && a.name == Field(body, "m03_name") && a.accessoryType == Field(body, "m03_type")
    ensures a.sellingPrice == numbers.0 && a.stockCount == numbers.1
    ensures a.purchasePrice == optional.0
    ensures optional.1.None? ==> a.soldCount == 0
    ensures !Truthy(Field(body, "m03_status")) ==> a.status == Str("IN_STOCK")
    ensures !Truthy(Field(body, "m03_brand")) ==> a.brand == Null
    ensures !Truthy(Field(body, "m03_description")) ==> a.description == Null
    ensures optional.1.Some? ==> a.soldCount == optional.1.value
    ensures Truthy(Field(body, "m03_status")) ==> a.status == Field(body, "m03_status")
    ensures Truthy(Field(body, "m03_brand")) ==> a.brand == Field(body, "m03_brand")
    ensures Truthy(Field(body, "m03_description")) ==> a.description == Field(body, "m03_description")
  {
    Accessory(id, Field(body, "m03_name"), OrNull(Field(body, "m03_brand")), Field(body, "m03_type"),
              optional.0, numbers.0, OrNull(Field(body, "m03_description")), numbers.1,
              optional.1.GetOr(0), Or(Field(body, "m03_status"), Str("IN_STOCK")))
  }

  /** The fields updateAccessory writes; `None` marks a field that was `undefined` and is
      dropped, so the stored value stays. */
  datatype AccessoryPatch = AccessoryPatch(
    name: Value,
    brand: Option<Value>,
    accessoryType: Value,
    purchasePrice: Option<real>,
    sellingPrice: real,
    description: Option<Value>,
    stockCount: int,
    soldCount: Option<int>,
    status: Option<Value>)

  /** The data updateAccessory writes: brand, description and status go through
      `v || undefined`, so only truthy values are written; the rest is as checked. */
  function AccessoryPatchOf(body: Body, numbers: (real, int), optional: (Option<real>, Option<int>))
    : (p: AccessoryPatch)
    ensures p.name == Field(body, "m03_name") && p.accessoryType == Field(body, "m03_type")
    ensures p.sellingPrice == numbers.0 && p.stockCount == numbers.1
    ensures p.purchasePrice == optional.0 && p.soldCount == optional.1
    ensures p.brand.Some? <==> Truthy(Field(body, "m03_brand"))
    ensures p.brand.Some? ==> p.brand.value == Field(body, "m03_brand")
    ensures p.description.Some? <==> Truthy(Field(body, "m03_description"))
    ensures p.description.Some? ==> p.description.value == Field(body, "m03_description")
    ensures p.status.Some? <==> Truthy(Field(body, "m03_status"))
    ensures p.status.Some? ==> p.status.value == Field(body, "m03_status")
  {
    AccessoryPatch(Field(body, "m03_name"), IfTruthy(Field(body, "m03_brand")), Field(body, "m03_type"),
                   optional.0, numbers.0, IfTruthy(Field(body, "m03_description")), numbers.1,
                   optional.1, IfTruthy(Field(body, "m03_status")))
  }

  /** The update write: supplied fields replace the stored ones, dropped fields keep theirs,
      and the id never changes. */
  function Patched(a: Accessory, p: AccessoryPatch): (r: Accessory)
    ensures r.id == a.id
    ensures r.name == p.name && r.accessoryType == p.accessoryType
    ensures r.sellingPrice == p.sellingPrice && r.stockCount == p.stockCount
    ensures p.brand.None? ==> r.brand == a.brand
    ensures p.purchasePrice.None? ==> r.purchasePrice == a.purchasePrice
    ensures p.description.None? ==> r.description == a.description
    ensures p.soldCount.None? ==> r.soldCount == a.soldCount
    ensures p.status.None? ==> r.status == a.status
    ensures p.brand.Some? ==> r.brand == p.brand.value
    ensures p.purchasePrice.Some? ==> r.purchasePrice == p.purchasePrice
    ensures p.description.Some? ==> r.description == p.description.value
    ensures p.soldCount.Some? ==> r.soldCount == p.soldCount.value
    ensures p.status.Some? ==> r.status == p.status.value
  {
    a.(name := p.name, brand := p.brand.GetOr(a.brand), accessoryType := p.accessoryType,
       purchasePrice := if p.purchasePrice.Some? then p.purchasePrice else a.purchasePrice,
       sellingPrice := p.sellingPrice, description := p.description.GetOr(a.description),
       stockCount := p.stockCount, soldCount := p.soldCount.GetOr(a.soldCount),
       status := p.status.GetOr(a.status))
  }

  /** getAccessories' filter: name, brand, type or description contains the term. */
  predicate AccessoryMatches(term: string, a: Accessory)
    ensures term == "" ==> AccessoryMatches(term, a)
    ensures term != "" && a.name == Null && a.brand == Null && a.accessoryType == Null
      && a.description == Null
      ==> !AccessoryMatches(term, a)
  {
    || term == ""
    || FieldContains(a.name, term)
    || FieldContains(a.brand, term)
    || FieldContains(a.accessoryType, term)
    || FieldContains(a.description, term)
  }

  class AccessoryTable {
    var rows: map<int, Accessory>
    var nextId: int

    ghost predicate Valid()
      reads this
    {
      && nextId >= 1
      && (forall k :: k in rows ==> 1 <= k < nextId && rows[k].id == k)
      && NamesUnique(rows)
    }

    constructor ()
      ensures Valid() && rows == map[]
    {
      rows := map[];
      nextId := 1;
    }

    /** createAccessory: presence and enums (422), then the name lookup (409), then the
        numeric checks (422), so a duplicate name with a negative price is a 409. */
    method Create(env: Env, body: Body) returns (reply: Reply<Accessory>)
      requires Valid()
      modifies this
      ensures Valid()
      ensures var fields := CheckFields(env, body, false);
        var numbers := CheckNumbers(env, body);
        var optional := OptionalNumbers(env, body);
        reply == if fields.Failure? then Refusal(fields)
                 else if NameTaken(old(rows), Field(body, "m03_name")) then Err(CONFLICT, "m03_name")
                 else if numbers.Failure? then Refusal(numbers)
                 else if optional.Failure? then Refusal(optional)
                 else Ok(CREATED, Some(NewAccessory(old(nextId), body, numbers.value, optional.value)))
      ensures reply.Ok? ==>
        && old(nextId) !in old(rows)
        && rows == old(rows)[old(nextId) := reply.data.value]
        && nextId == old(nextId) + 1
      ensures reply.Err? ==> rows == old(rows) && nextId == old(nextId)
    {
      var fields := CheckFields(env, body, false);
      if fields.Failure? {
        return Refusal(fields);
      }
      var name := Field(body, "m03_name");
      if exists k :: k in rows && rows[k].name == name {
        return Err(CONFLICT, "m03_name");
      }
      var numbers := CheckNumbers(env, body);
      if numbers.Failure? {
        return Refusal(numbers);
      }
      var optional := OptionalNumbers(env, body);
      if optional.Failure? {
        return Refusal(optional);
      }
      var created := NewAccessory(nextId, body, numbers.value, optional.value);
      rows := rows[nextId := created];
      nextId := nextId + 1;
      reply := Ok(CREATED, Some(created));
    }

    /** getAccessories: paginated, filtered by `AccessoryMatches`. */
    method List(env: Env, q: Query) returns (reply: Reply<Listing<Accessory>>, ghost ids: seq<int>)
      requires Valid() && LimitUsable(env, q)
      ensures var page := PageNumber(env, q);
        var limit := LimitNumber(env, q).value;
        var term := SearchTerm(q);
        if page.None? || page.value < 1 then reply == Err(SERVER_ERROR, "page")
        else
          && Enumerates(ids, rows, a => AccessoryMatches(term, a))
          && reply == Ok(OK, Some(Listing(Window(RowsOf(rows, ids), Skip(page.value, limit), limit),
                                          |ids|, page.value, limit, TotalPages(|ids|, limit))))
    {
      var term := SearchTerm(q);
      reply, ids := ListPage(env, q, rows, nextId, a => AccessoryMatches(term, a));
    }

    /** getSingleAccessory: a non-numeric id is 400, an unknown one 404. */
    method Get(env: Env, idParam: string) returns (reply: Reply<Accessory>)
      requires Valid()
      ensures var id := ParseId(env, idParam);
        reply == if id.None? then Err(BAD_REQUEST, "m03_id")
                 else if id.value !in rows then Err(NOT_FOUND, "m03_id")
                 else Ok(OK, Some(rows[id.value]))
    {
      var id := ParseId(env, idParam);
      if id.None? {
        return Err(BAD_REQUEST, "m03_id");
      }
      if id.value !in rows {
        return Err(NOT_FOUND, "m03_id");
      }
      reply := Ok(OK, Some(rows[id.value]));
    }

    /** updateAccessory: 400, 404, presence and enums (422), a name held by another
        accessory (409; its own name is no conflict), numbers (422); then the fields that are
        not `undefined` are written and the rest stay. */
    method Update(env: Env, idParam: string, body: Body) returns (reply: Reply<Accessory>)
      requires Valid()
      modifies this
      ensures Valid()
      ensures var id := ParseId(env, idParam);
        var fields := CheckFields(env, body, true);
        var numbers := CheckNumbers(env, body);
        var optional := OptionalNumbers(env, body);
        reply == if id.None? then Err(BAD_REQUEST, "m03_id")
                 else if id.value !in old(rows) then Err(NOT_FOUND, "m03_id")
                 else if fields.Failure? then Refusal(fields)
                 else if NameTakenByOther(old(rows), Field(body, "m03_name"), id.value)
                 then Err(CONFLICT, "m03_name")
                 else if numbers.Failure? then Refusal(numbers)
                 else if optional.Failure? then Refusal(optional)
                 else Ok(OK, Some(Patched(old(rows)[id.value],
                                          AccessoryPatchOf(body, numbers.value, optional.value))))
      ensures reply.Ok? ==> rows == old(rows)[reply.data.value.id := reply.data.value]
      ensures reply.Err? ==> rows == old(rows)
      ensures nextId == old(nextId)
    {
      var id := ParseId(env, idParam);
      if id.None? {
        return Err(BAD_REQUEST, "m03_id");
      }
      if id.value !in rows {
        return Err(NOT_FOUND, "m03_id");
      }
      var fields := CheckFields(env, body, true);
      if fields.Failure? {
        return Refusal(fields);
      }
      var name := Field(body, "m03_name");
      if exists k :: k in rows && rows[k].name == name {
        // findFirst returns some accessory with the name; names are unique, so it is the
        // only one and it conflicts exactly when it is not this accessory.
        var found :| found in rows && rows[found].name == name;
        if found != id.value {
          return Err(CONFLICT, "m03_name");
        }
      }
      var numbers := CheckNumbers(env, body);
      if numbers.Failure? {
        return Refusal(numbers);
      }
      var optional := OptionalNumbers(env, body);
      if optional.Failure? {
        return Refusal(optional);
      }
      var updated := Patched(rows[id.value], AccessoryPatchOf(body, numbers.value, optional.value));
      rows := rows[id.value := updated];
      reply := Ok(OK, Some(updated));
    }

    /** deleteAccessory: 400 for a non-numeric id, 404 if missing, else removed with 204. */
    method Delete(env: Env, idParam: string) returns (reply: Reply<Accessory>)
      requires Valid()
      modifies this
      ensures Valid()
      ensures var id := ParseId(env, idParam);
        reply == if id.None? then Err(BAD_REQUEST, "m03_id")
                 else if id.value !in old(rows) then Err(NOT_FOUND, "m03_id")
                 else Ok(NO_CONTENT, None)
      ensures reply.Ok? ==> rows == old(rows) - {ParseId(env, idParam).value}
      ensures reply.Err? ==> rows == old(rows)
      ensures nextId == old(nextId)
    {
      var id := ParseId(env, idParam);
      if id.None? {
        return Err(BAD_REQUEST, "m03_id");
      }
      if id.value !in rows {
        return Err(NOT_FOUND, "m03_id");
      }
      rows := rows - {id.value};
      reply := Ok(NO_CONTENT, None);
    }
  }
}
