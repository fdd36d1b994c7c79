/** The mobile controller (controllers/mobilesControllers.js): phones in stock, each with a
    purchase price, optional `Brand` and `ItemStatus`, purchase and selling dates, up to ten
    photos held by the external image store and an optional link to a user. */
module Mobiles {
  import opened Values
  import opened Search
  import opened Paging

  datatype Mobile = Mobile(
    id: int,
    modelName: Value,
    purchasePrice: real,
    sellingPrice: Option<real>,
    brand: Value,
    imei: Value,
    country: Value,
    color: Value,
    varient: Value,
    battery: Value,
    photos: Option<seq<string>>,
    notes: Value,
    status: Value,
    careWarranty: Value,
    purchaseDate: Option<string>,
    sellingDate: Option<string>,
    userId: Option<int>)

  /** The purchase price is present and parses as a float that is not negative. */
  predicate PurchasePriceValid(env: Env, body: Body) {
    && Truthy(Field(body, "m02_purchase_price"))
    && env.parse.parseFloat(Field(body, "m02_purchase_price")).Some?
    && env.parse.parseFloat(Field(body, "m02_purchase_price")).value >= 0.0
  }

  /** The field checks createMobile and updateMobile share, in order, each failing with
      422: the model name is present, the purchase price is present and parses as a float
      that is not negative, the brand is absent or one of `Brand`, the status is absent or one
      of `ItemStatus`. The first check that fails names the field reported. Yields the
      purchase price. */
  function CheckMobile(env: Env, body: Body): (r: Result<real>)
    ensures r.Success? <==>
      && Truthy(Field(body, "m02_model_name"))
      && PurchasePriceValid(env, body)
      && (!Truthy(Field(body, "m02_brand")) || IsOneOf(env.enums.brand, Field(body, "m02_brand")))
      && (!Truthy(Field(body, "m02_status")) || IsOneOf(env.enums.itemStatus, Field(body, "m02_status")))
    ensures r.Success? ==> env.parse.parseFloat(Field(body, "m02_purchase_price")) == Some(r.value)
    ensures r.Failure? ==> r.status == UNPROCESSABLE
    ensures !Truthy(Field(body, "m02_model_name")) ==> r == Failure(UNPROCESSABLE, "m02_model_name")
    ensures Truthy(Field(body, "m02_model_name")) && !PurchasePriceValid(env, body)
      ==> r == Failure(UNPROCESSABLE, "m02_purchase_price")
    ensures Truthy(Field(body, "m02_model_name")) && PurchasePriceValid(env, body)
      && Truthy(Field(body, "m02_brand")) && !IsOneOf(env.enums.brand, Field(body, "m02_brand"))
      ==> r == Failure(UNPROCESSABLE, "m02_brand")
    ensures Truthy(Field(body, "m02_model_name")) && PurchasePriceValid(env, body)
      && (!Truthy(Field(body, "m02_brand")) || IsOneOf(env.enums.brand, Field(body, "m02_brand")))
      && Truthy(Field(body, "m02_status")) && !IsOneOf(env.enums.itemStatus, Field(body, "m02_status"))
      ==> r == Failure(UNPROCESSABLE, "m02_status")
  {
    var price := Field(body, "m02_purchase_price");
    var brand := Field(body, "m02_brand");
    var status := Field(body, "m02_status");
    if !Truthy(Field(body, "m02_model_name")) then Failure(UNPROCESSABLE, "m02_model_name")
    else if !Truthy(price) then Failure(UNPROCESSABLE, "m02_purchase_price")
    else if env.parse.parseFloat(price).None? || env.parse.parseFloat(price).value < 0.0
    then Failure(UNPROCESSABLE, "m02_purchase_price")
    else if Truthy(brand) && !IsOneOf(env.enums.brand, brand) then Failure(UNPROCESSABLE, "m02_brand")
    else if Truthy(status) && !IsOneOf(env.enums.itemStatus, status) then Failure(UNPROCESSABLE, "m02_status")
    else Success(env.parse.parseFloat(price).value)
  }

  /** A truthy date is parsed and must be valid (422); a falsy one is not sent. */
  function CheckDate(env: Env, v: Value, field: string): (r: Result<Option<string>>)
    ensures r.Success? <==> !Truthy(v) || env.parse.isoDate(v).Some?
    ensures r.Success? ==> (r.value.Some? <==> Truthy(v)) && (Truthy(v) ==> r.value == env.parse.isoDate(v))
    ensures r.Failure? ==> r == Failure(UNPROCESSABLE, field)
  {
    if !Truthy(v) then Success(None)
    else if env.parse.isoDate(v).None? then Failure(UNPROCESSABLE, field)
    else Success(env.parse.isoDate(v))
  }

  /** What the handlers settle after the upload: the purchase and selling dates (422 when
      invalid), then the selling price and the user id, parsed only when truthy (a NaN reaches
      the store: 500). */
  datatype Settled = Settled(
    purchaseDate: Option<string>,
    sellingDate: Option<string>,
    sellingPrice: Option<real>,
    userId: Option<int>)

  function Settle(env: Env, body: Body): (r: Result<Settled>)
    ensures r.Success? <==>
      && (Truthy(Field(body, "m02_purchase_date")) ==> env.parse.isoDate(Field(body, "m02_purchase_date")).Some?)
      && (Truthy(Field(body, "m02_selling_date")) ==> env.parse.isoDate(Field(body, "m02_selling_date")).Some?)
      && (Truthy(Field(body, "m02_selling_price")) ==> env.parse.parseFloat(Field(body, "m02_selling_price")).Some?)
      && (Truthy(Field(body, "m02_m01_user_id")) ==> env.parse.parseInt(Field(body, "m02_m01_user_id")).Some?)
    ensures r.Success? ==>
      && (r.value.purchaseDate.Some? <==> Truthy(Field(body, "m02_purchase_date")))
      && (r.value.purchaseDate.Some? ==> r.value.purchaseDate == env.parse.isoDate(Field(body, "m02_purchase_date")))
      && (r.value.sellingDate.Some? <==> Truthy(Field(body, "m02_selling_date")))
      && (r.value.sellingDate.Some? ==> r.value.sellingDate == env.parse.isoDate(Field(body, "m02_selling_date")))
      && (r.value.sellingPrice.Some? <==> Truthy(Field(body, "m02_selling_price")))
      && (r.value.sellingPrice.Some? ==> r.value.sellingPrice == env.parse.parseFloat(Field(body, "m02_selling_price")))
      && (r.value.userId.Some? <==> Truthy(Field(body, "m02_m01_user_id")))
      && (r.value.userId.Some? ==> r.value.userId == env.parse.parseInt(Field(body, "m02_m01_user_id")))
    ensures r.Failure? ==>
      (r.status == UNPROCESSABLE <==>
        || (Truthy(Field(body, "m02_purchase_date")) && env.parse.isoDate(Field(body, "m02_purchase_date")).None?)
        || (Truthy(Field(body, "m02_selling_date")) && env.parse.isoDate(Field(body, "m02_selling_date")).None?))
    ensures r.Failure? ==> r.status == UNPROCESSABLE || r.status == SERVER_ERROR
    ensures Truthy(Field(body, "m02_purchase_date")) && env.parse.isoDate(Field(body, "m02_purchase_date")).None?
      ==> r == Failure(UNPROCESSABLE, "m02_purchase_date")
    ensures (Truthy(Field(body, "m02_purchase_date")) ==> env.parse.isoDate(Field(body, "m02_purchase_date")).Some?)
      && Truthy(Field(body, "m02_selling_date")) && env.parse.isoDate(Field(body, "m02_selling_date")).None?
      ==> r == Failure(UNPROCESSABLE, "m02_selling_date")
    ensures (Truthy(Field(body, "m02_purchase_date")) ==> env.parse.isoDate(Field(body, "m02_purchase_date")).Some?)
      && (Truthy(Field(body, "m02_selling_date")) ==> env.parse.isoDate(Field(body, "m02_selling_date")).Some?)
      && Truthy(Field(body, "m02_selling_price")) && env.parse.parseFloat(Field(body, "m02_selling_price")).None?
      ==> r == Failure(SERVER_ERROR, "m02_selling_price")
    ensures (Truthy(Field(body, "m02_purchase_date")) ==> env.parse.isoDate(Field(body, "m02_purchase_date")).Some?)
      && (Truthy(Field(body, "m02_selling_date")) ==> env.parse.isoDate(Field(body, "m02_selling_date")).Some?)
      && (Truthy(Field(body, "m02_selling_price")) ==> env.parse.parseFloat(Field(body, "m02_selling_price")).Some?)
      && Truthy(Field(body, "m02_m01_user_id")) && env.parse.parseInt(Field(body, "m02_m01_user_id")).None?
      ==> r == Failure(SERVER_ERROR, "m02_m01_user_id")
  {
    var purchaseDate :- CheckDate(env, Field(body, "m02_purchase_date"), "m02_purchase_date");
    var sellingDate :- CheckDate(env, Field(body, "m02_selling_date"), "m02_selling_date");
    var sellingPrice :- OptionalFloat(env, Field(body, "m02_selling_price"), "m02_selling_price");
    var userId :- OptionalInt(env, Field(body, "m02_m01_user_id"), "m02_m01_user_id");
    Success(Settled(purchaseDate, sellingDate, sellingPrice, userId))
  }

  /** A date that is not valid is refused with 422 whatever follows it in the request,
      while a selling price that is not a number is refused only later, by the store (500). */
  lemma InvalidDateBeforeBadPrice(env: Env, body: Body)
    requires Truthy(Field(body, "m02_purchase_date"))
    requires env.parse.isoDate(Field(body, "m02_purchase_date")).None?
    ensures Settle(env, body) == Failure(UNPROCESSABLE, "m02_purchase_date")
  {
  }

  /** The photo URLs of the upload, `null` when no file was sent. */
  function PhotoUrls(photos: Upload<seq<string>>): Option<seq<string>>
    requires !photos.UploadFailed?
  {
    if photos.Uploaded? then Some(photos.result) else None
  }

  /** The optional text columns of a mobile, by their request field names. */
  const OptionalTextFields: set<string> := {"m02_brand", "m02_imei", "m02_country", "m02_color",
    "m02_varient", "m02_battery", "m02_notes", "m02_status", "m02_care_warrenty"}

  /** The stored value of the optional text column that request field `f` fills. */
  function Column(m: Mobile, f: string): Value {
    if f == "m02_brand" then m.brand
    else if f == "m02_imei" then m.imei
    else if f == "m02_country" then m.country
    else if f == "m02_color" then m.color
    else if f == "m02_varient" then m.varient
    else if f == "m02_battery" then m.battery
    else if f == "m02_notes" then m.notes
    else if f == "m02_status" then m.status
    else if f == "m02_care_warrenty" then m.careWarranty
    else Undefined
  }

  /** The record createMobile writes: every optional text field `null` when falsy, the
      checked purchase price, the settled dates, selling price and user id, the photo URLs. */
  function NewMobile(id: int, body: Body, price: real, settled: Settled, photos: Upload<seq<string>>)
    : (m: Mobile)
    requires !photos.UploadFailed?
    ensures m.id == id && m.modelName == Field(body, "m02_model_name") && m.purchasePrice == price
    ensures m.sellingPrice == settled.sellingPrice && m.userId == settled.userId
    ensures m.purchaseDate == settled.purchaseDate && m.sellingDate == settled.sellingDate
    ensures m.photos == if photos.Uploaded? then Some(photos.result) else None
    ensures forall f :: f in OptionalTextFields && !Truthy(Field(body, f)) ==> Column(m, f) == Null
    ensures forall f :: f in OptionalTextFields && Truthy(Field(body, f)) ==> Column(m, f) == Field(body, f)
  {
    Mobile(id, Field(body, "m02_model_name"), price, settled.sellingPrice,
           OrNull(Field(body, "m02_brand")), OrNull(Field(body, "m02_imei")),
           OrNull(Field(body, "m02_country")), OrNull(Field(body, "m02_color")),
           OrNull(Field(body, "m02_varient")), OrNull(Field(body, "m02_battery")),
           PhotoUrls(photos), OrNull(Field(body, "m02_notes")), OrNull(Field(body, "m02_status")),
           OrNull(Field(body, "m02_care_warrenty")), settled.purchaseDate, settled.sellingDate,
           settled.userId)
  }

  /** The fields updateMobile writes; `None` marks a field dropped as `undefined`. */
  datatype MobilePatch = MobilePatch(
    modelName: Value,
    purchasePrice: real,
    sellingPrice: Option<real>,
    brand: Option<Value>,
    imei: Option<Value>,
    country: Option<Value>,
    color: Option<Value>,
    varient: Option<Value>,
    battery: Option<Value>,
    photos: Option<seq<string>>,
    notes: Option<Value>,
    status: Option<Value>,
    careWarranty: Option<Value>,
    purchaseDate: Option<string>,
    sellingDate: Option<string>,
    userId: Option<int>)

  /** The written value of the optional text column that request field `f` fills, `None`
      when dropped. */
  function PatchColumn(p: MobilePatch, f: string): Option<Value> {
    if f == "m02_brand" then p.brand
    else if f == "m02_imei" then p.imei
    else if f == "m02_country" then p.country
    else if f == "m02_color" then p.color
    else if f == "m02_varient" then p.varient
    else if f == "m02_battery" then p.battery
    else if f == "m02_notes" then p.notes
    else if f == "m02_status" then p.status
    else if f == "m02_care_warrenty" then p.careWarranty
    else None
  }

  /** updateMobile passes the optional text fields on as sent: only an absent field is
      dropped, so `null` or an empty string is written. */
  function MobilePatchOf(body: Body, price: real, settled: Settled, photos: Upload<seq<string>>)
    : (p: MobilePatch)
    requires !photos.UploadFailed?
    ensures p.modelName == Field(body, "m02_model_name") && p.purchasePrice == price
    ensures p.sellingPrice == settled.sellingPrice && p.userId == settled.userId
    ensures p.purchaseDate == settled.purchaseDate && p.sellingDate == settled.sellingDate
    ensures forall f :: f in OptionalTextFields ==> (PatchColumn(p, f).None? <==> Field(body, f) == Undefined)
    ensures forall f :: f in OptionalTextFields && PatchColumn(p, f).Some? ==> PatchColumn(p, f).value == Field(body, f)
    ensures p.photos.Some? <==> photos.Uploaded?
    ensures photos.Uploaded? ==> p.photos == Some(photos.result)
  {
    MobilePatch(Field(body, "m02_model_name"), price, settled.sellingPrice,
                UnlessUndefined(Field(body, "m02_brand")), UnlessUndefined(Field(body, "m02_imei")),
                UnlessUndefined(Field(body, "m02_country")), UnlessUndefined(Field(body, "m02_color")),
                UnlessUndefined(Field(body, "m02_varient")), UnlessUndefined(Field(body, "m02_battery")),
                PhotoUrls(photos), UnlessUndefined(Field(body, "m02_notes")),
                UnlessUndefined(Field(body, "m02_status")), UnlessUndefined(Field(body, "m02_care_warrenty")),
                settled.purchaseDate, settled.sellingDate, settled.userId)
  }

  /** A value the store accepts for a nullable enum column: `null` or one of the enum's
      values. */
  predicate EnumStorable(values: set<string>, v: Option<Value>) {
    v.None? || v == Some(Null) || IsOneOf(values, v.value)
  }

  /** The store's refusal of an update that writes a falsy value other than `null` (an empty
      string, say) into the brand or status column (500). */
  function CheckStorable(env: Env, p: MobilePatch): (r: Result<()>)
    ensures r.Success? <==> EnumStorable(env.enums.brand, p.brand) && EnumStorable(env.enums.itemStatus, p.status)
    ensures r.Failure? ==> r.status == SERVER_ERROR
  {
    if !EnumStorable(env.enums.brand, p.brand) then Failure(SERVER_ERROR, "m02_brand")
    else if !EnumStorable(env.enums.itemStatus, p.status) then Failure(SERVER_ERROR, "m02_status")
    else Success(())
  }

  /** An empty brand passes the handler's own check (it is falsy) but is written as it is,
      and the store refuses it, whereas on create the same brand is stored as `null`. */
  lemma EmptyBrandRefusedOnlyOnUpdate(env: Env, body: Body, price: real, settled: Settled, photos: Upload<seq<string>>)
    requires !photos.UploadFailed?
    requires Field(body, "m02_brand") == Str("") && "" !in env.enums.brand
    ensures CheckStorable(env, MobilePatchOf(body, price, settled, photos)).Failure?
    ensures NewMobile(0, body, price, settled, photos).brand == Null
  {
  }

  /** An optional stored column after an update that writes `sent` when it is not dropped. */
  function Replace<T>(stored: Option<T>, sent: Option<T>): Option<T> {
    if sent.Some? then sent else stored
  }

  /** The update write: supplied fields replace the stored ones, dropped fields keep theirs,
      and the id never changes. */
  function Patched(m: Mobile, p: MobilePatch): (r: Mobile)
    ensures r.id == m.id && r.modelName == p.modelName && r.purchasePrice == p.purchasePrice
    ensures p.sellingPrice.None? ==> r.sellingPrice == m.sellingPrice
    ensures p.sellingPrice.Some? ==> r.sellingPrice == p.sellingPrice
    ensures p.photos.None? ==> r.photos == m.photos
    ensures p.photos.Some? ==> r.photos == p.photos
    ensures p.purchaseDate.None? ==> r.purchaseDate == m.purchaseDate
    ensures p.purchaseDate.Some? ==> r.purchaseDate == p.purchaseDate
    ensures p.sellingDate.None? ==> r.sellingDate == m.sellingDate
    ensures p.sellingDate.Some? ==> r.sellingDate == p.sellingDate
    ensures p.userId.None? ==> r.userId == m.userId
    ensures p.userId.Some? ==> r.userId == p.userId
    ensures p.brand.None? ==> r.brand == m.brand
    ensures p.brand.Some? ==> r.brand == p.brand.value
    ensures p.imei.None? ==> r.imei == m.imei
    ensures p.imei.Some? ==> r.imei == p.imei.value
    ensures p.country.None? ==> r.country == m.country
    ensures p.country.Some? ==> r.country == p.country.value
    ensures p.color.None? ==> r.color == m.color
    ensures p.color.Some? ==> r.color == p.color.value
    ensures p.varient.None? ==> r.varient == m.varient
    ensures p.varient.Some? ==> r.varient == p.varient.value
    ensures p.battery.None? ==> r.battery == m.battery
    ensures p.battery.Some? ==> r.battery == p.battery.value
    ensures p.notes.None? ==> r.notes == m.notes
    ensures p.notes.Some? ==> r.notes == p.notes.value
    ensures p.status.None? ==> r.status == m.status
    ensures p.status.Some? ==> r.status == p.status.value
    ensures p.careWarranty.None? ==> r.careWarranty == m.careWarranty
    ensures p.careWarranty.Some? ==> r.careWarranty == p.careWarranty.value
  {
    Mobile(m.id, p.modelName, p.purchasePrice, Replace(m.sellingPrice, p.sellingPrice),
           p.brand.GetOr(m.brand), p.imei.GetOr(m.imei), p.country.GetOr(m.country),
           p.color.GetOr(m.color), p.varient.GetOr(m.varient), p.battery.GetOr(m.battery),
           Replace(m.photos, p.photos), p.notes.GetOr(m.notes), p.status.GetOr(m.status),
           p.careWarranty.GetOr(m.careWarranty), Replace(m.purchaseDate, p.purchaseDate),
           Replace(m.sellingDate, p.sellingDate), Replace(m.userId, p.userId))
  }

  /** Each optional text column takes the value sent for it, `null` and `""` included,
      and keeps its stored value when the field is left out; the photos are replaced only
      when new files are sent. */
  lemma UpdateClearsOnlyWhatIsSent(m: Mobile, body: Body, price: real, settled: Settled, photos: Upload<seq<string>>)
    requires !photos.UploadFailed?
    ensures var r := Patched(m, MobilePatchOf(body, price, settled, photos));
      && (forall f :: f in OptionalTextFields && Field(body, f) == Undefined ==> Column(r, f) == Column(m, f))
      && (forall f :: f in OptionalTextFields && Field(body, f) != Undefined ==> Column(r, f) == Field(body, f))
      && (photos.NoFile? ==> r.photos == m.photos)
      && (photos.Uploaded? ==> r.photos == Some(photos.result))
  {
  }

  /** listMobiles' filter: model name, IMEI, country, colour, variant or brand contains the
      term. */
  predicate MobileMatches(term: string, m: Mobile)
    ensures term == "" ==> MobileMatches(term, m)
    ensures term != "" && m.modelName == Null && m.imei == Null && m.country == Null
      && m.color == Null && m.varient == Null && m.brand == Null
      ==> !MobileMatches(term, m)
  {
    || term == ""
    || FieldContains(m.modelName, term)
    || FieldContains(m.imei, term)
    || FieldContains(m.country, term)
    || FieldContains(m.color, term)
    || FieldContains(m.varient, term)
    || FieldContains(m.brand, term)
  }

  /** The id of deleteMobile and updateMobile: an empty parameter and one that is not a
      number are both 400. */
  function MobileId(env: Env, idParam: string): (r: Result<int>)
    ensures r.Success? <==> idParam != "" && ParseId(env, idParam).Some?
    ensures r.Success? ==> ParseId(env, idParam) == Some(r.value)
    ensures r.Failure? ==> r == Failure(BAD_REQUEST, "m02_id")
  {
    if idParam == "" then Failure(BAD_REQUEST, "m02_id")
    else if ParseId(env, idParam).None? then Failure(BAD_REQUEST, "m02_id")
    else Success(ParseId(env, idParam).value)
  }

  class MobileTable {
    var rows: map<int, Mobile>
    var nextId: int

    ghost predicate Valid()
      reads this
    {
      && nextId >= 1
      && (forall k :: k in rows ==> 1 <= k < nextId && rows[k].id == k)
    }

    constructor ()
      ensures Valid() && rows == map[]
    {
      rows := map[];
      nextId := 1;
    }

    /** createMobile: the field checks (422), the upload (500), the dates (422), the
        selling price and user id (500 when not numbers); the mobile is then written and sent
        back with 200, not 201. */
    method Create(env: Env, body: Body, photos: Upload<seq<string>>) returns (reply: Reply<Mobile>)
      requires Valid()
      modifies this
      ensures Valid()
      ensures var check := CheckMobile(env, body); var settled := Settle(env, body);
        reply == if check.Failure? then Refusal(check)
                 else if photos.UploadFailed? then Err(SERVER_ERROR, "m02_photos")
                 else if settled.Failure? then Refusal(settled)
                 else Ok(OK, Some(NewMobile(old(nextId), body, check.value, settled.value, photos)))
      ensures reply.Ok? ==>
        && old(nextId) !in old(rows)
        && rows == old(rows)[old(nextId) := reply.data.value]
        && nextId == old(nextId) + 1
      ensures reply.Err? ==> rows == old(rows) && nextId == old(nextId)
    {
      var check := CheckMobile(env, body);
      if check.Failure? {
        return Refusal(check);
      }
      if photos.UploadFailed? {
        return Err(SERVER_ERROR, "m02_photos");
      }
      var settled := Settle(env, body);
      if settled.Failure? {
        return Refusal(settled);
      }
      var created := NewMobile(nextId, body, check.value, settled.value, photos);
      rows := rows[nextId := created];
      nextId := nextId + 1;
      reply := Ok(OK, Some(created));
    }

    /** listMobiles: paginated, filtered by `MobileMatches`. */
    method List(env: Env, q: Query) returns (reply: Reply<Listing<Mobile>>, ghost ids: seq<int>)
      requires Valid() && LimitUsable(env, q)
      ensures var page := PageNumber(env, q);
        var limit := LimitNumber(env, q).value;
        var term := SearchTerm(q);
        if page.None? || page.value < 1 then reply == Err(SERVER_ERROR, "page")
        else
          && Enumerates(ids, rows, m => MobileMatches(term, m))
          && reply == Ok(OK, Some(Listing(Window(RowsOf(rows, ids), Skip(page.value, limit), limit),
                                          |ids|, page.value, limit, TotalPages(|ids|, limit))))
    {
      var term := SearchTerm(q);
      reply, ids := ListPage(env, q, rows, nextId, m => MobileMatches(term, m));
    }

    /** getSingleMobile: the id is not checked, so one that is not a number reaches the
        store as NaN (500); an unknown id is 404. */
    method Get(env: Env, idParam: string) returns (reply: Reply<Mobile>)
      requires Valid()
      ensures var id := ParseId(env, idParam);
        reply == if id.None? then Err(SERVER_ERROR, "m02_id")
                 else if id.value !in rows then Err(NOT_FOUND, "m02_id")
                 else Ok(OK, Some(rows[id.value]))
    {
      var id := ParseId(env, idParam);
      if id.None? {
        return Err(SERVER_ERROR, "m02_id");
      }
      if id.value !in rows {
        return Err(NOT_FOUND, "m02_id");
      }
      reply := Ok(OK, Some(rows[id.value]));
    }

    /** updateMobile: 400, 404, the field checks (422), the upload (500), the dates (422),
        the selling price and user id (500), then the write, which the store refuses (500)
        when it would put a falsy non-null value into an enum column. */
    method Update(env: Env, idParam: string, body: Body, photos: Upload<seq<string>>)
      returns (reply: Reply<Mobile>)
      requires Valid()
      modifies this
      ensures Valid()
      ensures var id := MobileId(env, idParam);
        var check := CheckMobile(env, body);
        var settled := Settle(env, body);
        reply == if id.Failure? then Refusal(id)
                 else if id.value !in old(rows) then Err(NOT_FOUND, "m02_id")
                 else if check.Failure? then Refusal(check)
                 else if photos.UploadFailed? then Err(SERVER_ERROR, "m02_photos")
                 else if settled.Failure? then Refusal(settled)
                 else
                   var patch := MobilePatchOf(body, check.value, settled.value, photos);
                   if CheckStorable(env, patch).Failure? then Refusal(CheckStorable(env, patch))
                   else Ok(OK, Some(Patched(old(rows)[id.value], patch)))
      ensures reply.Ok? ==> rows == old(rows)[reply.data.value.id := reply.data.value]
      ensures reply.Err? ==> rows == old(rows)
      ensures nextId == old(nextId)
    {
      var id := MobileId(env, idParam);
      if id.Failure? {
        return Refusal(id);
      }
      if id.value !in rows {
        return Err(NOT_FOUND, "m02_id");
      }
      var check := CheckMobile(env, body);
      if check.Failure? {
        return Refusal(check);
      }
      if photos.UploadFailed? {
        return Err(SERVER_ERROR, "m02_photos");
      }
      var settled := Settle(env, body);
      if settled.Failure? {
        return Refusal(settled);
      }
      var patch := MobilePatchOf(body, check.value, settled.value, photos);
      var storable := CheckStorable(env, patch);
      if storable.Failure? {
        return Refusal(storable);
      }
      var updated := Patched(rows[id.value], patch);
      assert updated.id == rows[id.value].id == id.value;
      rows := rows[id.value := updated];
      reply := Ok(OK, Some(updated));
    }

    /** deleteMobile: an empty or non-numeric id is 400, an unknown one 404; otherwise the
        mobile is removed and 204 sent. */
    method Delete(env: Env, idParam: string) returns (reply: Reply<Mobile>)
      requires Valid()
      modifies this
      ensures Valid()
      ensures var id := MobileId(env, idParam);
        reply == if id.Failure? then Refusal(id)
                 else if id.value !in old(rows) then Err(NOT_FOUND, "m02_id")
                 else Ok(NO_CONTENT, None)
      ensures reply.Ok? ==> rows == old(rows) - {MobileId(env, idParam).value}
      ensures reply.Err? ==> rows == old(rows)
      ensures nextId == old(nextId)
    {
      var id := MobileId(env, idParam);
      if id.Failure? {
        return Refusal(id);
      }
      if id.value !in rows {
        return Err(NOT_FOUND, "m02_id");
      }
      rows := rows - {id.value};
      reply := Ok(NO_CONTENT, None);
    }
  }
}
