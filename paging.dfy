/** The list handlers' query parameters and page window: `page` and `limit` default to 1 and
    10 only when absent, `skip = (page - 1) * limit`, `take = limit`, and
    `totalPages = ceil(total / limit)`. The store returns the matching rows in an order this
    model leaves unspecified; `Collect` enumerates them. */
module Paging {
  import opened Values

  /** The data of a list response: one page of rows and the pagination block. */
  datatype Listing<+R> = Listing(items: seq<R>, total: int, page: int, limit: int, totalPages: int)

  /** The query string of a list request; absent parameters are `None`. */
  datatype Query = Query(page: Option<string>, limit: Option<string>, search: Option<string>)

  /** The page number: 1 when `page` is absent, otherwise its `parseInt` (`None` for NaN). */
  function PageNumber(env: Env, q: Query): (r: Option<int>)
    ensures q.page.None? ==> r == Some(1)
  {
    if q.page.None? then Some(1) else env.parse.parseInt(Str(q.page.value))
  }

  /** The page size: 10 when `limit` is absent, otherwise its `parseInt` (`None` for NaN). */
  function LimitNumber(env: Env, q: Query): (r: Option<int>)
    ensures q.limit.None? ==> r == Some(10)
  {
    if q.limit.None? then Some(10) else env.parse.parseInt(Str(q.limit.value))
  }

  /** The search term: the empty string, which filters nothing, when `search` is absent. */
  function SearchTerm(q: Query): string {
    q.search.GetOr("")
  }

  /** The list handlers divide by the limit; a limit below 1 is outside this model. */
  predicate LimitUsable(env: Env, q: Query) {
    LimitNumber(env, q).Some? && LimitNumber(env, q).value >= 1
  }

  /** `(pageNum - 1) * limitNum`: the rows on the pages before `page`. */
  function Skip(page: int, limit: int): (r: int)
    requires limit >= 1
    ensures page >= 1 <==> r >= 0
    ensures page >= 1 ==> r == (page - 1) * limit
  {
    assert page < 1 ==> (page - 1) * limit <= -limit;
    (page - 1) * limit
  }

  /** `Math.ceil(total / limit)`: the fewest pages of `limit` rows that hold `total` rows. */
  function TotalPages(total: nat, limit: int): (n: nat)
    requires limit >= 1
    ensures total <= n * limit
    ensures n == 0 || (n - 1) * limit < total
  {
    var n := (total + limit - 1) / limit;
    assert n * limit <= total + limit - 1 < (n + 1) * limit;
    n
  }

  /** `findMany({ skip, take })` over the matching rows `s`, in the store's order. */
  function Window<T>(s: seq<T>, skip: nat, take: nat): (w: seq<T>)
    ensures |w| == if skip >= |s| then 0 else if skip + take <= |s| then take else |s| - skip
    ensures forall i :: 0 <= i < |w| ==> w[i] == s[skip + i]
  {
    if skip >= |s| then [] else if skip + take <= |s| then s[skip..skip + take] else s[skip..]
  }

  /** The row at position `i` of the matching rows is on page `i / limit + 1`, a page no
      later than the last one, at offset `i % limit` of it. */
  lemma RowOnPage<T>(s: seq<T>, limit: int, i: nat)
    requires limit >= 1 && i < |s|
    ensures var page := i / limit + 1;
      1 <= page <= TotalPages(|s|, limit) &&
      Window(s, Skip(page, limit), limit)[i % limit] == s[i]
  {
    var page := i / limit + 1;
    var n := TotalPages(|s|, limit);
    assert i == (page - 1) * limit + i % limit;
    assert (page - 1) * limit <= i < |s| <= n * limit;
    assert page <= n;
  }

  /** Pages `1..k` read one after the other. */
  function Pages<T>(s: seq<T>, limit: int, k: nat): seq<T>
    requires limit >= 1
  {
    if k == 0 then [] else Pages(s, limit, k - 1) + Window(s, Skip(k, limit), limit)
  }

  lemma {:induction false} PagesArePrefix<T>(s: seq<T>, limit: int, k: nat)
    requires limit >= 1
    ensures Pages(s, limit, k) == s[..if k * limit <= |s| then k * limit else |s|]
  {
    if k > 0 {
      PagesArePrefix(s, limit, k - 1);
      assert (k - 1) * limit + limit == k * limit;
    }
  }

  /** Reading pages 1 to `totalPages` one after the other yields every matching row once,
      in the store's order: nothing is skipped and nothing is repeated. */
  lemma PagesCoverAll<T>(s: seq<T>, limit: int)
    requires limit >= 1
    ensures Pages(s, limit, TotalPages(|s|, limit)) == s
  {
    PagesArePrefix(s, limit, TotalPages(|s|, limit));
  }

  /** `ids` lists, each once, exactly the keys of `rows` whose row satisfies `keep`. */
  ghost predicate Enumerates<R>(ids: seq<int>, rows: map<int, R>, keep: R -> bool) {
    && (forall i :: 0 <= i < |ids| ==> ids[i] in rows && keep(rows[ids[i]]))
    && (forall i, j :: 0 <= i < j < |ids| ==> ids[i] != ids[j])
    && (forall k :: k in rows && keep(rows[k]) ==> k in ids)
  }

  /** The rows a filter selects, newest id first; callers rely only on `Enumerates`, so
      the order stays the store's choice. Every key lies below `bound`. */
  method Collect<R>(rows: map<int, R>, keep: R -> bool, bound: int) returns (ids: seq<int>)
    requires forall k :: k in rows ==> 0 <= k < bound
    ensures Enumerates(ids, rows, keep)
  {
    ids := [];
    var next := bound;
    while next > 0
      invariant next <= bound
      invariant forall i :: 0 <= i < |ids| ==> ids[i] in rows && next <= ids[i] && keep(rows[ids[i]])
      invariant forall i, j :: 0 <= i < j < |ids| ==> ids[i] > ids[j]
      invariant forall k :: k in rows && next <= k && keep(rows[k]) ==> k in ids
    {
      next := next - 1;
      if next in rows && keep(rows[next]) {
        ids := ids + [next];
      }
    }
  }

  /** `rows[ids[0]], rows[ids[1]], ...` */
  function RowsOf<R>(rows: map<int, R>, ids: seq<int>): (r: seq<R>)
    requires forall i :: 0 <= i < |ids| ==> ids[i] in rows
    ensures |r| == |ids|
    ensures forall i :: 0 <= i < |ids| ==> r[i] == rows[ids[i]]
  {
    if ids == [] then [] else [rows[ids[0]]] + RowsOf(rows, ids[1..])
  }

  lemma {:induction false} DistinctCount(ids: seq<int>)
    requires forall i, j :: 0 <= i < j < |ids| ==> ids[i] != ids[j]
    ensures |set k | k in ids| == |ids|
  {
    if ids != [] {
      DistinctCount(ids[1..]);
      assert (set k | k in ids) == (set k | k in ids[1..]) + {ids[0]};
      assert ids[0] !in ids[1..];
    }
  }

  /** The `count` a list handler reports does not depend on the order the store lists the
      matching rows in: any two enumerations of them are equally long. */
  lemma CountIndependentOfOrder<R>(a: seq<int>, b: seq<int>, rows: map<int, R>, keep: R -> bool)
    requires Enumerates(a, rows, keep) && Enumerates(b, rows, keep)
    ensures |a| == |b|
  {
    DistinctCount(a);
    DistinctCount(b);
    assert (set k | k in a) == (set k | k in b);
  }

  /** A paginated, filtered list handler: `findMany({ where, skip, take })` and
      `count({ where })` over the rows `keep` selects. A page number that is not a number
      or is below 1 gives the store a NaN or negative `skip`, which it refuses. */
  method ListPage<R>(env: Env, q: Query, rows: map<int, R>, bound: int, keep: R -> bool)
    returns (reply: Reply<Listing<R>>, ghost ids: seq<int>)
    requires LimitUsable(env, q)
    requires forall k :: k in rows ==> 0 <= k < bound
    ensures var page := PageNumber(env, q);
      var limit := LimitNumber(env, q).value;
      if page.None? || page.value < 1 then reply == Err(SERVER_ERROR, "page")
      else
        && Enumerates(ids, rows, keep)
        && reply == Ok(OK, Some(Listing(Window(RowsOf(rows, ids), Skip(page.value, limit), limit),
                                        |ids|, page.value, limit, TotalPages(|ids|, limit))))
  {
    var page := PageNumber(env, q);
    var limit := LimitNumber(env, q).value;
    ids := [];
    if page.None? || page.value < 1 {
      return Err(SERVER_ERROR, "page"), ids;
    }
    var matching := Collect(rows, keep, bound);
    ids := matching;
    var skip := Skip(page.value, limit);
    var all := RowsOf(rows, matching);
    reply := Ok(OK, Some(Listing(Window(all, skip, limit), |all|, page.value, limit,
                                 TotalPages(|all|, limit))));
  }

  /** An unpaginated list handler (`findMany()` with no arguments): every row. */
  method ListAll<R>(rows: map<int, R>, bound: int) returns (items: seq<R>, ghost ids: seq<int>)
    requires forall k :: k in rows ==> 0 <= k < bound
    ensures Enumerates(ids, rows, _ => true)
    ensures items == RowsOf(rows, ids) && |items| == |rows|
  {
    var all := Collect(rows, _ => true, bound);
    ids := all;
    items := RowsOf(rows, all);
    DistinctCount(ids);
    assert (set k | k in ids) == rows.Keys;
  }
}
