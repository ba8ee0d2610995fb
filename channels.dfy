/**
 * The parameter handling of routes/channels.js: `GET /` (filters, page,
 * limit, offset, total pages) and `GET /:id`. The queries themselves run in
 * the database; what they return is an input of the model.
 */
module Channels {
  import opened Js

  // ---------------------------------------------------------------------
  // Page and limit
  // ---------------------------------------------------------------------

  const DefaultPage: int := 1
  const DefaultLimit: int := 50

  /** `parseInt(raw) || fallback`: NaN and 0 are both falsy, so both give the fallback. */
  function IntOr(raw: Option<string>, fallback: int): int {
    match ParseIntOpt(raw)
    case Some(v) => if v != 0 then v else fallback
    case None => fallback
  }

  /**
   * A missing, unparsable or zero parameter takes the default; any other
   * number given as its decimal numeral is read back as it is.
   */
  lemma IntOrDefaults(raw: Option<string>, fallback: int)
    ensures (raw.None? || ParseIntOpt(raw).None? || ParseIntOpt(raw) == Some(0)) ==> IntOr(raw, fallback) == fallback
    ensures forall n :: n != 0 ==> IntOr(Some(IntToString(n)), fallback) == n
  {
    forall n | n != 0
      ensures IntOr(Some(IntToString(n)), fallback) == n
    {
      ParseIntOfIntToString(n);
    }
  }

  /** `limit <= 0 || page <= 0` is the 400 test. */
  predicate Accepted(page: int, limit: int) {
    page > 0 && limit > 0
  }

  /** `(page - 1) * limit` */
  function Offset(page: int, limit: int): int {
    (page - 1) * limit
  }

  /**
   * On accepted input the offset is not negative, the first page starts at
   * row 0 and each page starts `limit` rows after the one before.
   */
  lemma OffsetTiles(page: int, limit: int)
    requires Accepted(page, limit)
    ensures Offset(page, limit) >= 0
    ensures Offset(1, limit) == 0
    ensures Offset(page + 1, limit) == Offset(page, limit) + limit
    ensures Offset(page, limit) < Offset(page + 1, limit)
  {
    assert (page + 1 - 1) * limit == (page - 1) * limit + limit;
  }

  /** `Math.ceil(total / limit)`. */
  function TotalPages(total: nat, limit: int): nat
    requires limit > 0
  {
    (total + limit - 1) / limit
  }

  /** `TotalPages` is the smallest number of `limit`-row pages that hold `total` rows. */
  lemma TotalPagesCeiling(total: nat, limit: int)
    requires limit > 0
    ensures TotalPages(total, limit) * limit >= total
    ensures TotalPages(total, limit) > 0 ==> (TotalPages(total, limit) - 1) * limit < total
    ensures TotalPages(total, limit) == 0 <==> total == 0
  {
    var p := TotalPages(total, limit);
    var r := (total + limit - 1) % limit;
    assert total + limit - 1 == p * limit + r;
    assert (p - 1) * limit == p * limit - limit;
  }

  // ---------------------------------------------------------------------
  // Filters
  // ---------------------------------------------------------------------

  /** `req.query.x ? String(req.query.x).trim() : undefined` */
  function TrimmedParam(raw: Option<string>): Option<string> {
    if Truthy(raw) then Some(Trim(raw.value)) else None
  }

  /**
   * The location codes of `languageGroupPrefixes`: split on `,`, each piece
   * trimmed and upper-cased, empty ones dropped.
   */
  function NormalizeCodes(pieces: seq<string>): seq<string> {
    if |pieces| == 0 then []
    else
      var code := ToUpper(Trim(pieces[0]));
      (if code != "" then [code] else []) + NormalizeCodes(pieces[1..])
  }

  /** `param.split(',').map(p => p.trim().toUpperCase()).filter(p => p)` */
  function CodesOf(param: string): seq<string> {
    NormalizeCodes(Split(param, ','))
  }

  /**
   * The codes are the non-blank pieces, trimmed and upper-cased: none is
   * empty or holds a comma, and there are never more codes than pieces.
   */
  lemma {:induction false} NormalizedCodes(pieces: seq<string>)
    ensures |NormalizeCodes(pieces)| <= |pieces|
    ensures forall k :: 0 <= k < |NormalizeCodes(pieces)| ==> NormalizeCodes(pieces)[k] != ""
    ensures (forall k :: 0 <= k < |pieces| ==> ',' !in pieces[k])
            ==> forall k :: 0 <= k < |NormalizeCodes(pieces)| ==> ',' !in NormalizeCodes(pieces)[k]
  {
    if |pieces| > 0 {
      NormalizedCodes(pieces[1..]);
    }
  }

  /** No code remains exactly when every piece is blank. */
  lemma {:induction false} NoCodesWhenBlank(pieces: seq<string>)
    ensures NormalizeCodes(pieces) == [] <==> forall k :: 0 <= k < |pieces| ==> Trim(pieces[k]) == ""
  {
    if |pieces| > 0 {
      NoCodesWhenBlank(pieces[1..]);
      if Trim(pieces[0]) == "" {
        assert forall k :: 1 <= k < |pieces| ==> pieces[k] == pieces[1..][k - 1];
      }
    }
  }

  /** Whether a location-code parameter leaves at least one code. */
  predicate HasCodes(param: Option<string>) {
    Truthy(param) && CodesOf(param.value) != []
  }

  /** One filter of the channel query. */
  datatype Condition =
    | GroupEquals(groupTitle: string)        // eq(channels.groupTitle, group)
    | NameLike(pattern: string)              // ilike(channels.name, `%${search}%`)
    | CodeIn(codes: seq<string>)             // inArray(channels.locationCode, codes)

  /**
   * The filters in the order the handler adds them: the group filter when
   * the trimmed group is non-empty, then the search filter likewise, then
   * the location-code filter when at least one code remains.
   */
  function Filters(group: Option<string>, search: Option<string>, locationCodesParam: Option<string>): seq<Condition> {
    (if Truthy(group) then [GroupEquals(group.value)] else [])
    + (if Truthy(search) then [NameLike("%" + search.value + "%")] else [])
    + (if HasCodes(locationCodesParam) then [CodeIn(CodesOf(locationCodesParam.value))] else [])
  }

  /** Each filter is present exactly when its parameter asks for it, and the code filter holds only non-empty codes. */
  lemma FilterPresence(group: Option<string>, search: Option<string>, locationCodesParam: Option<string>)
    ensures var fs := Filters(group, search, locationCodesParam);
      && |fs| <= 3
      && ((exists k :: 0 <= k < |fs| && fs[k].GroupEquals?) <==> Truthy(group))
      && ((exists k :: 0 <= k < |fs| && fs[k].NameLike?) <==> Truthy(search))
      && ((exists k :: 0 <= k < |fs| && fs[k].CodeIn?) <==> HasCodes(locationCodesParam))
      && (forall k :: 0 <= k < |fs| && fs[k].CodeIn? ==>
            |fs[k].codes| > 0 && forall j :: 0 <= j < |fs[k].codes| ==> fs[k].codes[j] != "")
  {
    var fs := Filters(group, search, locationCodesParam);
    var g := if Truthy(group) then [GroupEquals(group.value)] else [];
    var n := if Truthy(search) then [NameLike("%" + search.value + "%")] else [];
    var c := if HasCodes(locationCodesParam) then [CodeIn(CodesOf(locationCodesParam.value))] else [];
    assert fs == g + n + c;
    if HasCodes(locationCodesParam) {
      NormalizedCodes(Split(locationCodesParam.value, ','));
      assert fs[|fs| - 1].CodeIn?;
    }
    if Truthy(search) {
      assert fs[|g|].NameLike?;
    }
    if Truthy(group) {
      assert fs[0].GroupEquals?;
    }
  }

  /** The `conditions` array, built by `push`. */
  method BuildConditions(group: Option<string>, search: Option<string>, locationCodesParam: Option<string>)
    returns (conditions: seq<Condition>)
    ensures conditions == Filters(group, search, locationCodesParam)
  {
    conditions := [];
    if Truthy(group) {
      conditions := conditions + [GroupEquals(group.value)];
    }
    if Truthy(search) {
      conditions := conditions + [NameLike("%" + search.value + "%")];
    }
    if Truthy(locationCodesParam) {
      var codes := CodesOf(locationCodesParam.value);
      if |codes| > 0 {
        conditions := conditions + [CodeIn(codes)];
      }
    }
  }

  /** `conditions.length > 0 ? and(...conditions) : undefined`: the filters are conjoined. */
  function WhereClause(conditions: seq<Condition>): Option<seq<Condition>> {
    if |conditions| > 0 then Some(conditions) else None
  }

  /** Filters are conjoined, and with none there is no where clause at all. */
  lemma NoFilterNoWhere(group: Option<string>, search: Option<string>, locationCodesParam: Option<string>)
    ensures WhereClause(Filters(group, search, locationCodesParam)).None?
            <==> !Truthy(group) && !Truthy(search) && !HasCodes(locationCodesParam)
    ensures WhereClause(Filters(group, search, locationCodesParam)).Some?
            ==> WhereClause(Filters(group, search, locationCodesParam)).value == Filters(group, search, locationCodesParam)
  {
    var fs := Filters(group, search, locationCodesParam);
    if Truthy(group) || Truthy(search) || HasCodes(locationCodesParam) {
      assert |fs| > 0;
    }
  }

  // ---------------------------------------------------------------------
  // GET /
  // ---------------------------------------------------------------------

  /** The query-string parameters `GET /` reads. */
  datatype ListParams = ListParams(
    group: Option<string>, search: Option<string>, languageGroupPrefixes: Option<string>,
    page: Option<string>, limit: Option<string>)

  /** The channel query sent to the database. */
  datatype ChannelQuery = ChannelQuery(where: Option<seq<Condition>>, limit: int, offset: int)

  datatype Pagination = Pagination(totalItems: nat, totalPages: nat, currentPage: int, pageSize: int)

  datatype ListResponse =
    | BadRequest(message: string)                          // 400
    | ServerError                                          // next(err)
    | Listed(query: ChannelQuery, pagination: Pagination)  // 200

  /**
   * `GET /`: `count` is what the count query returns, `None` when a query
   * throws.
   */
  method ListChannels(params: ListParams, count: Option<nat>) returns (r: ListResponse)
    ensures r.BadRequest? <==> !Accepted(IntOr(params.page, DefaultPage), IntOr(params.limit, DefaultLimit))
    ensures r.ServerError? <==> !r.BadRequest? && count.None?
    ensures r.Listed? ==>
      var page := IntOr(params.page, DefaultPage);
      var limit := IntOr(params.limit, DefaultLimit);
      && r.query.limit == limit && r.query.offset == Offset(page, limit) && r.query.offset >= 0
      && r.query.where == WhereClause(Filters(TrimmedParam(params.group), TrimmedParam(params.search),
                                              TrimmedParam(params.languageGroupPrefixes)))
      && r.pagination == Pagination(count.value, TotalPages(count.value, limit), page, limit)
  {
    var group := TrimmedParam(params.group);
    var search := TrimmedParam(params.search);
    var locationCodesParam := TrimmedParam(params.languageGroupPrefixes);
    var page := IntOr(params.page, DefaultPage);
    var limit := IntOr(params.limit, DefaultLimit);
    var offset := Offset(page, limit);

    if limit <= 0 || page <= 0 {
      return BadRequest("Page and limit must be positive integers.");
    }
    OffsetTiles(page, limit);

    var conditions := BuildConditions(group, search, locationCodesParam);
    var whereClause := WhereClause(conditions);
    if count.None? {
      return ServerError;
    }
    var totalChannels := count.value;
    var totalPages := TotalPages(totalChannels, limit);
    r := Listed(ChannelQuery(whereClause, limit, offset), Pagination(totalChannels, totalPages, page, limit));
  }

  // ---------------------------------------------------------------------
  // GET /:id
  // ---------------------------------------------------------------------

  datatype ItemResponse<Row> =
    | InvalidId      // 400
    | NotFound       // 404
    | ItemError      // next(err)
    | Found(row: Row)

  /**
   * `GET /:id` against a table keyed by id; `failing` says the query throws.
   * A non-numeric id is 400, an id with no row 404, and otherwise the row.
   */
  function GetChannel<Row>(id: string, table: map<int, Row>, failing: bool): (r: ItemResponse<Row>)
    ensures r.InvalidId? <==> ParseInt(id).None?
    ensures r.NotFound? <==> ParseInt(id).Some? && !failing && ParseInt(id).value !in table
    ensures r.ItemError? <==> ParseInt(id).Some? && failing
    ensures r.Found? <==> ParseInt(id).Some? && !failing && ParseInt(id).value in table
    ensures r.Found? ==> r.row == table[ParseInt(id).value]
  {
    match ParseInt(id)
    case None => InvalidId
    case Some(channelId) =>
      if failing then ItemError
      else if channelId !in table then NotFound
      else Found(table[channelId])
  }

  /** Every id the server prints is accepted and looked up as itself. */
  lemma GetChannelOfPrintedId<Row>(n: int, table: map<int, Row>)
    ensures GetChannel(IntToString(n), table, false) == if n in table then Found(table[n]) else NotFound
  {
    ParseIntOfIntToString(n);
  }
}
