/** The decisions of `TourController` (`src/controllers/tour.controller.ts`) around its store
    calls. Each store answer is an input; the handler's effect is a `HandlerResult`. */
module TourController {
  import opened Wrappers
  import opened Strings
  import opened Json
  import opened Errors
  import opened Http
  import opened Store
  import opened Pagination
  import opened Fields

  /** The twelve columns of a tour row and the API names the handlers copy them to. */
  const TourRowFields: seq<Field> := [
    Field("id", "id"), Field("title", "title"), Field("description", "description"),
    Field("region", "region"), Field("types", "types"), Field("season", "season"),
    Field("durationDays", "duration_days"), Field("durationNights", "duration_nights"),
    Field("photoUrl", "photo_url"), Field("isCustom", "is_custom"),
    Field("createdAt", "created_at"), Field("updatedAt", "updated_at")]

  /** The eight fields `createTour` copies into the insert as they are. */
  const TourInsertFields: seq<Field> := [
    Field("title", "title"), Field("description", "description"), Field("region", "region"),
    Field("types", "types"), Field("season", "season"), Field("durationDays", "duration_days"),
    Field("durationNights", "duration_nights"), Field("photoUrl", "photo_url")]

  /** The nine fields `updateTour` may patch. */
  const TourPatchFields: seq<Field> := [
    Field("title", "title"), Field("description", "description"), Field("region", "region"),
    Field("types", "types"), Field("season", "season"), Field("durationDays", "duration_days"),
    Field("durationNights", "duration_nights"), Field("photoUrl", "photo_url"),
    Field("isCustom", "is_custom")]

  lemma TourRowNamesDistinct()
    ensures DistinctNames(TourRowFields)
  {
    assert NamesDistinctFrom(TourRowFields, 0);
    NamesPairwise(TourRowFields, 0);
  }

  lemma TourInsertFieldsDistinct()
    ensures DistinctColumns(TourInsertFields)
  {
    assert ColumnsDistinctFrom(TourInsertFields, 0);
    ColumnsPairwise(TourInsertFields, 0);
  }

  lemma TourPatchFieldsDistinct()
    ensures DistinctColumns(TourPatchFields)
  {
    assert ColumnsDistinctFrom(TourPatchFields, 0);
    ColumnsPairwise(TourPatchFields, 0);
  }

  /** The tour object of a response. */
  function MapTourRow(row: Record): Json {
    JObj(FromColumns(row, TourRowFields))
  }

  /** The mapper copies each of the twelve columns the row has to its API name with its
      value unchanged, and adds nothing else. */
  lemma MapTourRowCopies(row: Record)
    ensures MapTourRow(row).JObj?
    ensures forall i :: 0 <= i < |TourRowFields| && TourRowFields[i].snake in row ==>
      TourRowFields[i].camel in MapTourRow(row).fields && MapTourRow(row).fields[TourRowFields[i].camel] == row[TourRowFields[i].snake]
    ensures forall c :: c in MapTourRow(row).fields ==> exists i :: 0 <= i < |TourRowFields| && TourRowFields[i].camel == c
  {
    TourRowNamesDistinct();
    FromColumnsSpec(row, TourRowFields);
  }

  function TourPayload(row: Record): Json {
    JObj(map["tour" := MapTourRow(row)])
  }

  /** The insert `createTour` sends: the eight fields as given, then `isCustom ?? false`. */
  function CreateTourInsert(body: Record): Record {
    ToColumns(body, TourInsertFields)["is_custom" := Coalesce(body, "isCustom", JBool(false))]
  }

  /** The insert always carries `is_custom`, false when the body leaves it out; every other
      field the body defines goes under its column unchanged, and nothing else is sent. */
  lemma CreateTourInsertFields(body: Record)
    ensures "is_custom" in CreateTourInsert(body)
    ensures "isCustom" !in body ==> CreateTourInsert(body)["is_custom"] == JBool(false)
    ensures "isCustom" in body && body["isCustom"] != JNull ==> CreateTourInsert(body)["is_custom"] == body["isCustom"]
    ensures forall i :: 0 <= i < |TourInsertFields| && TourInsertFields[i].camel in body ==>
      TourInsertFields[i].snake in CreateTourInsert(body) && CreateTourInsert(body)[TourInsertFields[i].snake] == body[TourInsertFields[i].camel]
    ensures forall c :: c in CreateTourInsert(body) && c != "is_custom" ==>
      exists i :: 0 <= i < |TourInsertFields| && TourInsertFields[i].snake == c && TourInsertFields[i].camel in body
  {
    TourInsertFieldsDistinct();
    ToColumnsSpec(body, TourInsertFields);
    assert ColumnFreeFrom("is_custom", TourInsertFields, 0);
    ColumnFreeAll("is_custom", TourInsertFields, 0);
  }

  /** `createTour` after its insert: a store error is a 400 carrying the store's message, no
      row is a 500, and a row is a 201 with the mapped tour. */
  function CreateTourOutcome(result: Single<Record>): (r: HandlerResult)
    ensures result.Failed? ==> r == Throw(NewValidationError(result.err.message))
    ensures result.Missing? ==> r == Throw(NewInternalError(Some("Failed to create tour")))
    ensures result.Found? ==> r == Respond(201, TourPayload(result.row))
  {
    match result
    case Failed(err) => Throw(NewValidationError(err.message))
    case Missing => Throw(NewInternalError(Some("Failed to create tour")))
    case Found(row) => Respond(201, TourPayload(row))
  }

  /** The filter `.contains('types', ...)` receives: the comma-separated pieces, each trimmed. */
  function TypesArray(types: string): (xs: seq<string>)
    ensures |xs| == |Split(types, ',')|
  {
    var pieces := Split(types, ',');
    seq(|pieces|, i requires 0 <= i < |pieces| => Trim(pieces[i]))
  }

  /** `k` commas give `k + 1` filter elements, each piece between commas trimmed and kept in
      order, empty pieces included. */
  lemma TypesArrayCount(types: string)
    ensures |TypesArray(types)| == Count(types, ',') + 1
    ensures forall i :: 0 <= i < |TypesArray(types)| ==> TypesArray(types)[i] == Trim(Split(types, ',')[i])
  {
    SplitCount(types, ',');
  }

  /** The filters `getTours` adds, each only for a query value that JavaScript finds truthy
      (`isCustom` whenever it is present). */
  function TourFilters(q: map<string, string>): seq<Filter> {
    (if "region" in q && q["region"] != "" then [Eq("region", JStr(q["region"]))] else [])
    + (if "season" in q && q["season"] != "" then [Eq("season", JStr(q["season"]))] else [])
    + (if "types" in q && q["types"] != "" then [Contains("types", TypesArray(q["types"]))] else [])
    + (if "isCustom" in q then [Eq("is_custom", JBool(q["isCustom"] == "true"))] else [])
  }

  /** The `isCustom` filter: 'true' filters on true, 'false' on false, and an absent parameter
      adds no filter at all. */
  lemma IsCustomFilter(q: map<string, string>)
    requires "region" !in q && "season" !in q && "types" !in q
    ensures "isCustom" !in q ==> TourFilters(q) == []
    ensures "isCustom" in q && q["isCustom"] == "true" ==> TourFilters(q) == [Eq("is_custom", JBool(true))]
    ensures "isCustom" in q && q["isCustom"] == "false" ==> TourFilters(q) == [Eq("is_custom", JBool(false))]
  {
  }

  /** Every filter is on a known column and comes from the parameter of that name. */
  lemma {:induction false} TourFiltersFromQuery(q: map<string, string>)
    ensures |TourFilters(q)| <= 4
    ensures forall f :: f in TourFilters(q) ==>
      (f.Eq? && f.column == "region" && "region" in q && f.value == JStr(q["region"])) ||
      (f.Eq? && f.column == "season" && "season" in q && f.value == JStr(q["season"])) ||
      (f.Contains? && f.column == "types" && "types" in q && f.values == TypesArray(q["types"])) ||
      (f.Eq? && f.column == "is_custom" && "isCustom" in q && f.value == JBool(q["isCustom"] == "true"))
  {
  }

  /** `getTours` building its query step by step: the filters, then the page's range, most
      recent first. */
  method BuildToursQuery(q: map<string, string>) returns (query: ListQuery)
    requires OptionalDigits(q, "page") && OptionalDigits(q, "limit")
    ensures query.filters == TourFilters(q)
    ensures query.range == Some((Offset(NumberParam(q, "page", "1"), NumberParam(q, "limit", "10")),
                                 RangeEnd(NumberParam(q, "page", "1"), NumberParam(q, "limit", "10"))))
    ensures query.order == Some(("created_at", false))
  {
    var pageNum: int := NumberParam(q, "page", "1");
    var limitNum: int := NumberParam(q, "limit", "10");
    var offset: int := (pageNum - 1) * limitNum;
    query := ListQuery([], None, None);
    var regionPart := if "region" in q && q["region"] != "" then [Eq("region", JStr(q["region"]))] else [];
    var seasonPart := if "season" in q && q["season"] != "" then [Eq("season", JStr(q["season"]))] else [];
    var typesPart := if "types" in q && q["types"] != "" then [Contains("types", TypesArray(q["types"]))] else [];
    if "region" in q && q["region"] != "" {
      query := query.(filters := query.filters + [Eq("region", JStr(q["region"]))]);
    }
    assert query.filters == regionPart;
    if "season" in q && q["season"] != "" {
      query := query.(filters := query.filters + [Eq("season", JStr(q["season"]))]);
    }
    assert query.filters == regionPart + seasonPart;
    if "types" in q && q["types"] != "" {
      var typesArray := TypesArray(q["types"]);
      query := query.(filters := query.filters + [Contains("types", typesArray)]);
    }
    assert query.filters == regionPart + seasonPart + typesPart;
    if "isCustom" in q {
      query := query.(filters := query.filters + [Eq("is_custom", JBool(q["isCustom"] == "true"))]);
    }
    query := query.(range := Some((offset, offset + limitNum - 1)));
    query := query.(order := Some(("created_at", false)));
  }

  /** `getTours` after its list query: a store error is a 500 'Failed to fetch tours';
      otherwise every row, mapped, in the order given, with the page's pagination object. */
  function ToursOutcome(page: nat, limit: nat, result: Listing): (r: HandlerResult)
    ensures result.ListFailed? ==> r == Throw(NewInternalError(Some("Failed to fetch tours")))
    ensures result.Listed? ==> r.Respond? && r.status == 200 && r.data.JObj?
    ensures result.Listed? ==> r.data.fields.Keys == {"tours", "pagination"}
    ensures result.Listed? ==> r.data.fields["pagination"] == PaginationInfo(page, limit, result.count)
    ensures result.Listed? ==> r.data.fields["tours"].JArr? && |r.data.fields["tours"].items| == |result.rows.GetOr([])|
    ensures result.Listed? ==> forall i :: 0 <= i < |result.rows.GetOr([])| ==>
      r.data.fields["tours"].items[i] == MapTourRow(result.rows.GetOr([])[i])
  {
    match result
    case ListFailed(_) => Throw(NewInternalError(Some("Failed to fetch tours")))
    case Listed(rows, count) =>
      var all := rows.GetOr([]);
      Respond(200, JObj(map[
        "tours" := JArr(seq(|all|, i requires 0 <= i < |all| => MapTourRow(all[i]))),
        "pagination" := PaginationInfo(page, limit, count)]))
  }

  /** `getTour`: any store error and a missing row are the same 404 'Tour not found'. */
  function TourOutcome(result: Single<Record>): (r: HandlerResult)
    ensures !result.Found? ==> r == Throw(NewNotFoundError(Some("Tour not found")))
    ensures result.Found? ==> r == Respond(200, TourPayload(result.row))
  {
    if result.Found? then Respond(200, TourPayload(result.row))
    else Throw(NewNotFoundError(Some("Tour not found")))
  }

  /** `updateTour` filling its patch field by field, in the order of the table. */
  method BuildTourPatch(updates: Record) returns (dbUpdates: Record)
    ensures dbUpdates == ToColumns(updates, TourPatchFields)
  {
    dbUpdates := map[];
    if "title" in updates { dbUpdates := dbUpdates["title" := updates["title"]]; }
    assert dbUpdates == ToColumnsUpTo(updates, TourPatchFields, 1);
    if "description" in updates { dbUpdates := dbUpdates["description" := updates["description"]]; }
    assert dbUpdates == ToColumnsUpTo(updates, TourPatchFields, 2);
    if "region" in updates { dbUpdates := dbUpdates["region" := updates["region"]]; }
    assert dbUpdates == ToColumnsUpTo(updates, TourPatchFields, 3);
    if "types" in updates { dbUpdates := dbUpdates["types" := updates["types"]]; }
    assert dbUpdates == ToColumnsUpTo(updates, TourPatchFields, 4);
    if "season" in updates { dbUpdates := dbUpdates["season" := updates["season"]]; }
    assert dbUpdates == ToColumnsUpTo(updates, TourPatchFields, 5);
    if "durationDays" in updates { dbUpdates := dbUpdates["duration_days" := updates["durationDays"]]; }
    assert dbUpdates == ToColumnsUpTo(updates, TourPatchFields, 6);
    if "durationNights" in updates { dbUpdates := dbUpdates["duration_nights" := updates["durationNights"]]; }
    assert dbUpdates == ToColumnsUpTo(updates, TourPatchFields, 7);
    if "photoUrl" in updates { dbUpdates := dbUpdates["photo_url" := updates["photoUrl"]]; }
    assert dbUpdates == ToColumnsUpTo(updates, TourPatchFields, 8);
    if "isCustom" in updates { dbUpdates := dbUpdates["is_custom" := updates["isCustom"]]; }
    assert dbUpdates == ToColumnsUpTo(updates, TourPatchFields, 9);
  }

  /** The patch holds exactly the defined input fields, renamed to columns with their values
      unchanged, and nothing else. */
  lemma TourPatchExact(updates: Record)
    ensures forall i :: 0 <= i < |TourPatchFields| && TourPatchFields[i].camel in updates ==>
      TourPatchFields[i].snake in ToColumns(updates, TourPatchFields) && ToColumns(updates, TourPatchFields)[TourPatchFields[i].snake] == updates[TourPatchFields[i].camel]
    ensures forall c :: c in ToColumns(updates, TourPatchFields) ==>
      exists i :: 0 <= i < |TourPatchFields| && TourPatchFields[i].snake == c && TourPatchFields[i].camel in updates
  {
    TourPatchFieldsDistinct();
    ToColumnsSpec(updates, TourPatchFields);
  }

  /** `updateTour` after its update: 'PGRST116' is a 404 'Tour not found'; any other error, or
      no row, is a 400 with the store's message, or 'Failed to update tour' when that message
      is empty or there is no error. */
  function UpdateTourOutcome(result: Single<Record>): (r: HandlerResult)
    ensures result.Failed? && result.err.code == NoRowCode ==> r == Throw(NewNotFoundError(Some("Tour not found")))
    ensures result.Failed? && result.err.code != NoRowCode && result.err.message != "" ==>
      r == Throw(NewValidationError(result.err.message))
    ensures result.Failed? && result.err.code != NoRowCode && result.err.message == "" ==>
      r == Throw(NewValidationError("Failed to update tour"))
    ensures result.Missing? ==> r == Throw(NewValidationError("Failed to update tour"))
    ensures result.Found? ==> r == Respond(200, TourPayload(result.row))
  {
    match result
    case Found(row) => Respond(200, TourPayload(row))
    case Missing => Throw(NewValidationError("Failed to update tour"))
    case Failed(err) =>
      if err.code == NoRowCode then Throw(NewNotFoundError(Some("Tour not found")))
      else Throw(NewValidationError(if err.message != "" then err.message else "Failed to update tour"))
  }

  /** `deleteTour`: 'PGRST116' is a 404, any other error a 500 with the store's raw message,
      and no error is success, whatever the number of rows deleted. */
  function DeleteTourOutcome(result: Deletion): (r: HandlerResult)
    ensures result.DeleteFailed? && result.err.code == NoRowCode ==> r == Throw(NewNotFoundError(Some("Tour not found")))
    ensures result.DeleteFailed? && result.err.code != NoRowCode ==> r == Throw(NewInternalError(Some(result.err.message)))
    ensures result.Deleted? ==> r == Respond(200, JObj(map["message" := JStr("Tour deleted successfully")]))
  {
    match result
    case DeleteFailed(err) =>
      if err.code == NoRowCode then Throw(NewNotFoundError(Some("Tour not found")))
      else Throw(NewInternalError(Some(err.message)))
    case Deleted(_) => Respond(200, JObj(map["message" := JStr("Tour deleted successfully")]))
  }

  /** Deleting an id that matches no tour still succeeds: the count is never read. */
  lemma DeleteIgnoresCount(c1: Option<int>, c2: Option<int>)
    ensures DeleteTourOutcome(Deleted(c1)) == DeleteTourOutcome(Deleted(c2))
    ensures DeleteTourOutcome(Deleted(Some(0))).Respond?
  {
  }
}
