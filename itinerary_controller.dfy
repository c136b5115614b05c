/** The decisions of `TourItineraryController` (`src/controllers/tour.itinerary.controller.ts`)
    around its store calls. The handlers that make two calls also report which calls they
    made, in order. */
module ItineraryController {
  import opened Wrappers
  import opened Strings
  import opened Json
  import opened Errors
  import opened Http
  import opened Store
  import opened Fields

  /** The seven columns `mapItineraryRow` copies. */
  const DayRowFields: seq<Field> := [
    Field("id", "id"), Field("tourId", "tour_id"), Field("dayNumber", "day_number"),
    Field("description", "description"), Field("imageUrl", "image_url"),
    Field("createdAt", "created_at"), Field("updatedAt", "updated_at")]

  /** The fields `addItineraryDay` inserts from the body. */
  const DayInsertFields: seq<Field> := [
    Field("dayNumber", "day_number"), Field("description", "description"), Field("imageUrl", "image_url")]

  /** The two fields `updateItineraryDay` may patch. */
  const DayPatchFields: seq<Field> := [Field("description", "description"), Field("imageUrl", "image_url")]

  /** A store call a handler makes; an insert carries the row it sends. */
  datatype Call = LookupTour | ListDays | InsertDay(row: Record)

  lemma DayRowNamesDistinct()
    ensures DistinctNames(DayRowFields)
  {
    assert NamesDistinctFrom(DayRowFields, 0);
    NamesPairwise(DayRowFields, 0);
  }

  /** `mapItineraryRow`. */
  function MapDayRow(row: Record): Json {
    JObj(FromColumns(row, DayRowFields))
  }

  /** `mapItineraryRow` copies each of the seven columns the row has to its API name with its
      value unchanged, and adds nothing else. */
  lemma MapDayRowCopies(row: Record)
    ensures MapDayRow(row).JObj?
    ensures forall i :: 0 <= i < |DayRowFields| && DayRowFields[i].snake in row ==>
      DayRowFields[i].camel in MapDayRow(row).fields && MapDayRow(row).fields[DayRowFields[i].camel] == row[DayRowFields[i].snake]
    ensures forall c :: c in MapDayRow(row).fields ==> exists i :: 0 <= i < |DayRowFields| && DayRowFields[i].camel == c
  {
    DayRowNamesDistinct();
    FromColumnsSpec(row, DayRowFields);
  }

  /** `getItinerary`: the parent tour first, then its days. An error or no row on the tour is a
      404 'Tour not found' and the days are never read; an error on the days is a 500. */
  function GetItinerary(tour: Single<Record>, days: Listing): (out: (HandlerResult, seq<Call>))
    ensures !tour.Found? ==> out == (Throw(NewNotFoundError(Some("Tour not found"))), [LookupTour])
    ensures tour.Found? ==> out.1 == [LookupTour, ListDays]
    ensures tour.Found? && days.ListFailed? ==> out.0 == Throw(NewInternalError(Some("Failed to fetch itinerary")))
    ensures tour.Found? && days.Listed? ==> out.0.Respond? && out.0.status == 200 && out.0.data.JObj?
    ensures tour.Found? && days.Listed? ==> out.0.data.fields.Keys == {"itinerary"} && out.0.data.fields["itinerary"].JArr?
    ensures tour.Found? && days.Listed? ==> |out.0.data.fields["itinerary"].items| == |days.rows.GetOr([])|
    ensures tour.Found? && days.Listed? ==> forall i :: 0 <= i < |days.rows.GetOr([])| ==>
      out.0.data.fields["itinerary"].items[i] == MapDayRow(days.rows.GetOr([])[i])
  {
    if !tour.Found? then (Throw(NewNotFoundError(Some("Tour not found"))), [LookupTour])
    else
      match days
      case ListFailed(_) => (Throw(NewInternalError(Some("Failed to fetch itinerary"))), [LookupTour, ListDays])
      case Listed(rows, _) =>
        var all := rows.GetOr([]);
        (Respond(200, JObj(map["itinerary" := JArr(seq(|all|, i requires 0 <= i < |all| => MapDayRow(all[i])))])),
         [LookupTour, ListDays])
  }

  /** The day number a validated add-day body carries. */
  function DayNumber(body: Record): int
    requires "dayNumber" in body && IsIntAtLeast(body["dayNumber"], 1)
  {
    body["dayNumber"].n.Floor
  }

  function ExceedsMessage(day: int, durationDays: int): string {
    "Day number " + IntToString(day) + (" exceeds the tour duration of " + IntToString(durationDays) + " days")
  }

  function DuplicateMessage(day: int): string {
    "Day " + IntToString(day) + " already exists. Use PUT to update it."
  }

  lemma DayInsertColumnsDistinct()
    ensures DistinctColumns(DayInsertFields)
  {
    assert ColumnsDistinctFrom(DayInsertFields, 0);
    ColumnsPairwise(DayInsertFields, 0);
  }

  /** The insert `addItineraryDay` sends: the path's tour id and the three body fields. */
  function DayInsert(id: string, body: Record): Record {
    ToColumns(body, DayInsertFields)["tour_id" := JStr(id)]
  }

  /** The inserted row holds the path's tour id, and each of `day_number`, `description` and
      `image_url` exactly when the body has the field, with its value unchanged; nothing else. */
  lemma DayInsertExact(id: string, body: Record)
    ensures DayInsert(id, body).Keys <= {"tour_id", "day_number", "description", "image_url"}
    ensures "tour_id" in DayInsert(id, body) && DayInsert(id, body)["tour_id"] == JStr(id)
    ensures ("day_number" in DayInsert(id, body) <==> "dayNumber" in body)
      && ("dayNumber" in body ==> DayInsert(id, body)["day_number"] == body["dayNumber"])
    ensures ("description" in DayInsert(id, body) <==> "description" in body)
      && ("description" in body ==> DayInsert(id, body)["description"] == body["description"])
    ensures ("image_url" in DayInsert(id, body) <==> "imageUrl" in body)
      && ("imageUrl" in body ==> DayInsert(id, body)["image_url"] == body["imageUrl"])
  {
    DayInsertColumnsDistinct();
    ToColumnsSpec(body, DayInsertFields);
    var cols := ToColumns(body, DayInsertFields);
    assert DayInsertFields[0].snake == "day_number" && DayInsertFields[1].snake == "description"
      && DayInsertFields[2].snake == "image_url";
    forall c | c in cols
      ensures c in {"day_number", "description", "image_url"}
    {
      var i :| 0 <= i < |DayInsertFields| && DayInsertFields[i].snake == c && DayInsertFields[i].camel in body;
    }
  }

  /** `addItineraryDay`, given the parent tour's `duration_days` as the lookup's answer and
      the insert's answer: the tour must exist, then the day must not exceed its duration,
      and only then is the day inserted; a duplicate day is a 409. */
  function AddDay(id: string, body: Record, tour: Single<int>, insert: Single<Record>): (out: (HandlerResult, seq<Call>))
    requires "dayNumber" in body && IsIntAtLeast(body["dayNumber"], 1)
    ensures !tour.Found? ==> out == (Throw(NewNotFoundError(Some("Tour not found"))), [LookupTour])
    ensures tour.Found? && DayNumber(body) > tour.row ==>
      out == (Throw(NewValidationError(ExceedsMessage(DayNumber(body), tour.row))), [LookupTour])
    ensures tour.Found? && DayNumber(body) <= tour.row ==> out.1 == [LookupTour, InsertDay(DayInsert(id, body))]
    ensures tour.Found? && DayNumber(body) <= tour.row && insert.Failed? ==>
      out.0 == Throw(if insert.err.code == UniqueViolationCode then NewConflictError(DuplicateMessage(DayNumber(body)))
                     else NewValidationError(insert.err.message))
    ensures tour.Found? && DayNumber(body) <= tour.row && insert.Missing? ==>
      out.0 == Throw(NewInternalError(Some("Failed to add itinerary day")))
    ensures tour.Found? && DayNumber(body) <= tour.row && insert.Found? ==>
      out.0 == Respond(201, JObj(map["day" := MapDayRow(insert.row)]))
  {
    if !tour.Found? then (Throw(NewNotFoundError(Some("Tour not found"))), [LookupTour])
    else if DayNumber(body) > tour.row then
      (Throw(NewValidationError(ExceedsMessage(DayNumber(body), tour.row))), [LookupTour])
    else
      var r := match insert
        case Failed(err) =>
          if err.code == UniqueViolationCode then Throw(NewConflictError(DuplicateMessage(DayNumber(body))))
          else Throw(NewValidationError(err.message))
        case Missing => Throw(NewInternalError(Some("Failed to add itinerary day")))
        case Found(row) => Respond(201, JObj(map["day" := MapDayRow(row)]));
      (r, [LookupTour, InsertDay(DayInsert(id, body))])
  }

  /** The bound is inclusive: a day equal to the tour's duration is inserted, one past it is
      refused with the message naming both numbers, and a missing tour is reported before the
      bound is looked at. */
  lemma DayBound(id: string, insert: Single<Record>, durationDays: nat)
    ensures AddDay(id, map["dayNumber" := Int(durationDays + 1)], Found(durationDays), insert).0
            == Throw(NewValidationError(ExceedsMessage(durationDays + 1, durationDays)))
    ensures durationDays >= 1 ==>
      AddDay(id, map["dayNumber" := Int(durationDays)], Found(durationDays), insert).1
      == [LookupTour, InsertDay(DayInsert(id, map["dayNumber" := Int(durationDays)]))]
    ensures AddDay(id, map["dayNumber" := Int(durationDays + 1)], Missing, insert).0 == Throw(NewNotFoundError(Some("Tour not found")))
  {
  }

  /** The refusal names both the requested day and the tour's duration, in that order. */
  lemma ExceedsMessageNamesBoth(day: int, durationDays: int)
    ensures StartsWith(ExceedsMessage(day, durationDays), "Day number " + IntToString(day))
    ensures Includes(ExceedsMessage(day, durationDays), IntToString(day))
    ensures Includes(ExceedsMessage(day, durationDays), " exceeds the tour duration of " + IntToString(durationDays) + " days")
  {
    PartsIncluded("Day number ", IntToString(day), " exceeds the tour duration of " + IntToString(durationDays) + " days");
  }

  /** The message text for a second day 3. */
  lemma DuplicateMessageText()
    ensures DuplicateMessage(3) == "Day 3 already exists. Use PUT to update it."
  {
    assert IntToString(3) == "3";
  }

  /** `dayNum = parseInt(dayNumber, 10)` for a path parameter the schema checked. */
  function DayNum(params: map<string, string>): nat
    requires "dayNumber" in params && IsDigitString(params["dayNumber"])
  {
    DecimalValue(params["dayNumber"])
  }

  /** `updateItineraryDay` filling its patch. */
  method BuildDayPatch(body: Record) returns (dbPatch: Record)
    ensures dbPatch == ToColumns(body, DayPatchFields)
  {
    dbPatch := map[];
    if "description" in body { dbPatch := dbPatch["description" := body["description"]]; }
    assert dbPatch == ToColumnsUpTo(body, DayPatchFields, 1);
    if "imageUrl" in body { dbPatch := dbPatch["image_url" := body["imageUrl"]]; }
    assert dbPatch == ToColumnsUpTo(body, DayPatchFields, 2);
  }

  /** The day patch holds `description` and `image_url` exactly when the body defines them,
      with their values, and nothing else. */
  lemma DayPatchExact(body: Record)
    ensures ("description" in ToColumns(body, DayPatchFields)) == ("description" in body)
    ensures ("image_url" in ToColumns(body, DayPatchFields)) == ("imageUrl" in body)
    ensures "description" in body ==> ToColumns(body, DayPatchFields)["description"] == body["description"]
    ensures "imageUrl" in body ==> ToColumns(body, DayPatchFields)["image_url"] == body["imageUrl"]
    ensures ToColumns(body, DayPatchFields).Keys <= {"description", "image_url"}
  {
    assert ToColumns(body, DayPatchFields) == ToColumnsUpTo(body, DayPatchFields, 2);
  }

  function DayNotFoundMessage(day: int): string {
    "Itinerary day " + IntToString(day) + " not found"
  }

  /** `updateItineraryDay` after its update: 'PGRST116' is a 404 naming the day; any other error
      is a 400 with the store's message (kept even when empty); no row is a 400. */
  function UpdateDayOutcome(dayNum: nat, result: Single<Record>): (r: HandlerResult)
    ensures result.Failed? && result.err.code == NoRowCode ==> r == Throw(NewNotFoundError(Some(DayNotFoundMessage(dayNum))))
    ensures result.Failed? && result.err.code != NoRowCode ==> r == Throw(NewValidationError(result.err.message))
    ensures result.Missing? ==> r == Throw(NewValidationError("Failed to update itinerary day"))
    ensures result.Found? ==> r == Respond(200, JObj(map["day" := MapDayRow(result.row)]))
  {
    match result
    case Found(row) => Respond(200, JObj(map["day" := MapDayRow(row)]))
    case Missing => Throw(NewValidationError("Failed to update itinerary day"))
    case Failed(err) =>
      if err.code == NoRowCode then Throw(NewNotFoundError(Some(DayNotFoundMessage(dayNum))))
      else Throw(NewValidationError(err.message))
  }

  /** `deleteItineraryDay`: an error is a 500 with the raw message; a count missing or 0 is a
      404 naming the day; any other count is success naming the day. */
  function DeleteDayOutcome(dayNum: nat, result: Deletion): (r: HandlerResult)
    ensures result.DeleteFailed? ==> r == Throw(NewInternalError(Some(result.err.message)))
    ensures result.Deleted? && result.count in {None, Some(0)} ==> r == Throw(NewNotFoundError(Some(DayNotFoundMessage(dayNum))))
    ensures result.Deleted? && result.count !in {None, Some(0)} ==>
      r == Respond(200, JObj(map["message" := JStr("Day " + NatToString(dayNum) + " deleted successfully")]))
  {
    match result
    case DeleteFailed(err) => Throw(NewInternalError(Some(err.message)))
    case Deleted(count) =>
      if count == None || count == Some(0) then Throw(NewNotFoundError(Some(DayNotFoundMessage(dayNum))))
      else Respond(200, JObj(map["message" := JStr("Day " + NatToString(dayNum) + " deleted successfully")]))
  }

  /** The path's day number is read in decimal, so '007' names day 7 in the messages. */
  lemma DayNumIsDecimal()
    ensures DayNum(map["dayNumber" := "007"]) == 7
    ensures DayNotFoundMessage(DayNum(map["dayNumber" := "007"])) == "Itinerary day 7 not found"
  {
    assert "007"[..2] == "00" && "00"[..1] == "0" && "0"[..0] == "";
    assert NatToString(7) == "7";
  }
}
