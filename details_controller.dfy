/** The decisions of `TourDetailsController` (`src/controllers/tour.details.controller.ts`)
    around its store calls, with the calls each handler makes, in order. */
module DetailsController {
  import opened Wrappers
  import opened Json
  import opened Errors
  import opened Http
  import opened Store

  /** The fifteen columns `mapDetailsRow` copies. */
  const DetailsRowFields: seq<Field> := [
    Field("id", "id"), Field("tourId", "tour_id"), Field("overview", "overview"),
    Field("highlights", "highlights"), Field("inclusions", "inclusions"), Field("exclusions", "exclusions"),
    Field("accommodationDescription", "accommodation_description"),
    Field("accommodationMediaUrl", "accommodation_media_url"),
    Field("featureDescription", "feature_description"), Field("featureMediaUrl", "feature_media_url"),
    Field("featureIsVideo", "feature_is_video"), Field("routeDescription", "route_description"),
    Field("routePhotoUrl", "route_photo_url"), Field("createdAt", "created_at"), Field("updatedAt", "updated_at")]

  /** The eleven fields `updateTourDetails` may patch, in the source's order. */
  const DetailsPatchFields: seq<Field> := [
    Field("overview", "overview"), Field("highlights", "highlights"),
    Field("inclusions", "inclusions"), Field("exclusions", "exclusions"),
    Field("accommodationDescription", "accommodation_description"),
    Field("accommodationMediaUrl", "accommodation_media_url"),
    Field("featureDescription", "feature_description"), Field("featureMediaUrl", "feature_media_url"),
    Field("featureIsVideo", "feature_is_video"), Field("routeDescription", "route_description"),
    Field("routePhotoUrl", "route_photo_url")]

  /** A store call a handler makes. */
  datatype Call = LookupTour | LookupDetails | FindExisting | InsertDetails(row: Record)

  lemma DetailsRowNamesDistinct()
    ensures DistinctNames(DetailsRowFields)
  {
    assert NamesDistinctFrom(DetailsRowFields, 14);
    assert NamesDistinctFrom(DetailsRowFields, 13);
    assert NamesDistinctFrom(DetailsRowFields, 12);
    assert NamesDistinctFrom(DetailsRowFields, 11);
    assert NamesDistinctFrom(DetailsRowFields, 10);
    assert NamesDistinctFrom(DetailsRowFields, 9);
    assert NamesDistinctFrom(DetailsRowFields, 8);
    assert NamesDistinctFrom(DetailsRowFields, 7);
    assert NamesDistinctFrom(DetailsRowFields, 6);
    assert NamesDistinctFrom(DetailsRowFields, 5);
    assert NamesDistinctFrom(DetailsRowFields, 4);
    assert NamesDistinctFrom(DetailsRowFields, 3);
    assert NamesDistinctFrom(DetailsRowFields, 2);
    assert NamesDistinctFrom(DetailsRowFields, 1);
    assert NamesDistinctFrom(DetailsRowFields, 0);
    NamesPairwise(DetailsRowFields, 0);
  }

  lemma DetailsPatchColumnsDistinct()
    ensures DistinctColumns(DetailsPatchFields)
  {
    assert ColumnsDistinctFrom(DetailsPatchFields, 0);
    ColumnsPairwise(DetailsPatchFields, 0);
  }

  /** `mapDetailsRow`. */
  function MapDetailsRow(row: Record): Json {
    JObj(FromColumns(row, DetailsRowFields))
  }

  /** `mapDetailsRow` copies each of the fifteen columns the row has to its API name with its
      value unchanged, and adds nothing else. */
  lemma MapDetailsRowCopies(row: Record)
    ensures MapDetailsRow(row).JObj?
    ensures forall i :: 0 <= i < |DetailsRowFields| && DetailsRowFields[i].snake in row ==>
      DetailsRowFields[i].camel in MapDetailsRow(row).fields && MapDetailsRow(row).fields[DetailsRowFields[i].camel] == row[DetailsRowFields[i].snake]
    ensures forall c :: c in MapDetailsRow(row).fields ==> exists i :: 0 <= i < |DetailsRowFields| && DetailsRowFields[i].camel == c
  {
    DetailsRowNamesDistinct();
    FromColumnsSpec(row, DetailsRowFields);
  }

  function DetailsPayload(row: Record): Json {
    JObj(map["tourDetails" := MapDetailsRow(row)])
  }

  /** `getTourDetails`: the parent tour first, then its details, with a distinct 404 for each. */
  function GetDetails(tour: Single<Record>, details: Single<Record>): (out: (HandlerResult, seq<Call>))
    ensures !tour.Found? ==> out == (Throw(NewNotFoundError(Some("Tour not found"))), [LookupTour])
    ensures tour.Found? && !details.Found? ==>
      out == (Throw(NewNotFoundError(Some("Tour details not found"))), [LookupTour, LookupDetails])
    ensures tour.Found? && details.Found? ==> out == (Respond(200, DetailsPayload(details.row)), [LookupTour, LookupDetails])
  {
    if !tour.Found? then (Throw(NewNotFoundError(Some("Tour not found"))), [LookupTour])
    else if !details.Found? then (Throw(NewNotFoundError(Some("Tour details not found"))), [LookupTour, LookupDetails])
    else (Respond(200, DetailsPayload(details.row)), [LookupTour, LookupDetails])
  }

  /** The six optional texts and URLs `createTourDetails` inserts as `body.field ?? null`. */
  const DetailsNullableFields: seq<Field> := [
    Field("accommodationDescription", "accommodation_description"),
    Field("accommodationMediaUrl", "accommodation_media_url"),
    Field("featureDescription", "feature_description"), Field("featureMediaUrl", "feature_media_url"),
    Field("routeDescription", "route_description"), Field("routePhotoUrl", "route_photo_url")]

  /** The four required fields `createTourDetails` inserts as given. */
  const DetailsRequiredKeys: seq<string> := ["overview", "highlights", "inclusions", "exclusions"]

  lemma DetailsNullableColumnsDistinct()
    ensures DistinctColumns(DetailsNullableFields)
  {
    assert ColumnsDistinctFrom(DetailsNullableFields, 0);
    ColumnsPairwise(DetailsNullableFields, 0);
  }

  /** The insert `createTourDetails` sends: the tour id, the four required fields as given
      (an absent one is not sent), each optional text or URL field or null (`?? null`), and
      `featureIsVideo ?? false`. */
  function DetailsInsert(id: string, body: Record): Record {
    var defaults := Defaulted(body, DetailsNullableFields, JNull)
      ["feature_is_video" := Coalesce(body, "featureIsVideo", JBool(false))]["tour_id" := JStr(id)];
    PutDefined(defaults, body, DetailsRequiredKeys)
  }

  /** The columns every details insert sends. */
  const DetailsDefaultColumns: set<string> := {"tour_id", "feature_is_video", "accommodation_description",
    "accommodation_media_url", "feature_description", "feature_media_url", "route_description", "route_photo_url"}

  lemma NullableColumnsSent(body: Record)
    ensures Defaulted(body, DetailsNullableFields, JNull).Keys
      == {"accommodation_description", "accommodation_media_url", "feature_description", "feature_media_url",
          "route_description", "route_photo_url"}
  {
    DetailsNullableColumnsDistinct();
    DefaultedSpec(body, DetailsNullableFields, JNull);
    var nullable := Defaulted(body, DetailsNullableFields, JNull);
    forall c | c in nullable
      ensures c in {"accommodation_description", "accommodation_media_url",
        "feature_description", "feature_media_url", "route_description", "route_photo_url"}
    {
      var i :| 0 <= i < |DetailsNullableFields| && DetailsNullableFields[i].snake == c;
    }
    assert DetailsNullableFields[0].snake in nullable && DetailsNullableFields[1].snake in nullable
      && DetailsNullableFields[2].snake in nullable && DetailsNullableFields[3].snake in nullable
      && DetailsNullableFields[4].snake in nullable && DetailsNullableFields[5].snake in nullable;
  }

  /** The insert holds exactly the path's tour id, `feature_is_video`, the six nullable
      columns, and the required fields the body has. */
  lemma DetailsInsertShape(id: string, body: Record)
    ensures DetailsInsert(id, body).Keys
      == DetailsDefaultColumns + (body.Keys * {"overview", "highlights", "inclusions", "exclusions"})
  {
    NullableColumnsSent(body);
    var defaults := Defaulted(body, DetailsNullableFields, JNull)
      ["feature_is_video" := Coalesce(body, "featureIsVideo", JBool(false))]["tour_id" := JStr(id)];
    assert defaults.Keys == DetailsDefaultColumns;
    PutDefinedSpec(defaults, body, DetailsRequiredKeys);
    var r := DetailsInsert(id, body);
    forall c
      ensures c in r <==> c in DetailsDefaultColumns || (c in body && c in DetailsRequiredKeys)
    {
    }
  }

  /** The tour id comes from the path; each required field the body has is inserted as given;
      each nullable field is inserted as given when non-null and as null otherwise, and
      `feature_is_video` as given when non-null and as false otherwise. */
  lemma DetailsInsertDefaults(id: string, body: Record)
    ensures "tour_id" in DetailsInsert(id, body) && DetailsInsert(id, body)["tour_id"] == JStr(id)
    ensures forall k :: k in DetailsRequiredKeys && k in body ==>
      k in DetailsInsert(id, body) && DetailsInsert(id, body)[k] == body[k]
    ensures forall i :: 0 <= i < |DetailsNullableFields| ==>
      DetailsNullableFields[i].snake in DetailsInsert(id, body)
      && DetailsInsert(id, body)[DetailsNullableFields[i].snake] == Coalesce(body, DetailsNullableFields[i].camel, JNull)
    ensures "feature_is_video" in DetailsInsert(id, body)
      && DetailsInsert(id, body)["feature_is_video"] == Coalesce(body, "featureIsVideo", JBool(false))
  {
    DetailsNullableColumnsDistinct();
    var nullable := Defaulted(body, DetailsNullableFields, JNull);
    DefaultedSpec(body, DetailsNullableFields, JNull);
    var defaults := nullable["feature_is_video" := Coalesce(body, "featureIsVideo", JBool(false))]["tour_id" := JStr(id)];
    PutDefinedSpec(defaults, body, DetailsRequiredKeys);
    forall i | 0 <= i < |DetailsNullableFields|
      ensures DetailsNullableFields[i].snake !in DetailsRequiredKeys
      ensures DetailsNullableFields[i].snake != "feature_is_video" && DetailsNullableFields[i].snake != "tour_id"
    {
    }
  }

  /** `createTourDetails`: the tour must exist, then no details record may exist yet, and only
      then is the record inserted. An error on the duplicate check is not read: only a row
      found stops the insert. */
  function CreateDetails(id: string, body: Record, tour: Single<Record>, existing: Single<Record>, insert: Single<Record>)
    : (out: (HandlerResult, seq<Call>))
    ensures !tour.Found? ==> out == (Throw(NewNotFoundError(Some("Tour not found"))), [LookupTour])
    ensures tour.Found? && existing.Found? ==>
      out == (Throw(NewConflictError("Tour details already exist. Use PUT to update them.")), [LookupTour, FindExisting])
    ensures tour.Found? && !existing.Found? ==> out.1 == [LookupTour, FindExisting, InsertDetails(DetailsInsert(id, body))]
    ensures tour.Found? && !existing.Found? && insert.Failed? ==> out.0 == Throw(NewValidationError(insert.err.message))
    ensures tour.Found? && !existing.Found? && insert.Missing? ==> out.0 == Throw(NewInternalError(Some("Failed to create tour details")))
    ensures tour.Found? && !existing.Found? && insert.Found? ==> out.0 == Respond(201, DetailsPayload(insert.row))
  {
    if !tour.Found? then (Throw(NewNotFoundError(Some("Tour not found"))), [LookupTour])
    else if existing.Found? then
      (Throw(NewConflictError("Tour details already exist. Use PUT to update them.")), [LookupTour, FindExisting])
    else
      var r := match insert
        case Failed(err) => Throw(NewValidationError(err.message))
        case Missing => Throw(NewInternalError(Some("Failed to create tour details")))
        case Found(row) => Respond(201, DetailsPayload(row));
      (r, [LookupTour, FindExisting, InsertDetails(DetailsInsert(id, body))])
  }

  /** The checks run in order: a missing tour is reported even when details exist, and a
      failed duplicate check behaves like finding none. */
  lemma CreateOrdering(id: string, body: Record, row: Record, e: StoreError, insert: Single<Record>)
    ensures CreateDetails(id, body, Missing, Found(row), insert).0 == Throw(NewNotFoundError(Some("Tour not found")))
    ensures CreateDetails(id, body, Found(row), Failed(e), insert) == CreateDetails(id, body, Found(row), Missing, insert)
  {
  }

  /** `updateTourDetails` filling its patch field by field, in the order of the table. */
  method BuildDetailsPatch(body: Record) returns (dbPatch: Record)
    ensures dbPatch == ToColumns(body, DetailsPatchFields)
  {
    dbPatch := map[];
    dbPatch := CopyIfDefined(dbPatch, body, DetailsPatchFields, 0);
    dbPatch := CopyIfDefined(dbPatch, body, DetailsPatchFields, 1);
    dbPatch := CopyIfDefined(dbPatch, body, DetailsPatchFields, 2);
    dbPatch := CopyIfDefined(dbPatch, body, DetailsPatchFields, 3);
    dbPatch := CopyIfDefined(dbPatch, body, DetailsPatchFields, 4);
    dbPatch := CopyIfDefined(dbPatch, body, DetailsPatchFields, 5);
    dbPatch := CopyIfDefined(dbPatch, body, DetailsPatchFields, 6);
    dbPatch := CopyIfDefined(dbPatch, body, DetailsPatchFields, 7);
    dbPatch := CopyIfDefined(dbPatch, body, DetailsPatchFields, 8);
    dbPatch := CopyIfDefined(dbPatch, body, DetailsPatchFields, 9);
    dbPatch := CopyIfDefined(dbPatch, body, DetailsPatchFields, 10);
  }

  /** The patch holds exactly the fields the body defines, null values included (a null
      clears the column), renamed to columns, and nothing else. */
  lemma DetailsPatchExact(body: Record)
    ensures forall i :: 0 <= i < |DetailsPatchFields| && DetailsPatchFields[i].camel in body ==>
      DetailsPatchFields[i].snake in ToColumns(body, DetailsPatchFields) && ToColumns(body, DetailsPatchFields)[DetailsPatchFields[i].snake] == body[DetailsPatchFields[i].camel]
    ensures forall c :: c in ToColumns(body, DetailsPatchFields) ==>
      exists i :: 0 <= i < |DetailsPatchFields| && DetailsPatchFields[i].snake == c && DetailsPatchFields[i].camel in body
  {
    DetailsPatchColumnsDistinct();
    ToColumnsSpec(body, DetailsPatchFields);
  }

  /** `updateTourDetails` after its update: 'PGRST116' is a 404 that points to POST; any other
      error is a 400 with the store's message (kept even when empty); no row is a 400. */
  function UpdateDetailsOutcome(result: Single<Record>): (r: HandlerResult)
    ensures result.Failed? && result.err.code == NoRowCode ==>
      r == Throw(NewNotFoundError(Some("Tour details not found. Create them first with POST.")))
    ensures result.Failed? && result.err.code != NoRowCode ==> r == Throw(NewValidationError(result.err.message))
    ensures result.Missing? ==> r == Throw(NewValidationError("Failed to update tour details"))
    ensures result.Found? ==> r == Respond(200, DetailsPayload(result.row))
  {
    match result
    case Found(row) => Respond(200, DetailsPayload(row))
    case Missing => Throw(NewValidationError("Failed to update tour details"))
    case Failed(err) =>
      if err.code == NoRowCode then Throw(NewNotFoundError(Some("Tour details not found. Create them first with POST.")))
      else Throw(NewValidationError(err.message))
  }
}
