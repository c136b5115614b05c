/** The schemas of `src/validators/tour.details.validator.ts`. */
module DetailsSchemas {
  import opened Wrappers
  import opened Json
  import opened Http
  import opened Fields

  /** `z.string().min(1).optional().nullable()`. */
  predicate OptionalText(body: Record, key: string) {
    key !in body || body[key] == JNull || IsString(body[key], 1, None)
  }

  /** `z.string().url().optional().nullable()`. */
  predicate OptionalUrl(fmt: Formats, body: Record, key: string) {
    key !in body || body[key] == JNull || IsUrl(fmt, body[key])
  }

  /** The optional fields shared by create and update, with their create/update rules. */
  predicate OptionalMedia(fmt: Formats, body: Record) {
    && OptionalText(body, "accommodationDescription")
    && OptionalUrl(fmt, body, "accommodationMediaUrl")
    && OptionalText(body, "featureDescription")
    && OptionalUrl(fmt, body, "featureMediaUrl")
    && ("featureIsVideo" !in body || IsBool(body["featureIsVideo"]))
    && OptionalText(body, "routeDescription")
    && OptionalUrl(fmt, body, "routePhotoUrl")
  }

  /** `createTourDetailsSchema`. `featureIsVideo` defaults to false in the parsed output only. */
  predicate CreateDetails(fmt: Formats, req: Request)
    ensures CreateDetails(fmt, req) ==>
              HasUuidId(fmt, req.params) && {"overview", "highlights", "inclusions", "exclusions"} <= req.body.Keys
  {
    var body := req.body;
    && HasUuidId(fmt, req.params)
    && "overview" in body && IsString(body["overview"], 1, None)
    && "highlights" in body && IsNonEmptyStringArray(body["highlights"])
    && "inclusions" in body && IsNonEmptyStringArray(body["inclusions"])
    && "exclusions" in body && IsNonEmptyStringArray(body["exclusions"])
    && OptionalMedia(fmt, body)
  }

  const UpdateDetailsKeys: set<string> :=
    {"overview", "highlights", "inclusions", "exclusions", "accommodationDescription", "accommodationMediaUrl",
     "featureDescription", "featureMediaUrl", "featureIsVideo", "routeDescription", "routePhotoUrl"}

  /** `updateTourDetailsSchema`: every field optional with the same rules; at least one
      declared key present, where a key present with `null` counts. */
  predicate UpdateDetails(fmt: Formats, req: Request)
    ensures UpdateDetails(fmt, req) ==> HasUuidId(fmt, req.params) && HasDeclaredKey(req.body, UpdateDetailsKeys)
  {
    var body := req.body;
    && HasUuidId(fmt, req.params)
    && ("overview" !in body || IsString(body["overview"], 1, None))
    && ("highlights" !in body || IsNonEmptyStringArray(body["highlights"]))
    && ("inclusions" !in body || IsNonEmptyStringArray(body["inclusions"]))
    && ("exclusions" !in body || IsNonEmptyStringArray(body["exclusions"]))
    && OptionalMedia(fmt, body)
    && HasDeclaredKey(body, UpdateDetailsKeys)
  }

  /** `getTourDetailsSchema`. */
  predicate GetDetails(fmt: Formats, req: Request) {
    HasUuidId(fmt, req.params)
  }

  /** An array with an empty string in it is refused, even next to valid entries. */
  lemma EmptyHighlightRefused(fmt: Formats, req: Request)
    requires "highlights" in req.body && req.body["highlights"] == JArr([JStr("Lake"), JStr("")])
    ensures !CreateDetails(fmt, req)
  {
    assert !IsString(req.body["highlights"].items[1], 1, None);
  }

  /** For update, a body whose one field is `null` satisfies the refinement. */
  lemma NullCountsAsProvided(fmt: Formats, req: Request)
    requires HasUuidId(fmt, req.params) && req.body == map["routePhotoUrl" := JNull]
    ensures UpdateDetails(fmt, req)
  {
    assert "routePhotoUrl" in req.body.Keys * UpdateDetailsKeys;
  }

  /** `featureIsVideo` is not nullable: `null` is refused. */
  lemma FeatureIsVideoNotNullable(fmt: Formats, req: Request)
    requires "featureIsVideo" in req.body && req.body["featureIsVideo"] == JNull
    ensures !UpdateDetails(fmt, req) && !CreateDetails(fmt, req)
  {
  }
}
