/** The schemas of `src/validators/tour.validator.ts`, as predicates over the request parts a
    schema reads. */
module TourSchemas {
  import opened Wrappers
  import opened Strings
  import opened Json
  import opened Http
  import opened Fields

  const Regions: seq<string> := ["Ladakh", "Spiti", "Kashmir", "Himachal"]
  const Types: seq<string> := ["Cultural", "Photography", "Heritage", "Village", "Festival"]
  const Seasons: seq<string> := ["Summer", "Winter", "Monsoon", "Festival"]

  /** The message the `region` error map gives every `region` issue, missing value included. */
  const RegionMessage := "Region must be one of: " + Join(Regions, ", ")

  lemma RegionMessageText()
    ensures RegionMessage == "Region must be one of: Ladakh, Spiti, Kashmir, Himachal"
  {
  }

  /** The body of `createTourSchema`. `isCustom` is optional and defaults to false in the
      parsed output only. */
  predicate CreateTourBody(fmt: Formats, body: Record)
    ensures CreateTourBody(fmt, body) ==>
              {"title", "description", "region", "types", "season", "durationDays", "durationNights", "photoUrl"} <= body.Keys
  {
    && "title" in body && IsString(body["title"], 1, Some(200))
    && "description" in body && IsString(body["description"], 1, None)
    && "region" in body && IsEnum(body["region"], Regions)
    && "types" in body && IsEnumArray(body["types"], Types)
    && "season" in body && IsEnum(body["season"], Seasons)
    && "durationDays" in body && IsIntAtLeast(body["durationDays"], 1)
    && "durationNights" in body && IsIntAtLeast(body["durationNights"], 0)
    && "photoUrl" in body && IsUrl(fmt, body["photoUrl"]) && IsString(body["photoUrl"], 1, None)
    && ("isCustom" !in body || IsBool(body["isCustom"]))
  }

  /** The keys `updateTourSchema`'s body declares. */
  const UpdateTourKeys: set<string> :=
    {"title", "description", "region", "types", "season", "durationDays", "durationNights", "photoUrl", "isCustom"}

  /** `updateTourSchema`: every field optional with the create bounds, and at least one
      declared field present. */
  predicate UpdateTour(fmt: Formats, req: Request)
    ensures UpdateTour(fmt, req) ==> HasUuidId(fmt, req.params) && HasDeclaredKey(req.body, UpdateTourKeys)
  {
    var body := req.body;
    && HasUuidId(fmt, req.params)
    && ("title" !in body || IsString(body["title"], 1, Some(200)))
    && ("description" !in body || IsString(body["description"], 1, None))
    && ("region" !in body || IsEnum(body["region"], Regions))
    && ("types" !in body || IsEnumArray(body["types"], Types))
    && ("season" !in body || IsEnum(body["season"], Seasons))
    && ("durationDays" !in body || IsIntAtLeast(body["durationDays"], 1))
    && ("durationNights" !in body || IsIntAtLeast(body["durationNights"], 0))
    && ("photoUrl" !in body || (IsUrl(fmt, body["photoUrl"]) && IsString(body["photoUrl"], 1, None)))
    && ("isCustom" !in body || IsBool(body["isCustom"]))
    && HasDeclaredKey(body, UpdateTourKeys)
  }

  /** `deleteTourSchema` and `getTourSchema`: only `params.id`, a UUID. */
  predicate TourId(fmt: Formats, req: Request) {
    HasUuidId(fmt, req.params)
  }

  /** `getToursSchema`: the list query. `types` is any string. */
  predicate GetTours(q: map<string, string>)
    ensures GetTours(q) ==> OptionalDigits(q, "page") && OptionalDigits(q, "limit")
  {
    && OptionalMember(q, "region", Regions)
    && OptionalMember(q, "season", Seasons)
    && OptionalMember(q, "isCustom", ["true", "false"])
    && OptionalDigits(q, "page")
    && OptionalDigits(q, "limit")
  }

  /** A create body without `region` is refused. */
  lemma CreateNeedsRegion(fmt: Formats, body: Record)
    requires "region" !in body
    ensures !CreateTourBody(fmt, body)
  {
  }

  /** A body holding only keys the update schema does not declare fails the refinement
      (they are stripped before it runs), even though every field rule passes. */
  lemma UpdateRejectsUnknownOnly(fmt: Formats, req: Request)
    requires req.body.Keys * UpdateTourKeys == {}
    ensures !UpdateTour(fmt, req)
  {
  }

  /** The list query: "0" is a valid page, "-1" and "1.5" are not. */
  lemma PageShapes(q: map<string, string>)
    requires forall k :: k in q ==> k == "page"
    ensures GetTours(q["page" := "0"])
    ensures !GetTours(q["page" := "-1"])
    ensures !GetTours(q["page" := "1.5"])
  {
    assert !IsDigit("-1"[0]);
    assert !IsDigit("1.5"[1]);
  }

  /** The list query's enums: a known region passes, a lower-case one does not. */
  lemma QueryRegionIsEnum(q: map<string, string>)
    requires q == map["region" := "ladakh"]
    ensures !GetTours(q)
    ensures GetTours(map["region" := "Ladakh"])
  {
  }
}
