/** The schemas of `src/validators/tour.itinerary.validator.ts`. */
module ItinerarySchemas {
  import opened Wrappers
  import opened Strings
  import opened Json
  import opened Http
  import opened Fields

  /** `createItineraryDaySchema`. */
  predicate CreateDay(fmt: Formats, req: Request)
    ensures CreateDay(fmt, req) ==>
              HasUuidId(fmt, req.params) && "dayNumber" in req.body && IsIntAtLeast(req.body["dayNumber"], 1)
  {
    var body := req.body;
    && HasUuidId(fmt, req.params)
    && "dayNumber" in body && IsIntAtLeast(body["dayNumber"], 1)
    && "description" in body && IsString(body["description"], 1, None)
    && "imageUrl" in body && IsUrl(fmt, body["imageUrl"])
  }

  /** `params.dayNumber`: `/^\d+$/`. */
  predicate DayParam(params: map<string, string>) {
    "dayNumber" in params && IsDigitString(params["dayNumber"])
  }

  const UpdateDayKeys: set<string> := {"description", "imageUrl"}

  /** `updateItineraryDaySchema`. */
  predicate UpdateDay(fmt: Formats, req: Request)
    ensures UpdateDay(fmt, req) ==> HasUuidId(fmt, req.params) && DayParam(req.params) && HasDeclaredKey(req.body, UpdateDayKeys)
  {
    var body := req.body;
    && HasUuidId(fmt, req.params)
    && DayParam(req.params)
    && ("description" !in body || IsString(body["description"], 1, None))
    && ("imageUrl" !in body || IsUrl(fmt, body["imageUrl"]))
    && HasDeclaredKey(body, UpdateDayKeys)
  }

  /** `deleteItineraryDaySchema`. */
  predicate DeleteDay(fmt: Formats, req: Request)
    ensures DeleteDay(fmt, req) ==> DayParam(req.params)
  {
    HasUuidId(fmt, req.params) && DayParam(req.params)
  }

  /** `getItinerarySchema`. */
  predicate GetItinerary(fmt: Formats, req: Request) {
    HasUuidId(fmt, req.params)
  }

  /** Day "0" passes the path check despite the message saying "positive". */
  lemma DayZeroAccepted(fmt: Formats, req: Request)
    requires HasUuidId(fmt, req.params) && req.params["dayNumber" := "0"] == req.params
    ensures DeleteDay(fmt, req)
  {
    assert req.params["dayNumber"] == "0";
  }

  /** An update body needs one of its two fields. */
  lemma UpdateNeedsAField(fmt: Formats, req: Request)
    requires "description" !in req.body && "imageUrl" !in req.body
    ensures !UpdateDay(fmt, req)
  {
  }
}
