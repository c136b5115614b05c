/** The route pipelines of `src/routes/v1/auth.routes.ts`, `tour.routes.ts` and
    `blog.routes.ts`: each route is a fixed list of stages that Express runs in order. A gate
    stage either calls `next()` and the next stage runs, or calls `next(error)` and the error
    handler answers at once; the route handler ends the chain with a reply of its own or with
    an error for the error handler. The collaborators a run depends on (Zod's issue list, the
    auth schemas, the identity provider and the handlers' own work) come in as a `World`. */
module Pipeline {
  import opened Wrappers
  import opened Strings
  import opened Json
  import opened Errors
  import opened Http
  import opened Responses
  import opened ErrorHandler
  import opened Fields
  import Validator
  import AdminGate
  import AuthGate
  import App
  import TourSchemas
  import DetailsSchemas
  import ItinerarySchemas
  import BlogSchemas

  /** The Zod schemas the routes validate against. */
  datatype Schema =
    | SignUpSchema | SignInSchema | GoogleAuthSchema | RefreshTokenSchema
    | ResetPasswordRequestSchema | ResetPasswordSchema
    | GetToursSchema | GetTourSchema | CreateTourSchema | UpdateTourSchema | DeleteTourSchema
    | GetTourDetailsSchema | CreateTourDetailsSchema | UpdateTourDetailsSchema
    | GetItinerarySchema | CreateItineraryDaySchema | UpdateItineraryDaySchema | DeleteItineraryDaySchema
    | GetBlogsSchema | BlogIdParamSchema | CreateBlogSchema | UpdateBlogSchema

  /** The schemas of `src/validators/auth.validator.ts`, which this model treats as given. */
  predicate IsAuthSchema(s: Schema) {
    s.SignUpSchema? || s.SignInSchema? || s.GoogleAuthSchema? || s.RefreshTokenSchema?
    || s.ResetPasswordRequestSchema? || s.ResetPasswordSchema?
  }

  /** The controller actions the routes end in. */
  datatype Handler =
    | SignUp | SignIn | GoogleAuth | GetGoogleAuthUrl | RefreshToken
    | RequestPasswordReset | ResetPassword | SignOut | GetCurrentUser
    | GetTours | GetTour | CreateTour | UpdateTour | DeleteTour
    | GetTourDetails | CreateTourDetails | UpdateTourDetails
    | GetItinerary | AddItineraryDay | UpdateItineraryDay | DeleteItineraryDay
    | GetBlogs | GetBlog | CreateBlog | UpdateBlog | DeleteBlog

  /** One registered middleware or handler. */
  datatype Stage = RequireAdmin | Validate(schema: Schema) | Authenticate | Handle(handler: Handler)

  datatype Method = GET | POST | PUT | DELETE

  /** `router.<method>(path, ...stages)`; `path` is the pattern as registered. */
  datatype Route = Route(verb: Method, path: string, stages: seq<Stage>)

  /** What a run depends on beyond the request: the URL and UUID checks, whether an auth
      schema accepts, the issues Zod reports when a schema rejects, the provider's answer to
      a token, and the outcome of each handler on the request it is given. */
  datatype World = World(
    fmt: Formats,
    authAccepts: (Schema, Request) -> bool,
    issues: (Schema, Request) -> seq<Validator.Issue>,
    verify: string -> AuthGate.Verification,
    handle: (Handler, Request) -> HandlerResult)

  /** `NODE_ENV` and `ADMIN_SECRET_KEY`. */
  datatype Config = Config(nodeEnv: string, adminSecret: string)

  /** Whether `schema` accepts `{body, query, params}` of the request. */
  predicate Accepts(schema: Schema, w: World, req: Request) {
    match schema
    case GetToursSchema => TourSchemas.GetTours(req.query)
    case GetTourSchema => TourSchemas.TourId(w.fmt, req)
    case CreateTourSchema => TourSchemas.CreateTourBody(w.fmt, req.body)
    case UpdateTourSchema => TourSchemas.UpdateTour(w.fmt, req)
    case DeleteTourSchema => TourSchemas.TourId(w.fmt, req)
    case GetTourDetailsSchema => DetailsSchemas.GetDetails(w.fmt, req)
    case CreateTourDetailsSchema => DetailsSchemas.CreateDetails(w.fmt, req)
    case UpdateTourDetailsSchema => DetailsSchemas.UpdateDetails(w.fmt, req)
    case GetItinerarySchema => ItinerarySchemas.GetItinerary(w.fmt, req)
    case CreateItineraryDaySchema => ItinerarySchemas.CreateDay(w.fmt, req)
    case UpdateItineraryDaySchema => ItinerarySchemas.UpdateDay(w.fmt, req)
    case DeleteItineraryDaySchema => ItinerarySchemas.DeleteDay(w.fmt, req)
    case GetBlogsSchema => BlogSchemas.GetBlogs(req.query)
    case BlogIdParamSchema => BlogSchemas.BlogId(w.fmt, req)
    case CreateBlogSchema => BlogSchemas.CreateBlog(w.fmt, req)
    case UpdateBlogSchema => BlogSchemas.UpdateBlog(w.fmt, req)
    case _ => w.authAccepts(schema, req)
  }

  /** What `schema.parseAsync` does with the request: resolve, or reject with Zod's issues. */
  function Parse(schema: Schema, w: World, req: Request): (o: Validator.ParseOutcome)
    ensures o.Parsed? <==> Accepts(schema, w, req)
    ensures o.ZodFailed? ==> o.issues == w.issues(schema, req)
  {
    if Accepts(schema, w, req) then Validator.Parsed(req) else Validator.ZodFailed(w.issues(schema, req))
  }

  /** The reply to a handler's outcome: `sendSuccess(res, data, status)` or the error handler. */
  function Finish(outcome: HandlerResult, cfg: Config, timestamp: string): (r: Reply)
    ensures outcome.Respond? ==> r == SendSuccess(outcome.data, Some(outcome.status), None, timestamp)
    ensures outcome.Raise? ==> r == HandleError(outcome.error, cfg.nodeEnv, timestamp)
    ensures Exclusive(r.body) && StampedAt(r.body, timestamp)
    ensures r.body.success <==> outcome.Respond?
  {
    match outcome
    case Respond(status, data) => SendSuccess(data, Some(status), None, timestamp)
    case Raise(e) => HandleError(e, cfg.nodeEnv, timestamp)
  }

  /** How one stage ends: `next()` with the request the next stage sees, or a reply. */
  datatype Step = Next(req: Request) | Stop(reply: Reply)

  /** One stage on `req`. A gate that fails hands its error to the error handler; the bearer
      gate attaches the principal; a handler always ends the chain. */
  function StepOf(stage: Stage, req: Request, cfg: Config, w: World, timestamp: string): (s: Step)
    ensures stage.Handle? ==> s == Stop(Finish(w.handle(stage.handler, req), cfg, timestamp))
    ensures stage.RequireAdmin? ==>
              s == (match AdminGate.RequireAdmin(req.headers, cfg.adminSecret)
                    case Proceed => Next(req)
                    case Fail(e) => Stop(HandleError(e, cfg.nodeEnv, timestamp)))
    ensures stage.Validate? ==>
              s == (if Accepts(stage.schema, w, req) then Next(req)
                    else Stop(HandleError(App(NewValidationError(Validator.IssuesMessage(w.issues(stage.schema, req)))),
                                          cfg.nodeEnv, timestamp)))
    ensures stage.Authenticate? ==>
              s == (match AuthGate.Check(req.headers.authorization, w.verify)
                    case Admit(p) => Next(req.(user := Some(p)))
                    case Reject(e) => Stop(HandleError(e, cfg.nodeEnv, timestamp)))
  {
    match stage
    case RequireAdmin =>
      (match AdminGate.RequireAdmin(req.headers, cfg.adminSecret)
       case Proceed => Next(req)
       case Fail(e) => Stop(HandleError(e, cfg.nodeEnv, timestamp)))
    case Validate(schema) =>
      (match Validator.Validate(Parse(schema, w, req))
       case Proceed => Next(req)
       case Fail(e) => Stop(HandleError(e, cfg.nodeEnv, timestamp)))
    case Authenticate =>
      (match AuthGate.Check(req.headers.authorization, w.verify)
       case Admit(p) => Next(req.(user := Some(p)))
       case Reject(e) => Stop(HandleError(e, cfg.nodeEnv, timestamp)))
    case Handle(h) => Stop(Finish(w.handle(h, req), cfg, timestamp))
  }

  /** A run of `stages` on `req`: the reply sent and the stages that ran, in order. The first
      stage that does not call `next()` ends the run; past the last stage, `next()` falls
      through to the catch-all 404 of `src/app.ts`. */
  function Run(stages: seq<Stage>, req: Request, cfg: Config, w: World, timestamp: string): (out: (Reply, seq<Stage>))
    ensures |out.1| <= |stages| && out.1 == stages[..|out.1|]
    ensures stages != [] ==> |out.1| >= 1
    ensures forall i :: 0 <= i < |out.1| - 1 ==> !out.1[i].Handle?
    decreases |stages|
  {
    if stages == [] then (App.RouteNotFound(), [])
    else
      match StepOf(stages[0], req, cfg, w, timestamp)
      case Stop(reply) => (reply, [stages[0]])
      case Next(next) =>
        var rest := Run(stages[1..], next, cfg, w, timestamp);
        (rest.0, [stages[0]] + rest.1)
  }

  /** The handlers a run invoked (zero or one). */
  function Invoked(trace: seq<Stage>): (hs: seq<Handler>)
    ensures |hs| <= |trace|
    ensures forall h :: h in hs <==> Handle(h) in trace
  {
    if trace == [] then []
    else (if trace[0].Handle? then [trace[0].handler] else []) + Invoked(trace[1..])
  }

  // ---------------------------------------------------------------------------------------
  // The two route shapes

  /** An admin route: `requireAdmin`, then `validate(schema)`, then the handler. */
  lemma GatedRun(schema: Schema, h: Handler, req: Request, cfg: Config, w: World, timestamp: string)
    ensures var out := Run([RequireAdmin, Validate(schema), Handle(h)], req, cfg, w, timestamp);
            var admin := AdminGate.RequireAdmin(req.headers, cfg.adminSecret);
            && (admin.Fail? ==> out.1 == [RequireAdmin] && out.0.status == 403
                                && out.0 == HandleError(admin.error, cfg.nodeEnv, timestamp))
            && (admin == Proceed && !Accepts(schema, w, req) ==>
                  out.1 == [RequireAdmin, Validate(schema)] && out.0.status == 400
                  && out.0.body.error == Some(ErrorBody(Validator.IssuesMessage(w.issues(schema, req)), None, None)))
            && (admin == Proceed && Accepts(schema, w, req) ==>
                  out.1 == [RequireAdmin, Validate(schema), Handle(h)] && out.0 == Finish(w.handle(h, req), cfg, timestamp))
  {
    var stages := [RequireAdmin, Validate(schema), Handle(h)];
    assert stages[1..] == [Validate(schema), Handle(h)];
    assert stages[1..][1..] == [Handle(h)];
    PublicRun(schema, h, req, cfg, w, timestamp);
  }

  /** A public route: `validate(schema)`, then the handler, which sees the request unchanged. */
  lemma PublicRun(schema: Schema, h: Handler, req: Request, cfg: Config, w: World, timestamp: string)
    ensures var out := Run([Validate(schema), Handle(h)], req, cfg, w, timestamp);
            && (!Accepts(schema, w, req) ==>
                  out.1 == [Validate(schema)] && out.0.status == 400
                  && out.0.body.error == Some(ErrorBody(Validator.IssuesMessage(w.issues(schema, req)), None, None)))
            && (Accepts(schema, w, req) ==>
                  out.1 == [Validate(schema), Handle(h)] && out.0 == Finish(w.handle(h, req), cfg, timestamp))
  {
    var stages := [Validate(schema), Handle(h)];
    assert stages[1..] == [Handle(h)];
  }

  /** A protected route: `authenticate`, then the handler, which sees `req.user` set to the
      principal the token resolved to. */
  lemma ProtectedRun(h: Handler, req: Request, cfg: Config, w: World, timestamp: string)
    ensures var out := Run([Authenticate, Handle(h)], req, cfg, w, timestamp);
            var gate := AuthGate.Check(req.headers.authorization, w.verify);
            && (gate.Reject? ==> out.1 == [Authenticate] && out.0 == HandleError(gate.error, cfg.nodeEnv, timestamp))
            && (!AuthGate.HasBearer(req.headers.authorization) ==> out.0.status == 401)
            && (gate.Admit? ==> out.1 == [Authenticate, Handle(h)]
                                && out.0 == Finish(w.handle(h, req.(user := Some(gate.principal))), cfg, timestamp))
  {
    var stages := [Authenticate, Handle(h)];
    assert stages[1..] == [Handle(h)];
  }

  /** A handler-only route: the handler runs on every request. */
  lemma BareRun(h: Handler, req: Request, cfg: Config, w: World, timestamp: string)
    ensures Run([Handle(h)], req, cfg, w, timestamp) == (Finish(w.handle(h, req), cfg, timestamp), [Handle(h)])
  {
  }

  /** The handler's outcome is all the world contributes past the gates: two worlds that agree
      on the gates and on this handler's outcome for the request give the same reply. */
  lemma {:induction false} ReplyDependsOnGatesAndHandler(stages: seq<Stage>, req: Request, cfg: Config,
                                                        w1: World, w2: World, timestamp: string)
    requires w1.fmt == w2.fmt && w1.authAccepts == w2.authAccepts && w1.issues == w2.issues && w1.verify == w2.verify
    requires forall h, r :: w1.handle(h, r) == w2.handle(h, r)
    ensures Run(stages, req, cfg, w1, timestamp) == Run(stages, req, cfg, w2, timestamp)
    decreases |stages|
  {
    if stages != [] {
      var stage := stages[0];
      assert stage.Validate? ==> Accepts(stage.schema, w1, req) == Accepts(stage.schema, w2, req);
      if stage.Authenticate? && AuthGate.Check(req.headers.authorization, w1.verify).Admit? {
        var p := AuthGate.Check(req.headers.authorization, w1.verify).principal;
        ReplyDependsOnGatesAndHandler(stages[1..], req.(user := Some(p)), cfg, w1, w2, timestamp);
      } else {
        ReplyDependsOnGatesAndHandler(stages[1..], req, cfg, w1, w2, timestamp);
      }
    }
  }

  /** Every stage before the first handler calls `next()`, each on the request the stage
      before it passed on. */
  predicate GatesProceed(stages: seq<Stage>, req: Request, cfg: Config, w: World, timestamp: string)
    decreases |stages|
  {
    stages == [] || stages[0].Handle?
    || (StepOf(stages[0], req, cfg, w, timestamp).Next?
        && GatesProceed(stages[1..], StepOf(stages[0], req, cfg, w, timestamp).req, cfg, w, timestamp))
  }

  /** A handler is never invoked after a failing gate: whenever a handler ran, every gate
      before it proceeded. */
  lemma {:induction false} HandlerRanAfterGates(stages: seq<Stage>, req: Request, cfg: Config, w: World, timestamp: string, h: Handler)
    requires Handle(h) in Run(stages, req, cfg, w, timestamp).1
    ensures GatesProceed(stages, req, cfg, w, timestamp)
    decreases |stages|
  {
    if !stages[0].Handle? {
      match StepOf(stages[0], req, cfg, w, timestamp)
      case Stop(_) =>
        assert false;
      case Next(next) =>
        HandlerRanAfterGates(stages[1..], next, cfg, w, timestamp, h);
    }
  }

  /** A failing admin gate in first position runs alone: nothing after it runs, and no
      handler is invoked. */
  lemma {:induction false} HandlerOnlyAfterGates(stages: seq<Stage>, req: Request, cfg: Config, w: World, timestamp: string)
    requires |stages| >= 1 && stages[0].RequireAdmin?
    requires AdminGate.RequireAdmin(req.headers, cfg.adminSecret).Fail?
    ensures Run(stages, req, cfg, w, timestamp).1 == [RequireAdmin]
    ensures Invoked(Run(stages, req, cfg, w, timestamp).1) == []
    ensures Run(stages, req, cfg, w, timestamp).0.status == 403
  {
    assert Invoked([RequireAdmin]) == [] + Invoked([]);
  }

  // ---------------------------------------------------------------------------------------
  // The route tables

  /** `src/routes/v1/auth.routes.ts`. */
  const AuthRoutes: seq<Route> := [
    Route(POST, "/signup", [Validate(SignUpSchema), Handle(SignUp)]),
    Route(POST, "/signin", [Validate(SignInSchema), Handle(SignIn)]),
    Route(POST, "/google", [Validate(GoogleAuthSchema), Handle(GoogleAuth)]),
    Route(GET, "/google/url", [Handle(GetGoogleAuthUrl)]),
    Route(POST, "/refresh", [Validate(RefreshTokenSchema), Handle(RefreshToken)]),
    Route(POST, "/password/reset-request", [Validate(ResetPasswordRequestSchema), Handle(RequestPasswordReset)]),
    Route(POST, "/password/reset", [Validate(ResetPasswordSchema), Handle(ResetPassword)]),
    Route(POST, "/signout", [Authenticate, Handle(SignOut)]),
    Route(GET, "/me", [Authenticate, Handle(GetCurrentUser)])
  ]

  /** `src/routes/v1/tour.routes.ts`: tours, their details and their itinerary. */
  const TourRoutes: seq<Route> := [
    Route(GET, "/", [Validate(GetToursSchema), Handle(GetTours)]),
    Route(GET, "/:id", [Validate(GetTourSchema), Handle(GetTour)]),
    Route(POST, "/", [RequireAdmin, Validate(CreateTourSchema), Handle(CreateTour)]),
    Route(PUT, "/:id", [RequireAdmin, Validate(UpdateTourSchema), Handle(UpdateTour)]),
    Route(DELETE, "/:id", [RequireAdmin, Validate(DeleteTourSchema), Handle(DeleteTour)]),
    Route(GET, "/:id/details", [Validate(GetTourDetailsSchema), Handle(GetTourDetails)]),
    Route(POST, "/:id/details", [RequireAdmin, Validate(CreateTourDetailsSchema), Handle(CreateTourDetails)]),
    Route(PUT, "/:id/details", [RequireAdmin, Validate(UpdateTourDetailsSchema), Handle(UpdateTourDetails)]),
    Route(GET, "/:id/itinerary", [Validate(GetItinerarySchema), Handle(GetItinerary)]),
    Route(POST, "/:id/itinerary", [RequireAdmin, Validate(CreateItineraryDaySchema), Handle(AddItineraryDay)]),
    Route(PUT, "/:id/itinerary/:dayNumber", [RequireAdmin, Validate(UpdateItineraryDaySchema), Handle(UpdateItineraryDay)]),
    Route(DELETE, "/:id/itinerary/:dayNumber", [RequireAdmin, Validate(DeleteItineraryDaySchema), Handle(DeleteItineraryDay)])
  ]

  /** `src/routes/v1/blog.routes.ts`. */
  const BlogRoutes: seq<Route> := [
    Route(GET, "/", [Validate(GetBlogsSchema), Handle(GetBlogs)]),
    Route(GET, "/:id", [Validate(BlogIdParamSchema), Handle(GetBlog)]),
    Route(POST, "/", [RequireAdmin, Validate(CreateBlogSchema), Handle(CreateBlog)]),
    Route(PUT, "/:id", [RequireAdmin, Validate(UpdateBlogSchema), Handle(UpdateBlog)]),
    Route(DELETE, "/:id", [RequireAdmin, Validate(BlogIdParamSchema), Handle(DeleteBlog)])
  ]

  /** The first route registered for `method` and `path`, as Express tries them in order. */
  function FindRoute(routes: seq<Route>, verb: Method, path: string): (r: Option<nat>)
    ensures r.Some? ==> r.value < |routes| && routes[r.value].verb == verb && routes[r.value].path == path
    ensures r.Some? ==> forall i :: 0 <= i < r.value ==> !(routes[i].verb == verb && routes[i].path == path)
    ensures r.None? <==> forall i :: 0 <= i < |routes| ==> !(routes[i].verb == verb && routes[i].path == path)
  {
    if routes == [] then None
    else if routes[0].verb == verb && routes[0].path == path then Some(0)
    else
      match FindRoute(routes[1..], verb, path)
      case None => None
      case Some(i) => Some(i + 1)
  }

  /** A request matched to `method` and `path` within one router: the matching route's run,
      or the catch-all 404 when no route is registered there. */
  function Dispatch(routes: seq<Route>, verb: Method, path: string, req: Request, cfg: Config, w: World,
                    timestamp: string): (r: Reply)
    ensures FindRoute(routes, verb, path).None? ==> r == App.RouteNotFound()
    ensures FindRoute(routes, verb, path).Some? ==>
              r == Run(routes[FindRoute(routes, verb, path).value].stages, req, cfg, w, timestamp).0
  {
    match FindRoute(routes, verb, path)
    case None => App.RouteNotFound()
    case Some(i) => Run(routes[i].stages, req, cfg, w, timestamp).0
  }

  /** Each (method, path) is registered once, so no route shadows another. */
  predicate Unambiguous(routes: seq<Route>) {
    forall i, j :: 0 <= i < j < |routes| ==> !(routes[i].verb == routes[j].verb && routes[i].path == routes[j].path)
  }

  /** In a table without duplicates, a route's own method and path find that route. */
  lemma FindsOwnRoute(routes: seq<Route>, i: nat)
    requires Unambiguous(routes) && i < |routes|
    ensures FindRoute(routes, routes[i].verb, routes[i].path) == Some(i)
  {
    var r := FindRoute(routes, routes[i].verb, routes[i].path);
    assert r.Some?;
  }

  /** An admin route's stage list. */
  predicate Gated(stages: seq<Stage>) {
    |stages| == 3 && stages[0] == RequireAdmin && stages[1].Validate? && stages[2].Handle?
  }

  /** A public route's stage list. */
  predicate Public(stages: seq<Stage>) {
    |stages| == 2 && stages[0].Validate? && stages[1].Handle?
  }

  /** Every write on tours, details and itinerary is admin-gated before validation, and every
      read is validated with no gate. */
  lemma TourRoutesShape()
    ensures forall i :: 0 <= i < |TourRoutes| ==>
              (TourRoutes[i].verb == GET ==> Public(TourRoutes[i].stages))
              && (TourRoutes[i].verb != GET ==> Gated(TourRoutes[i].stages))
  {
  }

  /** The same split for blogs; DELETE validates with the id-only schema GET `/:id` uses. */
  lemma BlogRoutesShape()
    ensures forall i :: 0 <= i < |BlogRoutes| ==>
              (BlogRoutes[i].verb == GET ==> Public(BlogRoutes[i].stages))
              && (BlogRoutes[i].verb != GET ==> Gated(BlogRoutes[i].stages))
    ensures BlogRoutes[4].verb == DELETE && BlogRoutes[4].stages[1] == Validate(BlogIdParamSchema)
    ensures BlogRoutes[1].stages[0] == BlogRoutes[4].stages[1]
  {
  }

  /** No auth route is admin-gated; only `/signout` and `/me` authenticate, and they skip
      validation; `/google/url` runs its handler alone. */
  lemma AuthRoutesShape()
    ensures forall i :: 0 <= i < |AuthRoutes| ==> RequireAdmin !in AuthRoutes[i].stages
    ensures forall i :: 0 <= i < |AuthRoutes| ==>
              (Authenticate in AuthRoutes[i].stages <==> AuthRoutes[i].path == "/signout" || AuthRoutes[i].path == "/me")
    ensures forall i :: 0 <= i < |AuthRoutes| && Authenticate in AuthRoutes[i].stages ==> |AuthRoutes[i].stages| == 2
    ensures AuthRoutes[3].path == "/google/url" && AuthRoutes[3].stages == [Handle(GetGoogleAuthUrl)]
  {
  }

  /** No method and path is registered twice in any of the three routers. */
  lemma RoutersUnambiguous()
    ensures Unambiguous(AuthRoutes) && Unambiguous(TourRoutes) && Unambiguous(BlogRoutes)
  {
  }

  /** For any tour or blog write, a wrong or missing admin key gives a 403 and nothing else
      runs: not validation, not the handler (so no store access), whatever the body holds. */
  lemma WritesRejectedBeforeValidation(routes: seq<Route>, i: nat, req: Request, cfg: Config, w: World, timestamp: string)
    requires routes == TourRoutes || routes == BlogRoutes
    requires i < |routes| && routes[i].verb != GET
    requires AdminGate.RequireAdmin(req.headers, cfg.adminSecret).Fail?
    ensures Dispatch(routes, routes[i].verb, routes[i].path, req, cfg, w, timestamp).status == 403
    ensures Run(routes[i].stages, req, cfg, w, timestamp).1 == [RequireAdmin]
  {
    TourRoutesShape();
    BlogRoutesShape();
    RoutersUnambiguous();
    FindsOwnRoute(routes, i);
    HandlerOnlyAfterGates(routes[i].stages, req, cfg, w, timestamp);
  }

  /** For any tour or blog read, a request its schema rejects gets a 400 and the handler never
      runs. */
  lemma ReadsValidatedBeforeHandler(routes: seq<Route>, i: nat, req: Request, cfg: Config, w: World, timestamp: string)
    requires routes == TourRoutes || routes == BlogRoutes
    requires i < |routes| && routes[i].verb == GET
    requires !Accepts(routes[i].stages[0].schema, w, req)
    ensures Dispatch(routes, GET, routes[i].path, req, cfg, w, timestamp).status == 400
    ensures Invoked(Run(routes[i].stages, req, cfg, w, timestamp).1) == []
  {
    TourRoutesShape();
    BlogRoutesShape();
    RoutersUnambiguous();
    FindsOwnRoute(routes, i);
    var stages := routes[i].stages;
    PublicRun(stages[0].schema, stages[1].handler, req, cfg, w, timestamp);
    assert stages == [Validate(stages[0].schema), Handle(stages[1].handler)];
    assert Invoked([Validate(stages[0].schema)]) == [] + Invoked([]);
  }

  /** The issue Zod reports for a bad `region`. */
  const RegionIssue := Validator.Issue([Validator.Key("body"), Validator.Key("region")], TourSchemas.RegionMessage)

  /** How the validator renders the region issue. */
  lemma RegionIssueText()
    ensures Validator.RenderIssue(RegionIssue) == "body.region: " + TourSchemas.RegionMessage
  {
    var path := [Validator.Key("body"), Validator.Key("region")];
    assert seq(|path|, i requires 0 <= i < |path| => Validator.RenderItem(path[i])) == ["body", "region"];
    assert Join(["body", "region"], ".") == "body" + "." + Join(["region"], ".");
    assert Validator.RenderPath(path) == "body.region";
    assert Validator.RenderIssue(RegionIssue) == "body.region" + ": " + TourSchemas.RegionMessage;
    assert "body.region" + ": " == "body.region: ";
  }

  /** `POST /` of the tour router with a valid admin key and a body `createTourSchema`
      rejects: a 400 whose message is exactly the joined issue list. */
  lemma CreateTourRejected(req: Request, cfg: Config, w: World, timestamp: string)
    requires AdminGate.RequireAdmin(req.headers, cfg.adminSecret) == Proceed
    requires !TourSchemas.CreateTourBody(w.fmt, req.body)
    ensures Dispatch(TourRoutes, POST, "/", req, cfg, w, timestamp).status == 400
    ensures Dispatch(TourRoutes, POST, "/", req, cfg, w, timestamp).body.error
            == Some(ErrorBody(Validator.IssuesMessage(w.issues(CreateTourSchema, req)), None, None))
  {
    RoutersUnambiguous();
    FindsOwnRoute(TourRoutes, 2);
    assert !Accepts(CreateTourSchema, w, req);
    assert TourRoutes[2].stages == [RequireAdmin, Validate(CreateTourSchema), Handle(CreateTour)];
    GatedRun(CreateTourSchema, CreateTour, req, cfg, w, timestamp);
  }

  /** The same request when Zod reports the region rule: the message names the rule with its
      path, whatever else Zod reports. */
  lemma RegionIssueReported(req: Request, cfg: Config, w: World, timestamp: string, j: nat)
    requires AdminGate.RequireAdmin(req.headers, cfg.adminSecret) == Proceed
    requires !TourSchemas.CreateTourBody(w.fmt, req.body)
    requires j < |w.issues(CreateTourSchema, req)| && w.issues(CreateTourSchema, req)[j] == RegionIssue
    ensures Dispatch(TourRoutes, POST, "/", req, cfg, w, timestamp).status == 400
    ensures Includes(Dispatch(TourRoutes, POST, "/", req, cfg, w, timestamp).body.error.value.message,
                     "body.region: " + TourSchemas.RegionMessage)
  {
    CreateTourRejected(req, cfg, w, timestamp);
    Validator.NoIssueDropped(w.issues(CreateTourSchema, req), j);
    RegionIssueText();
  }

  /** `GET /me` with a token the provider accepts: the handler sees the principal it resolved. */
  lemma MeSeesPrincipal(req: Request, cfg: Config, w: World, timestamp: string)
    requires AuthGate.Check(req.headers.authorization, w.verify).Admit?
    ensures Dispatch(AuthRoutes, GET, "/me", req, cfg, w, timestamp)
            == Finish(w.handle(GetCurrentUser, req.(user := Some(AuthGate.Check(req.headers.authorization, w.verify).principal))),
                      cfg, timestamp)
  {
    RoutersUnambiguous();
    FindsOwnRoute(AuthRoutes, 8);
    ProtectedRun(GetCurrentUser, req, cfg, w, timestamp);
  }

  /** `POST /signout` with no bearer token: 401, and the session is never revoked. */
  lemma SignOutNeedsToken(req: Request, cfg: Config, w: World, timestamp: string)
    requires !AuthGate.HasBearer(req.headers.authorization)
    ensures Dispatch(AuthRoutes, POST, "/signout", req, cfg, w, timestamp).status == 401
    ensures Run(AuthRoutes[7].stages, req, cfg, w, timestamp).1 == [Authenticate]
  {
    RoutersUnambiguous();
    FindsOwnRoute(AuthRoutes, 7);
    ProtectedRun(SignOut, req, cfg, w, timestamp);
  }
}
