# HHTrails API request pipeline, modelled in Dafny

HHTrails-BE is an Express/TypeScript API for a trekking-tour site. It covers tours, their
details and day-by-day itineraries, blogs, and accounts backed by a hosted identity provider.
This project models its request-handling core. It covers:

- An error taxonomy (`AppError` and its subclasses) and the one error handler that turns
  any thrown value into an envelope.
- The success and error envelope builders.
- Three gates: the Zod `validate` middleware, the shared-secret `requireAdmin` gate and the
  bearer-token `authenticate` gate.
- The request schemas.
- The decision logic of every controller around its store or provider calls.
- The route tables that chain these stages together.
- The CORS origin rule and the catch-all 404.

The store (a hosted Postgres) and the identity provider are not modelled. Each call's
answer is an input datatype, such as `Store.Single`, `Store.Listing`, `Store.Deletion` or
`AuthController.Answer`. A controller becomes a function from those answers to a
`Http.HandlerResult`: either `sendSuccess` with a status and data, or an error passed to
`next`. A handler that makes several calls also returns the calls it made, in order.

Patches are filled in place as the source does it, one `if` per field. `BuildTourPatch`,
`BuildBlogPatch`, `BuildDetailsPatch` and `BuildDayPatch` are methods, each proved equal to
a renaming function `Store.ToColumns` over the handler's field table. The properties
(exact fields, unchanged values, inverse of the row mapper) are lemmas about that
function.

`src/middleware/auth.ts` writes `req.user`, so it is modelled twice: as the pure decision
`AuthGate.Check`, and as the class `AuthGate.AuthRequest`, whose `Authenticate` method
writes `user` only on success.

A route is a list of stages (`Pipeline.Stage`). `Pipeline.Run` folds over the list. The
first stage that does not call `next()` ends the run, and the run returns the reply and the
stages that ran. The route tables are constants transcribed from the three router files.

Configuration is passed in as parameters: `NODE_ENV`, `ADMIN_SECRET_KEY`,
`ALLOWED_ORIGINS`, and the timestamp `new Date()` would give.

`src/middleware/errorHandler.ts` only asks whether the thrown value is an `AppError`. It has
no timeout or network classification, and no code in the modelled files constructs
`NetworkError` or `ServiceUnavailableError`. Any other value becomes a 500. Its message is
`error.message` unless `NODE_ENV` is `production`, where it is hidden behind
'Internal server error'.

## Model

| member | source | states |
|---|---|---|
| Errors.StatusOf | src/utils/errors.ts:15-61 | each subclass's status is one of 400, 401, 403, 404, 409, 500, 503 |
| Errors.NewAppError | src/utils/errors.ts:2-12 | status and message are kept as given; `isOperational` defaults to true |
| Errors.NewValidationError | src/utils/errors.ts:15-19 | status 400, the message is kept verbatim |
| Errors.NewAuthenticationError | src/utils/errors.ts:21-25 | status 401; the default message is 'Authentication failed' |
| Errors.NewAuthorizationError | src/utils/errors.ts:27-31 | status 403; the default message is 'Access denied' |
| Errors.NewNotFoundError | src/utils/errors.ts:33-37 | status 404; the default message is 'Resource not found' |
| Errors.NewConflictError | src/utils/errors.ts:39-43 | status 409, the message is kept verbatim |
| Errors.NewInternalError | src/utils/errors.ts:45-49 | status 500, not operational; the default message is 'Internal server error' |
| Errors.NewNetworkError | src/utils/errors.ts:51-55 | status 503 and its default message |
| Errors.NewServiceUnavailableError | src/utils/errors.ts:57-61 | status 503 and its default message |
| Errors.TaxonomyTable | src/utils/errors.ts:2-61 | for every kind: the kind's status; a supplied message is kept, otherwise the kind's default; operational unless `InternalError` |
| Responses.SendSuccess | src/utils/response.ts:17-32 | the given status (200 by default), `success: true`, the data, no error, a timestamp in `meta` |
| Responses.SuccessIgnoresMessage | src/utils/response.ts:21 | the `_message` argument has no effect on the reply |
| Responses.SendError | src/utils/response.ts:34-54 | the status, `success: false`, `{message, code, details}`, no data, a timestamp in `meta` |
| Responses.SuccessAndErrorDiffer | src/utils/response.ts:17-54 | no success envelope equals an error envelope |
| ErrorHandler.Classify | src/middleware/errorHandler.ts:14-26 | an `AppError` keeps its status and message; anything else is 500, with 'Internal server error' in production and its own message otherwise |
| ErrorHandler.HandleError | src/middleware/errorHandler.ts:8-27 | the reply carries the classified status and message, with no code or details |
| ErrorHandler.TaxonomyStatusOnWire | src/middleware/errorHandler.ts:14-16 | a taxonomy error reaches the wire with its class's status |
| ErrorHandler.InternalMessageExposed | src/middleware/errorHandler.ts:14-16 | `isOperational` is never read: an `InternalError`'s raw message shows even in production |
| ErrorHandler.ProductionHidesUnexpected | src/middleware/errorHandler.ts:23-26 | in production a non-`AppError` shows only 'Internal server error' |
| Validator.Rendered | src/middleware/validator.ts:16 | one entry per issue, in order, each `path.join('.') + ': ' + message` |
| Validator.Validate | src/middleware/validator.ts:5-22 | a successful parse proceeds; a Zod failure becomes one 400 from the joined issues; any other throw passes through unchanged |
| Validator.ParsedOutputDiscarded | src/middleware/validator.ts:8-13 | the parsed output plays no part in what happens next |
| Validator.NoIssueDropped | src/middleware/validator.ts:15-17 | the 400's message contains every reported issue's rendering |
| Validator.IssuesInOrder | src/middleware/validator.ts:16-17 | the message is the first issue, then ', ', then the rest |
| AdminGate.ProvidedKey | src/middleware/admin.ts:15-24 | a `Bearer ` header supplies the key; otherwise a non-empty `x-admin-key` does; otherwise there is none |
| AdminGate.RequireAdmin | src/middleware/admin.ts:12-39 | proceeds exactly when the provided key is non-empty and equals the secret; otherwise a 403 saying whether the key was missing or wrong |
| AdminGate.BearerTakesPrecedence | src/middleware/admin.ts:20-24 | a Bearer header wins over `x-admin-key` |
| AdminGate.EmptyBearerShadowsAdminKey | src/middleware/admin.ts:20-28 | `Bearer ` with nothing after it is a missing key, even when `x-admin-key` holds the secret |
| AdminGate.ComparisonIsExact | src/middleware/admin.ts:20-31 | a key differing in case or white space is refused; the prefix is case-sensitive |
| AuthGate.Check | src/middleware/auth.ts:13-46 | no bearer header gives a 401 without asking the provider; a provider error or no user gives a 401; a provider throw passes through; otherwise the user's id, email and role are admitted |
| AuthGate.NoOracleWithoutBearer | src/middleware/auth.ts:21-23 | without a bearer header the provider's answer plays no part |
| AuthGate.LowerCaseBearerRefused | src/middleware/auth.ts:21 | `bearer ` in lower case is refused |
| AuthGate.TokenIsHeaderRemainder | src/middleware/auth.ts:25-40 | the provider sees exactly the header after `Bearer ` |
| AuthGate.ProviderTextNotLeaked | src/middleware/auth.ts:32-34 | whatever the provider's error text, the caller sees the same 401 message |
| AuthGate.AuthRequest.constructor | src/middleware/auth.ts:5-11 | a request starts with no user |
| AuthGate.AuthRequest.Authenticate | src/middleware/auth.ts:13-46 | `next()` with `user` set to the admitted principal, or `next(error)` with `user` unchanged |
| Json.Int | src/controllers/tour.controller.ts:135-138 | an integer-valued JSON number |
| Json.Coalesce | src/controllers/tour.details.controller.ts:101-107 | `body.f ?? fallback`: the value when present and not null, else the fallback |
| Json.Get | src/controllers/auth.controller.ts:42-46 | an optional property read: present exactly when the key is |
| Json.GetPath | src/controllers/auth.controller.ts:44 | `a?.b`: present exactly when `a` is an object holding `b` |
| Json.Put | src/controllers/auth.controller.ts:151-153 | an undefined value leaves the key out of the JSON; a defined one is written |
| Strings.Drop | src/middleware/admin.ts:21 | `substring(n)`: the text after the first `n` characters, or '' |
| Strings.Split | src/controllers/tour.controller.ts:99 | `split` on one character gives at least one piece |
| Strings.Trim | src/controllers/tour.controller.ts:99 | `trim` keeps a middle slice of the text, removing only white space before and after it, and leaves no white space at either end |
| Strings.TrimKeepsMiddle | src/controllers/tour.controller.ts:99 | removing leading and then trailing white space leaves a middle slice with only white space cut away |
| Strings.NatToString | src/controllers/tour.controller.ts:135 | the digit string whose decimal value is `n`, with no leading zero |
| Strings.IntToString | src/controllers/tour.itinerary.controller.ts:77 | an integer in a template string: its digits, with '-' when negative |
| Store.CopyIfDefined | src/controllers/tour.details.controller.ts:138-148 | one `if (defined) patch.column = body.field` step extends the renaming by one field |
| Store.ToColumnsSpec | src/controllers/tour.controller.ts:189-198 | over distinct columns a patch holds exactly the defined fields, renamed, with their values unchanged |
| Store.FromColumnsSpec | src/controllers/blog.controller.ts:8-20 | over distinct names a mapped row holds exactly the listed columns the row has, renamed, with their values unchanged |
| Store.RenamingRoundTrip | src/controllers/blog.controller.ts:8-20 | mapping a row and patching the result back gives each listed column its value, and nothing else |
| Store.DefaultedSpec | src/controllers/tour.details.controller.ts:101-107 | over distinct columns the defaulted object holds exactly the listed columns, each `body.f ?? fallback` |
| Store.PutDefinedSpec | src/controllers/tour.details.controller.ts:96-100 | each listed key the body has is written with the body's value; every other key keeps its presence and value, so an absent field adds no key |
| Pagination.PagesTile | src/controllers/tour.controller.ts:82-108 | a page's range has `limit` rows, and the next page starts right after it |
| Pagination.TotalPages | src/controllers/tour.controller.ts:138 | `Math.ceil(total / limit)`, which is null on the wire when limit is 0 |
| Pagination.CeilDivBounds | src/controllers/tour.controller.ts:138 | with a positive limit the page count covers the total and no more; no rows give no pages |
| Pagination.PaginationInfo | src/controllers/tour.controller.ts:134-139 | exactly the keys page, limit, total and totalPages: page and limit as requested, total the count or 0 when absent, and totalPages from that total |
| TourSchemas.RegionMessageText | src/validators/tour.validator.ts:4-13 | the region message lists the four regions, comma-separated |
| TourSchemas.CreateTourBody | src/validators/tour.validator.ts:9-22 | an accepted create body holds all eight required fields |
| TourSchemas.UpdateTour | src/validators/tour.validator.ts:25-42 | an accepted update has a UUID id and at least one declared field |
| TourSchemas.UpdateRejectsUnknownOnly | src/validators/tour.validator.ts:39-41 | a body with none of the declared fields is refused |
| TourSchemas.GetTours | src/validators/tour.validator.ts:59-68 | an accepted list query has digit-string page and limit |
| TourSchemas.CreateNeedsRegion | src/validators/tour.validator.ts:13 | a create body without `region` is refused |
| TourSchemas.PageShapes | src/validators/tour.validator.ts:65 | page '0' passes; '-1' and '1.5' do not |
| TourSchemas.QueryRegionIsEnum | src/validators/tour.validator.ts:61 | the region filter is case-sensitive |
| BlogSchemas.CreateBlog | src/validators/blog.validator.ts:4-21 | an accepted create body holds its required fields with a positive integer reading time |
| BlogSchemas.UpdateBlog | src/validators/blog.validator.ts:24-45 | an accepted update has a UUID id and at least one declared field |
| BlogSchemas.GetBlogs | src/validators/blog.validator.ts:55-61 | an accepted list query has digit-string page and limit |
| BlogSchemas.ReadingTimeIsPositiveInteger | src/validators/blog.validator.ts:16-19 | a reading time of 0, 2.5 or the text '5' is refused by create and update |
| BlogSchemas.DateShapeOnly | src/validators/blog.validator.ts:14 | the date check is a shape: '2024-13-45' passes, '2024-1-5' does not |
| BlogSchemas.AnyCategory | src/validators/blog.validator.ts:57 | any category text passes the list query |
| DetailsSchemas.CreateDetails | src/validators/tour.details.validator.ts:4-27 | an accepted create has a UUID id and non-empty overview, highlights, inclusions and exclusions |
| DetailsSchemas.UpdateDetails | src/validators/tour.details.validator.ts:30-51 | an accepted update has a UUID id and at least one declared field |
| DetailsSchemas.EmptyHighlightRefused | src/validators/tour.details.validator.ts:10-12 | an empty string in an array field is refused |
| DetailsSchemas.NullCountsAsProvided | src/validators/tour.details.validator.ts:46-50 | a body whose one field is `null` satisfies the at-least-one rule |
| DetailsSchemas.FeatureIsVideoNotNullable | src/validators/tour.details.validator.ts:23-44 | `featureIsVideo: null` is refused by both schemas |
| ItinerarySchemas.CreateDay | src/validators/tour.itinerary.validator.ts:4-16 | an accepted day has a UUID id and an integer day number of at least 1 |
| ItinerarySchemas.UpdateDay | src/validators/tour.itinerary.validator.ts:19-32 | an accepted update has a UUID id, a digit-string day and at least one of its two fields |
| ItinerarySchemas.DeleteDay | src/validators/tour.itinerary.validator.ts:35-40 | an accepted delete has a digit-string day |
| ItinerarySchemas.DayZeroAccepted | src/validators/tour.itinerary.validator.ts:38 | day '0' passes the path check, though its message says "positive" |
| ItinerarySchemas.UpdateNeedsAField | src/validators/tour.itinerary.validator.ts:29-31 | an update with neither field is refused |
| TourController.TourRowNamesDistinct | src/controllers/tour.controller.ts:53-66 | the tour row's twelve API names are distinct |
| TourController.TourInsertFieldsDistinct | src/controllers/tour.controller.ts:27-36 | the insert's columns are distinct |
| TourController.TourPatchFieldsDistinct | src/controllers/tour.controller.ts:190-198 | the patch's nine columns are distinct |
| TourController.MapTourRowCopies | src/controllers/tour.controller.ts:53-66 | the tour object copies each column the row has to its API name, and holds nothing else |
| TourController.CreateTourInsertFields | src/controllers/tour.controller.ts:13-37 | the insert always has `is_custom`, false when absent; every other present field is copied under its column |
| TourController.CreateTourOutcome | src/controllers/tour.controller.ts:41-69 | a store error is a 400 with its message; no row is a 500 'Failed to create tour'; a row is a 201 with the tour |
| TourController.TypesArray | src/controllers/tour.controller.ts:99 | one element per comma-separated piece |
| TourController.TypesArrayCount | src/controllers/tour.controller.ts:97-100 | k commas give k+1 elements, each the trimmed piece |
| TourController.IsCustomFilter | src/controllers/tour.controller.ts:103-105 | 'true' filters on true; 'false' on false; no parameter adds no filter |
| TourController.TourFiltersFromQuery | src/controllers/tour.controller.ts:89-105 | at most four filters, each on a known column and taken from the parameter of that name |
| TourController.BuildToursQuery | src/controllers/tour.controller.ts:80-108 | the filters, the range of the requested page, newest first |
| TourController.ToursOutcome | src/controllers/tour.controller.ts:110-140 | a store error is a 500; otherwise one tour object per row plus the pagination block |
| TourController.TourOutcome | src/controllers/tour.controller.ts:153-174 | any error or no row is a 404 'Tour not found'; otherwise the tour |
| TourController.BuildTourPatch | src/controllers/tour.controller.ts:189-198 | the patch equals the renaming of the defined fields over the nine-field table |
| TourController.TourPatchExact | src/controllers/tour.controller.ts:189-198 | the patch holds exactly the defined fields, renamed, with their values unchanged |
| TourController.UpdateTourOutcome | src/controllers/tour.controller.ts:207-229 | 'PGRST116' is a 404; another error is a 400 with its message, or 'Failed to update tour' when that is empty; no row is a 400 |
| TourController.DeleteTourOutcome | src/controllers/tour.controller.ts:242-253 | 'PGRST116' is a 404; another error is a 500 with its raw message; otherwise a confirmation |
| TourController.DeleteIgnoresCount | src/controllers/tour.controller.ts:242-253 | deleting an id that matches nothing still succeeds |
| BlogController.BlogRowNamesDistinct | src/controllers/blog.controller.ts:8-20 | the blog row's API names are distinct |
| BlogController.BlogWriteColumnsDistinct | src/controllers/blog.controller.ts:101-145 | the write table's columns are distinct |
| BlogController.MapBlogRowCopies | src/controllers/blog.controller.ts:8-20 | the blog object copies each column the row has to its API name, and holds nothing else |
| BlogController.BuildBlogsQuery | src/controllers/blog.controller.ts:30-46 | the category filter, the range of the requested page, ordered by publish date descending |
| BlogController.EmptyCategoryIgnored | src/controllers/blog.controller.ts:40-42 | an empty category adds no filter; a non-empty one filters on it |
| BlogController.BlogsOutcome | src/controllers/blog.controller.ts:48-63 | a store error is a 500; otherwise one blog per row plus the pagination block |
| BlogController.BlogOutcome | src/controllers/blog.controller.ts:76-86 | any error or no row is a 404 'Blog not found' |
| BlogController.CreateBlogInsertFields | src/controllers/blog.controller.ts:99-110 | a missing or null publish date is left out, so the column default applies; the other fields are copied |
| BlogController.CreateBlogOutcome | src/controllers/blog.controller.ts:114-123 | a store error is a 400; no row is a 500; a row is a 201 with the blog |
| BlogController.BuildBlogPatch | src/controllers/blog.controller.ts:137-145 | the patch equals the renaming of the defined fields over the blog table |
| BlogController.BlogPatchExact | src/controllers/blog.controller.ts:137-145 | the patch holds exactly the defined fields, renamed, with their values unchanged |
| BlogController.UpdateBlogOutcome | src/controllers/blog.controller.ts:154-161 | 'PGRST116' is a 404; another error is a 400 with its message, even an empty one; no row is a 400 'Failed to update blog' |
| BlogController.DeleteBlogOutcome | src/controllers/blog.controller.ts:174-187 | a store error is a 500; a count that is absent or 0 is a 404; otherwise a confirmation |
| DetailsController.DetailsRowNamesDistinct | src/controllers/tour.details.controller.ts:8-28 | the details row's API names are distinct |
| DetailsController.DetailsPatchColumnsDistinct | src/controllers/tour.details.controller.ts:138-148 | the patch's eleven columns are distinct |
| DetailsController.MapDetailsRowCopies | src/controllers/tour.details.controller.ts:8-28 | the details object copies each column the row has to its API name, and holds nothing else |
| DetailsController.GetDetails | src/controllers/tour.details.controller.ts:31-60 | a missing tour is a 404 before the details are read; missing details are a 404 'Tour details not found' |
| DetailsController.DetailsInsertShape | src/controllers/tour.details.controller.ts:95-108 | the insert's keys are exactly `tour_id`, the seven defaulted columns, and those of overview, highlights, inclusions and exclusions the body has |
| DetailsController.DetailsInsertDefaults | src/controllers/tour.details.controller.ts:101-107 | `tour_id` is the path id; each of overview, highlights, inclusions and exclusions the body has is inserted unchanged; each of the six optional texts and URLs is `body.f ?? null` (unchanged when given and not null, else null) and `feature_is_video` is `body.featureIsVideo ?? false` |
| DetailsController.NullableColumnsSent | src/controllers/tour.details.controller.ts:101-107 | the six nullable columns, and only they, are always sent |
| DetailsController.CreateDetails | src/controllers/tour.details.controller.ts:66-125 | tour check, then a duplicate check giving 409, then the insert of the row built from the path id and body; the calls made, in order |
| DetailsController.CreateOrdering | src/controllers/tour.details.controller.ts:78-91 | a missing tour wins over an existing record; a failed duplicate lookup counts as no record |
| DetailsController.BuildDetailsPatch | src/controllers/tour.details.controller.ts:137-148 | the patch equals the renaming of the defined fields over the eleven-field table |
| DetailsController.DetailsPatchExact | src/controllers/tour.details.controller.ts:137-148 | the patch holds exactly the defined fields, renamed, with their values unchanged |
| DetailsController.UpdateDetailsOutcome | src/controllers/tour.details.controller.ts:157-164 | 'PGRST116' is a 404 telling the caller to POST first; another error is a 400; no row is a 400 |
| ItineraryController.DayRowNamesDistinct | src/controllers/tour.itinerary.controller.ts:8-16 | the day row's API names are distinct |
| ItineraryController.MapDayRowCopies | src/controllers/tour.itinerary.controller.ts:8-16 | the day object copies each column the row has to its API name, and holds nothing else |
| ItineraryController.GetItinerary | src/controllers/tour.itinerary.controller.ts:23-52 | a missing tour is a 404 and the days are not read; a list error is a 500; otherwise one day per row |
| ItineraryController.AddDay | src/controllers/tour.itinerary.controller.ts:59-109 | tour check, then the duration bound, then the insert of the row built from the path id and body; '23505' is a 409; the calls made, in order |
| ItineraryController.DayInsertExact | src/controllers/tour.itinerary.controller.ts:81-88 | the inserted row holds the path's tour id, and `day_number`, `description` and `image_url` exactly when the body has them, unchanged; nothing else |
| ItineraryController.DayBound | src/controllers/tour.itinerary.controller.ts:75-79 | the bound is inclusive; a missing tour is reported before the bound is checked |
| ItineraryController.ExceedsMessageNamesBoth | src/controllers/tour.itinerary.controller.ts:76-78 | the refusal names the day first and then the tour's duration |
| ItineraryController.DuplicateMessageText | src/controllers/tour.itinerary.controller.ts:95 | the conflict message for a repeated day 3 |
| ItineraryController.BuildDayPatch | src/controllers/tour.itinerary.controller.ts:121-123 | the patch equals the renaming of the two defined fields |
| ItineraryController.DayPatchExact | src/controllers/tour.itinerary.controller.ts:121-123 | only `description` and `image_url`, each present exactly when its field is |
| ItineraryController.UpdateDayOutcome | src/controllers/tour.itinerary.controller.ts:133-140 | 'PGRST116' is a 404 naming the day; another error is a 400; no row is a 400 |
| ItineraryController.DeleteDayOutcome | src/controllers/tour.itinerary.controller.ts:161-169 | a store error is a 500; a count that is absent or 0 is a 404 naming the day; otherwise a confirmation |
| ItineraryController.DayNumIsDecimal | src/controllers/tour.itinerary.controller.ts:119-135 | `parseInt` drops leading zeros: '007' is reported as day 7 |
| AuthController.SignUp | src/controllers/auth.controller.ts:27-50 | 'already registered' anywhere in the provider's error is a 409; another error is a 400; no user is a 401; otherwise a 201 |
| AuthController.SignUpDuplicateIsSubstring | src/controllers/auth.controller.ts:28-29 | the duplicate test is a substring match |
| AuthController.SignIn | src/controllers/auth.controller.ts:68-88 | any provider error is the same 401; a missing user or session is a 401 'Authentication failed' |
| AuthController.SignInHidesProviderText | src/controllers/auth.controller.ts:68-70 | two different provider errors give the same reply |
| AuthController.GoogleAuth | src/controllers/auth.controller.ts:107-128 | a provider error is a 401 carrying its text; a missing user or session is a 401 |
| AuthController.GoogleAuthUrl | src/controllers/auth.controller.ts:147-153 | an error is a 401; otherwise the URL, left out when undefined |
| AuthController.SignOut | src/controllers/auth.controller.ts:162-175 | always a 200; the session is revoked only when the header has more than seven characters |
| AuthController.SignOutCutsAnyPrefix | src/controllers/auth.controller.ts:165 | the first seven characters are dropped whatever they are |
| AuthController.RefreshToken | src/controllers/auth.controller.ts:188-203 | an error is a 401; no session is a 401; otherwise the session fields |
| AuthController.EmailVerified | src/controllers/auth.controller.ts:230 | `emailVerified` is the truthiness of `email_confirmed_at` |
| AuthController.GetCurrentUser | src/controllers/auth.controller.ts:212-237 | no principal is a 401 with no lookup; a failed lookup is a 401; otherwise the user summary |
| AuthController.RequestPasswordReset | src/controllers/auth.controller.ts:254-261 | a provider error is a 400 with its message; otherwise the neutral confirmation |
| AuthController.ResetPassword | src/controllers/auth.controller.ts:279-285 | an error is a 401 'Invalid or expired reset token'; otherwise a confirmation |
| App.AllowedOrigins | src/app.ts:18 | the configured origins split on ',', untrimmed; splitting loses nothing |
| App.CorsOrigin | src/app.ts:21-36 | refused exactly when the origin is non-empty, not a development localhost, and not a configured entry; a refusal is a plain error |
| App.OnlyListedOrigins | src/app.ts:30-35 | outside development, with comma-free entries, an origin passes exactly when it is listed |
| App.EntriesNotTrimmed | src/app.ts:18-30 | with 'a, b' configured, origin 'b' is refused |
| App.RefusedOriginReply | src/app.ts:35 | a refused origin is a 500 whose message is hidden in production |
| App.RouteNotFound | src/app.ts:90-97 | 404, `success: false`, message 'Route not found', no data, no `meta` |
| App.FallbackUnlikeErrorHandler | src/app.ts:90-97 | no thrown error produces the fallback reply, which has no timestamp |
| Pipeline.Parse | src/middleware/validator.ts:8-12 | resolves exactly when the schema accepts; otherwise Zod's issues |
| Pipeline.Finish | src/utils/response.ts:17-32 | a handler's reply succeeds exactly when the handler responded |
| Pipeline.StepOf | src/routes/v1/tour.routes.ts:33 | one stage: a gate that fails answers at once; the bearer gate attaches the principal; a handler ends the chain |
| Pipeline.Run | src/routes/v1/tour.routes.ts:30-50 | the stages that ran are a prefix of the route, at least one, and a handler is only ever last |
| Pipeline.Invoked | src/routes/v1/tour.routes.ts:30-50 | the handlers among the stages that ran |
| Pipeline.GatedRun | src/routes/v1/tour.routes.ts:33-35 | a bad admin key gives a 403 before validation; a rejected schema gives a 400 before the handler; otherwise the handler's reply |
| Pipeline.PublicRun | src/routes/v1/tour.routes.ts:30-31 | a rejected schema gives a 400 and the handler never runs; otherwise the handler sees the request as it came |
| Pipeline.ProtectedRun | src/routes/v1/auth.routes.ts:26-27 | a gate rejection ends the run; no bearer gives a 401; otherwise the handler sees `user` set |
| Pipeline.BareRun | src/routes/v1/auth.routes.ts:20 | a handler-only route always runs its handler |
| Pipeline.ReplyDependsOnGatesAndHandler | src/routes/v1/tour.routes.ts:30-50 | worlds that agree on the gates and the handlers give the same reply |
| Pipeline.HandlerRanAfterGates | src/routes/v1/tour.routes.ts:30-50 | whenever a handler ran, every stage before it called `next()`, each on the request passed on to it |
| Pipeline.HandlerOnlyAfterGates | src/routes/v1/tour.routes.ts:33-35 | when the admin gate fails, only it runs: no handler |
| Pipeline.FindRoute | src/routes/v1/tour.routes.ts:30-50 | the first route registered for the method and path, or none when no route matches |
| Pipeline.Dispatch | src/app.ts:90-97 | the matched route's reply, or the catch-all 404 |
| Pipeline.FindsOwnRoute | src/routes/v1/blog.routes.ts:15-21 | in a table without duplicates, a route's own method and path find it |
| Pipeline.TourRoutesShape | src/routes/v1/tour.routes.ts:30-50 | every GET is validate-then-handler; every other method is admin gate, validate, handler |
| Pipeline.BlogRoutesShape | src/routes/v1/blog.routes.ts:15-21 | the same split; DELETE reuses the id-only schema of GET `/:id` |
| Pipeline.AuthRoutesShape | src/routes/v1/auth.routes.ts:17-27 | no admin gate; only `/signout` and `/me` authenticate, without validation; `/google/url` is the handler alone |
| Pipeline.RoutersUnambiguous | src/routes/v1/auth.routes.ts:17-27 | no method and path is registered twice in any router |
| Pipeline.WritesRejectedBeforeValidation | src/routes/v1/blog.routes.ts:19-21 | any tour or blog write with a bad admin key is a 403, and only the gate ran |
| Pipeline.ReadsValidatedBeforeHandler | src/routes/v1/tour.routes.ts:30-46 | any tour or blog read its schema rejects is a 400, and no handler ran |
| Pipeline.RegionIssueText | src/validators/tour.validator.ts:13 | the region issue renders as 'body.region: ' followed by the region message |
| Pipeline.CreateTourRejected | src/routes/v1/tour.routes.ts:33 | an admin create whose body is refused is a 400 whose message is the joined issues |
| Pipeline.RegionIssueReported | src/routes/v1/tour.routes.ts:33 | that 400's message contains the region rule with its path |
| Pipeline.MeSeesPrincipal | src/routes/v1/auth.routes.ts:27 | `GET /me` with an accepted token runs the handler on the admitted principal |
| Pipeline.SignOutNeedsToken | src/routes/v1/auth.routes.ts:26 | `POST /signout` without a bearer token is a 401, and the handler never runs |

## Left out

- Store and identity provider: the queries themselves, row contents beyond what the handlers copy, and concurrency between requests. Their answers are inputs.
- Zod internals: a schema is a predicate in this model. The list of issues Zod reports, and their order, is an input; only the path and message of each issue are modelled.
- The schemas of `src/validators/auth.validator.ts`: that file is not part of this model. Whether those schemas accept a request is an input (`World.authAccepts`).
- `Pipeline.Run`: the handler stage's outcome is an input (`World.handle`). The controller functions model each handler on its store answers, but the two are not wired together.
- A collaborator call that throws inside a handler reaches the error handler unchanged. It is not modelled per handler.
- `Validator.ParseThrew`, a non-Zod throw while parsing, never arises from `Pipeline.Parse`; `Validator.Validate` still models it.
- `helmet`, `morgan`, the rate limiter, body parsing, the request logger and every `console` call are left out. None of them decides a reply in this model.
- The CORS response headers (`credentials`, methods, allowed and exposed headers, `maxAge`) are left out; only the origin decision is modelled.
- `src/index.ts`, `src/routes/index.ts`, `src/routes/v1/index.ts` and `src/routes/v1/docs.routes.ts` (server start-up, mounting, a static document) are left out.
- `src/routes/v1/index.ts` mounts only `/auth` and `/docs`, so the tour and blog routers are not reachable from `/api`. `Pipeline.Dispatch` is therefore modelled per router.
- `Http.Request.query` maps each parameter to a single string. Express's query parser can also give arrays or nested objects (`?page=1&page=2`); the list schemas refuse those, so no reply changes.
- Express's matching of a URL to a route pattern such as `/:id`, and its extraction of `req.params`, are left out: `Pipeline.FindRoute` compares patterns.
- Clocks: `new Date().toISOString()` is the `timestamp` parameter. `req.protocol` and `req.get('host')`, which only shape redirect URLs sent to the provider, are left out.
- JavaScript numbers are `real`s in `Json.JNum`. The tour's `duration_days` is taken as an integer (`Store.Single<int>`), and page, limit and count as natural numbers.
- `Pagination.NumberParam`: page and limit are assumed to be the digit strings the list schemas guarantee. The model does not cover `parseInt` on other text.
- Strings are sequences of `char`. There is no UTF-16 surrogate handling, so lengths count code points rather than UTF-16 units.
