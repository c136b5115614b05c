/** The schemas of `src/validators/blog.validator.ts`. */
module BlogSchemas {
  import opened Wrappers
  import opened Strings
  import opened Json
  import opened Http
  import opened Fields

  /** `z.string().regex(/^\d{4}-\d{2}-\d{2}$/).optional()`: the shape only, not a calendar date. */
  predicate OptionalDate(body: Record) {
    "publishedDate" !in body || (body["publishedDate"].JStr? && IsDateShape(body["publishedDate"].s))
  }

  /** `createBlogSchema`. */
  predicate CreateBlog(fmt: Formats, req: Request)
    ensures CreateBlog(fmt, req) ==>
              {"category", "coverImageUrl", "title", "shortDescription", "content", "authorName", "readingTimeMinutes"} <= req.body.Keys
  {
    var body := req.body;
    && "category" in body && IsString(body["category"], 1, None)
    && "coverImageUrl" in body && IsUrl(fmt, body["coverImageUrl"])
    && "title" in body && IsString(body["title"], 1, Some(300))
    && "shortDescription" in body && IsString(body["shortDescription"], 1, None)
    && "content" in body && IsString(body["content"], 1, None)
    && "authorName" in body && IsString(body["authorName"], 1, None)
    && OptionalDate(body)
    && "readingTimeMinutes" in body && IsIntAtLeast(body["readingTimeMinutes"], 1)
  }

  const UpdateBlogKeys: set<string> :=
    {"category", "coverImageUrl", "title", "shortDescription", "content", "authorName", "publishedDate", "readingTimeMinutes"}

  /** `updateBlogSchema`. */
  predicate UpdateBlog(fmt: Formats, req: Request)
    ensures UpdateBlog(fmt, req) ==> HasUuidId(fmt, req.params) && HasDeclaredKey(req.body, UpdateBlogKeys)
  {
    var body := req.body;
    && HasUuidId(fmt, req.params)
    && ("category" !in body || IsString(body["category"], 1, None))
    && ("coverImageUrl" !in body || IsUrl(fmt, body["coverImageUrl"]))
    && ("title" !in body || IsString(body["title"], 1, Some(300)))
    && ("shortDescription" !in body || IsString(body["shortDescription"], 1, None))
    && ("content" !in body || IsString(body["content"], 1, None))
    && ("authorName" !in body || IsString(body["authorName"], 1, None))
    && OptionalDate(body)
    && ("readingTimeMinutes" !in body || IsIntAtLeast(body["readingTimeMinutes"], 1))
    && HasDeclaredKey(body, UpdateBlogKeys)
  }

  /** `blogIdParamSchema`, used by get and delete. */
  predicate BlogId(fmt: Formats, req: Request) {
    HasUuidId(fmt, req.params)
  }

  /** `getBlogsSchema`: `category` is any string. */
  predicate GetBlogs(q: map<string, string>)
    ensures GetBlogs(q) ==> OptionalDigits(q, "page") && OptionalDigits(q, "limit")
  {
    OptionalDigits(q, "page") && OptionalDigits(q, "limit")
  }

  /** A date of the right shape passes though no such day exists. */
  lemma DateShapeOnly()
    ensures OptionalDate(map["publishedDate" := JStr("2024-13-45")])
    ensures !OptionalDate(map["publishedDate" := JStr("2024-1-5")])
  {
    var s := "2024-13-45";
    assert AllDigits(s[0..4]) && AllDigits(s[5..7]) && AllDigits(s[8..10]);
  }

  /** Reading time must be a positive integer. */
  lemma ReadingTimeIsPositiveInteger(fmt: Formats, req: Request)
    requires "readingTimeMinutes" in req.body
    requires req.body["readingTimeMinutes"] in {JNum(0.0), JNum(2.5), JStr("5")}
    ensures !CreateBlog(fmt, req) && !UpdateBlog(fmt, req)
  {
  }

  /** Any category text, empty included, passes the list query. */
  lemma AnyCategory(category: string)
    ensures GetBlogs(map["category" := category])
  {
  }
}
