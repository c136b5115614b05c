/** The decisions of `BlogController` (`src/controllers/blog.controller.ts`) around its store
    calls. */
module BlogController {
  import opened Wrappers
  import opened Strings
  import opened Json
  import opened Errors
  import opened Http
  import opened Store
  import opened Pagination
  import opened Fields

  /** The eleven columns `mapBlogRow` copies and the API names it copies them to. */
  const BlogRowFields: seq<Field> := [
    Field("id", "id"), Field("category", "category"), Field("coverImageUrl", "cover_image_url"),
    Field("title", "title"), Field("shortDescription", "short_description"),
    Field("content", "content"), Field("authorName", "author_name"),
    Field("publishedDate", "published_date"), Field("readingTimeMinutes", "reading_time_minutes"),
    Field("createdAt", "created_at"), Field("updatedAt", "updated_at")]

  /** The eight fields `createBlog` inserts and `updateBlog` may patch, in the source's order. */
  const BlogWriteFields: seq<Field> := [
    Field("category", "category"), Field("coverImageUrl", "cover_image_url"),
    Field("title", "title"), Field("shortDescription", "short_description"),
    Field("content", "content"), Field("authorName", "author_name"),
    Field("publishedDate", "published_date"), Field("readingTimeMinutes", "reading_time_minutes")]

  lemma BlogRowNamesDistinct()
    ensures DistinctNames(BlogRowFields)
  {
    assert NamesDistinctFrom(BlogRowFields, 0);
    NamesPairwise(BlogRowFields, 0);
  }

  lemma BlogWriteColumnsDistinct()
    ensures DistinctColumns(BlogWriteFields)
  {
    assert ColumnsDistinctFrom(BlogWriteFields, 0);
    ColumnsPairwise(BlogWriteFields, 0);
  }

  /** `mapBlogRow`. */
  function MapBlogRow(row: Record): Json {
    JObj(FromColumns(row, BlogRowFields))
  }

  /** `mapBlogRow` copies each of the eleven columns the row has to its API name with its
      value unchanged, and adds nothing else. */
  lemma MapBlogRowCopies(row: Record)
    ensures MapBlogRow(row).JObj?
    ensures forall i :: 0 <= i < |BlogRowFields| && BlogRowFields[i].snake in row ==>
      BlogRowFields[i].camel in MapBlogRow(row).fields && MapBlogRow(row).fields[BlogRowFields[i].camel] == row[BlogRowFields[i].snake]
    ensures forall c :: c in MapBlogRow(row).fields ==> exists i :: 0 <= i < |BlogRowFields| && BlogRowFields[i].camel == c
  {
    BlogRowNamesDistinct();
    FromColumnsSpec(row, BlogRowFields);
  }

  function BlogPayload(row: Record): Json {
    JObj(map["blog" := MapBlogRow(row)])
  }

  /** The filters `getBlogs` adds: `category` only when it is a non-empty string. */
  function BlogFilters(q: map<string, string>): seq<Filter> {
    if "category" in q && q["category"] != "" then [Eq("category", JStr(q["category"]))] else []
  }

  /** `getBlogs` building its query: the category filter, newest published first, then the
      page's range. */
  method BuildBlogsQuery(q: map<string, string>) returns (query: ListQuery)
    requires OptionalDigits(q, "page") && OptionalDigits(q, "limit")
    ensures query.filters == BlogFilters(q)
    ensures query.range == Some((Offset(NumberParam(q, "page", "1"), NumberParam(q, "limit", "10")),
                                 RangeEnd(NumberParam(q, "page", "1"), NumberParam(q, "limit", "10"))))
    ensures query.order == Some(("published_date", false))
  {
    var pageNum: int := NumberParam(q, "page", "1");
    var limitNum: int := NumberParam(q, "limit", "10");
    var offset: int := (pageNum - 1) * limitNum;
    query := ListQuery([], None, None);
    if "category" in q && q["category"] != "" {
      query := query.(filters := query.filters + [Eq("category", JStr(q["category"]))]);
    }
    query := query.(order := Some(("published_date", false)));
    query := query.(range := Some((offset, offset + limitNum - 1)));
  }

  /** An empty `category` filters nothing: it is falsy in JavaScript. */
  lemma EmptyCategoryIgnored(q: map<string, string>)
    requires "category" in q && q["category"] == ""
    ensures BlogFilters(q) == []
    ensures BlogFilters(q["category" := "Trekking"]) == [Eq("category", JStr("Trekking"))]
  {
  }

  /** `getBlogs` after its list query: a store error is a 500 'Failed to fetch blogs';
      otherwise every row, mapped, in the order given, with the page's pagination object. */
  function BlogsOutcome(page: nat, limit: nat, result: Listing): (r: HandlerResult)
    ensures result.ListFailed? ==> r == Throw(NewInternalError(Some("Failed to fetch blogs")))
    ensures result.Listed? ==> r.Respond? && r.status == 200 && r.data.JObj?
    ensures result.Listed? ==> r.data.fields.Keys == {"blogs", "pagination"}
    ensures result.Listed? ==> r.data.fields["pagination"] == PaginationInfo(page, limit, result.count)
    ensures result.Listed? ==> r.data.fields["blogs"].JArr? && |r.data.fields["blogs"].items| == |result.rows.GetOr([])|
    ensures result.Listed? ==> forall i :: 0 <= i < |result.rows.GetOr([])| ==>
      r.data.fields["blogs"].items[i] == MapBlogRow(result.rows.GetOr([])[i])
  {
    match result
    case ListFailed(_) => Throw(NewInternalError(Some("Failed to fetch blogs")))
    case Listed(rows, count) =>
      var all := rows.GetOr([]);
      Respond(200, JObj(map[
        "blogs" := JArr(seq(|all|, i requires 0 <= i < |all| => MapBlogRow(all[i]))),
        "pagination" := PaginationInfo(page, limit, count)]))
  }

  /** `getBlog`: any store error and a missing row are the same 404 'Blog not found'. */
  function BlogOutcome(result: Single<Record>): (r: HandlerResult)
    ensures !result.Found? ==> r == Throw(NewNotFoundError(Some("Blog not found")))
    ensures result.Found? ==> r == Respond(200, BlogPayload(result.row))
  {
    if result.Found? then Respond(200, BlogPayload(result.row))
    else Throw(NewNotFoundError(Some("Blog not found")))
  }

  /** The body `createBlog` reads `publishedDate` from: `publishedDate ?? undefined` turns a
      null into an absent field. */
  function WithoutNullDate(body: Record): Record {
    if "publishedDate" in body && body["publishedDate"] == JNull then body - {"publishedDate"} else body
  }

  /** The insert `createBlog` sends. */
  function CreateBlogInsert(body: Record): Record {
    ToColumns(WithoutNullDate(body), BlogWriteFields)
  }

  /** An absent or null `publishedDate` is left out of the insert, so the store's own default
      date applies; a given one is sent as it is; the other fields are copied unchanged. */
  lemma CreateBlogInsertFields(body: Record)
    ensures ("publishedDate" !in body || body["publishedDate"] == JNull) ==> "published_date" !in CreateBlogInsert(body)
    ensures "publishedDate" in body && body["publishedDate"] != JNull ==>
      "published_date" in CreateBlogInsert(body) && CreateBlogInsert(body)["published_date"] == body["publishedDate"]
    ensures forall i :: 0 <= i < |BlogWriteFields| && BlogWriteFields[i].camel in body && BlogWriteFields[i].camel != "publishedDate" ==>
      BlogWriteFields[i].snake in CreateBlogInsert(body) && CreateBlogInsert(body)[BlogWriteFields[i].snake] == body[BlogWriteFields[i].camel]
  {
    BlogWriteColumnsDistinct();
    ToColumnsSpec(WithoutNullDate(body), BlogWriteFields);
    assert BlogWriteFields[6] == Field("publishedDate", "published_date");
  }

  /** `createBlog` after its insert: an error is a 400 with the store's message, no row a 500,
      and a row a 201 with the mapped blog. */
  function CreateBlogOutcome(result: Single<Record>): (r: HandlerResult)
    ensures result.Failed? ==> r == Throw(NewValidationError(result.err.message))
    ensures result.Missing? ==> r == Throw(NewInternalError(Some("Failed to create blog")))
    ensures result.Found? ==> r == Respond(201, BlogPayload(result.row))
  {
    match result
    case Failed(err) => Throw(NewValidationError(err.message))
    case Missing => Throw(NewInternalError(Some("Failed to create blog")))
    case Found(row) => Respond(201, BlogPayload(row))
  }

  /** `updateBlog` filling its patch field by field, in the order of the table. */
  method BuildBlogPatch(body: Record) returns (dbPatch: Record)
    ensures dbPatch == ToColumns(body, BlogWriteFields)
  {
    dbPatch := map[];
    if "category" in body { dbPatch := dbPatch["category" := body["category"]]; }
    assert dbPatch == ToColumnsUpTo(body, BlogWriteFields, 1);
    if "coverImageUrl" in body { dbPatch := dbPatch["cover_image_url" := body["coverImageUrl"]]; }
    assert dbPatch == ToColumnsUpTo(body, BlogWriteFields, 2);
    if "title" in body { dbPatch := dbPatch["title" := body["title"]]; }
    assert dbPatch == ToColumnsUpTo(body, BlogWriteFields, 3);
    if "shortDescription" in body { dbPatch := dbPatch["short_description" := body["shortDescription"]]; }
    assert dbPatch == ToColumnsUpTo(body, BlogWriteFields, 4);
    if "content" in body { dbPatch := dbPatch["content" := body["content"]]; }
    assert dbPatch == ToColumnsUpTo(body, BlogWriteFields, 5);
    if "authorName" in body { dbPatch := dbPatch["author_name" := body["authorName"]]; }
    assert dbPatch == ToColumnsUpTo(body, BlogWriteFields, 6);
    if "publishedDate" in body { dbPatch := dbPatch["published_date" := body["publishedDate"]]; }
    assert dbPatch == ToColumnsUpTo(body, BlogWriteFields, 7);
    if "readingTimeMinutes" in body { dbPatch := dbPatch["reading_time_minutes" := body["readingTimeMinutes"]]; }
    assert dbPatch == ToColumnsUpTo(body, BlogWriteFields, 8);
  }

  /** The patch holds exactly the defined fields, renamed to columns with their values
      unchanged, and nothing else. */
  lemma BlogPatchExact(body: Record)
    ensures forall i :: 0 <= i < |BlogWriteFields| && BlogWriteFields[i].camel in body ==>
      BlogWriteFields[i].snake in ToColumns(body, BlogWriteFields) && ToColumns(body, BlogWriteFields)[BlogWriteFields[i].snake] == body[BlogWriteFields[i].camel]
    ensures forall c :: c in ToColumns(body, BlogWriteFields) ==>
      exists i :: 0 <= i < |BlogWriteFields| && BlogWriteFields[i].snake == c && BlogWriteFields[i].camel in body
  {
    BlogWriteColumnsDistinct();
    ToColumnsSpec(body, BlogWriteFields);
  }

  /** `updateBlog` after its update: 'PGRST116' is a 404 'Blog not found'; any other error is
      a 400 with the store's message even when that message is empty (`??`, unlike the `||`
      of `updateTour`), and no row is a 400 'Failed to update blog'. */
  function UpdateBlogOutcome(result: Single<Record>): (r: HandlerResult)
    ensures result.Failed? && result.err.code == NoRowCode ==> r == Throw(NewNotFoundError(Some("Blog not found")))
    ensures result.Failed? && result.err.code != NoRowCode ==> r == Throw(NewValidationError(result.err.message))
    ensures result.Missing? ==> r == Throw(NewValidationError("Failed to update blog"))
    ensures result.Found? ==> r == Respond(200, BlogPayload(result.row))
  {
    match result
    case Found(row) => Respond(200, BlogPayload(row))
    case Missing => Throw(NewValidationError("Failed to update blog"))
    case Failed(err) =>
      if err.code == NoRowCode then Throw(NewNotFoundError(Some("Blog not found")))
      else Throw(NewValidationError(err.message))
  }

  /** `deleteBlog`: an error is a 500 with the store's raw message; a count that is missing
      or 0 is a 404 'Blog not found'; any other count is success. */
  function DeleteBlogOutcome(result: Deletion): (r: HandlerResult)
    ensures result.DeleteFailed? ==> r == Throw(NewInternalError(Some(result.err.message)))
    ensures result.Deleted? && result.count in {None, Some(0)} ==> r == Throw(NewNotFoundError(Some("Blog not found")))
    ensures result.Deleted? && result.count !in {None, Some(0)} ==>
      r == Respond(200, JObj(map["message" := JStr("Blog deleted successfully")]))
  {
    match result
    case DeleteFailed(err) => Throw(NewInternalError(Some(err.message)))
    case Deleted(count) =>
      if count == None || count == Some(0) then Throw(NewNotFoundError(Some("Blog not found")))
      else Respond(200, JObj(map["message" := JStr("Blog deleted successfully")]))
  }
}
