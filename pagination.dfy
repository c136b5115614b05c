/** The pagination arithmetic `getTours` and `getBlogs` share: the requested row range and
    the page count. */
module Pagination {
  import opened Wrappers
  import opened Strings
  import opened Json

  /** `parseInt(value ?? fallback, 10)` for a query value the schema has already checked
      against `/^\d+$/`. */
  function NumberParam(q: map<string, string>, key: string, fallback: string): nat
    requires key !in q || IsDigitString(q[key])
    requires IsDigitString(fallback)
  {
    if key in q then DecimalValue(q[key]) else DecimalValue(fallback)
  }

  /** `offset = (pageNum - 1) * limitNum`. */
  function Offset(page: int, limit: int): int {
    (page - 1) * limit
  }

  /** The last index of `.range(offset, offset + limitNum - 1)`. */
  function RangeEnd(page: int, limit: int): int {
    Offset(page, limit) + limit - 1
  }

  /** The requested range has exactly `limit` slots, and page `p + 1` starts right after
      page `p` ends. */
  lemma PagesTile(page: int, limit: int)
    ensures RangeEnd(page, limit) - Offset(page, limit) + 1 == limit
    ensures Offset(page + 1, limit) == RangeEnd(page, limit) + 1
  {
    assert (page + 1 - 1) * limit == (page - 1) * limit + limit;
  }

  /** `Math.ceil(total / limit)` for a positive `limit`. */
  function CeilDiv(total: nat, limit: nat): nat
    requires limit >= 1
  {
    (total + limit - 1) / limit
  }

  /** The page count covers the total and no more: a positive total ends on the last page,
      and no rows give no pages. */
  lemma {:induction false} CeilDivBounds(total: nat, limit: nat)
    requires limit >= 1
    ensures total == 0 ==> CeilDiv(total, limit) == 0
    ensures total > 0 ==> (CeilDiv(total, limit) - 1) * limit < total <= CeilDiv(total, limit) * limit
  {
    var q := (total + limit - 1) / limit;
    var r := (total + limit - 1) % limit;
    assert total + limit - 1 == q * limit + r && 0 <= r < limit;
    assert q * limit == total + limit - 1 - r;
    assert (q - 1) * limit == q * limit - limit;
    if total == 0 {
      assert 0 <= total + limit - 1 < limit;
    }
  }

  /** `totalPages` as it is serialised: with `limit = 0` the division gives NaN or Infinity,
      both of which `JSON.stringify` writes as `null`. */
  function TotalPages(total: nat, limit: nat): (v: Json)
    ensures limit == 0 ==> v == JNull
    ensures limit >= 1 ==> v == Int(CeilDiv(total, limit))
  {
    if limit == 0 then JNull else Int(CeilDiv(total, limit))
  }

  /** The `pagination` object of a list response. */
  function PaginationInfo(page: nat, limit: nat, count: Option<nat>): (v: Json)
    ensures v.JObj? && v.fields.Keys == {"page", "limit", "total", "totalPages"}
    ensures v.fields["page"] == Int(page) && v.fields["limit"] == Int(limit)
    ensures v.fields["total"] == Int(count.GetOr(0))
    ensures v.fields["totalPages"] == TotalPages(count.GetOr(0), limit)
  {
    JObj(map["page" := Int(page), "limit" := Int(limit), "total" := Int(count.GetOr(0)),
             "totalPages" := TotalPages(count.GetOr(0), limit)])
  }
}
