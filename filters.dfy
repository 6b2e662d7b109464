/** internal/data/filters.go: query filters, their validation rule, the
    SQL offset/limit they give and the pagination metadata of a listing. */
module Filters {
  import opened GoStrings
  import opened Validator

  datatype Filters = Filters(page: int, pageSize: int, sort: string, sortSafeList: seq<string>)

  datatype PageMetadata = PageMetadata(currentPage: int, pageSize: int, firstPage: int, lastPage: int, totalRecords: int)

  /** The smallest integer at least a / b, for b > 0. */
  function CeilDiv(a: int, b: int): (r: int)
    requires b > 0
    ensures (r - 1) * b < a <= r * b
  {
    var q := (-a) / b;
    assert (-a) == b * q + (-a) % b;
    -q
  }

  /** CalculatePageMetadata; math.Ceil of the float quotient is the integer
      ceiling, exact while totalRecords stays below 2^53. */
  function CalculatePageMetadata(totalRecords: int, pageSize: int, currentPage: int): (m: PageMetadata)
    requires totalRecords == 0 || pageSize > 0
    ensures totalRecords == 0 ==> m == PageMetadata(0, 0, 0, 0, 0)
    ensures totalRecords != 0 ==>
              m.firstPage == 1 && m.currentPage == currentPage && m.pageSize == pageSize && m.totalRecords == totalRecords
    ensures totalRecords != 0 ==> (m.lastPage - 1) * pageSize < totalRecords <= m.lastPage * pageSize
    ensures totalRecords > 0 ==> m.lastPage >= 1
  {
    if totalRecords == 0 then PageMetadata(0, 0, 0, 0, 0)
    else
      var lastPage := CeilDiv(totalRecords, pageSize);
      assert totalRecords > 0 ==> lastPage >= 1;
      PageMetadata(currentPage, pageSize, 1, lastPage, totalRecords)
  }

  const PageMessage: string := "must be from (including) 1 upto (including) 10_000_000"
  const PageSizeMessage: string := "must be from (including) 1 upto (including) 100"

  function SortMessage(list: seq<string>): string {
    "must be a member of the following array: " + FormatList(list)
  }

  /** The error map after ValidateFilters. */
  function FiltersChecks(errors: map<string, string>, f: Filters): (r: map<string, string>)
    ensures forall k :: k in errors ==> k in r && r[k] == errors[k]
    ensures forall k :: k != "page" && k != "page_size" && k != "sort" ==> (k in r <==> k in errors)
    ensures "page" in r <==> "page" in errors || !(1 <= f.page <= 10_000_000)
    ensures "page_size" in r <==> "page_size" in errors || !(1 <= f.pageSize <= 100)
    ensures "sort" in r <==> "sort" in errors || f.sort !in f.sortSafeList
    ensures "page" !in errors && !(1 <= f.page <= 10_000_000) ==> r["page"] == PageMessage
    ensures "page_size" !in errors && !(1 <= f.pageSize <= 100) ==> r["page_size"] == PageSizeMessage
    ensures "sort" !in errors && f.sort !in f.sortSafeList ==> r["sort"] == SortMessage(f.sortSafeList)
  {
    var e1 := Checked(errors, f.page > 0 && f.page < 10_000_001, "page", PageMessage);
    var e2 := Checked(e1, f.pageSize > 0 && f.pageSize < 101, "page_size", PageSizeMessage);
    Checked(e2, PermittedValue(f.sort, f.sortSafeList), "sort", SortMessage(f.sortSafeList))
  }

  method ValidateFilters(v: Validator, f: Filters)
    modifies v
    ensures v.errors == FiltersChecks(old(v.errors), f)
  {
    v.Check(f.page > 0 && f.page < 10_000_001, "page", PageMessage);
    v.Check(f.pageSize > 0 && f.pageSize < 101, "page_size", PageSizeMessage);
    v.Check(PermittedValue(f.sort, f.sortSafeList), "sort", SortMessage(f.sortSafeList));
  }

  function Offset(f: Filters): int {
    (f.page - 1) * f.pageSize
  }

  function Limit(f: Filters): int {
    f.pageSize
  }

  /** Filters that pass validation give a non-negative offset that fits an
      int64 with room to spare, and a limit between 1 and 100. */
  lemma ValidatedBounds(errors: map<string, string>, f: Filters)
    requires "page" !in FiltersChecks(errors, f) && "page_size" !in FiltersChecks(errors, f)
    ensures 0 <= Offset(f) <= 9_999_999 * 100
    ensures 1 <= Limit(f) <= 100
  {
    assert 1 <= f.page <= 10_000_000 && 1 <= f.pageSize <= 100;
    assert (f.page - 1) * f.pageSize <= 9_999_999 * f.pageSize;
  }
}
