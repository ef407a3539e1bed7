/** The pure part of the three list endpoints (users, purchases, products):
    reading the `sort` and `search` query strings, defaulting the page number
    and page size, and computing the pagination metadata that accompanies the
    returned rows. The store query itself is left out: the rows it returns are
    an input, and the filter and sort it is given are plain data. */
module ListQuery {
  import opened Options
  import opened Segments

  /** The sort object: empty, or one key `{field: direction}`. The direction
      is passed on unvalidated, so it is any text, not only `"asc"` or
      `"desc"`. */
  datatype SortSpec = Unsorted | SortBy(field: string, direction: string)

  /** The one key whose assignment on a plain object does not add a property:
      the `__proto__` setter ignores a string value. */
  const ProtoKey := "__proto__"

  /** The store filter built from a search string: either `{}`, or a
      case-insensitive regular expression on one field. The pattern is absent
      (`undefined`) when the search string had no `:`. */
  datatype Filter = MatchAll | CaseInsensitiveRegex(field: string, pattern: Option<string>)

  /** The two pieces of a search string the services look at. */
  datatype SearchTerm = SearchTerm(key: string, pattern: Option<string>)

  /** Pagination metadata and the projected rows. `totalPages` is `None` when
      the division that produces it has no finite result (`NaN`). */
  datatype Page<T> = Page(
    pageNumber: int,
    pageSize: int,
    count: nat,
    totalPages: Option<int>,
    hasPreviousPage: bool,
    hasNextPage: bool,
    data: seq<T>)

  /** JavaScript truthiness of an optional string: absent and `""` are falsy. */
  predicate IsTruthy(s: Option<string>) {
    s.Some? && s.value != ""
  }

  /** The sort object for a `sort` query string `"field:direction"`. A falsy
      string is used as the key itself (`undefined` becomes the key
      `"undefined"`) with direction `"asc"`. Otherwise the key is the text before
      the first `:`, and the direction is the text between the first and second
      `:` when that text is non-empty, else `"asc"`; later pieces are ignored.
      Assigning to the key `__proto__` leaves the object empty. */
  function ParseSort(sort: Option<string>): (r: SortSpec)
    ensures IsTruthy(sort) ==> (r.Unsorted? <==> IsLeadingSegment(sort.value, ProtoKey, ':'))
    ensures IsTruthy(sort) && r.SortBy? ==> IsLeadingSegment(sort.value, r.field, ':')
    ensures IsTruthy(sort) && r.SortBy? ==>
              var s := sort.value;
              if |r.field| + 1 < |s| && s[|r.field| + 1] != ':'
              then IsLeadingSegment(s[|r.field| + 1..], r.direction, ':')
              else r.direction == "asc"
    ensures !IsTruthy(sort) ==> r.SortBy? && r.direction == "asc"
    ensures sort.None? ==> r.field == "undefined"
    ensures sort == Some("") ==> r.field == ""
  {
    if IsTruthy(sort) then
      var s := sort.value;
      var sorts := Split(s, ':');
      SplitHead(s, ':');
      if IsLeadingSegment(s, ProtoKey, ':') then
        LeadingSegmentUnique(s, ProtoKey, sorts[0], ':');
        Unsorted
      else if |sorts| > 1 then
        SplitHead(s[|sorts[0]| + 1..], ':');
        SortBy(sorts[0], if sorts[1] != "" then sorts[1] else "asc")
      else
        SortBy(sorts[0], "asc")
    else
      SortBy(if sort.None? then "undefined" else "", "asc")
  }

  /** `"field:direction"` followed by any further pieces sorts on `field` in
      `direction`, the empty field included; the further pieces are ignored.
      The field `__proto__` gives no sort at all. */
  lemma ParseSortFieldDirection(parts: seq<string>)
    requires |parts| >= 2 && parts[1] != ""
    requires forall i | 0 <= i < |parts| :: ':' !in parts[i]
    ensures ParseSort(Some(Join(parts, ':'))) ==
            if parts[0] == ProtoKey then Unsorted else SortBy(parts[0], parts[1])
  {
    SplitJoin(parts, ':');
    var s := Join(parts, ':');
    assert |s| > 0 by {
      assert s == parts[0] + [':'] + Join(parts[1..], ':');
    }
    ParseSortBySplit(s);
  }

  lemma ParseSortBySplit(s: string)
    requires s != ""
    ensures var sorts := Split(s, ':');
            ParseSort(Some(s)) ==
            if sorts[0] == ProtoKey then Unsorted
            else SortBy(sorts[0], if |sorts| > 1 && sorts[1] != "" then sorts[1] else "asc")
  {
    SplitHead(s, ':');
    var sorts := Split(s, ':');
    if IsLeadingSegment(s, ProtoKey, ':') {
      LeadingSegmentUnique(s, ProtoKey, sorts[0], ':');
    }
  }

  /** A sort string with no direction, or with an empty one, sorts ascending,
      the empty field included; the field `__proto__` gives no sort at all. */
  lemma ParseSortDefaultsToAscending(field: string, trailingColon: bool)
    requires ':' !in field
    ensures ParseSort(Some(if trailingColon then field + ":" else field)) ==
            if field == ProtoKey then Unsorted else SortBy(field, "asc")
  {
    if trailingColon {
      SplitJoin([field, ""], ':');
      assert Join([field, ""], ':') == field + ":";
      ParseSortBySplit(field + ":");
    } else if field != "" {
      SplitSeparatorFree(field, ':');
      ParseSortBySplit(field);
    }
  }

  /** The key (text before the first `:`) and the pattern (text between the
      first and second `:`, absent when there is no `:`) of a search string. */
  function SearchTerms(search: string): (r: SearchTerm)
    ensures IsLeadingSegment(search, r.key, ':')
    ensures r.pattern.None? <==> ':' !in search
    ensures r.pattern.Some? ==> IsLeadingSegment(search[|r.key| + 1..], r.pattern.value, ':')
  {
    var parts := Split(search, ':');
    SplitHead(search, ':');
    if |parts| > 1 then
      SplitHead(search[|parts[0]| + 1..], ':');
      SearchTerm(parts[0], Some(parts[1]))
    else
      SearchTerm(parts[0], None)
  }

  /** `"key:pattern"` (with no further `:`) reads as that key and pattern. */
  lemma SearchOfKeyAndPattern(key: string, pattern: string)
    requires ':' !in key && ':' !in pattern
    ensures SearchTerms(key + ":" + pattern) == SearchTerm(key, Some(pattern))
  {
    SplitJoin([key, pattern], ':');
    assert Join([key, pattern], ':') == key + ":" + pattern;
  }

  /** A case-insensitive regex filter on `field` using the search pattern. */
  function RegexOn(field: string, term: SearchTerm): Filter {
    CaseInsensitiveRegex(field, term.pattern)
  }

  /** The page size actually reported: a missing (`NaN`) or zero page size
      becomes the number of rows returned; any other value, negative ones
      included, is kept. */
  function ResolvePageSize(pageSize: Option<int>, rowCount: nat): (r: int)
    ensures pageSize.Some? && pageSize.value != 0 ==> r == pageSize.value
    ensures pageSize.None? || pageSize.value == 0 ==> r == rowCount
    ensures r == 0 ==> rowCount == 0
  {
    if pageSize.None? || pageSize.value == 0 then rowCount else pageSize.value
  }

  /** The page number actually reported: a missing (`NaN`) or zero page number
      becomes 1; any other value, negative ones included, is kept. */
  function ResolvePageNumber(pageNumber: Option<int>): (r: int)
    ensures r != 0
    ensures pageNumber.Some? && pageNumber.value != 0 ==> r == pageNumber.value
    ensures pageNumber.None? || pageNumber.value == 0 ==> r == 1
  {
    if pageNumber.None? || pageNumber.value == 0 then 1 else pageNumber.value
  }

  /** `Math.ceil(count / pageSize)`: the least integer not below the quotient.
      Dividing by zero gives `NaN` or `Infinity`, neither of which is a finite
      page count. */
  function TotalPages(count: nat, pageSize: int): (r: Option<int>)
    ensures r.None? <==> pageSize == 0
    ensures pageSize > 0 ==> (r.value - 1) * pageSize < count <= r.value * pageSize
    ensures pageSize < 0 ==> r.value * pageSize <= count < (r.value - 1) * pageSize
  {
    if pageSize == 0 then None
    else if pageSize > 0 then
      Some((count + pageSize - 1) / pageSize)
    else
      Some(-(count / -pageSize))
  }

  /** There is a previous page exactly when the page number exceeds 1. */
  function HasPreviousPage(pageNumber: int): (r: bool)
    ensures r <==> pageNumber > 1
  {
    if pageNumber > 1 then true
    else if pageNumber == 1 then false
    else false
  }

  /** There is a next page unless the page number equals the page count; a page
      count with no finite value never equals a page number. */
  function HasNextPage(pageNumber: int, totalPages: Option<int>): (r: bool)
    ensures !r <==> totalPages == Some(pageNumber)
  {
    if totalPages.Some? && pageNumber == totalPages.value then false
    else true
  }

  /** The rows projected one by one, in order. */
  function ProjectAll<R, V>(rows: seq<R>, project: R -> V): (data: seq<V>)
    ensures |data| == |rows|
    ensures forall i | 0 <= i < |rows| :: data[i] == project(rows[i])
  {
    if |rows| == 0 then []
    else [project(rows[0])] + ProjectAll(rows[1..], project)
  }

  /** The result object of a list endpoint, built from the rows the store
      returned and the page parameters as they arrived (`None` for `NaN`). */
  function Paginate<R, V>(rows: seq<R>, project: R -> V,
                          pageNumber: Option<int>, pageSize: Option<int>): (p: Page<V>)
    ensures p.count == |rows| == |p.data|
    ensures forall i | 0 <= i < |rows| :: p.data[i] == project(rows[i])
    ensures p.pageNumber == ResolvePageNumber(pageNumber)
    ensures p.pageSize == ResolvePageSize(pageSize, |rows|)
    ensures p.totalPages == TotalPages(|rows|, p.pageSize)
    ensures p.hasPreviousPage <==> p.pageNumber > 1
    ensures !p.hasNextPage <==> p.totalPages == Some(p.pageNumber)
  {
    var size := ResolvePageSize(pageSize, |rows|);
    var number := ResolvePageNumber(pageNumber);
    var total := TotalPages(|rows|, size);
    Page(number, size, |rows|, total,
         HasPreviousPage(number), HasNextPage(number, total),
         ProjectAll(rows, project))
  }

  /** With neither page parameter given and at least one row, everything is one
      page: page 1 of 1, with no previous and no next page. */
  lemma DefaultPagingIsOnePage<R, V>(rows: seq<R>, project: R -> V)
    requires |rows| > 0
    ensures var p := Paginate(rows, project, None, None);
            p.pageNumber == 1 && p.pageSize == |rows| && p.totalPages == Some(1)
            && !p.hasPreviousPage && !p.hasNextPage
  {
  }

  /** With no rows and no usable page size, the page count is `NaN`, and so the
      response claims a next page although there is nothing to show. */
  lemma EmptyDefaultPagingClaimsNextPage<R, V>(project: R -> V, pageNumber: Option<int>, pageSize: Option<int>)
    requires pageSize.None? || pageSize == Some(0)
    ensures var p := Paginate([], project, pageNumber, pageSize);
            p.totalPages.None? && p.hasNextPage && p.data == []
  {
  }
}
