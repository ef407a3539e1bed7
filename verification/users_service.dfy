/** The pure part of the users service: the list query and the single-user
    view. A user's password hash and attempt state never leave the service. */
module UsersService {
  import opened Options
  import opened ListQuery
  import opened UserModel

  /** What the service shows of a user. */
  datatype UserView = UserView(id: string, name: string, email: string)

  /** The search keys the user list accepts, and the field each filters. */
  function UserFilter(search: string): (f: Filter)
    ensures var t := SearchTerms(search);
            f != MatchAll <==> t.key == "name" || t.key == "email"
    ensures f.CaseInsensitiveRegex? ==>
              f.field == SearchTerms(search).key && f.pattern == SearchTerms(search).pattern
  {
    var t := SearchTerms(search);
    if t.key == "name" then RegexOn("name", t)
    else if t.key == "email" then RegexOn("email", t)
    else MatchAll
  }

  function ProjectUser(u: Account): UserView {
    UserView(u.id, u.name, u.email)
  }

  /** The filter and sort handed to the store, and the page returned. */
  datatype UserListing = UserListing(filter: Filter, sort: SortSpec, page: Page<UserView>)

  /** `getUsers`: `rows` are what the store returned for the filter and sort. */
  function GetUsers(search: string, sort: Option<string>, pageNumber: Option<int>,
                    pageSize: Option<int>, rows: seq<Account>): (r: UserListing)
    ensures r.filter == UserFilter(search) && r.sort == ParseSort(sort)
    ensures r.page.count == |rows| == |r.page.data|
    ensures forall i | 0 <= i < |rows| ::
              r.page.data[i] == UserView(rows[i].id, rows[i].name, rows[i].email)
    ensures r.page.pageNumber == ResolvePageNumber(pageNumber)
    ensures r.page.pageSize == ResolvePageSize(pageSize, |rows|)
    ensures r.page.totalPages == TotalPages(|rows|, r.page.pageSize)
    ensures r.page.hasPreviousPage <==> r.page.pageNumber > 1
    ensures !r.page.hasNextPage <==> r.page.totalPages == Some(r.page.pageNumber)
  {
    UserListing(UserFilter(search), ParseSort(sort), Paginate(rows, ProjectUser, pageNumber, pageSize))
  }

  /** `getUser`: nothing for an unknown id, else the user's id, name and email. */
  function GetUser(user: Option<Account>): (r: Option<UserView>)
    ensures r.None? <==> user.None?
    ensures r.Some? ==> r.value.id == user.value.id && r.value.name == user.value.name
                        && r.value.email == user.value.email
  {
    match user
    case None => None
    case Some(u) => Some(ProjectUser(u))
  }

  /** Two stores whose users agree on id, name and email produce the same
      listing: the password hash and the attempt state cannot be observed
      through it. */
  lemma ListingHidesSecrets(search: string, sort: Option<string>, pageNumber: Option<int>,
                            pageSize: Option<int>, rows: seq<Account>, rows': seq<Account>)
    requires |rows| == |rows'|
    requires forall i | 0 <= i < |rows| ::
               rows[i].id == rows'[i].id && rows[i].name == rows'[i].name && rows[i].email == rows'[i].email
    ensures GetUsers(search, sort, pageNumber, pageSize, rows)
            == GetUsers(search, sort, pageNumber, pageSize, rows')
  {
  }

  /** `"name:<pattern>"` and `"email:<pattern>"` filter that field with the
      pattern; every other key, the empty one included, filters nothing. */
  lemma UserSearchByKey(key: string, pattern: string)
    requires ':' !in key && ':' !in pattern
    ensures UserFilter(key + ":" + pattern) ==
            if key == "name" || key == "email" then CaseInsensitiveRegex(key, Some(pattern)) else MatchAll
  {
    SearchOfKeyAndPattern(key, pattern);
  }
}
