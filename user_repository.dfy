/**
 * UserRepository: the users table and the listing query.
 *
 * The table is a map from user ID (the primary key) to the row. Create, GetByPhone
 * and GetByID read and write it directly. For List, the SQL text and arguments
 * are built exactly; running the statements is outside the model, so the count the
 * database returns and the rows of the requested page are parameters.
 */
module UserRepository {
  import opened Wrappers
  import opened StringOps
  import opened Decimal
  import opened UserModel

  /** The phone column is VARCHAR(20). */
  const PhoneMaxLength: nat := 20

  datatype RepoError =
    | Unavailable       // the database call failed
    | ValueTooLong      // a phone longer than the column
    | UniqueViolation   // the ID or the phone is already present

  /** The failing step of List, each wrapping the database error. */
  datatype ListError = CountFailed(cause: RepoError) | QueryFailed(cause: RepoError) | ScanFailed(cause: RepoError)

  // ---- pagination ----

  /** The page after clamping: at least 1, unchanged when already valid. */
  function NormalizePage(page: int): (p: int)
    ensures p >= 1
    ensures page >= 1 ==> p == page
    ensures page < 1 ==> p == 1
  {
    if page < 1 then 1 else page
  }

  /** The page size after clamping: 10 when below 1, 100 when above 100, else unchanged. */
  function NormalizeLimit(limit: int): (l: int)
    ensures 1 <= l <= 100
    ensures 1 <= limit <= 100 ==> l == limit
    ensures limit < 1 ==> l == 10
    ensures limit > 100 ==> l == 100
  {
    var l := if limit < 1 then 10 else limit;
    if l > 100 then 100 else l
  }

  /** Clamping an already clamped query changes nothing. */
  lemma {:induction false} NormalizeIdempotent(page: int, limit: int)
    ensures NormalizePage(NormalizePage(page)) == NormalizePage(page)
    ensures NormalizeLimit(NormalizeLimit(limit)) == NormalizeLimit(limit)
  {
  }

  /** Rows skipped before the page: a whole number of earlier pages. */
  function Offset(page: int, limit: int): (o: int)
    requires page >= 1 && limit >= 1
    ensures o >= 0
    ensures o + limit == page * limit
  {
    (page - 1) * limit
  }

  /** `(total + limit - 1) / limit` with Go's division, which truncates; the dividend is never
      negative here, so it agrees with Dafny's. */
  function TotalPages(total: nat, limit: int): nat
    requires limit >= 1
  {
    (total + limit - 1) / limit
  }

  /** The page count is the ceiling of total / limit: enough pages for every row, and no empty last page. */
  lemma {:induction false} TotalPagesIsCeiling(total: nat, limit: int)
    requires limit >= 1
    ensures TotalPages(total, limit) * limit >= total
    ensures total > 0 ==> (TotalPages(total, limit) - 1) * limit < total
    ensures total == 0 ==> TotalPages(total, limit) == 0
  {
    var n := TotalPages(total, limit);
    var d := total + limit - 1;
    assert d == n * limit + d % limit;
    assert d % limit < limit;
  }

  // ---- query text ----

  datatype SqlArg = TextArg(text: string) | IntArg(number: int)

  /** A statement sent to the database. */
  datatype Statement = Statement(sql: string, args: seq<SqlArg>)

  const BaseQuery: string := "\n\t\tSELECT id, phone, registered_at, created_at, updated_at\n\t\tFROM users\n\t"
  const OrderDesc: string := "ORDER BY registered_at DESC"
  const OrderAsc: string := "ORDER BY registered_at ASC"

  /** A positional parameter `$n`. */
  function Placeholder(n: nat): string {
    "$" + Format(n)
  }

  /** The search filter and its arguments: a WHERE clause on `$1` whose argument is the search
      wrapped in `%`, present exactly when the search text is non-empty. */
  function SearchFilter(search: string): (f: (string, seq<SqlArg>))
    ensures search == "" ==> f == ("", [])
    ensures search != "" ==> f.0 != "" && f.1 == [TextArg("%" + search + "%")]
  {
    if search != "" then ("WHERE phone ILIKE " + Placeholder(1), [TextArg("%" + search + "%")])
    else ("", [])
  }

  /** Ascending only when the sort text mentions both `registered_at` and `asc`; descending otherwise. */
  function OrderClause(sort: string): (o: string)
    ensures o == OrderAsc <==> Contains(sort, "registered_at") && Contains(sort, "asc")
    ensures o == OrderAsc || o == OrderDesc
  {
    if sort != "" && Contains(sort, "registered_at") && Contains(sort, "asc") then OrderAsc else OrderDesc
  }

  function CountStatement(search: string): Statement {
    var (whereClause, args) := SearchFilter(search);
    Statement("SELECT COUNT(*) FROM users " + whereClause, args)
  }

  /** The page query: LIMIT and OFFSET take the next two placeholders after the filter's. */
  function PageStatement(search: string, sort: string, page: int, limit: int): (st: Statement)
    requires page >= 1 && limit >= 1
    ensures |st.args| == |SearchFilter(search).1| + 2
    ensures st.args[|st.args| - 2..] == [IntArg(limit), IntArg(Offset(page, limit))]
  {
    var (whereClause, args) := SearchFilter(search);
    var argCount := |args| + 1;
    Statement(BaseQuery + " " + whereClause + " " + OrderClause(sort)
                + " LIMIT " + Placeholder(argCount) + " OFFSET " + Placeholder(argCount + 1),
              args + [IntArg(limit), IntArg(Offset(page, limit))])
  }

  /** The placeholders of the page query are numbered 1 to the number of arguments: the last two
      are LIMIT and OFFSET, and the highest equals the argument count. */
  lemma {:induction false} PlaceholdersMatchArgs(search: string, sort: string, page: int, limit: int)
    requires page >= 1 && limit >= 1
    ensures var st := PageStatement(search, sort, page, limit);
      var whereClause := SearchFilter(search).0;
      st.sql == BaseQuery + " " + whereClause + " " + OrderClause(sort)
                + " LIMIT " + Placeholder(|st.args| - 1) + " OFFSET " + Placeholder(|st.args|)
    ensures search != "" ==> SearchFilter(search).0 == "WHERE phone ILIKE " + Placeholder(1)
  {
  }

  /** The page of users handed back with its pagination. */
  datatype Pagination = Pagination(page: int, limit: int, total: int, totalPages: int)
  datatype UserListResponse = UserListResponse(users: seq<UserResponse>, pagination: Pagination)

  /** The list page projection of each fetched row, in order. */
  function Project(rows: seq<User>): (r: seq<UserResponse>)
    ensures |r| == |rows|
  {
    if rows == [] then [] else Project(rows[..|rows| - 1]) + [ToResponse(rows[|rows| - 1])]
  }

  lemma {:induction false} ProjectAt(rows: seq<User>, i: nat)
    requires i < |rows|
    ensures Project(rows)[i] == ToResponse(rows[i])
  {
    if i < |rows| - 1 {
      ProjectAt(rows[..|rows| - 1], i);
    }
  }

  /** Scanning the fetched rows: each one is projected and appended, in order. */
  method ScanRows(rows: seq<User>) returns (users: seq<UserResponse>)
    ensures |users| == |rows|
    ensures forall i :: 0 <= i < |rows| ==> users[i] == ToResponse(rows[i])
    ensures users == Project(rows)
  {
    users := [];
    var i := 0;
    while i < |rows|
      invariant 0 <= i <= |rows|
      invariant users == Project(rows[..i])
    {
      assert rows[..i + 1][..i] == rows[..i];
      users := users + [ToResponse(rows[i])];
      i := i + 1;
    }
    assert rows[..|rows|] == rows;
    forall j | 0 <= j < |rows|
      ensures users[j] == ToResponse(rows[j])
    {
      ProjectAt(rows, j);
    }
  }

  /** Which database round trips of one List call fail. */
  datatype ListFaults = ListFaults(count: bool, query: bool, scan: bool)

  /** UserQuery, which List updates in place. */
  class UserQuery {
    var page: int
    var limit: int
    var search: string
    var sort: string

    constructor (page: int, limit: int, search: string, sort: string)
      ensures this.page == page && this.limit == limit && this.search == search && this.sort == sort
    {
      this.page := page;
      this.limit := limit;
      this.search := search;
      this.sort := sort;
    }
  }

  type Table = map<string, User>

  /** Some row of the table has this phone. */
  predicate HasPhone(rows: Table, phone: string) {
    exists id | id in rows :: rows[id].phone == phone
  }

  /** The table's constraints: each row is stored under its own ID, and no two rows share a phone. */
  ghost predicate WellFormed(rows: Table) {
    && (forall id :: id in rows ==> rows[id].id == id)
    && (forall a, b :: a in rows && b in rows && rows[a].phone == rows[b].phone ==> a == b)
  }

  /** Why an INSERT of `u` fails, if it does: a failed call, a phone longer than the column,
      or a primary-key or unique-phone collision. */
  function InsertError(rows: Table, u: User, fault: bool): (e: Option<RepoError>)
    ensures e.None? <==> !fault && |u.phone| <= PhoneMaxLength && u.id !in rows && !HasPhone(rows, u.phone)
  {
    if fault then Some(Unavailable)
    else if |u.phone| > PhoneMaxLength then Some(ValueTooLong)
    else if u.id in rows || HasPhone(rows, u.phone) then Some(UniqueViolation)
    else None
  }

  /** An insert that succeeds keeps the constraints and adds exactly one row. */
  lemma {:induction false} InsertKeepsConstraints(rows: Table, u: User, fault: bool)
    requires WellFormed(rows) && InsertError(rows, u, fault).None?
    ensures WellFormed(rows[u.id := u])
    ensures |rows[u.id := u]| == |rows| + 1
  {
    var rows' := rows[u.id := u];
    forall a, b | a in rows' && b in rows' && rows'[a].phone == rows'[b].phone
      ensures a == b
    {
      if a == u.id && b != u.id {
        assert false;
      } else if b == u.id && a != u.id {
        assert false;
      }
    }
  }

  /** A users table with its primary key on ID and its unique phone column. */
  class UserRepository {
    var rows: Table

    ghost predicate Valid()
      reads this
    {
      WellFormed(rows)
    }

    constructor ()
      ensures Valid() && rows == map[]
    {
      rows := map[];
    }

    /** Some row has this phone. */
    predicate PhoneTaken(phone: string)
      reads this
    {
      HasPhone(rows, phone)
    }

    /** Create: INSERT one row; an over-long phone or a taken ID or phone is refused and changes nothing. */
    method Create(u: User, fault: bool) returns (err: Option<RepoError>)
      requires Valid()
      modifies this
      ensures Valid()
      ensures err == InsertError(old(rows), u, fault)
      ensures rows == if err.None? then old(rows)[u.id := u] else old(rows)
    {
      if fault {
        return Some(Unavailable);
      }
      if |u.phone| > PhoneMaxLength {
        return Some(ValueTooLong);
      }
      if u.id in rows || PhoneTaken(u.phone) {
        return Some(UniqueViolation);
      }
      rows := rows[u.id := u];
      err := None;
    }

    /** GetByPhone: the row with this phone, or no user (not an error) when there is none. */
    method GetByPhone(phone: string, fault: bool) returns (r: Result<Option<User>, RepoError>)
      requires Valid()
      ensures fault ==> r == Err(Unavailable)
      ensures !fault ==> r.Ok? && (r.value.Some? <==> PhoneTaken(phone))
      ensures r.Ok? && r.value.Some? ==>
        var u := r.value.value; u.id in rows && rows[u.id] == u && u.phone == phone
    {
      if fault {
        return Err(Unavailable);
      }
      if PhoneTaken(phone) {
        var id :| id in rows && rows[id].phone == phone;
        return Ok(Some(rows[id]));
      }
      r := Ok(None);
    }

    /** GetByID: the row with this ID, or no user (not an error) when there is none. */
    method GetByID(id: string, fault: bool) returns (r: Result<Option<User>, RepoError>)
      requires Valid()
      ensures fault ==> r == Err(Unavailable)
      ensures !fault ==> r.Ok? && (r.value.Some? <==> id in rows)
      ensures r.Ok? && r.value.Some? ==> id in rows && r.value.value == rows[id] && r.value.value.id == id
    {
      if fault {
        return Err(Unavailable);
      }
      if id in rows {
        return Ok(Some(rows[id]));
      }
      r := Ok(None);
    }

    /**
     * List: count the matching rows, clamp the query in place, fetch the page and project it.
     * `total` is what the count statement returns and `fetched` the rows of the page statement.
     */
    method List(query: UserQuery, faults: ListFaults, total: nat, fetched: seq<User>)
      returns (r: Result<UserListResponse, ListError>, executed: seq<Statement>)
      modifies query
      ensures query.search == old(query.search) && query.sort == old(query.sort)
      ensures faults.count ==> r == Err(CountFailed(Unavailable)) && executed == [CountStatement(query.search)]
                               && query.page == old(query.page) && query.limit == old(query.limit)
      ensures !faults.count ==> query.page == NormalizePage(old(query.page))
                                && query.limit == NormalizeLimit(old(query.limit))
                                && executed == [CountStatement(query.search),
                                                PageStatement(query.search, query.sort, query.page, query.limit)]
      ensures !faults.count && faults.query ==> r == Err(QueryFailed(Unavailable))
      ensures !faults.count && !faults.query && faults.scan ==> r == Err(ScanFailed(Unavailable))
      ensures !faults.count && !faults.query && !faults.scan ==>
        r == Ok(UserListResponse(Project(fetched),
                                 Pagination(query.page, query.limit, total, TotalPages(total, query.limit))))
    {
      var (whereClause, args) := SearchFilter(query.search);
      var orderBy := OrderClause(query.sort);
      var countStatement := Statement("SELECT COUNT(*) FROM users " + whereClause, args);
      executed := [countStatement];
      if faults.count {
        return Err(CountFailed(Unavailable)), executed;
      }
      if query.page < 1 {
        query.page := 1;
      }
      if query.limit < 1 {
        query.limit := 10;
      }
      if query.limit > 100 {
        query.limit := 100;
      }
      var offset := (query.page - 1) * query.limit;
      var totalPages := (total + query.limit - 1) / query.limit;
      var argCount := |args| + 1;
      var finalQuery := BaseQuery + " " + whereClause + " " + orderBy
                        + " LIMIT " + Placeholder(argCount) + " OFFSET " + Placeholder(argCount + 1);
      executed := executed + [Statement(finalQuery, args + [IntArg(query.limit), IntArg(offset)])];
      if faults.query {
        return Err(QueryFailed(Unavailable)), executed;
      }
      if faults.scan {
        return Err(ScanFailed(Unavailable)), executed;
      }
      var users := ScanRows(fetched);
      r := Ok(UserListResponse(users, Pagination(query.page, query.limit, total, totalPages)));
    }
  }
}
