/** UserService: lookup by ID with its not-found convention, and listing with the query clamped first. */
module UserService {
  import opened Wrappers
  import opened UserModel
  import opened UserRepository

  datatype ServiceError =
    | GetFailed(cause: RepoError)      // "failed to get user: ..."
    | UserNotFound                     // "user not found"
    | ListFailed(step: ListError)      // "failed to list users: ..."

  class UserService {
    const repo: UserRepository

    constructor (repo: UserRepository)
      ensures this.repo == repo
    {
      this.repo := repo;
    }

    /** GetUserByID: a repository error is wrapped, no row is "user not found", a row is projected. */
    method GetUserByID(id: string, fault: bool) returns (r: Result<UserResponse, ServiceError>)
      requires repo.Valid()
      ensures fault ==> r == Err(GetFailed(Unavailable))
      ensures !fault ==> (r.Ok? <==> id in repo.rows)
      ensures !fault && id in repo.rows ==> r == Ok(ToResponse(repo.rows[id]))
      ensures !fault && id !in repo.rows ==> r == Err(UserNotFound)
    {
      var found := repo.GetByID(id, fault);
      if found.Err? {
        return Err(GetFailed(found.error));
      }
      if found.value.None? {
        return Err(UserNotFound);
      }
      r := Ok(ToResponse(found.value.value));
    }

    /** ListUsers: clamp the caller's query in place, then list; the repository's own clamp then
        finds nothing left to change. */
    method ListUsers(query: UserQuery, faults: ListFaults, total: nat, fetched: seq<User>)
      returns (r: Result<UserListResponse, ServiceError>, executed: seq<Statement>)
      modifies query
      ensures query.page == NormalizePage(old(query.page)) && query.limit == NormalizeLimit(old(query.limit))
      ensures query.search == old(query.search) && query.sort == old(query.sort)
      ensures faults.count ==> r == Err(ListFailed(CountFailed(Unavailable)))
      ensures !faults.count && faults.query ==> r == Err(ListFailed(QueryFailed(Unavailable)))
      ensures !faults.count && !faults.query && faults.scan ==> r == Err(ListFailed(ScanFailed(Unavailable)))
      ensures !faults.count && !faults.query && !faults.scan ==>
        r == Ok(UserListResponse(Project(fetched),
                                 Pagination(query.page, query.limit, total, TotalPages(total, query.limit))))
      ensures faults.count ==> executed == [CountStatement(query.search)]
      ensures !faults.count ==>
        executed == [CountStatement(query.search), PageStatement(query.search, query.sort, query.page, query.limit)]
    {
      if query.page < 1 {
        query.page := 1;
      }
      if query.limit < 1 {
        query.limit := 10;
      }
      if query.limit > 100 {
        query.limit := 100;
      }
      NormalizeIdempotent(old(query.page), old(query.limit));
      var listed;
      listed, executed := repo.List(query, faults, total, fetched);
      if listed.Err? {
        return Err(ListFailed(listed.error)), executed;
      }
      r := Ok(listed.value);
    }
  }
}
