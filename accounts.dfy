/** The caller's identity and user record, as every action resolves them:
    the identity provider yields an optional caller id, and the user table is
    looked up by that id. */
module Accounts {
  import opened Wrappers

  /** The errors the actions throw. */
  datatype Error =
    | Unauthorized        // no signed-in caller
    | UserNotFound        // no user row for the caller
    | SaveFailed          // "Failed to save quiz result"
    | FetchFailed         // "Failed to fetch assessments"
    | RecordNotFound      // a delete whose filter matches no row
    | StoreFailure        // a database error that propagates unchanged

  /** A row of the user table; the profile fields may be null. The table is
      a map keyed by the identity provider's user id (`clerkUserId`), so that
      column is the key rather than a field. */
  datatype User = User(
    id: nat,
    name: Option<string>,
    industry: Option<string>,
    experience: Option<int>,
    skills: Option<seq<string>>)

  /** `if (!userId)`: a missing or empty caller id is not signed in. */
  predicate SignedIn(caller: Option<string>) {
    caller.Some? && caller.value != ""
  }

  /** The two checks every action starts with: "Unauthorized" when there is no
      caller, "User not found" when the user table has no row for it,
      otherwise that row. */
  function CurrentUser(caller: Option<string>, users: map<string, User>): (r: Result<User, Error>)
    ensures r == Failure(Unauthorized) <==> !SignedIn(caller)
    ensures r == Failure(UserNotFound) <==> SignedIn(caller) && caller.value !in users
    ensures r.Success? <==> SignedIn(caller) && caller.value in users
    ensures r.Success? ==> r.value == users[caller.value]
  {
    if !SignedIn(caller) then Failure(Unauthorized)
    else if caller.value !in users then Failure(UserNotFound)
    else Success(users[caller.value])
  }
}
