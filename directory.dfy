/**
 * The users table as the core reads it: rows in insertion order, looked up the
 * way `cursor.fetchone()` does, i.e. the first row that matches.
 */
module Directory {
  import opened Wrappers

  /** One row of `users`; `isActive` and `isSuperuser` are the truthiness of the integer columns. */
  datatype UserRow = UserRow(
    userId: int,
    username: string,
    passwordHash: string,
    fullName: string,
    sectionId: Option<int>,
    subSectionId: Option<int>,
    isActive: bool,
    isSuperuser: bool,
    lastLogin: Option<string>)

  /** Where a user sits: the `section_id, sub_section_id` pair read from their row. */
  datatype Placement = Placement(section: Option<int>, subSection: Option<int>)

  /** Row `k` is the first row of the table with user id `id`: the row `fetchone()` returns. */
  predicate FirstWithId(users: seq<UserRow>, id: int, k: int) {
    0 <= k < |users| && users[k].userId == id && forall j :: 0 <= j < k ==> users[j].userId != id
  }

  /** Index of the first row with user id `id`, or None when no row has it. */
  function IndexOfUser(users: seq<UserRow>, id: int): (r: Option<nat>)
    ensures r.Some? ==> r.value < |users| && users[r.value].userId == id
    ensures r.Some? ==> forall j :: 0 <= j < r.value ==> users[j].userId != id
    ensures r.None? <==> forall j :: 0 <= j < |users| ==> users[j].userId != id
  {
    if users == [] then None
    else if users[0].userId == id then Some(0)
    else match IndexOfUser(users[1..], id)
      case None => None
      case Some(k) => Some(k + 1)
  }

  /** `SELECT ... FROM users WHERE user_id = ?` followed by `fetchone()`. */
  function FindUser(users: seq<UserRow>, id: int): (r: Option<UserRow>)
    ensures r.Some? <==> exists k :: 0 <= k < |users| && users[k].userId == id
    ensures r.Some? ==> r.value in users && r.value.userId == id
    ensures forall k :: FirstWithId(users, id, k) ==> r == Some(users[k])
  {
    match IndexOfUser(users, id)
    case None => None
    case Some(k) => Some(users[k])
  }

  /**
   * `SELECT section_id, sub_section_id FROM users WHERE user_id = ?`, with each
   * column read as NULL when the user does not exist.
   */
  function PlacementOf(users: seq<UserRow>, id: int): (r: Placement)
    ensures forall k :: FirstWithId(users, id, k) ==> r == Placement(users[k].sectionId, users[k].subSectionId)
    ensures (forall k :: 0 <= k < |users| ==> users[k].userId != id) ==> r == Placement(None, None)
  {
    match FindUser(users, id)
    case None => Placement(None, None)
    case Some(u) => Placement(u.sectionId, u.subSectionId)
  }

  /** `SELECT user_id FROM users WHERE username = ?` returned a row. */
  predicate UsernameTaken(users: seq<UserRow>, username: string) {
    exists k :: 0 <= k < |users| && users[k].username == username
  }

  /**
   * The credential query of `authenticate_user`: the index of the first row whose
   * username and password hash both match. The hash is computed by the caller.
   */
  function FindByCredentials(users: seq<UserRow>, username: string, passwordHash: string): (r: Option<nat>)
    ensures r.Some? ==> r.value < |users| &&
                        users[r.value].username == username &&
                        users[r.value].passwordHash == passwordHash
    ensures r.Some? ==> forall j :: 0 <= j < r.value ==>
                          !(users[j].username == username && users[j].passwordHash == passwordHash)
    ensures r.None? <==> forall j :: 0 <= j < |users| ==>
                           !(users[j].username == username && users[j].passwordHash == passwordHash)
  {
    if users == [] then None
    else if users[0].username == username && users[0].passwordHash == passwordHash then Some(0)
    else match FindByCredentials(users[1..], username, passwordHash)
      case None => None
      case Some(k) => Some(k + 1)
  }
}
