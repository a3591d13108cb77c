/**
 * The decision logic of the web handlers that change the store or report on
 * users: the forward routes, the create-user and toggle-status endpoints, and
 * the role list of the user-details endpoint.
 */
module Routes {
  import opened Wrappers
  import opened Text
  import opened Directory
  import opened Ledger
  import opened Access

  // ---------------------------------------------------------------------------
  // Forward routes
  // ---------------------------------------------------------------------------

  /** The submitted forward form: each field absent (None) or its text. */
  datatype ForwardForm = ForwardForm(toUser: Option<string>, action: Option<string>, comments: Option<string>)

  datatype ForwardRejection =
    | Forbidden             // flashed 'You do not have permission to forward documents.'
    | MissingRecipient      // flashed 'Please select a user to forward to.'
    | RecipientNotANumber   // `int(to_user)` raises; the request fails before the store is called

  const DefaultAction: string := "Forwarded"

  /**
   * The movement data a forward route hands to the store: the current user is
   * both sender and actor, the action defaults to 'Forwarded' only when the field
   * is absent, and no forward date is passed.
   */
  function ForwardRequest(documentId: int, form: ForwardForm, currentUser: int)
    : (r: Result<Forwarding, ForwardRejection>)
    ensures r != Failure(Forbidden)
    ensures form.toUser.None? || form.toUser.value == "" <==> r == Failure(MissingRecipient)
    ensures r == Failure(RecipientNotANumber) <==>
              form.toUser.Some? && form.toUser.value != "" && ParseInt(form.toUser.value).None?
    ensures r.Success? ==>
              && form.toUser.Some? && ParseInt(form.toUser.value) == Some(r.value.toUser)
              && r.value.documentId == documentId
              && r.value.fromUser == currentUser && r.value.forwardedBy == currentUser
              && r.value.action == form.action.GetOr(DefaultAction)
              && r.value.comments == form.comments
              && r.value.forwardDate.None?
  {
    if form.toUser.None? || form.toUser.value == "" then Failure(MissingRecipient)
    else match ParseInt(form.toUser.value)
      case None => Failure(RecipientNotANumber)
      case Some(to) =>
        Success(Forwarding(documentId, currentUser, to, currentUser, None,
                           form.action.GetOr(DefaultAction), form.comments))
  }

  /** Through a route, the stored date of a forward is always the current timestamp. */
  lemma RouteForwardsAreStampedNow(documentId: int, form: ForwardForm, currentUser: int, now: Clock,
                                   users: seq<UserRow>)
    requires ForwardRequest(documentId, form, currentUser).Success?
    ensures ForwardMovement(ForwardRequest(documentId, form, currentUser).value, users, now).forwardedDate ==
            Some(now.timestamp)
  {
  }

  /**
   * `forward_notesheet_route` behind `forward_permission_required`: a user without
   * the forward permission is sent away first; then the form is validated; only a
   * valid form reaches the store. Asking for the permission may fill the user's
   * permission cache.
   */
  method ForwardNotesheetRoute(store: TrackingStore, user: User, view: PermissionView, documentId: int,
                               form: ForwardForm, now: Clock)
    returns (r: Result<Forwarding, ForwardRejection>)
    requires store.Valid()
    modifies store, user
    ensures store.Valid()
    ensures !Grants(user.isSuperuser, Effective(old(user.permissions), view, user.id), CanForwardFlag) ==>
              r == Failure(Forbidden)
    ensures Grants(user.isSuperuser, Effective(old(user.permissions), view, user.id), CanForwardFlag) ==>
              r == ForwardRequest(documentId, form, user.id)
    ensures !user.isSuperuser ==> user.permissions == Some(Effective(old(user.permissions), view, user.id))
    ensures user.isSuperuser ==> user.permissions == old(user.permissions)
    ensures r.Failure? ==> unchanged(store)
    ensures r.Success? ==>
              && store.notesheetMovements == old(store.notesheetMovements) + [ForwardMovement(r.value, store.users, now)]
              && store.notesheets == old(store.notesheets) && store.users == old(store.users)
              && store.bills == old(store.bills) && store.billMovements == old(store.billMovements)
              && store.nextNotesheetId == old(store.nextNotesheetId) && store.nextBillId == old(store.nextBillId)
  {
    var allowed := user.CanForward(view);
    if !allowed {
      return Failure(Forbidden);
    }
    r := ForwardRequest(documentId, form, user.id);
    if r.Success? {
      var _ := store.ForwardNotesheet(r.value, now);
    }
  }

  /** `forward_bill_route`: as `forward_notesheet_route`, on bills. */
  method ForwardBillRoute(store: TrackingStore, user: User, view: PermissionView, documentId: int,
                          form: ForwardForm, now: Clock)
    returns (r: Result<Forwarding, ForwardRejection>)
    requires store.Valid()
    modifies store, user
    ensures store.Valid()
    ensures !Grants(user.isSuperuser, Effective(old(user.permissions), view, user.id), CanForwardFlag) ==>
              r == Failure(Forbidden)
    ensures Grants(user.isSuperuser, Effective(old(user.permissions), view, user.id), CanForwardFlag) ==>
              r == ForwardRequest(documentId, form, user.id)
    ensures !user.isSuperuser ==> user.permissions == Some(Effective(old(user.permissions), view, user.id))
    ensures user.isSuperuser ==> user.permissions == old(user.permissions)
    ensures r.Failure? ==> unchanged(store)
    ensures r.Success? ==>
              && store.billMovements == old(store.billMovements) + [ForwardMovement(r.value, store.users, now)]
              && store.bills == old(store.bills) && store.users == old(store.users)
              && store.notesheets == old(store.notesheets) && store.notesheetMovements == old(store.notesheetMovements)
              && store.nextNotesheetId == old(store.nextNotesheetId) && store.nextBillId == old(store.nextBillId)
  {
    var allowed := user.CanForward(view);
    if !allowed {
      return Failure(Forbidden);
    }
    r := ForwardRequest(documentId, form, user.id);
    if r.Success? {
      var _ := store.ForwardBill(r.value, now);
    }
  }

  // ---------------------------------------------------------------------------
  // Create user
  // ---------------------------------------------------------------------------

  const RequiredUserFields: seq<string> := ["username", "password", "full_name"]

  /** `data.get(field)` is truthy: present and not empty. */
  predicate Provided(data: map<string, string>, field: string) {
    field in data && data[field] != ""
  }

  /** The first of `fields`, in order, that the data does not provide. */
  function FirstMissing(data: map<string, string>, fields: seq<string>): (r: Option<string>)
    ensures r.None? <==> forall k :: 0 <= k < |fields| ==> Provided(data, fields[k])
    ensures r.Some? ==> exists k :: 0 <= k < |fields| && fields[k] == r.value && !Provided(data, r.value) &&
                                    forall j :: 0 <= j < k ==> Provided(data, fields[j])
  {
    if fields == [] then None
    else if !Provided(data, fields[0]) then Some(fields[0])
    else FirstMissing(data, fields[1..])
  }

  datatype NewUser = NewUser(username: string, password: string, fullName: string)

  datatype CreateUserError = FieldRequired(field: string) | UsernameExists

  /** The message the endpoint returns with status 400. */
  function CreateUserMessage(e: CreateUserError): string {
    match e
    case FieldRequired(f) => f + " is required"
    case UsernameExists => "Username already exists"
  }

  /** The 400 messages tell the errors apart: the client can recover which check failed, and on which field. */
  lemma CreateUserMessagesDistinct(e1: CreateUserError, e2: CreateUserError)
    ensures CreateUserMessage(e1) == CreateUserMessage(e2) ==> e1 == e2
  {
    var m1, m2 := CreateUserMessage(e1), CreateUserMessage(e2);
    assert m1[|m1| - 1] == if e1.FieldRequired? then 'd' else 's';
    assert m2[|m2| - 1] == if e2.FieldRequired? then 'd' else 's';
    if e1.FieldRequired? && e2.FieldRequired? {
      assert e1.field == m1[..|m1| - 12];
      assert e2.field == m2[..|m2| - 12];
    }
  }

  /** The required-field loop of `api_create_user`: stops at the first field not provided. */
  method FindMissingField(data: map<string, string>, fields: seq<string>) returns (missing: Option<string>)
    ensures missing == FirstMissing(data, fields)
  {
    var i := 0;
    while i < |fields|
      invariant 0 <= i <= |fields|
      invariant forall j :: 0 <= j < i ==> Provided(data, fields[j])
      invariant FirstMissing(data, fields) == FirstMissing(data, fields[i..])
    {
      if !Provided(data, fields[i]) {
        return Some(fields[i]);
      }
      assert fields[i..][1..] == fields[i + 1..];
      i := i + 1;
    }
    return None;
  }

  /**
   * The validation of `api_create_user`: the first missing required field is
   * reported (username, then password, then full name); then an existing username
   * is refused; otherwise the three fields are taken from the data.
   */
  method ValidateCreateUser(data: map<string, string>, users: seq<UserRow>)
    returns (r: Result<NewUser, CreateUserError>)
    ensures FirstMissing(data, RequiredUserFields).Some? ==>
              r == Failure(FieldRequired(FirstMissing(data, RequiredUserFields).value))
    ensures r.Failure? && r.error.FieldRequired? ==> !Provided(data, r.error.field)
    ensures FirstMissing(data, RequiredUserFields).None? && UsernameTaken(users, data["username"]) ==>
              r == Failure(UsernameExists)
    ensures r.Success? <==>
              Provided(data, "username") && Provided(data, "password") && Provided(data, "full_name") &&
              !UsernameTaken(users, data["username"])
    ensures r.Success? ==> r.value == NewUser(data["username"], data["password"], data["full_name"])
  {
    var missing := FindMissingField(data, RequiredUserFields);
    if missing.Some? {
      return Failure(FieldRequired(missing.value));
    }
    assert Provided(data, RequiredUserFields[0]) && Provided(data, RequiredUserFields[1]) &&
           Provided(data, RequiredUserFields[2]);
    if UsernameTaken(users, data["username"]) {
      return Failure(UsernameExists);
    }
    r := Success(NewUser(data["username"], data["password"], data["full_name"]));
  }

  // ---------------------------------------------------------------------------
  // Toggle user status
  // ---------------------------------------------------------------------------

  datatype ToggleError =
    | NotPermitted   // `admin_required`: 'You do not have permission to access this page.'
    | OwnAccount     // 'Cannot deactivate your own account'
    | UserNotFound   // 'User not found'


  /**
   * `api_toggle_user_status`: the caller's own id is refused before any lookup; an
   * unknown user is not found; otherwise the new status is 0 for an active user
   * and 1 for an inactive one.
   */
  function ToggleStatus(target: int, caller: int, users: seq<UserRow>): (r: Result<int, ToggleError>)
    ensures r != Failure(NotPermitted)
    ensures target == caller ==> r == Failure(OwnAccount)
    ensures target != caller ==> (r == Failure(UserNotFound) <==> FindUser(users, target).None?)
    ensures target != caller && FindUser(users, target).Some? ==> r.Success?
    ensures r.Success? ==> FindUser(users, target).Some? &&
                           (r.value == 0 <==> FindUser(users, target).value.isActive) &&
                           (r.value == 0 || r.value == 1)
  {
    if target == caller then Failure(OwnAccount)
    else match FindUser(users, target)
      case None => Failure(UserNotFound)
      case Some(u) => Success(if u.isActive then 0 else 1)
  }

  /** `UPDATE users SET is_active = ? WHERE user_id = ?`. */
  function SetActive(users: seq<UserRow>, id: int, active: bool): (r: seq<UserRow>)
    ensures |r| == |users|
    ensures forall k :: 0 <= k < |users| ==>
              r[k] == if users[k].userId == id then users[k].(isActive := active) else users[k]
  {
    seq(|users|, k requires 0 <= k < |users| =>
      if users[k].userId == id then users[k].(isActive := active) else users[k])
  }

  /** After the update, looking the user up finds the same row with the new flag. */
  lemma FindAfterSetActive(users: seq<UserRow>, id: int, active: bool)
    requires FindUser(users, id).Some?
    ensures FindUser(SetActive(users, id, active), id) == Some(FindUser(users, id).value.(isActive := active))
  {
    var upd := SetActive(users, id, active);
    var k := IndexOfUser(users, id).value;
    assert FirstWithId(users, id, k);
    assert forall j :: 0 <= j < |users| ==> upd[j].userId == users[j].userId;
    assert FirstWithId(upd, id, k);
  }

  /** The status a toggle sets, in terms of the row the lookup finds. */
  lemma ToggleOfFound(users: seq<UserRow>, target: int, caller: int, u: UserRow)
    requires target != caller && FindUser(users, target) == Some(u)
    ensures ToggleStatus(target, caller, users) == Success(if u.isActive then 0 else 1)
  {
  }

  /** Toggling a user twice (by someone else) brings the status back to where it was. */
  lemma ToggleTwice(users: seq<UserRow>, target: int, caller: int)
    requires target != caller && FindUser(users, target).Some?
    ensures var s := ToggleStatus(target, caller, users).value;
            ToggleStatus(target, caller, SetActive(users, target, s == 1)) == Success(1 - s)
  {
    var u := FindUser(users, target).value;
    ToggleOfFound(users, target, caller, u);
    var s := ToggleStatus(target, caller, users).value;
    assert s == 1 <==> !u.isActive;
    var upd := SetActive(users, target, s == 1);
    var toggled := u.(isActive := s == 1);
    FindAfterSetActive(users, target, s == 1);
    assert FindUser(upd, target) == Some(toggled);
    ToggleOfFound(upd, target, caller, toggled);
    assert ToggleStatus(target, caller, upd) == Success(if s == 1 then 0 else 1);
  }

  /**
   * The status endpoint as a whole, behind `admin_required`: a caller who cannot
   * manage users is sent away; otherwise the decision is taken with the caller's
   * own id and the users table is updated.
   */
  method ToggleUserStatusRoute(store: TrackingStore, user: User, target: int)
    returns (r: Result<int, ToggleError>)
    requires store.Valid()
    modifies store
    ensures store.Valid()
    ensures !user.CanManageUsers() ==> r == Failure(NotPermitted)
    ensures user.CanManageUsers() ==> r == ToggleStatus(target, user.id, old(store.users))
    ensures r.Failure? ==> unchanged(store)
    ensures r.Success? ==> store.users == SetActive(old(store.users), target, r.value == 1)
    ensures store.notesheets == old(store.notesheets) && store.notesheetMovements == old(store.notesheetMovements)
    ensures store.bills == old(store.bills) && store.billMovements == old(store.billMovements)
    ensures store.nextNotesheetId == old(store.nextNotesheetId) && store.nextBillId == old(store.nextBillId)
  {
    if !user.CanManageUsers() {
      return Failure(NotPermitted);
    }
    r := ToggleStatus(target, user.id, store.users);
    if r.Success? {
      store.users := SetActive(store.users, target, r.value == 1);
    }
  }

  // ---------------------------------------------------------------------------
  // User details
  // ---------------------------------------------------------------------------

  /**
   * The `roles` list of `api_get_user`: the comma-joined role names split on ','
   * when there are any, otherwise the empty list.
   */
  function RolesOf(concatenated: Option<string>): (roles: seq<string>)
    ensures roles == [] <==> concatenated.None? || concatenated.value == ""
    ensures roles != [] ==> Join(roles) == concatenated.value
    ensures forall k :: 0 <= k < |roles| ==> ',' !in roles[k]
  {
    match concatenated
    case None => []
    case Some(s) =>
      if s == "" then []
      else JoinSplit(s); Split(s)
  }
}
