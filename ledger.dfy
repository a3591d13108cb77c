/**
 * The document custody ledger of the tracking database: the notesheet and bill
 * tables with their custody and park columns, and the append-only movement
 * tables beside them. Each database operation is a method of `TrackingStore`
 * that changes those tables step by step, as the INSERT and UPDATE statements do.
 */
module Ledger {
  import opened Wrappers
  import opened Directory

  /** The wall clock, passed in: `now` as `%Y-%m-%d %H:%M:%S` and as `%H:%M:%S`. */
  datatype Clock = Clock(timestamp: string, timeOfDay: string)

  predicate WellFormedClock(c: Clock) {
    |c.timestamp| == 19 && |c.timeOfDay| == 8
  }

  /** One row of a movement table (`notesheet_movements` or `bill_movements`). */
  datatype Movement = Movement(
    documentId: int,
    fromUser: Option<int>,
    from: Placement,
    toUser: int,
    to: Placement,
    forwardedBy: int,
    forwardedDate: Option<string>,  // None: the column's default, not written by the statement
    action: string,
    comments: Option<string>)

  /** The custody and park columns of one row of `notesheets` or `bills`. */
  datatype Document = Document(
    number: string,
    receivedDate: Option<string>,
    priority: string,
    receivedBy: int,
    currentHolder: int,
    currentSection: Option<int>,
    currentSubSection: Option<int>,
    currentStatus: Option<string>,  // None: the column's default, not written at creation
    isParked: bool,
    parkReason: Option<string>,
    parkedDate: Option<string>,
    parkedBy: Option<int>)

  /**
   * The form data of a receipt. `priority` and `currentSection` are None when the
   * key is absent from the data, which selects the defaults "Normal" and section 1.
   */
  datatype Receipt = Receipt(
    number: string,
    receivedDate: Option<string>,
    priority: Option<string>,
    receivedBy: int,
    currentSection: Option<int>,
    currentSubSection: Option<int>)

  /** The movement data handed to `forward_notesheet` / `forward_bill`. */
  datatype Forwarding = Forwarding(
    documentId: int,
    fromUser: int,
    toUser: int,
    forwardedBy: int,
    forwardDate: Option<string>,
    action: string,
    comments: Option<string>)

  const ReceiveSection: int := 1
  const InitialComment: string := "Initial receipt"
  const ReleaseComment: string := "Document released from park"

  /**
   * The forward date that is stored: a missing or empty date becomes the current
   * timestamp, a 10-character date (`YYYY-MM-DD`) gets the current time of day
   * appended after a space, and any other text is kept as given.
   */
  function NormalizeForwardDate(supplied: Option<string>, now: Clock): (r: string)
    ensures supplied.None? || supplied.value == "" ==> r == now.timestamp
    ensures supplied.Some? && |supplied.value| == 10 ==>
              |r| == 11 + |now.timeOfDay| && r[..10] == supplied.value && r[10] == ' ' &&
              r[11..] == now.timeOfDay
    ensures supplied.Some? && supplied.value != "" && |supplied.value| != 10 ==> r == supplied.value
  {
    match supplied
    case None => now.timestamp
    case Some(s) =>
      if s == "" then now.timestamp
      else if |s| == 10 then s + " " + now.timeOfDay
      else s
  }

  /** A stored forward date is never re-stamped: normalising it again changes nothing. */
  lemma NormalizeIdempotent(supplied: Option<string>, now: Clock, later: Clock)
    requires WellFormedClock(now) && WellFormedClock(later)
    ensures NormalizeForwardDate(Some(NormalizeForwardDate(supplied, now)), later) ==
            NormalizeForwardDate(supplied, now)
  {
  }

  /** Where the receiver of a new document is placed: their own section, or section 1 when they are unknown. */
  function ReceiverPlacement(users: seq<UserRow>, id: int): (p: Placement)
    ensures forall k :: FirstWithId(users, id, k) ==> p == Placement(users[k].sectionId, users[k].subSectionId)
    ensures (forall k :: 0 <= k < |users| ==> users[k].userId != id) ==> p == Placement(Some(ReceiveSection), None)
  {
    match FindUser(users, id)
    case None => Placement(Some(ReceiveSection), None)
    case Some(u) => Placement(u.sectionId, u.subSectionId)
  }

  /** `comments or reason`: the comment recorded with a park movement. */
  function ParkComment(comments: Option<string>, reason: Option<string>): (c: Option<string>)
    ensures c == comments || c == reason
    ensures comments.Some? && comments.value != "" ==> c == comments
    ensures comments.None? || comments.value == "" ==> c == reason
  {
    if comments.Some? && comments.value != "" then comments else reason
  }

  /** The UPDATE of `park_notesheet`: the park columns are set, custody is untouched. */
  function Parked(d: Document, user: int, reason: Option<string>, stamp: string): (r: Document)
    ensures r.isParked && r.parkReason == reason && r.parkedBy == Some(user) && r.parkedDate == Some(stamp)
    ensures r.currentStatus == Some("Parked")
    ensures r.(isParked := d.isParked, parkReason := d.parkReason, parkedBy := d.parkedBy,
               parkedDate := d.parkedDate, currentStatus := d.currentStatus) == d
  {
    d.(isParked := true, parkReason := reason, parkedDate := Some(stamp), parkedBy := Some(user),
       currentStatus := Some("Parked"))
  }

  /** The UPDATE of `unpark_notesheet`: the park columns are cleared and the status is 'Received'. */
  function Unparked(d: Document): (r: Document)
    ensures !r.isParked && r.parkReason.None? && r.parkedBy.None? && r.parkedDate.None?
    ensures r.currentStatus == Some("Received")
    ensures r.(isParked := d.isParked, parkReason := d.parkReason, parkedBy := d.parkedBy,
               parkedDate := d.parkedDate, currentStatus := d.currentStatus) == d
  {
    d.(isParked := false, parkReason := None, parkedDate := None, parkedBy := None,
       currentStatus := Some("Received"))
  }

  /** Unparking forgets everything parking wrote: park followed by unpark is unpark alone. */
  lemma UnparkUndoesPark(d: Document, user: int, reason: Option<string>, stamp: string)
    ensures Unparked(Parked(d, user, reason, stamp)) == Unparked(d)
    ensures Unparked(Parked(d, user, reason, stamp)).currentHolder == d.currentHolder
  {
  }

  /** The movements of one document, in insertion order (`WHERE notesheet_id = ?`). */
  function History(ms: seq<Movement>, id: int): (h: seq<Movement>)
    ensures |h| <= |ms|
    ensures forall k :: 0 <= k < |h| ==> h[k].documentId == id && h[k] in ms
    ensures (forall k :: 0 <= k < |ms| ==> ms[k].documentId != id) ==> h == []
  {
    if ms == [] then []
    else (if ms[0].documentId == id then [ms[0]] else []) + History(ms[1..], id)
  }

  /** Appending a movement extends the history of its own document by that movement, and no other. */
  lemma {:induction false} HistoryAppend(ms: seq<Movement>, m: Movement, id: int)
    ensures History(ms + [m], id) == History(ms, id) + (if m.documentId == id then [m] else [])
  {
    var tail := if m.documentId == id then [m] else [];
    if ms == [] {
      assert ms + [m] == [m];
      assert History([m], id) == tail + History([], id);
    } else {
      var head := if ms[0].documentId == id then [ms[0]] else [];
      assert (ms + [m])[0] == ms[0];
      assert (ms + [m])[1..] == ms[1..] + [m];
      calc {
        History(ms + [m], id);
        head + History(ms[1..] + [m], id);
        { HistoryAppend(ms[1..], m, id); }
        head + (History(ms[1..], id) + tail);
        (head + History(ms[1..], id)) + tail;
        History(ms, id) + tail;
      }
    }
  }

  /**
   * A receipt for an id no earlier movement mentions starts a history of exactly
   * its initial movement.
   */
  lemma NewHistory(ms: seq<Movement>, m: Movement)
    requires forall k :: 0 <= k < |ms| ==> ms[k].documentId != m.documentId
    ensures History(ms + [m], m.documentId) == [m]
  {
    HistoryAppend(ms, m, m.documentId);
  }

  /**
   * Receive then forward: when a fresh document's initial movement `a` and a
   * forward `b` of it are appended, its history is exactly `[a, b]`, in
   * insertion order.
   */
  lemma ReceiveThenForward(ms: seq<Movement>, a: Movement, b: Movement, after: seq<Movement>)
    requires forall k :: 0 <= k < |ms| ==> ms[k].documentId != a.documentId
    requires b.documentId == a.documentId
    requires after == ms + [a] + [b]
    ensures History(after, a.documentId) == [a, b]
  {
    var id, once := a.documentId, ms + [a];
    NewHistory(ms, a);
    HistoryAppend(once, b, id);
    assert after == once + [b];
  }

  /**
   * The database object. `users` is read by every operation (and `last_login` is
   * written on login); each document kind has its table, keyed by row id, and its
   * movement table, in insertion order.
   */
  class TrackingStore {
    var users: seq<UserRow>
    var notesheets: map<int, Document>
    var notesheetMovements: seq<Movement>
    var bills: map<int, Document>
    var billMovements: seq<Movement>
    var nextNotesheetId: int
    var nextBillId: int

    /** Row ids are positive and below the next id to hand out. */
    ghost predicate Valid()
      reads this
    {
      && 1 <= nextNotesheetId && 1 <= nextBillId
      && (forall id :: id in notesheets ==> 1 <= id < nextNotesheetId)
      && (forall id :: id in bills ==> 1 <= id < nextBillId)
    }

    constructor (users: seq<UserRow>)
      ensures Valid()
      ensures this.users == users
      ensures notesheets == map[] && notesheetMovements == [] && nextNotesheetId == 1
      ensures bills == map[] && billMovements == [] && nextBillId == 1
    {
      this.users := users;
      notesheets, notesheetMovements, nextNotesheetId := map[], [], 1;
      bills, billMovements, nextBillId := map[], [], 1;
    }

    /** `authenticate_user`: the matching row is returned only when it is active; its `last_login` is then stamped. */
    method AuthenticateUser(username: string, passwordHash: string, now: Clock) returns (user: Option<UserRow>)
      requires Valid()
      modifies this
      ensures Valid()
      ensures user == ActiveCredentials(old(users), username, passwordHash)
      ensures user.None? ==> users == old(users)
      ensures user.Some? ==> users == StampLogin(old(users), user.value.userId, now.timestamp)
      ensures notesheets == old(notesheets) && notesheetMovements == old(notesheetMovements)
      ensures bills == old(bills) && billMovements == old(billMovements)
      ensures nextNotesheetId == old(nextNotesheetId) && nextBillId == old(nextBillId)
    {
      var found := FindByCredentials(users, username, passwordHash);
      if found.Some? && users[found.value].isActive {
        user := Some(users[found.value]);
        users := StampLogin(users, user.value.userId, now.timestamp);
      } else {
        user := None;
      }
    }

    /**
     * `create_notesheet`: inserts the document row, reads the receiver's placement,
     * inserts the initial 'Received' movement. A duplicate number rolls both back.
     */
    method CreateNotesheet(r: Receipt) returns (id: Option<int>)
      requires Valid()
      modifies this
      ensures Valid()
      ensures id.None? <==> NumberTaken(old(notesheets), r.number)
      ensures id.None? ==> notesheets == old(notesheets) && notesheetMovements == old(notesheetMovements) &&
                           nextNotesheetId == old(nextNotesheetId)
      ensures id.Some? ==>
                && id.value == old(nextNotesheetId) && id.value !in old(notesheets)
                && nextNotesheetId == old(nextNotesheetId) + 1
                && notesheets == old(notesheets)[id.value := NewDocument(r)]
                && notesheetMovements == old(notesheetMovements) + [InitialMovement(id.value, r, users)]
      ensures users == old(users) && bills == old(bills) && billMovements == old(billMovements)
      ensures nextBillId == old(nextBillId)
    {
      if NumberTaken(notesheets, r.number) {
        // the INSERT violates the unique document number: rollback, return None
        return None;
      }
      var newId := nextNotesheetId;
      notesheets := notesheets[newId := NewDocument(r)];
      nextNotesheetId := nextNotesheetId + 1;
      var receiver := ReceiverPlacement(users, r.receivedBy);
      notesheetMovements := notesheetMovements +
        [Movement(newId, None, Placement(None, None), r.receivedBy, receiver, r.receivedBy,
                  r.receivedDate, "Received", Some(InitialComment))];
      id := Some(newId);
    }

    /**
     * `forward_notesheet`: appends one movement built from the input, the two
     * users' placements and the normalised date. The document row is not touched.
     */
    method ForwardNotesheet(f: Forwarding, now: Clock) returns (ok: bool)
      requires Valid()
      modifies this
      ensures Valid() && ok
      ensures notesheetMovements == old(notesheetMovements) + [ForwardMovement(f, users, now)]
      ensures notesheets == old(notesheets) && nextNotesheetId == old(nextNotesheetId)
      ensures users == old(users) && bills == old(bills) && billMovements == old(billMovements)
      ensures nextBillId == old(nextBillId)
    {
      var fromInfo := PlacementOf(users, f.fromUser);
      var toInfo := PlacementOf(users, f.toUser);
      var date := NormalizeForwardDate(f.forwardDate, now);
      notesheetMovements := notesheetMovements +
        [Movement(f.documentId, Some(f.fromUser), fromInfo, f.toUser, toInfo, f.forwardedBy,
                  Some(date), f.action, f.comments)];
      ok := true;
    }

    /**
     * `park_notesheet`: updates the park columns of the row (if there is one) and
     * appends a 'Parked' movement to the parking user.
     */
    method ParkNotesheet(id: int, user: int, reason: Option<string>, comments: Option<string>, now: Clock)
      returns (ok: bool)
      requires Valid()
      modifies this
      ensures Valid() && ok
      ensures notesheets == if id in old(notesheets)
                            then old(notesheets)[id := Parked(old(notesheets)[id], user, reason, now.timestamp)]
                            else old(notesheets)
      ensures notesheetMovements == old(notesheetMovements) +
                [Movement(id, None, Placement(None, None), user, Placement(None, None), user, None,
                          "Parked", ParkComment(comments, reason))]
      ensures nextNotesheetId == old(nextNotesheetId)
      ensures users == old(users) && bills == old(bills) && billMovements == old(billMovements)
      ensures nextBillId == old(nextBillId)
    {
      if id in notesheets {
        notesheets := notesheets[id := Parked(notesheets[id], user, reason, now.timestamp)];
      }
      notesheetMovements := notesheetMovements +
        [Movement(id, None, Placement(None, None), user, Placement(None, None), user, None,
                  "Parked", ParkComment(comments, reason))];
      ok := true;
    }

    /**
     * `unpark_notesheet`: clears the park columns of the row (if there is one), sets
     * the status to 'Received' and appends an 'Unparked' movement.
     */
    method UnparkNotesheet(id: int, user: int) returns (ok: bool)
      requires Valid()
      modifies this
      ensures Valid() && ok
      ensures notesheets == if id in old(notesheets)
                            then old(notesheets)[id := Unparked(old(notesheets)[id])]
                            else old(notesheets)
      ensures notesheetMovements == old(notesheetMovements) +
                [Movement(id, None, Placement(None, None), user, Placement(None, None), user, None,
                          "Unparked", Some(ReleaseComment))]
      ensures nextNotesheetId == old(nextNotesheetId)
      ensures users == old(users) && bills == old(bills) && billMovements == old(billMovements)
      ensures nextBillId == old(nextBillId)
    {
      if id in notesheets {
        notesheets := notesheets[id := Unparked(notesheets[id])];
      }
      notesheetMovements := notesheetMovements +
        [Movement(id, None, Placement(None, None), user, Placement(None, None), user, None,
                  "Unparked", Some(ReleaseComment))];
      ok := true;
    }

    /** `create_bill`: as `create_notesheet`, on the bill tables. */
    method CreateBill(r: Receipt) returns (id: Option<int>)
      requires Valid()
      modifies this
      ensures Valid()
      ensures id.None? <==> NumberTaken(old(bills), r.number)
      ensures id.None? ==> bills == old(bills) && billMovements == old(billMovements) &&
                           nextBillId == old(nextBillId)
      ensures id.Some? ==>
                && id.value == old(nextBillId) && id.value !in old(bills)
                && nextBillId == old(nextBillId) + 1
                && bills == old(bills)[id.value := NewDocument(r)]
                && billMovements == old(billMovements) + [InitialMovement(id.value, r, users)]
      ensures users == old(users) && notesheets == old(notesheets)
      ensures notesheetMovements == old(notesheetMovements) && nextNotesheetId == old(nextNotesheetId)
    {
      if NumberTaken(bills, r.number) {
        return None;
      }
      var newId := nextBillId;
      bills := bills[newId := NewDocument(r)];
      nextBillId := nextBillId + 1;
      var receiver := ReceiverPlacement(users, r.receivedBy);
      billMovements := billMovements +
        [Movement(newId, None, Placement(None, None), r.receivedBy, receiver, r.receivedBy,
                  r.receivedDate, "Received", Some(InitialComment))];
      id := Some(newId);
    }

    /** `forward_bill`: as `forward_notesheet`, on the bill movement table. */
    method ForwardBill(f: Forwarding, now: Clock) returns (ok: bool)
      requires Valid()
      modifies this
      ensures Valid() && ok
      ensures billMovements == old(billMovements) + [ForwardMovement(f, users, now)]
      ensures bills == old(bills) && nextBillId == old(nextBillId)
      ensures users == old(users) && notesheets == old(notesheets)
      ensures notesheetMovements == old(notesheetMovements) && nextNotesheetId == old(nextNotesheetId)
    {
      var fromInfo := PlacementOf(users, f.fromUser);
      var toInfo := PlacementOf(users, f.toUser);
      var date := NormalizeForwardDate(f.forwardDate, now);
      billMovements := billMovements +
        [Movement(f.documentId, Some(f.fromUser), fromInfo, f.toUser, toInfo, f.forwardedBy,
                  Some(date), f.action, f.comments)];
      ok := true;
    }
  }

  /** The document number is already used by a row of the table (the UNIQUE constraint). */
  predicate NumberTaken(docs: map<int, Document>, number: string) {
    exists id :: id in docs && docs[id].number == number
  }

  /** The document row a receipt inserts: holder and receiver are both the receiving user. */
  function NewDocument(r: Receipt): (d: Document)
    ensures d.currentHolder == d.receivedBy == r.receivedBy
    ensures d.number == r.number && d.receivedDate == r.receivedDate
    ensures d.currentSection == Some(r.currentSection.GetOr(ReceiveSection))
    ensures d.priority == r.priority.GetOr("Normal")
    ensures d.currentSubSection == r.currentSubSection && d.currentStatus.None?
    ensures !d.isParked && d.parkReason.None? && d.parkedBy.None? && d.parkedDate.None?
  {
    Document(r.number, r.receivedDate, r.priority.GetOr("Normal"), r.receivedBy, r.receivedBy,
             Some(r.currentSection.GetOr(ReceiveSection)), r.currentSubSection, None,
             false, None, None, None)
  }

  /** The initial movement of a receipt: from nobody, to and by the receiver, on the received date. */
  function InitialMovement(id: int, r: Receipt, users: seq<UserRow>): (m: Movement)
    ensures m.documentId == id && m.fromUser.None? && m.from == Placement(None, None)
    ensures m.toUser == m.forwardedBy == r.receivedBy
    ensures m.forwardedDate == r.receivedDate
    ensures m.action == "Received" && m.comments == Some(InitialComment)
    ensures m.to == ReceiverPlacement(users, r.receivedBy)
  {
    Movement(id, None, Placement(None, None), r.receivedBy, ReceiverPlacement(users, r.receivedBy),
             r.receivedBy, r.receivedDate, "Received", Some(InitialComment))
  }

  /** The movement a forward appends: the input's users, action and comment, looked-up placements, normalised date. */
  function ForwardMovement(f: Forwarding, users: seq<UserRow>, now: Clock): (m: Movement)
    ensures m.documentId == f.documentId && m.fromUser == Some(f.fromUser) && m.toUser == f.toUser
    ensures m.forwardedBy == f.forwardedBy && m.action == f.action && m.comments == f.comments
    ensures m.from == PlacementOf(users, f.fromUser) && m.to == PlacementOf(users, f.toUser)
    ensures m.forwardedDate == Some(NormalizeForwardDate(f.forwardDate, now))
  {
    Movement(f.documentId, Some(f.fromUser), PlacementOf(users, f.fromUser), f.toUser,
             PlacementOf(users, f.toUser), f.forwardedBy, Some(NormalizeForwardDate(f.forwardDate, now)),
             f.action, f.comments)
  }

  /** The row matches the username and password hash. */
  predicate CredentialsMatch(u: UserRow, username: string, passwordHash: string) {
    u.username == username && u.passwordHash == passwordHash
  }

  /**
   * What `authenticate_user` returns: the first row with matching credentials,
   * provided that row is active.
   */
  function ActiveCredentials(users: seq<UserRow>, username: string, passwordHash: string): (r: Option<UserRow>)
    ensures r.Some? <==>
              exists k :: 0 <= k < |users| && CredentialsMatch(users[k], username, passwordHash) &&
                          users[k].isActive &&
                          forall j :: 0 <= j < k ==> !CredentialsMatch(users[j], username, passwordHash)
    ensures r.Some? ==> r.value in users && r.value.isActive && CredentialsMatch(r.value, username, passwordHash)
    ensures forall k :: 0 <= k < |users| && CredentialsMatch(users[k], username, passwordHash) &&
                        (forall j :: 0 <= j < k ==> !CredentialsMatch(users[j], username, passwordHash)) ==>
                          r == (if users[k].isActive then Some(users[k]) else None)
  {
    match FindByCredentials(users, username, passwordHash)
    case None => None
    case Some(k) => if users[k].isActive then Some(users[k]) else None
  }

  /** `UPDATE users SET last_login = ? WHERE user_id = ?`. */
  function StampLogin(users: seq<UserRow>, id: int, stamp: string): (r: seq<UserRow>)
    ensures |r| == |users|
    ensures forall k :: 0 <= k < |users| ==>
              r[k] == if users[k].userId == id then users[k].(lastLogin := Some(stamp)) else users[k]
  {
    seq(|users|, k requires 0 <= k < |users| =>
      if users[k].userId == id then users[k].(lastLogin := Some(stamp)) else users[k])
  }

  /**
   * Stamping `last_login` leaves the credential columns and `is_active` alone, so a
   * repeated login finds the same active row, now carrying the stamp.
   */
  lemma LoginAgain(users: seq<UserRow>, username: string, passwordHash: string, stamp: string)
    requires ActiveCredentials(users, username, passwordHash).Some?
    ensures var u := ActiveCredentials(users, username, passwordHash).value;
            ActiveCredentials(StampLogin(users, u.userId, stamp), username, passwordHash) ==
            Some(u.(lastLogin := Some(stamp)))
  {
    var k := FindByCredentials(users, username, passwordHash).value;
    var u := users[k];
    var stamped := StampLogin(users, u.userId, stamp);
    assert forall j :: 0 <= j < |users| ==>
             stamped[j].username == users[j].username && stamped[j].passwordHash == users[j].passwordHash;
    var k' := FindByCredentials(stamped, username, passwordHash);
    assert k'.Some? by {
      assert CredentialsMatch(stamped[k], username, passwordHash);
    }
    assert k'.value == k by {
      assert !(k'.value < k);
      assert !(k < k'.value);
    }
    assert stamped[k] == u.(lastLogin := Some(stamp));
  }
}
