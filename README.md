# Document tracking core, modelled in Dafny

This project models the core of an office document-tracking application. The application records
notesheets and bills as they are received and handed from user to user. It keeps, for each document,
a custody row (current holder, section, status, park state) and an append-only table of movements.
The model covers:

- **The custody ledger** (`ledger.dfy`, module `Ledger`). The database class of the application
  becomes the class `TrackingStore`. Its fields are the users table, the notesheet and bill tables
  (maps from row id to a `Document`) and their movement tables (sequences of `Movement`, in
  insertion order). Each operation is a method that changes those fields the way its INSERT and
  UPDATE statements do:
  - receiving a notesheet or bill inserts the document and its initial 'Received' movement;
  - forwarding appends one movement;
  - parking and unparking update the park columns and append a movement;
  - logging in checks the credentials and the active flag, then stamps `last_login`.

  The forward-date rule is the pure function `NormalizeForwardDate`. The clock is a parameter.
- **The stage-duration projection** (`projector.dfy`, module `StageProjector`). A document's
  movements, newest first, sit in an array of `Stage` records. `AnnotateStages` walks it and writes
  into each record:
  - the date to display;
  - the time held at that stage, as a `Held` label;
  - for the newest record only, the current-location badge.

  The per-index function `Annotate` specifies the loop. Dates are day numbers, and a date that does
  not parse is `None`. "Today" is a parameter.
- **The decision rules of the web layer**:
  - `access.dfy`, module `Access`: the permission predicates of the session user, the cache of the
    permissions row and the active-user gate of session loading;
  - `listing.dfy`, module `Listing`: the list-query builder;
  - `routes.dfy`, module `Routes`: the permission gates in front of the forward and status routes,
    forward-form validation, create-user validation, the status toggle and the role list.

Supporting modules: `wrappers.dfy` (`Option`, `Result`), `text.dfy` (decimal rendering and parsing,
comma split and join) and `directory.dfy` (lookups in the users table, first match as `fetchone`
does).

Where the intended design of the system and its code differ, the model follows the code:
- A forward does not update the document's `current_holder`.
- No operation writes an `is_current` flag on movements.
- No rule rejects future dates, and no rule freezes documents in a terminal status.
- There is no role-based choice of recipients. The detail views offer every active user other than
  the caller.
- The projection labels a negative gap between two dates as a negative number of days. It does not
  flag it as an error.
- A single movement is labelled as the current stage: "Today (current)", "1 day (current)",
  "n days (current)", or "Unknown (current)" when its date does not parse.

## Model

| member | source | states |
|---|---|---|
| Ledger.NormalizeForwardDate | init_database.py:281-290 | a missing or empty date becomes the current timestamp; a 10-character date keeps its text as prefix, followed by a space and the current time of day; any other text is stored unchanged |
| Ledger.NormalizeIdempotent | init_database.py:281-290 | a stored forward date is never re-stamped: normalising an already normalised date changes nothing |
| Ledger.ReceiverPlacement | init_database.py:239-252 | the initial movement goes to the section and sub-section of the first users row with the receiver's id (NULLs included), or to section 1 with no sub-section when no row has that id |
| Ledger.ParkComment | init_database.py:340 | a park movement records the comments when they are given and non-empty; when they are absent or empty it records the reason |
| Ledger.Parked | init_database.py:325-334 | parking sets is_parked, the reason, parked_by, parked_date and status 'Parked' and leaves every other column, custody included, unchanged |
| Ledger.Unparked | init_database.py:356-364 | unparking clears is_parked and the three park columns and sets status 'Received' whatever it was; custody is unchanged |
| Ledger.UnparkUndoesPark | init_database.py:319-370 | park followed by unpark leaves the row as unpark alone does; the holder never changes |
| Ledger.History | app.py:318 | the movements selected for one document carry its id, are drawn from the table and number no more than it; none are selected when no movement carries the id (HistoryAppend states which ones, in insertion order) |
| Ledger.HistoryAppend | init_database.py:292-311 | appending a movement extends its own document's history by exactly that movement and leaves every other history unchanged |
| Ledger.NewHistory | init_database.py:245-254 | for an id no earlier movement mentions, the history after the receipt is exactly the initial movement |
| Ledger.ReceiveThenForward | init_database.py:245-311 | after a receipt and one forward of the same document are appended, its history is the initial movement followed by the forward movement |
| Ledger.NewDocument | init_database.py:213-235 | the inserted row has holder = receiver = received_by, priority defaulting to "Normal", current section defaulting to 1, the given sub-section, no status of its own and no park state |
| Ledger.InitialMovement | init_database.py:245-254 | the initial movement has no sender; it goes to and is made by the receiver, is dated with the received date, has action 'Received' and comment 'Initial receipt' |
| Ledger.ForwardMovement | init_database.py:292-310 | a forward movement copies sender, recipient, actor, action and comments from the input, takes both placements from the users table (NULL for an unknown user) and stores the normalised date |
| Ledger.ActiveCredentials | init_database.py:63-79 | the result is decided by the first row matching username and password hash, as fetchone returns it: that row when it is active, None when it is inactive or when no row matches |
| Ledger.StampLogin | init_database.py:72-75 | the login updates last_login on the rows of that user id and on no other row |
| Ledger.LoginAgain | init_database.py:63-79 | stamping last_login keeps the credentials and the active flag, so a repeated login finds the same row, now carrying the stamp |
| Ledger.TrackingStore.constructor | init_database.py:10-12 | the database object over a freshly initialised database: the given users and empty document and movement tables, row ids starting at 1 |
| Ledger.TrackingStore.AuthenticateUser | init_database.py:58-81 | returns the active matching row and stamps its last_login; otherwise returns None and changes nothing |
| Ledger.TrackingStore.CreateNotesheet | init_database.py:208-264 | on success: one new document under a fresh positive id and exactly one new movement, the initial one; on a duplicate number: None and no change to any table |
| Ledger.TrackingStore.ForwardNotesheet | init_database.py:266-317 | appends exactly one movement; the notesheet rows, the earlier movements and the bill tables are unchanged |
| Ledger.TrackingStore.ParkNotesheet | init_database.py:319-348 | updates the park columns of the row if it exists; always appends one 'Parked' movement to and by the parking user |
| Ledger.TrackingStore.UnparkNotesheet | init_database.py:350-378 | clears the park state of the row if it exists; always appends one 'Unparked' movement with comment 'Document released from park' |
| Ledger.TrackingStore.CreateBill | init_database.py:383-449 | as CreateNotesheet, on the bill tables |
| Ledger.TrackingStore.ForwardBill | init_database.py:451-502 | as ForwardNotesheet, on the bill movement table |
| StageProjector.SpanOf | time_calculation_fix.py:19-29 | the label keeps the exact day difference: 0 and 1 have labels of their own, and any other value, negative included, is "n days" |
| StageProjector.HeldText | time_calculation_fix.py:21-46 | a label's text ends in " (current)" exactly when it belongs to the current stage |
| StageProjector.Annotate | time_calculation_fix.py:7-52 | each movement keeps its date and gets display_date = its date-only text and a time-held label; the label is current exactly at index 0; only index 0 gets the badge, and index 0 keeps its in_date and out_date as they were |
| StageProjector.AnnotateStages | time_calculation_fix.py:7-52 | the loop leaves the array equal to the per-index annotation of its original contents, with the same length and order |
| StageProjector.CurrentStage | time_calculation_fix.py:14-32 | the newest stage is held from its date until today, labelled current, or "Unknown (current)" when its date does not parse; it always gets the badge |
| StageProjector.PastStage | time_calculation_fix.py:33-52 | a past stage is held from its own date to the next newer stage's date; its in_date is its own date and its out_date that stage's date; an unparsable date on either side gives "Unknown" and no in/out dates |
| StageProjector.NegativeGapKept | time_calculation_fix.py:37-46 | an older movement dated after a newer one yields a negative "n days" label, neither rejected nor clamped |
| StageProjector.PastDurationsTelescope | time_calculation_fix.py:36-39 | when every date parses, the past stages' durations sum to the newest date minus the oldest date |
| StageProjector.WorkedExample | time_calculation_fix.py:58-61 | dates Jan 10, Jan 8 and Jan 3 with today Jan 10 give "Today (current)", 2 days and 5 days |
| StageProjector.SingleEntryIsCurrent | time_calculation_fix.py:14-32 | a document with one movement has that movement as its current stage |
| Access.PermissionsOf | init_database.py:86-97 | a user without a row in the permissions view has an empty permission set |
| Access.Effective | app.py:46-52 | what get_permissions yields: the cached row when there is one, otherwise the row read from the view |
| Access.LoadUser | app.py:70-85 | a session user is loaded only for an existing, active row with that id (and, for unique ids, for every such row) |
| Access.User.constructor | app.py:26-39 | a new session user has the row's identity and flags and nothing cached |
| Access.User.GetPermissions | app.py:46-52 | reads the view only while nothing is cached; afterwards returns the cached row unchanged |
| Access.User.Can | app.py:54-64 | the decision is superuser-or-flag-set, a missing flag counting as unset; a superuser short-circuits and leaves the cache untouched |
| Access.User.CanReceive | app.py:54-56 | true iff superuser or can_receive is set |
| Access.User.CanForward | app.py:58-60 | true iff superuser or can_forward is set |
| Access.User.CanApprove | app.py:62-64 | true iff superuser or can_approve is set |
| Access.AskTwice | app.py:46-52 | two permission questions to a non-superuser are answered from the first view read, even when the view has changed since |
| Access.User.CanManageUsers | app.py:66-68 | only superusers manage users, so a user manager passes every permission check whatever the permission row says |
| Listing.LikePattern | app.py:256 | the search parameter is the search text wrapped in '%' on both sides |
| Listing.SearchedColumns | app.py:255 | the search text is matched against three distinct columns, the document number first (app.py line 438 for bills) |
| Listing.BuildListQuery | app.py:243-263 | the query starts with the base select and ends with the received-date ordering; a non-empty search adds one LIKE clause and three equal patterns; a non-empty status adds one clause and itself; the LIKE clause comes right after the base select and the status clause right before the ordering, so the patterns come before the status as their placeholders do; parameters = 3·[search≠''] + [status≠''] and equal the placeholders; the same builder serves the bill list (app.py lines 426-446) |
| Listing.AppendClause | app.py:254-263 | appending a clause adds exactly its own placeholders to the query |
| Routes.ForwardRequest | app.py:379-396 | a missing or empty recipient is refused; otherwise the recipient is read as an integer, sender and actor are the current user, the action defaults to 'Forwarded' only when absent, and no date is passed |
| Routes.RouteForwardsAreStampedNow | app.py:389-398 | a forward made through a route is always stored with the current timestamp |
| Routes.ForwardNotesheetRoute | app.py:98-104 | a user who is neither superuser nor holds can_forward is refused before the form is read and the store is untouched; otherwise a rejected form leaves the store untouched and an accepted one (app.py lines 377-409) appends exactly the forward movement |
| Routes.ForwardBillRoute | app.py:565-600 | as ForwardNotesheetRoute, on bills: the forward-permission gate first, then the form, then exactly one appended bill movement |
| Routes.FirstMissing | app.py:651-654 | the reported field is the first of the required fields, in order, that is absent or empty; none is reported iff all are provided |
| Routes.FindMissingField | app.py:651-654 | the loop over the required fields stops at the first one not provided |
| Routes.ValidateCreateUser | app.py:650-665 | the first missing of username, password, full_name is reported; then an existing username is refused; acceptance iff all three are provided and the username is new |
| Routes.CreateUserMessagesDistinct | app.py:650-665 | the two 400 messages ("<field> is required", "Username already exists") are different for different errors, so the failed check and the field can be told from the message |
| Routes.ToggleStatus | app.py:759-775 | the caller's own id is refused before any lookup; for anyone else, the user is not found exactly when no row has the id, and a found user is toggled: 0 for an active user and 1 for an inactive one |
| Routes.SetActive | app.py:778 | the update changes is_active on the rows of that user id only |
| Routes.FindAfterSetActive | app.py:767-778 | after the update the same user is found, with the new flag |
| Routes.ToggleTwice | app.py:759-778 | toggling a user twice restores the original status |
| Routes.ToggleOfFound | app.py:767-775 | when someone else toggles a user found in the table, the new status is 0 for an active row and 1 for an inactive one |
| Routes.ToggleUserStatusRoute | app.py:753-779 | a caller who cannot manage users is refused and nothing changes; otherwise the decision is ToggleStatus with the caller's own id, a refused toggle changes nothing and an accepted one writes the new status to that user's rows |
| Routes.RolesOf | app.py:745 | a null or empty role string gives the empty list; otherwise comma-free role names whose comma join is the original string |
| Text.ParseInt | app.py:392 | text is a number iff it is an optional sign followed by at least one digit (the value read is fixed by ParseIntCanonical, LeadingZeroIgnored, PlusSignIgnored and MinusSignNegates) |
| Text.ParseIntRoundTrip | app.py:392 | reading back the decimal rendering of any integer gives that integer |
| Text.ParseIntCanonical | app.py:392 | reading text in canonical decimal form (no '+', no leading zero, no "-0") and rendering the value gives the text back, so the value read is the number written |
| Text.LeadingZeroIgnored | app.py:392 | a leading zero does not change the value read: "007" reads as 7 |
| Text.PlusSignIgnored | app.py:392 | a leading '+' does not change the value read: "+5" reads as 5 |
| Text.MinusSignNegates | app.py:392 | a leading '-' negates the value of the digits after it |
| Text.IntToText | time_calculation_fix.py:28 | the decimal rendering is non-empty and starts with '-' exactly for negative numbers |
| Text.Split | app.py:745 | splitting on ',' gives at least one piece and no piece contains a comma |
| Text.JoinSplit | app.py:745 | joining the pieces of a split with ',' gives back the original string |
| Text.SplitJoin | app.py:745 | splitting a join of comma-free pieces gives back the pieces |
| Directory.FindUser | init_database.py:240-242 | a user is found iff some row has that id; the row found is the first row with that id |
| Directory.PlacementOf | init_database.py:271-305 | a known user's placement is the section and sub-section of the first row with that id; an unknown user's are both NULL |
| Directory.FindByCredentials | init_database.py:63-70 | the row found matches username and password hash; none is found iff no row matches |

## Left out

- HTTP handling: routing, templates, flash messages, redirects, session cookies and JSON responses.
  The handlers' decisions are modelled; their rendering is not. `login_required` is not modelled:
  the routes take the loaded session user as a parameter.
- The `admin_required` gate of `api_create_user` and `api_get_user`. `ValidateCreateUser` and
  `RolesOf` model only the decisions those handlers take after the gate; neither changes the store.
- Ledger.History: keeps the movements in insertion order. The detail views order them by
  `forwarded_date` descending (app.py line 319); the projection receives the rows already in that
  order, so the model never sorts them.
- SQL text, joins and the permissions view. The view's definition is not part of this model; only
  its result, a map from flag name to truthiness, is modelled.
- The password hash (`hash_password`, a SHA-256 call). Callers pass the hash in.
- The clock (`datetime.now()`) and date parsing (`strptime`). They are parameters: a `Clock` value
  and a day number, with `None` for a date that does not parse.
- The candidate-recipient list of the detail views (app.py line 327). It is a plain SQL filter.
- Float parsing of bill amounts, and the descriptive columns of documents (subject, sender, vendor,
  amounts, category, remarks). None of them takes part in custody.
- Dashboard counts, reports, activity logging, `create_user`, `assign_role`, `get_all_sections` and
  the section lookups. These are I/O with no decision logic.
- Letters, and the migration, debug and check scripts. They only run one-off SQL and printing.
- Column defaults of the unshown schema. A created document has status `None`, meaning the column
  default, and is not parked. Park and unpark movements have `forwardedDate = None`, meaning the
  column default.
- Storage failures. Forward, park and unpark always succeed in the model. The only failure of
  create is a duplicate document number, which assumes a UNIQUE constraint on the number.
- Foreign keys. A forward, park or unpark for an id with no document row still appends its movement, as
  SQLite does with foreign-key enforcement off by default. `NewHistory` therefore assumes that no
  earlier movement mentions the new id.
- Form keys that are present but null. `Receipt.priority` and `Receipt.currentSection` use `None`
  only for an absent key, which selects the default.
- A missing `received_date` key. `create_notesheet` reads it with `data["received_date"]` and fails
  with a KeyError when it is absent (init_database.py line 227); `create_bill` reads it with
  `data.get`. Both are modelled with an optional received date, so the model accepts `None` for a
  notesheet too.
- `api_create_user` after validation (the insert and the role assignments), and the remaining fields
  and not-found case of `api_get_user`.
- Text.ParseInt: accepts only an optional sign followed by ASCII digits. Python's `int()` also
  accepts surrounding whitespace, digit underscores and any Unicode decimal digit (for example
  '٣'); those inputs are rejected here.
- Routes.ValidateCreateUser: the JSON body is modelled as a map from field name to string, so a
  field is missing only when it is absent or the empty string. In the application `not
  data.get(field)` (app.py line 653) also treats null, 0, false, [] and {} as missing, and a body
  that is not JSON makes `data` None, so the `.get` call raises and the handler answers 500
  (app.py lines 700-701). None of these cases is modelled.
- Routes.ForwardRequest: a recipient that does not parse is returned as `RecipientNotANumber`. In
  the application, `int()` raises there and the request fails with a server error. Either way the
  store is never called.
- Access.User.Can: flag values are booleans, the truthiness of the view's columns, so integer values
  and NULL are not distinguished.
