/** `/api/events` (app/app/api/events/route.js): the extension reports a
    WARN or BLOCK event (never the pasted content), and the admin lists
    the org's events a page at a time, as JSON or as CSV. */
module EventsRoute {
  import opened Wrappers
  import opened Text
  import opened Db
  import opened Auth
  import opened Csv

  // ---------------------------------------------------------------------------
  // POST: the extension reports an event
  // ---------------------------------------------------------------------------

  /** The `dataTypes` member of the body: falsy (absent, null, "", 0 or
      false), an array of type names, or any other truthy value. */
  datatype DataTypesValue = Falsy | Array(items: seq<string>) | NotArray

  /** The JSON body of `POST`; a string member is `None` when absent or
      null. */
  datatype EventBody = EventBody(
    timestamp: Option<string>,
    aiDomain: Option<string>,
    ruleId: Option<string>,
    dataTypes: DataTypesValue,
    action: Option<string>,
    extensionVersion: Option<string>)

  /** All six members are present and truthy. */
  predicate Complete(b: EventBody) {
    Truthy(b.timestamp) && Truthy(b.aiDomain) && Truthy(b.ruleId) && !b.dataTypes.Falsy?
    && Truthy(b.action) && Truthy(b.extensionVersion)
  }

  const MissingFields: ApiError := ApiError("INVALID_REQUEST", "Missing required fields")
  const BadAction: ApiError := ApiError("INVALID_REQUEST", "Action must be WARN or BLOCK")
  const NotAnArray: ApiError := ApiError("INVALID_REQUEST", "dataTypes must be an array")

  /** The three checks of `POST`, in order; `None` when the body passes. */
  function ValidateEvent(b: EventBody): (e: Option<ApiError>)
    ensures e.None? <==> Complete(b) && IsAction(b.action.value) && b.dataTypes.Array?
    ensures !Complete(b) ==> e == Some(MissingFields)
    ensures Complete(b) && !IsAction(b.action.value) ==> e == Some(BadAction)
    ensures Complete(b) && IsAction(b.action.value) && !b.dataTypes.Array? ==> e == Some(NotAnArray)
  {
    if !Truthy(b.timestamp) || !Truthy(b.aiDomain) || !Truthy(b.ruleId) || b.dataTypes.Falsy?
       || !Truthy(b.action) || !Truthy(b.extensionVersion) then
      Some(MissingFields)
    else if !IsAction(b.action.value) then Some(BadAction)
    else if !b.dataTypes.Array? then Some(NotAnArray)
    else None
  }

  /** The update a reporting user's row receives: one more block for a
      BLOCK event, and the user is seen now either way. */
  function Recorded(u: User, block: bool, now: string): User {
    u.(blockCount := if block then u.blockCount + 1 else u.blockCount, lastSeenAt := Some(now), updatedAt := now)
  }

  /** The row a valid body becomes. */
  function EventOf(b: EventBody, eventId: string, orgId: string, userId: string): EventRow
    requires Complete(b) && b.dataTypes.Array?
  {
    EventRow(eventId, orgId, userId, b.timestamp.value, b.aiDomain.value, b.ruleId.value,
             b.dataTypes.items, b.action.value, b.extensionVersion.value)
  }

  /** What `POST` answers on success. */
  datatype Created = Created(eventId: string)

  /** `POST`: the install-code gate first (which may record the user even
      when the body is then refused), then the body checks, then the insert
      and the user update. */
  function PostEvent(t: Tables, installCode: Option<string>, userHash: Option<string>, anonId: string,
                     newUserId: string, eventId: string, now: string, b: EventBody): (Tables, Reply<Created>)
  {
    var (t1, gate) := InstallCodeGate(t, installCode, userHash, anonId, newUserId, now);
    match gate
    case Failure(r) => (t1, Refused(r))
    case Success((org, user)) =>
      match ValidateEvent(b)
      case Some(e) => (t1, Reply(400, Failure(e)))
      case None =>
        var block := b.action.value == "BLOCK";
        (t1.(events := t1.events + [EventOf(b, eventId, org.id, user.id)],
             users := UpdateUsersWhere(t1.users, user.id, u => Recorded(u, block, now))),
         Reply(201, Success(Created(eventId))))
  }

  /** Every stored event meets the `events` table's CHECK constraint and
      has its required columns filled. */
  predicate EventsChecked(events: seq<EventRow>) {
    forall j :: 0 <= j < |events| ==>
      IsAction(events[j].action) && events[j].timestamp != "" && events[j].aiDomain != ""
      && events[j].ruleId != "" && events[j].extensionVersion != ""
  }

  /** A refused install code writes nothing. A refused body writes no event,
      but the user the gate recorded stays. An accepted body appends exactly
      one event, of the install code's org and the reporting user, and
      answers 201 with its id; orgs and configs never change, and every
      stored event still meets the table's constraints. */
  lemma PostEventOutcome(t: Tables, installCode: Option<string>, userHash: Option<string>, anonId: string,
                         newUserId: string, eventId: string, now: string, b: EventBody)
    requires EventsChecked(t.events)
    ensures var (t1, gate) := InstallCodeGate(t, installCode, userHash, anonId, newUserId, now);
            var (next, reply) := PostEvent(t, installCode, userHash, anonId, newUserId, eventId, now, b);
            && next.orgs == t.orgs && next.configs == t.configs
            && EventsChecked(next.events)
            && (gate.Failure? ==> next == t && reply.status == 401)
            && (gate.Success? && ValidateEvent(b).Some? ==>
                  next == t1 && reply == Reply(400, Failure(ValidateEvent(b).value)))
            && (gate.Success? && ValidateEvent(b).None? ==>
                  && reply == Reply(201, Success(Created(eventId)))
                  && next.events == t.events + [EventOf(b, eventId, gate.value.0.id, gate.value.1.id)]
                  && gate.value.0.installCode == installCode.value)
  {
    InstallCodeGateOutcome(t, installCode, userHash, anonId, newUserId, now);
  }

  /** After an accepted event the reporting user's block count has grown by
      exactly one for BLOCK and not at all for WARN, and the user is seen
      now; this holds for a user the gate has just created too, whose count
      starts at zero. No other user's row changes. */
  lemma BlockCountEffect(t: Tables, installCode: Option<string>, userHash: Option<string>, anonId: string,
                         newUserId: string, eventId: string, now: string, b: EventBody)
    requires InstallCodeGate(t, installCode, userHash, anonId, newUserId, now).1.Success?
    requires ValidateEvent(b).None?
    ensures var user := InstallCodeGate(t, installCode, userHash, anonId, newUserId, now).1.value.1;
            var next := PostEvent(t, installCode, userHash, anonId, newUserId, eventId, now, b).0;
            var d := if b.action.value == "BLOCK" then 1 else 0;
            && |t.users| <= |next.users| <= |t.users| + 1
            && (forall j :: 0 <= j < |t.users| && t.users[j].id == user.id ==>
                  next.users[j].blockCount == t.users[j].blockCount + d && next.users[j].lastSeenAt == Some(now))
            && (forall j :: 0 <= j < |t.users| && t.users[j].id != user.id ==> next.users[j] == t.users[j])
            && (|next.users| == |t.users| + 1 ==>
                  next.users[|t.users|].id == user.id && next.users[|t.users|].blockCount == d)
  {
    var (t1, gate) := InstallCodeGate(t, installCode, userHash, anonId, newUserId, now);
    var org := gate.value.0;
    var hash := UserHash(userHash, anonId);
    var user := gate.value.1;
    var block := b.action.value == "BLOCK";
    var next := PostEvent(t, installCode, userHash, anonId, newUserId, eventId, now, b).0;
    assert next.users == UpdateUsersWhere(t1.users, user.id, u => Recorded(u, block, now));
    assert (t1.users, user) == GetOrCreateUser(t.users, org.id, hash, newUserId, now);
    match FindUserByHash(t.users, org.id, hash)
    case Some(i) =>
      assert t1.users == UpdateUsersWhere(t.users, user.id, u => MarkSeen(u, now));
    case None =>
      assert t1.users == t.users + [NewEmployee(newUserId, org.id, hash, now)];
      assert t1.users[|t.users|].id == user.id;
  }

  /** `POST /api/events`. */
  method HandlePostEvent(db: Database, installCode: Option<string>, userHash: Option<string>, anonId: string,
                         newUserId: string, eventId: string, now: string, b: EventBody)
    returns (reply: Reply<Created>)
    modifies db
    ensures (db.Contents(), reply) == PostEvent(old(db.Contents()), installCode, userHash, anonId, newUserId, eventId, now, b)
  {
    var auth := RequireInstallCode(db, installCode, userHash, anonId, newUserId, now);
    if auth.Failure? {
      return Refused(auth.error);
    }
    var (org, user) := auth.value;
    var invalid := ValidateEvent(b);
    if invalid.Some? {
      return Reply(400, Failure(invalid.value));
    }
    db.events := db.events + [EventOf(b, eventId, org.id, user.id)];
    if b.action.value == "BLOCK" {
      db.users := UpdateUsersWhere(db.users, user.id, u => Recorded(u, true, now));
    } else {
      db.users := UpdateUsersWhere(db.users, user.id, u => Recorded(u, false, now));
    }
    return Reply(201, Success(Created(eventId)));
  }

  // ---------------------------------------------------------------------------
  // GET: the admin lists events
  // ---------------------------------------------------------------------------

  /** The query string of `GET`; a parameter is `None` when absent. */
  datatype Query = Query(
    page: Option<string>,
    limit: Option<string>,
    dataType: Option<string>,
    aiDomain: Option<string>,
    action: Option<string>,
    format: Option<string>)

  /** `parseInt` of a query parameter; an absent one reads as "null", which
      does not parse. */
  function ParseParam(p: Option<string>): Option<int> {
    if p.None? then None else ParseInt(p.value, false)
  }

  /** `Math.max(1, parseInt(page) || 1)`. */
  function PageNumber(p: Option<string>): (page: int)
    ensures page >= 1
    ensures ParseParam(p).Some? && ParseParam(p).value >= 1 ==> page == ParseParam(p).value
    ensures ParseParam(p).None? || ParseParam(p).value < 1 ==> page == 1
  {
    var n := ParseParam(p);
    var v := if n.None? || n.value == 0 then 1 else n.value;
    if v < 1 then 1 else v
  }

  /** `Math.min(100, Math.max(1, parseInt(limit) || 50))`. */
  function PageSize(l: Option<string>): (limit: int)
    ensures 1 <= limit <= 100
    ensures ParseParam(l).None? || ParseParam(l).value == 0 ==> limit == 50
    ensures ParseParam(l).Some? && 1 <= ParseParam(l).value <= 100 ==> limit == ParseParam(l).value
    ensures ParseParam(l).Some? && ParseParam(l).value > 100 ==> limit == 100
    ensures ParseParam(l).Some? && ParseParam(l).value < 0 ==> limit == 1
  {
    var n := ParseParam(l);
    var v := if n.None? || n.value == 0 then 50 else n.value;
    var atLeastOne := if v < 1 then 1 else v;
    if atLeastOne > 100 then 100 else atLeastOne
  }

  /** A page number written in decimal is the page asked for. */
  lemma PageOfNumeral(d: string)
    requires d != [] && forall i :: 0 <= i < |d| ==> IsDigit(d[i])
    requires DigitsValue(d, 10) >= 1
    ensures PageNumber(Some(d)) == DigitsValue(d, 10)
  {
    ParseIntDecimal(d, false);
  }

  /** A page size written in decimal is kept within 1..100, and 0 gives the
      default of 50. */
  lemma PageSizeOfNumeral(d: string)
    requires d != [] && forall i :: 0 <= i < |d| ==> IsDigit(d[i])
    ensures DigitsValue(d, 10) == 0 ==> PageSize(Some(d)) == 50
    ensures 1 <= DigitsValue(d, 10) <= 100 ==> PageSize(Some(d)) == DigitsValue(d, 10)
    ensures DigitsValue(d, 10) > 100 ==> PageSize(Some(d)) == 100
  {
    ParseIntDecimal(d, false);
  }

  /** The SQL `OFFSET` of a page. */
  function Offset(page: int, limit: int): (o: nat)
    requires page >= 1 && limit >= 1
  {
    var pagesBefore: nat := page - 1;
    var n: nat := limit;
    pagesBefore * n
  }

  /** `Math.ceil(total / limit)`. */
  function TotalPages(total: nat, limit: int): nat
    requires limit >= 1
  {
    (total + limit - 1) / limit
  }

  lemma MulMono(a: int, b: int, c: nat)
    requires a <= b
    ensures a * c <= b * c
  {
    var d: nat := b - a;
    assert b * c == a * c + d * c;
  }

  /** The page count is the least number of pages of `limit` rows that hold
      all `total` rows. */
  lemma TotalPagesCeiling(total: nat, limit: int)
    requires limit >= 1
    ensures TotalPages(total, limit) * limit >= total
    ensures TotalPages(total, limit) == 0 || (TotalPages(total, limit) - 1) * limit < total
  {
    var n := TotalPages(total, limit);
    var r := (total + limit - 1) % limit;
    assert n * limit + r == total + limit - 1;
    assert (n - 1) * limit == n * limit - limit;
  }

  /** Row `i` lies on page `i / limit + 1`. */
  lemma RowOnItsPage(limit: int, i: nat)
    requires limit >= 1
    ensures Offset(i / limit + 1, limit) <= i < Offset(i / limit + 1, limit) + limit
  {
    var q := i / limit;
    assert q * limit <= i < q * limit + limit;
    assert Offset(q + 1, limit) == q * limit;
  }

  /** A page that holds row `i` is page `i / limit + 1`. */
  lemma PageHoldingRow(limit: int, i: nat, p: int)
    requires limit >= 1 && p >= 1 && Offset(p, limit) <= i < Offset(p, limit) + limit
    ensures p == i / limit + 1
  {
    var q := i / limit;
    assert q * limit <= i < q * limit + limit;
    assert Offset(p, limit) == (p - 1) * limit;
    assert (p - 1) * limit + limit == p * limit;
    if p < q + 1 {
      MulMono(p, q, limit);
    } else if p > q + 1 {
      assert (q + 1) * limit == q * limit + limit;
      MulMono(q + 1, p - 1, limit);
    }
  }

  /** Every selected row lies on exactly one page, and that page is within
      the page count. */
  lemma PageOfRow(total: nat, limit: int, i: nat)
    requires limit >= 1 && i < total
    ensures var p := i / limit + 1;
            && 1 <= p <= TotalPages(total, limit)
            && Offset(p, limit) <= i < Offset(p, limit) + limit
    ensures forall p: int :: p >= 1 && Offset(p, limit) <= i < Offset(p, limit) + limit ==> p == i / limit + 1
  {
    var q := i / limit;
    RowOnItsPage(limit, i);
    TotalPagesCeiling(total, limit);
    var n := TotalPages(total, limit);
    if q >= n {
      MulMono(n, q, limit);
      assert false;
    }
    forall p: int | p >= 1 && Offset(p, limit) <= i < Offset(p, limit) + limit
      ensures p == i / limit + 1
    {
      PageHoldingRow(limit, i, p);
    }
  }

  /** An event as the route returns it, with its user's email joined in. */
  datatype Listed = Listed(
    id: string,
    timestamp: string,
    userId: string,
    userEmail: Option<string>,
    aiDomain: string,
    ruleId: string,
    dataTypes: seq<string>,
    action: string,
    extensionVersion: string)

  /** The `WHERE` clause: the admin's org, and each filter given. */
  predicate Matches(e: EventRow, orgId: string, q: Query) {
    && e.orgId == orgId
    && (Truthy(q.dataType) ==> q.dataType.value in e.dataTypes)
    && (Truthy(q.aiDomain) ==> e.aiDomain == q.aiDomain.value)
    && (Truthy(q.action) ==> e.action == q.action.value)
  }

  /** The rows the `WHERE` clause selects, in table order. */
  function Select(events: seq<EventRow>, orgId: string, q: Query): (r: seq<EventRow>)
    ensures |r| <= |events|
    ensures (forall i :: 0 <= i < |events| ==> Matches(events[i], orgId, q)) ==> r == events
    ensures (forall i :: 0 <= i < |events| ==> !Matches(events[i], orgId, q)) ==> r == []
  {
    if events == [] then []
    else (if Matches(events[0], orgId, q) then [events[0]] else []) + Select(events[1..], orgId, q)
  }

  /** The selected rows are exactly the org's events that pass every filter
      given. */
  lemma {:induction false} SelectMembers(events: seq<EventRow>, orgId: string, q: Query)
    ensures forall e :: e in Select(events, orgId, q) ==> e in events && Matches(e, orgId, q)
    ensures forall e :: e in events && Matches(e, orgId, q) ==> e in Select(events, orgId, q)
  {
    if events != [] {
      SelectMembers(events[1..], orgId, q);
      SelectUnfold(events, orgId, q);
      assert events == [events[0]] + events[1..];
    }
  }

  lemma SelectUnfold(events: seq<EventRow>, orgId: string, q: Query)
    requires events != []
    ensures Select(events, orgId, q)
            == (if Matches(events[0], orgId, q) then [events[0]] else []) + Select(events[1..], orgId, q)
  {
  }

  lemma TailOfAppend<T>(a: seq<T>, b: seq<T>)
    requires a != []
    ensures (a + b)[0] == a[0] && (a + b)[1..] == a[1..] + b
  {
  }

  lemma SelectConsAppend(a: seq<EventRow>, b: seq<EventRow>, orgId: string, q: Query)
    requires a != []
    ensures Select(a + b, orgId, q)
            == (if Matches(a[0], orgId, q) then [a[0]] else []) + Select(a[1..] + b, orgId, q)
  {
    TailOfAppend(a, b);
    SelectUnfold(a + b, orgId, q);
  }

  lemma SelectAppendStep(a: seq<EventRow>, b: seq<EventRow>, orgId: string, q: Query)
    requires a != []
    requires Select(a[1..] + b, orgId, q) == Select(a[1..], orgId, q) + Select(b, orgId, q)
    ensures Select(a + b, orgId, q) == Select(a, orgId, q) + Select(b, orgId, q)
  {
    SelectConsAppend(a, b, orgId, q);
    SelectUnfold(a, orgId, q);
    ConcatAssoc(if Matches(a[0], orgId, q) then [a[0]] else [], Select(a[1..], orgId, q), Select(b, orgId, q));
  }

  lemma ConcatAssoc<T>(h: seq<T>, x: seq<T>, y: seq<T>)
    ensures h + (x + y) == (h + x) + y
  {
  }

  /** The selection is made row by row: the rows of a concatenation that are
      selected keep their table order, and a row that occurs twice is counted
      twice. */
  lemma {:induction false} SelectAppend(a: seq<EventRow>, b: seq<EventRow>, orgId: string, q: Query)
    ensures Select(a + b, orgId, q) == Select(a, orgId, q) + Select(b, orgId, q)
  {
    if a == [] {
      assert a + b == b;
    } else {
      SelectAppend(a[1..], b, orgId, q);
      SelectAppendStep(a, b, orgId, q);
    }
  }

  /** `u.email` of the `LEFT JOIN`: the email of the first user with the
      event's user id, if any. */
  function UserEmail(users: seq<User>, userId: string): Option<string> {
    if users == [] then None
    else if users[0].id == userId then users[0].email
    else UserEmail(users[1..], userId)
  }

  function ListedOf(e: EventRow, users: seq<User>): Listed {
    Listed(e.id, e.timestamp, e.userId, UserEmail(users, e.userId), e.aiDomain, e.ruleId,
           e.dataTypes, e.action, e.extensionVersion)
  }

  /** `l` is the formatted row of an event of org `orgId` in `table`. */
  ghost predicate ListedFromOrg(l: Listed, table: seq<EventRow>, users: seq<User>, orgId: string) {
    exists e :: e in table && e.orgId == orgId && l == ListedOf(e, users)
  }

  function ListAll(events: seq<EventRow>, users: seq<User>): (r: seq<Listed>)
    ensures |r| == |events| && forall i :: 0 <= i < |events| ==> r[i] == ListedOf(events[i], users)
  {
    seq(|events|, i requires 0 <= i < |events| => ListedOf(events[i], users))
  }

  /** `LIMIT limit OFFSET offset`: the rows from the offset on, at most
      `limit` of them, so a short last page keeps every remaining row. */
  function Window<T>(rows: seq<T>, offset: nat, limit: nat): (w: seq<T>)
    ensures |w| == if offset >= |rows| then 0 else if offset + limit <= |rows| then limit else |rows| - offset
    ensures forall k :: 0 <= k < |w| ==> offset + k < |rows| && w[k] == rows[offset + k]
  {
    var from := if offset < |rows| then offset else |rows|;
    var to := if offset + limit < |rows| then offset + limit else |rows|;
    rows[from..to]
  }

  datatype Pagination = Pagination(page: int, limit: int, total: nat, totalPages: nat)

  /** The body of a `GET` reply. */
  datatype Listing = Json(events: seq<Listed>, pagination: Pagination) | CsvFile(text: string)

  // CSV export

  const CsvColumns: seq<string> :=
    ["id", "timestamp", "userId", "userEmail", "aiDomain", "ruleId", "dataTypes", "action", "extensionVersion"]

  /** The header line: the nine column names joined by commas. */
  const CsvHeader: string := Join(CsvColumns, ",")

  /** The nine cells of a row, in header order: a missing email is empty,
      and the data types are joined by commas inside double quotes. */
  function RowCells(e: Listed): seq<Cell> {
    [Plain(e.id), Plain(e.timestamp), Plain(e.userId),
     Plain(if e.userEmail.Some? then e.userEmail.value else ""),
     Plain(e.aiDomain), Plain(e.ruleId), Quoted(Join(e.dataTypes, ",")),
     Plain(e.action), Plain(e.extensionVersion)]
  }

  function CsvRow(e: Listed): string {
    RenderRow(RowCells(e))
  }

  /** The header line, then one line per event. */
  function CsvExport(events: seq<Listed>): string {
    Join([CsvHeader] + seq(|events|, i requires 0 <= i < |events| => CsvRow(events[i])), "\n")
  }

  /** The events of the requested page: the org's selection, formatted,
      cut at the page's offset to at most `limit` rows. */
  function Shown(t: Tables, orgId: string, q: Query): seq<Listed> {
    var limit := PageSize(q.limit);
    Window(ListAll(Select(t.events, orgId, q), t.users), Offset(PageNumber(q.page), limit), limit)
  }

  /** The JSON body: the page's events and the pagination. */
  function JsonListing(t: Tables, orgId: string, q: Query): Listing {
    var page, limit := PageNumber(q.page), PageSize(q.limit);
    var total := |Select(t.events, orgId, q)|;
    Json(Shown(t, orgId, q), Pagination(page, limit, total, TotalPages(total, limit)))
  }

  /** `GET`: the admin gate, then the page of the selected events, as JSON
      with its pagination or as CSV. Nothing is written. */
  function GetEvents(t: Tables, authHeader: Option<string>, verify: string -> Option<Claims>, q: Query): Reply<Listing> {
    match RequireAdmin(authHeader, verify)
    case Failure(r) => Refused(r)
    case Success(claims) =>
      if q.format == Some("csv") then Reply(200, Success(CsvFile(CsvExport(Shown(t, claims.orgId, q)))))
      else Reply(200, Success(JsonListing(t, claims.orgId, q)))
  }

  /** The JSON listing holds a clamped page and limit, the size of the whole
      selection, and `limit` events, or on the last page every row left
      after the offset. */
  lemma JsonListingBounds(t: Tables, orgId: string, q: Query)
    ensures var listing := JsonListing(t, orgId, q);
            var limit, total := listing.pagination.limit, listing.pagination.total;
            && 1 <= limit <= 100 && listing.pagination.page >= 1
            && total == |Select(t.events, orgId, q)|
            && var offset := Offset(listing.pagination.page, limit);
               |listing.events| == (if offset >= total then 0 else if offset + limit <= total then limit else total - offset)
  {
    var sel := Select(t.events, orgId, q);
    var limit := PageSize(q.limit);
    WindowListed(sel, t.users, Offset(PageNumber(q.page), limit), limit);
  }

  /** Each event of the JSON listing is the formatted selected row at the
      page's offset, an event of the caller's org that passes every filter. */
  lemma JsonListingRows(t: Tables, orgId: string, q: Query)
    ensures var listing := JsonListing(t, orgId, q);
            var sel := Select(t.events, orgId, q);
            var offset := Offset(PageNumber(q.page), PageSize(q.limit));
            forall k :: 0 <= k < |listing.events| ==>
              && offset + k < |sel| && listing.events[k] == ListedOf(sel[offset + k], t.users)
              && sel[offset + k] in t.events && Matches(sel[offset + k], orgId, q)
  {
    var sel := Select(t.events, orgId, q);
    var limit := PageSize(q.limit);
    var offset := Offset(PageNumber(q.page), limit);
    assert JsonListing(t, orgId, q).events == Window(ListAll(sel, t.users), offset, limit);
    WindowListed(sel, t.users, offset, limit);
    SelectedRows(t.events, orgId, q);
  }

  /** Row `i` of the selection is listed on page `i / limit + 1`, at its
      place within that page: paging through the pages loses no row. */
  lemma ListedOnItsPage(sel: seq<EventRow>, users: seq<User>, limit: int, i: nat)
    requires limit >= 1 && i < |sel|
    ensures var offset := Offset(i / limit + 1, limit);
            var w := Window(ListAll(sel, users), offset, limit);
            offset <= i < offset + |w| && w[i - offset] == ListedOf(sel[i], users)
  {
    var offset := Offset(i / limit + 1, limit);
    RowOnItsPage(limit, i);
    WindowListed(sel, users, offset, limit);
  }

  /** Every row of a window of the formatted selection is an event of the
      org. */
  lemma WindowFromOrg(events: seq<EventRow>, users: seq<User>, orgId: string, q: Query, offset: nat, limit: nat)
    ensures var w := Window(ListAll(Select(events, orgId, q), users), offset, limit);
            forall k :: 0 <= k < |w| ==> ListedFromOrg(w[k], events, users, orgId)
  {
    var sel := Select(events, orgId, q);
    var w := Window(ListAll(sel, users), offset, limit);
    WindowListed(sel, users, offset, limit);
    SelectMembers(events, orgId, q);
    forall k | 0 <= k < |w| ensures ListedFromOrg(w[k], events, users, orgId) {
      var e := sel[offset + k];
      assert e in sel;
      assert e in events && Matches(e, orgId, q);
      assert e.orgId == orgId && w[k] == ListedOf(e, users);
    }
  }

  /** A window of the formatted rows is the formatted window of the rows. */
  lemma WindowListed(sel: seq<EventRow>, users: seq<User>, offset: nat, limit: nat)
    ensures var w := Window(ListAll(sel, users), offset, limit);
            && |w| == (if offset >= |sel| then 0 else if offset + limit <= |sel| then limit else |sel| - offset)
            && forall k :: 0 <= k < |w| ==> offset + k < |sel| && w[k] == ListedOf(sel[offset + k], users)
  {
  }

  /** Every row of the selection is an event of the table that matches the
      query. */
  lemma SelectedRows(events: seq<EventRow>, orgId: string, q: Query)
    ensures var sel := Select(events, orgId, q);
            forall j :: 0 <= j < |sel| ==> sel[j] in events && Matches(sel[j], orgId, q)
  {
    var sel := Select(events, orgId, q);
    SelectMembers(events, orgId, q);
    forall j | 0 <= j < |sel| ensures sel[j] in events && Matches(sel[j], orgId, q) {
      assert sel[j] in sel;
    }
  }

  lemma GetEventsUnfold(t: Tables, authHeader: Option<string>, verify: string -> Option<Claims>, q: Query)
    ensures var gate := RequireAdmin(authHeader, verify);
            var reply := GetEvents(t, authHeader, verify, q);
            && (gate.Failure? ==> reply == Refused(gate.error))
            && (gate.Success? && q.format == Some("csv") ==>
                  reply == Reply(200, Success(CsvFile(CsvExport(Shown(t, gate.value.orgId, q))))))
            && (gate.Success? && q.format != Some("csv") ==>
                  reply == Reply(200, Success(JsonListing(t, gate.value.orgId, q))))
  {
  }

  /** A caller the admin gate refuses gets its 401 or 403 and no events. */
  lemma GetEventsRefused(t: Tables, authHeader: Option<string>, verify: string -> Option<Claims>, q: Query)
    requires RequireAdmin(authHeader, verify).Failure?
    ensures var reply := GetEvents(t, authHeader, verify, q);
            reply.body.Failure? && reply.status in {401, 403}
  {
    GetEventsUnfold(t, authHeader, verify, q);
    RequireAdminOrder(authHeader, verify);
  }

  /** An admin who does not ask for CSV gets 200 and a JSON listing that
      holds only events of their own org. */
  lemma GetEventsScope(t: Tables, authHeader: Option<string>, verify: string -> Option<Claims>, q: Query)
    requires RequireAdmin(authHeader, verify).Success? && q.format != Some("csv")
    ensures var orgId := RequireAdmin(authHeader, verify).value.orgId;
            var reply := GetEvents(t, authHeader, verify, q);
            && reply.status == 200 && reply.body.Success? && reply.body.value.Json?
            && forall k :: 0 <= k < |reply.body.value.events| ==>
                 ListedFromOrg(reply.body.value.events[k], t.events, t.users, orgId)
  {
    var orgId := RequireAdmin(authHeader, verify).value.orgId;
    var limit := PageSize(q.limit);
    GetEventsUnfold(t, authHeader, verify, q);
    WindowFromOrg(t.events, t.users, orgId, q, Offset(PageNumber(q.page), limit), limit);
    assert JsonListing(t, orgId, q).events
           == Window(ListAll(Select(t.events, orgId, q), t.users), Offset(PageNumber(q.page), limit), limit);
  }

  /** An admin who asks for CSV gets 200 and the export of exactly the events
      the JSON listing of the same query would hold. */
  lemma GetEventsCsv(t: Tables, authHeader: Option<string>, verify: string -> Option<Claims>, q: Query)
    requires RequireAdmin(authHeader, verify).Success? && q.format == Some("csv")
    ensures var orgId := RequireAdmin(authHeader, verify).value.orgId;
            var reply := GetEvents(t, authHeader, verify, q);
            reply.status == 200 && reply.body == Success(CsvFile(CsvExport(JsonListing(t, orgId, q).events)))
  {
    GetEventsUnfold(t, authHeader, verify, q);
  }

  /** No value of the event holds a comma or a quote, so that each cell
      reads back. */
  predicate CsvSafe(e: Listed) {
    && (forall s :: s in [e.id, e.timestamp, e.userId, e.aiDomain, e.ruleId, e.action, e.extensionVersion] ==>
          ',' !in s && '"' !in s)
    && (e.userEmail.Some? ==> ',' !in e.userEmail.value && '"' !in e.userEmail.value)
    && (forall k :: 0 <= k < |e.dataTypes| ==> ',' !in e.dataTypes[k] && '"' !in e.dataTypes[k])
  }

  lemma RowCellsReadable(e: Listed)
    requires CsvSafe(e)
    ensures forall i :: 0 <= i < |RowCells(e)| ==> Readable(RowCells(e)[i])
  {
    JoinAvoids(e.dataTypes, ",", '"');
    var plain := [e.id, e.timestamp, e.userId, e.aiDomain, e.ruleId, e.action, e.extensionVersion];
    assert plain[0] in plain && plain[1] in plain && plain[2] in plain && plain[3] in plain;
    assert plain[4] in plain && plain[5] in plain && plain[6] in plain;
  }

  lemma RowTexts(e: Listed)
    ensures Texts(RowCells(e)) == [e.id, e.timestamp, e.userId, if e.userEmail.Some? then e.userEmail.value else "",
                                   e.aiDomain, e.ruleId, Join(e.dataTypes, ","), e.action, e.extensionVersion]
  {
    var t := Texts(RowCells(e));
    assert |t| == 9;
  }

  /** The CSV cells read back as the event's values, the data types
      splitting back into the list, when no value holds a comma or a
      quote. */
  lemma CsvRowFields(e: Listed)
    requires CsvSafe(e)
    ensures var fields := Fields(CsvRow(e));
            && fields == [e.id, e.timestamp, e.userId, if e.userEmail.Some? then e.userEmail.value else "",
                          e.aiDomain, e.ruleId, Join(e.dataTypes, ","), e.action, e.extensionVersion]
            && (e.dataTypes != [] ==> Split(fields[6], ',') == e.dataTypes)
  {
    var cells := RowCells(e);
    RowCellsReadable(e);
    FieldsOfRow(cells);
    RowTexts(e);
    if e.dataTypes != [] {
      SplitJoin(e.dataTypes, ',');
    }
  }

  lemma ColumnNamesPlain()
    ensures forall c :: 0 <= c < |CsvColumns| ==> '\n' !in CsvColumns[c] && ',' !in CsvColumns[c]
  {
  }

  lemma CsvRowOneLine(e: Listed)
    requires forall j :: 0 <= j < |RowCells(e)| ==> '\n' !in RowCells(e)[j].text
    ensures '\n' !in CsvRow(e)
  {
    RowAvoids(RowCells(e), '\n');
  }

  /** The export splits into the header and one line per event when no
      value holds a line break. */
  lemma CsvLines(events: seq<Listed>)
    requires forall i, j :: 0 <= i < |events| && 0 <= j < |RowCells(events[i])| ==> '\n' !in RowCells(events[i])[j].text
    ensures Split(CsvExport(events), '\n') == [CsvHeader] + seq(|events|, i requires 0 <= i < |events| => CsvRow(events[i]))
  {
    var rows := seq(|events|, i requires 0 <= i < |events| => CsvRow(events[i]));
    var lines := [CsvHeader] + rows;
    ColumnNamesPlain();
    JoinAvoids(CsvColumns, ",", '\n');
    forall k | 0 <= k < |rows| ensures '\n' !in rows[k] {
      CsvRowOneLine(events[k]);
    }
    assert forall k :: 0 <= k < |lines| ==> '\n' !in lines[k] by {
      forall k | 0 <= k < |lines| ensures '\n' !in lines[k] {
        if k > 0 {
          assert lines[k] == rows[k - 1];
        }
      }
    }
    SplitJoin(lines, '\n');
  }

  /** The header names the nine columns in the order of the rows' cells. */
  lemma CsvHeaderColumns()
    ensures Split(CsvHeader, ',') == CsvColumns && |CsvColumns| == 9
  {
    ColumnNamesPlain();
    SplitJoin(CsvColumns, ',');
  }
}
