/**
 * The row logic of the admin users table (src/components/UsersDatabase.jsx):
 * how a user document becomes a table row, which cells may be edited, the
 * expanded-cell dictionary, saving one cell, and deleting a user together
 * with their bookings and event seats.
 *
 * Firestore reads are inputs (the user snapshot, the bookings, the event
 * catalogue, whether a document exists); Firestore writes are returned as
 * data.
 */
module UsersDatabase {
  import opened JsValues
  import opened Strings
  import opened JsArrays
  import Sorting

  type DocId = s: string | s != "" witness "u"

  /**
   * A date-like field as stored: missing, a JavaScript `Date`, a string, a
   * Firestore timestamp, or something else. A date carries what the locale
   * formatting makes of it (`toLocaleDateString('it-IT')` and
   * `toLocaleString()`), which are inputs to the model.
   */
  datatype DateValue =
    | NoValue
    | JsDate(italianDate: string, localDateTime: string)
    | Text(text: string)
    | FirestoreTimestamp(italianDate: string, localDateTime: string)
    | OtherValue

  /** A stored `currentYearMember`: missing, a boolean, or a value of another type. */
  datatype StoredFlag = Missing | Boolean(b: bool) | NonBoolean

  /** A document of the `users` collection, with the fields the table reads. */
  datatype UserDoc = UserDoc(
    id: DocId,
    email: Option<string>,
    taxId: Option<string>,
    name: Option<string>,
    surname: Option<string>,
    displayName: Option<string>,
    birthDate: DateValue,
    createdAt: DateValue,
    address: Option<string>,
    instagram: Option<string>,
    role: Option<string>,
    eventsBooked: seq<string>,        // eventsBooked || []
    membershipYears: seq<int>,        // membershipYears || []
    currentYearMember: StoredFlag,
    lastBookingYear: Option<int>,
    personalDetailsLastConfirmed: DateValue)

  /** A document of the `bookings` collection: its id, owner and contact phone. */
  datatype BookingRef = BookingRef(docId: DocId, userId: string, contactPhone: Option<string>)

  /** A document of the `events` collection; `attendees || []` and `spots || 0`. */
  datatype EventDoc = EventDoc(title: string, date: string, attendees: seq<string>, spots: int)

  /** The membership column: the years, newest first, or the `none` marker. */
  datatype MembershipDisplay = Years(years: seq<int>) | NoneMarker

  /** One row of the table. */
  datatype Row = Row(
    id: string,
    email: string,
    taxId: string,
    fullName: string,
    name: string,
    surname: string,
    birthDate: string,
    phone: string,
    address: string,
    instagram: string,
    role: string,
    createdAt: string,
    eventsBooked: seq<string>,
    membershipYears: MembershipDisplay,
    currentYearMember: bool,
    lastBookingYear: Option<int>,
    personalDetailsLastConfirmed: DateValue)

  // ----- fetchUsers -----

  /** `name surname` when both are non-empty, else `displayName`, else empty. */
  function FullName(name: Option<string>, surname: Option<string>, displayName: Option<string>): (r: string)
    ensures r == "" <==> !(Present(name) && Present(surname)) && !Present(displayName)
    ensures Present(name) && Present(surname) ==> StartsWith(r, name.value + " ")
  {
    if Present(name) && Present(surname) then name.value + " " + surname.value else Or(displayName, "")
  }

  /** The birth date cell: a `Date` or timestamp in Italian format, a string as stored, else empty. */
  function BirthDateText(d: DateValue): (r: string)
    ensures !DateTruthy(d) || d.OtherValue? ==> r == ""
    ensures d.Text? ==> r == d.text
    ensures d.JsDate? || d.FirestoreTimestamp? ==> r == d.italianDate
  {
    match d
    case JsDate(day, _) => day
    case Text(t) => t
    case FirestoreTimestamp(day, _) => day
    case _ => ""
  }

  /** The creation date cell: a timestamp or `Date` in local format, a string as stored, else empty. */
  function CreatedAtText(d: DateValue): (r: string)
    ensures !DateTruthy(d) || d.OtherValue? ==> r == ""
    ensures d.Text? ==> r == d.text
    ensures d.JsDate? || d.FirestoreTimestamp? ==> r == d.localDateTime
  {
    match d
    case FirestoreTimestamp(_, full) => full
    case JsDate(_, full) => full
    case Text(t) => t
    case _ => ""
  }

  /** A JavaScript-truthy date field: present, and not the empty string. */
  predicate DateTruthy(d: DateValue) {
    !d.NoValue? && !(d.Text? && d.text == "")
  }

  /** No booking before index `i` belongs to `userId`. */
  predicate FirstOf(bookings: seq<BookingRef>, userId: string, i: int)
    requires 0 <= i <= |bookings|
  {
    forall j :: 0 <= j < i ==> bookings[j].userId != userId
  }

  /** The first booking of `userId` in the snapshot, if there is one. */
  function FirstBookingOf(bookings: seq<BookingRef>, userId: string): (r: Option<BookingRef>)
    ensures r.None? <==> forall i :: 0 <= i < |bookings| ==> bookings[i].userId != userId
    ensures r.Some? ==> r.value.userId == userId
    ensures r.Some? ==> exists i :: 0 <= i < |bookings| && bookings[i] == r.value && FirstOf(bookings, userId, i)
  {
    if bookings == [] then None
    else if bookings[0].userId == userId then Some(bookings[0])
    else
      var r := FirstBookingOf(bookings[1..], userId);
      assert forall i :: 1 <= i < |bookings| ==> bookings[i] == bookings[1..][i - 1];
      if r.Some? then
        var i :| 0 <= i < |bookings[1..]| && bookings[1..][i] == r.value && FirstOf(bookings[1..], userId, i);
        assert bookings[i + 1] == r.value;
        assert FirstOf(bookings, userId, i + 1) by {
          forall j | 0 <= j < i + 1 ensures bookings[j].userId != userId {
            if j > 0 {
              assert bookings[j] == bookings[1..][j - 1];
            }
          }
        }
        r
      else r
  }

  /** The phone of the user's first booking, or empty; later bookings are not consulted. */
  function PhoneOf(bookings: seq<BookingRef>, userId: string): (r: string)
    ensures (forall i :: 0 <= i < |bookings| ==> bookings[i].userId != userId) ==> r == ""
    ensures r != "" ==> exists i :: 0 <= i < |bookings| && bookings[i].userId == userId && bookings[i].contactPhone == Some(r)
  {
    match FirstBookingOf(bookings, userId)
    case Some(b) => Or(b.contactPhone, "")
    case None => ""
  }

  /** `${title} (${date})`. */
  function EventLine(e: EventDoc): string {
    e.title + " (" + e.date + ")"
  }

  /** One line per booked event that exists in the catalogue, in booking order. */
  function EventLines(ids: seq<string>, catalog: map<string, EventDoc>): (lines: seq<string>)
    ensures |lines| <= |ids|
    ensures forall l :: l in lines ==> exists id :: id in ids && id in catalog && l == EventLine(catalog[id])
    ensures lines == [] <==> forall i :: 0 <= i < |ids| ==> ids[i] !in catalog
    decreases |ids|
  {
    if ids == [] then []
    else
      var init := ids[..|ids| - 1];
      var last := ids[|ids| - 1];
      assert forall i :: 0 <= i < |init| ==> init[i] == ids[i];
      EventLines(init, catalog) + (if last in catalog then [EventLine(catalog[last])] else [])
  }

  /** The booked event ids that exist in the catalogue. */
  function InCatalog(catalog: map<string, EventDoc>): string -> bool {
    (id: string) => id in catalog
  }

  /** Every booked event that exists contributes its line. */
  lemma {:induction false} EventLinesCover(ids: seq<string>, catalog: map<string, EventDoc>)
    ensures forall i :: 0 <= i < |ids| && ids[i] in catalog ==> EventLine(catalog[ids[i]]) in EventLines(ids, catalog)
    decreases |ids|
  {
    if ids != [] {
      var init, last := ids[..|ids| - 1], ids[|ids| - 1];
      EventLinesCover(init, catalog);
      var before := EventLines(init, catalog);
      var lines := before + (if last in catalog then [EventLine(catalog[last])] else []);
      assert EventLines(ids, catalog) == lines;
      forall i | 0 <= i < |ids| && ids[i] in catalog ensures EventLine(catalog[ids[i]]) in lines {
        if i < |init| {
          assert ids[i] == init[i];
          assert EventLine(catalog[init[i]]) in before;
        }
      }
    }
  }

  /** There is one line per booked event that exists. */
  lemma {:induction false} EventLinesCount(ids: seq<string>, catalog: map<string, EventDoc>)
    ensures |EventLines(ids, catalog)| == |Where(ids, InCatalog(catalog))|
    decreases |ids|
  {
    if ids != [] {
      var init, last := ids[..|ids| - 1], ids[|ids| - 1];
      EventLinesCount(init, catalog);
      WhereLast(ids, InCatalog(catalog));
    }
  }

  /** The events cell: the lines, or a placeholder when there are none. */
  function EventsDisplay(lines: seq<string>): seq<string> {
    if |lines| > 0 then lines else ["No events booked"]
  }

  /** The sort key of `(a, b) => b - a`: a year is ordered by its own value. */
  function YearSortKey(y: int): int {
    y
  }

  /** The membership cell shows the stored years newest first, or `none` when there are none. */
  ghost predicate MembershipOk(stored: seq<int>, shown: MembershipDisplay) {
    if stored == [] then shown == NoneMarker
    else shown.Years? && Sorting.NonIncreasing(shown.years, YearSortKey) && multiset(shown.years) == multiset(stored)
  }

  /** `membershipYears.sort((a, b) => b - a)` on a copy of the stored array, or `['none']`. */
  method MembershipYearsDisplay(years: seq<int>) returns (shown: MembershipDisplay)
    ensures MembershipOk(years, shown)
  {
    if |years| == 0 {
      return NoneMarker;
    }
    var a := new int[|years|](i requires 0 <= i < |years| => years[i]);
    assert a[..] == years;
    Sorting.SortDescendingBy(a, YearSortKey);
    shown := Years(a[..]);
  }

  /** The row pushed for a user, given its phone, event lines and membership cell. */
  function UserRow(u: UserDoc, phone: string, lines: seq<string>, years: MembershipDisplay): Row
  {
    Row(
      id := u.id,
      email := Or(u.email, ""),
      taxId := Or(u.taxId, ""),
      fullName := FullName(u.name, u.surname, u.displayName),
      name := Or(u.name, ""),
      surname := Or(u.surname, ""),
      birthDate := BirthDateText(u.birthDate),
      phone := phone,
      address := Or(u.address, ""),
      instagram := Or(u.instagram, ""),
      role := Or(u.role, ""),
      createdAt := CreatedAtText(u.createdAt),
      eventsBooked := EventsDisplay(lines),
      membershipYears := years,
      currentYearMember := u.currentYearMember == Boolean(true),
      lastBookingYear := if u.lastBookingYear.Some? && u.lastBookingYear.value != 0 then u.lastBookingYear else None,
      personalDetailsLastConfirmed := if DateTruthy(u.personalDetailsLastConfirmed) then u.personalDetailsLastConfirmed else NoValue)
  }

  /** `r` is the row `fetchUsers` builds for `u`. */
  ghost predicate FetchedRow(u: UserDoc, bookings: seq<BookingRef>, catalog: map<string, EventDoc>, r: Row) {
    && r == UserRow(u, PhoneOf(bookings, u.id), EventLines(u.eventsBooked, catalog), r.membershipYears)
    && MembershipOk(u.membershipYears, r.membershipYears)
  }

  /** The loop of `fetchUsers` over one user's booked events. */
  method CollectEventLines(events: seq<string>, catalog: map<string, EventDoc>) returns (details: seq<string>)
    ensures details == EventLines(events, catalog)
  {
    details := [];
    for j := 0 to |events|
      invariant details == EventLines(events[..j], catalog)
    {
      assert events[..j + 1][..j] == events[..j];
      var eventId := events[j];
      if eventId in catalog {
        details := details + [EventLine(catalog[eventId])];
      }
    }
    assert events[..|events|] == events;
  }

  /** The body of the `fetchUsers` loop: the row of one user document. */
  method FetchRow(user: UserDoc, bookings: seq<BookingRef>, catalog: map<string, EventDoc>) returns (row: Row)
    ensures FetchedRow(user, bookings, catalog, row)
  {
    var details := CollectEventLines(user.eventsBooked, catalog);
    var phone := PhoneOf(bookings, user.id);
    var years := MembershipYearsDisplay(user.membershipYears);
    row := UserRow(user, phone, details, years);
  }

  /** `fetchUsers`: one row per user document, in snapshot order. */
  method FetchUsers(users: seq<UserDoc>, bookings: seq<BookingRef>, catalog: map<string, EventDoc>)
    returns (rows: seq<Row>)
    ensures |rows| == |users|
    ensures forall i :: 0 <= i < |users| ==> FetchedRow(users[i], bookings, catalog, rows[i])
  {
    rows := [];
    for i := 0 to |users|
      invariant |rows| == i
      invariant forall k :: 0 <= k < i ==> FetchedRow(users[k], bookings, catalog, rows[k])
    {
      var row := FetchRow(users[i], bookings, catalog);
      rows := rows + [row];
    }
  }

  /** An event line ends with a closing parenthesis. */
  lemma EventLineEnds(e: EventDoc)
    ensures EventLine(e) != [] && EventLine(e)[|EventLine(e)| - 1] == ')'
  {
  }

  /** What a fetched row shows. */
  lemma FetchedRowShows(u: UserDoc, bookings: seq<BookingRef>, catalog: map<string, EventDoc>, r: Row)
    requires FetchedRow(u, bookings, catalog, r)
    ensures r.id == u.id
    ensures Present(u.name) && Present(u.surname) ==> r.fullName == u.name.value + " " + u.surname.value
    ensures !(Present(u.name) && Present(u.surname)) ==> r.fullName == Or(u.displayName, "")
    ensures r.currentYearMember <==> u.currentYearMember == Boolean(true)
    ensures r.eventsBooked != []
    ensures r.eventsBooked == ["No events booked"] <==> forall i :: 0 <= i < |u.eventsBooked| ==> u.eventsBooked[i] !in catalog
    ensures MembershipOk(u.membershipYears, r.membershipYears)
    ensures u.birthDate.Text? ==> r.birthDate == u.birthDate.text
    ensures !DateTruthy(u.birthDate) ==> r.birthDate == ""
    ensures u.createdAt.FirestoreTimestamp? || u.createdAt.JsDate? ==> r.createdAt == u.createdAt.localDateTime
    ensures !DateTruthy(u.createdAt) ==> r.createdAt == ""
    ensures r.phone == PhoneOf(bookings, u.id)
    ensures r.email == Or(u.email, "") && r.name == Or(u.name, "") && r.surname == Or(u.surname, "")
    ensures r.lastBookingYear.None? <==> u.lastBookingYear.None? || u.lastBookingYear == Some(0)
    ensures r.lastBookingYear.Some? ==> r.lastBookingYear == u.lastBookingYear
    ensures DateTruthy(u.personalDetailsLastConfirmed) ==> r.personalDetailsLastConfirmed == u.personalDetailsLastConfirmed
    ensures !DateTruthy(u.personalDetailsLastConfirmed) ==> r.personalDetailsLastConfirmed == NoValue
  {
    var lines := EventLines(u.eventsBooked, catalog);
    if lines != [] && lines == ["No events booked"] {
      assert lines[0] in lines;
      var id :| id in u.eventsBooked && id in catalog && lines[0] == EventLine(catalog[id]);
      EventLineEnds(catalog[id]);
      assert false;
    }
  }

  /** A stored membership flag counts only when it is the boolean `true`. */
  lemma TruthyFlagIsNotMembership(u: UserDoc, phone: string, lines: seq<string>, years: MembershipDisplay)
    requires u.currentYearMember == NonBoolean
    ensures !UserRow(u, phone, lines, years).currentYearMember
  {
  }

  /** The phone is that of the user's first booking, whatever later bookings carry. */
  lemma PhoneFromFirstBookingOnly(bookings: seq<BookingRef>, userId: string, i: int)
    requires 0 <= i < |bookings| && bookings[i].userId == userId && FirstOf(bookings, userId, i)
    ensures PhoneOf(bookings, userId) == Or(bookings[i].contactPhone, "")
  {
    var b := FirstBookingOf(bookings, userId).value;
    var j :| 0 <= j < |bookings| && bookings[j] == b && FirstOf(bookings, userId, j);
  }

  // ----- Expanded cells -----

  /** `${rowId}-${columnId}`. */
  function CellKey(rowId: string, columnId: string): string {
    rowId + "-" + columnId
  }

  /** `isCellExpanded`: a missing key reads as collapsed. */
  predicate IsCellExpanded(expanded: map<string, bool>, rowId: string, columnId: string): (r: bool)
    ensures r ==> CellKey(rowId, columnId) in expanded
    ensures CellKey(rowId, columnId) in expanded ==> (r <==> expanded[CellKey(rowId, columnId)])
  {
    var k := CellKey(rowId, columnId);
    k in expanded && expanded[k]
  }

  /** `toggleCellExpand`: flips one key and copies the others. */
  function ToggleCellExpand(expanded: map<string, bool>, rowId: string, columnId: string): (r: map<string, bool>)
    ensures IsCellExpanded(r, rowId, columnId) == !IsCellExpanded(expanded, rowId, columnId)
    ensures forall k :: k != CellKey(rowId, columnId) ==> (k in r <==> k in expanded)
    ensures forall k :: k != CellKey(rowId, columnId) && k in expanded ==> r[k] == expanded[k]
  {
    var k := CellKey(rowId, columnId);
    expanded[k := !(k in expanded && expanded[k])]
  }

  /** Toggling the same cell twice restores every cell's state. */
  lemma ToggleTwiceRestores(expanded: map<string, bool>, rowId: string, columnId: string, r: string, c: string)
    ensures IsCellExpanded(ToggleCellExpand(ToggleCellExpand(expanded, rowId, columnId), rowId, columnId), r, c)
      == IsCellExpanded(expanded, r, c)
  {
  }

  lemma CellKeyChars(r: string, c: string, p: int)
    ensures CellKey(r, c)[|r|] == '-'
    ensures |CellKey(r, c)| == |r| + 1 + |c|
    ensures |r| < p < |CellKey(r, c)| ==> CellKey(r, c)[p] == c[p - |r| - 1]
  {
  }

  /** Column ids contain no dash, so distinct cells have distinct keys. */
  lemma CellKeyInjective(r1: string, c1: string, r2: string, c2: string)
    requires '-' !in c1 && '-' !in c2
    ensures CellKey(r1, c1) == CellKey(r2, c2) ==> r1 == r2 && c1 == c2
  {
    if CellKey(r1, c1) == CellKey(r2, c2) {
      var k := CellKey(r1, c1);
      CellKeyChars(r1, c1, |r1|);
      CellKeyChars(r2, c2, |r1|);
      CellKeyChars(r2, c2, |r2|);
      CellKeyChars(r1, c1, |r2|);
      if |c1| < |c2| {
        assert false;
      } else if |c2| < |c1| {
        assert false;
      }
      assert c1 == k[|r1| + 1..] == c2;
      assert r1 == k[..|r1|] == r2;
    }
  }

  /** Toggling a cell leaves the state of every other cell alone. */
  lemma ToggleLeavesOtherCells(expanded: map<string, bool>, rowId: string, columnId: string, r: string, c: string)
    requires '-' !in columnId && '-' !in c && (r != rowId || c != columnId)
    ensures IsCellExpanded(ToggleCellExpand(expanded, rowId, columnId), r, c) == IsCellExpanded(expanded, r, c)
  {
    CellKeyInjective(rowId, columnId, r, c);
  }

  // ----- Editing -----

  /** The columns `handleEdit` refuses to put into edit mode. */
  const LockedColumns: set<string> :=
    {"id", "role", "eventsBooked", "createdAt", "phone", "membershipYears", "currentYearMember"}

  datatype EditingCell = EditingCell(rowId: string, columnId: string, value: string)

  /** `handleEdit`: a locked column leaves the editing state as it was. */
  function HandleEdit(editing: Option<EditingCell>, rowId: string, columnId: string, value: string): (r: Option<EditingCell>)
    ensures columnId in LockedColumns ==> r == editing
    ensures columnId !in LockedColumns ==> r == Some(EditingCell(rowId, columnId, value))
  {
    if columnId in LockedColumns then editing else Some(EditingCell(rowId, columnId, value))
  }

  /** No cell of a locked column is being edited. */
  predicate NoLockedEdit(editing: Option<EditingCell>) {
    editing.None? || editing.value.columnId !in LockedColumns
  }

  datatype Click = Click(rowId: string, columnId: string, value: string)

  /** The editing state after a run of clicks on cells, starting from `start`. */
  function AfterClicks(start: Option<EditingCell>, clicks: seq<Click>): Option<EditingCell>
    decreases |clicks|
  {
    if clicks == [] then start
    else
      var c := clicks[|clicks| - 1];
      HandleEdit(AfterClicks(start, clicks[..|clicks| - 1]), c.rowId, c.columnId, c.value)
  }

  /** However the cells are clicked, a locked column never enters edit mode. */
  lemma {:induction false} LockedColumnsNeverEdited(start: Option<EditingCell>, clicks: seq<Click>)
    requires NoLockedEdit(start)
    ensures NoLockedEdit(AfterClicks(start, clicks))
    decreases |clicks|
  {
    if clicks != [] {
      LockedColumnsNeverEdited(start, clicks[..|clicks| - 1]);
    }
  }

  // ----- Saving a cell -----

  /** The columns whose cells the table saves. */
  datatype TextColumn = EmailColumn | TaxIdColumn | FullNameColumn | BirthDateColumn | AddressColumn | InstagramColumn

  function ColumnId(c: TextColumn): string {
    match c
    case EmailColumn => "email"
    case TaxIdColumn => "taxId"
    case FullNameColumn => "fullName"
    case BirthDateColumn => "birthDate"
    case AddressColumn => "address"
    case InstagramColumn => "instagram"
  }

  /** The edited columns are exactly the columns outside the locked set that the table saves. */
  lemma EditableColumnsUnlocked(c: TextColumn)
    ensures ColumnId(c) !in LockedColumns && '-' !in ColumnId(c)
  {
  }

  /** The name split of a saved full name: the first token of the trimmed value, and the remaining tokens joined by a space. */
  function NameSplit(value: string): (r: (string, string))
    ensures ' ' !in r.0
  {
    var parts := Split(Trim(value), ' ');
    (parts[0], Join(parts[1..], ' '))
  }

  /** With a space in the trimmed value, name and surname rejoin to it; without one, the surname is empty. */
  lemma NameSplitRejoins(value: string)
    ensures var (name, surname) := NameSplit(value);
      var t := Trim(value);
      && (' ' in t ==> name + " " + surname == t)
      && (' ' !in t ==> name == t && surname == "")
  {
    var t := Trim(value);
    var parts := Split(t, ' ');
    JoinSplit(t, ' ');
    if ' ' in t {
      assert parts[1..][1..] == parts[2..];
      assert Join(parts, ' ') == parts[0] + [' '] + Join(parts[1..], ' ');
    } else {
      assert parts[1..] == [];
    }
  }

  /** A name and surname that need no trimming split back from the full name they make. */
  lemma FullNameSplitsBack(name: string, surname: string)
    requires name != "" && ' ' !in name && !IsSpace(name[0])
    requires surname != "" && !IsSpace(surname[|surname| - 1])
    ensures NameSplit(FullName(Some(name), Some(surname), None)) == (name, surname)
  {
    var full := name + " " + surname;
    assert full[0] == name[0] && full[|full| - 1] == surname[|surname| - 1];
    TrimUntouched(full);
    SplitAtFirstSpace(name, surname);
  }

  /** Splitting `name surname` on spaces, for a space-free name, gives the name first and the surname rejoined. */
  lemma SplitAtFirstSpace(name: string, surname: string)
    requires ' ' !in name
    ensures var parts := Split(name + " " + surname, ' ');
      parts[0] == name && Join(parts[1..], ' ') == surname
  {
    var full := name + " " + surname;
    assert full == name + ([' '] + surname);
    SplitPrefix(name, [' '] + surname, ' ');
    assert ([' '] + surname)[1..] == surname;
    var rest := Split(surname, ' ');
    assert Split([' '] + surname, ' ') == [""] + rest;
    assert name + "" == name;
    JoinSplit(surname, ' ');
    assert Split(full, ' ')[1..] == rest;
  }

  /**
   * Reloading after saving a full name: the name and surname written make the
   * trimmed value again when it holds a space; otherwise the surname is empty
   * and the reloaded full name falls back to the display name.
   */
  lemma SavedFullNameReloads(value: string, displayName: Option<string>)
    ensures var (name, surname) := NameSplit(value);
      var t := Trim(value);
      && (' ' in t ==> FullName(Some(name), Some(surname), displayName) == t)
      && (' ' !in t ==> FullName(Some(name), Some(surname), displayName) == Or(displayName, ""))
  {
    var (name, surname) := NameSplit(value);
    var t := Trim(value);
    NameSplitRejoins(value);
    if ' ' in t {
      var parts := Split(t, ' ');
      assert t[0] != ' ';
      assert parts[0] == name;
      SplitHeadNonEmpty(t, ' ');
      assert surname != "";
    }
  }

  /** A string that does not begin with the separator has a non-empty first piece. */
  lemma SplitHeadNonEmpty(s: string, sep: char)
    requires s != [] && s[0] != sep
    ensures Split(s, sep)[0] != ""
  {
  }

  /** `{...row, [columnId]: value}`, plus the name split when the full name is saved. */
  function ApplyEdit(row: Row, col: TextColumn, value: string): (r: Row)
    ensures r.id == row.id
    ensures col == FullNameColumn ==> (r.name, r.surname) == NameSplit(value)
    ensures col != FullNameColumn ==> r.name == row.name && r.surname == row.surname
    ensures CellText(r, col) == value
    ensures forall c :: c != col ==> CellText(r, c) == CellText(row, c)
    ensures r.(email := row.email, taxId := row.taxId, fullName := row.fullName, name := row.name,
               surname := row.surname, birthDate := row.birthDate, address := row.address,
               instagram := row.instagram) == row
  {
    match col
    case EmailColumn => row.(email := value)
    case TaxIdColumn => row.(taxId := value)
    case FullNameColumn =>
      var (name, surname) := NameSplit(value);
      row.(fullName := value, name := name, surname := surname)
    case BirthDateColumn => row.(birthDate := value)
    case AddressColumn => row.(address := value)
    case InstagramColumn => row.(instagram := value)
  }

  /** The text a row shows in a saved column. */
  function CellText(row: Row, c: TextColumn): string {
    match c
    case EmailColumn => row.email
    case TaxIdColumn => row.taxId
    case FullNameColumn => row.fullName
    case BirthDateColumn => row.birthDate
    case AddressColumn => row.address
    case InstagramColumn => row.instagram
  }

  /** The local `setData(prev => prev.map(...))` after a save: only rows with the saved id change. */
  function UpdateRows(rows: seq<Row>, rowId: string, col: TextColumn, value: string): (r: seq<Row>)
    ensures |r| == |rows|
    ensures forall i :: 0 <= i < |rows| ==> r[i].id == rows[i].id
    ensures forall i :: 0 <= i < |rows| && rows[i].id != rowId ==> r[i] == rows[i]
    ensures forall i :: 0 <= i < |rows| && rows[i].id == rowId ==> CellText(r[i], col) == value
    ensures forall i :: 0 <= i < |rows| && rows[i].id == rowId ==> r[i] == ApplyEdit(rows[i], col, value)
  {
    seq(|rows|, i requires 0 <= i < |rows| => if rows[i].id == rowId then ApplyEdit(rows[i], col, value) else rows[i])
  }

  /** Saving the same value twice is saving it once. */
  lemma UpdateRowsIdempotent(rows: seq<Row>, rowId: string, col: TextColumn, value: string)
    ensures UpdateRows(UpdateRows(rows, rowId, col, value), rowId, col, value) == UpdateRows(rows, rowId, col, value)
  {
    var once := UpdateRows(rows, rowId, col, value);
    var twice := UpdateRows(once, rowId, col, value);
    forall i | 0 <= i < |rows| ensures twice[i] == once[i] {
      if rows[i].id == rowId {
        ApplyEditIdempotent(rows[i], col, value);
      }
    }
  }

  lemma ApplyEditIdempotent(row: Row, col: TextColumn, value: string)
    ensures ApplyEdit(ApplyEdit(row, col, value), col, value) == ApplyEdit(row, col, value)
  {
  }

  /** A Firestore field value: text, or the server's clock. */
  datatype FieldValue = TextValue(text: string) | ServerTimestamp

  /** The `updateDoc` payload of a save. */
  function SaveWrite(col: TextColumn, value: string): (w: map<string, FieldValue>)
    ensures "updatedAt" in w && w["updatedAt"] == ServerTimestamp
    ensures col == FullNameColumn ==> w.Keys == {"name", "surname", "updatedAt"}
    ensures col != FullNameColumn ==> w.Keys == {ColumnId(col), "updatedAt"}
  {
    match col
    case FullNameColumn =>
      var (name, surname) := NameSplit(value);
      map["updatedAt" := ServerTimestamp, "name" := TextValue(name), "surname" := TextValue(surname)]
    case _ => map["updatedAt" := ServerTimestamp, ColumnId(col) := TextValue(value)]
  }

  /** Every field written to Firestore holds what the edited local row shows in that field. */
  lemma SaveWriteMatchesRow(row: Row, col: TextColumn, value: string)
    ensures var w := SaveWrite(col, value);
      var edited := ApplyEdit(row, col, value);
      && (col == FullNameColumn ==> w["name"] == TextValue(edited.name) && w["surname"] == TextValue(edited.surname))
      && (col != FullNameColumn ==> w[ColumnId(col)] == TextValue(CellText(edited, col)))
  {
  }

  /** The outcome of `handleSave`: the write attempted, the rows, the editing state and the error shown. */
  datatype SaveOutcome = SaveOutcome(
    attemptedWrite: Option<map<string, FieldValue>>,
    rows: seq<Row>,
    editing: Option<EditingCell>,
    error: Option<string>)

  /**
   * `handleSave`: a missing user document stops the save before any write;
   * a failed write leaves the rows and the editing state; a successful one
   * updates the matching rows and leaves edit mode.
   */
  function HandleSave(rows: seq<Row>, editing: Option<EditingCell>, rowId: string, col: TextColumn, value: string,
                      userExists: bool, writeError: Option<string>): (out: SaveOutcome)
    ensures !userExists ==> out == SaveOutcome(None, rows, editing, Some("User not found"))
    ensures userExists ==> out.attemptedWrite == Some(SaveWrite(col, value)) && out.error == writeError
    ensures out.error.Some? ==> out.rows == rows && out.editing == editing
    ensures out.error.None? ==> out.rows == UpdateRows(rows, rowId, col, value) && out.editing.None?
  {
    if !userExists then SaveOutcome(None, rows, editing, Some("User not found"))
    else if writeError.Some? then SaveOutcome(Some(SaveWrite(col, value)), rows, editing, writeError)
    else SaveOutcome(Some(SaveWrite(col, value)), UpdateRows(rows, rowId, col, value), None, None)
  }

  // ----- Deleting a user -----

  function OtherAttendee(userId: string): string -> bool {
    (a: string) => a != userId
  }

  /** `attendees.filter(id => id !== userId)`. */
  function WithoutUser(attendees: seq<string>, userId: string): (r: seq<string>)
    ensures userId !in r
    ensures forall a :: a != userId ==> multiset(r)[a] == multiset(attendees)[a]
  {
    var r := Where(attendees, OtherAttendee(userId));
    forall a | a != userId ensures multiset(r)[a] == multiset(attendees)[a] {
      WhereCount(attendees, OtherAttendee(userId), a);
    }
    r
  }

  /** `Math.max(0, spots - remaining.length)`. */
  function SpotsLeft(spots: int, remaining: seq<string>): (n: int)
    ensures n >= 0 && n >= spots - |remaining|
    ensures n == 0 || n == spots - |remaining|
  {
    if spots - |remaining| > 0 then spots - |remaining| else 0
  }

  /** The `updateDoc` payload for one event. */
  datatype EventUpdate = EventUpdate(eventId: string, attendees: seq<string>, spotsLeft: int)

  /** The update of one event: the user leaves the attendees and the free spots are recomputed. */
  function EventUpdateOf(eventId: string, e: EventDoc, userId: string): (u: EventUpdate)
    ensures u.eventId == eventId && userId !in u.attendees
    ensures forall a :: a != userId ==> multiset(u.attendees)[a] == multiset(e.attendees)[a]
    ensures u.spotsLeft == if e.spots - |u.attendees| > 0 then e.spots - |u.attendees| else 0
  {
    var remaining := WithoutUser(e.attendees, userId);
    EventUpdate(eventId, remaining, SpotsLeft(e.spots, remaining))
  }

  /** The updates for the booked events that exist, in booking order. */
  function EventUpdates(ids: seq<string>, catalog: map<string, EventDoc>, userId: string): (us: seq<EventUpdate>)
    ensures |us| <= |ids|
    ensures forall u :: u in us ==> u.eventId in ids && u.eventId in catalog && userId !in u.attendees && u.spotsLeft >= 0
    ensures forall u :: u in us ==> u == EventUpdateOf(u.eventId, catalog[u.eventId], userId)
    ensures forall i :: 0 <= i < |ids| && ids[i] in catalog ==> exists u :: u in us && u.eventId == ids[i]
    decreases |ids|
  {
    if ids == [] then []
    else
      var init := ids[..|ids| - 1];
      var last := ids[|ids| - 1];
      var us := EventUpdates(init, catalog, userId);
      assert forall i :: 0 <= i < |init| ==> init[i] == ids[i];
      us + (if last in catalog then [EventUpdateOf(last, catalog[last], userId)] else [])
  }

  /** There is one update per booked event that exists. */
  lemma {:induction false} EventUpdatesCount(ids: seq<string>, catalog: map<string, EventDoc>, userId: string)
    ensures |EventUpdates(ids, catalog, userId)| == |Where(ids, InCatalog(catalog))|
    decreases |ids|
  {
    if ids != [] {
      EventUpdatesCount(ids[..|ids| - 1], catalog, userId);
      WhereLast(ids, InCatalog(catalog));
    }
  }

  /** The loop of `handleDeleteUser` over the user's booked events. */
  method PlanEventUpdates(bookedEvents: seq<string>, catalog: map<string, EventDoc>, userId: string)
    returns (updates: seq<EventUpdate>)
    ensures updates == EventUpdates(bookedEvents, catalog, userId)
  {
    updates := [];
    for i := 0 to |bookedEvents|
      invariant updates == EventUpdates(bookedEvents[..i], catalog, userId)
    {
      var eventId := bookedEvents[i];
      assert bookedEvents[..i + 1][..i] == bookedEvents[..i];
      assert EventUpdates(bookedEvents[..i + 1], catalog, userId) == updates +
        (if eventId in catalog then [EventUpdateOf(eventId, catalog[eventId], userId)] else []);
      if eventId in catalog {
        var e := catalog[eventId];
        var remaining := WithoutUser(e.attendees, userId);
        updates := updates + [EventUpdate(eventId, remaining, SpotsLeft(e.spots, remaining))];
      }
    }
    assert bookedEvents[..|bookedEvents|] == bookedEvents;
  }

  /** The ids of the user's bookings, in snapshot order. */
  function BookingIdsOf(bookings: seq<BookingRef>, userId: string): (ids: seq<string>)
    ensures forall id :: id in ids <==> exists i :: 0 <= i < |bookings| && bookings[i].userId == userId && bookings[i].docId == id
  {
    if bookings == [] then []
    else
      var rest := BookingIdsOf(bookings[1..], userId);
      assert forall i :: 1 <= i < |bookings| ==> bookings[i] == bookings[1..][i - 1];
      assert forall i :: 0 <= i < |bookings[1..]| ==> bookings[1..][i] == bookings[i + 1];
      (if bookings[0].userId == userId then [bookings[0].docId] else []) + rest
  }

  function OtherRow(userId: string): Row -> bool {
    (row: Row) => row.id != userId
  }

  /** The local `setData(prev => prev.filter(user => user.id !== userId))`. */
  function RemoveRow(rows: seq<Row>, userId: string): (r: seq<Row>)
    ensures forall row :: row in r <==> row in rows && row.id != userId
  {
    Where(rows, OtherRow(userId))
  }

  /** With unique ids, deleting a row's user removes exactly that row and keeps the others in order. */
  lemma RemoveRowExactlyOne(rows: seq<Row>, k: int)
    requires 0 <= k < |rows|
    requires forall i, j :: 0 <= i < j < |rows| ==> rows[i].id != rows[j].id
    ensures RemoveRow(rows, rows[k].id) == rows[..k] + rows[k + 1..]
  {
    var keep := OtherRow(rows[k].id);
    var before, x, after := rows[..k], rows[k], rows[k + 1..];
    assert rows == before + [x] + after;
    OthersKept(rows, k);
    assert [x][1..] == [];
    assert Where([x], keep) == [];
    WhereAppend(before + [x], after, keep);
    WhereAppend(before, [x], keep);
    assert before + [] == before;
  }

  lemma OthersKept(rows: seq<Row>, k: int)
    requires 0 <= k < |rows|
    requires forall i, j :: 0 <= i < j < |rows| ==> rows[i].id != rows[j].id
    ensures Where(rows[..k], OtherRow(rows[k].id)) == rows[..k]
    ensures Where(rows[k + 1..], OtherRow(rows[k].id)) == rows[k + 1..]
  {
    var keep := OtherRow(rows[k].id);
    var before, after := rows[..k], rows[k + 1..];
    forall i | 0 <= i < |before| ensures keep(before[i]) {
      assert before[i] == rows[i];
    }
    forall i | 0 <= i < |after| ensures keep(after[i]) {
      assert after[i] == rows[k + 1 + i];
    }
    WhereAll(before, keep);
    WhereAll(after, keep);
  }

  /** What `handleDeleteUser` asks Firestore to do, once confirmed. */
  datatype DeletePlan = DeletePlan(deletedBookings: seq<string>, eventUpdates: seq<EventUpdate>, deletedUser: string)

  /**
   * `handleDeleteUser`: unconfirmed, nothing happens; confirmed, the user's
   * bookings are deleted, their booked events updated when the user document
   * exists, the user document deleted and the row dropped.
   */
  method HandleDeleteUser(rows: seq<Row>, userId: string, confirmed: bool, bookings: seq<BookingRef>,
                          userDoc: Option<UserDoc>, catalog: map<string, EventDoc>)
    returns (plan: Option<DeletePlan>, newRows: seq<Row>)
    ensures !confirmed ==> plan.None? && newRows == rows
    ensures confirmed ==> plan.Some? && plan.value.deletedUser == userId && newRows == RemoveRow(rows, userId)
    ensures confirmed ==> plan.value.deletedBookings == BookingIdsOf(bookings, userId)
    ensures confirmed ==> plan.value.eventUpdates == if userDoc.Some? then EventUpdates(userDoc.value.eventsBooked, catalog, userId) else []
  {
    if !confirmed {
      return None, rows;
    }
    var deleted := BookingIdsOf(bookings, userId);
    var updates := [];
    if userDoc.Some? {
      updates := PlanEventUpdates(userDoc.value.eventsBooked, catalog, userId);
    }
    plan := Some(DeletePlan(deleted, updates, userId));
    newRows := RemoveRow(rows, userId);
  }
}
