/**
 * The payment reconciler behind the admin payments view
 * (`fetchPayments` in src/components/PaymentsView.jsx): records from the
 * payment ledger and payment data embedded in bookings are filed in one
 * insertion-ordered map under a derived deduplication key, merged, filtered
 * by key validity and by status, sorted newest first and summarised.
 *
 * The two Firestore snapshots are the input sequences; document ids are
 * non-empty, as Firestore guarantees.
 */
module Payments {
  import opened JsValues
  import opened Strings
  import opened JsArrays
  import Sorting

  type DocId = s: string | s != "" witness "d"

  /** An `amount` field as `parseFloat` reads it: a number, or not a number. */
  datatype Amount = Numeric(value: int) | NonNumeric

  /**
   * A `createdAt` field in any of the shapes the records carry: missing, a
   * Firestore timestamp (has `toDate`), an object with `seconds`, a date
   * string with what `new Date(...)` makes of it (`None` when unparseable), or
   * some other object.
   */
  datatype Timestamp =
    | NoTimestamp
    | FirestoreTimestamp(millis: int)
    | SecondsObject(seconds: int)
    | DateText(text: string, parsedMillis: Option<int>)
    | OtherObject

  /** A ledger document, `payments/{docId}`, with the fields the view reads. */
  datatype LedgerDoc = LedgerDoc(
    docId: DocId,
    fullDetailsId: Option<string>,          // fullDetails.id
    fullDetailsPayerEmail: Option<string>,  // fullDetails.payer.email_address
    paymentId: Option<string>,
    amount: Option<Amount>,
    currency: Option<string>,
    status: Option<string>,
    eventId: Option<string>,
    userId: Option<string>,
    createdAt: Timestamp,
    bookingId: Option<string>,
    payerEmail: Option<string>,
    payerObjectEmail: Option<string>)       // payer.email

  /** The `payment` object embedded in a booking. */
  datatype EmbeddedPayment = EmbeddedPayment(
    id: Option<string>,
    amount: Option<Amount>,
    currency: Option<string>,
    status: Option<string>,
    createdAt: Timestamp,
    payerEmail: Option<string>)             // payment.payer.email

  /** A booking document, `bookings/{docId}`, with the fields the view reads. */
  datatype BookingDoc = BookingDoc(
    docId: DocId,
    payment: Option<EmbeddedPayment>,
    detailsPaymentId: Option<string>,       // paymentDetails.paymentId
    detailsPayerEmail: Option<string>,      // paymentDetails.payerEmail
    contactEmail: Option<string>,           // contactInfo.email
    eventId: Option<string>,
    userId: Option<string>,
    createdAt: Timestamp)

  datatype Source = PaymentCollection | BookingCollection

  /** One row of the payments view. */
  datatype Payment = Payment(
    id: string,
    paymentId: string,
    amount: Amount,
    currency: string,
    status: string,
    eventId: Option<string>,
    userId: Option<string>,
    createdAt: Timestamp,
    bookingId: Option<string>,
    userEmail: string,
    paypalEmail: string,
    source: Source)

  // ----- Records from the two sources -----

  /** `amount || 0`. */
  function AmountOrZero(a: Option<Amount>): Amount {
    if a.None? then Numeric(0) else a.value
  }

  /** The ledger key: `fullDetails.id`, else a long stored `paymentId`, else the document id. */
  function LedgerKey(d: LedgerDoc): (k: string)
    ensures k != ""
    ensures Present(d.fullDetailsId) ==> k == d.fullDetailsId.value
    ensures !Present(d.fullDetailsId) && k != d.docId ==> d.paymentId == Some(k) && k != "unknown" && |k| > 10
    ensures var stored := d.paymentId;
      !Present(d.fullDetailsId) && Present(stored) && stored.value != "unknown" && |stored.value| > 10 ==> k == stored.value
    ensures var stored := d.paymentId;
      !Present(d.fullDetailsId) && !(Present(stored) && stored.value != "unknown" && |stored.value| > 10) ==> k == d.docId
  {
    if Present(d.fullDetailsId) then d.fullDetailsId.value
    else if Present(d.paymentId) && d.paymentId.value != "unknown" && |d.paymentId.value| > 10 then d.paymentId.value
    else d.docId
  }

  /** The PayPal payer e-mail of a ledger document; `payerEmail` only when it looks like one. */
  function LedgerPaypalEmail(d: LedgerDoc): (r: string)
    ensures r != ""
    ensures Present(d.fullDetailsPayerEmail) ==> r == d.fullDetailsPayerEmail.value
    ensures !Present(d.fullDetailsPayerEmail) && Present(d.payerObjectEmail) ==> r == d.payerObjectEmail.value
    ensures !Present(d.fullDetailsPayerEmail) && !Present(d.payerObjectEmail) && r != "N/A" ==>
      d.payerEmail == Some(r) && (Includes(r, "sandbox") || Includes(r, "paypal"))
    ensures var e := d.payerEmail;
      (!Present(d.fullDetailsPayerEmail) && !Present(d.payerObjectEmail) && Present(e)
       && (Includes(e.value, "sandbox") || Includes(e.value, "paypal"))) ==> r == e.value
  {
    var looksPaypal :=
      Present(d.payerEmail) && (Includes(d.payerEmail.value, "sandbox") || Includes(d.payerEmail.value, "paypal"));
    Or(d.fullDetailsPayerEmail, Or(d.payerObjectEmail, if looksPaypal then d.payerEmail.value else "N/A"))
  }

  /** The view row a ledger document becomes, filed under its ledger key. */
  function LedgerRecord(d: LedgerDoc): (p: Payment)
    ensures p.paymentId == LedgerKey(d) && p.source == PaymentCollection
  {
    Payment(
      id := d.docId,
      paymentId := LedgerKey(d),
      amount := AmountOrZero(d.amount),
      currency := Or(d.currency, "EUR"),
      status := Or(d.status, "PENDING"),
      eventId := Some(Or(d.eventId, "N/A")),
      userId := Some(Or(d.userId, "N/A")),
      createdAt := d.createdAt,
      bookingId := if Present(d.bookingId) then d.bookingId else None,
      userEmail := Or(d.payerEmail, "N/A"),
      paypalEmail := LedgerPaypalEmail(d),
      source := PaymentCollection)
  }

  /** The booking key: `payment.id` unless `unknown`, else `paymentDetails.paymentId`, else the booking id. */
  function BookingKey(b: BookingDoc): (k: string)
    requires b.payment.Some?
    ensures k != ""
    ensures var id := b.payment.value.id; Present(id) && id.value != "unknown" ==> k == id.value
    ensures k != b.docId && b.payment.value.id != Some(k) ==> b.detailsPaymentId == Some(k)
    ensures var id := b.payment.value.id;
      !(Present(id) && id.value != "unknown") && Present(b.detailsPaymentId) ==> k == b.detailsPaymentId.value
    ensures var id := b.payment.value.id;
      !(Present(id) && id.value != "unknown") && !Present(b.detailsPaymentId) ==> k == b.docId
  {
    var p := b.payment.value;
    if Present(p.id) && p.id.value != "unknown" then p.id.value
    else if Present(b.detailsPaymentId) then b.detailsPaymentId.value
    else b.docId
  }

  /** The payer e-mail a booking carries. */
  function BookingPaypalEmail(b: BookingDoc): (r: string)
    requires b.payment.Some?
    ensures r != ""
    ensures Present(b.payment.value.payerEmail) ==> r == b.payment.value.payerEmail.value
    ensures r != "N/A" && !Present(b.payment.value.payerEmail) ==> b.detailsPayerEmail == Some(r)
    ensures !Present(b.payment.value.payerEmail) && Present(b.detailsPayerEmail) ==> r == b.detailsPayerEmail.value
  {
    Or(b.payment.value.payerEmail, Or(b.detailsPayerEmail, "N/A"))
  }

  /** A JavaScript-truthy `createdAt`. */
  predicate TimestampTruthy(t: Timestamp) {
    !t.NoTimestamp? && !(t.DateText? && t.text == "")
  }

  /** The view row of a booking whose payment is not in the ledger. */
  function BookingRecord(b: BookingDoc, key: string): (p: Payment)
    requires b.payment.Some?
    ensures p.paymentId == key && p.bookingId == Some(b.docId) && p.source == BookingCollection
  {
    var pay := b.payment.value;
    Payment(
      id := b.docId,
      paymentId := key,
      amount := AmountOrZero(pay.amount),
      currency := Or(pay.currency, "EUR"),
      status := Or(pay.status, "PENDING"),
      eventId := b.eventId,
      userId := b.userId,
      createdAt := if TimestampTruthy(pay.createdAt) then pay.createdAt else b.createdAt,
      bookingId := Some(b.docId),
      userEmail := Or(b.contactEmail, "N/A"),
      paypalEmail := BookingPaypalEmail(b),
      source := BookingCollection)
  }

  /**
   * Folds a booking into the entry already filed under its key: the entry
   * gains a booking id, prefers the booking's contact e-mail, keeps a known
   * payer e-mail, and is otherwise unchanged.
   */
  function MergeBooking(e: Payment, b: BookingDoc): (r: Payment)
    requires b.payment.Some?
    ensures Present(r.bookingId)
    ensures Present(e.bookingId) ==> r.bookingId == e.bookingId
    ensures !Present(e.bookingId) ==> r.bookingId == Some(b.docId)
    ensures r.userEmail == (if Present(b.contactEmail) then b.contactEmail.value else e.userEmail)
    ensures e.paypalEmail != "N/A" ==> r.paypalEmail == e.paypalEmail
    ensures e.paypalEmail == "N/A" ==> r.paypalEmail == BookingPaypalEmail(b)
    ensures r.(bookingId := e.bookingId, userEmail := e.userEmail, paypalEmail := e.paypalEmail) == e
  {
    e.(bookingId := Some(if Present(e.bookingId) then e.bookingId.value else b.docId),
       userEmail := Or(b.contactEmail, e.userEmail),
       paypalEmail := if e.paypalEmail != "N/A" then e.paypalEmail else BookingPaypalEmail(b))
  }

  // ----- The insertion-ordered map -----

  /** A JavaScript `Map` from key to row: its keys in insertion order, and its entries. */
  datatype PaymentMap = PaymentMap(order: seq<string>, entries: map<string, Payment>)

  const EmptyMap := PaymentMap([], map[])

  predicate NoDup(s: seq<string>) {
    forall i, j :: 0 <= i < j < |s| ==> s[i] != s[j]
  }

  /** Every key is listed once, and exactly the keys with an entry are listed. */
  predicate WellFormed(m: PaymentMap) {
    && NoDup(m.order)
    && (forall k :: k in m.order ==> k in m.entries)
    && (forall k :: k in m.entries ==> k in m.order)
  }

  /** Every entry is filed under its own `paymentId`. */
  predicate KeyedById(m: PaymentMap) {
    forall k :: k in m.entries ==> m.entries[k].paymentId == k
  }

  /** `map.set(k, v)`: a new key goes last, an existing key keeps its place. */
  function Set(m: PaymentMap, k: string, v: Payment): (r: PaymentMap)
    requires WellFormed(m)
    ensures WellFormed(r)
    ensures r.entries == m.entries[k := v]
    ensures r.order == if k in m.entries then m.order else m.order + [k]
  {
    if k in m.entries then PaymentMap(m.order, m.entries[k := v])
    else PaymentMap(m.order + [k], m.entries[k := v])
  }

  /** `Array.from(map.values())`. */
  function Values(m: PaymentMap): (vs: seq<Payment>)
    requires WellFormed(m)
    ensures |vs| == |m.order|
    ensures forall i :: 0 <= i < |vs| ==> vs[i] == m.entries[m.order[i]]
  {
    seq(|m.order|, i requires 0 <= i < |m.order| => m.entries[m.order[i]])
  }

  /** The ledger loop body: a new key is filed; a known key is replaced only by a record that adds a booking id. */
  function LedgerStep(m: PaymentMap, d: LedgerDoc): (r: PaymentMap)
    requires WellFormed(m) && KeyedById(m)
    ensures WellFormed(r) && KeyedById(r)
    ensures r.entries.Keys == m.entries.Keys + {LedgerKey(d)}
    ensures forall k :: k in m.entries && k != LedgerKey(d) ==> r.entries[k] == m.entries[k]
  {
    var p := LedgerRecord(d);
    var k := p.paymentId;
    if k !in m.entries || (Present(p.bookingId) && !Present(m.entries[k].bookingId)) then Set(m, k, p) else m
  }

  /** The ledger snapshot folded into an empty map, in snapshot order. */
  function FoldLedger(docs: seq<LedgerDoc>): (m: PaymentMap)
    ensures WellFormed(m) && KeyedById(m)
    decreases |docs|
  {
    if docs == [] then EmptyMap else LedgerStep(FoldLedger(docs[..|docs| - 1]), docs[|docs| - 1])
  }

  /** The booking loop body: a booking without a payment changes nothing. */
  function BookingStep(m: PaymentMap, b: BookingDoc): (r: PaymentMap)
    requires WellFormed(m) && KeyedById(m)
    ensures WellFormed(r) && KeyedById(r)
    ensures b.payment.None? ==> r == m
    ensures b.payment.Some? ==> r.entries.Keys == m.entries.Keys + {BookingKey(b)}
    ensures b.payment.Some? ==> Present(r.entries[BookingKey(b)].bookingId)
    ensures b.payment.Some? ==>
      (r.entries[BookingKey(b)] ==
         if BookingKey(b) in m.entries then MergeBooking(m.entries[BookingKey(b)], b) else BookingRecord(b, BookingKey(b)))
    ensures forall k :: k in m.entries && (b.payment.None? || k != BookingKey(b)) ==> r.entries[k] == m.entries[k]
    ensures forall k :: k in m.entries && Present(m.entries[k].bookingId) ==> Present(r.entries[k].bookingId)
  {
    if b.payment.None? then m
    else
      var k := BookingKey(b);
      if k in m.entries then Set(m, k, MergeBooking(m.entries[k], b))
      else Set(m, k, BookingRecord(b, k))
  }

  /** The booking snapshot folded into `m`, in snapshot order. */
  function FoldBookings(m: PaymentMap, bs: seq<BookingDoc>): (r: PaymentMap)
    requires WellFormed(m) && KeyedById(m)
    ensures WellFormed(r) && KeyedById(r)
    ensures m.entries.Keys <= r.entries.Keys
    decreases |bs|
  {
    if bs == [] then m else BookingStep(FoldBookings(m, bs[..|bs| - 1]), bs[|bs| - 1])
  }

  /** The map once both snapshots are in. */
  function Collect(ledger: seq<LedgerDoc>, bookings: seq<BookingDoc>): (m: PaymentMap)
    ensures WellFormed(m) && KeyedById(m)
  {
    FoldBookings(FoldLedger(ledger), bookings)
  }

  // ----- Filters, order and statistics -----

  /** A key long and specific enough to be a provider transaction id. */
  predicate ValidKey(k: string) {
    k != "" && k != "unknown" && |k| > 8
  }

  predicate HasValidKey(p: Payment) {
    ValidKey(p.paymentId)
  }

  /** The exact two spellings the view counts as completed. */
  predicate IsCompleted(p: Payment) {
    p.status == "COMPLETED" || p.status == "completed"
  }

  predicate IsPending(p: Payment) {
    !IsCompleted(p)
  }

  /** The view's filter: `'all'`, `'completed'` or `'pending'`. */
  datatype StatusFilter = All | CompletedOnly | PendingOnly

  function ApplyFilter(s: seq<Payment>, f: StatusFilter): seq<Payment> {
    match f
    case All => s
    case CompletedOnly => Where(s, IsCompleted)
    case PendingOnly => Where(s, IsPending)
  }

  /** Whether the filter keeps a row. */
  predicate Selected(f: StatusFilter, p: Payment) {
    match f
    case All => true
    case CompletedOnly => IsCompleted(p)
    case PendingOnly => IsPending(p)
  }

  /** `getTimestamp`: milliseconds since the epoch, 0 for a missing or unreadable value. */
  function GetTimestamp(t: Timestamp): (ms: int)
    ensures t.NoTimestamp? || t.OtherObject? || (t.DateText? && t.parsedMillis.None?) ==> ms == 0
    ensures t.SecondsObject? ==> ms == 1000 * t.seconds
    ensures t.FirestoreTimestamp? ==> ms == t.millis
    ensures t.DateText? && t.text != "" && t.parsedMillis.Some? ==> ms == t.parsedMillis.value
    ensures t.DateText? && t.text == "" ==> ms == 0
  {
    match t
    case NoTimestamp => 0
    case FirestoreTimestamp(ms) => ms
    case SecondsObject(s) => if s != 0 then s * 1000 else 0
    case DateText(text, parsed) => if text == "" then 0 else if parsed.Some? then parsed.value else 0
    case OtherObject => 0
  }

  function CreatedAtMillis(p: Payment): int {
    GetTimestamp(p.createdAt)
  }

  /** The rows of the view in map order, before sorting. */
  function View(ledger: seq<LedgerDoc>, bookings: seq<BookingDoc>, f: StatusFilter): seq<Payment> {
    ApplyFilter(Where(Values(Collect(ledger, bookings)), HasValidKey), f)
  }

  /** `parseFloat(amount) || 0`. */
  function AmountValue(a: Amount): int {
    if a.Numeric? then a.value else 0
  }

  function SumAmounts(s: seq<Payment>): int {
    if s == [] then 0 else AmountValue(s[0].amount) + SumAmounts(s[1..])
  }

  datatype Stats = Stats(total: int, completed: int, pending: int, totalAmount: int)

  /** The summary over the rows shown: completed rows and their amounts; the rest are pending. */
  function ComputeStats(s: seq<Payment>): (r: Stats)
    ensures r.total == |s| && r.total == r.completed + r.pending
    ensures r.completed == |Where(s, IsCompleted)| && r.pending == |Where(s, IsPending)|
    ensures r.totalAmount == SumAmounts(Where(s, IsCompleted))
  {
    FilterPartition(s);
    var completed := |Where(s, IsCompleted)|;
    Stats(|s|, completed, |s| - completed, SumAmounts(Where(s, IsCompleted)))
  }

  /** The unique ids of the rows: `no two rows share a key`. */
  predicate UniqueIds(s: seq<Payment>) {
    forall i, j :: 0 <= i < j < |s| ==> s[i].paymentId != s[j].paymentId
  }

  // ----- The whole of fetchPayments -----

  /** The two loops of `fetchPayments` that fill the map, ledger first. */
  method CollectMap(ledger: seq<LedgerDoc>, bookings: seq<BookingDoc>) returns (m: PaymentMap)
    ensures m == Collect(ledger, bookings)
  {
    var order, entries := FileLedger(ledger);
    order, entries := FileBookings(order, entries, bookings);
    m := PaymentMap(order, entries);
  }

  /** `paymentDocs.forEach(...)`: files every ledger record under its key. */
  method FileLedger(ledger: seq<LedgerDoc>) returns (order: seq<string>, entries: map<string, Payment>)
    ensures PaymentMap(order, entries) == FoldLedger(ledger)
  {
    order, entries := [], map[];
    for i := 0 to |ledger|
      invariant PaymentMap(order, entries) == FoldLedger(ledger[..i])
    {
      assert ledger[..i + 1][..i] == ledger[..i];
      assert FoldLedger(ledger[..i + 1]) == LedgerStep(FoldLedger(ledger[..i]), ledger[i]);
      var payment := LedgerRecord(ledger[i]);
      var key := payment.paymentId;
      if key !in entries || (Present(payment.bookingId) && !Present(entries[key].bookingId)) {
        if key !in entries {
          order := order + [key];
        }
        entries := entries[key := payment];
      }
    }
    assert ledger[..|ledger|] == ledger;
  }

  /** `bookingDocs.forEach(...)`: folds every booking with a payment into the map. */
  method FileBookings(order0: seq<string>, entries0: map<string, Payment>, bookings: seq<BookingDoc>)
    returns (order: seq<string>, entries: map<string, Payment>)
    requires WellFormed(PaymentMap(order0, entries0)) && KeyedById(PaymentMap(order0, entries0))
    ensures PaymentMap(order, entries) == FoldBookings(PaymentMap(order0, entries0), bookings)
  {
    var start := PaymentMap(order0, entries0);
    order, entries := order0, entries0;
    for i := 0 to |bookings|
      invariant PaymentMap(order, entries) == FoldBookings(start, bookings[..i])
    {
      assert bookings[..i + 1][..i] == bookings[..i];
      assert FoldBookings(start, bookings[..i + 1]) == BookingStep(FoldBookings(start, bookings[..i]), bookings[i]);
      var booking := bookings[i];
      if booking.payment.Some? {
        var key := BookingKey(booking);
        if key in entries {
          entries := entries[key := MergeBooking(entries[key], booking)];
        } else {
          order := order + [key];
          entries := entries[key := BookingRecord(booking, key)];
        }
      }
    }
    assert bookings[..|bookings|] == bookings;
  }

  /** `paymentsData.sort(...)` on the array of rows: newest first, same rows. */
  method SortNewestFirst(shown: seq<Payment>) returns (payments: seq<Payment>)
    ensures multiset(payments) == multiset(shown)
    ensures Sorting.NonIncreasing(payments, CreatedAtMillis)
  {
    var rows := new Payment[|shown|](i requires 0 <= i < |shown| => shown[i]);
    assert rows[..] == shown;
    Sorting.SortDescendingBy(rows, CreatedAtMillis);
    payments := rows[..];
  }

  /**
   * `fetchPayments` from the two snapshots to the rows shown and the stats:
   * the map is built by the two loops, then filtered, sorted in place newest
   * first, and summarised.
   */
  method FetchPayments(ledger: seq<LedgerDoc>, bookings: seq<BookingDoc>, filter: StatusFilter)
    returns (payments: seq<Payment>, stats: Stats)
    ensures multiset(payments) == multiset(View(ledger, bookings, filter))
    ensures Sorting.NonIncreasing(payments, CreatedAtMillis)
    ensures UniqueIds(payments)
    ensures forall p :: p in payments ==> ValidKey(p.paymentId) && Selected(filter, p)
    ensures stats == ComputeStats(View(ledger, bookings, filter))
  {
    var m := CollectMap(ledger, bookings);
    var all := Values(m);
    var valid := Where(all, HasValidKey);
    var shown := ApplyFilter(valid, filter);
    payments := SortNewestFirst(shown);
    stats := ComputeStats(payments);

    assert shown == View(ledger, bookings, filter);
    ViewRows(ledger, bookings, filter);
    UniqueIdsPermutation(shown, payments);
    forall p | p in payments ensures ValidKey(p.paymentId) && Selected(filter, p) {
      assert p in multiset(shown);
    }
    StatsPermutation(shown, payments);
  }

  // ----- Lemmas -----

  /** The completed and the pending rows split the rows between them. */
  lemma FilterPartition(s: seq<Payment>)
    ensures multiset(Where(s, IsCompleted)) + multiset(Where(s, IsPending)) == multiset(s)
    ensures |Where(s, IsCompleted)| + |Where(s, IsPending)| == |s|
    ensures ApplyFilter(s, All) == s
  {
    var c, p := Where(s, IsCompleted), Where(s, IsPending);
    forall x ensures multiset(c)[x] + multiset(p)[x] == multiset(s)[x] {
      WhereCount(s, IsCompleted, x);
      WhereCount(s, IsPending, x);
    }
    assert multiset(c) + multiset(p) == multiset(s);
    assert |c| + |p| == |multiset(c)| + |multiset(p)| == |multiset(s)| == |s|;
  }

  lemma {:induction false} SumAppend(u: seq<Payment>, v: seq<Payment>)
    ensures SumAmounts(u + v) == SumAmounts(u) + SumAmounts(v)
  {
    if u == [] {
      assert u + v == v;
    } else {
      assert (u + v)[1..] == u[1..] + v;
      SumAppend(u[1..], v);
    }
  }

  /** The number of completed rows. */
  function CompletedCount(s: seq<Payment>): int {
    |Where(s, IsCompleted)|
  }

  /** The sum of the completed rows' amounts. */
  function CompletedSum(s: seq<Payment>): int {
    SumAmounts(Where(s, IsCompleted))
  }

  lemma TallyAppend(u: seq<Payment>, v: seq<Payment>)
    ensures CompletedCount(u + v) == CompletedCount(u) + CompletedCount(v)
    ensures CompletedSum(u + v) == CompletedSum(u) + CompletedSum(v)
  {
    WhereAppend(u, v, IsCompleted);
    SumAppend(Where(u, IsCompleted), Where(v, IsCompleted));
  }

  /** The count and sum of completed rows depend only on which rows there are, not on their order. */
  lemma {:induction false} CompletedTallyPermutation(a: seq<Payment>, b: seq<Payment>)
    requires multiset(a) == multiset(b)
    ensures CompletedCount(a) == CompletedCount(b) && CompletedSum(a) == CompletedSum(b)
    decreases |a|
  {
    if a == [] {
      assert |b| == |multiset(b)| == 0;
    } else {
      var x := a[0];
      assert x in multiset(b);
      var k :| 0 <= k < |b| && b[k] == x;
      MultisetRemove(a, b, k);
      CompletedTallyPermutation(a[1..], b[..k] + b[k + 1..]);
      assert a == [x] + a[1..];
      TallyAppend([x], a[1..]);
      TallyWithout(b, k);
    }
  }

  /** The tally of a sequence is the tally of one element plus that of the rest. */
  lemma TallyWithout(b: seq<Payment>, k: int)
    requires 0 <= k < |b|
    ensures CompletedCount(b) == CompletedCount([b[k]]) + CompletedCount(b[..k] + b[k + 1..])
    ensures CompletedSum(b) == CompletedSum([b[k]]) + CompletedSum(b[..k] + b[k + 1..])
  {
    assert b == (b[..k] + [b[k]]) + b[k + 1..];
    TallyAppend(b[..k] + [b[k]], b[k + 1..]);
    TallyAppend(b[..k], [b[k]]);
    TallyAppend(b[..k], b[k + 1..]);
  }

  /** Taking the same element out of two permutations leaves two permutations. */
  lemma MultisetRemove<T>(a: seq<T>, b: seq<T>, k: int)
    requires a != [] && 0 <= k < |b| && b[k] == a[0] && multiset(a) == multiset(b)
    ensures multiset(a[1..]) == multiset(b[..k] + b[k + 1..])
  {
    var x := a[0];
    assert a == [x] + a[1..];
    assert b == b[..k] + [x] + b[k + 1..];
    calc {
      multiset(a[1..]);
      multiset(a) - multiset{x};
      multiset(b) - multiset{x};
      multiset(b[..k]) + multiset(b[k + 1..]);
      multiset(b[..k] + b[k + 1..]);
    }
  }

  /** Sorting does not change the summary. */
  lemma StatsPermutation(a: seq<Payment>, b: seq<Payment>)
    requires multiset(a) == multiset(b)
    ensures ComputeStats(a) == ComputeStats(b)
  {
    CompletedTallyPermutation(a, b);
    assert |a| == |multiset(a)| == |multiset(b)| == |b|;
  }

  /** The summary of a filtered view. */
  lemma StatsOfFilteredView(s: seq<Payment>)
    ensures var c := ComputeStats(ApplyFilter(s, CompletedOnly));
      c.pending == 0 && c.completed == c.total
    ensures var p := ComputeStats(ApplyFilter(s, PendingOnly));
      p.completed == 0 && p.totalAmount == 0 && p.pending == p.total
  {
    CompletedTwice(s);
    PendingHoldsNoCompleted(s);
  }

  /** Filtering the completed rows again for completed rows changes nothing. */
  lemma {:induction false} CompletedTwice(s: seq<Payment>)
    ensures Where(Where(s, IsCompleted), IsCompleted) == Where(s, IsCompleted)
  {
    var c := Where(s, IsCompleted);
    forall i | 0 <= i < |c| ensures IsCompleted(c[i]) {
      assert c[i] in c;
    }
    WhereAll(c, IsCompleted);
  }

  /** The pending rows hold no completed row. */
  lemma {:induction false} PendingHoldsNoCompleted(s: seq<Payment>)
    ensures Where(Where(s, IsPending), IsCompleted) == []
  {
    var p := Where(s, IsPending);
    forall i | 0 <= i < |p| ensures !IsCompleted(p[i]) {
      assert p[i] in p;
    }
    WhereNone(p, IsCompleted);
  }

  /** No value occurs twice in a sequence with unique keys; a value that the multiset counts twice sits at two positions. */
  lemma {:induction false} TwoOccurrences<T>(s: seq<T>, x: T)
    requires multiset(s)[x] >= 2
    ensures exists i, j :: 0 <= i < j < |s| && s[i] == x && s[j] == x
  {
    assert s == [s[0]] + s[1..];
    if s[0] == x {
      assert x in multiset(s[1..]);
      var j :| 0 <= j < |s[1..]| && s[1..][j] == x;
      assert s[0] == x && s[j + 1] == x;
    } else {
      TwoOccurrences(s[1..], x);
      var i, j :| 0 <= i < j < |s[1..]| && s[1..][i] == x && s[1..][j] == x;
      assert s[i + 1] == x && s[j + 1] == x;
    }
  }

  /** Unique keys survive any reordering. */
  lemma UniqueIdsPermutation(a: seq<Payment>, b: seq<Payment>)
    requires multiset(a) == multiset(b) && UniqueIds(a)
    ensures UniqueIds(b)
  {
    forall i, j | 0 <= i < j < |b| ensures b[i].paymentId != b[j].paymentId {
      if b[i] == b[j] {
        assert b == b[..j] + b[j..];
        assert b[i] in b[..j] && b[j] in b[j..];
        assert multiset(b)[b[i]] == multiset(b[..j])[b[i]] + multiset(b[j..])[b[i]];
        TwoOccurrences(a, b[i]);
      } else {
        assert b[i] in multiset(a) && b[j] in multiset(a);
        var i' :| 0 <= i' < |a| && a[i'] == b[i];
        var j' :| 0 <= j' < |a| && a[j'] == b[j];
        assert i' != j';
        if i' > j' {
          assert a[j'].paymentId != a[i'].paymentId;
        }
      }
    }
  }

  /** The map's values have unique keys. */
  lemma ValuesUnique(m: PaymentMap)
    requires WellFormed(m) && KeyedById(m)
    ensures UniqueIds(Values(m))
  {
    var vs := Values(m);
    forall i, j | 0 <= i < j < |vs| ensures vs[i].paymentId != vs[j].paymentId {
      assert m.order[i] in m.entries && m.order[j] in m.entries;
    }
  }

  /** Filtering keeps keys unique. */
  lemma {:induction false} WhereUnique(s: seq<Payment>, keep: Payment -> bool)
    requires UniqueIds(s)
    ensures UniqueIds(Where(s, keep))
  {
    if s != [] {
      var rest := Where(s[1..], keep);
      assert UniqueIds(s[1..]) by {
        forall i, j | 0 <= i < j < |s[1..]| ensures s[1..][i].paymentId != s[1..][j].paymentId {
          assert s[1..][i] == s[i + 1] && s[1..][j] == s[j + 1];
        }
      }
      WhereUnique(s[1..], keep);
      if keep(s[0]) {
        var r := [s[0]] + rest;
        forall i, j | 0 <= i < j < |r| ensures r[i].paymentId != r[j].paymentId {
          if i == 0 {
            assert r[j] in s[1..];
            var k :| 0 <= k < |s[1..]| && s[1..][k] == r[j];
            assert s[0].paymentId != s[k + 1].paymentId;
          } else {
            assert r[i] == rest[i - 1] && r[j] == rest[j - 1];
          }
        }
      }
    }
  }

  /** The rows of the view have unique, valid keys and pass the filter. */
  lemma ViewRows(ledger: seq<LedgerDoc>, bookings: seq<BookingDoc>, f: StatusFilter)
    ensures var v := View(ledger, bookings, f);
      UniqueIds(v) && forall p :: p in v ==> ValidKey(p.paymentId) && Selected(f, p)
  {
    var all := Values(Collect(ledger, bookings));
    ValuesUnique(Collect(ledger, bookings));
    WhereUnique(all, HasValidKey);
    var valid := Where(all, HasValidKey);
    if f == CompletedOnly {
      WhereUnique(valid, IsCompleted);
    } else if f == PendingOnly {
      WhereUnique(valid, IsPending);
    }
  }

  /** A key is in the ledger map exactly when some ledger document derives it. */
  lemma {:induction false} LedgerKeys(docs: seq<LedgerDoc>)
    ensures forall k :: k in FoldLedger(docs).entries <==> exists i :: 0 <= i < |docs| && LedgerKey(docs[i]) == k
    decreases |docs|
  {
    if docs != [] {
      var init := docs[..|docs| - 1];
      LedgerKeys(init);
      forall k ensures k in FoldLedger(docs).entries <==> exists i :: 0 <= i < |docs| && LedgerKey(docs[i]) == k {
        if k in FoldLedger(init).entries {
          var i :| 0 <= i < |init| && LedgerKey(init[i]) == k;
          assert docs[i] == init[i];
        }
        if exists i :: 0 <= i < |docs| && LedgerKey(docs[i]) == k {
          var i :| 0 <= i < |docs| && LedgerKey(docs[i]) == k;
          if i < |docs| - 1 {
            assert init[i] == docs[i];
          }
        }
      }
    }
  }

  /** The ledger records filed under `k`, in snapshot order. */
  function LedgerCandidates(docs: seq<LedgerDoc>, k: string): seq<Payment>
    decreases |docs|
  {
    if docs == [] then []
    else
      var d := docs[|docs| - 1];
      LedgerCandidates(docs[..|docs| - 1], k) + (if LedgerKey(d) == k then [LedgerRecord(d)] else [])
  }

  /** The first record that carries a booking id. */
  function FirstWithBooking(c: seq<Payment>): Option<Payment> {
    if c == [] then None
    else if Present(c[0].bookingId) then Some(c[0])
    else FirstWithBooking(c[1..])
  }

  /** The record that ends up filed: the first with a booking id, else the first of all. */
  function Preferred(c: seq<Payment>): Payment
    requires c != []
  {
    match FirstWithBooking(c)
    case Some(p) => p
    case None => c[0]
  }

  lemma {:induction false} FirstWithBookingAppend(c: seq<Payment>, p: Payment)
    ensures FirstWithBooking(c + [p]) ==
      if FirstWithBooking(c).Some? then FirstWithBooking(c)
      else if Present(p.bookingId) then Some(p)
      else None
    ensures FirstWithBooking(c).Some? ==> Present(FirstWithBooking(c).value.bookingId)
    ensures FirstWithBooking(c).None? && c != [] ==> !Present(c[0].bookingId)
  {
    if c == [] {
      assert c + [p] == [p];
    } else {
      assert (c + [p])[0] == c[0];
      assert (c + [p])[1..] == c[1..] + [p];
      FirstWithBookingAppend(c[1..], p);
    }
  }

  /**
   * Ledger deduplication: of the ledger records sharing a key, the map keeps
   * the first one that carries a booking id, or the first one if none does.
   */
  lemma {:induction false} LedgerWinner(docs: seq<LedgerDoc>, k: string)
    ensures (k in FoldLedger(docs).entries) == (LedgerCandidates(docs, k) != [])
    ensures k in FoldLedger(docs).entries ==> FoldLedger(docs).entries[k] == Preferred(LedgerCandidates(docs, k))
    decreases |docs|
  {
    if docs != [] {
      var init := docs[..|docs| - 1];
      var d := docs[|docs| - 1];
      var c := LedgerCandidates(init, k);
      assert FoldLedger(docs) == LedgerStep(FoldLedger(init), d);
      LedgerWinner(init, k);
      if LedgerKey(d) == k {
        var p := LedgerRecord(d);
        FirstWithBookingAppend(c, p);
        assert LedgerCandidates(docs, k) == c + [p];
        if c != [] {
          assert (c + [p])[0] == c[0];
        } else {
          assert c + [p] == [p];
          assert [p][1..] == [];
          assert FoldLedger(docs).entries[k] == p;
        }
      } else {
        assert LedgerCandidates(docs, k) == c + [] == c;
        assert (k in FoldLedger(docs).entries) == (k in FoldLedger(init).entries);
        if k in FoldLedger(init).entries {
          assert FoldLedger(docs).entries[k] == FoldLedger(init).entries[k];
        }
      }
    }
  }

  /** A key is in the final map exactly when a ledger document or a booking with a payment derives it. */
  lemma {:induction false} CollectedKeys(m: PaymentMap, bs: seq<BookingDoc>, k: string)
    requires WellFormed(m) && KeyedById(m)
    ensures k in FoldBookings(m, bs).entries <==>
      k in m.entries || exists j :: 0 <= j < |bs| && FilesUnder(bs[j], k)
    decreases |bs|
  {
    if bs != [] {
      var init, last := bs[..|bs| - 1], bs[|bs| - 1];
      assert FoldBookings(m, bs) == BookingStep(FoldBookings(m, init), last);
      CollectedKeys(m, init, k);
      assert (exists j :: 0 <= j < |bs| && FilesUnder(bs[j], k)) <==>
        (exists j :: 0 <= j < |init| && FilesUnder(init[j], k)) || FilesUnder(last, k)
      by {
        if exists j :: 0 <= j < |bs| && FilesUnder(bs[j], k) {
          var j :| 0 <= j < |bs| && FilesUnder(bs[j], k);
          if j < |init| {
            assert init[j] == bs[j];
          }
        }
        if exists j :: 0 <= j < |init| && FilesUnder(init[j], k) {
          var j :| 0 <= j < |init| && FilesUnder(init[j], k);
          assert bs[j] == init[j];
        }
      }
    }
  }

  /** A booking that carries a payment is filed under key `k`. */
  predicate FilesUnder(b: BookingDoc, k: string) {
    b.payment.Some? && BookingKey(b) == k
  }

  /** Once an entry has a booking id, later bookings never take it away. */
  lemma {:induction false} BookingIdSticks(m: PaymentMap, bs: seq<BookingDoc>, k: string)
    requires WellFormed(m) && KeyedById(m)
    requires k in m.entries && Present(m.entries[k].bookingId)
    ensures k in FoldBookings(m, bs).entries && Present(FoldBookings(m, bs).entries[k].bookingId)
    decreases |bs|
  {
    if bs != [] {
      BookingIdSticks(m, bs[..|bs| - 1], k);
    }
  }

  /** After a booking with a payment is folded in, the entry under its key has a booking id. */
  lemma {:induction false} BookingLeavesBookingId(m: PaymentMap, bs: seq<BookingDoc>, j: int)
    requires WellFormed(m) && KeyedById(m)
    requires 0 <= j < |bs| && bs[j].payment.Some?
    ensures BookingKey(bs[j]) in FoldBookings(m, bs).entries
    ensures Present(FoldBookings(m, bs).entries[BookingKey(bs[j])].bookingId)
    decreases |bs|
  {
    var init := bs[..|bs| - 1];
    if j < |bs| - 1 {
      assert init[j] == bs[j];
      BookingLeavesBookingId(m, init, j);
    }
  }

  /** Bookings without a payment can be dropped from the snapshot without changing the map. */
  lemma {:induction false} BookingsWithoutPaymentIgnored(m: PaymentMap, bs: seq<BookingDoc>)
    requires WellFormed(m) && KeyedById(m)
    ensures FoldBookings(m, bs) == FoldBookings(m, Where(bs, HasPayment))
    decreases |bs|
  {
    if bs == [] {
    } else {
      var init := bs[..|bs| - 1];
      var b := bs[|bs| - 1];
      assert bs == init + [b];
      assert FoldBookings(m, bs) == BookingStep(FoldBookings(m, init), b);
      BookingsWithoutPaymentIgnored(m, init);
      WhereAppend(init, [b], HasPayment);
      var w := Where(init, HasPayment);
      if HasPayment(b) {
        assert [b][1..] == [];
        assert Where([b], HasPayment) == [b];
        assert Where(bs, HasPayment) == w + [b];
        FoldBookingsSnoc(m, w, b);
      } else {
        assert [b][1..] == [];
        assert Where([b], HasPayment) == [];
        assert Where(bs, HasPayment) == w + [] == w;
      }
    }
  }

  lemma FoldBookingsSnoc(m: PaymentMap, w: seq<BookingDoc>, b: BookingDoc)
    requires WellFormed(m) && KeyedById(m)
    ensures FoldBookings(m, w + [b]) == BookingStep(FoldBookings(m, w), b)
  {
    assert (w + [b])[..|w|] == w;
  }

  predicate HasPayment(b: BookingDoc) {
    b.payment.Some?
  }

  /**
   * A ledger record and a booking that derive the same key collapse into one
   * row of the map, and that row has a booking id.
   */
  lemma CrossSourceCollapse(ledger: seq<LedgerDoc>, bookings: seq<BookingDoc>, i: int, j: int)
    requires 0 <= i < |ledger| && 0 <= j < |bookings| && bookings[j].payment.Some?
    requires LedgerKey(ledger[i]) == BookingKey(bookings[j])
    ensures var vs := Values(Collect(ledger, bookings));
      var k := LedgerKey(ledger[i]);
      exists n :: 0 <= n < |vs| && vs[n].paymentId == k && Present(vs[n].bookingId) &&
        forall q :: 0 <= q < |vs| && vs[q].paymentId == k ==> q == n
  {
    var m := Collect(ledger, bookings);
    var k := LedgerKey(ledger[i]);
    BookingLeavesBookingId(FoldLedger(ledger), bookings, j);
    assert k in m.order;
    var n :| 0 <= n < |m.order| && m.order[n] == k;
    var vs := Values(m);
    ValuesUnique(m);
    assert vs[n].paymentId == k;
    OnlyIndexWithKey(vs, n);
  }

  /** With unique keys, a row is the only one with its key. */
  lemma OnlyIndexWithKey(vs: seq<Payment>, n: int)
    requires UniqueIds(vs) && 0 <= n < |vs|
    ensures forall q :: 0 <= q < |vs| && vs[q].paymentId == vs[n].paymentId ==> q == n
  {
  }

  // ----- Event titles and the status badge -----

  /** `[...new Set(s)]`: first occurrences, in order. */
  function Distinct(s: seq<string>): (r: seq<string>)
    ensures NoDup(r)
    ensures forall x :: x in r <==> x in s
    decreases |s|
  {
    if s == [] then []
    else
      var init := Distinct(s[..|s| - 1]);
      var x := s[|s| - 1];
      assert s == s[..|s| - 1] + [x];
      if x in init then init else init + [x]
  }

  /** The event ids the rows refer to: truthy, not `N/A`. */
  function RowEventIds(ps: seq<Payment>): (ids: seq<string>)
    ensures forall e :: e in ids <==> exists i :: 0 <= i < |ps| && ps[i].eventId == Some(e) && e != "" && e != "N/A"
  {
    if ps == [] then []
    else
      var p := ps[0];
      var rest := RowEventIds(ps[1..]);
      assert forall i :: 1 <= i < |ps| ==> ps[i] == ps[1..][i - 1];
      assert forall i :: 0 <= i < |ps[1..]| ==> ps[1..][i] == ps[i + 1];
      if Present(p.eventId) && p.eventId.value != "N/A" then [p.eventId.value] + rest else rest
  }

  /** The distinct event ids whose titles `fetchEventTitles` looks up. */
  function UniqueEventIds(ps: seq<Payment>): (ids: seq<string>)
    ensures NoDup(ids)
    ensures forall e :: e in ids <==> exists i :: 0 <= i < |ps| && ps[i].eventId == Some(e) && e != "" && e != "N/A"
  {
    Distinct(RowEventIds(ps))
  }

  /** Titles are looked up unless there are no ids, or the one id is the view's own event. */
  predicate NeedsTitleLookup(ids: seq<string>, viewEvent: Option<string>): (r: bool)
    ensures |ids| >= 2 ==> r
    ensures r <==> |ids| > 0 && (viewEvent.None? || ids != [viewEvent.value])
  {
    !(|ids| == 0 || (|ids| == 1 && viewEvent == Some(ids[0])))
  }

  /** Removing duplicates from copies of one value leaves at most that value. */
  lemma {:induction false} DistinctOfOneValue(s: seq<string>, e: string)
    requires forall i :: 0 <= i < |s| ==> s[i] == e
    ensures Distinct(s) == [] || Distinct(s) == [e]
    decreases |s|
  {
    if s != [] {
      DistinctOfOneValue(s[..|s| - 1], e);
    }
  }

  /** A view of one event whose rows all belong to it looks no title up. */
  lemma NoLookupForOwnEvent(ps: seq<Payment>, e: string)
    requires forall i :: 0 <= i < |ps| ==> ps[i].eventId == Some(e)
    ensures !NeedsTitleLookup(UniqueEventIds(ps), Some(e))
  {
    var raw := RowEventIds(ps);
    forall i | 0 <= i < |raw| ensures raw[i] == e {
      assert raw[i] in raw;
    }
    DistinctOfOneValue(raw, e);
  }

  /** What the status column shows. */
  datatype Badge = Badge(caption: string, cssClass: string)

  /** `status?.toUpperCase() || 'UNKNOWN'`. */
  function NormalisedStatus(status: Option<string>): (s: string)
    ensures s != ""
    ensures !Present(status) ==> s == "UNKNOWN"
    ensures Present(status) ==> s == ToUpper(status.value)
  {
    if Present(status) then ToUpper(status.value) else "UNKNOWN"
  }

  /** `formatStatus`. */
  function FormatStatus(status: Option<string>): (b: Badge)
    ensures b.caption != ""
  {
    match NormalisedStatus(status)
    case "COMPLETED" => Badge("Completed", "bg-green-100 text-green-800")
    case "PENDING" => Badge("Pending", "bg-yellow-100 text-yellow-800")
    case "FAILED" => Badge("Failed", "bg-red-100 text-red-800")
    case "REFUNDED" => Badge("Refunded", "bg-blue-100 text-blue-800")
    case other => Badge(other, "bg-gray-100 text-gray-800")
  }

  /** The badge ignores letter case. */
  lemma FormatStatusIgnoresCase(s: string)
    ensures FormatStatus(Some(s)) == FormatStatus(Some(ToUpper(s)))
  {
    ToUpperIdempotent(s);
  }

  /**
   * The badge and the filter read the status differently: a row whose status
   * is `Completed` shows a Completed badge yet counts, and is filtered, as
   * pending.
   */
  lemma MixedCaseCompletedIsPending(p: Payment)
    requires p.status == "Completed"
    ensures FormatStatus(Some(p.status)).caption == "Completed"
    ensures IsPending(p) && Selected(PendingOnly, p) && !Selected(CompletedOnly, p)
  {
    var u := ToUpper(p.status);
    assert u[0] == 'C' && u[1] == 'O' && u[2] == 'M' && u[3] == 'P' && u[4] == 'L';
    assert u[5] == 'E' && u[6] == 'T' && u[7] == 'E' && u[8] == 'D';
    assert u == "COMPLETED";
  }
}
