# Event-booking admin core, modelled in Dafny

This project models the three pieces of decision and record logic in the event-booking app:

1. **Webhook authentication** (`verifyWebhook`, functions/webhookVerification.js). This is an ordered ladder of early-exit checks:
   - a webhook id must be configured;
   - five inputs must be present (transmission id, time, serialised body, certificate URL, signature);
   - a `VALIDATION` event is accepted by a bypass;
   - the certificate URL must start with one of the two PayPal origins;
   - the certificate must download;
   - the signature is checked (RSASSA-PSS with SHA-256) over `id|time|webhookId|sha256hex(body)`.

   A failed signature is still accepted, with a warning, when the certificate URL mentions `sandbox`. The model is the total function `WebhookVerification.VerifyWebhook`. The three foreign calls are oracles: the download, the hex digest and the signature check. The outcome records which calls were made.

2. **Payment reconciliation** (`fetchPayments`, `fetchEventTitles` and `formatStatus` in src/components/PaymentsView.jsx). The model:
   - gives every record from the payment ledger and every payment embedded in a booking a deduplication key;
   - files them in one insertion-ordered JavaScript `Map`, with a "richer record wins" rule for the ledger and a field-wise merge for bookings;
   - drops rows with invalid keys and applies the status filter;
   - sorts the rows in place, newest first;
   - summarises them in the stats.

   `Payments.FetchPayments` is a method: two loops fill the map and an array sort orders the rows. Each part is proved against a specification function (`FoldLedger`, `FoldBookings`, `View`, `ComputeStats`).

3. **The users table** (src/components/UsersDatabase.jsx). The model covers:
   - the rows `fetchUsers` builds, including full name, dates, phone, event lines, membership years sorted newest first, and the member flag;
   - the expanded-cell dictionary;
   - the edit guard on locked columns;
   - saving a cell, including the name/surname split of a full name;
   - deleting a user: the bookings removed, attendees dropped from events, `spotsLeft` recomputed, and the row removed.

The Firestore snapshots are input sequences. Existence checks are inputs. Firestore writes are returned as data.

Files:

| file | module | contents |
|---|---|---|
| values.dfy | `JsValues` | `Option`; JavaScript truthiness of an optional value (`Present`, and `Or` for `x \|\| fallback`) |
| strings.dfy | `Strings` | `startsWith`, `includes`, `trim`, one-character `split`, `join`, ASCII `toUpperCase`, and the round-trip lemmas between them |
| arrays.dfy | `JsArrays` | `Array.prototype.filter` as `Where`, with its lemmas |
| sorting.dfy | `Sorting` | the in-place descending sort by an integer key that both components use |
| webhook.dfy | `WebhookVerification` | the ladder and its lemmas |
| payments.dfy | `Payments` | the reconciler, the stats, the event-id set and the status badge |
| users.dfy | `UsersDatabase` | the users table |

## Model

| member | source | states |
|---|---|---|
| WebhookVerification.VerifyWebhook | functions/webhookVerification.js:9-101 | A warning only comes with acceptance. An acceptance carries one of the three accepting messages. Every certificate download is of a URL on one of the two trusted origins. A foreign call happens only once all five inputs are present, and the first call downloads the request's own certificate URL. There are at most two calls. |
| WebhookVerification.TrustedCertUrl | functions/webhookVerification.js:42-43 | A trusted certificate URL begins with `https://api.` and is at least as long as the production origin. |
| WebhookVerification.SignedData | functions/webhookVerification.js:59 | The signed data is the four fields joined with `\|`. |
| WebhookVerification.MissingWebhookIdRejects | functions/webhookVerification.js:11-14 | Without a configured webhook id, the webhook is rejected with the configuration message, before any header is read or any call is made. |
| WebhookVerification.MissingInputRejects | functions/webhookVerification.js:17-33 | If one of the five inputs is falsy, the webhook is rejected with the headers message and no call is made. |
| WebhookVerification.ValidationNeedsHeaders | functions/webhookVerification.js:24-39 | The inputs are checked before the bypass, so a `VALIDATION` body without a signature header is rejected. |
| WebhookVerification.ValidationBypass | functions/webhookVerification.js:36-39 | With every input present, a `VALIDATION` event is accepted without a download or a signature check. |
| WebhookVerification.UnreadableRequestRejects | functions/webhookVerification.js:17-21 | A missing header object, or a body `JSON.stringify` throws on, is rejected by the general error handler and no call is made. |
| WebhookVerification.UntrustedCertUrlRejects | functions/webhookVerification.js:42-46 | A certificate URL outside the two origins is rejected before any download. |
| WebhookVerification.FetchOnlyTrustedUrl | functions/webhookVerification.js:42-56 | A download happens if and only if the request passed every earlier check. The URL downloaded is the request's own. |
| WebhookVerification.FetchFailureRejects | functions/webhookVerification.js:50-96 | A download that throws or answers non-ok is rejected without a warning, and no signature is checked. |
| WebhookVerification.SignatureCheckedOverSignedData | functions/webhookVerification.js:56-68 | A signature check uses the downloaded certificate and the request's signature header. It runs over exactly `id\|time\|webhookId\|sha256hex(serialised body)`. |
| WebhookVerification.SignatureDecides | functions/webhookVerification.js:70-92 | A valid signature is accepted without a warning. An invalid one is accepted, with the warning, exactly when the certificate URL contains `sandbox`. A throwing check is rejected. |
| WebhookVerification.WarningOnlyOnSandboxLeniency | functions/webhookVerification.js:76-85 | The warning is set if and only if the signature check failed and the certificate URL contains `sandbox`. |
| WebhookVerification.VerifiedPaths | functions/webhookVerification.js:35-88 | A webhook is accepted if and only if it is a validation event with every input present, or its signature check passed, or its check failed on a URL containing `sandbox`. |
| WebhookVerification.SandboxOriginIsLenient | functions/webhookVerification.js:42-78 | Any URL on the sandbox origin is trusted and qualifies for the leniency. |
| WebhookVerification.ProductionOriginCanBeLenient | functions/webhookVerification.js:77-84 | The leniency keys on the substring: a production-origin URL whose path says `sandbox` also has a failed signature accepted, with the warning. |
| WebhookVerification.SignedDataFields | functions/webhookVerification.js:59 | When no field contains `\|` (the hex digest never does), splitting the signed data on `\|` gives back its four fields. |
| Payments.LedgerKey | src/components/PaymentsView.jsx:74-87 | The key is never empty. It follows three rungs in priority order: `fullDetails.id` when present; else the stored `paymentId` when it is present, not `unknown` and longer than 10 characters; else the document id. |
| Payments.LedgerPaypalEmail | src/components/PaymentsView.jsx:101-105 | The PayPal e-mail is never empty. `fullDetails.payer.email_address` wins, then `payer.email`. Failing both, it is `payerEmail` only when that mentions `sandbox` or `paypal`, and otherwise `N/A`. |
| Payments.BookingPaypalEmail | src/components/PaymentsView.jsx:176-178 | The payer e-mail of a booking is never empty: `payment.payer.email` when present, else `paymentDetails.payerEmail`, else `N/A`. |
| Payments.LedgerRecord | src/components/PaymentsView.jsx:89-107 | A ledger document is filed under its ledger key, marked as coming from the payments collection. |
| Payments.BookingKey | src/components/PaymentsView.jsx:132-141 | The key is never empty. It follows three rungs in priority order: `payment.id` when present and not `unknown`; else `paymentDetails.paymentId` when present; else the booking document id. |
| Payments.BookingRecord | src/components/PaymentsView.jsx:164-180 | A booking-only record is filed under the booking's key. Its booking id is the booking document id, and it is marked as coming from the booking collection. |
| Payments.MergeBooking | src/components/PaymentsView.jsx:150-159 | After a merge the booking id is non-empty: an existing one is kept, else it becomes the booking document id. The user e-mail prefers the contact e-mail. A payer e-mail other than `N/A` is kept; an `N/A` one becomes the booking's payer e-mail (`payment.payer.email`, else `paymentDetails.payerEmail`, else `N/A`). Every other field is unchanged. |
| Payments.Set | src/components/PaymentsView.jsx:116 | `Map.set` keeps the map well-formed: each key is listed once and exactly the keys with entries are listed. It sets the entry. A new key goes last in the listed order; an existing key keeps its place. |
| Payments.Values | src/components/PaymentsView.jsx:188 | `Array.from(map.values())` lists one value per key, in insertion order. |
| Payments.LedgerStep | src/components/PaymentsView.jsx:112-117 | Filing a ledger record adds its key and leaves every other entry alone. It keeps each entry under its own key. |
| Payments.FoldLedger | src/components/PaymentsView.jsx:70-118 | The ledger snapshot folds into a well-formed map whose entries sit under their own keys. |
| Payments.BookingStep | src/components/PaymentsView.jsx:128-185 | A booking without a payment leaves the map unchanged. A booking with a payment adds its key, and leaves a booking id under it. The entry under that key becomes the merge of the booking into the entry already there (`MergeBooking`), or the booking's own record (`BookingRecord`) when the key is new. Booking ids already present are never lost, and other entries are unchanged. |
| Payments.FoldBookings | src/components/PaymentsView.jsx:128-185 | Folding the bookings keeps the map well-formed and never loses a key. |
| Payments.Collect | src/components/PaymentsView.jsx:66-185 | The map after both snapshots is well-formed and keyed by `paymentId`. |
| Payments.FileLedger | src/components/PaymentsView.jsx:69-119 | The ledger `forEach` loop produces the map of `FoldLedger`. |
| Payments.FileBookings | src/components/PaymentsView.jsx:128-185 | The bookings `forEach` loop produces the map of `FoldBookings`. |
| Payments.CollectMap | src/components/PaymentsView.jsx:66-185 | The two loops together produce the map of `Collect`. |
| Payments.SortNewestFirst | src/components/PaymentsView.jsx:207-218 | The sort leaves the rows non-increasing by `getTimestamp`, and they are a permutation of its input. |
| Payments.FetchPayments | src/components/PaymentsView.jsx:48-237 | The rows shown are a permutation of the valid and filtered view, sorted newest first. No two share a key. Every key is valid, and every row passes the filter. The stats are those of the view. |
| Payments.GetTimestamp | src/components/PaymentsView.jsx:209-215 | A missing, unrecognised or unparseable timestamp counts as 0. A `seconds` object counts 1000 times its seconds. A Firestore timestamp counts its milliseconds. An empty string counts as 0. A non-empty string counts as the milliseconds it parses to. |
| Payments.ComputeStats | src/components/PaymentsView.jsx:221-229 | total = completed + pending and is the number of rows. completed counts the rows with status `COMPLETED` or `completed`, and pending counts the rest. totalAmount sums the completed rows' amounts, with a non-numeric amount counted as 0. |
| Payments.FilterPartition | src/components/PaymentsView.jsx:198-204 | The completed filter and the pending filter together partition the rows (a multiset partition), and `all` keeps every row. |
| Payments.StatsOfFilteredView | src/components/PaymentsView.jsx:197-229 | In the completed view nothing is pending. In the pending view nothing is completed and the total amount is 0. |
| Payments.CompletedTallyPermutation | src/components/PaymentsView.jsx:221-229 | The completed count and amount depend only on which rows there are, not on their order. |
| Payments.StatsPermutation | src/components/PaymentsView.jsx:207-237 | Sorting before summarising does not change the stats. |
| Payments.UniqueIdsPermutation | src/components/PaymentsView.jsx:207-218 | Reordering rows keeps their keys unique. |
| Payments.ValuesUnique | src/components/PaymentsView.jsx:187-188 | The rows taken out of the map have pairwise distinct keys. |
| Payments.WhereUnique | src/components/PaymentsView.jsx:190-204 | Filtering keeps keys unique. |
| Payments.ViewRows | src/components/PaymentsView.jsx:187-204 | The view has unique keys, each key is non-empty, not `unknown` and longer than 8, and every row passes the status filter. |
| Payments.LedgerKeys | src/components/PaymentsView.jsx:70-118 | A key is in the ledger map exactly when some ledger document derives it. |
| Payments.LedgerWinner | src/components/PaymentsView.jsx:112-117 | Of the ledger records sharing a key, the map keeps the first that carries a booking id, or the first of all when none does. |
| Payments.CollectedKeys | src/components/PaymentsView.jsx:128-185 | A key is in the final map exactly when it was already there or a booking with a payment derives it. |
| Payments.BookingIdSticks | src/components/PaymentsView.jsx:150-152 | Once an entry has a booking id, no later booking removes it. |
| Payments.BookingLeavesBookingId | src/components/PaymentsView.jsx:146-182 | After the bookings, the entry under any paying booking's key has a booking id. |
| Payments.BookingsWithoutPaymentIgnored | src/components/PaymentsView.jsx:130 | Dropping the bookings without a payment from the snapshot does not change the map. |
| Payments.CrossSourceCollapse | src/components/PaymentsView.jsx:143-161 | A ledger record and a booking that derive the same key end up as exactly one row, and that row has a booking id. |
| Payments.Distinct | src/components/PaymentsView.jsx:252-256 | `[...new Set(s)]` has no duplicates and holds exactly the values of `s`. |
| Payments.RowEventIds | src/components/PaymentsView.jsx:253-255 | The ids kept are exactly the rows' event ids that are truthy and not `N/A`. |
| Payments.UniqueEventIds | src/components/PaymentsView.jsx:252-256 | The looked-up event ids are distinct. They are exactly the rows' truthy event ids other than `N/A`. |
| Payments.NeedsTitleLookup | src/components/PaymentsView.jsx:259 | Titles are looked up exactly when there is an id and the ids are not just the view's own event. Two or more ids always need a lookup. |
| Payments.NoLookupForOwnEvent | src/components/PaymentsView.jsx:258-261 | A view of one event whose rows all belong to that event looks no titles up. |
| Payments.NormalisedStatus | src/components/PaymentsView.jsx:312 | The normalised status is never empty. A missing or empty status becomes `UNKNOWN`; any other status is its upper-case form. |
| Payments.FormatStatus | src/components/PaymentsView.jsx:311-326 | The badge always has a caption. |
| Payments.FormatStatusIgnoresCase | src/components/PaymentsView.jsx:311-326 | The badge of any status, the empty one included, is the badge of its upper-cased form. |
| Payments.MixedCaseCompletedIsPending | src/components/PaymentsView.jsx:198-203 | A row with status `Completed` shows a Completed badge, yet counts and filters as pending. |
| Strings.Trim | src/components/UsersDatabase.jsx:184 | `trim` leaves no white space at either end. Trimming twice is trimming once (`Strings.TrimIdempotent`). |
| Strings.TrimCutsAtSpace | src/components/UsersDatabase.jsx:184 | `trim` removes only white space: the result is a contiguous piece of the input, and every character before or after that piece is white space. |
| Strings.Split | src/components/UsersDatabase.jsx:184 | `split` gives at least one piece, and no piece contains the separator. It gives a single piece exactly when the separator does not occur. |
| Strings.JoinSplit | src/components/UsersDatabase.jsx:184-186 | Joining the pieces of a split gives back the string. |
| Strings.SplitJoin | src/components/UsersDatabase.jsx:184-186 | Splitting a join of separator-free pieces gives back the pieces. |
| Sorting.SortDescendingBy | src/components/PaymentsView.jsx:207-218 | The in-place sort leaves the array non-increasing by its key, and a permutation of its old contents. |
| JsArrays.Where | src/components/PaymentsView.jsx:191-195 | `filter` keeps exactly the elements that pass, never adds an element, and never grows. |
| UsersDatabase.FirstBookingOf | src/components/UsersDatabase.jsx:28-37 | The first booking of the user, if any. It returns none exactly when the user has no booking. |
| UsersDatabase.PhoneFromFirstBookingOnly | src/components/UsersDatabase.jsx:34-37 | For any snapshot, the phone is the contact phone of the user's first booking, or empty when that booking has none, whatever later bookings carry. |
| UsersDatabase.EventLines | src/components/UsersDatabase.jsx:43-54 | There are never more lines than booked ids. Each line describes a booked event in the catalogue. There are no lines exactly when no booked event exists. |
| UsersDatabase.EventLinesCover | src/components/UsersDatabase.jsx:43-54 | Every booked event that exists contributes its `title (date)` line. |
| UsersDatabase.EventLinesCount | src/components/UsersDatabase.jsx:43-54 | There are exactly as many lines as booked ids that exist in the catalogue. |
| UsersDatabase.MembershipYearsDisplay | src/components/UsersDatabase.jsx:94-98 | An empty list becomes the `none` marker. Otherwise the years are shown sorted newest first, as a permutation of the stored ones. |
| UsersDatabase.FetchUsers | src/components/UsersDatabase.jsx:13-134 | The method builds one row per user document, in order. Each row is the one the document, the user's first booking, the existing booked events and the sorted years make. |
| UsersDatabase.FullName | src/components/UsersDatabase.jsx:57-59 | The full name is empty exactly when the name or surname is missing and there is no display name. With both present it starts with the name and a space. |
| UsersDatabase.FetchedRowShows | src/components/UsersDatabase.jsx:56-123 | The row keeps the user id. The full name is `name surname` when both are present, else the display name or empty. The member flag is set exactly when the stored value is `true`. The events cell is never empty, and shows the placeholder exactly when no booked event exists. The membership cell is sorted. The birth date cell is a stored string as it is, and empty for a missing or empty value. The creation date cell is the local date-time of a `Date` or Firestore timestamp, and empty for a missing or empty value. The phone is `PhoneOf` the bookings. E-mail, name and surname default to empty. `lastBookingYear` is dropped when missing or 0, and kept otherwise. `personalDetailsLastConfirmed` is kept when truthy and dropped otherwise. |
| UsersDatabase.BirthDateText | src/components/UsersDatabase.jsx:61-76 | A missing, empty or unrecognised birth date gives the empty string. A string is shown as stored. A `Date` or Firestore timestamp is shown in its Italian date format. |
| UsersDatabase.CreatedAtText | src/components/UsersDatabase.jsx:78-92 | A missing, empty or unrecognised creation date gives the empty string. A string is shown as stored. A `Date` or Firestore timestamp is shown in its local date-time format. |
| UsersDatabase.PhoneOf | src/components/UsersDatabase.jsx:25-37 | A user without bookings has an empty phone. A non-empty phone is the contact phone of one of the user's bookings. |
| UsersDatabase.CollectEventLines | src/components/UsersDatabase.jsx:41-53 | The loop over one user's booked events produces exactly `EventLines`. |
| UsersDatabase.FetchRow | src/components/UsersDatabase.jsx:19-123 | The body of the `fetchUsers` loop produces the row `FetchedRowShows` describes. |
| UsersDatabase.TruthyFlagIsNotMembership | src/components/UsersDatabase.jsx:101 | A stored member flag that is not a boolean never counts as membership. |
| UsersDatabase.ToggleCellExpand | src/components/UsersDatabase.jsx:144-150 | The toggled cell flips its expanded state. Every other key is present and valued as before. |
| UsersDatabase.IsCellExpanded | src/components/UsersDatabase.jsx:152-155 | A cell reads as expanded exactly when its key is stored with `true`; a missing key reads as collapsed. |
| UsersDatabase.ToggleTwiceRestores | src/components/UsersDatabase.jsx:144-155 | Toggling a cell twice restores the expanded state of every cell. |
| UsersDatabase.CellKeyInjective | src/components/UsersDatabase.jsx:145 | When column ids have no dash, distinct cells have distinct keys. |
| UsersDatabase.ToggleLeavesOtherCells | src/components/UsersDatabase.jsx:144-155 | Toggling one cell leaves the expanded state of every other cell alone. |
| UsersDatabase.HandleEdit | src/components/UsersDatabase.jsx:157-165 | A locked column leaves the editing state unchanged. Any other column starts editing that cell with its value. |
| UsersDatabase.LockedColumnsNeverEdited | src/components/UsersDatabase.jsx:157-165 | However many cells are clicked, a locked column never enters edit mode. |
| UsersDatabase.EditableColumnsUnlocked | src/components/UsersDatabase.jsx:158-161 | The six saved columns are outside the locked set and contain no dash. |
| UsersDatabase.NameSplit | src/components/UsersDatabase.jsx:184-186 | The name written is a single token with no space. |
| UsersDatabase.NameSplitRejoins | src/components/UsersDatabase.jsx:184-186 | When the trimmed value contains a space, `name + " " + surname` equals it. Otherwise the name is the trimmed value and the surname is empty. |
| UsersDatabase.FullNameSplitsBack | src/components/UsersDatabase.jsx:57-59 | A name without spaces and a surname that need no trimming are recovered by splitting the full name they make. |
| UsersDatabase.SavedFullNameReloads | src/components/UsersDatabase.jsx:184-186 | Reloaded after a save, the full name is the trimmed value when it contains a space. Otherwise it falls back to the display name. |
| UsersDatabase.ApplyEdit | src/components/UsersDatabase.jsx:204-209 | The id is kept and the saved column shows the value. A full name also rewrites name and surname with the split. Every other column and field is unchanged. |
| UsersDatabase.UpdateRows | src/components/UsersDatabase.jsx:201-214 | The number of rows, their order and their ids are kept. Rows with other ids are identical. Each row with the saved id becomes its `ApplyEdit`: it shows the value, gets the name split for a full name, and keeps every other field. |
| UsersDatabase.UpdateRowsIdempotent | src/components/UsersDatabase.jsx:201-214 | Saving the same value twice is the same as saving it once. |
| UsersDatabase.SaveWrite | src/components/UsersDatabase.jsx:177-195 | The write always sets `updatedAt` to the server timestamp. A full name writes `name` and `surname`. Any other column writes that column. |
| UsersDatabase.SaveWriteMatchesRow | src/components/UsersDatabase.jsx:181-209 | Every field written holds what the locally edited row shows in that field. |
| UsersDatabase.HandleSave | src/components/UsersDatabase.jsx:167-221 | A missing user document fails with `User not found` before any write. A failed write leaves the rows and the editing state. A successful write updates the matching rows and leaves edit mode. |
| UsersDatabase.WithoutUser | src/components/UsersDatabase.jsx:262 | The user is gone from the attendees, and every other attendee keeps their multiplicity. |
| UsersDatabase.SpotsLeft | src/components/UsersDatabase.jsx:263 | The spots left are never negative: `spots - remaining` when that is positive, else 0. |
| UsersDatabase.EventUpdates | src/components/UsersDatabase.jsx:255-275 | Each update is for a booked event that exists. Each drops the user from the attendees and has a non-negative `spotsLeft`. Every booked event that exists gets an update. |
| UsersDatabase.EventUpdatesCount | src/components/UsersDatabase.jsx:255-270 | There is exactly one update per booked id whose event exists. |
| UsersDatabase.EventUpdateOf | src/components/UsersDatabase.jsx:261-270 | The update is for the given event. It removes the user from the attendees and keeps every other attendee with its multiplicity. `spotsLeft` is the spots less the remaining attendees, or 0 when that is not positive. |
| UsersDatabase.PlanEventUpdates | src/components/UsersDatabase.jsx:255-275 | The loop over booked events produces the same updates as `EventUpdates`. |
| UsersDatabase.BookingIdsOf | src/components/UsersDatabase.jsx:233-242 | The bookings deleted are exactly those of the user. |
| UsersDatabase.RemoveRow | src/components/UsersDatabase.jsx:286 | The remaining rows are exactly the rows of other users. |
| UsersDatabase.RemoveRowExactlyOne | src/components/UsersDatabase.jsx:286 | With unique ids, deleting a row's user removes exactly that row and keeps the others in order. |
| UsersDatabase.HandleDeleteUser | src/components/UsersDatabase.jsx:223-294 | Unconfirmed, nothing happens. Confirmed, the plan deletes the user's bookings, the event updates are made when the user document exists, the user document is deleted, and the user's rows are removed. |

## Left out

- WebhookVerification.VerifyWebhook: is total. `fetch(certUrl)` is called with no timeout, so a download that never settles leaves the source's `verifyWebhook` pending forever; the oracle always answers and cannot express that.
- Foreign calls are oracles, not modelled: the certificate download (`node-fetch`), SHA-256 hashing, and RSASSA-PSS `crypto.verify` with the base64 decoding of the signature. `JSON.stringify` is abstract: a body carries its serialised text, or the error it throws.
- Firestore I/O (`getDocs`, `getDoc`, `updateDoc`, `deleteDoc`, `serverTimestamp`):
  - Snapshots are input sequences, already narrowed by the view's `eventId` query.
  - Document existence is an input.
  - Writes are returned as data.
  - An error thrown by a read or a write part-way through `fetchUsers`, `fetchPayments` or `handleDeleteUser` is not modelled, and neither are the `catch` blocks that log and continue.
- Concurrency and timers are not modelled: `Promise.all` fan-out, the auto-refresh interval and the React effects. Steps happen in source order.
- Floating point is not modelled. Amounts are integers. `parseFloat` is read as "a number, or not a number" (`Amount`).
- Dates and locale are not modelled:
  - `new Date(text)` parsing is an input (`DateText.parsedMillis`), with an unparseable date as 0. In JavaScript such a date makes the comparator return `NaN`, which `sort` treats as 0 inconsistently.
  - The locale strings of `toLocaleDateString`/`toLocaleString` are inputs.
  - Multiplying `seconds` by 1000 is exact. No floating-point rounding is modelled.
- Sorting.SortDescendingBy: states a non-increasing permutation. It does not state stability, since the model sorts by selection, which is not stable.
- Payments.FetchPayments: rows with equal timestamps (rows with no `createdAt` among them) may be shown in a different order from the source. `Array.prototype.sort` is stable and keeps them in map insertion order; the model's selection sort does not. For ledger rows A and B without a timestamp followed by C with one, the source shows C, A, B and the model C, B, A. The membership years are unaffected, as equal years are indistinguishable.
- String lengths are counted in Unicode scalar values, as Dafny's `string` counts them. JavaScript's `length` counts UTF-16 code units, so for an id holding characters outside the Basic Multilingual Plane the tests `paymentId.length > 10` (src/components/PaymentsView.jsx:81) and `payment.paymentId.length > 8` (src/components/PaymentsView.jsx:194) can differ from the model's.
- `toUpperCase` is modelled on ASCII letters only. No other Unicode case mapping is modelled.
- CSV export (`downloadCSV`) is not modelled. It rests on `JSON.stringify` escaping, `Blob` and a DOM download.
- `fetchEventTitles` stops at the lookup decision (`NeedsTitleLookup`). The per-event title fetch is I/O.
- src/components/AuthModal.jsx, src/components/EventCard.jsx and src/App.jsx are not part of this model. They are authentication, rendering and browser plumbing.
- Rendering, truncation, CSS class choice beyond the status badge, `console` logging, `alert` and `confirm` are not modelled. Confirmation is an input to `HandleDeleteUser`.
- UsersDatabase.HandleSave: takes the column as one of the six columns the table saves (email, taxId, fullName, birthDate, address, instagram). An arbitrary column id is not modelled.
- UsersDatabase.ToggleCellExpand: models the dictionary as string to boolean. A non-boolean truthy value stored under a key is not modelled.

Two behaviours of the code a reader might not expect:

- The status filter and the stats compare the status for the exact spellings `COMPLETED` and `completed`, not case-insensitively. `Payments.MixedCaseCompletedIsPending` shows the effect.
- The sandbox leniency tests for the substring `sandbox` anywhere in the certificate URL, not for the sandbox origin. `WebhookVerification.ProductionOriginCanBeLenient` shows the effect.
