# GateLog — a verified model of the visitor-management rules

GateLog is a gated-community visitor log. Watchmen record visitors at the
gate, residents approve the visitors who come to see them, and the society
committee reviews every entry. The application is a React front end over a
document database. This project models, in Dafny, the rules buried in its
components, and proves what they guarantee. The database is modelled as
in-memory collections, and the outcome of every network call is a
parameter:

- **Records.** The user profile and the visitor entry. A role is kept as
  stored text, decoded by `UserTypes.ParseRole`. A status is the
  enumeration `pending`/`approved`/`rejected`.
- **Visitor analytics.**
  - The 24×7 hour-by-day count matrix, filled in place in a 2-D array.
  - The chart's flattening of that matrix.
  - The memoisation equality check.
  - Status counts, the status filter and the "recent visitors" slice.
- **Input filters.** Phone (0–10 digits), flat number (0–5 digits) and
  vehicle plate. A plate value is accepted exactly when it is a prefix of
  two letters, two digits, two letters and four digits.
- **Resident-name and purpose suggestions.**
  - The resident map; a later profile with the same name overwrites an
    earlier one.
  - The purpose frequency table.
  - A stable sort of the table by count.
  - The two prefix-matching dropdowns.
- **Status transitions.**
  - The committee's approve/reject toggle.
  - The resident's approve action.
  - The local list update, made only after the write succeeds.
  - The watchman's status change.
- **The resident's notification list**, which raises one notification per
  visitor id.
- **The watchman's offline queue.** It is appended to while offline and
  replayed in order when back online. It is cleared only when every write
  succeeded.
- **The cleanup endpoint.** The society id wins over the user id, and
  exactly the matching visitors are deleted.
- **Navigation.**
  - The home page's state machine.
  - The dashboard index.
  - The three role guards.
  - The sign-in page's redirect.
  - The auth listener.
  - Sign-in, sign-up and password reset.
  - The shared dashboard.

JavaScript semantics are written out where they matter:

- Optional fields are `Option`s, and "truthy" means present and non-empty.
- Objects used as dictionaries are insertion-ordered association lists.
  Assigning to an existing key keeps its place. Integer-like keys and
  inherited keys are the exceptions listed under "Left out".
- `indexOf` gives the first index or -1.
- `toLowerCase`/`toUpperCase` change ASCII letters only.
- `Array.prototype.sort` is stable.

Vehicle plates are compared after upper-casing. Purposes are compared after
lower-casing. Resident names are compared with both sides lower-cased. The
page guards compare the role text exactly, while the sign-in form
lower-cases it first.

The model shows three consequences of the code that a reader may not
expect:

- A replayed offline entry carries no society (`Watchman.Replayed`), so the
  watchman's society-filtered listener does not show it.
- A profile written by the sign-up form has no resident name
  (`SignUp.SignedUpProfileNotSuggested`), so those accounts never appear in
  the watchman's resident suggestions.
- A signed-in user whose role text is non-empty but not one of the three
  names is sent back and forth between the sign-in page and the dashboard
  index (`Routes.UnknownRoleBounces`).

Layout: one module per file. `wrappers`, `text`, `seqs` and `dict` are
shared helpers. `user_types` holds the records and `backend` the
collections. The other files follow the source's components.

## Model

| member | source | states |
|---|---|---|
| UserTypes.ParseRole | types/user.ts:4 | exactly the three role names decode, each to the role whose name it is |
| UserTypes.RoleRoundTrip | types/user.ts:4 | every role's stored name decodes back to that role |
| UserTypes.ParseStatus | types/user.ts:23 | exactly the three status names decode, each to the status whose name it is |
| UserTypes.StatusRoundTrip | types/user.ts:23 | every status's stored name decodes back to that status |
| Heatmap.IndexOf | components/dashboard/watchman-dashboard.tsx:122 | `indexOf`: -1 iff the date is absent, otherwise the position of its first occurrence |
| Heatmap.Counts | components/dashboard/watchman-dashboard.tsx:115-118 | the count matrix has 24 rows of 7 cells |
| Heatmap.Aggregate | components/dashboard/watchman-dashboard.tsx:114-128 | the zero-filled 24×7 array incremented per visitor holds, in every cell, the number of visitors at that hour on that date |
| Heatmap.OutOfWindowChangesNothing | components/dashboard/watchman-dashboard.tsx:120-125 | a visitor whose date is not among the seven dates leaves the matrix unchanged |
| Heatmap.InWindowIncrementsOneCell | components/dashboard/committee-dashboard.tsx:42-54 | a visitor whose date is in the window increments exactly one cell, at its hour and at the date's first index |
| Heatmap.TotalIsInWindow | components/dashboard/watchman-dashboard.tsx:114-128 | the matrix total equals the number of visitors whose date is among the seven dates |
| HeatmapChart.Flatten | components/ui/HeatmapChart.tsx:22-27 | the nested loops push, row by row of dates, one cell per hour, as the reference list `Flattened` |
| HeatmapChart.FlattenedLength | components/ui/HeatmapChart.tsx:22-27 | the flattened list has `|dates| * |hours|` cells |
| HeatmapChart.FlattenedAt | components/ui/HeatmapChart.tsx:23-25 | the cell at `y*|hours|+x` has hour label `hours[x]`, date label `dates[y]` and the value `data[y][x]`, or 0 if that entry is missing |
| HeatmapChart.FlattenedNonNegative | components/ui/HeatmapChart.tsx:25 | all flattened values are non-negative when the matrix is |
| HeatmapChart.ChartMisplacesCounts | components/ui/HeatmapChart.tsx:25 | one visitor at 10:00 on the first date is counted in the matrix, while the chart's cell for that hour and date shows 0 |
| HeatmapChart.CorrectedChartShowsCounts | components/ui/HeatmapChart.tsx:25 | reading the matrix hour-first, every chart cell shows the number of visitors at that hour on that date |
| HeatmapWrapper.AreEqual | components/dashboard/HeatmapWrapper.tsx:10-30 | the early-exit loops return true iff dates, hours and the matrix are equal element by element (so the check is reflexive and symmetric) |
| Validators.OnPhoneChange | components/dashboard/watchman-dashboard.tsx:827-832 | the field takes the input iff it is 0–10 digits, otherwise keeps its value; an accepted value stays accepted |
| Validators.OnFlatChange | components/auth/sign-up.tsx:173-178 | the field takes the input iff it is 0–5 digits, otherwise keeps its value; an accepted value stays accepted |
| Validators.PlateAcceptsTemplatePrefixes | components/dashboard/watchman-dashboard.tsx:872-877 | the four regular expressions or the empty string accept a value iff it is a prefix of the template: letter, letter, digit, digit, letter, letter, then four digits |
| Validators.PlatePrefixClosed | components/dashboard/watchman-dashboard.tsx:872-877 | an accepted plate has at most 10 characters, and each of its prefixes is accepted |
| Validators.OnPlateChange | components/dashboard/watchman-dashboard.tsx:870-882 | the upper-cased input is taken iff it is a template prefix; otherwise the old value stays |
| Suggestions.BuildResidentMap | components/dashboard/watchman-dashboard.tsx:192-198 | the loop over the user documents builds the resident-map reference `ResidentMapOf` |
| Suggestions.ResidentMapLookup | components/dashboard/watchman-dashboard.tsx:192-198 | the map holds each name once, and a name reads the ids of the latest document listed with that name |
| Suggestions.LatestListedMeans | components/dashboard/watchman-dashboard.tsx:194-196 | a name maps to `r` iff some listed document with that name has `r` and no later document is listed with that name (a later one overwrites) |
| Suggestions.ResidentSuggestions | components/dashboard/watchman-dashboard.tsx:210-221 | empty input: empty and hidden; otherwise exactly the map's names that start with the input, both lower-cased, in the map's key order, shown iff non-empty |
| Suggestions.BuildPurposeFrequency | components/dashboard/watchman-dashboard.tsx:228-234 | the loop builds the frequency reference `PurposeFrequencyOf` |
| Suggestions.PurposeFrequencyCounts | components/dashboard/watchman-dashboard.tsx:228-234 | each lower-cased purpose appears once with the number of visitors having it; the empty purpose is absent |
| Suggestions.InsertByCountContents | components/dashboard/watchman-dashboard.tsx:237-239 | inserting adds exactly the new entry: one more entry, the same entries and keys otherwise, no key twice |
| Suggestions.InsertByCountOrdered | components/dashboard/watchman-dashboard.tsx:237-239 | inserting into a table with non-increasing counts keeps it non-increasing |
| Suggestions.InsertByCountSpec | components/dashboard/watchman-dashboard.tsx:237-239 | inserting into a list with non-increasing counts keeps it non-increasing, adds one entry and keeps keys unique |
| Suggestions.SortByCountSpec | components/dashboard/watchman-dashboard.tsx:237-239 | the sort gives non-increasing counts over the same entries, as many, each key once |
| Suggestions.InsertByCountStable | components/dashboard/watchman-dashboard.tsx:237-239 | an inserted entry goes after every entry of its own count already in the table |
| Suggestions.SortByCountOrdered | components/dashboard/watchman-dashboard.tsx:237-239 | the sorted table has non-increasing counts, for any table |
| Suggestions.SortByCountStable | components/dashboard/watchman-dashboard.tsx:237-239 | the sort is stable: for every count, the entries with that count keep their order from the table |
| Suggestions.SortedPurposesSpec | components/dashboard/watchman-dashboard.tsx:228-239 | `sortedPurposes` lists each non-empty lower-cased purpose once, and nothing else, by non-increasing visitor count |
| Suggestions.PurposeSuggestions | components/dashboard/watchman-dashboard.tsx:242-251 | empty input: empty and hidden; otherwise exactly the sorted purposes that start with the lower-cased input, kept in the sorted order, shown iff non-empty |
| Suggestions.PurposeSuggestionsByFrequency | components/dashboard/watchman-dashboard.tsx:226-251 | the purpose dropdown built from the visitor list has no repeats and lists purposes from most to least used |
| Seqs.FilterKeepsOrder | components/dashboard/watchman-dashboard.tsx:216-218 | filtering keeps the list's order |
| Suggestions.SuggestionsDistinct | components/dashboard/watchman-dashboard.tsx:216-218 | neither dropdown lists an entry twice |
| VisitorList.FilterByStatusSpec | components/dashboard/committee-dashboard.tsx:164 | `all` keeps every visitor; a status keeps exactly the visitors with it, in order |
| VisitorList.StatsAddUp | components/dashboard/committee-dashboard.tsx:166-171 | pending, approved and rejected add up to the total |
| VisitorList.SetStatus | components/dashboard/committee-dashboard.tsx:127-129 | the list keeps its length and order; the visitors with the id get the new status and nothing else changes; other visitors are untouched |
| VisitorList.SetStatusIdempotent | components/dashboard/committee-dashboard.tsx:127-129 | applying the same update twice is applying it once |
| VisitorList.SetStatusCounts | components/dashboard/committee-dashboard.tsx:127-129 | the update keeps the total and adds to the new status's count exactly the visitors with that id that did not have it |
| VisitorList.RecentVisitors | components/dashboard/resident-dashboard.tsx:507 | at most 10 visitors: the first ten in order, or all of them |
| Backend.Lookup | components/dashboard/watchman-dashboard.tsx:520-521 | `getDoc`: a present result is a document with that id; an absent result means no such document |
| Backend.Without | app/api/delete-visitor-data/route.ts:39 | deleting an id keeps exactly the documents with other ids |
| Backend.Store.Add | components/dashboard/watchman-dashboard.tsx:397 | `addDoc` appends the record under its new identifier iff the write goes through |
| Backend.Store.Delete | app/api/delete-visitor-data/route.ts:39 | `deleteDoc` removes the documents with that id iff the write goes through |
| Backend.Users.Set | components/auth/sign-up.tsx:91 | `setDoc` stores the profile under the uid iff the write goes through |
| Backend.Store.UpdateStatus | components/dashboard/committee-dashboard.tsx:124 | the write succeeds iff it goes through and the document exists, and then only the status changes |
| Committee.Toggle | components/dashboard/committee-dashboard.tsx:378 | an approved visitor gets `rejected`, any other gets `approved`; the status always changes and never to pending |
| Committee.ToggleLabel | components/dashboard/committee-dashboard.tsx:380 | the label is "Reject" exactly for an approved visitor and "Approve" otherwise |
| Committee.LabelMatchesAction | components/dashboard/committee-dashboard.tsx:378-380 | the label names the status the button sends |
| Committee.ToggleTwice | components/dashboard/committee-dashboard.tsx:378 | toggling twice restores a decided status; a pending one ends rejected |
| Committee.Dashboard.HandleStatusUpdate | components/dashboard/committee-dashboard.tsx:115-144 | nothing without services; the local list changes, only at the given id, iff the write succeeded |
| Resident.NotificationFor | components/dashboard/resident-dashboard.tsx:198-204 | title "Visitor: " + name, the purpose as message, the image or the placeholder |
| Resident.AddNotificationSpec | components/dashboard/resident-dashboard.tsx:194-208 | adding keeps ids unique, lists the id afterwards, grows by one for a new id, and is idempotent |
| Resident.Dashboard.OnSnapshot | components/dashboard/resident-dashboard.tsx:147-148 | only the latest visitor of a snapshot can notify, only if its id was never shown; the id is then recorded and the notification prepended |
| Resident.StatusIcon | components/dashboard/resident-dashboard.tsx:232-241 | approved and rejected get their icons; every other text gets the clock |
| Resident.ApproveHidesButton | components/dashboard/resident-dashboard.tsx:541-548 | the Approve button shows only for pending visitors; after the approve update no visitor with that id shows it, and every other visitor shows it as before |
| Resident.StatusIconOnStatuses | components/dashboard/resident-dashboard.tsx:232-241 | the three statuses get three distinct icons, pending the clock |
| Resident.ApprovedTodayBound | components/dashboard/resident-dashboard.tsx:460-465 | with the date comparison given, the visitors approved today are at most the approved ones |
| Resident.ApproveVisitor | components/dashboard/resident-dashboard.tsx:243-257 | nothing without a database; otherwise the status becomes approved iff the write succeeds |
| Resident.RowOf | components/dashboard/resident-dashboard.tsx:102-108 | a row holds name, purpose, the vehicle number or "N/A" when it is missing or empty, the status and the time |
| Resident.PdfRows | components/dashboard/resident-dashboard.tsx:91-110 | an empty list is an error; otherwise one row per visitor, in order |
| Watchman.Replayed | components/dashboard/watchman-dashboard.tsx:266-271 | a replayed entry is written pending, added by the watchman, with the entry's own fields and time |
| Watchman.ReplayAll | components/dashboard/watchman-dashboard.tsx:265-272 | the replay writes one record per entry, in queue order |
| Watchman.SyncClearsOnlyOnSuccess | components/dashboard/watchman-dashboard.tsx:274 | the queue is cleared iff no write failed; the documents then gain every entry once, in order, pending and added by the watchman |
| Watchman.RetryWritesTwice | components/dashboard/watchman-dashboard.tsx:280-287 | a failed replay keeps the queue although the entries before the failure were written; the next replay writes them again |
| Watchman.ReplayQueue | components/dashboard/watchman-dashboard.tsx:265-272 | the loop adds the queued entries in order and stops at the first failing write; it reports success iff none failed, and the documents grow by the replayed records up to that point |
| Watchman.Dashboard.Sync | components/dashboard/watchman-dashboard.tsx:257-288 | an empty queue does nothing; otherwise entries are written in order until one fails; the new store and queue are `SyncEffect` |
| Watchman.Dashboard.SaveOffline | components/dashboard/watchman-dashboard.tsx:337-364 | offline, exactly one pending entry is appended at the end of the queue, and the form is reset |
| Watchman.Dashboard.SubmitOnline | components/dashboard/watchman-dashboard.tsx:366-473 | nothing without services; a failed upload or add writes nothing; the visitor is added pending, by the watchman, in its society; the form resets only after the add and the resident lookup both succeed |
| Watchman.Dashboard.Submit | components/dashboard/watchman-dashboard.tsx:332-366 | offline the entry is queued and the form closed; online nothing is queued and the visitor is appended pending (with "" as image URL when no image was chosen) exactly when services are present, any chosen image uploaded and the add succeeds; only a successful add and lookup reset the form |
| Watchman.Dashboard.Reset | components/dashboard/watchman-dashboard.tsx:928-939 | Cancel empties the form, closes it and drops the image |
| Watchman.Dashboard.SelectImage | components/dashboard/watchman-dashboard.tsx:322-330 | choosing a photo records the file and its preview and changes nothing else |
| Watchman.Dashboard.EditPhone | components/dashboard/watchman-dashboard.tsx:827-832 | the phone field changes only through the digit filter |
| Watchman.Dashboard.EditPlate | components/dashboard/watchman-dashboard.tsx:870-882 | the plate field changes only through the template filter |
| Watchman.ChangeStatus | components/dashboard/watchman-dashboard.tsx:505-551 | without services: an error; a missing visitor: "not found" and nothing written; otherwise only its status changes |
| DeleteRoute.Select | app/api/delete-visitor-data/route.ts:23-32 | neither field selects nothing; a truthy society id wins over the user id |
| DeleteRoute.MatchIds | app/api/delete-visitor-data/route.ts:29-39 | the query's ids are exactly the ids of the matching visitors |
| DeleteRoute.Kept | app/api/delete-visitor-data/route.ts:38-40 | what remains is exactly the visitors that do not match, or whose delete failed, in order |
| DeleteRoute.DeletesExactlyMatching | app/api/delete-visitor-data/route.ts:29-40 | after the deletes no matching visitor remains, except those whose delete failed, and every non-matching visitor stays |
| DeleteRoute.TargetsAreMatches | app/api/delete-visitor-data/route.ts:38-40 | with unique ids, deleting the query's ids deletes exactly the matching visitors |
| DeleteRoute.DeleteAll | app/api/delete-visitor-data/route.ts:39-40 | every delete is attempted; the result says whether any failed |
| DeleteRoute.Post | app/api/delete-visitor-data/route.ts:18-47 | a bad body or a failure gives 500; no field gives 400 with nothing deleted; otherwise the matching visitors are deleted and 200 means every delete went through |
| HomePage.AuthEffect | app/page.tsx:26-47 | nothing before mounting or while loading; unverified goes to verification; verified with a profile goes to the dashboard, without one it stays; no account takes every state but the intro to the auth selection |
| HomePage.Render | app/page.tsx:49-83 | blank before mounting or while loading; the dashboard is chosen by role, by default the resident's |
| HomePage.Step | app/page.tsx:26-72 | one event, either the auth effect or a callback of the view shown; no event enters a form state the page is not already in, and only the intro leads to the intro |
| HomePage.FormsUnreachable | app/page.tsx:14-83 | no sequence of events from the intro reaches the sign-in or sign-up state |
| HomePage.IntroNotRevisited | app/page.tsx:40-45 | once left, the intro is never shown again |
| HomePage.Home.constructor | app/page.tsx:17-18 | the initial state is the intro, not mounted |
| HomePage.Home.OnAuthChange | app/page.tsx:26-47 | the effect applies `AuthEffect` to the state, which is the transition `Step` makes on an auth change |
| HomePage.Home.SignInSuccess | app/page.tsx:53-56 | while the sign-in form is shown, its success is the `Step` to the dashboard |
| HomePage.Home.SignUpSuccess | app/page.tsx:58-61 | while the sign-up form is shown, its success is the `Step` to the auth selection |
| HomePage.Home.Mount | app/page.tsx:21-23 | mounting sets the flag and keeps the state |
| HomePage.Home.Back | app/page.tsx:70-72 | while a form is shown, its Back is the `Step` to the auth selection |
| HomePage.Home.IntroComplete | app/page.tsx:66 | while the intro is shown, completing it is the `Step` to the auth selection |
| Routes.PathInjective | app/dashboard/page.tsx:16-28 | distinct routes have distinct paths |
| Routes.RoleTarget | app/dashboard/page.tsx:16-28 | each of the three roles leads to its own dashboard and any other text to sign-in |
| Routes.IndexRedirect | app/dashboard/page.tsx:14-30 | no redirect without a user; with one, the role's dashboard, or sign-in for an unknown role |
| Routes.IndexRender | app/dashboard/page.tsx:32-52 | loading shows "Loading..."; no user shows "Access Restricted" |
| Routes.GuardRedirect | app/dashboard/watchman/page.tsx:13-30 | no redirect while loading; no user goes to sign-in; another known role goes to its own dashboard, never this one; an unknown role goes to sign-in |
| Routes.GuardRender | app/dashboard/watchman/page.tsx:32-36 | the dashboard renders iff not loading and the role is the page's own |
| Routes.ResidentPage | app/dashboard/resident/page.tsx:13-36 | the resident page sends watchmen and committee members to their dashboards and others to sign-in, and renders only for residents |
| Routes.WatchmanPage | app/dashboard/watchman/page.tsx:13-36 | the watchman page sends residents and committee members to their dashboards and others to sign-in, and renders only for watchmen |
| Routes.CommitteePage | app/dashboard/committee/page.tsx:13-36 | the committee page sends watchmen and residents to their dashboards and others to sign-in, and renders only for committee members |
| Routes.GuardRendersOrRedirects | app/dashboard/resident/page.tsx:13-36 | once loading ends, a guard either renders its dashboard or redirects, never both and never neither |
| Routes.WellTypedUserLands | app/dashboard/resident/page.tsx:13-36 | a user with a known role is sent to, and shown, their own dashboard from the index and from every guard |
| Routes.SignInPageRedirect | app/auth/sign-in/page.tsx:12-35 | nothing while loading or without a user; an empty role stays on sign-in; the three roles go to their dashboards; any other role goes to the index |
| Routes.SignInPageRender | app/auth/sign-in/page.tsx:46-54 | loading shows only the loader |
| Routes.UnknownRoleBounces | app/auth/sign-in/page.tsx:31-32 | an unknown non-empty role is sent from sign-in to the index and from the index back to sign-in |
| AuthContext.ProfileUser | contexts/auth-context.tsx:68-74 | the user record has the account's uid and verification, the profile's email, role, name, apartment, phone and society (a missing text field as ""), and a resident id defaulting to "" |
| AuthContext.CleanupSelectsOwnVisitors | contexts/auth-context.tsx:90-94 | the cleanup request for a missing profile selects the visitors that account added |
| AuthContext.Provider.OnAuthStateChanged | contexts/auth-context.tsx:59-115 | no account clears the user; a verified account with a profile sets it; an unverified one with a profile clears the user, and the account too iff the sign-out succeeds; a missing profile clears the user and requests cleanup by uid; a failed read clears the user; loading ends false |
| AuthContext.Provider.Logout | contexts/auth-context.tsx:131-145 | nothing without auth; a successful sign-out clears user and account; a failed one changes nothing |
| SignUp.Check | components/auth/sign-up.tsx:39-52 | missing services first, then a mismatch, then a password shorter than 6, each reported exactly in its case; the form passes iff none applies |
| SignUp.MismatchBeforeLength | components/auth/sign-up.tsx:44-52 | a short password that also mismatches is reported as a mismatch |
| SignUp.ProfileOf | components/auth/sign-up.tsx:77-89 | the profile holds the form's name, email, role, resident id and phone; a society only for watchmen, the default one |
| SignUp.ProfileIgnoresFormSociety | components/auth/sign-up.tsx:79-89 | the society typed into the form is never stored |
| SignUp.SignedUpProfileNotSuggested | components/auth/sign-up.tsx:79-86 | a signed-up profile has no resident name, so it never enters the resident suggestions |
| SignUp.MismatchHintAgrees | components/auth/sign-up.tsx:233 | with a non-empty confirmation, the hint shows iff the submit would be refused as a mismatch |
| SignUp.Form.Submit | components/auth/sign-up.tsx:36-109 | a refused form writes nothing; a profile is written only after the account is created; an address in use leads to sign-in; loading ends false |
| SignUp.Form.EditApartment | components/auth/sign-up.tsx:173-178 | the apartment field changes only through the 0–5 digit filter |
| SignUp.Form.EditPhone | components/auth/sign-up.tsx:188-193 | the phone field changes only through the 0–10 digit filter |
| SignIn.SignedInUser | components/auth/sign-in.tsx:69-76 | email, role, name and society default to "" when absent; uid and verification come from the account |
| SignIn.RoleRoute | components/auth/sign-in.tsx:78-87 | the lower-cased role picks one of the three dashboards; any other gives no navigation |
| SignIn.RoleRouteIgnoresCase | components/auth/sign-in.tsx:78 | "Resident" is routed here although the guards do not accept it |
| SignIn.Form.Submit | components/auth/sign-in.tsx:31-103 | an unverified account sets no user; it is signed out, or, if the sign-out fails, reported as invalid credentials with the session still open; a profile sets the user and routes by role; a missing profile clears the user; a failed read clears it and calls `onSuccess`; loading ends false |
| SignIn.SignUpThenSignIn | components/auth/sign-in.tsx:69-87 | a watchman who signed up gets the default society on sign-in and is routed to the watchman dashboard |
| SignIn.ResetPassword | components/auth/sign-in.tsx:190-207 | nothing is sent without auth or with an empty email |
| CommonDashboard.RenderDashboard | components/dashboard/common-dashboard.tsx:174-185 | the three roles get their dashboards; anything else is "Unknown role" |
| CommonDashboard.Dashboard.Submit | components/dashboard/common-dashboard.tsx:101-164 | without services nothing is written; the visitor is added pending, by the user, with "" as image URL when no image was chosen; only a successful add resets the form |

## Left out

- The database and every network call are not modelled. Each call's outcome, and the identifier a write is given, is a parameter. This covers Firestore reads, writes and deletes, listener snapshots, the image upload, the notification email, and signing in and out.
- Concurrency is not modelled. Listener callbacks and handlers run one at a time.
- The auth listener's setup, which only sets `loading`, is not modelled. Neither are the sign-out and auth-change events it triggers.
- The clock and the time zone are not modelled. A timestamp is a given (UTC date, local hour) pair. The seven-day date list is an input. "Approved today" takes the date comparison as a parameter.
- Firestore rejects `undefined` field values; this is not modelled. For example, replaying without a signed-in user, or changing the status of a visitor stored without a society, would fail the write.
- Resident suggestions and the purpose table are plain objects; two of their behaviours are not modelled.
  - Objects list integer-like keys first. A purpose such as "2" therefore comes before purposes inserted earlier, and after the stable sort it still comes first among equal counts, where `Suggestions.SortByCount` keeps insertion order.
  - Keys inherited from the prototype are not modelled. A purpose "constructor" starts from `Object`'s inherited function, so its count becomes a string, and a key "__proto__" is never stored.
- Text: case mapping covers ASCII only. A password's length counts characters, not UTF-16 units.
- The offline queue's `localStorage` JSON round trip and the `online` event wiring are not modelled. The image preview kept with a queued entry, and written back as an extra field, is not modelled.
- AuthContext.ProfileUser: a missing email, role or name becomes "", where the spread leaves it `undefined`; no consumer tells them apart. The resident name and creation time the spread also copies are not part of the user record.
- Not modelled: toasts, PDF rendering beyond the row contents, the chart's colour scale and sizes, animations, and the markup.
- HeatmapChart.Flatten: requires at least as many matrix rows as dates. With fewer rows the source throws, and the dashboards always pass 24 rows for 7 dates.
- DeleteRoute.Post: requires unique document identifiers, which the database guarantees. A request body's non-string JSON values are not modelled.
- Watchman.ChangeStatus: takes the new status from the enumeration, although the handler accepts any text. No button in the dashboard calls it.
- Committee.Dashboard.HandleStatusUpdate: takes the status to send as a parameter, restricted to approved or rejected as the handler's type is. Which status the button sends is `Committee.Toggle`.

## Findings

| source | as written | input that shows it | evidently intended | confidence | as-written member | corrected member |
|---|---|---|---|---|---|---|
| components/ui/HeatmapChart.tsx:25 | the cell for hour `x` and date `y` reads `data[y][x]`, but both dashboards build the matrix hour-first (`data[hour][dateIndex]`), so the chart shows a transposed matrix and 0 for every hour from 7 on | one visitor at 10:00 on the first of the seven dates: the matrix counts it at `[10][0]`, the chart's cell for (10, first date) shows 0 | read `data[x][y]` | not executed | HeatmapChart.ChartMisplacesCounts | HeatmapChart.CorrectedChartShowsCounts |
