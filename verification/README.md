# IT repair-ticket system — Dafny model

This project models the logic of a small repair-ticket web application.
Employees file repair requests through a form. Anyone can look up requests on a
status page. Signed-in administrators filter the requests and change their
status and technician note. Persistence and sign-in are delegated to a hosted
backend. The model covers:

- the ticket record and its three enumerations (`Entities`);
- the rule that decides whether a backend client exists (`SupabaseClient`);
- the `api` object (`getAll`, `getById`, `create`, `updateStatus`,
  `updateNote`, `seed`) over an in-memory `repair_requests` table held as a
  sequence of rows (`Api`);
- the auth provider as an event-driven state machine over
  `(user, role, loading, mounted)` (`AuthContext`);
- the `ProtectedRoute` decision, the role lists of `/admin` and `/database`,
  and the navigation links (`App`);
- the admin dashboard's status filter, filter buttons, seed-on-empty start-up
  and status selector (`AdminDashboard`);
- the status page's case-insensitive id/e-mail search (`RepairStatus`);
- the repair form's state and handlers (`RepairForm`).

Two helper modules, `Text` and `Seqs`, hold the string and sequence facts the
rest relies on. `Text` covers ASCII case mapping, `includes`, `startsWith` and
character order. `Seqs` covers `filter` and the subsequence relation.

Backend behaviour is modelled by parameters:

- `client` says whether a configured client exists;
- one success flag per remote call says whether that call went through;
- the generated id, the clock readings and the upload's returned URL are
  inputs. A clock reading is an ISO-8601 string in `create`. In `seed` it is
  two millisecond readings plus an `iso` formatter, because the source reads
  the clock twice there.

A failed call leaves the table as it was and returns the operation's failure
value (`[]`, None for `undefined`/`null`, or nothing).

The model follows the code as written, including where the code is weaker than
the system's intended design:

- `updateStatus` accepts any of the four statuses from any status.
  `AdminDashboard.AnyStatusReachable` states this.
- The `api` operations perform no authorization check. The only gate is the
  route guard.
- A signed-in user whose role is null is admitted by the guard. So is a user
  whose role is the empty string, which is falsy in JavaScript.
- `signOut` clears the state only after the remote sign-out returns.
- A poll replaces the displayed list even when the fetch failed. In that case
  the list becomes empty.
- The role is whatever string the profile row holds, because the cast is
  unchecked. The default for a missing row is `'user'`.
- The auth events are the synchronous stretches between `await`s, and they may
  arrive in any order. Lemmas over arbitrary event sequences therefore cover
  every interleaving the callbacks can produce.

## Model

| member | source | states |
|---|---|---|
| Entities.ParseProblemType | src/entities/RepairRequest.ts:8 | a string is accepted as a problem type exactly when it is one of the four names, and reads back to that name |
| Entities.ParseStatus | src/entities/RepairRequest.ts:12 | a string is accepted as a status exactly when it is pending, in_progress, completed or cancelled |
| Entities.ParsePriority | src/entities/RepairRequest.ts:13 | a string is accepted as a priority exactly when it is low, medium, high or urgent |
| Entities.ProblemTypeRoundTrip | src/entities/RepairRequest.ts:8 | every problem type's name parses back to that type, so the four names are distinct |
| Entities.StatusRoundTrip | src/entities/RepairRequest.ts:12 | every status's name parses back to that status |
| Entities.PriorityRoundTrip | src/entities/RepairRequest.ts:13 | every priority's name parses back to that priority |
| SupabaseClient.ClientNeedsBothValues | src/services/supabaseClient.tsx:9 | a client exists only if both the URL and the key are set and non-empty |
| SupabaseClient.PlainHttpRejected | src/services/supabaseClient.tsx:9 | a URL starting with `http://` never yields a client, whatever the key |
| SupabaseClient.ConstructionFailureLeavesNull | src/services/supabaseClient.tsx:7-14 | when `createClient` throws, the exported client stays null |
| SupabaseClient.AcceptedCredentialsGiveClient | src/services/supabaseClient.tsx:9-11 | non-empty URL and key, an `https://` URL and a constructor that returns give a client |
| Seqs.Keep | src/pages/AdminDashboard.tsx:34 | `filter` keeps exactly the elements satisfying the predicate, each as often as the input holds it, as an order-preserving subsequence |
| Text.Lower | src/pages/RepairStatus.tsx:23 | lower-casing keeps the length and maps each ASCII capital to its small letter |
| Text.LowerOfUpper | src/pages/RepairStatus.tsx:23-26 | lower-casing an upper-cased string gives the lower-cased original |
| Api.SortNewestFirst | src/services/api.ts:15-18 | the ordering of `getAll` is a permutation of the rows in non-increasing `createdAt` order |
| Api.GetAll | src/services/api.ts:9-28 | with a client and a successful select, every row comes back newest first; otherwise `[]` |
| Api.GetById | src/services/api.ts:31-49 | a row is returned only when the client exists, the select succeeds and exactly one row has the id; that row is in the table and has the id |
| Api.Create | src/services/api.ts:51-83 | with a client and a successful insert the new row is appended and returned, with the generated id, `pending` status, the caller's or the current timestamp, and the caller's other fields; otherwise `null` and no change |
| Api.CreateIgnoresCallerIdAndStatus | src/services/api.ts:54-66 | the created row does not depend on any `id` or `status` the caller's object carries |
| Api.CreatedAtKeptOrNow | src/services/api.ts:64 | a supplied non-empty `createdAt` is kept; a missing or empty one is replaced by the clock reading |
| Api.CreatedNewestListedFirst | src/services/api.ts:15-18 | a row created strictly later than every existing row is the first row `getAll` returns |
| Api.UpdateWhereId | src/services/api.ts:88-91 | the partial update patches every row with the id and leaves every other row as it was, in place |
| Api.UpdateStatus | src/services/api.ts:85-100 | only `status` changes, only on rows with the id, and only when the client exists and the update succeeds |
| Api.UpdateStatusIdempotent | src/services/api.ts:85-100 | setting the same status a second time changes nothing |
| Api.UpdateNote | src/services/api.ts:102-117 | only `technician_note` changes, only on rows with the id, and only when the client exists and the update succeeds |
| Api.NoteVisibleToGetById | src/services/api.ts:105-108 | after a note update on a unique id, `getById` returns that row carrying the new note |
| Api.WithIdAfterUpdate | src/services/api.ts:88-91 | selecting by id after a patch is patching the rows selected by that id |
| Api.Seed | src/services/api.ts:119-173 | the two sample rows are inserted only into an empty table with a successful count and insert; otherwise nothing changes |
| Api.NoClientNoEffect | src/services/api.ts:10-120 | without a client every operation leaves the table unchanged and returns `[]`, `undefined`, `null` or nothing |
| AuthContext.Init | src/contexts/AuthContext.tsx:25-35 | the provider starts with no user and no role; loading is on exactly when a client exists |
| AuthContext.RoleAfter | src/contexts/AuthContext.tsx:92-106 | a profile row sets the role to its value, no row sets `'user'`, and a thrown lookup keeps the role |
| AuthContext.RoleDefaultIsUser | src/contexts/AuthContext.tsx:100-105 | a lookup that finds no row yields `'user'`; the result is `'admin'` exactly when a row says so, or when it already was `'admin'` and the lookup threw |
| AuthContext.SignIn | src/contexts/AuthContext.tsx:108-113 | signing in never changes the state; without a client it returns an error, otherwise the provider's error |
| AuthContext.AuthChangeWithoutSession | src/contexts/AuthContext.tsx:74-82 | an auth change without a session clears user and role and ends loading |
| AuthContext.AuthChangeSettles | src/contexts/AuthContext.tsx:76-82 | the role lookup that completes an auth change ends loading whatever it found |
| AuthContext.SessionFailureClears | src/contexts/AuthContext.tsx:57-66 | a failed session check clears user and role and ends loading |
| AuthContext.FailedRoleFetchKeepsSession | src/contexts/AuthContext.tsx:55 | a role lookup that throws keeps both the user and the role |
| AuthContext.UnmountedIgnoresAuthChanges | src/contexts/AuthContext.tsx:71-72 | once unmounted, auth-change events change nothing |
| AuthContext.SafetyTimeoutEndsLoading | src/contexts/AuthContext.tsx:38-43 | the safety timer ends loading while mounted and leaves user, role and the mounted flag as they were; once unmounted it changes nothing |
| AuthContext.SignOutClears | src/contexts/AuthContext.tsx:115-121 | after sign-out completes with a client there is neither a user nor a role |
| AuthContext.NoClientStaysSignedOut | src/contexts/AuthContext.tsx:32-35 | without a client no event sequence moves the state: loading is off and there is no user |
| AuthContext.UnmountIsFinal | src/contexts/AuthContext.tsx:85-89 | once unmounted the provider stays unmounted under every event sequence |
| AuthContext.LoadingNeverRestarts | src/contexts/AuthContext.tsx:27-90 | no event sequence turns loading back on once it is off |
| AuthContext.RoleOrigin | src/contexts/AuthContext.tsx:92-106 | after any event sequence the role is the starting role, null, `'user'`, or a value a profile row supplied |
| AuthContext.RoleComesFromProfile | src/contexts/AuthContext.tsx:100-105 | from the initial state, any role other than null or `'user'` was supplied by a profile row |
| App.GuardWaitsWhileLoading | src/App.tsx:13 | while loading, the guard shows the loading view whatever the user and role |
| App.GuardSendsAnonymousToLogin | src/App.tsx:14 | not loading and no user: the guard shows the login page |
| App.GuardDeniesExactlyForeignRoles | src/App.tsx:15-16 | a signed-in user is denied exactly when a role list exists and the role is non-empty and not in it; otherwise the children render |
| App.GuardAdmitsMissingRole | src/App.tsx:15 | a signed-in user with a null role passes every protected route |
| App.Visit | src/App.tsx:50-77 | while the provider is loading only its spinner shows; afterwards the public routes render directly and `/admin` and `/database` go through the guard with their role lists |
| App.GuardLoadingViewUnreachable | src/contexts/AuthContext.tsx:125-145 | because the provider shows only its spinner while loading, no route ever reaches the guard's own loading view |
| App.ProtectedRouteRoles | src/App.tsx:61-76 | `/admin` admits only `'admin'`, `/database` admits `'admin'` and `'staff'`, and `'user'` is denied both |
| App.AdminOpenBeforeRoleArrives | src/App.tsx:15 | a sign-in seen by the auth-change listener after loading ended lets the user into `/admin` before the role lookup returns |
| App.NavLinks | src/App.tsx:27-43 | the Admin and Data links and the logout button appear exactly when a user is present; the login link exactly when not |
| AdminDashboard.Displayed | src/pages/AdminDashboard.tsx:34 | `'all'` shows the fetched list unchanged; any other filter shows only matching statuses, keeps every match as often as it was fetched, and keeps order |
| AdminDashboard.FinishedTicketsOnlyUnderAll | src/pages/AdminDashboard.tsx:41-43 | with the three buttons, a completed or cancelled ticket is shown only under `'all'` |
| AdminDashboard.Init | src/pages/AdminDashboard.tsx:15-24 | start-up changes the table only when the first fetch was empty and the table was empty, and then only to the sample rows; the shown list is a fresh fetch |
| AdminDashboard.InitNeverSeedsNonEmptyTable | src/pages/AdminDashboard.tsx:17-21 | even after a failed first fetch, start-up leaves a non-empty table unchanged |
| AdminDashboard.InitOnEmptyTableShowsSamples | src/pages/AdminDashboard.tsx:17-22 | on an empty table with every call succeeding, the dashboard shows both sample rows |
| AdminDashboard.ChangeStatus | src/pages/AdminDashboard.tsx:29-32 | the chosen option becomes the status of the rows with that id; no other field and no other row changes; the list is refetched |
| AdminDashboard.AnyStatusReachable | src/pages/AdminDashboard.tsx:53-62 | every status can be set from every status: no transition graph is enforced |
| RepairStatus.Search | src/pages/RepairStatus.tsx:22-28 | an empty fetched list gives `[]`; otherwise a request is listed exactly when its lower-cased id or e-mail contains the lower-cased query, as often as it was fetched, in fetched order |
| RepairStatus.EmptyQueryKeepsAll | src/pages/RepairStatus.tsx:23-26 | the empty query lists every fetched request |
| RepairStatus.SearchIgnoresCase | src/pages/RepairStatus.tsx:23-26 | a query and its upper-cased form list the same requests |
| RepairStatus.LongerQueryNarrows | src/pages/RepairStatus.tsx:23-26 | extending the query never adds requests; the new list is a subsequence of the old |
| RepairForm.HandleChange | src/components/repair/RepairForm.tsx:23-26 | a change writes the value under the named key and leaves every other key as it was |
| RepairForm.HandleFileChange | src/components/repair/RepairForm.tsx:28-32 | the first chosen file is kept; an empty choice keeps the previous file; nothing else changes |
| RepairForm.Attachments | src/components/repair/RepairForm.tsx:38-48 | the attachment list is empty or the single non-empty URL the upload returned for a chosen file |
| RepairForm.DraftOf | src/components/repair/RepairForm.tsx:46-49 | the object sent to `create` carries the form's nine fields and the attachment list, and no id, status, timestamp or note |
| RepairForm.Submit | src/components/repair/RepairForm.tsx:34-59 | uploading ends in both outcomes; a created record carries the form's fields and attachments and opens the modal with the id the appended row is stored under; a null result shows the alert and changes neither the table nor the modal |
| RepairForm.FailedUploadStillSubmits | src/components/repair/RepairForm.tsx:39-48 | without an upload URL the request is still created, with empty attachments |
| RepairForm.CloseModal | src/components/repair/RepairForm.tsx:61-69 | closing restores the default fields and clears the file, keeping the last request id |
| RepairForm.CloseModalRestoresDefaults | src/components/repair/RepairForm.tsx:7-17 | after closing, every field reads as its default: empty text, `hardware`, `low` |
| RepairForm.SubmitThenCloseIsFresh | src/components/repair/RepairForm.tsx:61-69 | a successful submit followed by closing the modal gives the initial form, apart from the remembered request id |

## Left out

- Api.NewestFirst: `getAll` only asks the backend for `.order('createdAt', { ascending: false })`. How the backend compares depends on the column's type and collation, and neither is part of this model. The model assumes the comparison goes character by character on the text (`Text.AtMost`). That is chronological order for the fixed-width text `toISOString` produces, but a caller-supplied `createdAt` need not have that form. The backend leaves the order of equal timestamps unspecified. The model keeps table order for them.
- The two clock readings in `seed` are independent inputs. The second sample row is exactly one day older than the first only when both readings agree.
- `NavLinks` is stated for a rendered navigation bar. While the provider is loading the bar is not rendered at all, as `Visit` states for the routes.

- `uploadFile` is object-storage I/O. Its result enters the form model as an optional URL.
- The backend query builder, network transport and `.single()` internals are not modelled. Each remote call is a success flag. `.single()` is modelled only by its "exactly one row" rule.
- The id generator (`Math.random().toString(36)`) and the clock are inputs. The model does not claim that ids are unique, because the code does not ensure it.
- The polling timers in the dashboard and status page are not modelled, and neither is the 3-second delay of the safety timer. Each poll is a `getAll` whose result replaces the displayed list. The safety timer is one event.
- Stale responses after a view is torn down are not modelled, since the code has no guard against them.
- The authorization layer, the status transition graph, terminal statuses and a produced `'staff'` role do not exist in the code, so they are not modelled.
- `toLowerCase`/`toUpperCase` are modelled for ASCII letters only. Unicode case mapping is not modelled.
- The login page, the database table view, request cards, the success modal, locale date formatting and styling are presentation only and are not modelled.
- A failed insert in `create` or `seed` is taken to leave the table unchanged. A partially applied insert is not modelled.
- In `handleFileChange`, a missing file list and an empty one are both modelled as the empty sequence.
- While the upload and insert are in flight, `handleSubmit` passes through intermediate states. Only the state after it returns is modelled.
