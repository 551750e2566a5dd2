# Book-order voice assistant: a verified model of its core

The system is a voice assistant for a bookshop. A LiveKit room carries the
conversation between a customer and a voice agent. A React front end
(`agent-starter-react`) shows the transcript and an order form, and a
FastAPI back end (`backend`) extracts an order from the transcript and stores
it. The back end also keeps admin accounts, and here it runs on its
in-memory store.

This project models the parts of both sides that make decisions. Each is
proved against a specification.

- `backend_sync.dfy` (module `BackendSync`): the transcript forwarder of
  `hooks/useBackendSync.ts`. A class holds the set of ids already sent. Its
  `Sync` method posts every unsent message and records an id once its post
  resolves.
- `order_form.dfy` (module `OrderForm`): the order form of
  `components/session-view.tsx`. It covers the field-by-field merge of back-end
  values over local edits, and a class `SessionOrder` for the local fields and
  the `orderSubmitting`/`orderSubmitted` flags. Its methods model the field
  edits, Clear Manual and the two halves of the submit handler.
- `memory_store.dfy` (module `MemoryStore`): the in-memory branches of
  `MongoDBService` in `backend/database.py`. A class `Store` holds four
  fields: room transcripts, room orders, feedback and admins. The admin
  searches are loops proved against a first-match function.
- `passwords.dfy`, `admin_api.dfy`, `order_extraction.dfy`, `orders_api.dfy`
  (modules `Passwords`, `AdminApi`, `OrderExtraction`, `OrdersApi`): the
  endpoints and helpers of `backend/main.py` listed below.
  - salted password hashing;
  - registration, email verification and admin login;
  - the structural rules of order extraction;
  - `/process-transcription`, `/rooms/{room_id}` and `/orders/submit`.
- `route_gate.dfy` (module `RouteGate`): the Next.js `middleware.ts` routing
  decision.
- `chat.dfy` and `app_config.dfy` (modules `Chat`, `AppConfig`): the
  attribution of a transcription to a participant and the `getAppConfig` merge
  loop of `lib/utils.ts`.
- `wrappers.dfy`, `text.dfy` and `stable_sort.dfy` are support modules. They
  hold `Option`, string helpers (split, join, strip, case, `str()` of an
  integer) and a stable insertion sort. The sort models Python's `sorted`,
  whose stability is part of its promise.

Effects become parameters:
- a `fetch` is a function from the request to its outcome;
- SHA-256 is an abstract `Digest` function;
- the clock is a `Clock`/`Stamp` value;
- `uuid` and `secrets` output are strings or bytes passed in;
- `NODE_ENV` and cookies are arguments;
- the regular-expression matchers of `extract_order_data` are one abstract
  `scan` function from the transcript text to what each pattern family
  matched.

## Model

| member | source | states |
|---|---|---|
| BackendSync.RoomIdOf | agent-starter-react/hooks/useBackendSync.ts:10 | the room id is the room's name if non-empty, else the inner room's name if non-empty, else "unknown-room"; it is never empty |
| BackendSync.PayloadFor | agent-starter-react/hooks/useBackendSync.ts:15-25 | the body carries the room id, the message id and text unchanged, a timestamp that times 1000 gives the message's milliseconds, and role user exactly when the sender's identity is the local participant's |
| BackendSync.Unsent | agent-starter-react/hooks/useBackendSync.ts:12 | the selected messages are exactly the listed messages whose id is not in the sent set; the selection is empty exactly when every id was sent |
| BackendSync.Forwarder.constructor | agent-starter-react/hooks/useBackendSync.ts:6 | the sent set starts empty |
| BackendSync.Forwarder.Sync | agent-starter-react/hooks/useBackendSync.ts:8-39 | posts one body per unsent message in list order (none when nothing is new); the sent set becomes the old set plus the ids whose post resolved, so it only grows |
| BackendSync.Forwarder.PostAll | agent-starter-react/hooks/useBackendSync.ts:15-38 | the forEach: the posted bodies are the bodies of the list, and the ids added are exactly those whose post resolved |
| BackendSync.DeliveredIff | agent-starter-react/hooks/useBackendSync.ts:27-37 | an id is recorded iff some post of a message with that id resolved |
| BackendSync.ErrorStatusStillRecorded | agent-starter-react/hooks/useBackendSync.ts:27-33 | a post that resolves with status 500 still records the id |
| BackendSync.FailedPostIsRetried | agent-starter-react/hooks/useBackendSync.ts:34-37 | a message whose posts all threw stays unsent and is selected again by the next run |
| BackendSync.DeliveredRunIsQuiet | agent-starter-react/hooks/useBackendSync.ts:12-13 | after a run whose posts all resolved, a run on the same list posts nothing |
| BackendSync.TranscriptionRole | agent-starter-react/hooks/useBackendSync.ts:21 | a transcription converted on the normal path is posted with role user exactly when it counts as local |
| Chat.FirstWithIdentity | agent-starter-react/lib/utils.ts:59-61 | finds the first remote participant with the identity, or reports that none has it |
| Chat.FindRemote | agent-starter-react/lib/utils.ts:57-61 | the remote participant found has the identity and no earlier remote has it; none exactly when no remote has it |
| Chat.TranscriptionToChatMessage | agent-starter-react/lib/utils.ts:19-90 | the message copies the stream id, timestamp and text on both paths; a local stream is attributed to the local participant, another one to the first remote with its identity (or nobody); after an exception, to that first remote, else the local participant |
| RouteGate.NextAuthCookieName | agent-starter-react/middleware.ts:22-25 | the `__Secure-` cookie name exactly in production |
| RouteGate.Middleware | agent-starter-react/middleware.ts:5-45 | public paths pass; unauthenticated gated paths redirect to login with `next` set to the path; authenticated auth paths redirect to `next` or `/`; everything else passes |
| RouteGate.LoginPageIsNotPublic | agent-starter-react/middleware.ts:9-18 | `/auth/login` is not public and is an auth path |
| RouteGate.LoginRedirectTerminates | agent-starter-react/middleware.ts:29-37 | the login page a request is redirected to passes for the same cookies, so there is no redirect loop |
| RouteGate.AuthenticatedPassesOutsideAuth | agent-starter-react/middleware.ts:39-44 | an authenticated request to a non-auth path passes |
| AppConfig.Initial | agent-starter-react/lib/utils.ts:109 | the starting config holds every default, the sandbox id when the defaults do not declare it, and nothing else |
| AppConfig.MergeRemote | agent-starter-react/lib/utils.ts:111-124 | the loop's result is the left-to-right application of the accept-and-overwrite step to every entry |
| AppConfig.GetAppConfig | agent-starter-react/lib/utils.ts:94-133 | with no endpoint, no sandbox id or a failed fetch the result is the defaults; otherwise it is the merged config |
| AppConfig.MergeIsPointwise | agent-starter-react/lib/utils.ts:111-124 | with distinct keys a key ends with the value of its entry if that entry was accepted, else it keeps its starting value |
| AppConfig.DeclaredTypesKept | agent-starter-react/lib/utils.ts:118-120 | a key declared with a defined default keeps that default's runtime type |
| AppConfig.UndeclaredKeysStayUndefined | agent-starter-react/lib/utils.ts:115-120 | a key neither in the defaults nor `sandboxId` is never set by a defined remote value |
| OrderForm.OrderFields.With | agent-starter-react/components/session-view.tsx:324 | a field edit sets that field and keeps every other |
| OrderForm.Merge | agent-starter-react/components/session-view.tsx:64-74 | each displayed field is the back-end value when truthy, else the local value, field by field |
| OrderForm.AnyBackendQuantityWins | agent-starter-react/components/session-view.tsx:70 | any non-null back-end quantity is shown, 0 as "0" |
| OrderForm.NoBackendShowsLocal | agent-starter-react/components/session-view.tsx:64-74 | with no back-end order the form shows the local fields |
| OrderForm.ClearKeepsBackendValues | agent-starter-react/components/session-view.tsx:277-287 | after Clear Manual a field shows its back-end value if truthy, else its default |
| OrderForm.EditTouchesOneField | agent-starter-react/components/session-view.tsx:324-524 | an edit changes no other displayed field, and shows the new value unless a truthy back-end value covers it |
| OrderForm.BeginFor | agent-starter-react/components/session-view.tsx:119-140 | an order missing title, customer name or contact id gets the "Incomplete Order" toast and no request; a complete one posts the merged form as confirmed |
| OrderForm.FinishToasts | agent-starter-react/components/session-view.tsx:142-171 | an OK response with a readable body shows the success toast first; a failed fetch, a non-OK status or an unreadable body shows only the failure toast; two toasts exactly when the order was accepted and the chat send failed; the last toast is the failure toast exactly when something failed |
| OrderForm.SessionOrder.constructor | agent-starter-react/components/session-view.tsx:51-61 | local fields start at the defaults and both flags are false |
| OrderForm.SessionOrder.Edit | agent-starter-react/components/session-view.tsx:324-524 | sets one local field; the flags are unchanged |
| OrderForm.SessionOrder.ClearManual | agent-starter-react/components/session-view.tsx:277-287 | resets every local field to its default; the flags are unchanged |
| OrderForm.SessionOrder.BeginSubmit | agent-starter-react/components/session-view.tsx:119-140 | validates the merged form; sets `submitting` only when a request is posted |
| OrderForm.SessionOrder.FinishSubmit | agent-starter-react/components/session-view.tsx:142-174 | `submitted` becomes true on an accepted response and is never reset; `submitting` is false afterwards |
| OrderForm.EnabledClickPosts | agent-starter-react/components/session-view.tsx:540-545 | clicking an enabled button always posts a request |
| OrderForm.SubmittedAfterIff | agent-starter-react/components/session-view.tsx:152-154 | after any sequence of responses `submitted` holds exactly when it held before or one response was accepted |
| OrderForm.AcceptedDisablesForGood | agent-starter-react/components/session-view.tsx:545 | once one response was accepted the button stays disabled |
| OrderForm.AgentAvailability | agent-starter-react/components/session-view.tsx:24-26 | the agent is available exactly in the listening, thinking and speaking states |
| StableSort.SortByCorrect | backend/database.py:124 | the sorted list is ordered by the key, a permutation of the input, and keeps the input order among equal keys |
| MemoryStore.FirstMatch | backend/database.py:255-258 | the index of the first admin matching the key, or none exactly when no admin matches |
| MemoryStore.CreateCheck | backend/database.py:226-231 | refuses exactly when some admin has the same email or the same truthy employee id |
| MemoryStore.Store.constructor | backend/database.py:21-24 | every collection starts empty |
| MemoryStore.Store.StoreTranscript | backend/database.py:103-110 | appends the transcript stamped with the room id to that room's list only, and returns `memory_` followed by the new length |
| MemoryStore.Store.GetTranscripts | backend/database.py:120-124 | the room's transcripts (none for an unknown room) sorted stably by timestamp, a missing one counting as 0 |
| MemoryStore.Store.StoreOrder | backend/database.py:133-140 | replaces the room's order with the given one stamped with the room id |
| MemoryStore.Store.GetOrder | backend/database.py:154-158 | the last stored order of the room, or none exactly when none was stored |
| MemoryStore.Store.StoreFeedback | backend/database.py:166-172 | appends the feedback and returns the new count |
| MemoryStore.Store.GetAllFeedback | backend/database.py:181-185 | all feedback sorted stably by date, newest first |
| MemoryStore.Store.GetFeedbackByRoom | backend/database.py:194-198 | each feedback entry of the room appears as often as it was stored and no other entry appears; none at all from an empty store |
| MemoryStore.Store.GetFeedbackByCustomer | backend/database.py:207-211 | each feedback entry of the customer appears as often as it was stored and no other entry appears; none at all from an empty store |
| MemoryStore.Store.Lookup | backend/database.py:255-258 | finds an admin exactly when one matches the key, and the admin it finds matches |
| MemoryStore.Store.FindAdmin | backend/database.py:255-258 | the search loop returns the first matching admin, or none |
| MemoryStore.Store.GetAdminByEmployeeId | backend/database.py:251-258 | the first admin with that employee id, or none |
| MemoryStore.Store.GetAdminByEmail | backend/database.py:266-273 | the first admin with that email, or none; in a store whose emails are unique, the only one |
| MemoryStore.Store.GetAdminByVerificationToken | backend/database.py:362-369 | the first admin holding that token, or none |
| MemoryStore.Store.CreateAdmin | backend/database.py:221-236 | refuses a duplicate with nothing changed; otherwise appends the admin with id `str(count + 1)`, which no earlier admin of a well-formed store has, keeping ids and emails unique |
| MemoryStore.Store.UpdateAdminLastLogin | backend/database.py:281-289 | updates only the first admin with the employee id and reports whether one existed |
| MemoryStore.Store.UpdateAdminVerification | backend/database.py:326-340 | updates only the first admin with the token and returns it, or none when no admin holds it |
| MemoryStore.Store.GetAllAdmins | backend/database.py:300-304 | all admins sorted stably by creation time, newest first |
| MemoryStore.FirstMatchIs | backend/database.py:255-258 | an admin that matches, with no match before it, is the one found |
| MemoryStore.WithLastLogin | backend/database.py:284-289 | the list keeps its length |
| MemoryStore.LastLoginChangesOneRecord | backend/database.py:284-289 | only the first admin with the employee id gets the new last login; every other record is unchanged |
| MemoryStore.Verified | backend/database.py:331-338 | the record becomes verified with the status, loses its token and expiry, keeps its identity and takes the employee id only when one is given |
| MemoryStore.WithVerification | backend/database.py:330-340 | the list keeps its length |
| MemoryStore.TokenSingleUse | backend/database.py:333-334 | when only one admin holds a token, no admin holds it after verification, so a second call finds nothing |
| MemoryStore.VerificationKeepsIdentity | backend/database.py:330-340 | verification keeps every admin's id, email and password hash |
| Passwords.Hex | backend/main.py:151-155 | the hex form is twice as long and made of hex digits only |
| Passwords.HexHasNoColon | backend/main.py:151-155 | a hex string holds no colon |
| Passwords.HexInjective | backend/main.py:151-155 | different byte strings have different hex forms |
| Passwords.HashPassword | backend/main.py:151-155 | the stored hash holds exactly one colon |
| Passwords.VerifyPassword | backend/main.py:157-164 | verification fails unless the hash splits into exactly two parts |
| Passwords.HashThenVerify | backend/main.py:151-162 | a password verifies against its own hash for every salt and digest |
| Passwords.VerifyOtherPassword | backend/main.py:151-162 | another password verifies only if its salted digest equals the original's |
| AdminApi.NewAdminRecord | backend/main.py:815-835 | the new record is pending, unverified, without employee id, holding the token with expiry seven days ahead, and its password verifies |
| AdminApi.Register | backend/main.py:806-863 | 400 exactly for a known email with nothing changed; otherwise the record is appended with id `str(count + 1)` and the token is returned only when email is not configured |
| AdminApi.NoDuplicateForNewRecord | backend/main.py:811-835 | a record with an unknown email passes the store's duplicate check |
| AdminApi.EmployeeIdFor | backend/main.py:306-308 | the employee id is `EMP`, then the date, then two upper-case hex digits per random byte |
| AdminApi.VerifyOutcome | backend/main.py:871-909 | 400 exactly for an empty token, an unknown token or one past its expiry; otherwise active with a new employee id |
| AdminApi.VerifyEmail | backend/main.py:871-909 | a failure changes nothing; success verifies and activates the admin holding the token and spends the token |
| AdminApi.LoginOutcome | backend/main.py:744-798 | non-admin logins get the dev session; an admin session exactly when id and password are given, the id is known, the password verifies, and the account is verified and active; otherwise 400/401/401/403/403 in that order |
| AdminApi.Login | backend/main.py:744-798 | only a successful admin login changes the store, and only that admin's last login |
| AdminApi.TokenExpiry | backend/main.py:884-887 | a token verifies up to and including seven days after registration, and not later |
| AdminApi.RegisterVerifyLogin | backend/main.py:806-909 | an account registered with a fresh email and verified in time logs in with its password and new employee id |
| AdminApi.PendingCannotLogIn | backend/main.py:753-775 | while no admin has an employee id, no admin login succeeds |
| OrderExtraction.OrderIdFor | backend/main.py:529-532 | the order id is `ORD-`, the date, `-` and the uuid prefix, in that order |
| OrderExtraction.WordValue | backend/main.py:444-453 | a number word gives 1 to 10, and an unknown word gives 1 |
| OrderExtraction.ExtractOrder | backend/main.py:368-556 | as written: an order id exactly when a non-empty title and a customer id were found; a delivery option is always present; an address only with home delivery; status pending, dated now; the quantity is the as-written one, so a number word gives none |
| OrderExtraction.ExtractOrderCorrected | backend/main.py:434-453 | the same order with the corrected quantity: a number word gives a quantity |
| OrderExtraction.CorrectionOnlyChangesWordQuantities | backend/main.py:516-521 | the corrected extraction differs from the as-written one exactly when the quantity was a number word |
| OrderExtraction.TwoCopiesOrder | backend/main.py:434 | an order whose quantity was "Two" has no quantity as written and 2 corrected |
| OrderExtraction.DeliveryOptionRules | backend/main.py:469-488 | pickup wins, then home, then express, and home delivery is the default |
| OrderExtraction.NoAddressUnlessHome | backend/main.py:491-501 | with another delivery option there is no address |
| OrderExtraction.OnlyMessagesMatter | backend/main.py:377 | the extracted order depends only on the transcript messages |
| OrderExtraction.WordQuantityIsLost | backend/main.py:516-521 | as written a number-word quantity is lost; otherwise as written and corrected agree |
| OrderExtraction.TwoCopiesExample | backend/main.py:434 | "Two copies" gives no quantity as written and 2 corrected |
| OrdersApi.StoredOrderReadsBack | backend/main.py:661-707 | an extracted order stored as a document reads back unchanged |
| OrdersApi.ProcessTranscription | backend/main.py:611-659 | appends the transcript to that room's list, leaving every other room's list unchanged, re-extracts the order as written (a number-word quantity is lost) from the sorted room transcript, replaces the room's order with it, and returns both |
| OrdersApi.GetRoom | backend/main.py:661-707 | 404 exactly for a room without transcripts; otherwise the sorted transcripts and the stored order, or the empty order when none or an empty one is stored; a quantity stored as a string of digits is read as its number |
| OrdersApi.FormQuantityReadsBack | backend/main.py:72 | a quantity posted as the decimal string of a number validates and reads back as that number |
| OrdersApi.Normalise | backend/main.py:1247-1253 | a truthy order id is kept, otherwise an `ORD-` id is generated; status is confirmed, the date is set, and every other key is unchanged |
| OrdersApi.ResubmitKeepsOrderId | backend/main.py:1247-1249 | submitting a submitted order again keeps its order id |
| OrdersApi.Priced | backend/main.py:1255-1259 | without a truthy total but with a truthy quantity, the total and the unit price (the default when missing) are written; otherwise and for every other key the order is unchanged |
| OrdersApi.SubmitOrder | backend/main.py:1240-1279 | a `float()` that fails gives 500 with nothing stored; otherwise the room's order becomes the priced normalised copy tagged with the room; the answer carries that order and its id exactly when it also validates, and is 500 otherwise |
| OrdersApi.FractionalQuantityStoredThenFails | backend/main.py:1258-1265 | a quantity of "2.5" passes the total step and then fails validation, so the order is stored and the answer is an error |

## Left out

- Network and transport. These are not modelled: the body of `fetch`, the LiveKit room and participant objects (only identities and track-sid sets are kept), the chat `send` call, and the rendering of toasts (only their titles and descriptions). A fetch is a function from the request to its outcome.
- Overlapping effect runs of the transcript forwarder. Two runs started before a post resolves can both post the same id. `BackendSync.Forwarder.Sync` treats each post as completing before the next run, so the model claims no at-most-once delivery.
- Floating-point totals: `unit_price`, `total_amount` and the `* 15.99` totals of the form and the back end. `OrderExtraction.OrderData` has no price fields. In `OrdersApi.SubmitOrder` the strings `float()` parses, the default price 15.99 and the product are the parameter `FloatOps`.
- OrdersApi.SubmitOrder: validation of `unit_price` and `total_amount` is not modelled, so a stored order whose price fields pydantic would reject is still reported as submitted.
- The MongoDB branches of the store, `connect`/`disconnect` and index creation. `get_all_orders` is not one of the modelled store operations.
- SMTP sending, the Excel export, LiveKit token minting and the HTML dashboards.
- The regular expressions of `extract_order_data`. The `scan` parameter stands for their matches. Also left out: which of `group(1)`/`group(2)` of the title pattern matched, and the pydantic coercions.
- `OrdersApi.GetRoom`: of pydantic's coercions only the quantity string of decimal digits is modelled. A quantity string with a sign, spaces or a fraction such as "2.0", a boolean quantity, and a non-string value in a string field are reported as a server error, where pydantic may accept them.
- The `updated_at` timestamps that `get_room` reports, and the re-validation of `TranscriptItem`.
- Unicode behaviour. `lower` and `upper` map ASCII letters only, and there is no normalisation or case folding. `strip` uses Python's Unicode whitespace.
- OrderForm.FinishToasts: the parsing of the response body is a flag saying whether `response.json()` threw, plus the order id it carried.
- SHA-256, `secrets`, `uuid` and `datetime.now` are parameters. Instants are integer seconds or strings, not floating-point times.
- MemoryStore: admin records are values, so the aliasing of a dict handed out by a lookup and later updated in place is not captured.
- The JavaScript `in` operator's prototype chain in `getAppConfig`. Configs are plain maps. `AppConfig.MergeIsPointwise` assumes that the remote keys are distinct, as in a parsed JSON object.
- URL resolution of the `next` redirect target. `RouteGate.Middleware` returns it as a string.
- The login page's own rate-limited route and the pure UI components.

## Findings

| source | as written | input that shows it | evidently intended | confidence | as-written member | corrected member |
|---|---|---|---|---|---|---|
| backend/main.py:434 | the number-word quantity pattern has no capture group, so `qty_match.group(1)` at line 519 raises, the handler at 520-521 sets the quantity to None, and the fallback at 449-453 is never reached because this pattern already matched | the transcript text "Two copies" | "Two copies" gives quantity 2, as the word table at 444-447 suggests | not executed | OrderExtraction.ExtractOrder | OrderExtraction.ExtractOrderCorrected |
