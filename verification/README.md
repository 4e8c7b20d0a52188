# Assistance dispatch core, modelled in Dafny

This project models the request-dispatch core of an Express/Mongoose back end. Users send help
requests to assistants. An assistant confirms a request, which makes that assistant busy, and
completes it, which makes the assistant available again. The owner polls for newly accepted
requests. Beside this flow the model covers:

- the listings of requests and the list of available assistants;
- likes on feed posts, and the notification each like sends;
- doctor appointments;
- registration of users and assistants;
- the document schemas of `models/User.js`: required fields, defaults, length limits, the e-mail
  setters and the generator of public ids.

Every document has two identities. The storage identity (`ObjectId`, a `nat` from a counter) is
what references between documents use. The public id (`user_id`, `assistant_id`, `request_id`,
`appointment_id`) is what clients send. Public ids are drawn as `floor(random * 1000000)`; the
random value is the parameter `Draw(num, den)`. A `findOne` is the first match in store order
(`Lookup.FirstWhere`). A unique index is checked when a document is saved, and a clash is the
error `Rejected(DuplicateKey)`.

Modules:

- `Wrappers`: Option, Result, Outcome.
- `Text`: trimming, lower-casing, decimal and hexadecimal digits.
- `Schema`: the documents and what a save accepts.
- `Errors`: the kinds of refusal the handlers answer with.
- `Lookup`: the `findOne` queries, and how `/pending/completed` resolves the ids it is given.
- `Queries`: the read-only handlers and the notification inbox.
- `Feed`: the `liked_by` toggle.
- `Transitions`: for each handler that writes, a function that decides its outcome, plus lemmas
  relating the handlers.
- `Consistency`: the store invariant and one lemma per writing handler proving that handler keeps
  it.
- `Routes`: the class `Store`, whose methods are the writing handlers. Each method changes its
  fields in place. Each is proved against its decision function and keeps `Valid()`.
- `Findings`: `/pending/completed` as written, with inputs on which it departs from what is
  evidently intended. Its reading of a text id as a number covers decimal digit strings only
  (see "## Left out").

## Model

| member | source | states |
|---|---|---|
| Schema.PublicId | models/User.js:6-11 | a generated public id lies in [0, 1000000) and is the floor of the draw times 1000000 |
| Schema.NewUser | models/User.js:5-53 | save succeeds iff name (at most 100), e-mail, password present and gender at most 50, number at most 20; the stored address is trimmed and lower-cased |
| Schema.NormalizeEmailIsNormal | models/User.js:17-23 | what the `trim` and `lowercase` setters store has no capital letter and no white space at either end |
| Schema.NormalEmailFixpoint | models/User.js:17-23 | an address is left unchanged by the setters exactly when it is in that normal form |
| Schema.NormalizeEmailIdempotent | models/User.js:17-23 | applying the setters twice gives what applying them once gives |
| Schema.NewAssistant | models/User.js:57-101 | save succeeds iff name and e-mail (each at most 255), password, latitude and longitude are present; status starts 'available' |
| Schema.NewRequest | models/User.js:150-183 | save succeeds iff user and category are present; assistant, position and status may be absent; `notified` starts false |
| Schema.NewAppointment | models/User.js:186-215 | save succeeds iff user, doctor, time and status are present; the public id comes from the generator |
| Schema.NewPost | models/User.js:218-237 | save succeeds iff user and content are present; a new post has no likes |
| Schema.NewNotification | models/User.js:262-284 | save succeeds iff user and content are present; `is_read` defaults to false |
| Text.TrimIdempotent | models/User.js:21 | trimming an already trimmed string changes nothing |
| Text.TrimLowerCommute | models/User.js:21-22 | trimming and lower-casing commute |
| Text.HexRoundTrip | routes/RouteUser.js:412-413 | the 24-digit hexadecimal text of a storage identity reads back as that identity |
| Schema.ObjectIdText | routes/RouteUser.js:412-413 | the text of a storage identity is 24 hexadecimal digits that spell it |
| Lookup.FirstWhere | routes/RouteUser.js:275 | `findOne` answers the first document in store order that matches, and None only when none matches |
| Lookup.ResolveRequest | routes/RouteUser.js:409-414 | corrected (see ## Findings): the request found by the public id the argument reads as; only when there is none, the one whose storage id 24 hex digits spell; None iff neither exists |
| Lookup.StorageTextResolves | routes/RouteUser.js:409-414 | the text of a request's storage identity finds that request, when no public id reads the same |
| Lookup.ResolveRequestUpdate | routes/RouteUser.js:409-414 | changing a request without changing its ids keeps what every argument resolves to |
| Transitions.PlanSend | routes/RouteUser.js:270-306 | refusals in source order (assistant missing or not available, then user missing, then validation, then public id taken), each iff its condition; a new request is pending, owned by the user, assigned to the assistant, not notified |
| Routes.Store.Send | routes/RouteUser.js:270-306 | a refusal changes nothing; on success exactly the planned request is appended, the reply is its public id, and no assistant changes |
| Transitions.PlanConfirm | routes/RouteUser.js:365-390 | request not found, then assistant not found, each iff its condition; the status of the request is not consulted |
| Routes.Store.Confirm | routes/RouteUser.js:365-390 | a refusal changes nothing; on success the request is accepted and assigned to the confirming assistant, and that assistant is busy |
| Transitions.PlanComplete | routes/RouteUser.js:392-454 | corrected (see ## Findings): refusals in source order (ids missing, assistant unknown, request unknown, already completed, other assistant's request), each iff its condition; a thrown error iff the assistant id cannot be read as a number or the request is unassigned; success iff the request is not completed and belongs to the named assistant |
| Routes.Store.Complete | routes/RouteUser.js:392-454 | corrected (see ## Findings): a refusal changes nothing; on success the request is completed, the assistant available, and both statuses are the reply |
| Transitions.CompleteTwiceRejected | routes/RouteUser.js:420-423 | repeating a successful complete is refused as already completed |
| Transitions.SendKeepsInvariants | routes/RouteUser.js:286-297 | a send keeps both "busy assistants have an accepted request" and "assistants with an accepted request are busy" |
| Transitions.ConfirmKeepsEngagedBusy | routes/RouteUser.js:379-384 | a confirm keeps every assistant with an accepted request busy |
| Transitions.ConfirmCanStrandBusy | routes/RouteUser.js:379-384 | a confirm that re-assigns an accepted request leaves its first assistant busy with no accepted request |
| Transitions.CompleteKeepsBusyEngaged | routes/RouteUser.js:420-436 | a complete keeps every busy assistant with an accepted request |
| Transitions.CompleteCanFreeEngaged | routes/RouteUser.js:420-436 | completing a pending request frees an assistant that still has an accepted request |
| Transitions.SendThenConfirm | routes/RouteUser.js:297-301 | the public id a send answers with confirms exactly the request it created |
| Queries.ListForUser | routes/RouteUser.js:308-335 | user not found iff no user has the id; otherwise the listing holds a summary of each of the user's requests and nothing else |
| Queries.AssignedSummaries | routes/RouteUser.js:344-357 | None iff some assigned request's owner is missing; otherwise a summary of each request assigned to the assistant and nothing else |
| Queries.ListForAssistant | routes/RouteUser.js:337-363 | assistant not found iff no assistant has the id; a dangling owner throws; success iff the assistant exists and every assigned request's owner resolves, and then the summaries of its requests |
| Queries.CheckStatus | routes/RouteUser.js:493-520 | user not found iff no user has the id; otherwise an entry for each of the user's requests and nothing else (empty is the 204 reply) |
| Queries.AvailableAssistants | routes/RouteUser.js:159-180 | exactly the assistants whose status is 'available' |
| Queries.InboxMembers | routes/RouteUser.js:463-484 | the poll returns a delivery for each of the user's accepted, not yet notified requests and nothing else |
| Queries.InboxEmptyAfterDelivery | routes/RouteUser.js:473-476 | once the poll has marked the requests, an immediate second poll returns nothing |
| Queries.DeliveryKeepsOtherInboxes | routes/RouteUser.js:473-476 | the poll of one user leaves every other user's inbox as it was |
| Queries.InboxSnoc | routes/RouteUser.js:473-484 | the inbox of a longer prefix adds one delivery exactly when the added request is deliverable |
| Routes.Store.Deliver | routes/RouteUser.js:473-484 | the loop returns the inbox of the requests as they were and marks exactly those requests notified |
| Routes.Store.TakeNotifications | routes/RouteUser.js:456-491 | user not found changes nothing; otherwise the reply is the user's inbox and the requests become Delivered |
| Feed.Without | routes/RouteUser.js:833 | the unlike filter removes every occurrence of the user and keeps every other member |
| Feed.Toggled | routes/RouteUser.js:829-836 | toggling flips the user's membership and keeps everyone else's; a like appends the user |
| Feed.ToggleTwice | routes/RouteUser.js:829-836 | two toggles restore the membership; from "absent" they restore the list itself |
| Feed.LikeNotice | routes/RouteUser.js:841 | the notice starts with the liker's name and is longer than it |
| Transitions.PlanLike | routes/RouteUser.js:814-828 | user not found, then post not found, each iff its condition |
| Transitions.LikeNotification | routes/RouteUser.js:839-846 | the notification of a like passes validation, goes to the post's author, is unread and points at the post |
| Routes.Store.ToggleLike | routes/RouteUser.js:814-855 | the user's like is toggled; a notification is added and an identity used only when the user had not liked the post |
| Transitions.PlanPublish | routes/RouteUser.js:640-663 | user not found iff no user has the id, then a validation refusal iff content is missing; success iff neither; a new post has no likes |
| Routes.Store.Publish | routes/RouteUser.js:640-663 | on success exactly the planned post is appended and its storage identity is the reply |
| Transitions.PlanAddAppointment | routes/RouteUser.js:523-556 | user, then doctor, then an invalid date, then public id taken, each iff its condition; success iff none holds; the new appointment is requested for that user and doctor |
| Routes.Store.AddAppointment | routes/RouteUser.js:523-556 | on success exactly the planned appointment is appended and its public id is the reply |
| Transitions.PlanConfirmAppointment | routes/RouteUser.js:558-579 | appointment not found, then doctor not found, each iff its condition; neither the status nor the doctor's ownership is checked |
| Routes.Store.ConfirmAppointment | routes/RouteUser.js:558-579 | on success only that appointment's status changes, to confirmed |
| Transitions.PlanRegisterUser | routes/RouteUser.js:55-87 | e-mail taken iff the address, trimmed and lower-cased by the setters, is stored; otherwise validation, then the unique index on the public id (the one on the address cannot clash after that lookup); success iff none holds, and the new user's public id and address are unused |
| Routes.Store.RegisterUser | routes/RouteUser.js:55-87 | on success exactly the planned user is appended and its public id is the reply |
| Transitions.PlanRegisterAssistant | routes/RouteUser.js:116-157 | e-mail taken iff the address is stored; otherwise validation, then the unique public id; success iff none holds; a new assistant is available |
| Transitions.RegistrationReply | routes/RouteUser.js:149-150 | the reply carries the public id, or the storage identity when the public id is 0 |
| Routes.Store.RegisterAssistant | routes/RouteUser.js:116-157 | on success exactly the planned assistant is appended and the reply is RegistrationReply |
| Consistency.SendKeepsConsistent | models/User.js:150-183 | a send keeps the unique indexes, the schemas and every request's references to an existing user and assistant |
| Consistency.ConfirmKeepsConsistent | routes/RouteUser.js:379-384 | a confirm keeps the store consistent |
| Consistency.CompleteKeepsConsistent | routes/RouteUser.js:431-436 | a complete keeps the store consistent |
| Consistency.DeliveredKeepsConsistent | routes/RouteUser.js:473-476 | a poll keeps the store consistent |
| Consistency.LikeKeepsConsistent | routes/RouteUser.js:829-851 | a like or unlike keeps the store consistent |
| Consistency.RegisterUserKeepsConsistent | models/User.js:6-23 | a user registration keeps the unique indexes on public id and e-mail |
| Consistency.RegisterAssistantKeepsConsistent | models/User.js:58-75 | an assistant registration keeps the unique indexes on public id and e-mail |
| Findings.ResolveAsWritten | routes/RouteUser.js:409-414 | as written: an argument that does not read as a number throws; whatever it finds agrees with the corrected resolver |
| Findings.CompleteAsWritten | routes/RouteUser.js:398-428 | as written: a falsy id is refused as missing; every success agrees with the corrected decision |
| Findings.NumericMissThrows | routes/RouteUser.js:412 | a numeric request id that names no request throws instead of answering "not found" |
| Findings.ZeroIdRefused | routes/RouteUser.js:398 | a request whose public id is 0 cannot be completed by the number 0 (the text "0" still names it) |
| Findings.StorageIdWithLetterThrows | routes/RouteUser.js:409-414 | the storage-id text with a hexadecimal letter throws a cast error before the fallback is reached |

## Left out

- Latitude and longitude are kept as `real`. The distance function is not part of this model: it
  is floating-point trigonometry and nothing calls it.
- Login, password hashing and the pre-save hook are not modelled. They need a foreign crypto
  library. Registration checks only that a password is present.
- The doctor schema and doctor registration are not modelled. The store's constructor takes the
  doctors on record, and appointments only look them up.
- The read endpoints of the feed, the comment endpoint, the notification list and the appointment
  listings are not modelled. They format dates and build URLs from the HTTP request.
- The URL built around a profile picture is not modelled; `Queries.Card` carries the stored path.
- `created_at`, `updated_at`, `dob` and the formatting of dates are not modelled. An appointment's
  date and time are the parameter `time`, which is absent when the strings name no valid date.
- server.js (Express wiring) and middleware/upload.js (file storage) are not part of this model.
  Uploaded file paths are parameters.
- Concurrency is not modelled. Each handler runs as one atomic step: the paired saves of confirm
  and complete, and the unawaited save in the notification poll, cannot interleave.
- HTTP status codes and JSON shapes are mapped to the `Error` datatype. The 204 replies ("no
  notifications", "no requests", "no assistants") are the empty sequence.
- Ids in the other routes are taken as already read numbers. JavaScript number parsing is modelled
  only for decimal digit strings (`Lookup.NumberCast`). `Post.findById` with malformed text is not
  modelled: a post is named by its storage identity.
- Lower-casing covers the ASCII letters A to Z only. Trimming covers ASCII white space, U+00A0
  and U+FEFF; the other Unicode spaces and line terminators are not modelled, nor is Unicode case
  mapping. Lengths are counted in characters, not UTF-16
  units.
- A registration without an e-mail address is taken to match no stored document in the lookup for
  an existing account, and then fails validation.
- The two invariants on the assistants' status are stated as lemmas about the decision functions,
  not as clauses of the Store methods: neither is kept by every handler.
- Routes.Store.Complete: follows the corrected decision, not the code as written, in five ways.
  It completes a request named by the number 0, where the code answers 400. It accepts an
  assistant named by the number 0, where the code answers 400. It answers "Request not found" to
  a numeric id that names no request, where the code answers 500. It resolves 24-hex text with a
  letter by storage identity, where the code answers 500. It answers "Request not found" to text
  that is neither decimal digits nor 24 hex digits (such as "abc"), where the code's number cast
  throws and it answers 500. The code as written is `Findings.CompleteAsWritten`.
- Findings.CompleteAsWritten: reads a text id as a number only when it is a non-empty string of
  decimal digits (`Lookup.NumberCast`). Texts such as "-5", "1.5" or " 7", which JavaScript's
  `Number` reads as numbers, are taken as casts that throw.
- Queries.Inbox: its own contract only bounds the length; membership is stated by
  Queries.InboxMembers.

## Findings

| source | as written | input that shows it | evidently intended | confidence | as-written member | corrected member |
|---|---|---|---|---|---|---|
| routes/RouteUser.js:412 | when the lookup by public id misses, `requestId.match(...)` is called even when the id is a number | a numeric `requestId` that names no request | the reply "Request not found" | high; not executed | Findings.NumericMissThrows | Transitions.PlanComplete |
| routes/RouteUser.js:398 | the presence test `!requestId` treats the number 0 as missing | a request whose generated public id is 0, completed with `requestId: 0` | 0 is a public id the generator can draw, so it is accepted | high; not executed | Findings.ZeroIdRefused | Transitions.PlanComplete |
| routes/RouteUser.js:409-414 | the first query casts the id to a Number, so 24-hex text with a letter throws before the storage-id fallback | the text of a storage identity whose last hexadecimal digit is a letter | the fallback finds the request by its storage identity | medium; not executed | Findings.StorageIdWithLetterThrows | Lookup.ResolveRequest |
