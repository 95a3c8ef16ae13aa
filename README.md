# Conference booking admission engine in Dafny

This project models the core of a Spring Boot conference-booking service:

- **`BookingServiceImpl`**: the admission engine. It creates bookings, confirming one while seats remain and otherwise waitlisting it on a per-conference RabbitMQ queue. It also:
  - withdraws a confirmed user from the waitlists of overlapping conferences;
  - promotes waitlisted bookings to PROCESSING when seats free up;
  - confirms or demotes PROCESSING bookings;
  - runs two scheduled sweeps.
- **The three validators** for conferences, bookings and users.
- **Parts of `ConferenceServiceImpl`**: `createConference` and its defaulting, the search filter `matchesSearchCriteria`, the first-wins status map, the two-key stable sort, and `getUpcomingConferences`.

How the system's parts become Dafny:

- **The database** becomes three maps held by a class.
  - `BookingService.AdmissionEngine` holds `bookings`, `conferences` and the set of known `users`.
  - Repository `save` is a map update, and `findById` is a map lookup.
- **The broker** becomes fields of the same class.
  - `queues` maps a queue name to a sequence of `Entry(bookingId, priority)`.
  - `processed` is the in-memory `processedBookings` set of idempotency keys.
  - The value `Waitlist.Channel` bundles the parts of that state that `addToWaitlistQueue` touches.
- **An exception** becomes an error value: a `Result`, an `Outcome` or a `Verdict` with the list of validation messages. The cause is kept rather than the wrapping `RuntimeException`.
- **`LocalDateTime.now()`** becomes an `int` parameter `now` in seconds, and `plusHours(1)` is `+ 3600`.
- **`UUID.randomUUID()`** becomes a `freshId` parameter.
- **Whether a publish throws** is a `sendFails` flag, or a set `failing` of booking ids for the expiration sweep.
- **The result of `findByStatus(PROCESSING)`** is a `processing` sequence. The preconditions require it to list each PROCESSING booking once, which is the repository's contract.

Every engine method keeps `Valid()`, which holds these invariants together:

- Booking ids are UUID-shaped.
- Every booking's conference is stored.
- Every stored conference passes `ConferenceValidator`, has `availableSlots >= 0`, and has a queue id only if that queue is declared and named after the conference.
- Every queue holds its priority-1 entries before its priority-0 entries.
- Every idempotency key belongs to a stored booking.

Each method's postcondition gives the whole new state as a function of the old one. These functions are in the modules `Waitlist` (enqueue, withdraw) and `BookingService` (`PromoteHeads`, `PromoteNext`, `WithdrawAll`/`CancelOwned`, `CancelStranded`/`Unqueued`/`Cleared`, `ExpireAll`). Lemmas next to those functions prove their properties, for example:

- Enqueueing is idempotent.
- A withdrawal is idempotent and leaves no entry of the user.
- Promotion turns every consumed WAITLISTED booking into PROCESSING at `now` and changes no other row (PromotedRows, PromotedConsumed). It takes exactly one seat per promoted booking (PromotedCount).
- The expiration sweep demotes exactly the expired PROCESSING bookings (ExpireAllSpec) and puts each one back on its conference's queue (ExpireAllRequeues).

Where the description of the system and the code disagree, the model follows the code, except for two evident bugs, which it corrects (see Findings):

- **Cancelling a booking that is already CANCELLED** is not rejected. It is saved as CANCELLED again.
- **Cancelling a CONFIRMED booking** gives the seat back (`availableSlots + 1`). The promoted head becomes PROCESSING without taking the seat: the seat is taken only when the booking is confirmed.
- **A failed re-enqueue in `confirmWaitlistBooking`** is logged and swallowed (`ConfirmWaitlistBooking` with `sendFails`).
- **`processWaitlistQueue`** as written loses a waitlisted booking instead of promoting it (ProcessAsWritten). The engine's ProcessWaitlistQueue and ToggleFullyBooked run the corrected loop `PromoteHeads` instead. It reads the booking by the message's id and, like `handleWaitlistMessage` (lines 494-517), promotes it only if it is still WAITLISTED.
- **`cancelBooking`'s basicGet** as written makes the head's booking PROCESSING whatever its status, so it can revive a CANCELLED booking (PromoteNextAsWritten). The engine's CancelBooking runs the corrected `PromoteNext` instead. It promotes only a WAITLISTED booking and drops the message of any other.

## Model

| member | source | states |
|---|---|---|
| JavaText.TrimStartSpec | src/main/java/com/example/conferencebooking/service/validator/ConferenceValidator.java:21 | `trim()` drops exactly a leading run of characters up to U+0020 and stops at the first other one |
| JavaText.TrimEndSpec | src/main/java/com/example/conferencebooking/service/validator/ConferenceValidator.java:21 | `trim()` drops exactly a trailing run of characters up to U+0020 |
| JavaText.BlankIffTrimEmpty | src/main/java/com/example/conferencebooking/service/validator/ConferenceValidator.java:21-27 | `s.trim().isEmpty()` holds exactly when every character of `s` is one `trim()` removes |
| JavaText.TrimNoop | src/main/java/com/example/conferencebooking/service/impl/BookingServiceImpl.java:287 | a string with no trimmable character at either end is its own trim |
| JavaText.Trim | src/main/java/com/example/conferencebooking/service/validator/ConferenceValidator.java:21 | `trim()` returns a slice of the input with only trimmable characters before and after it, whose first and last characters are not trimmable, and every character of it comes from the input |
| JavaText.LowerChar | src/main/java/com/example/conferencebooking/service/impl/ConferenceServiceImpl.java:148 | an upper-case ASCII letter becomes the letter 32 code points up, its lower-case form; every other character is unchanged |
| JavaText.ToLower | src/main/java/com/example/conferencebooking/service/impl/ConferenceServiceImpl.java:148 | `toLowerCase()` keeps the length and lowers each character on its own |
| JavaText.ContainsIgnoreCase | src/main/java/com/example/conferencebooking/service/impl/ConferenceServiceImpl.java:148 | `a.toLowerCase().contains(b.toLowerCase())` holds iff at some offset every character of the needle matches the haystack up to case |
| Wrappers.Append | src/main/java/com/example/conferencebooking/service/validator/ConferenceValidator.java:22-30 | adding the error of a later check keeps the list in check order and adds exactly that error |
| ConferenceValidator.CheckNameLocationStart | src/main/java/com/example/conferencebooking/service/validator/ConferenceValidator.java:19-31 | each of the first three errors (name, location, start) is present exactly when its condition holds, in check order |
| ConferenceValidator.Validate | src/main/java/com/example/conferencebooking/service/validator/ConferenceValidator.java:17-81 | accepted iff the draft passes; a rejection has a non-empty list; each of the five errors (name, location, start, end, slots) is present exactly when its condition holds; the errors are in check order |
| ConferenceValidator.OrderNotChecked | src/main/java/com/example/conferencebooking/service/validator/ConferenceValidator.java:37-54 | the start-before-end check is commented out: a valid conference with start and end swapped still passes |
| BookingValidator.HasTimeOverlap | src/main/java/com/example/conferencebooking/service/validator/BookingValidator.java:57-60 | two conferences overlap iff each ends no earlier than the other starts (end points included) |
| BookingValidator.OverlapSymmetric | src/main/java/com/example/conferencebooking/service/validator/BookingValidator.java:57-60 | the overlap test is symmetric |
| BookingValidator.OverlapReflexive | src/main/java/com/example/conferencebooking/service/validator/BookingValidator.java:57-60 | a conference overlaps itself iff its start is not after its end |
| BookingValidator.ActiveIds | src/main/java/com/example/conferencebooking/service/validator/BookingValidator.java:31-36 | the filtered list is non-empty iff the user has a CONFIRMED or WAITLISTED booking for the conference, and every id in it is such a booking |
| BookingValidator.ValidateBooking | src/main/java/com/example/conferencebooking/service/validator/BookingValidator.java:23-55 | "already started" iff start < now; "active booking" iff a CONFIRMED/WAITLISTED booking exists; "conflict" iff such a booking exists and its conference overlaps; a rejection has errors, in check order |
| UserValidator.LocalRun | src/main/java/com/example/conferencebooking/service/validator/UserValidator.java:13-14 | the longest prefix of `[A-Za-z0-9+_.-]` characters; the next character, if any, is not one |
| UserValidator.LocalRunStops | src/main/java/com/example/conferencebooking/service/validator/UserValidator.java:13-14 | the run ends at the first character outside the class |
| UserValidator.EmailMatchesIff | src/main/java/com/example/conferencebooking/service/validator/UserValidator.java:13-14 | the single scan accepts exactly the strings `^[A-Za-z0-9+_.-]+@(.+)$` matches at some split point |
| UserValidator.ValidateUser | src/main/java/com/example/conferencebooking/service/validator/UserValidator.java:19-40 | each of the four errors is present exactly when its condition holds; the email is never both "required" and "invalid"; errors in field order; a rejection has errors |
| ConferenceService.PrepareConference | src/main/java/com/example/conferencebooking/service/impl/ConferenceServiceImpl.java:39-56 | Ok iff the draft passes validation, else the sorted non-empty errors. A new conference gets the fresh id, `availableSlots = totalSlots`, no queue and not fully booked. A conference with an id keeps its own slot count, queue id and flag. The other fields are copied |
| ConferenceService.AnySearchTopicIn | src/main/java/com/example/conferencebooking/service/impl/ConferenceServiceImpl.java:161-162 | true iff some search topic occurs in the topic, ignoring case |
| ConferenceService.AnyTopicMatches | src/main/java/com/example/conferencebooking/service/impl/ConferenceServiceImpl.java:159-164 | true iff some (topic, search topic) pair matches, ignoring case |
| ConferenceService.MatchesSearchCriteria | src/main/java/com/example/conferencebooking/service/impl/ConferenceServiceImpl.java:145-181 | true iff the name, location, topic, date-range and timeframe filters all accept the conference |
| ConferenceService.StatusMap | src/main/java/com/example/conferencebooking/service/impl/ConferenceServiceImpl.java:82-87 | the keys are exactly the conferences of the user's bookings; each maps to the status of the first booking for it (the merge keeps the existing value) |
| ConferenceService.Annotate | src/main/java/com/example/conferencebooking/service/impl/ConferenceServiceImpl.java:92-99 | hasActiveBooking iff a status is recorded and it is not CANCELLED; bookingStatus is set only when one is recorded |
| ConferenceService.AnnotateAll | src/main/java/com/example/conferencebooking/service/impl/ConferenceServiceImpl.java:92-99 | every conference is annotated, in order |
| ConferenceService.Filtered | src/main/java/com/example/conferencebooking/service/impl/ConferenceServiceImpl.java:90-91 | keeps exactly the conferences that match the criteria |
| ConferenceService.FilteredAppend | src/main/java/com/example/conferencebooking/service/impl/ConferenceServiceImpl.java:90-91 | the filter distributes over concatenation, so it keeps the repository's order |
| ConferenceService.FilteredCount | src/main/java/com/example/conferencebooking/service/impl/ConferenceServiceImpl.java:90-91 | every copy of a matching conference is kept and no copy of any other |
| ConferenceService.SearchConferences | src/main/java/com/example/conferencebooking/service/impl/ConferenceServiceImpl.java:75-109 | the search fails (null pointer) exactly when no timeframe is given |
| ConferenceService.SearchConferencesHits | src/main/java/com/example/conferencebooking/service/impl/ConferenceServiceImpl.java:89-106 | the result is a permutation of the annotated matches; every hit is a stored conference that matches, annotated from the status map |
| ConferenceService.SearchConferencesOrder | src/main/java/com/example/conferencebooking/service/impl/ConferenceServiceImpl.java:100-105 | conferences without a booking come first; within each group, start ascending, or end descending for "past" |
| ConferenceService.SearchConferencesStable | src/main/java/com/example/conferencebooking/service/impl/ConferenceServiceImpl.java:100-105 | conferences with equal sort keys keep their repository order |
| ConferenceService.StartedAfter | src/main/java/com/example/conferencebooking/service/impl/ConferenceServiceImpl.java:139-140 | keeps exactly the conferences that start after now |
| ConferenceService.StartedAfterAppend | src/main/java/com/example/conferencebooking/service/impl/ConferenceServiceImpl.java:139-140 | the filter distributes over concatenation, so it keeps the repository's order |
| ConferenceService.StartedAfterCount | src/main/java/com/example/conferencebooking/service/impl/ConferenceServiceImpl.java:139-140 | every copy of an upcoming conference is kept and no copy of any other |
| ConferenceService.UpcomingConferences | src/main/java/com/example/conferencebooking/service/impl/ConferenceServiceImpl.java:137-143 | a permutation of the conferences that start after now, and only those, in ascending order of start; each upcoming conference appears as often as in the repository and no other appears |
| ConferenceService.SortedByStart | src/main/java/com/example/conferencebooking/service/impl/ConferenceServiceImpl.java:141 | sorting by start alone keeps the same conferences and orders them by start |
| StableSort.Insert | src/main/java/com/example/conferencebooking/service/impl/ConferenceServiceImpl.java:100-105 | inserting adds exactly the one element |
| StableSort.SortByKey | src/main/java/com/example/conferencebooking/service/impl/ConferenceServiceImpl.java:100-105 | sorting is a permutation |
| StableSort.InsertSorted | src/main/java/com/example/conferencebooking/service/impl/ConferenceServiceImpl.java:100-105 | inserting into a sorted list keeps it sorted |
| StableSort.SortByKeySorted | src/main/java/com/example/conferencebooking/service/impl/ConferenceServiceImpl.java:141 | the result is sorted by the key |
| StableSort.InsertWithKey | src/main/java/com/example/conferencebooking/service/impl/ConferenceServiceImpl.java:100-105 | a new element goes before every element already there with the same key, so the elements inserted later (that is, earlier in the input) come first and the input order is kept |
| StableSort.SortByKeyStable | src/main/java/com/example/conferencebooking/service/impl/ConferenceServiceImpl.java:100-105 | for every key, the elements with that key keep their relative order |
| StableSort.WithKey | src/main/java/com/example/conferencebooking/service/impl/ConferenceServiceImpl.java:100-105 | selecting one key never adds elements |
| Waitlist.QueueName | src/main/java/com/example/conferencebooking/service/impl/BookingServiceImpl.java:218 | a queue is named by the prefix followed by the conference id |
| Waitlist.QueueNameInjective | src/main/java/com/example/conferencebooking/service/impl/BookingServiceImpl.java:218 | distinct conferences get distinct queue names |
| Waitlist.WithPriority | src/main/java/com/example/conferencebooking/service/impl/BookingServiceImpl.java:225 | selecting one priority tier never adds entries |
| Waitlist.AllZero | src/main/java/com/example/conferencebooking/service/impl/BookingServiceImpl.java:225 | a queue of priority-0 entries only is delivered in sequence order |
| Waitlist.DeliveryIsSequenceOrder | src/main/java/com/example/conferencebooking/service/impl/BookingServiceImpl.java:222-228 | on a queue whose priority-1 entries all come before the priority-0 ones, priority delivery is plain sequence order |
| Waitlist.Fields | src/main/java/com/example/conferencebooking/service/impl/BookingServiceImpl.java:287 | the text between the colons: at least one field, none containing a colon, every character from the input, and joining them with `:` gives the input back |
| Waitlist.DropTrailingEmpty | src/main/java/com/example/conferencebooking/service/impl/BookingServiceImpl.java:287 | `split` drops only trailing empty fields: a prefix that does not end in an empty field, and every dropped field is empty |
| Waitlist.JavaSplitColon | src/main/java/com/example/conferencebooking/service/impl/BookingServiceImpl.java:287 | `split(":")`: no field contains a colon and each one is made of the input's characters; without a colon the input itself; otherwise the colon fields minus only trailing empty ones |
| Waitlist.StripMembers | src/main/java/com/example/conferencebooking/service/impl/BookingServiceImpl.java:287 | `replaceAll("[{}\"]", "")` keeps exactly the characters that are not braces or quotes |
| Waitlist.ExtractBookingId | src/main/java/com/example/conferencebooking/service/impl/BookingServiceImpl.java:287 | a body without a colon yields no id (the index exception); an id read back is made of the body's characters, holds no colon, brace or quote, and has nothing trimmable at either end |
| Waitlist.MessageBody | src/main/java/com/example/conferencebooking/service/impl/BookingServiceImpl.java:241-245 | the JSON body `{"bookingId":"<id>"}` reads `bookingId:<id>` once its braces and quotes are stripped |
| Waitlist.ExtractRoundTrip | src/main/java/com/example/conferencebooking/service/impl/BookingServiceImpl.java:286-287 | for a UUID-shaped id, the extraction (strip `{}"`, split on `:`, take field 1, trim) on the JSON body `{"bookingId":"<id>"}` returns the id |
| Waitlist.Kept | src/main/java/com/example/conferencebooking/service/impl/BookingServiceImpl.java:142-165 | the drain keeps at most the messages it received |
| Waitlist.KeptMembers | src/main/java/com/example/conferencebooking/service/impl/BookingServiceImpl.java:151-160 | a message is kept iff its booking exists and belongs to another user |
| Waitlist.Requeued | src/main/java/com/example/conferencebooking/service/impl/BookingServiceImpl.java:168-179 | every kept message is republished, in order, with priority 1 |
| Waitlist.KeptAppend | src/main/java/com/example/conferencebooking/service/impl/BookingServiceImpl.java:144-165 | the drain filters message by message |
| Waitlist.KeptSameOwners | src/main/java/com/example/conferencebooking/service/impl/BookingServiceImpl.java:151-155 | the drain looks only at which bookings exist and who owns them |
| Waitlist.KeptRequeued | src/main/java/com/example/conferencebooking/service/impl/BookingServiceImpl.java:168-179 | a second drain keeps every requeued message |
| Waitlist.RequeuedKept | src/main/java/com/example/conferencebooking/service/impl/BookingServiceImpl.java:142-179 | what the drain re-sends is at priority 1 and for another user's existing booking, and every such entry of the queue is re-sent |
| Waitlist.Withdrawn | src/main/java/com/example/conferencebooking/service/impl/BookingServiceImpl.java:140-184 | the queue after removeUserFromWaitlist: no longer than before; every entry at priority 1 for another user's existing booking, none of the user's or of a missing booking; one for every such entry of the old queue |
| Waitlist.WithdrawnTiered | src/main/java/com/example/conferencebooking/service/impl/BookingServiceImpl.java:168-179 | a withdrawn queue has every entry at priority 1, so it is delivered in sequence order |
| Waitlist.WithdrawnIdempotent | src/main/java/com/example/conferencebooking/service/impl/BookingServiceImpl.java:140-184 | withdrawing the same user a second time changes nothing |
| Waitlist.Named | src/main/java/com/example/conferencebooking/service/impl/BookingServiceImpl.java:216-229 | no conference is added or removed and the keys stay; afterwards the conference's queue is declared, or it already had a queue id |
| Waitlist.Publish | src/main/java/com/example/conferencebooking/service/impl/BookingServiceImpl.java:231-262 | neither the conferences nor the set of declared queues change; the idempotency key is recorded unless the send throws |
| Waitlist.Enqueue | src/main/java/com/example/conferencebooking/service/impl/BookingServiceImpl.java:215-263 | no conference is added or removed, queues are only added, and the key is recorded unless the send throws |
| Waitlist.EnqueueAppends | src/main/java/com/example/conferencebooking/service/impl/BookingServiceImpl.java:215-263 | with a new key and a working broker: the conference gets its queue id, the booking is appended to that queue at priority 0, and the key is recorded |
| Waitlist.EnqueueTwice | src/main/java/com/example/conferencebooking/service/impl/BookingServiceImpl.java:231-237 | a second enqueue of the same (booking, time) pair is skipped and changes nothing |
| Waitlist.EnqueueRetry | src/main/java/com/example/conferencebooking/service/impl/BookingServiceImpl.java:258-261 | a failed send forgets the key again, so a later enqueue is sent |
| Waitlist.EnqueueTiered | src/main/java/com/example/conferencebooking/service/impl/BookingServiceImpl.java:215-263 | enqueueing keeps every queue tiered |
| Waitlist.EnqueueGrows | src/main/java/com/example/conferencebooking/service/impl/BookingServiceImpl.java:215-263 | addToWaitlistQueue only appends to queues, declares queues and names a conference's queue: no queue loses an entry and no queue id changes |
| BookingService.StatusView | src/main/java/com/example/conferencebooking/service/impl/BookingServiceImpl.java:364-379 | the status is copied; canConfirm iff PROCESSING; confirmUntil is present iff canConfirm, and is then one hour after the booking time |
| BookingService.ResavePasses | src/main/java/com/example/conferencebooking/service/impl/BookingServiceImpl.java:481-482 | resaving a stored conference with only its flag, slots or queue changed still passes the validator |
| BookingService.MentionedIds | src/main/java/com/example/conferencebooking/service/impl/BookingServiceImpl.java:151 | the ids looked up include every id each named queue mentions |
| BookingService.CancelOwned | src/main/java/com/example/conferencebooking/service/impl/BookingServiceImpl.java:156-160 | exactly the looked-up bookings of the user become CANCELLED; keys and owners are unchanged |
| BookingService.WithdrawAll | src/main/java/com/example/conferencebooking/service/impl/BookingServiceImpl.java:122-184 | exactly the named queues are withdrawn; the others stay as they were |
| BookingService.AffectedConferences | src/main/java/com/example/conferencebooking/service/impl/BookingServiceImpl.java:122-138 | a conference is affected iff it is another stored conference that overlaps the booked one and has a queue |
| BookingService.QueuesOf | src/main/java/com/example/conferencebooking/service/impl/BookingServiceImpl.java:129-130 | the queue names of exactly the given conferences |
| BookingService.WithdrawStepQueues | src/main/java/com/example/conferencebooking/service/impl/BookingServiceImpl.java:125-132 | one more conference of the forEach adds its queue to the withdrawn ones |
| BookingService.MentionedStep | src/main/java/com/example/conferencebooking/service/impl/BookingServiceImpl.java:125-132 | one more queue adds exactly its ids to the ids looked up |
| BookingService.CancelOwnedUnion | src/main/java/com/example/conferencebooking/service/impl/BookingServiceImpl.java:125-132 | cancelling in two rounds equals cancelling the union in one |
| BookingService.WithdrawOneMore | src/main/java/com/example/conferencebooking/service/impl/BookingServiceImpl.java:125-132 | the forEach's order does not matter: one more conference extends both the queue and the booking results |
| BookingService.WithdrawAllSpec | src/main/java/com/example/conferencebooking/service/impl/BookingServiceImpl.java:122-184 | afterwards no named queue holds an entry of the user or of a missing booking, and no other user's booking changed |
| BookingService.PromoteHeads | src/main/java/com/example/conferencebooking/service/impl/BookingServiceImpl.java:326-361 | the corrected promotion loop: the booking keys stay; no more messages are consumed than queued; nothing happens without a free slot; otherwise the slots left are between 0 and the start, and each slot taken consumed a message. A WAITLISTED head takes a slot; the message of a booking no longer WAITLISTED is consumed without one; a missing booking ends the loop |
| BookingService.PromotedRows | src/main/java/com/example/conferencebooking/service/impl/BookingServiceImpl.java:338-342 | only the consumed bookings that were WAITLISTED can change, and each such row becomes PROCESSING at `now` |
| BookingService.PromoteKeepsOthers | src/main/java/com/example/conferencebooking/service/impl/BookingServiceImpl.java:338-342 | a row that is not WAITLISTED is never touched by the loop |
| BookingService.PromotedConsumed | src/main/java/com/example/conferencebooking/service/impl/BookingServiceImpl.java:334-342 | every consumed message whose booking was WAITLISTED has turned that booking into PROCESSING at `now` |
| BookingService.PromotedIds | src/main/java/com/example/conferencebooking/service/impl/BookingServiceImpl.java:338-342 | the set of bookings whose row a promotion changed |
| BookingService.PromotedCount | src/main/java/com/example/conferencebooking/service/impl/BookingServiceImpl.java:338-351 | the slots taken equal the number of bookings promoted |
| BookingService.PromoteAll | src/main/java/com/example/conferencebooking/service/impl/BookingServiceImpl.java:326-361 | when every message names a stored booking, the loop stops only when the slots or the queue run out |
| BookingService.PromoteFresh | src/main/java/com/example/conferencebooking/service/impl/BookingServiceImpl.java:327-351 | when the queue holds distinct WAITLISTED bookings, every consumed message takes one slot |
| BookingService.ProcessAsWritten | src/main/java/com/example/conferencebooking/service/impl/BookingServiceImpl.java:326-361 | the loop as written: no booking and no slot changes, and at most the one message received before the failing cast is consumed |
| BookingService.AsWrittenLosesHead | src/main/java/com/example/conferencebooking/service/impl/BookingServiceImpl.java:334-336 | with a free slot and a waitlisted head, the code as written consumes the head and leaves it WAITLISTED, while the corrected loop makes it PROCESSING and takes a slot |
| BookingService.AsWrittenExample | src/main/java/com/example/conferencebooking/service/impl/BookingServiceImpl.java:334-336 | concrete case: one slot and one waitlisted message; as written the booking stays WAITLISTED, corrected it is PROCESSING at `now` |
| BookingService.PromoteNext | src/main/java/com/example/conferencebooking/service/impl/BookingServiceImpl.java:283-311 | `cancelBooking`'s basicGet, corrected: the booking keys stay; the queue keeps or loses exactly its head; only the head's booking can change, and only from WAITLISTED to PROCESSING at `now` |
| BookingService.PromoteNextIsOneSlot | src/main/java/com/example/conferencebooking/service/impl/BookingServiceImpl.java:283-311 | basicGet changes the bookings as one promotion round with one slot; the head is acked iff its booking exists, and is otherwise nacked back in place |
| BookingService.PromoteNextAsWritten | src/main/java/com/example/conferencebooking/service/impl/BookingServiceImpl.java:284-306 | basicGet as written: a stored head booking becomes PROCESSING at `now` whatever its status, its message is acked and no other row changes; with an empty queue or a missing booking nothing changes (the nack puts the message back) |
| BookingService.AsWrittenRevivesCancelled | src/main/java/com/example/conferencebooking/service/impl/BookingServiceImpl.java:290-296 | as written, a CANCELLED head beside a live booking of the same user and conference leaves that pair with two live bookings |
| BookingService.AsWrittenReviveExample | src/main/java/com/example/conferencebooking/service/impl/BookingServiceImpl.java:267-311 | concrete case: a table with one live booking per pair; as written the basicGet breaks that, corrected it drops the stale message and changes no row |
| BookingService.TakeHead | src/main/java/com/example/conferencebooking/service/impl/BookingServiceImpl.java:284-306 | the basicGet callback on a queue the service filled leaves exactly the queue and bookings of the corrected `PromoteNext` |
| BookingService.StartedWithQueue | src/main/java/com/example/conferencebooking/service/impl/BookingServiceImpl.java:189-192 | exactly the stored conferences that have started and still have a queue |
| BookingService.CancelStranded | src/main/java/com/example/conferencebooking/service/impl/BookingServiceImpl.java:196-202 | exactly the WAITLISTED bookings of the given conferences become CANCELLED |
| BookingService.Unqueued | src/main/java/com/example/conferencebooking/service/impl/BookingServiceImpl.java:209-211 | exactly the given conferences lose their queue id |
| BookingService.Cleared | src/main/java/com/example/conferencebooking/service/impl/BookingServiceImpl.java:204-207 | exactly the named queues are emptied; they stay declared |
| BookingService.StrandedOneMore | src/main/java/com/example/conferencebooking/service/impl/BookingServiceImpl.java:194-202 | cancelling one more conference's waitlist extends the result of the earlier ones |
| BookingService.UnqueuedOneMore | src/main/java/com/example/conferencebooking/service/impl/BookingServiceImpl.java:209-211 | unqueueing one more conference extends the result of the earlier ones |
| BookingService.ClearedOneMore | src/main/java/com/example/conferencebooking/service/impl/BookingServiceImpl.java:204-207 | emptying one more conference's queue extends the result of the earlier ones |
| BookingService.SweepLeavesNoQueue | src/main/java/com/example/conferencebooking/service/impl/BookingServiceImpl.java:188-213 | after the purge no started conference still has a queue, so a second run at the same time does nothing |
| BookingService.ExpireAllUnfold | src/main/java/com/example/conferencebooking/service/impl/BookingServiceImpl.java:557-570 | one step of the sweep: a booking still inside its window is skipped; an expired one is demoted and enqueued; a publish that throws ends the sweep |
| BookingService.ExpireAll | src/main/java/com/example/conferencebooking/service/impl/BookingServiceImpl.java:553-572 | the sweep keeps the set of booking ids |
| BookingService.ExpireAllRows | src/main/java/com/example/conferencebooking/service/impl/BookingServiceImpl.java:559-564 | whatever happens, only listed bookings whose hour had passed change, each to WAITLISTED at `now` |
| BookingService.ExpireAllGrows | src/main/java/com/example/conferencebooking/service/impl/BookingServiceImpl.java:566-567 | whatever happens, the sweep only appends to queues, names queues and records keys |
| BookingService.ExpireAllSpec | src/main/java/com/example/conferencebooking/service/impl/BookingServiceImpl.java:553-572 | on a working broker and distinct ids, the sweep never aborts. Exactly the listed bookings whose hour has passed become WAITLISTED at `now`, with their new idempotency key recorded. Every other row stays |
| BookingService.EnqueueLands | src/main/java/com/example/conferencebooking/service/impl/BookingServiceImpl.java:215-263 | a successful enqueue with a new key lands the booking's message on the conference's declared queue and keeps every queue id declared |
| BookingService.ExpireAllRequeues | src/main/java/com/example/conferencebooking/service/impl/BookingServiceImpl.java:559-568 | with a working broker, declared queue ids and fresh keys, every booking the sweep moves back to WAITLISTED has a default-priority message on the queue its conference names |
| BookingService.LiveIds | src/main/java/com/example/conferencebooking/service/impl/BookingServiceImpl.java:73-77 | non-empty iff the user has a booking for the conference that is not CANCELLED |
| BookingService.HasLiveBooking | src/main/java/com/example/conferencebooking/service/impl/BookingServiceImpl.java:73-79 | the duplicate guard fires iff the user holds a CONFIRMED or WAITLISTED booking for the conference (the validator's notion) or a PROCESSING one |
| BookingService.NewBooking | src/main/java/com/example/conferencebooking/service/impl/BookingServiceImpl.java:87-93 | the new row carries the ids and `now`; it is CONFIRMED iff a slot is free, otherwise WAITLISTED |
| BookingService.GuardsImplyAccepted | src/main/java/com/example/conferencebooking/service/impl/BookingServiceImpl.java:67-84 | once createBooking's own two guards pass, the booking validator cannot reject |
| BookingService.NewBookingKeepsOneLive | src/main/java/com/example/conferencebooking/service/impl/BookingServiceImpl.java:72-96 | the duplicate guard keeps at most one booking that is not CANCELLED per (user, conference) |
| BookingService.StatusChangesKeepOneLive | src/main/java/com/example/conferencebooking/service/impl/BookingServiceImpl.java:267-324 | a change that never revives a CANCELLED row and keeps owners and conferences keeps that uniqueness |
| BookingService.PromoteNextKeepsOneLive | src/main/java/com/example/conferencebooking/service/impl/BookingServiceImpl.java:284-306 | the corrected basicGet keeps at most one live booking per user and conference |
| BookingService.PromoteHeadsKeepOneLive | src/main/java/com/example/conferencebooking/service/impl/BookingServiceImpl.java:327-360 | the corrected promotion loop keeps at most one live booking per user and conference |
| BookingService.PromoteHeadsStep | src/main/java/com/example/conferencebooking/service/impl/BookingServiceImpl.java:327-360 | one iteration of the promotion loop: stop without a slot or without a message; a missing booking ends the loop after consuming its message; a booking no longer WAITLISTED is consumed without a slot; otherwise promote the head, take a slot and continue |
| BookingService.ReceiveAndPromote | src/main/java/com/example/conferencebooking/service/impl/BookingServiceImpl.java:327-360 | the while loop computes the corrected promotion exactly, and the queue left is the input minus the consumed prefix |
| BookingService.CancelEach | src/main/java/com/example/conferencebooking/service/impl/BookingServiceImpl.java:199-202 | the forEach cancels exactly the listed bookings and leaves the others |
| BookingService.CancelOneMore | src/main/java/com/example/conferencebooking/service/impl/BookingServiceImpl.java:199-202 | cancelling one more listed booking extends the forEach's result |
| BookingService.CancelEachStranded | src/main/java/com/example/conferencebooking/service/impl/BookingServiceImpl.java:196-202 | cancelling the rows `findByConferenceIdAndStatus(id, WAITLISTED)` returns is the stranded-booking cancellation |
| BookingService.PromotionConsistent | src/main/java/com/example/conferencebooking/service/impl/BookingServiceImpl.java:326-361 | the corrected promotion loop keeps booking ids, conferences, queue order and idempotency keys consistent |
| BookingService.PromoteNextConsistent | src/main/java/com/example/conferencebooking/service/impl/BookingServiceImpl.java:283-311 | `cancelBooking`'s basicGet promotion keeps the state consistent |
| BookingService.WithdrawConsistent | src/main/java/com/example/conferencebooking/service/impl/BookingServiceImpl.java:122-184 | withdrawing a user from one waitlist queue, and cancelling their bookings it held, keeps the state consistent |
| BookingService.EnqueueConsistent | src/main/java/com/example/conferencebooking/service/impl/BookingServiceImpl.java:215-263 | declaring and publishing to a waitlist queue keeps the state consistent |
| BookingService.TakeSlotConsistent | src/main/java/com/example/conferencebooking/service/impl/BookingServiceImpl.java:277-278 | changing a stored conference's slot count, never below zero, keeps the state consistent |
| BookingService.ResaveConsistent | src/main/java/com/example/conferencebooking/service/impl/BookingServiceImpl.java:481-482 | resaving a stored conference with a changed flag, or without its queue id, keeps the state consistent |
| BookingService.CancelStrandedConsistent | src/main/java/com/example/conferencebooking/service/impl/BookingServiceImpl.java:188-213 | the waitlist purge keeps the state consistent |
| BookingService.AdmissionEngine.constructor | src/main/java/com/example/conferencebooking/service/impl/BookingServiceImpl.java:48-58 | a fresh engine with the given users and empty repositories, queues and processed set is valid |
| BookingService.AdmissionEngine.GetBookingStatus | src/main/java/com/example/conferencebooking/service/impl/BookingServiceImpl.java:364-379 | not found iff the id is unknown; otherwise the status, canConfirm iff PROCESSING, and confirmUntil one hour after the booking time exactly when canConfirm |
| BookingService.AdmissionEngine.GetBooking | src/main/java/com/example/conferencebooking/service/impl/BookingServiceImpl.java:401-404 | the stored row iff it exists, otherwise BookingNotFound |
| BookingService.AdmissionEngine.AddToWaitlistQueue | src/main/java/com/example/conferencebooking/service/impl/BookingServiceImpl.java:215-263 | the new channel state and send result are `Enqueue` of the old state; the bookings are untouched |
| BookingService.AdmissionEngine.EnsureQueue | src/main/java/com/example/conferencebooking/service/impl/BookingServiceImpl.java:216-229 | the state becomes `Named` of the old one; the queue id is the conference's own or the one named after it |
| BookingService.AdmissionEngine.PublishEntry | src/main/java/com/example/conferencebooking/service/impl/BookingServiceImpl.java:231-262 | the state and result are `Publish` of the old state |
| BookingService.AdmissionEngine.SaveBooking | src/main/java/com/example/conferencebooking/service/impl/BookingServiceImpl.java:96 | the repository save: exactly this row is replaced or added |
| BookingService.AdmissionEngine.AdjustSlots | src/main/java/com/example/conferencebooking/service/impl/BookingServiceImpl.java:277-278 | exactly the conference's slot count changes, by `delta` |
| BookingService.AdmissionEngine.CreateBooking | src/main/java/com/example/conferencebooking/service/impl/BookingServiceImpl.java:62-120 | unknown user, unknown conference, started conference and live duplicate are rejected in that order, with no state change. Otherwise the new booking is saved. Without a free slot it is enqueued, and a throwing send is reported. With a slot, the slot is taken and the user is withdrawn from the overlapping waitlists (`WithdrawAll`, `CancelOwned`) |
| BookingService.AdmissionEngine.Admit | src/main/java/com/example/conferencebooking/service/impl/BookingServiceImpl.java:95-115 | the two outcomes of a booking that passed the guards, as in CreateBooking |
| BookingService.AdmissionEngine.TakeSeat | src/main/java/com/example/conferencebooking/service/impl/BookingServiceImpl.java:105-112 | the booking is saved, the slot is taken and the overlapping waitlists are withdrawn |
| BookingService.AdmissionEngine.CreateConference | src/main/java/com/example/conferencebooking/service/impl/ConferenceServiceImpl.java:39-56 | saved iff the draft passes validation, with the defaulted fields. A rejection carries the non-empty error list and changes nothing. No booking or queue changes |
| BookingService.AdmissionEngine.RemoveFromOverlappingWaitlists | src/main/java/com/example/conferencebooking/service/impl/BookingServiceImpl.java:122-133 | the queues become `WithdrawAll` of the affected conferences' queues and the bookings `CancelOwned` of the ids those queues held |
| BookingService.AdmissionEngine.RemoveUserFromWaitlist | src/main/java/com/example/conferencebooking/service/impl/BookingServiceImpl.java:140-184 | the queue becomes `Withdrawn` of its old contents and exactly the user's bookings it mentioned are cancelled |
| BookingService.AdmissionEngine.DrainQueue | src/main/java/com/example/conferencebooking/service/impl/BookingServiceImpl.java:142-165 | the receive loop empties the queue, returns the kept messages and cancels the user's bookings it saw |
| BookingService.AdmissionEngine.RequeueAll | src/main/java/com/example/conferencebooking/service/impl/BookingServiceImpl.java:168-183 | the kept messages are appended to the queue at priority 1 |
| BookingService.AdmissionEngine.PromoteHead | src/main/java/com/example/conferencebooking/service/impl/BookingServiceImpl.java:283-311 | the queue and bookings become the corrected `PromoteNext` of the old ones |
| BookingService.AdmissionEngine.CancelBooking | src/main/java/com/example/conferencebooking/service/impl/BookingServiceImpl.java:267-324 | an unknown id is reported with no change. Otherwise the booking ends CANCELLED. A CONFIRMED booking gives its slot back, and if the conference has a queue, its head goes through the corrected `PromoteNext`. Other statuses change only the row |
| BookingService.AdmissionEngine.ReleaseSlot | src/main/java/com/example/conferencebooking/service/impl/BookingServiceImpl.java:274-311 | the conference gets its slot back; with a queue, the queue and bookings become the corrected `PromoteNext` of the old ones, otherwise they stay |
| BookingService.AdmissionEngine.ProcessWaitlistQueue | src/main/java/com/example/conferencebooking/service/impl/BookingServiceImpl.java:326-361 | runs the corrected loop: the bookings, the slot count and the queue suffix are those of `PromoteHeads` on the old state |
| BookingService.AdmissionEngine.ToggleFullyBooked | src/main/java/com/example/conferencebooking/service/impl/BookingServiceImpl.java:479-491 | an unknown conference is reported. Otherwise the flag is saved. Clearing it with free slots and a queue runs the corrected promotion loop `PromoteHeads`; any other case changes only the flag |
| BookingService.AdmissionEngine.SetFullyBooked | src/main/java/com/example/conferencebooking/service/impl/BookingServiceImpl.java:480-482 | exactly the flag of the conference changes |
| BookingService.AdmissionEngine.ConfirmWaitlistBooking | src/main/java/com/example/conferencebooking/service/impl/BookingServiceImpl.java:424-475 | not found, started, not PROCESSING, expired and no slot are checked in that order. Only "expired" changes state: the booking goes back to WAITLISTED at `now` and is enqueued, and the call still fails. Success confirms at `now`, takes the slot and withdraws the overlapping waitlists |
| BookingService.AdmissionEngine.BackToWaitlist | src/main/java/com/example/conferencebooking/service/impl/BookingServiceImpl.java:440-451 | the demoted row is saved and enqueued; a throwing send is swallowed |
| BookingService.AdmissionEngine.HandleWaitlistMessage | src/main/java/com/example/conferencebooking/service/impl/BookingServiceImpl.java:494-517 | acked iff the booking exists; a WAITLISTED booking becomes PROCESSING, keeping its booking time; nothing else changes |
| BookingService.AdmissionEngine.AutoCancelExpiredWaitlist | src/main/java/com/example/conferencebooking/service/impl/BookingServiceImpl.java:188-213 | for the conferences that have started and have a queue: their WAITLISTED bookings are cancelled, their queues emptied and their queue ids dropped; nothing else changes |
| BookingService.AdmissionEngine.ExpireConference | src/main/java/com/example/conferencebooking/service/impl/BookingServiceImpl.java:194-212 | one conference of the sweep: its stranded bookings are cancelled, its queue emptied, its queue id dropped |
| BookingService.AdmissionEngine.CancelWaitlisted | src/main/java/com/example/conferencebooking/service/impl/BookingServiceImpl.java:196-202 | exactly the conference's WAITLISTED bookings become CANCELLED |
| BookingService.AdmissionEngine.DrainAll | src/main/java/com/example/conferencebooking/service/impl/BookingServiceImpl.java:204-207 | the receive loop leaves the queue empty and changes nothing else |
| BookingService.AdmissionEngine.CheckProcessingBookingsExpiration | src/main/java/com/example/conferencebooking/service/impl/BookingServiceImpl.java:553-572 | the bookings and channel become those of `ExpireAll` over the PROCESSING list; the call fails (queue unavailable) iff a publish threw |
| BookingService.AdmissionEngine.ExpireOne | src/main/java/com/example/conferencebooking/service/impl/BookingServiceImpl.java:558-570 | one iteration matches one step of `ExpireAll` |

## Left out

- **Transactions:** `@Transactional` rollback is not modelled. Operations run sequentially and keep the state written before an exception. So do the model's error results when a publish throws after a save: CreateBooking, the expiration sweep.
  - In `confirmWaitlistBooking`, an expired booking is saved as WAITLISTED (line 443) before the method throws its `ValidationException` (line 454). Under the transaction that save would be rolled back. ConfirmWaitlistBooking keeps it: the booking is WAITLISTED at `now` and re-enqueued, or left without a queue entry when the publish fails.
- ConferenceValidator.Validate: `totalSlots` is an `int` here, so a request without `totalSlots` is not covered. `ConferenceRequestDTO.totalSlots` is a nullable `Integer`, and then ConferenceValidator.java:56 unboxes `null` and throws a `NullPointerException`: the errors collected so far are lost and no `ValidationException` is thrown.
- ConferenceService.PrepareConference: the same null `totalSlots` request is not covered; it never reaches the defaulting in the source.
- BookingService.AdmissionEngine.CreateConference: the same null `totalSlots` request is not covered; in the source it ends in the `NullPointerException` before anything is saved.
- **Concurrency:** concurrent handlers, the `synchronizedSet` and the scheduler's timing are not modelled. Every operation is one atomic step on the state.
- **RabbitMQ transport:**
  - Messages are `Entry(bookingId, priority)`. The Jackson conversion, delivery tags, the message id and timestamp headers, and durability are left out.
  - Delivery follows `x-max-priority`: priority 1 before 0, in order within a tier.
  - A publish to a queue that was never declared is dropped.
  - `queueDeclare` of a declared queue changes nothing.
- **Failures are parameters:** whether a publish throws is a parameter (`sendFails`, `failing`). Receive, ack and nack do not fail.
- **`LocalDateTime.now()`** is one `now` value per call. `createBooking` reads the clock three times; the model uses one value, which is what makes the validator's "already started" check unreachable.
- **Exceptions:** every exception is an error value that carries the cause. `RuntimeException` wrapping, log lines and `System.out` are left out.
- **Malformed queue messages:**
  - The `catch` branches for a message that cannot be converted are left out (lines 161-163, 180-182). Every entry is a converted `BookingMessage`.
  - At line 287, the `ArrayIndexOutOfBoundsException` of the extraction cannot occur for a UUID-shaped id (ExtractRoundTrip). The engine keeps every booking id UUID-shaped, so PromoteNext takes the id directly.
- **Sweep rows:** in the expiration sweep, the loop finds each listed booking's row in the current table rather than in the list loaded at the start. For distinct ids that is the same row.
- CreateConference: requires a conference with a preset id to come as `ConferenceMapper.toEntity` builds it: `availableSlots` equal to `totalSlots` and no queue id. A stored conference is resaved through ResaveConsistent instead.
- LowerChar: lowers only ASCII `A`-`Z`. Java's `toLowerCase()` also lowers other Unicode letters and is locale-sensitive.
- **Not modelled:**
  - `getUserBookings` and `getConferenceBookings`, plain repository reads.
  - `getSuggestedConferences` with its scoring (`calculateScore` and helpers), which is floating point.
  - `getConference`/`getAllConferences`/`deleteConference` as standalone operations; lookups are map reads.
  - The commented-out `createConfirmedBooking` and `addToWaitlist`.
  - `UserServiceImpl`: users are a set of ids.
- **Invariants not proved:** `availableSlots <= totalSlots` is not proved and not kept in `Valid()`. Cancelling a CONFIRMED booking adds one slot without an upper check.
- **Uniqueness:** the one-live-booking-per-pair property is proved as lemmas on the booking table: NewBookingKeepsOneLive for a new booking, StatusChangesKeepOneLive for status changes, and PromoteNextKeepsOneLive and PromoteHeadsKeepOneLive for the corrected promotions. As written, `cancelBooking`'s basicGet breaks it (AsWrittenRevivesCancelled). It is not part of `Valid()`.

## Findings

| source | as written | input that shows it | evidently intended | confidence | as-written member | corrected member |
|---|---|---|---|---|---|---|
| src/main/java/com/example/conferencebooking/service/impl/BookingServiceImpl.java:335-336 | The received message is cast to `Booking`, but the queue holds `BookingMessage` objects. The cast throws `ClassCastException`, which is caught and breaks the loop. `receive()` has already auto-acked the head. | One free slot, a queue holding one message for WAITLISTED booking b1, then `toggleFullyBooked(c, false)`. The message is gone, b1 stays WAITLISTED and the slot stays free. | Look up the booking by the message's id. If it is still WAITLISTED, move it to PROCESSING at `now` and take one slot, as `handleWaitlistMessage` does (lines 494-517); consume any other stored booking's message without a slot. Go on while slots and messages remain. | not executed | BookingService.ProcessAsWritten, BookingService.AsWrittenLosesHead, BookingService.AsWrittenExample | BookingService.PromoteHeads, BookingService.ReceiveAndPromote, BookingService.AdmissionEngine.ProcessWaitlistQueue |
| src/main/java/com/example/conferencebooking/service/impl/BookingServiceImpl.java:290-296 | The basicGet callback makes the head's booking PROCESSING without looking at its status. A booking cancelled while still WAITLISTED keeps its message in the queue, so a later cancellation of a CONFIRMED booking can revive it. | One slot. v books a1 (CONFIRMED); u books b2 (WAITLISTED, queued); u cancels b2; u books b3 (WAITLISTED, queued); v cancels a1. The basicGet makes b2 PROCESSING, so u holds b2 and b3 for the same conference. | Promote the head only if it is still WAITLISTED, as `handleWaitlistMessage` does (lines 494-517), and acknowledge and drop any other message. | not executed | BookingService.PromoteNextAsWritten, BookingService.AsWrittenRevivesCancelled, BookingService.AsWrittenReviveExample | BookingService.PromoteNext, BookingService.PromoteNextKeepsOneLive, BookingService.TakeHead, BookingService.AdmissionEngine.PromoteHead |
