/** BookingServiceImpl: the admission engine. One object holds the state the service
    reads and writes through its collaborators: the known users, the booking and
    conference tables, the broker's waitlist queues and the in-memory set of
    idempotency keys. Every public operation is a method that changes that state as
    the service does, step by step, and states the new state in terms of the old. */
module BookingService {
  import opened Wrappers
  import opened JavaText
  import opened Entities
  import opened Waitlist
  import BV = BookingValidator
  import CV = ConferenceValidator
  import CS = ConferenceService

  /** plusHours(1): how long a PROCESSING booking may be confirmed. */
  const ConfirmWindow: int := 3600

  /** Why an operation throws. */
  datatype Failure =
    | UserNotFound
    | ConferenceNotFound
    | BookingNotFound
    | ConferenceStarted
    | DuplicateBooking
    | ConferenceRejected(errors: seq<CV.ConferenceError>)
    | QueueUnavailable
    | NotProcessing
    | ConfirmationExpired
    | NoAvailableSlots

  /** BookingStatusDTO. */
  datatype BookingStatusView = BookingStatusView(status: Status, canConfirm: bool, confirmUntil: Option<int>)

  /** What getBookingStatus reports for a booking. */
  function StatusView(b: Booking): (v: BookingStatusView)
    ensures v.status == b.status
    ensures v.canConfirm <==> b.status == Processing
    ensures v.confirmUntil.Some? <==> v.canConfirm
    ensures v.canConfirm ==> v.confirmUntil.value - ConfirmWindow == b.bookingTime
  {
    if b.status == Processing then BookingStatusView(b.status, true, Some(b.bookingTime + ConfirmWindow))
    else BookingStatusView(b.status, false, None)
  }

  // ---------------------------------------------------------------------------
  // The consistent states

  /** Every row is keyed by its id, every booking's id has the shape of a UUID
      string and its conference exists (conferences are never deleted here). */
  predicate BookingsOk(bookings: map<string, Booking>, conferences: map<string, Conference>) {
    forall id :: id in bookings ==>
      bookings[id].id == id && UuidShaped(id) && bookings[id].conferenceId in conferences
  }

  /** A stored conference is keyed by its id, has no negative slot count, and a
      queue id it carries is the one addToWaitlistQueue gives it and is declared. */
  predicate ConferenceOk(cid: string, c: Conference, queues: map<string, seq<Entry>>) {
    c.id == cid && c.availableSlots >= 0
    && (c.waitlistQueueId.Some? ==> c.waitlistQueueId.value == QueueName(cid) && QueueName(cid) in queues)
  }

  /** A queue holds messages published by the service: UUID-shaped ids, tiered
      priorities. */
  predicate QueueOk(q: seq<Entry>) {
    Tiered(q) && forall i :: 0 <= i < |q| ==> UuidShaped(q[i].bookingId)
  }

  /** Every stored conference passes the validator, so saving it again after a
      change of slots, queue id or flag cannot throw. */
  predicate AllPass(conferences: map<string, Conference>) {
    forall cid {:trigger CV.Passes(AsDraft(conferences[cid]))} ::
      cid in conferences ==> CV.Passes(AsDraft(conferences[cid]))
  }

  predicate ConferencesOk(conferences: map<string, Conference>, queues: map<string, seq<Entry>>) {
    (forall cid :: cid in conferences ==> ConferenceOk(cid, conferences[cid], queues)) && AllPass(conferences)
  }

  /** The fields the validator reads are unchanged. */
  predicate SameShape(c: Conference, d: Conference) {
    c.name == d.name && c.location == d.location && c.start == d.start && c.end == d.end
    && c.totalSlots == d.totalSlots
  }

  /** Saving a changed copy of a stored conference keeps every conference valid. */
  lemma ResavePasses(conferences: map<string, Conference>, cid: string, c: Conference)
    requires AllPass(conferences) && cid in conferences && SameShape(conferences[cid], c)
    ensures AllPass(conferences[cid := c])
  {
    var cs := conferences[cid := c];
    forall x | x in cs
      ensures CV.Passes(AsDraft(cs[x]))
    {
      assert CV.Passes(AsDraft(conferences[x]));
    }
  }

  predicate QueuesOk(queues: map<string, seq<Entry>>) {
    forall qid :: qid in queues ==> QueueOk(queues[qid])
  }

  /** Every recorded idempotency key belongs to a stored booking. */
  predicate ProcessedOk(processed: set<IdempotencyKey>, bookings: map<string, Booking>) {
    forall k :: k in processed ==> k.bookingId in bookings
  }

  predicate Consistent(bookings: map<string, Booking>, conferences: map<string, Conference>,
                       queues: map<string, seq<Entry>>, processed: set<IdempotencyKey>) {
    BookingsOk(bookings, conferences) && ConferencesOk(conferences, queues) && QueuesOk(queues)
    && ProcessedOk(processed, bookings)
  }

  // ---------------------------------------------------------------------------
  // Withdrawing a user from waitlists

  /** The booking ids a queue mentions. */
  function IdsOf(q: seq<Entry>): set<string> {
    set i | 0 <= i < |q| :: q[i].bookingId
  }

  /** The booking ids mentioned by the named queues. */
  function MentionedIds(queues: map<string, seq<Entry>>, names: set<string>): (r: set<string>)
    ensures forall n :: n in names && n in queues ==> IdsOf(queues[n]) <= r
    ensures forall id :: id in r ==> exists n :: n in names && n in queues && id in IdsOf(queues[n])
  {
    set n, i | n in names && n in queues && 0 <= i < |queues[n]| :: queues[n][i].bookingId
  }

  /** The bookings after every listed booking of `userId` was cancelled. */
  function CancelOwned(bookings: map<string, Booking>, ids: set<string>, userId: string): (r: map<string, Booking>)
    ensures SameOwners(bookings, r)
    ensures forall id :: id in bookings ==>
              r[id] == if id in ids && bookings[id].userId == userId then bookings[id].(status := Cancelled)
                       else bookings[id]
  {
    map id | id in bookings :: if id in ids && bookings[id].userId == userId then bookings[id].(status := Cancelled)
                               else bookings[id]
  }

  /** The named queues drained of `userId`'s bookings and the rest re-sent. */
  function WithdrawAll(queues: map<string, seq<Entry>>, names: set<string>, bookings: map<string, Booking>,
                       userId: string): (r: map<string, seq<Entry>>)
    ensures r.Keys == queues.Keys
    ensures forall n :: n in queues ==>
              r[n] == if n in names then Withdrawn(queues[n], bookings, userId) else queues[n]
  {
    map n | n in queues :: if n in names then Withdrawn(queues[n], bookings, userId) else queues[n]
  }

  /** removeFromOverlappingWaitlists' selection: the other conferences whose time
      span overlaps the booked one's and that have a waitlist queue. */
  function AffectedConferences(conferences: map<string, Conference>, booked: Conference): (r: set<string>)
    ensures forall cid :: cid in r <==>
              cid in conferences && cid != booked.id && BV.HasTimeOverlap(conferences[cid], booked)
              && conferences[cid].waitlistQueueId.Some?
  {
    set cid | cid in conferences && cid != booked.id && BV.HasTimeOverlap(conferences[cid], booked)
              && conferences[cid].waitlistQueueId.Some?
  }

  function QueuesOf(cids: set<string>): (r: set<string>)
    ensures forall cid :: cid in cids ==> QueueName(cid) in r
    ensures forall n :: n in r ==> exists cid :: cid in cids && n == QueueName(cid)
  {
    set cid | cid in cids :: QueueName(cid)
  }

  /** One more queue drained: the accumulated queue map grows by that queue's effect. */
  lemma WithdrawStepQueues(queues: map<string, seq<Entry>>, bookings: map<string, Booking>, names: set<string>,
                           n: string, userId: string)
    requires n in queues && n !in names
    ensures WithdrawAll(queues, names, bookings, userId)[n := Withdrawn(queues[n], bookings, userId)]
            == WithdrawAll(queues, names + {n}, bookings, userId)
  {
    var a := WithdrawAll(queues, names, bookings, userId)[n := Withdrawn(queues[n], bookings, userId)];
    var b := WithdrawAll(queues, names + {n}, bookings, userId);
    assert a.Keys == b.Keys;
    forall k | k in a
      ensures a[k] == b[k]
    {
    }
  }

  lemma MentionedStep(queues: map<string, seq<Entry>>, names: set<string>, n: string)
    requires n in queues
    ensures MentionedIds(queues, names + {n}) == MentionedIds(queues, names) + IdsOf(queues[n])
  {
    var m := MentionedIds(queues, names);
    var m' := MentionedIds(queues, names + {n});
    forall id | id in m'
      ensures id in m + IdsOf(queues[n])
    {
      var k :| k in names + {n} && k in queues && id in IdsOf(queues[k]);
    }
  }

  /** Cancelling in two rounds is cancelling the union once. */
  lemma CancelOwnedUnion(bookings: map<string, Booking>, a: set<string>, b: set<string>, userId: string)
    ensures CancelOwned(CancelOwned(bookings, a, userId), b, userId) == CancelOwned(bookings, a + b, userId)
  {
    var l := CancelOwned(CancelOwned(bookings, a, userId), b, userId);
    var r := CancelOwned(bookings, a + b, userId);
    assert l.Keys == r.Keys;
    forall id | id in l
      ensures l[id] == r[id]
    {
    }
  }

  /** Moving one element from the to-do set to the done set. */
  lemma MoveOne(todo: set<string>, done: set<string>, all: set<string>, x: string)
    requires x in todo && todo + done == all && todo !! done
    ensures (todo - {x}) + (done + {x}) == all && (todo - {x}) !! (done + {x}) && |todo - {x}| < |todo|
  {
  }

  lemma QueuesOfAdd(cids: set<string>, cid: string)
    requires cid !in cids
    ensures QueueName(cid) !in QueuesOf(cids)
    ensures QueuesOf(cids + {cid}) == QueuesOf(cids) + {QueueName(cid)}
  {
  }

  /** One more queue withdrawn from, on top of the ones in `names`: the queue map and
      the booking table follow WithdrawAll and CancelOwned over the larger set. The
      bookings cancelled so far change no owner, so the drain keeps the same
      entries as it would have on the original table. */
  lemma WithdrawOneMore(q0: map<string, seq<Entry>>, b0: map<string, Booking>, names: set<string>, n: string,
                        queues: map<string, seq<Entry>>, bookings: map<string, Booking>, userId: string)
    requires n in q0 && n !in names
    requires queues == WithdrawAll(q0, names, b0, userId)
    requires bookings == CancelOwned(b0, MentionedIds(q0, names), userId)
    ensures n in queues && queues[n] == q0[n]
    ensures queues[n := Withdrawn(queues[n], bookings, userId)] == WithdrawAll(q0, names + {n}, b0, userId)
    ensures CancelOwned(bookings, IdsOf(queues[n]), userId) == CancelOwned(b0, MentionedIds(q0, names + {n}), userId)
  {
    KeptSameOwners(q0[n], bookings, b0, userId);
    WithdrawStepQueues(q0, b0, names, n, userId);
    MentionedStep(q0, names, n);
    CancelOwnedUnion(b0, MentionedIds(q0, names), IdsOf(q0[n]), userId);
  }

  /** Withdrawing from the affected queues leaves every other queue, and every other
      user's booking, exactly as it was; none of the user's bookings stays on an
      affected queue. */
  lemma WithdrawAllSpec(queues: map<string, seq<Entry>>, bookings: map<string, Booking>, names: set<string>,
                        userId: string)
    ensures var r := WithdrawAll(queues, names, bookings, userId);
            forall n :: n in queues && n in names ==>
              forall e :: e in r[n] ==> e.bookingId in bookings && bookings[e.bookingId].userId != userId
    ensures var c := CancelOwned(bookings, MentionedIds(queues, names), userId);
            forall id :: id in bookings && bookings[id].userId != userId ==> c[id] == bookings[id]
  {
  }

  // ---------------------------------------------------------------------------
  // Promoting waitlisted bookings (processWaitlistQueue)

  /** The state processWaitlistQueue leaves: the booking table, the conference's
      free slots and how many messages it took off the head of the queue. */
  datatype Promotion = Promotion(bookings: map<string, Booking>, slots: int, consumed: nat)

  /** The loop of processWaitlistQueue as evidently intended: while slots are free
      and the queue is not empty, take the head (receive() consumes it). A missing
      booking makes the lookup throw and stops the loop; a booking that is no longer
      WAITLISTED is passed over, as the queue listener passes it over (lines
      494-517); a WAITLISTED booking becomes PROCESSING at `now` and takes a slot. */
  function PromoteHeads(slots: int, q: seq<Entry>, bookings: map<string, Booking>, now: int): (p: Promotion)
    ensures p.bookings.Keys == bookings.Keys
    ensures p.consumed <= |q|
    ensures slots <= 0 ==> p == Promotion(bookings, slots, 0)
    ensures slots > 0 ==> 0 <= p.slots <= slots && slots - p.slots <= p.consumed
    decreases |q|
  {
    if slots <= 0 || q == [] then Promotion(bookings, slots, 0)
    else if q[0].bookingId !in bookings then Promotion(bookings, slots, 1)
    else if bookings[q[0].bookingId].status != Waitlisted then
      var p := PromoteHeads(slots, q[1..], bookings, now);
      p.(consumed := p.consumed + 1)
    else
      var id := q[0].bookingId;
      var p := PromoteHeads(slots - 1, q[1..], bookings[id := bookings[id].(status := Processing, bookingTime := now)], now);
      p.(consumed := p.consumed + 1)
  }

  /** The booking `id` is among the first `k` messages of `q`. */
  predicate Consumed(q: seq<Entry>, k: int, id: string) {
    exists i :: 0 <= i < k && i < |q| && q[i].bookingId == id
  }

  lemma ConsumedShift(q: seq<Entry>, k: int)
    requires q != []
    ensures forall x :: Consumed(q[1..], k, x) ==> Consumed(q, k + 1, x)
  {
    forall x | Consumed(q[1..], k, x)
      ensures Consumed(q, k + 1, x)
    {
      var i :| 0 <= i < k && i < |q[1..]| && q[1..][i].bookingId == x;
      assert q[i + 1].bookingId == x;
    }
  }

  /** Only consumed WAITLISTED bookings change, and each of them becomes PROCESSING
      at `now`. */
  lemma {:induction false} PromotedRows(slots: int, q: seq<Entry>, bookings: map<string, Booking>, now: int)
    ensures var p := PromoteHeads(slots, q, bookings, now);
            forall id :: id in bookings ==>
              p.bookings[id] == bookings[id]
              || (bookings[id].status == Waitlisted
                  && p.bookings[id] == bookings[id].(status := Processing, bookingTime := now)
                  && Consumed(q, p.consumed, id))
    decreases |q|
  {
    if slots > 0 && q != [] && q[0].bookingId in bookings {
      var id := q[0].bookingId;
      if bookings[id].status != Waitlisted {
        PromotedRows(slots, q[1..], bookings, now);
        ConsumedShift(q, PromoteHeads(slots, q[1..], bookings, now).consumed);
      } else {
        var b' := bookings[id := bookings[id].(status := Processing, bookingTime := now)];
        PromotedRows(slots - 1, q[1..], b', now);
        var p := PromoteHeads(slots - 1, q[1..], b', now);
        PromotedRowsStep(bookings, p.bookings, q, p.consumed, now);
      }
    }
  }

  lemma PromotedRowsStep(bookings: map<string, Booking>, after: map<string, Booking>, q: seq<Entry>, k: int, now: int)
    requires q != [] && 0 <= k && q[0].bookingId in bookings && after.Keys == bookings.Keys
    requires bookings[q[0].bookingId].status == Waitlisted
    requires var id := q[0].bookingId;
             var b' := bookings[id := bookings[id].(status := Processing, bookingTime := now)];
             forall x :: x in b' ==>
               after[x] == b'[x] || (b'[x].status == Waitlisted
                                     && after[x] == b'[x].(status := Processing, bookingTime := now)
                                     && Consumed(q[1..], k, x))
    ensures forall x :: x in bookings ==>
              after[x] == bookings[x] || (bookings[x].status == Waitlisted
                                          && after[x] == bookings[x].(status := Processing, bookingTime := now)
                                          && Consumed(q, k + 1, x))
  {
    var id := q[0].bookingId;
    var b' := bookings[id := bookings[id].(status := Processing, bookingTime := now)];
    ConsumedShift(q, k);
    forall x | x in bookings
      ensures after[x] == bookings[x] || (bookings[x].status == Waitlisted
                                          && after[x] == bookings[x].(status := Processing, bookingTime := now)
                                          && Consumed(q, k + 1, x))
    {
      assert x in b';
      if x == id {
        assert after[x] == b'[x];
        assert q[0].bookingId == x;
      } else {
        assert b'[x] == bookings[x];
      }
    }
  }

  /** Every consumed message whose booking was WAITLISTED has promoted that booking
      to PROCESSING at `now`. */
  lemma {:induction false} PromotedConsumed(slots: int, q: seq<Entry>, bookings: map<string, Booking>, now: int)
    ensures var p := PromoteHeads(slots, q, bookings, now);
            forall i :: 0 <= i < p.consumed && q[i].bookingId in bookings && bookings[q[i].bookingId].status == Waitlisted ==>
              p.bookings[q[i].bookingId] == bookings[q[i].bookingId].(status := Processing, bookingTime := now)
    decreases |q|
  {
    var p := PromoteHeads(slots, q, bookings, now);
    if slots > 0 && q != [] && q[0].bookingId in bookings {
      var id := q[0].bookingId;
      if bookings[id].status != Waitlisted {
        PromotedConsumed(slots, q[1..], bookings, now);
        forall i | 0 <= i < p.consumed && q[i].bookingId in bookings && bookings[q[i].bookingId].status == Waitlisted
          ensures p.bookings[q[i].bookingId] == bookings[q[i].bookingId].(status := Processing, bookingTime := now)
        {
          assert i != 0;
          assert q[i] == q[1..][i - 1];
        }
      } else {
        var b' := bookings[id := bookings[id].(status := Processing, bookingTime := now)];
        assert p == PromoteHeads(slots - 1, q[1..], b', now).(consumed := p.consumed);
        PromotedConsumed(slots - 1, q[1..], b', now);
        PromoteKeepsOthers(slots - 1, q[1..], b', now, id);
        forall i | 0 <= i < p.consumed && q[i].bookingId in bookings && bookings[q[i].bookingId].status == Waitlisted
          ensures p.bookings[q[i].bookingId] == bookings[q[i].bookingId].(status := Processing, bookingTime := now)
        {
          var x := q[i].bookingId;
          if x == id {
            assert p.bookings[x] == b'[x];
          } else {
            assert i != 0;
            assert q[i] == q[1..][i - 1];
            assert b'[x] == bookings[x];
          }
        }
      }
    }
  }

  /** The bookings whose row a promotion changed. */
  function PromotedIds(before: map<string, Booking>, after: map<string, Booking>): (r: set<string>)
    ensures forall id :: id in r <==> id in before && id in after && after[id] != before[id]
  {
    set id | id in before && id in after && after[id] != before[id]
  }

  /** processWaitlistQueue takes exactly one slot per booking it promotes. */
  lemma {:induction false} PromotedCount(slots: int, q: seq<Entry>, bookings: map<string, Booking>, now: int)
    ensures var p := PromoteHeads(slots, q, bookings, now);
            slots - p.slots == |PromotedIds(bookings, p.bookings)|
    decreases |q|
  {
    var p := PromoteHeads(slots, q, bookings, now);
    if slots <= 0 || q == [] || q[0].bookingId !in bookings {
      assert PromotedIds(bookings, p.bookings) == {};
    } else if bookings[q[0].bookingId].status != Waitlisted {
      PromotedCount(slots, q[1..], bookings, now);
    } else {
      var id := q[0].bookingId;
      var x := bookings[id].(status := Processing, bookingTime := now);
      var b' := bookings[id := x];
      var p' := PromoteHeads(slots - 1, q[1..], b', now);
      assert p.bookings == p'.bookings && p.slots == p'.slots;
      PromotedCount(slots - 1, q[1..], b', now);
      PromoteKeepsOthers(slots - 1, q[1..], b', now, id);
      PromotedIdsStep(bookings, id, x, p'.bookings);
    }
  }

  /** A row that is not WAITLISTED is never touched by the loop. */
  lemma {:induction false} PromoteKeepsOthers(slots: int, q: seq<Entry>, bookings: map<string, Booking>, now: int,
                                              id: string)
    requires id in bookings && bookings[id].status != Waitlisted
    ensures PromoteHeads(slots, q, bookings, now).bookings[id] == bookings[id]
    decreases |q|
  {
    if slots > 0 && q != [] && q[0].bookingId in bookings {
      var h := q[0].bookingId;
      if bookings[h].status != Waitlisted {
        PromoteKeepsOthers(slots, q[1..], bookings, now, id);
      } else {
        PromoteKeepsOthers(slots - 1, q[1..], bookings[h := bookings[h].(status := Processing, bookingTime := now)], now, id);
      }
    }
  }

  lemma PromotedIdsStep(bookings: map<string, Booking>, id: string, x: Booking, after: map<string, Booking>)
    requires id in bookings && x != bookings[id] && id in after && after[id] == x
    ensures var rest := PromotedIds(bookings[id := x], after);
            PromotedIds(bookings, after) == rest + {id} && id !in rest
            && |PromotedIds(bookings, after)| == |rest| + 1
  {
  }

  /** When every queued booking exists the loop only stops for lack of slots or
      messages. */
  lemma {:induction false} PromoteAll(slots: int, q: seq<Entry>, bookings: map<string, Booking>, now: int)
    requires forall i :: 0 <= i < |q| ==> q[i].bookingId in bookings
    ensures var p := PromoteHeads(slots, q, bookings, now);
            p.slots <= 0 || p.consumed == |q|
    decreases |q|
  {
    if slots > 0 && q != [] {
      var id := q[0].bookingId;
      var b' := if bookings[id].status != Waitlisted then bookings
                else bookings[id := bookings[id].(status := Processing, bookingTime := now)];
      assert forall i :: 0 <= i < |q[1..]| ==> q[1..][i].bookingId in b' by {
        forall i | 0 <= i < |q[1..]| ensures q[1..][i].bookingId in b' {
          assert q[1..][i] == q[i + 1];
        }
      }
      PromoteAll(if bookings[id].status != Waitlisted then slots else slots - 1, q[1..], b', now);
    }
  }

  /** When the queue holds distinct WAITLISTED bookings, every consumed message takes
      one slot. */
  lemma {:induction false} PromoteFresh(slots: int, q: seq<Entry>, bookings: map<string, Booking>, now: int)
    requires forall i :: 0 <= i < |q| ==> q[i].bookingId in bookings && bookings[q[i].bookingId].status == Waitlisted
    requires forall i, j :: 0 <= i < j < |q| ==> q[i].bookingId != q[j].bookingId
    ensures var p := PromoteHeads(slots, q, bookings, now);
            slots > 0 ==> slots - p.slots == p.consumed
    decreases |q|
  {
    if slots > 1 && q != [] {
      var id := q[0].bookingId;
      var b' := bookings[id := bookings[id].(status := Processing, bookingTime := now)];
      forall i | 0 <= i < |q[1..]|
        ensures q[1..][i].bookingId in b' && b'[q[1..][i].bookingId].status == Waitlisted
      {
        assert q[1..][i] == q[i + 1];
      }
      forall i, j | 0 <= i < j < |q[1..]|
        ensures q[1..][i].bookingId != q[1..][j].bookingId
      {
        assert q[1..][i] == q[i + 1] && q[1..][j] == q[j + 1];
      }
      PromoteFresh(slots - 1, q[1..], b', now);
    }
  }

  /** processWaitlistQueue as written: line 335 casts the converted message to
      Booking, but the service publishes BookingMessage, so the cast throws for every
      message; the handler breaks out of the loop after receive() has already
      consumed the head. Nothing is promoted and no slot is taken. */
  function ProcessAsWritten(slots: int, q: seq<Entry>, bookings: map<string, Booking>): (p: Promotion)
    ensures p.bookings == bookings && p.slots == slots && p.consumed <= 1
  {
    if slots > 0 && q != [] then Promotion(bookings, slots, 1) else Promotion(bookings, slots, 0)
  }

  /** The head the written loop consumes is lost: its booking stays WAITLISTED with no
      message left to promote it, where the intended loop makes it PROCESSING. */
  lemma AsWrittenLosesHead(slots: int, q: seq<Entry>, bookings: map<string, Booking>, now: int)
    requires slots > 0 && q != [] && q[0].bookingId in bookings && bookings[q[0].bookingId].status == Waitlisted
    ensures var w := ProcessAsWritten(slots, q, bookings);
            w.consumed == 1 && w.bookings[q[0].bookingId].status == Waitlisted
    ensures var p := PromoteHeads(slots, q, bookings, now);
            p.consumed >= 1 && p.bookings[q[0].bookingId].status == Processing && p.slots < slots
  {
    var id := q[0].bookingId;
    var b' := bookings[id := bookings[id].(status := Processing, bookingTime := now)];
    var rest := PromoteHeads(slots - 1, q[1..], b', now);
    PromotedRows(slots - 1, q[1..], b', now);
  }

  /** The `(Booking)` cast of lines 335-336 applied to a concrete message: the
      queue holds one message of a waitlisted booking "b1" and one slot is free. */
  lemma AsWrittenExample()
    ensures var q := [Entry("b1", 0)];
            var bookings := map["b1" := Booking("b1", "u1", "c1", 0, Waitlisted)];
            ProcessAsWritten(1, q, bookings).bookings["b1"].status == Waitlisted
            && PromoteHeads(1, q, bookings, 5).bookings["b1"] == Booking("b1", "u1", "c1", 5, Processing)
  {
    var q := [Entry("b1", 0)];
    var bookings := map["b1" := Booking("b1", "u1", "c1", 0, Waitlisted)];
    assert q[1..] == [];
  }

  /** cancelBooking's basicGet of the queue head as written (lines 283-305): the
      head's booking becomes PROCESSING at `now` whatever its status and the message
      is acknowledged; a missing booking makes the lookup throw and the message is
      nacked back in place. */
  function PromoteNextAsWritten(q: seq<Entry>, bookings: map<string, Booking>, now: int): (r: (seq<Entry>, map<string, Booking>))
    ensures r.1.Keys == bookings.Keys
    ensures r.0 == q || (q != [] && r.0 == q[1..])
    ensures q != [] && q[0].bookingId in bookings ==>
              && r.0 == q[1..]
              && r.1[q[0].bookingId] == bookings[q[0].bookingId].(status := Processing, bookingTime := now)
              && forall id :: id in bookings && id != q[0].bookingId ==> r.1[id] == bookings[id]
    ensures q == [] || q[0].bookingId !in bookings ==> r == (q, bookings)
  {
    if q != [] && q[0].bookingId in bookings then
      var id := q[0].bookingId;
      (q[1..], bookings[id := bookings[id].(status := Processing, bookingTime := now)])
    else (q, bookings)
  }

  /** cancelBooking marks a booking CANCELLED but leaves its message on the queue.
      When that message reaches the head, the code as written revives the booking
      next to the user's live booking for the same conference. */
  lemma AsWrittenRevivesCancelled(q: seq<Entry>, bookings: map<string, Booking>, now: int, other: string)
    requires q != [] && q[0].bookingId in bookings && bookings[q[0].bookingId].status == Cancelled
    requires other in bookings && other != q[0].bookingId
    requires IsLive(bookings[other], bookings[q[0].bookingId].userId, bookings[q[0].bookingId].conferenceId)
    ensures !OneLivePerPair(PromoteNextAsWritten(q, bookings, now).1)
  {
    var id := q[0].bookingId;
    var r := PromoteNextAsWritten(q, bookings, now).1;
    assert r[other] == bookings[other] && r[id].status == Processing;
    assert IsLive(r[other], r[id].userId, r[id].conferenceId);
  }

  /** The state cancelBooking(a1) reaches before its basicGet, after: with one slot,
      v books a1 (CONFIRMED); u books b2 (WAITLISTED, queued); u cancels b2 (its
      message stays); u books b3 (WAITLISTED, queued). Each pair has one live
      booking; as written the basicGet gives u two, the corrected one keeps one. */
  lemma AsWrittenReviveExample()
    ensures var bookings := map["a1" := Booking("a1", "v", "c", 0, Confirmed),
                                "b2" := Booking("b2", "u", "c", 1, Cancelled),
                                "b3" := Booking("b3", "u", "c", 2, Waitlisted)];
            var q := [Entry("b2", 0), Entry("b3", 0)];
            OneLivePerPair(bookings)
            && !OneLivePerPair(PromoteNextAsWritten(q, bookings, 3).1)
            && PromoteNext(q, bookings, 3) == ([Entry("b3", 0)], bookings)
  {
    var bookings := map["a1" := Booking("a1", "v", "c", 0, Confirmed),
                        "b2" := Booking("b2", "u", "c", 1, Cancelled),
                        "b3" := Booking("b3", "u", "c", 2, Waitlisted)];
    var q := [Entry("b2", 0), Entry("b3", 0)];
    assert OneLivePerPair(bookings) by {
      assert bookings.Keys == {"a1", "b2", "b3"};
    }
    assert !OneLivePerPair(PromoteNextAsWritten(q, bookings, 3).1) by {
      AsWrittenRevivesCancelled(q, bookings, 3, "b3");
    }
    assert PromoteNext(q, bookings, 3) == ([Entry("b3", 0)], bookings) by {
      assert q[1..] == [Entry("b3", 0)];
    }
  }

  /** cancelBooking's basicGet as evidently intended: a head whose booking is still
      WAITLISTED becomes PROCESSING at `now` and is acknowledged; the message of a
      booking that was cancelled or promoted meanwhile is acknowledged and dropped;
      a missing booking makes the lookup throw and the message is nacked back in
      place. */
  function PromoteNext(q: seq<Entry>, bookings: map<string, Booking>, now: int): (r: (seq<Entry>, map<string, Booking>))
    ensures r.1.Keys == bookings.Keys
    ensures r.0 == q || (q != [] && r.0 == q[1..])
    ensures forall id :: id in bookings ==>
              r.1[id] == bookings[id]
              || (q != [] && id == q[0].bookingId && bookings[id].status == Waitlisted
                  && r.1[id] == bookings[id].(status := Processing, bookingTime := now))
  {
    if q != [] && q[0].bookingId in bookings then
      var id := q[0].bookingId;
      if bookings[id].status == Waitlisted then
        (q[1..], bookings[id := bookings[id].(status := Processing, bookingTime := now)])
      else (q[1..], bookings)
    else (q, bookings)
  }

  /** basicGet treats the head as one round of the corrected promotion loop over that
      single message; the one difference is that a missing booking's message stays
      on the queue, where receive() would have consumed it. */
  lemma PromoteNextIsOneSlot(q: seq<Entry>, bookings: map<string, Booking>, now: int)
    ensures var h := if q == [] then q else q[..1];
            var r := PromoteNext(q, bookings, now);
            var p := PromoteHeads(1, h, bookings, now);
            r.1 == p.bookings && (r.0 == q[p.consumed..] <==> (q == [] || q[0].bookingId in bookings))
  {
    if q != [] {
      var h := q[..1];
      assert h[0] == q[0] && h[1..] == [];
      if q[0].bookingId !in bookings {
        assert q[1..] != q by {
          assert |q[1..]| != |q|;
        }
      }
    }
  }

  // ---------------------------------------------------------------------------
  // The scheduled sweeps

  /** autoCancelExpiredWaitlist's selection: the started conferences that have a
      waitlist queue. */
  function StartedWithQueue(conferences: map<string, Conference>, now: int): (r: set<string>)
    ensures forall cid :: cid in r <==>
              cid in conferences && now > conferences[cid].start && conferences[cid].waitlistQueueId.Some?
  {
    set cid | cid in conferences && now > conferences[cid].start && conferences[cid].waitlistQueueId.Some?
  }

  /** A WAITLISTED booking of one of the conferences `cids`. */
  predicate Stranded(b: Booking, cids: set<string>) {
    b.conferenceId in cids && b.status == Waitlisted
  }

  /** The bookings after every WAITLISTED booking of the conferences `cids` was
      cancelled. */
  function CancelStranded(bookings: map<string, Booking>, cids: set<string>): (r: map<string, Booking>)
    ensures r.Keys == bookings.Keys
    ensures forall id :: id in bookings ==>
              r[id] == if Stranded(bookings[id], cids) then bookings[id].(status := Cancelled) else bookings[id]
  {
    map id | id in bookings :: if Stranded(bookings[id], cids) then bookings[id].(status := Cancelled) else bookings[id]
  }

  /** The conferences `cids` without their queue ids. */
  function Unqueued(conferences: map<string, Conference>, cids: set<string>): (r: map<string, Conference>)
    ensures r.Keys == conferences.Keys
    ensures forall cid :: cid in conferences ==>
              r[cid] == if cid in cids then conferences[cid].(waitlistQueueId := None) else conferences[cid]
  {
    map cid | cid in conferences :: if cid in cids then conferences[cid].(waitlistQueueId := None) else conferences[cid]
  }

  /** The named queues emptied (they stay declared). */
  function Cleared(queues: map<string, seq<Entry>>, names: set<string>): (r: map<string, seq<Entry>>)
    ensures r.Keys == queues.Keys
    ensures forall n :: n in queues ==> r[n] == if n in names then [] else queues[n]
  {
    map n | n in queues :: if n in names then [] else queues[n]
  }

  /** autoCancelExpiredWaitlist after the conferences `done`, plus one more: the
      bookings, */
  lemma StrandedOneMore(b0: map<string, Booking>, done: set<string>, cid: string)
    ensures CancelStranded(CancelStranded(b0, done), {cid}) == CancelStranded(b0, done + {cid})
  {
    var l := CancelStranded(CancelStranded(b0, done), {cid});
    var r := CancelStranded(b0, done + {cid});
    assert l.Keys == r.Keys;
    forall id | id in l
      ensures l[id] == r[id]
    {
    }
  }

  /** the conferences */
  lemma UnqueuedOneMore(c0: map<string, Conference>, done: set<string>, cid: string)
    requires cid in c0 && cid !in done
    ensures var cs := Unqueued(c0, done);
            cs[cid := cs[cid].(waitlistQueueId := None)] == Unqueued(c0, done + {cid})
  {
    var cs := Unqueued(c0, done);
    var l := cs[cid := cs[cid].(waitlistQueueId := None)];
    var r := Unqueued(c0, done + {cid});
    assert l.Keys == r.Keys;
    forall x | x in l
      ensures l[x] == r[x]
    {
    }
  }

  /** After the purge no started conference keeps a queue, so a second run of
      autoCancelExpiredWaitlist at the same time finds nothing to do. */
  lemma SweepLeavesNoQueue(conferences: map<string, Conference>, now: int)
    ensures StartedWithQueue(Unqueued(conferences, StartedWithQueue(conferences, now)), now) == {}
  {
    var u := Unqueued(conferences, StartedWithQueue(conferences, now));
    forall cid | cid in u
      ensures cid !in StartedWithQueue(u, now)
    {
      assert u[cid].start == conferences[cid].start;
    }
  }

  /** and the queues. */
  lemma ClearedOneMore(q0: map<string, seq<Entry>>, done: set<string>, cid: string)
    requires cid !in done && QueueName(cid) in q0
    ensures Cleared(q0, QueuesOf(done))[QueueName(cid) := []] == Cleared(q0, QueuesOf(done + {cid}))
  {
    QueuesOfAdd(done, cid);
    var l := Cleared(q0, QueuesOf(done))[QueueName(cid) := []];
    var r := Cleared(q0, QueuesOf(done + {cid}));
    assert l.Keys == r.Keys;
    forall n | n in l
      ensures l[n] == r[n]
    {
    }
  }

  /** What checkProcessingBookingsExpiration leaves: the booking table, the channel,
      and whether a publish threw and ended the sweep. */
  datatype Sweep = Sweep(bookings: map<string, Booking>, channel: Channel, aborted: bool)

  /** checkProcessingBookingsExpiration over the PROCESSING bookings `ids`, in the
      order findByStatus returns them: a booking whose confirmation window has
      passed goes back to WAITLISTED at `now` and is enqueued again; `failing`
      names the bookings whose publish throws, which ends the sweep. */
  function ExpireAll(bookings: map<string, Booking>, ch: Channel, ids: seq<string>, now: int,
                     failing: set<string>): (r: Sweep)
    ensures r.bookings.Keys == bookings.Keys
    decreases |ids|
  {
    if ids == [] then Sweep(bookings, ch, false)
    else
      var id := ids[0];
      if id !in bookings || bookings[id].bookingTime + ConfirmWindow >= now then
        ExpireAll(bookings, ch, ids[1..], now, failing)
      else if bookings[id].conferenceId !in ch.conferences then
        // getConference throws
        Sweep(bookings, ch, true)
      else
        var b := bookings[id].(status := Waitlisted, bookingTime := now);
        var e := Enqueue(ch, b, b.conferenceId, id in failing);
        if e.1 == SendFailed then Sweep(bookings[id := b], e.0, true)
        else ExpireAll(bookings[id := b], e.0, ids[1..], now, failing)
  }

  /** Whatever happens, the sweep changes only listed rows whose window had passed,
      each to WAITLISTED at `now`. */
  lemma {:induction false} ExpireAllRows(bookings: map<string, Booking>, ch: Channel, ids: seq<string>, now: int,
                                         failing: set<string>)
    ensures var r := ExpireAll(bookings, ch, ids, now, failing);
            forall id :: id in bookings && r.bookings[id] != bookings[id] ==>
              && id in ids && bookings[id].bookingTime + ConfirmWindow < now
              && r.bookings[id] == bookings[id].(status := Waitlisted, bookingTime := now)
    decreases |ids|
  {
    if ids != [] {
      var id := ids[0];
      assert forall x :: x in ids[1..] ==> x in ids;
      if id !in bookings || bookings[id].bookingTime + ConfirmWindow >= now {
        ExpireAllRows(bookings, ch, ids[1..], now, failing);
      } else if bookings[id].conferenceId in ch.conferences {
        var b := bookings[id].(status := Waitlisted, bookingTime := now);
        var e := Enqueue(ch, b, b.conferenceId, id in failing);
        if e.1 != SendFailed {
          ExpireAllRows(bookings[id := b], e.0, ids[1..], now, failing);
        }
      }
    }
  }

  /** Whatever happens, the sweep only appends to queues, names queues and records
      keys. */
  lemma {:induction false} ExpireAllGrows(bookings: map<string, Booking>, ch: Channel, ids: seq<string>, now: int,
                                          failing: set<string>)
    ensures var r := ExpireAll(bookings, ch, ids, now, failing);
            ChannelGrows(ch, r.channel) && ch.processed <= r.channel.processed
    decreases |ids|
  {
    if ids != [] {
      var id := ids[0];
      if id !in bookings || bookings[id].bookingTime + ConfirmWindow >= now {
        ExpireAllGrows(bookings, ch, ids[1..], now, failing);
      } else if bookings[id].conferenceId in ch.conferences {
        var b := bookings[id].(status := Waitlisted, bookingTime := now);
        var e := Enqueue(ch, b, b.conferenceId, id in failing);
        EnqueueGrows(ch, b, b.conferenceId, id in failing);
        if e.1 != SendFailed {
          ExpireAllGrows(bookings[id := b], e.0, ids[1..], now, failing);
          ChannelGrowsTrans(ch, e.0, ExpireAll(bookings[id := b], e.0, ids[1..], now, failing).channel);
        }
      }
    }
  }

  lemma ExpireAllUnfold(bookings: map<string, Booking>, ch: Channel, ids: seq<string>, now: int, failing: set<string>)
    requires ids != [] && ids[0] in bookings && bookings[ids[0]].conferenceId in ch.conferences
    ensures var id := ids[0];
            var r := ExpireAll(bookings, ch, ids, now, failing);
            if bookings[id].bookingTime + ConfirmWindow >= now then r == ExpireAll(bookings, ch, ids[1..], now, failing)
            else
              var b := bookings[id].(status := Waitlisted, bookingTime := now);
              var e := Enqueue(ch, b, b.conferenceId, id in failing);
              r == if e.1 == SendFailed then Sweep(bookings[id := b], e.0, true)
                   else ExpireAll(bookings[id := b], e.0, ids[1..], now, failing)
  {
  }

  /** With a working broker, the sweep over distinct ids moves exactly the listed
      bookings whose window has passed back to WAITLISTED at `now`, leaves every
      other row alone, and records each moved booking's new idempotency key
      (ExpireAllRequeues shows where the message goes). */
  lemma {:induction false} ExpireAllSpec(bookings: map<string, Booking>, ch: Channel, ids: seq<string>, now: int,
                                         failing: set<string>)
    requires forall i, j :: 0 <= i < j < |ids| ==> ids[i] != ids[j]
    requires forall id :: id in bookings ==> bookings[id].id == id && bookings[id].conferenceId in ch.conferences
    requires forall i :: 0 <= i < |ids| ==> ids[i] !in failing
    ensures var r := ExpireAll(bookings, ch, ids, now, failing);
            !r.aborted && r.bookings.Keys == bookings.Keys
            && ch.processed <= r.channel.processed
            && forall id :: id in bookings ==>
                 if id in ids && bookings[id].bookingTime + ConfirmWindow < now
                 then r.bookings[id] == bookings[id].(status := Waitlisted, bookingTime := now)
                      && IdempotencyKey(id, now) in r.channel.processed
                 else r.bookings[id] == bookings[id]
    decreases |ids|
  {
    if ids != [] {
      var id := ids[0];
      assert forall i, j :: 0 <= i < j < |ids[1..]| ==> ids[1..][i] != ids[1..][j] by {
        forall i, j | 0 <= i < j < |ids[1..]| ensures ids[1..][i] != ids[1..][j] {
          assert ids[1..][i] == ids[i + 1] && ids[1..][j] == ids[j + 1];
        }
      }
      assert forall i :: 0 <= i < |ids[1..]| ==> ids[1..][i] !in failing by {
        forall i | 0 <= i < |ids[1..]| ensures ids[1..][i] !in failing {
          assert ids[1..][i] == ids[i + 1];
        }
      }
      assert id !in ids[1..];
      assert forall x :: x in ids <==> x == id || x in ids[1..] by {
        assert ids == [id] + ids[1..];
      }
      if id !in bookings || bookings[id].bookingTime + ConfirmWindow >= now {
        ExpireAllSpec(bookings, ch, ids[1..], now, failing);
      } else {
        var b := bookings[id].(status := Waitlisted, bookingTime := now);
        var e := Enqueue(ch, b, b.conferenceId, false);
        var rows := bookings[id := b];
        assert IdempotencyKey(id, now) in e.0.processed && ch.processed <= e.0.processed;
        assert forall x :: x in rows ==> rows[x].id == x && rows[x].conferenceId in e.0.conferences;
        ExpireAllSpec(rows, e.0, ids[1..], now, failing);
      }
    }
  }

  /** Every conference is keyed by its id and a queue id it carries is declared. */
  predicate QueueIdsDeclared(ch: Channel) {
    forall cid :: cid in ch.conferences ==>
      && ch.conferences[cid].id == cid
      && (ch.conferences[cid].waitlistQueueId.Some? ==> ch.conferences[cid].waitlistQueueId.value in ch.queues)
  }

  /** A successful enqueue of a booking with a new key, as EnqueueAppends gives
      it, in the terms the sweep needs. */
  lemma EnqueueLands(ch: Channel, b: Booking, cid: string)
    requires cid in ch.conferences && QueueIdsDeclared(ch)
    requires IdempotencyKey(b.id, b.bookingTime) !in ch.processed
    ensures var e := Enqueue(ch, b, cid, false);
            var c := e.0.conferences[cid];
            && e.1 == Sent && QueueIdsDeclared(e.0)
            && e.0.processed == ch.processed + {IdempotencyKey(b.id, b.bookingTime)}
            && c.waitlistQueueId.Some? && c.waitlistQueueId.value in e.0.queues
            && Entry(b.id, 0) in e.0.queues[c.waitlistQueueId.value]
  {
    EnqueueAppends(ch, b, cid);
  }

  predicate Distinct(ids: seq<string>) {
    forall i, j :: 0 <= i < j < |ids| ==> ids[i] != ids[j]
  }

  /** None of the listed bookings' publishes throws, and none of their keys at
      `now` has been recorded. */
  predicate FreshKeys(ids: seq<string>, now: int, failing: set<string>, processed: set<IdempotencyKey>) {
    forall i :: 0 <= i < |ids| ==> ids[i] !in failing && IdempotencyKey(ids[i], now) !in processed
  }

  lemma DistinctTail(ids: seq<string>)
    requires ids != [] && Distinct(ids)
    ensures Distinct(ids[1..]) && ids[0] !in ids[1..]
    ensures forall x :: x in ids <==> x == ids[0] || x in ids[1..]
  {
    var tail := ids[1..];
    forall i, j | 0 <= i < j < |tail|
      ensures tail[i] != tail[j]
    {
      assert tail[i] == ids[i + 1] && tail[j] == ids[j + 1];
    }
    assert ids == [ids[0]] + tail;
  }

  lemma FreshKeysTail(ids: seq<string>, now: int, failing: set<string>, processed: set<IdempotencyKey>,
                      extra: set<IdempotencyKey>)
    requires ids != [] && Distinct(ids) && FreshKeys(ids, now, failing, processed)
    requires extra <= {IdempotencyKey(ids[0], now)}
    ensures FreshKeys(ids[1..], now, failing, processed + extra)
  {
    var tail := ids[1..];
    forall i | 0 <= i < |tail|
      ensures tail[i] !in failing && IdempotencyKey(tail[i], now) !in processed + extra
    {
      assert tail[i] == ids[i + 1];
    }
  }

  /** The sweep left a message for booking `id` on the queue named by conference
      `cid`. */
  predicate Landed(ch: Channel, cid: string, id: string) {
    && cid in ch.conferences && ch.conferences[cid].waitlistQueueId.Some?
    && ch.conferences[cid].waitlistQueueId.value in ch.queues
    && Entry(id, 0) in ch.queues[ch.conferences[cid].waitlistQueueId.value]
  }

  predicate AllLanded(r: Sweep, bookings: map<string, Booking>, ids: seq<string>, now: int) {
    forall id :: id in bookings && id in ids && bookings[id].bookingTime + ConfirmWindow < now ==>
      Landed(r.channel, bookings[id].conferenceId, id)
  }

  /** One expiring step of ExpireAllRequeues: the head's message lands, and what
      the rest of the sweep adds does not move it. */
  lemma ExpireStepLands(bookings: map<string, Booking>, ch: Channel, ids: seq<string>, now: int,
                        failing: set<string>)
    requires ids != [] && Distinct(ids) && FreshKeys(ids, now, failing, ch.processed) && QueueIdsDeclared(ch)
    requires ids[0] in bookings && bookings[ids[0]].id == ids[0] && bookings[ids[0]].conferenceId in ch.conferences
    requires bookings[ids[0]].bookingTime + ConfirmWindow < now
    requires var b := bookings[ids[0]].(status := Waitlisted, bookingTime := now);
             var e := Enqueue(ch, b, b.conferenceId, false);
             AllLanded(ExpireAll(bookings[ids[0] := b], e.0, ids[1..], now, failing), bookings[ids[0] := b], ids[1..], now)
    ensures AllLanded(ExpireAll(bookings, ch, ids, now, failing), bookings, ids, now)
  {
    var id := ids[0];
    var b := bookings[id].(status := Waitlisted, bookingTime := now);
    var cid := b.conferenceId;
    var e := Enqueue(ch, b, cid, false);
    var rows := bookings[id := b];
    EnqueueLands(ch, b, cid);
    var r := ExpireAll(rows, e.0, ids[1..], now, failing);
    assert ExpireAll(bookings, ch, ids, now, failing) == r;
    ExpireAllGrows(rows, e.0, ids[1..], now, failing);
    DistinctTail(ids);
    var qid := e.0.conferences[cid].waitlistQueueId.value;
    assert e.0.queues[qid] <= r.channel.queues[qid];
    assert Landed(r.channel, cid, id);
  }

  /** With a working broker and queue ids that are declared, every booking the
      sweep moves back to WAITLISTED ends up with a message at the default
      priority on the queue its conference names, as long as its new key had not
      been recorded. */
  lemma {:induction false} ExpireAllRequeues(bookings: map<string, Booking>, ch: Channel, ids: seq<string>,
                                             now: int, failing: set<string>)
    requires Distinct(ids) && FreshKeys(ids, now, failing, ch.processed) && QueueIdsDeclared(ch)
    requires forall id :: id in bookings ==> bookings[id].id == id && bookings[id].conferenceId in ch.conferences
    ensures AllLanded(ExpireAll(bookings, ch, ids, now, failing), bookings, ids, now)
    decreases |ids|
  {
    if ids != [] {
      var id := ids[0];
      DistinctTail(ids);
      if id !in bookings || bookings[id].bookingTime + ConfirmWindow >= now {
        FreshKeysTail(ids, now, failing, ch.processed, {});
        assert ch.processed + {} == ch.processed;
        ExpireAllRequeues(bookings, ch, ids[1..], now, failing);
      } else {
        var b := bookings[id].(status := Waitlisted, bookingTime := now);
        var e := Enqueue(ch, b, b.conferenceId, false);
        EnqueueLands(ch, b, b.conferenceId);
        FreshKeysTail(ids, now, failing, ch.processed, {IdempotencyKey(id, now)});
        ExpireAllRequeues(bookings[id := b], e.0, ids[1..], now, failing);
        ExpireStepLands(bookings, ch, ids, now, failing);
      }
    }
  }

  // ---------------------------------------------------------------------------
  // Facts the engine's methods use to keep the state consistent

  lemma IdsOfAppend(q: seq<Entry>, e: Entry)
    ensures IdsOf(q + [e]) == IdsOf(q) + {e.bookingId}
  {
    var l := IdsOf(q + [e]);
    forall x | x in IdsOf(q) ensures x in l {
      var i :| 0 <= i < |q| && q[i].bookingId == x;
      assert (q + [e])[i] == q[i];
    }
    assert (q + [e])[|q|] == e;
  }

  /** Cancelling one more id. */
  lemma CancelOwnedAdd(bookings: map<string, Booking>, ids: set<string>, id: string, userId: string)
    ensures var c := CancelOwned(bookings, ids, userId);
            CancelOwned(bookings, ids + {id}, userId)
            == if id in bookings && bookings[id].userId == userId then c[id := bookings[id].(status := Cancelled)] else c
  {
    var c := CancelOwned(bookings, ids, userId);
    var l := CancelOwned(bookings, ids + {id}, userId);
    var r := if id in bookings && bookings[id].userId == userId then c[id := bookings[id].(status := Cancelled)] else c;
    assert l.Keys == r.Keys;
    forall x | x in l
      ensures l[x] == r[x]
    {
    }
  }

  /** What the drain keeps and re-sends is a well-formed queue again. */
  lemma WithdrawnOk(q: seq<Entry>, bookings: map<string, Booking>, userId: string)
    requires QueueOk(q)
    ensures QueueOk(Withdrawn(q, bookings, userId))
  {
    WithdrawnTiered(q, bookings, userId);
    var k := Kept(q, bookings, userId);
    KeptMembers(q, bookings, userId);
    var w := Withdrawn(q, bookings, userId);
    forall i | 0 <= i < |w|
      ensures UuidShaped(w[i].bookingId)
    {
      assert k[i] in k;
      var j :| 0 <= j < |q| && q[j] == k[i];
    }
  }

  lemma QueueSuffixOk(q: seq<Entry>, k: nat)
    requires QueueOk(q) && k <= |q|
    ensures QueueOk(q[k..])
  {
    var r := q[k..];
    forall i, j | 0 <= i < j < |r|
      ensures r[i].priority >= r[j].priority
    {
      assert r[i] == q[k + i] && r[j] == q[k + j];
    }
  }

  /** Promoting rows to PROCESSING changes no id and no conference. */
  lemma PromotedBookingsOk(bookings: map<string, Booking>, conferences: map<string, Conference>,
                           slots: int, q: seq<Entry>, now: int)
    requires BookingsOk(bookings, conferences)
    ensures BookingsOk(PromoteHeads(slots, q, bookings, now).bookings, conferences)
  {
    var p := PromoteHeads(slots, q, bookings, now);
    PromotedRows(slots, q, bookings, now);
    forall id | id in p.bookings
      ensures p.bookings[id].id == id && UuidShaped(id) && p.bookings[id].conferenceId in conferences
    {
      assert id in bookings;
    }
  }

  /** processWaitlistQueue keeps the state consistent. */
  lemma PromotionConsistent(bookings: map<string, Booking>, conferences: map<string, Conference>,
                            queues: map<string, seq<Entry>>, processed: set<IdempotencyKey>, cid: string, now: int)
    requires Consistent(bookings, conferences, queues, processed)
    requires cid in conferences && conferences[cid].waitlistQueueId.Some?
    ensures var c := conferences[cid];
            var qid := c.waitlistQueueId.value;
            qid in queues
            && var p := PromoteHeads(c.availableSlots, queues[qid], bookings, now);
            Consistent(p.bookings, conferences[cid := c.(availableSlots := p.slots)],
                       queues[qid := queues[qid][p.consumed..]], processed)
  {
    var c := conferences[cid];
    assert ConferenceOk(cid, c, queues);
    var qid := c.waitlistQueueId.value;
    var p := PromoteHeads(c.availableSlots, queues[qid], bookings, now);
    PromotedBookingsOk(bookings, conferences, c.availableSlots, queues[qid], now);
    TakeSlotConsistent(p.bookings, conferences, queues, processed, cid, p.slots - c.availableSlots);
    assert QueueOk(queues[qid]);
    QueueSuffixOk(queues[qid], p.consumed);
    var queues' := queues[qid := queues[qid][p.consumed..]];
    ConferencesOkMoreQueues(conferences[cid := c.(availableSlots := p.slots)], queues, queues');
  }

  /** cancelBooking's promotion of the head keeps the state consistent. */
  lemma PromoteNextConsistent(bookings: map<string, Booking>, conferences: map<string, Conference>,
                              queues: map<string, seq<Entry>>, processed: set<IdempotencyKey>, qid: string, now: int)
    requires Consistent(bookings, conferences, queues, processed) && qid in queues
    ensures var r := PromoteNext(queues[qid], bookings, now);
            Consistent(r.1, conferences, queues[qid := r.0], processed)
  {
    var q := queues[qid];
    var r := PromoteNext(q, bookings, now);
    assert QueueOk(q);
    if q != [] {
      QueueSuffixOk(q, 1);
    }
    assert BookingsOk(r.1, conferences) by {
      forall id | id in r.1
        ensures r.1[id].id == id && UuidShaped(id) && r.1[id].conferenceId in conferences
      {
        assert id in bookings;
      }
    }
    ConferencesOkMoreQueues(conferences, queues, queues[qid := r.0]);
  }

  /** Changing booking statuses keeps the state consistent. */
  lemma CancelOwnedConsistent(bookings: map<string, Booking>, conferences: map<string, Conference>,
                              queues: map<string, seq<Entry>>, processed: set<IdempotencyKey>,
                              ids: set<string>, userId: string)
    requires Consistent(bookings, conferences, queues, processed)
    ensures Consistent(CancelOwned(bookings, ids, userId), conferences, queues, processed)
  {
    var r := CancelOwned(bookings, ids, userId);
    assert BookingsOk(r, conferences) by {
      forall id | id in r
        ensures r[id].id == id && UuidShaped(id) && r[id].conferenceId in conferences
      {
        assert id in bookings;
      }
    }
    assert r.Keys == bookings.Keys;
  }

  lemma UpdateTwice<K, V>(m: map<K, V>, k: K, a: V, b: V)
    ensures m[k := a][k := b] == m[k := b]
  {
  }

  /** Withdrawing a user from one queue keeps the state consistent. */
  lemma WithdrawConsistent(bookings: map<string, Booking>, conferences: map<string, Conference>,
                           queues: map<string, seq<Entry>>, processed: set<IdempotencyKey>,
                           qid: string, userId: string)
    requires Consistent(bookings, conferences, queues, processed) && qid in queues
    ensures Consistent(CancelOwned(bookings, IdsOf(queues[qid]), userId), conferences,
                       queues[qid := Withdrawn(queues[qid], bookings, userId)], processed)
  {
    var q := queues[qid];
    var rows := CancelOwned(bookings, IdsOf(q), userId);
    var after := queues[qid := Withdrawn(q, bookings, userId)];
    CancelOwnedConsistent(bookings, conferences, queues, processed, IdsOf(q), userId);
    assert QueueOk(q);
    WithdrawnOk(q, bookings, userId);
    QueuesOkUpdate(queues, qid, Withdrawn(q, bookings, userId));
    ConferencesOkMoreQueues(conferences, queues, after);
  }

  lemma QueueAppendOk(q: seq<Entry>, e: Entry)
    requires QueueOk(q) && e.priority == 0 && UuidShaped(e.bookingId)
    ensures QueueOk(q + [e])
  {
    var r := q + [e];
    forall i, j | 0 <= i < j < |r|
      ensures r[i].priority >= r[j].priority
    {
      if j < |q| {
        assert r[i] == q[i] && r[j] == q[j];
      }
    }
  }

  lemma QueuesOkUpdate(queues: map<string, seq<Entry>>, qid: string, q: seq<Entry>)
    requires QueuesOk(queues) && QueueOk(q)
    ensures QueuesOk(queues[qid := q])
  {
  }

  /** Declaring or filling queues never breaks a conference's invariant. */
  lemma ConferencesOkMoreQueues(conferences: map<string, Conference>, queues: map<string, seq<Entry>>,
                                more: map<string, seq<Entry>>)
    requires ConferencesOk(conferences, queues) && queues.Keys <= more.Keys
    ensures ConferencesOk(conferences, more)
  {
    forall cid | cid in conferences
      ensures ConferenceOk(cid, conferences[cid], more)
    {
      assert ConferenceOk(cid, conferences[cid], queues);
    }
  }

  /** Naming and declaring a conference's queue keeps the state consistent, and the
      queue it publishes to is then declared. */
  lemma NamedConsistent(bookings: map<string, Booking>, ch: Channel, cid: string)
    requires Consistent(bookings, ch.conferences, ch.queues, ch.processed) && cid in ch.conferences
    ensures var n := Named(ch, cid);
            Consistent(bookings, n.conferences, n.queues, n.processed)
            && QueueOf(ch.conferences[cid]) == QueueName(cid) && QueueName(cid) in n.queues
  {
    var c := ch.conferences[cid];
    assert ConferenceOk(cid, c, ch.queues);
    if c.waitlistQueueId.None? {
      var n := Named(ch, cid);
      var qid := QueueName(cid);
      assert QueuesOk(n.queues) by {
        if qid !in ch.queues {
          assert QueueOk([]);
          QueuesOkUpdate(ch.queues, qid, []);
        }
      }
      ConferencesOkMoreQueues(ch.conferences, ch.queues, n.queues);
      ResavePasses(ch.conferences, cid, c.(waitlistQueueId := Some(qid)));
      forall x | x in n.conferences
        ensures ConferenceOk(x, n.conferences[x], n.queues)
      {
        assert ConferenceOk(x, ch.conferences[x], n.queues);
      }
      assert BookingsOk(bookings, n.conferences);
    }
  }

  /** Publishing a stored booking keeps the state consistent. */
  lemma PublishConsistent(bookings: map<string, Booking>, ch: Channel, qid: string, b: Booking, sendFails: bool)
    requires Consistent(bookings, ch.conferences, ch.queues, ch.processed) && b.id in bookings
    ensures var r := Publish(ch, qid, b, sendFails).0;
            Consistent(bookings, r.conferences, r.queues, r.processed)
  {
    var key := IdempotencyKey(b.id, b.bookingTime);
    if key !in ch.processed && !sendFails {
      assert ProcessedOk(ch.processed + {key}, bookings);
      if qid in ch.queues {
        assert UuidShaped(b.id);
        var q' := ch.queues[qid] + [Entry(b.id, 0)];
        QueueAppendOk(ch.queues[qid], Entry(b.id, 0));
        QueuesOkUpdate(ch.queues, qid, q');
        ConferencesOkMoreQueues(ch.conferences, ch.queues, ch.queues[qid := q']);
      }
    }
  }

  /** Publishing keeps the state consistent. */
  lemma EnqueueConsistent(bookings: map<string, Booking>, ch: Channel, b: Booking, conferenceId: string,
                          sendFails: bool)
    requires Consistent(bookings, ch.conferences, ch.queues, ch.processed)
    requires conferenceId in ch.conferences && b.id in bookings
    ensures var r := Enqueue(ch, b, conferenceId, sendFails).0;
            Consistent(bookings, r.conferences, r.queues, r.processed)
  {
    NamedConsistent(bookings, ch, conferenceId);
    PublishConsistent(bookings, Named(ch, conferenceId), QueueOf(ch.conferences[conferenceId]), b, sendFails);
  }

  /** One message of removeUserFromWaitlist's receive loop: the kept list and the
      booking table advance from the first `k` messages to the first `k + 1`. */
  lemma DrainStep(q: seq<Entry>, k: nat, bookings: map<string, Booking>, rows: map<string, Booking>,
                  kept: seq<Entry>, userId: string)
    requires k < |q|
    requires kept == Kept(q[..k], bookings, userId) && rows == CancelOwned(bookings, IdsOf(q[..k]), userId)
    ensures var m := q[k];
            var kept' := Kept(q[..k + 1], bookings, userId);
            var rows' := CancelOwned(bookings, IdsOf(q[..k + 1]), userId);
            if m.bookingId in rows && rows[m.bookingId].userId != userId then kept + [m] == kept' && rows == rows'
            else if m.bookingId in rows then kept == kept' && rows[m.bookingId := rows[m.bookingId].(status := Cancelled)] == rows'
            else kept == kept' && rows == rows'
  {
    var m := q[k];
    assert q[..k + 1] == q[..k] + [m];
    KeptAppend(q[..k], [m], bookings, userId);
    IdsOfAppend(q[..k], m);
    CancelOwnedAdd(bookings, IdsOf(q[..k]), m.bookingId, userId);
  }

  // ---------------------------------------------------------------------------
  // Admission

  /** A booking that blocks a new one: the user's, for the conference, and not
      CANCELLED (PROCESSING counts). */
  predicate IsLive(b: Booking, userId: string, conferenceId: string) {
    b.userId == userId && b.conferenceId == conferenceId && b.status != Cancelled
  }

  /** createBooking's duplicate check: the user already holds a booking for the
      conference that the validator counts as active, or one that is PROCESSING. */
  function HasLiveBooking(bookings: map<string, Booking>, userId: string, conferenceId: string): (r: bool)
    ensures r <==> || BV.HasActiveBooking(bookings, userId, conferenceId)
                   || exists id :: id in bookings && bookings[id].userId == userId
                                   && bookings[id].conferenceId == conferenceId && bookings[id].status == Processing
  {
    exists id :: id in bookings && IsLive(bookings[id], userId, conferenceId)
  }

  /** At most one booking that is not CANCELLED per (user, conference) pair. */
  predicate OneLivePerPair(bookings: map<string, Booking>) {
    forall a, b :: (a in bookings && b in bookings && a != b
                    && IsLive(bookings[a], bookings[b].userId, bookings[b].conferenceId)) ==> bookings[b].status == Cancelled
  }

  /** The duplicate guard of createBooking keeps the pair unique when the new row
      is added. */
  lemma NewBookingKeepsOneLive(bookings: map<string, Booking>, id: string, userId: string, c: Conference, now: int)
    requires OneLivePerPair(bookings) && id !in bookings && !HasLiveBooking(bookings, userId, c.id)
    ensures OneLivePerPair(bookings[id := NewBooking(id, userId, c, now)])
  {
    var b := NewBooking(id, userId, c, now);
    var after := bookings[id := b];
    forall x, y | x in after && y in after && x != y && IsLive(after[x], after[y].userId, after[y].conferenceId)
      ensures after[y].status == Cancelled
    {
      if x == id {
        assert !IsLive(bookings[y], userId, c.id);
      }
    }
  }

  /** A change that never moves a row out of CANCELLED and never changes its owner
      or conference keeps the pairs unique. The corrected promotions meet it
      (PromoteNextKeepsOneLive, PromoteHeadsKeepOneLive); the basicGet as written
      does not (AsWrittenRevivesCancelled). */
  lemma StatusChangesKeepOneLive(bookings: map<string, Booking>, after: map<string, Booking>)
    requires OneLivePerPair(bookings) && after.Keys == bookings.Keys
    requires forall id :: id in bookings ==>
               after[id].userId == bookings[id].userId && after[id].conferenceId == bookings[id].conferenceId
               && (after[id].status != Cancelled ==> bookings[id].status != Cancelled)
    ensures OneLivePerPair(after)
  {
    forall x, y | x in after && y in after && x != y && IsLive(after[x], after[y].userId, after[y].conferenceId)
      ensures after[y].status == Cancelled
    {
      assert IsLive(bookings[x], bookings[y].userId, bookings[y].conferenceId);
    }
  }

  /** The body of cancelBooking's basicGet callback on a queue the service filled:
      take the head, read its booking id back from the body, promote the booking if
      it is still WAITLISTED and acknowledge, or nack when the booking is missing.
      It returns the queue and the booking table it leaves. */
  method TakeHead(queue: seq<Entry>, bookings: map<string, Booking>, now: int)
    returns (rest: seq<Entry>, rows: map<string, Booking>)
    requires QueueOk(queue)
    ensures (rest, rows) == PromoteNext(queue, bookings, now)
  {
    rows, rest := bookings, queue;
    if queue != [] {
      // basicGet hands out the head: a queue of the service is tiered
      DeliveryIsSequenceOrder(queue);
      var message := queue[0];
      ExtractRoundTrip(message.bookingId);
      var waitlistedId := ExtractBookingId(MessageBody(message.bookingId)).value;
      if waitlistedId in rows {
        if rows[waitlistedId].status == Waitlisted {
          rows := rows[waitlistedId := rows[waitlistedId].(status := Processing, bookingTime := now)];
        }
        // basicAck
        rest := queue[1..];
      }
      // otherwise basicNack with requeue: the message stays at the head
    }
  }

  /** The corrected basicGet promotes only a WAITLISTED booking, so it keeps the
      pairs unique. */
  lemma PromoteNextKeepsOneLive(q: seq<Entry>, bookings: map<string, Booking>, now: int)
    requires OneLivePerPair(bookings)
    ensures OneLivePerPair(PromoteNext(q, bookings, now).1)
  {
    StatusChangesKeepOneLive(bookings, PromoteNext(q, bookings, now).1);
  }

  /** The corrected promotion loop keeps the pairs unique. */
  lemma PromoteHeadsKeepOneLive(slots: int, q: seq<Entry>, bookings: map<string, Booking>, now: int)
    requires OneLivePerPair(bookings)
    ensures OneLivePerPair(PromoteHeads(slots, q, bookings, now).bookings)
  {
    PromotedRows(slots, q, bookings, now);
    StatusChangesKeepOneLive(bookings, PromoteHeads(slots, q, bookings, now).bookings);
  }

  /** createBooking's findByUserId and its two stream filters. */
  function LiveIds(bookings: map<string, Booking>, userId: string, conferenceId: string): (r: set<string>)
    ensures r != {} <==> HasLiveBooking(bookings, userId, conferenceId)
    ensures forall id :: id in r ==> id in bookings && IsLive(bookings[id], userId, conferenceId)
  {
    var r := set id | id in bookings && IsLive(bookings[id], userId, conferenceId);
    assert HasLiveBooking(bookings, userId, conferenceId) ==> r != {} by {
      if HasLiveBooking(bookings, userId, conferenceId) {
        var id :| id in bookings && IsLive(bookings[id], userId, conferenceId);
        assert id in r;
      }
    }
    r
  }

  /** The booking createBooking builds once every guard has passed. */
  function NewBooking(id: string, userId: string, c: Conference, now: int): (b: Booking)
    ensures b.id == id && b.userId == userId && b.conferenceId == c.id && b.bookingTime == now
    ensures b.status == Confirmed <==> c.availableSlots > 0
    ensures b.status == Waitlisted <==> c.availableSlots <= 0
  {
    Booking(id, userId, c.id, now, if c.availableSlots > 0 then Confirmed else Waitlisted)
  }

  /** After createBooking's own guards the validator cannot object: the conference
      has not started and the user has no active booking for it. */
  lemma GuardsImplyAccepted(v: Verdict<BV.BookingError>, started: bool, active: bool)
    requires v.Rejected? ==> v.errors != []
    requires BV.AlreadyStarted in v.Errors() <==> started
    requires BV.ActiveBookingExists in v.Errors() <==> active
    requires BV.TimeConflict in v.Errors() ==> active
    requires !started && !active
    ensures v.Accepted?
  {
    if v.Rejected? {
      var e := v.errors[0];
      assert e in v.Errors();
      match e
      case AlreadyStarted =>
      case ActiveBookingExists =>
      case TimeConflict =>
    }
  }

  lemma AddBookingConsistent(bookings: map<string, Booking>, conferences: map<string, Conference>,
                             queues: map<string, seq<Entry>>, processed: set<IdempotencyKey>, b: Booking)
    requires Consistent(bookings, conferences, queues, processed)
    requires UuidShaped(b.id) && b.conferenceId in conferences
    ensures Consistent(bookings[b.id := b], conferences, queues, processed)
  {
  }

  /** Taking a free slot of a stored conference keeps the state consistent. */
  lemma TakeSlotConsistent(bookings: map<string, Booking>, conferences: map<string, Conference>,
                           queues: map<string, seq<Entry>>, processed: set<IdempotencyKey>, cid: string, delta: int)
    requires Consistent(bookings, conferences, queues, processed) && cid in conferences
    requires conferences[cid].availableSlots + delta >= 0
    ensures var c := conferences[cid];
            Consistent(bookings, conferences[cid := c.(availableSlots := c.availableSlots + delta)], queues, processed)
  {
    var c := conferences[cid];
    var c' := c.(availableSlots := c.availableSlots + delta);
    ResavePasses(conferences, cid, c');
    assert ConferenceOk(cid, c, queues);
  }

  /** Saving a conference the validator accepts, keyed by its id, with a
      non-negative slot count and no foreign queue, keeps the state consistent. */
  lemma SaveConferenceConsistent(bookings: map<string, Booking>, conferences: map<string, Conference>,
                                 queues: map<string, seq<Entry>>, processed: set<IdempotencyKey>, c: Conference)
    requires Consistent(bookings, conferences, queues, processed)
    requires ConferenceOk(c.id, c, queues) && CV.Passes(AsDraft(c))
    ensures Consistent(bookings, conferences[c.id := c], queues, processed)
  {
    var cs := conferences[c.id := c];
    forall x | x in cs
      ensures CV.Passes(AsDraft(cs[x]))
    {
      if x != c.id {
        assert CV.Passes(AsDraft(conferences[x]));
      }
    }
  }

  /** Resaving a stored conference with a changed flag, or without its queue id,
      keeps the state consistent. */
  lemma ResaveConsistent(bookings: map<string, Booking>, conferences: map<string, Conference>,
                         queues: map<string, seq<Entry>>, processed: set<IdempotencyKey>, cid: string, c: Conference)
    requires Consistent(bookings, conferences, queues, processed) && cid in conferences
    requires c == conferences[cid].(fullyBooked := c.fullyBooked, waitlistQueueId := c.waitlistQueueId)
    requires c.waitlistQueueId.Some? ==> c.waitlistQueueId == conferences[cid].waitlistQueueId
    ensures Consistent(bookings, conferences[cid := c], queues, processed)
  {
    ResavePasses(conferences, cid, c);
    assert ConferenceOk(cid, conferences[cid], queues);
  }

  /** One turn of processWaitlistQueue's loop. */
  lemma PromoteHeadsStep(slots: int, q: seq<Entry>, rows: map<string, Booking>, now: int)
    ensures slots <= 0 || q == [] ==> PromoteHeads(slots, q, rows, now) == Promotion(rows, slots, 0)
    ensures slots > 0 && q != [] && q[0].bookingId !in rows ==> PromoteHeads(slots, q, rows, now) == Promotion(rows, slots, 1)
    ensures slots > 0 && q != [] && q[0].bookingId in rows && rows[q[0].bookingId].status != Waitlisted ==>
              var p := PromoteHeads(slots, q[1..], rows, now);
              PromoteHeads(slots, q, rows, now) == p.(consumed := p.consumed + 1)
    ensures slots > 0 && q != [] && q[0].bookingId in rows && rows[q[0].bookingId].status == Waitlisted ==>
              var id := q[0].bookingId;
              var p := PromoteHeads(slots - 1, q[1..], rows[id := rows[id].(status := Processing, bookingTime := now)], now);
              PromoteHeads(slots, q, rows, now) == p.(consumed := p.consumed + 1)
  {
  }

  /** The receive loop of processWaitlistQueue over the conference's slot count, its
      queue (in delivery order) and the booking table. */
  method ReceiveAndPromote(slots0: int, q0: seq<Entry>, bookings: map<string, Booking>, now: int)
    returns (slots: int, queue: seq<Entry>, rows: map<string, Booking>, consumed: nat)
    ensures Promotion(rows, slots, consumed) == PromoteHeads(slots0, q0, bookings, now)
    ensures consumed <= |q0| && queue == q0[consumed..]
  {
    ghost var p := PromoteHeads(slots0, q0, bookings, now);
    slots, queue, rows, consumed := slots0, q0, bookings, 0;
    while slots > 0
      invariant 0 <= consumed <= |q0| && queue == q0[consumed..]
      invariant var rest := PromoteHeads(slots, queue, rows, now);
                rest.bookings == p.bookings && rest.slots == p.slots && consumed + rest.consumed == p.consumed
      decreases |queue|
    {
      PromoteHeadsStep(slots, queue, rows, now);
      if queue == [] {
        // receive() returned null
        break;
      }
      var message := queue[0];
      queue := queue[1..];
      consumed := consumed + 1;
      if message.bookingId !in rows {
        // the lookup throws after receive() consumed the message
        break;
      }
      if rows[message.bookingId].status == Waitlisted {
        rows := rows[message.bookingId := rows[message.bookingId].(status := Processing, bookingTime := now)];
        slots := slots - 1;
      }
      // a booking no longer WAITLISTED is passed over
    }
    PromoteHeadsStep(slots, queue, rows, now);
  }

  /** Cancelling waitlisted bookings keeps the state consistent. */
  lemma CancelStrandedConsistent(bookings: map<string, Booking>, conferences: map<string, Conference>,
                                 queues: map<string, seq<Entry>>, processed: set<IdempotencyKey>, cids: set<string>)
    requires Consistent(bookings, conferences, queues, processed)
    ensures Consistent(CancelStranded(bookings, cids), conferences, queues, processed)
  {
    var r := CancelStranded(bookings, cids);
    assert BookingsOk(r, conferences) by {
      forall id | id in r
        ensures r[id].id == id && UuidShaped(id) && r[id].conferenceId in conferences
      {
        assert id in bookings;
      }
    }
  }

  lemma CancelOneMore(rows0: map<string, Booking>, rows: map<string, Booking>, done: set<string>, id: string)
    requires id in rows0 && rows.Keys == rows0.Keys
    requires forall x :: x in rows0 ==>
               rows[x] == if x in done then rows0[x].(status := Cancelled) else rows0[x]
    ensures var next := rows[id := rows[id].(status := Cancelled)];
            next.Keys == rows0.Keys
            && forall x :: x in rows0 ==>
                 next[x] == if x in done + {id} then rows0[x].(status := Cancelled) else rows0[x]
  {
  }

  lemma CancelEachStranded(bookings: map<string, Booking>, cid: string, ids: set<string>, rows: map<string, Booking>)
    requires ids == set id | id in bookings && Stranded(bookings[id], {cid})
    requires rows.Keys == bookings.Keys
    requires forall id :: id in bookings ==>
               rows[id] == if id in ids then bookings[id].(status := Cancelled) else bookings[id]
    ensures rows == CancelStranded(bookings, {cid})
  {
    var r := CancelStranded(bookings, {cid});
    forall id | id in rows
      ensures rows[id] == r[id]
    {
      assert id in ids <==> Stranded(bookings[id], {cid});
    }
  }

  /** The forEach that cancels and saves each of the bookings `ids`. */
  method CancelEach(rows0: map<string, Booking>, ids: set<string>) returns (rows: map<string, Booking>)
    requires ids <= rows0.Keys
    ensures rows.Keys == rows0.Keys
    ensures forall id :: id in rows0 ==>
              rows[id] == if id in ids then rows0[id].(status := Cancelled) else rows0[id]
  {
    rows := rows0;
    var todo := ids;
    ghost var done: set<string> := {};
    while todo != {}
      invariant todo !! done && todo + done == ids
      invariant rows.Keys == rows0.Keys
      invariant forall id :: id in rows0 ==>
                  rows[id] == if id in done then rows0[id].(status := Cancelled) else rows0[id]
      decreases |todo|
    {
      var id :| id in todo;
      CancelOneMore(rows0, rows, done, id);
      rows := rows[id := rows[id].(status := Cancelled)];
      MoveOne(todo, done, ids, id);
      todo := todo - {id};
      done := done + {id};
    }
  }

  // ---------------------------------------------------------------------------
  // The engine

  class AdmissionEngine {
    /** The users userService.getUser finds. */
    var users: set<string>
    var bookings: map<string, Booking>
    var conferences: map<string, Conference>
    /** The broker's waitlist queues by name. */
    var queues: map<string, seq<Entry>>
    /** processedBookings. */
    var processed: set<IdempotencyKey>

    ghost predicate Valid()
      reads this
    {
      Consistent(bookings, conferences, queues, processed)
    }

    function ChannelState(): Channel
      reads this
    {
      Channel(conferences, queues, processed)
    }

    /** A fresh service over the given users, with no conferences, bookings or queues. */
    constructor(users: set<string>)
      ensures Valid()
      ensures this.users == users && bookings == map[] && conferences == map[] && queues == map[] && processed == {}
    {
      this.users := users;
      bookings := map[];
      conferences := map[];
      queues := map[];
      processed := {};
    }

    /** getBookingStatus(bookingId). */
    method GetBookingStatus(bookingId: string) returns (r: Result<BookingStatusView, Failure>)
      ensures r.Err? <==> bookingId !in bookings
      ensures r.Err? ==> r.error == BookingNotFound
      ensures r.Ok? ==> r.value.status == bookings[bookingId].status
                        && (r.value.canConfirm <==> bookings[bookingId].status == Processing)
                        && (r.value.canConfirm ==> r.value.confirmUntil == Some(bookings[bookingId].bookingTime + ConfirmWindow))
                        && (!r.value.canConfirm ==> r.value.confirmUntil.None?)
    {
      if bookingId !in bookings {
        return Err(BookingNotFound);
      }
      var booking := bookings[bookingId];
      r := Ok(StatusView(booking));
    }

    /** addToWaitlistQueue(booking, conference): the broker's publish is `sendFails`. */
    method AddToWaitlistQueue(b: Booking, conferenceId: string, sendFails: bool) returns (sent: SendResult)
      requires Valid() && conferenceId in conferences && b.id in bookings
      modifies this
      ensures Valid()
      ensures (ChannelState(), sent) == Enqueue(old(ChannelState()), b, conferenceId, sendFails)
      ensures bookings == old(bookings) && users == old(users)
    {
      var queueId := EnsureQueue(conferenceId);
      sent := PublishEntry(b, queueId, sendFails);
    }

    /** The first half of addToWaitlistQueue: give the conference its queue. */
    method EnsureQueue(conferenceId: string) returns (queueId: string)
      requires Valid() && conferenceId in conferences
      modifies this
      ensures Valid()
      ensures ChannelState() == Named(old(ChannelState()), conferenceId)
      ensures queueId == QueueOf(old(conferences[conferenceId]))
      ensures bookings == old(bookings) && users == old(users)
    {
      NamedConsistent(bookings, ChannelState(), conferenceId);
      var conference := conferences[conferenceId];
      assert conference.id == conferenceId by {
        assert ConferenceOk(conferenceId, conference, queues);
      }
      if conference.waitlistQueueId.None? {
        queueId := QueuePrefix + conference.id;
        conference := conference.(waitlistQueueId := Some(queueId));
        conferences := conferences[conferenceId := conference];
        // queueDeclare is idempotent
        if queueId !in queues {
          queues := queues[queueId := []];
        }
      } else {
        queueId := conference.waitlistQueueId.value;
      }
    }

    /** The second half: publish under the idempotency key. */
    method PublishEntry(b: Booking, queueId: string, sendFails: bool) returns (sent: SendResult)
      requires Valid() && b.id in bookings
      modifies this
      ensures Valid()
      ensures (ChannelState(), sent) == Waitlist.Publish(old(ChannelState()), queueId, b, sendFails)
      ensures bookings == old(bookings) && users == old(users) && conferences == old(conferences)
    {
      PublishConsistent(bookings, ChannelState(), queueId, b, sendFails);
      var key := IdempotencyKey(b.id, b.bookingTime);
      if key in processed {
        return Skipped;
      }
      processed := processed + {key};
      if sendFails {
        // the key is forgotten again and the exception is rethrown
        processed := processed - {key};
        return SendFailed;
      }
      if queueId in queues {
        queues := queues[queueId := queues[queueId] + [Entry(b.id, 0)]];
      }
      sent := Sent;
    }

    /** createBooking(userId, conferenceId): `freshId` is UUID.randomUUID(), `now`
        the clock and `sendFails` whether the broker's publish throws. */
    method CreateBooking(userId: string, conferenceId: string, freshId: string, now: int, sendFails: bool)
      returns (r: Result<Booking, Failure>)
      requires Valid() && freshId !in bookings && UuidShaped(freshId)
      modifies this
      ensures Valid() && users == old(users)
      ensures userId !in old(users) ==> r == Err(UserNotFound)
      ensures userId in old(users) && conferenceId !in old(conferences) ==> r == Err(ConferenceNotFound)
      ensures userId in old(users) && conferenceId in old(conferences) && now > old(conferences[conferenceId]).start
              ==> r == Err(ConferenceStarted)
      ensures (userId in old(users) && conferenceId in old(conferences) && now <= old(conferences[conferenceId]).start
               && HasLiveBooking(old(bookings), userId, conferenceId)) ==> r == Err(DuplicateBooking)
      ensures r.Err? && r.error != QueueUnavailable ==>
                bookings == old(bookings) && ChannelState() == old(ChannelState())
      ensures (userId in old(users) && conferenceId in old(conferences) && now <= old(conferences[conferenceId]).start
               && !HasLiveBooking(old(bookings), userId, conferenceId)) ==>
                var c := old(conferences[conferenceId]);
                var b := NewBooking(freshId, userId, c, now);
                var rows := old(bookings)[freshId := b];
                if c.availableSlots <= 0 then
                  var e := Enqueue(old(ChannelState()), b, conferenceId, sendFails);
                  bookings == rows && ChannelState() == e.0
                  && r == (if e.1 == SendFailed then Err(QueueUnavailable) else Ok(b))
                else
                  var c' := c.(availableSlots := c.availableSlots - 1);
                  var names := QueuesOf(AffectedConferences(old(conferences)[conferenceId := c'], c'));
                  conferences == old(conferences)[conferenceId := c'] && processed == old(processed)
                  && queues == WithdrawAll(old(queues), names, rows, userId)
                  && bookings == CancelOwned(rows, MentionedIds(old(queues), names), userId)
                  && r == Ok(b)
    {
      if userId !in users {
        return Err(UserNotFound);
      }
      if conferenceId !in conferences {
        return Err(ConferenceNotFound);
      }
      var conference := conferences[conferenceId];
      assert conference.id == conferenceId by {
        assert ConferenceOk(conferenceId, conference, queues);
      }
      if now > conference.start {
        return Err(ConferenceStarted);
      }
      var existing := LiveIds(bookings, userId, conferenceId);
      if existing != {} {
        return Err(DuplicateBooking);
      }
      var v := BV.ValidateBooking(userId, conference, bookings, conferences, now);
      GuardsImplyAccepted(v, conference.start < now, BV.HasActiveBooking(bookings, userId, conferenceId));
      var booking := NewBooking(freshId, userId, conference, now);
      r := Admit(booking, sendFails);
    }

    /** The rest of createBooking once every check has passed: save the booking, then
        either put it on the conference's waitlist or take a slot and withdraw the
        user from the waitlists of overlapping conferences. */
    method Admit(booking: Booking, sendFails: bool) returns (r: Result<Booking, Failure>)
      requires Valid() && booking.id !in bookings && UuidShaped(booking.id) && booking.conferenceId in conferences
      requires booking.status == (if conferences[booking.conferenceId].availableSlots > 0 then Confirmed else Waitlisted)
      modifies this
      ensures Valid() && users == old(users)
      ensures var c := old(conferences[booking.conferenceId]);
              var rows := old(bookings)[booking.id := booking];
              if c.availableSlots <= 0 then
                var e := Enqueue(old(ChannelState()), booking, booking.conferenceId, sendFails);
                bookings == rows && ChannelState() == e.0
                && r == (if e.1 == SendFailed then Err(QueueUnavailable) else Ok(booking))
              else
                var c' := c.(availableSlots := c.availableSlots - 1);
                var names := QueuesOf(AffectedConferences(old(conferences)[booking.conferenceId := c'], c'));
                conferences == old(conferences)[booking.conferenceId := c'] && processed == old(processed)
                && queues == WithdrawAll(old(queues), names, rows, booking.userId)
                && bookings == CancelOwned(rows, MentionedIds(old(queues), names), booking.userId)
                && r == Ok(booking)
    {
      var conferenceId := booking.conferenceId;
      var conference := conferences[conferenceId];
      assert conference.id == conferenceId by {
        assert ConferenceOk(conferenceId, conference, queues);
      }
      if conference.availableSlots <= 0 {
        SaveBooking(booking);
        var sent := AddToWaitlistQueue(booking, conferenceId, sendFails);
        if sent == SendFailed {
          return Err(QueueUnavailable);
        }
        return Ok(booking);
      }
      TakeSeat(booking);
      r := Ok(booking);
    }

    /** bookingRepository.save(booking): upsert by id. */
    method SaveBooking(b: Booking)
      requires Valid() && UuidShaped(b.id) && b.conferenceId in conferences
      modifies this
      ensures Valid()
      ensures bookings == old(bookings)[b.id := b]
      ensures ChannelState() == old(ChannelState()) && users == old(users)
    {
      AddBookingConsistent(bookings, conferences, queues, processed, b);
      bookings := bookings[b.id := b];
    }

    /** conference.setAvailableSlots(availableSlots + delta) and the resave through
        conferenceService.createConference, which cannot throw for a stored conference. */
    method AdjustSlots(conferenceId: string, delta: int)
      requires Valid() && conferenceId in conferences && conferences[conferenceId].availableSlots + delta >= 0
      modifies this
      ensures Valid()
      ensures var c := old(conferences[conferenceId]);
              conferences == old(conferences)[conferenceId := c.(availableSlots := c.availableSlots + delta)]
      ensures bookings == old(bookings) && queues == old(queues) && processed == old(processed) && users == old(users)
    {
      TakeSlotConsistent(bookings, conferences, queues, processed, conferenceId, delta);
      var conference := conferences[conferenceId];
      conference := conference.(availableSlots := conference.availableSlots + delta);
      conferences := conferences[conferenceId := conference];
    }

    /** cancelBooking's basicGet on the conference's queue, corrected as PromoteNext
        says: the head's booking id is read back from the message body (line 287); a
        WAITLISTED booking becomes PROCESSING at `now`, and an existing booking's
        message is acknowledged; otherwise the lookup throws and the message is
        nacked back in place. */
    method PromoteHead(queueId: string, now: int)
      requires Valid() && queueId in queues
      modifies this
      ensures Valid()
      ensures var n := PromoteNext(old(queues[queueId]), old(bookings), now);
              queues == old(queues)[queueId := n.0] && bookings == n.1
      ensures conferences == old(conferences) && processed == old(processed) && users == old(users)
    {
      PromoteNextConsistent(bookings, conferences, queues, processed, queueId, now);
      var rest, rows := TakeHead(queues[queueId], bookings, now);
      bookings := rows;
      queues := queues[queueId := rest];
    }

    /** getBooking(id). */
    method GetBooking(id: string) returns (r: Result<Booking, Failure>)
      ensures r.Ok? <==> id in bookings
      ensures r.Ok? ==> r.value == bookings[id]
      ensures r.Err? ==> r.error == BookingNotFound
    {
      if id !in bookings {
        return Err(BookingNotFound);
      }
      r := Ok(bookings[id]);
    }

    /** conferenceService.createConference(conference) with the repository write. A
        conference handed in with an id is taken as ConferenceMapper.toEntity builds
        it: its free slots equal its total slots and it has no queue id. */
    method CreateConference(d: ConferenceDraft, freshId: string) returns (r: Result<Conference, Failure>)
      requires Valid()
      requires d.id.Some? ==> d.availableSlots == d.totalSlots && d.waitlistQueueId.None?
      modifies this
      ensures Valid()
      ensures r.Ok? <==> CV.Passes(d)
      ensures r.Err? ==> r.error.ConferenceRejected? && r.error.errors != [] && conferences == old(conferences)
      ensures r.Ok? ==> r.value.id == (if d.id.Some? then d.id.value else freshId)
                        && conferences == old(conferences)[r.value.id := r.value]
                        && r.value.name == d.name.value && r.value.location == d.location.value
                        && r.value.start == d.start.value && r.value.end == d.end.value
                        && r.value.totalSlots == d.totalSlots && r.value.waitlistQueueId.None?
                        && r.value.availableSlots == (if d.id.Some? then d.availableSlots else d.totalSlots)
      ensures bookings == old(bookings) && queues == old(queues) && processed == old(processed) && users == old(users)
    {
      var prepared := CS.PrepareConference(d, freshId);
      if prepared.Err? {
        return Err(ConferenceRejected(prepared.error));
      }
      var conference := prepared.value;
      SaveConferenceConsistent(bookings, conferences, queues, processed, conference);
      conferences := conferences[conference.id := conference];
      r := Ok(conference);
    }

    /** processWaitlistQueue(conference), reading each message as the BookingMessage
        the service publishes (ProcessAsWritten is the loop with the cast of line 335):
        while slots are free, take the head; a booking still WAITLISTED becomes
        PROCESSING at `now` and takes a slot; the message of any other stored booking
        is consumed without a slot; a missing booking throws and ends the loop. */
    method ProcessWaitlistQueue(conferenceId: string, now: int)
      requires Valid() && conferenceId in conferences && conferences[conferenceId].waitlistQueueId.Some?
      modifies this
      ensures Valid()
      ensures var c := old(conferences[conferenceId]);
              var qid := c.waitlistQueueId.value;
              qid in old(queues)
              && var p := PromoteHeads(c.availableSlots, old(queues[qid]), old(bookings), now);
              bookings == p.bookings && conferences == old(conferences)[conferenceId := c.(availableSlots := p.slots)]
              && queues == old(queues)[qid := old(queues[qid])[p.consumed..]]
      ensures processed == old(processed) && users == old(users)
    {
      PromotionConsistent(bookings, conferences, queues, processed, conferenceId, now);
      var conference := conferences[conferenceId];
      var queueId := conference.waitlistQueueId.value;
      // receive() hands out the head: a queue of the service is tiered
      assert Delivery(queues[queueId]) == queues[queueId] by {
        assert QueueOk(queues[queueId]);
        DeliveryIsSequenceOrder(queues[queueId]);
      }
      var slots, queue, rows, consumed := ReceiveAndPromote(conference.availableSlots, queues[queueId], bookings, now);
      bookings := rows;
      conferences := conferences[conferenceId := conference.(availableSlots := slots)];
      queues := queues[queueId := queue];
    }

    /** toggleFullyBooked(conferenceId, fullyBooked). */
    method ToggleFullyBooked(conferenceId: string, fullyBooked: bool, now: int) returns (r: Outcome<Failure>)
      requires Valid()
      modifies this
      ensures Valid() && processed == old(processed) && users == old(users)
      ensures conferenceId !in old(conferences) ==>
                r == Fail(ConferenceNotFound) && bookings == old(bookings) && ChannelState() == old(ChannelState())
      ensures conferenceId in old(conferences) ==>
                r == Pass
                && var c := old(conferences[conferenceId]).(fullyBooked := fullyBooked);
                if !fullyBooked && c.availableSlots > 0 && c.waitlistQueueId.Some? then
                  var qid := c.waitlistQueueId.value;
                  qid in old(queues)
                  && var p := PromoteHeads(c.availableSlots, old(queues[qid]), old(bookings), now);
                  bookings == p.bookings && conferences == old(conferences)[conferenceId := c.(availableSlots := p.slots)]
                  && queues == old(queues)[qid := old(queues[qid])[p.consumed..]]
                else
                  bookings == old(bookings) && conferences == old(conferences)[conferenceId := c] && queues == old(queues)
    {
      if conferenceId !in conferences {
        return Fail(ConferenceNotFound);
      }
      ghost var c0 := conferences;
      var conference := SetFullyBooked(conferenceId, fullyBooked);
      if !fullyBooked && conference.availableSlots > 0 && conference.waitlistQueueId.Some? {
        ProcessWaitlistQueue(conferenceId, now);
        UpdateTwice(c0, conferenceId, conference, conferences[conferenceId]);
      }
      r := Pass;
    }

    /** conference.setFullyBooked(flag) and the resave through conferenceService. */
    method SetFullyBooked(conferenceId: string, fullyBooked: bool) returns (c: Conference)
      requires Valid() && conferenceId in conferences
      modifies this
      ensures Valid()
      ensures c == old(conferences[conferenceId]).(fullyBooked := fullyBooked)
      ensures conferences == old(conferences)[conferenceId := c]
      ensures bookings == old(bookings) && queues == old(queues) && processed == old(processed) && users == old(users)
    {
      c := conferences[conferenceId].(fullyBooked := fullyBooked);
      ResaveConsistent(bookings, conferences, queues, processed, conferenceId, c);
      conferences := conferences[conferenceId := c];
    }

    /** cancelBooking(id). Every failure is rethrown wrapped in a RuntimeException;
        the model keeps the cause. */
    method CancelBooking(id: string, now: int) returns (r: Outcome<Failure>)
      requires Valid()
      modifies this
      ensures Valid() && users == old(users)
      ensures id !in old(bookings) ==>
                r == Fail(BookingNotFound) && bookings == old(bookings) && ChannelState() == old(ChannelState())
      ensures id in old(bookings) ==> r == Pass && id in bookings && bookings[id].status == Cancelled
      ensures id in old(bookings) ==>
                var b := old(bookings[id]);
                var cancelled := b.(status := Cancelled);
                b.conferenceId in old(conferences)
                && var c := old(conferences[b.conferenceId]);
                if b.status != Confirmed then
                  bookings == old(bookings)[id := cancelled] && ChannelState() == old(ChannelState())
                else
                  conferences == old(conferences)[b.conferenceId := c.(availableSlots := c.availableSlots + 1)]
                  && processed == old(processed)
                  && if c.waitlistQueueId.None? then
                       queues == old(queues) && bookings == old(bookings)[id := cancelled]
                     else
                       var qid := c.waitlistQueueId.value;
                       qid in old(queues)
                       && var n := PromoteNext(old(queues[qid]), old(bookings), now);
                       queues == old(queues)[qid := n.0] && bookings == n.1[id := cancelled]
    {
      if id !in bookings {
        return Fail(BookingNotFound);
      }
      var booking := bookings[id];
      if booking.status == Confirmed {
        ReleaseSlot(booking.conferenceId, now);
      }
      // the row loaded at the start, now CANCELLED
      SaveBooking(booking.(status := Cancelled));
      r := Pass;
    }

    /** The CONFIRMED branch of cancelBooking: the slot goes back to the conference,
        and a conference with a queue hands its head to PromoteHead. */
    method ReleaseSlot(conferenceId: string, now: int)
      requires Valid() && conferenceId in conferences
      modifies this
      ensures Valid() && users == old(users) && processed == old(processed)
      ensures var c := old(conferences[conferenceId]);
              && conferences == old(conferences)[conferenceId := c.(availableSlots := c.availableSlots + 1)]
              && if c.waitlistQueueId.None? then queues == old(queues) && bookings == old(bookings)
                 else
                   var qid := c.waitlistQueueId.value;
                   qid in old(queues)
                   && var n := PromoteNext(old(queues[qid]), old(bookings), now);
                   queues == old(queues)[qid := n.0] && bookings == n.1
    {
      var conference := conferences[conferenceId];
      AdjustSlots(conferenceId, 1);
      if conference.waitlistQueueId.Some? {
        assert ConferenceOk(conferenceId, conference, queues);
        PromoteHead(conference.waitlistQueueId.value, now);
      }
    }

    /** confirmWaitlistBooking(bookingId): `sendFails` is whether the re-enqueue of an
        expired booking throws (the failure is logged and swallowed). */
    method ConfirmWaitlistBooking(id: string, now: int, sendFails: bool) returns (r: Result<Booking, Failure>)
      requires Valid()
      modifies this
      ensures Valid() && users == old(users)
      ensures r.Err? && r.error != ConfirmationExpired ==>
                bookings == old(bookings) && ChannelState() == old(ChannelState())
      ensures id !in old(bookings) ==> r == Err(BookingNotFound)
      ensures id in old(bookings) ==>
                var b := old(bookings[id]);
                b.conferenceId in old(conferences)
                && var c := old(conferences[b.conferenceId]);
                if now > c.start then r == Err(ConferenceStarted)
                else if b.status != Processing then r == Err(NotProcessing)
                else if b.bookingTime + ConfirmWindow < now then
                  var w := b.(status := Waitlisted, bookingTime := now);
                  r == Err(ConfirmationExpired) && bookings == old(bookings)[id := w]
                  && ChannelState() == Enqueue(old(ChannelState()), w, b.conferenceId, sendFails).0
                else if c.availableSlots <= 0 then r == Err(NoAvailableSlots)
                else
                  var confirmed := b.(status := Confirmed, bookingTime := now);
                  var c' := c.(availableSlots := c.availableSlots - 1);
                  var rows := old(bookings)[id := confirmed];
                  var names := QueuesOf(AffectedConferences(old(conferences)[b.conferenceId := c'], c'));
                  r == Ok(confirmed)
                  && conferences == old(conferences)[b.conferenceId := c'] && processed == old(processed)
                  && queues == WithdrawAll(old(queues), names, rows, b.userId)
                  && bookings == CancelOwned(rows, MentionedIds(old(queues), names), b.userId)
    {
      if id !in bookings {
        return Err(BookingNotFound);
      }
      var booking := bookings[id];
      var conference := conferences[booking.conferenceId];
      if now > conference.start {
        return Err(ConferenceStarted);
      }
      if booking.status != Processing {
        return Err(NotProcessing);
      }
      if booking.bookingTime + ConfirmWindow < now {
        BackToWaitlist(booking.(status := Waitlisted, bookingTime := now), sendFails);
        return Err(ConfirmationExpired);
      }
      if conference.availableSlots <= 0 {
        return Err(NoAvailableSlots);
      }
      booking := booking.(status := Confirmed, bookingTime := now);
      TakeSeat(booking);
      r := Ok(booking);
    }

    /** The expired branch of confirmWaitlistBooking: save the row as WAITLISTED, then
        re-enqueue it, swallowing a failed send. */
    method BackToWaitlist(b: Booking, sendFails: bool)
      requires Valid() && b.id in bookings && b.conferenceId in conferences
      modifies this
      ensures Valid() && users == old(users)
      ensures bookings == old(bookings)[b.id := b]
      ensures ChannelState() == Enqueue(old(ChannelState()), b, b.conferenceId, sendFails).0
    {
      assert UuidShaped(b.id);
      SaveBooking(b);
      var sent := AddToWaitlistQueue(b, b.conferenceId, sendFails);
    }

    /** Saving a booking that holds a seat: the row, one slot fewer, and the user
        withdrawn from the waitlists of overlapping conferences (createBooking and
        confirmWaitlistBooking). */
    method TakeSeat(b: Booking)
      requires Valid() && UuidShaped(b.id) && b.conferenceId in conferences
      requires conferences[b.conferenceId].availableSlots > 0
      modifies this
      ensures Valid() && users == old(users)
      ensures var c := old(conferences[b.conferenceId]);
              var c' := c.(availableSlots := c.availableSlots - 1);
              var rows := old(bookings)[b.id := b];
              var names := QueuesOf(AffectedConferences(old(conferences)[b.conferenceId := c'], c'));
              conferences == old(conferences)[b.conferenceId := c'] && processed == old(processed)
              && queues == WithdrawAll(old(queues), names, rows, b.userId)
              && bookings == CancelOwned(rows, MentionedIds(old(queues), names), b.userId)
    {
      SaveBooking(b);
      AdjustSlots(b.conferenceId, -1);
      RemoveFromOverlappingWaitlists(b.userId, conferences[b.conferenceId]);
    }

    /** handleWaitlistMessage: a WAITLISTED booking becomes PROCESSING (its time is
        kept); the message is acknowledged iff the booking exists. */
    method HandleWaitlistMessage(bookingId: string) returns (acked: bool)
      requires Valid()
      modifies this
      ensures Valid()
      ensures acked <==> bookingId in old(bookings)
      ensures bookings == if bookingId in old(bookings) && old(bookings[bookingId]).status == Waitlisted
                          then old(bookings)[bookingId := old(bookings[bookingId]).(status := Processing)]
                          else old(bookings)
      ensures ChannelState() == old(ChannelState()) && users == old(users)
    {
      if bookingId !in bookings {
        // the lookup throws: basicNack with requeue
        return false;
      }
      var booking := bookings[bookingId];
      if booking.status == Waitlisted {
        booking := booking.(status := Processing);
        AddBookingConsistent(bookings, conferences, queues, processed, booking);
        bookings := bookings[bookingId := booking];
      }
      acked := true;
    }

    /** autoCancelExpiredWaitlist: for each started conference with a queue, cancel
        its WAITLISTED bookings, empty its queue and drop its queue id. */
    method AutoCancelExpiredWaitlist(now: int)
      requires Valid()
      modifies this
      ensures Valid()
      ensures var started := StartedWithQueue(old(conferences), now);
              bookings == CancelStranded(old(bookings), started)
              && conferences == Unqueued(old(conferences), started)
              && queues == Cleared(old(queues), QueuesOf(started))
      ensures processed == old(processed) && users == old(users)
    {
      ghost var b0, c0, q0 := bookings, conferences, queues;
      var todo := StartedWithQueue(conferences, now);
      ghost var all := todo;
      ghost var done: set<string> := {};
      assert CancelStranded(b0, {}) == b0;
      assert Unqueued(c0, {}) == c0;
      assert QueuesOf({}) == {} && Cleared(q0, {}) == q0;
      while todo != {}
        invariant Valid()
        invariant todo + done == all && todo !! done
        invariant bookings == CancelStranded(b0, done) && conferences == Unqueued(c0, done)
        invariant queues == Cleared(q0, QueuesOf(done))
        invariant processed == old(processed) && users == old(users)
        decreases |todo|
      {
        var cid :| cid in todo;
        StrandedOneMore(b0, done, cid);
        UnqueuedOneMore(c0, done, cid);
        ClearedOneMore(q0, done, cid);
        ExpireConference(cid);
        MoveOne(todo, done, all, cid);
        todo := todo - {cid};
        done := done + {cid};
      }
    }

    /** One conference of autoCancelExpiredWaitlist: its WAITLISTED bookings are
        cancelled, its queue is received until empty, and it is saved without a
        queue id. */
    method ExpireConference(conferenceId: string)
      requires Valid() && conferenceId in conferences && conferences[conferenceId].waitlistQueueId.Some?
      modifies this
      ensures Valid()
      ensures bookings == CancelStranded(old(bookings), {conferenceId})
      ensures var c := old(conferences[conferenceId]);
              conferences == old(conferences)[conferenceId := c.(waitlistQueueId := None)]
      ensures queues == old(queues)[QueueName(conferenceId) := []]
      ensures processed == old(processed) && users == old(users)
    {
      var conference := conferences[conferenceId];
      assert ConferenceOk(conferenceId, conference, queues);
      var queueId := conference.waitlistQueueId.value;
      CancelWaitlisted(conferenceId);
      DrainAll(queueId);
      conference := conference.(waitlistQueueId := None);
      ResaveConsistent(bookings, conferences, queues, processed, conferenceId, conference);
      conferences := conferences[conferenceId := conference];
    }

    /** The forEach over findByConferenceIdAndStatus(conferenceId, WAITLISTED). */
    method CancelWaitlisted(conferenceId: string)
      requires Valid()
      modifies this
      ensures Valid()
      ensures bookings == CancelStranded(old(bookings), {conferenceId})
      ensures ChannelState() == old(ChannelState()) && users == old(users)
    {
      var waitlisted := set id | id in bookings && Stranded(bookings[id], {conferenceId});
      var rows := CancelEach(bookings, waitlisted);
      CancelStrandedConsistent(bookings, conferences, queues, processed, {conferenceId});
      CancelEachStranded(bookings, conferenceId, waitlisted, rows);
      bookings := rows;
    }

    /** The receive loop that empties a queue. */
    method DrainAll(queueId: string)
      requires Valid() && queueId in queues
      modifies this
      ensures Valid()
      ensures queues == old(queues)[queueId := []]
      ensures bookings == old(bookings) && conferences == old(conferences) && processed == old(processed)
              && users == old(users)
    {
      var queue := queues[queueId];
      while queue != []
        invariant unchanged(this)
        decreases |queue|
      {
        queue := queue[1..];
      }
      QueuesOkUpdate(queues, queueId, queue);
      ConferencesOkMoreQueues(conferences, queues, queues[queueId := queue]);
      queues := queues[queueId := queue];
    }

    /** checkProcessingBookingsExpiration(): `processing` is what
        findByStatus(PROCESSING) returns (each PROCESSING booking once), `failing`
        the bookings whose publish throws; the exception ends the sweep. */
    method CheckProcessingBookingsExpiration(now: int, processing: seq<string>, failing: set<string>)
      returns (r: Outcome<Failure>)
      requires Valid()
      requires forall i :: 0 <= i < |processing| ==>
                 processing[i] in bookings && bookings[processing[i]].status == Processing
      requires forall id :: id in bookings && bookings[id].status == Processing ==> id in processing
      requires forall i, j :: 0 <= i < j < |processing| ==> processing[i] != processing[j]
      modifies this
      ensures Valid() && users == old(users)
      ensures var sweep := ExpireAll(old(bookings), old(ChannelState()), processing, now, failing);
              bookings == sweep.bookings && ChannelState() == sweep.channel
              && (r.Fail? <==> sweep.aborted) && (r.Fail? ==> r.error == QueueUnavailable)
    {
      ghost var sweep := ExpireAll(bookings, ChannelState(), processing, now, failing);
      var i := 0;
      while i < |processing|
        invariant Valid() && users == old(users)
        invariant 0 <= i <= |processing| && bookings.Keys == old(bookings).Keys
        invariant ExpireAll(bookings, ChannelState(), processing[i..], now, failing) == sweep
        decreases |processing| - i
      {
        assert processing[i..][0] == processing[i] && processing[i..][1..] == processing[i + 1..];
        var sent := ExpireOne(processing[i], processing[i..], now, failing);
        if sent == SendFailed {
          return Fail(QueueUnavailable);
        }
        i := i + 1;
      }
      r := Pass;
    }

    /** One booking of checkProcessingBookingsExpiration: back to WAITLISTED at `now`
        and enqueued again once its confirmation window has passed. */
    method ExpireOne(id: string, ghost ids: seq<string>, now: int, failing: set<string>) returns (sent: SendResult)
      requires Valid() && id in bookings && ids != [] && ids[0] == id
      modifies this
      ensures Valid() && users == old(users) && bookings.Keys == old(bookings).Keys
      ensures var sweep := ExpireAll(old(bookings), old(ChannelState()), ids, now, failing);
              if sent == SendFailed then sweep == Sweep(bookings, ChannelState(), true)
              else sweep == ExpireAll(bookings, ChannelState(), ids[1..], now, failing)
    {
      var booking := bookings[id];
      assert booking.id == id && booking.conferenceId in conferences;
      ExpireAllUnfold(bookings, ChannelState(), ids, now, failing);
      if booking.bookingTime + ConfirmWindow < now {
        booking := booking.(status := Waitlisted, bookingTime := now);
        SaveBooking(booking);
        sent := AddToWaitlistQueue(booking, booking.conferenceId, id in failing);
      } else {
        sent := Skipped;
      }
    }

    /** removeFromOverlappingWaitlists(userId, bookedConference): withdraw the user
        from the queue of every other conference whose span overlaps the booked one. */
    method RemoveFromOverlappingWaitlists(userId: string, booked: Conference)
      requires Valid()
      modifies this
      ensures Valid()
      ensures var names := QueuesOf(AffectedConferences(old(conferences), booked));
              queues == WithdrawAll(old(queues), names, old(bookings), userId)
              && bookings == CancelOwned(old(bookings), MentionedIds(old(queues), names), userId)
      ensures conferences == old(conferences) && processed == old(processed) && users == old(users)
    {
      ghost var q0 := queues;
      ghost var b0 := bookings;
      var todo := AffectedConferences(conferences, booked);
      ghost var all := todo;
      ghost var done: set<string> := {};
      assert QueuesOf(done) == {};
      assert WithdrawAll(q0, {}, b0, userId) == q0;
      assert CancelOwned(b0, MentionedIds(q0, {}), userId) == b0;
      while todo != {}
        invariant Valid()
        invariant todo + done == all && todo !! done && all <= conferences.Keys
        invariant queues == WithdrawAll(q0, QueuesOf(done), b0, userId)
        invariant bookings == CancelOwned(b0, MentionedIds(q0, QueuesOf(done)), userId)
        invariant conferences == old(conferences) && processed == old(processed) && users == old(users)
        decreases |todo|
      {
        var cid :| cid in todo;
        var conference := conferences[cid];
        assert conference.waitlistQueueId.Some? && ConferenceOk(cid, conference, queues);
        var queueId := conference.waitlistQueueId.value;
        QueuesOfAdd(done, cid);
        WithdrawOneMore(q0, b0, QueuesOf(done), queueId, queues, bookings, userId);
        RemoveUserFromWaitlist(userId, queueId);
        MoveOne(todo, done, all, cid);
        todo := todo - {cid};
        done := done + {cid};
      }
    }

    /** removeUserFromWaitlist(userId, conference): drain the queue, cancel the user's
        bookings found on it, re-send the other users' messages at priority 1. */
    method RemoveUserFromWaitlist(userId: string, queueId: string)
      requires Valid() && queueId in queues
      modifies this
      ensures Valid()
      ensures queues == old(queues)[queueId := Withdrawn(old(queues[queueId]), old(bookings), userId)]
      ensures bookings == CancelOwned(old(bookings), IdsOf(old(queues[queueId])), userId)
      ensures conferences == old(conferences) && processed == old(processed) && users == old(users)
    {
      ghost var q0 := queues[queueId];
      assert QueueOk(q0);
      // receive() hands out the head: a queue of the service is tiered
      assert Delivery(q0) == q0 by {
        DeliveryIsSequenceOrder(q0);
      }
      WithdrawConsistent(bookings, conferences, queues, processed, queueId, userId);
      ghost var queuesAfter := queues[queueId := Withdrawn(q0, bookings, userId)];
      ghost var rowsAfter := CancelOwned(bookings, IdsOf(q0), userId);
      var messages := DrainQueue(userId, queueId);
      assert [] + Requeued(messages) == Withdrawn(q0, old(bookings), userId);
      ghost var drained := queues;
      RequeueAll(queueId, messages);
      assert queues == drained[queueId := Withdrawn(q0, old(bookings), userId)];
      UpdateTwice(old(queues), queueId, [], Withdrawn(q0, old(bookings), userId));
      assert queues == queuesAfter;
      assert bookings == rowsAfter;
    }

    /** The receive loop of removeUserFromWaitlist. */
    method DrainQueue(userId: string, queueId: string) returns (messages: seq<Entry>)
      requires queueId in queues
      modifies this
      ensures queues == old(queues)[queueId := []]
      ensures messages == Kept(old(queues[queueId]), old(bookings), userId)
      ensures bookings == CancelOwned(old(bookings), IdsOf(old(queues[queueId])), userId)
      ensures conferences == old(conferences) && processed == old(processed) && users == old(users)
    {
      ghost var q0 := queues[queueId];
      ghost var b0 := bookings;
      var queue := queues[queueId];
      var rows := bookings;
      messages := [];
      ghost var k := 0;
      while queue != []
        invariant unchanged(this)
        invariant 0 <= k <= |q0| && queue == q0[k..]
        invariant messages == Kept(q0[..k], b0, userId)
        invariant rows == CancelOwned(b0, IdsOf(q0[..k]), userId)
        decreases |queue|
      {
        // receive() hands out the head and acknowledges it
        var message := queue[0];
        queue := queue[1..];
        DrainStep(q0, k, b0, rows, messages, userId);
        if message.bookingId in rows && rows[message.bookingId].userId != userId {
          messages := messages + [message];
        } else if message.bookingId in rows {
          rows := rows[message.bookingId := rows[message.bookingId].(status := Cancelled)];
        }
        k := k + 1;
      }
      assert q0[..k] == q0;
      queues := queues[queueId := queue];
      bookings := rows;
    }

    /** The forEach of removeUserFromWaitlist: re-send each kept message at priority 1. */
    method RequeueAll(queueId: string, messages: seq<Entry>)
      requires queueId in queues
      modifies this
      ensures queues == old(queues)[queueId := old(queues[queueId]) + Requeued(messages)]
      ensures bookings == old(bookings) && conferences == old(conferences) && processed == old(processed)
              && users == old(users)
    {
      ghost var q0 := queues[queueId];
      var queue := queues[queueId];
      var i := 0;
      while i < |messages|
        invariant unchanged(this)
        invariant 0 <= i <= |messages|
        invariant |queue| == |q0| + i && queue[..|q0|] == q0
        invariant forall j :: 0 <= j < i ==> queue[|q0| + j] == Entry(messages[j].bookingId, 1)
      {
        // basicPublish with priority 1
        queue := queue + [Entry(messages[i].bookingId, 1)];
        i := i + 1;
      }
      assert queue == q0 + Requeued(messages);
      queues := queues[queueId := queue];
    }
  }
}
