/** The per-conference waitlist queues as the booking service uses them: queue
    names, the JSON message body and how its booking id is read back, priority
    tiers, the drain-and-requeue filter and idempotent publishing. */
module Waitlist {
  import opened Wrappers
  import opened JavaText
  import opened Entities

  /** A message on a waitlist queue: the BookingMessage's booking id and the AMQP
      priority it was published with (0 by default, 1 when re-sent). */
  datatype Entry = Entry(bookingId: string, priority: nat)

  /** The idempotency key `bookingId + "_" + bookingTime`. */
  datatype IdempotencyKey = IdempotencyKey(bookingId: string, bookingTime: int)

  const QueuePrefix: string := "conference.waitlist."

  function QueueName(conferenceId: string): (r: string)
    ensures |r| == |QueuePrefix| + |conferenceId| && r[|QueuePrefix|..] == conferenceId
  {
    QueuePrefix + conferenceId
  }

  /** Distinct conferences get distinct queues. */
  lemma QueueNameInjective(a: string, b: string)
    requires QueueName(a) == QueueName(b)
    ensures a == b
  {
    assert a == QueueName(a)[|QueuePrefix|..];
  }

  // ---------------------------------------------------------------------------
  // Priorities

  function WithPriority(q: seq<Entry>, p: nat): (r: seq<Entry>)
    ensures |r| <= |q|
  {
    if q == [] then [] else (if q[0].priority == p then [q[0]] else []) + WithPriority(q[1..], p)
  }

  /** The order a queue declared with x-max-priority 1 delivers its messages:
      priority 1 first, each priority in publishing order. */
  function Delivery(q: seq<Entry>): seq<Entry> {
    WithPriority(q, 1) + WithPriority(q, 0)
  }

  /** Every priority is 0 or 1 and no priority-1 entry follows a priority-0 one. */
  predicate Tiered(q: seq<Entry>) {
    (forall i :: 0 <= i < |q| ==> q[i].priority <= 1)
    && forall i, j :: 0 <= i < j < |q| ==> q[i].priority >= q[j].priority
  }

  lemma {:induction false} AllZero(q: seq<Entry>)
    requires forall i :: 0 <= i < |q| ==> q[i].priority == 0
    ensures WithPriority(q, 1) == [] && WithPriority(q, 0) == q
  {
    if q != [] {
      AllZero(q[1..]);
    }
  }

  /** For a tiered queue the delivery order is the sequence order, so taking the
      head of the sequence is what `receive`/`basicGet` returns. */
  lemma {:induction false} DeliveryIsSequenceOrder(q: seq<Entry>)
    requires Tiered(q)
    ensures Delivery(q) == q
  {
    if q != [] {
      if q[0].priority == 1 {
        assert Tiered(q[1..]);
        DeliveryIsSequenceOrder(q[1..]);
      } else {
        AllZero(q);
      }
    }
  }

  // ---------------------------------------------------------------------------
  // The message body and line 287's reading of it

  const BodyKey: string := "bookingId"

  /** The Jackson encoding of `new BookingMessage(id)`: `{"bookingId":"<id>"}`.
      Once its braces and quotes are stripped it reads `bookingId:<id>`. */
  function MessageBody(id: string): (r: string)
    ensures StripJsonChars(r) == BodyKey + [':'] + StripJsonChars(id)
  {
    KeyPlain(BodyKey);
    StripBody(BodyKey, id);
    ['{', '"'] + BodyKey + ['"', ':', '"'] + id + ['"', '}']
  }

  predicate IsJsonPunctuation(c: char) {
    c == '{' || c == '}' || c == '"'
  }

  /** `replaceAll("[{}\"]", "")`. */
  function StripJsonChars(s: string): string {
    if s == [] then []
    else (if IsJsonPunctuation(s[0]) then [] else [s[0]]) + StripJsonChars(s[1..])
  }

  /** The stripped string keeps exactly the characters of `s` that are not braces
      or quotes. */
  lemma {:induction false} StripMembers(s: string)
    ensures forall c :: c in StripJsonChars(s) <==> c in s && !IsJsonPunctuation(c)
  {
    if s != [] {
      StripMembers(s[1..]);
      assert s == [s[0]] + s[1..];
    }
  }

  /** `String.join(":", fs)`. */
  function JoinColon(fs: seq<string>): string {
    if fs == [] then "" else if |fs| == 1 then fs[0] else fs[0] + ":" + JoinColon(fs[1..])
  }

  /** The text between the colons, leading and trailing empty fields included:
      joining them with colons gives `s` back. */
  function Fields(s: string): (r: seq<string>)
    ensures |r| >= 1 && JoinColon(r) == s
    ensures forall i :: 0 <= i < |r| ==> ':' !in r[i] && forall c :: c in r[i] ==> c in s
  {
    if s == [] then [""]
    else
      var rest := Fields(s[1..]);
      assert s == [s[0]] + s[1..];
      if s[0] == ':' then
        assert ([""] + rest)[1..] == rest;
        [""] + rest
      else
        var r := [[s[0]] + rest[0]] + rest[1..];
        assert r[1..] == rest[1..];
        assert forall i :: 1 <= i < |r| ==> r[i] == rest[i];
        r
  }

  function DropTrailingEmpty(fs: seq<string>): (r: seq<string>)
    ensures |r| <= |fs| && r == fs[..|r|]
    ensures r == [] || r[|r| - 1] != ""
    ensures forall i :: |r| <= i < |fs| ==> fs[i] == ""
  {
    if fs != [] && fs[|fs| - 1] == "" then DropTrailingEmpty(fs[..|fs| - 1]) else fs
  }

  /** String.split(":"): with no colon the string itself; otherwise the fields
      between the colons, of which only trailing empty ones are dropped. */
  function JavaSplitColon(s: string): (r: seq<string>)
    ensures forall i :: 0 <= i < |r| ==> ':' !in r[i] && forall c :: c in r[i] ==> c in s
    ensures ':' !in s ==> r == [s]
    ensures ':' in s ==> && |r| <= |Fields(s)| && r == Fields(s)[..|r|] && (r == [] || r[|r| - 1] != "")
                         && forall i :: |r| <= i < |Fields(s)| ==> Fields(s)[i] == ""
  {
    if ':' !in s then [s] else DropTrailingEmpty(Fields(s))
  }

  /** `messageBody.replaceAll("[{}\"]", "").split(":")[1].trim()`; None is the
      ArrayIndexOutOfBoundsException of a body with fewer than two fields, which
      is every body without a colon. An id read back is a piece of the body with
      no colon, brace or quote in it and nothing for trim() at either end. */
  function ExtractBookingId(body: string): (r: Option<string>)
    ensures ':' !in body ==> r.None?
    ensures r.Some? ==> forall c :: c in r.value ==> c in body && c != ':' && !IsJsonPunctuation(c)
    ensures r.Some? ==> r.value == [] || (!IsTrimmable(r.value[0]) && !IsTrimmable(r.value[|r.value| - 1]))
  {
    StripMembers(body);
    var parts := JavaSplitColon(StripJsonChars(body));
    if |parts| < 2 then None else Some(Trim(parts[1]))
  }

  /** UUID.toString(): lower-case hexadecimal digits and hyphens. */
  predicate UuidShaped(s: string) {
    s != [] && forall i :: 0 <= i < |s| ==> ('0' <= s[i] <= '9') || ('a' <= s[i] <= 'f') || s[i] == '-'
  }

  lemma {:induction false} StripAppend(a: string, b: string)
    ensures StripJsonChars(a + b) == StripJsonChars(a) + StripJsonChars(b)
  {
    if a == [] {
      assert a + b == b;
    } else {
      assert (a + b)[0] == a[0] && (a + b)[1..] == a[1..] + b;
      StripAppend(a[1..], b);
    }
  }

  lemma {:induction false} StripKeeps(s: string)
    requires forall i :: 0 <= i < |s| ==> !IsJsonPunctuation(s[i])
    ensures StripJsonChars(s) == s
  {
    if s != [] {
      StripKeeps(s[1..]);
      assert s == [s[0]] + s[1..];
    }
  }

  lemma {:induction false} FieldsNoColon(s: string)
    requires ':' !in s
    ensures Fields(s) == [s]
  {
    if s != [] {
      assert ':' !in s[1..];
      FieldsNoColon(s[1..]);
      assert s == [s[0]] + s[1..];
    }
  }

  lemma {:induction false} FieldsAfterColon(a: string, b: string)
    requires ':' !in a
    ensures Fields(a + ":" + b) == [a] + Fields(b)
  {
    if a == [] {
      assert a + ":" + b == [':'] + b;
      assert ([':'] + b)[1..] == b;
    } else {
      assert ':' !in a[1..];
      FieldsAfterColon(a[1..], b);
      assert (a + ":" + b)[1..] == a[1..] + ":" + b;
      assert (a + ":" + b)[0] == a[0];
      assert a == [a[0]] + a[1..];
    }
  }

  lemma KeyPlain(w: string)
    requires w == BodyKey
    ensures StripJsonChars(w) == w && ':' !in w
  {
    forall i | 0 <= i < |w|
      ensures !IsJsonPunctuation(w[i]) && w[i] != ':'
    {
      assert w[i] in "bookingId";
    }
    StripKeeps(w);
  }

  lemma StripCons(c: char, s: string)
    ensures StripJsonChars([c] + s) == (if IsJsonPunctuation(c) then [] else [c]) + StripJsonChars(s)
  {
    assert ([c] + s)[0] == c && ([c] + s)[1..] == s;
  }

  lemma StripTail(id: string)
    ensures StripJsonChars(['"', ':', '"'] + id + ['"', '}']) == [':'] + StripJsonChars(id)
  {
    var t7 := ['"'] + ['}'];
    StripCons('}', []);
    StripCons('"', ['}']);
    var t6 := id + t7;
    StripAppend(id, t7);
    var t5 := ['"'] + t6;
    StripCons('"', t6);
    var t4 := [':'] + t5;
    StripCons(':', t5);
    var t3 := ['"'] + t4;
    StripCons('"', t4);
    assert ['"', ':', '"'] + id + ['"', '}'] == t3;
  }

  /** The stripped message body, taken apart one piece at a time. */
  lemma StripBody(w: string, id: string)
    requires StripJsonChars(w) == w
    ensures StripJsonChars(['{', '"'] + w + ['"', ':', '"'] + id + ['"', '}']) == w + [':'] + StripJsonChars(id)
  {
    var tail := ['"', ':', '"'] + id + ['"', '}'];
    StripTail(id);
    StripAppend(w, tail);
    StripCons('"', w + tail);
    StripCons('{', ['"'] + (w + tail));
    assert ['{', '"'] + w + ['"', ':', '"'] + id + ['"', '}'] == ['{'] + (['"'] + (w + tail));
  }

  lemma SplitBody(w: string, id: string)
    requires ':' !in w && UuidShaped(id)
    ensures JavaSplitColon(w + [':'] + id) == [w, id]
  {
    var stripped := w + [':'] + id;
    assert stripped[|w|] == ':';
    assert ':' !in id;
    assert w + ":" + id == stripped;
    FieldsAfterColon(w, id);
    FieldsNoColon(id);
  }

  /** Line 287 reads back exactly the id a message was published with, for every
      id UUID.randomUUID() can produce. */
  lemma ExtractRoundTrip(id: string)
    requires UuidShaped(id)
    ensures ExtractBookingId(MessageBody(id)) == Some(id)
  {
    StripKeeps(id);
    KeyPlain(BodyKey);
    SplitBody(BodyKey, id);
    TrimNoop(id);
  }

  // ---------------------------------------------------------------------------
  // Draining a queue for one user (removeUserFromWaitlist)

  /** An entry survives the drain when its booking exists and belongs to another
      user. */
  predicate KeepsEntry(e: Entry, bookings: map<string, Booking>, userId: string) {
    e.bookingId in bookings && bookings[e.bookingId].userId != userId
  }

  function Kept(q: seq<Entry>, bookings: map<string, Booking>, userId: string): (r: seq<Entry>)
    ensures |r| <= |q|
  {
    if q == [] then []
    else (if KeepsEntry(q[0], bookings, userId) then [q[0]] else []) + Kept(q[1..], bookings, userId)
  }

  /** The drain keeps exactly the entries of other users' existing bookings. */
  lemma {:induction false} KeptMembers(q: seq<Entry>, bookings: map<string, Booking>, userId: string)
    ensures forall e :: e in Kept(q, bookings, userId) <==> e in q && KeepsEntry(e, bookings, userId)
  {
    if q != [] {
      KeptMembers(q[1..], bookings, userId);
      assert q == [q[0]] + q[1..];
    }
  }

  /** The kept entries re-sent with priority 1, in the order they were drained. */
  function Requeued(q: seq<Entry>): (r: seq<Entry>)
    ensures |r| == |q| && forall i :: 0 <= i < |q| ==> r[i] == Entry(q[i].bookingId, 1)
  {
    if q == [] then [] else [Entry(q[0].bookingId, 1)] + Requeued(q[1..])
  }

  /** What the drain re-sends: every entry of another user's existing booking, at
      priority 1, and nothing else. */
  lemma RequeuedKept(q: seq<Entry>, bookings: map<string, Booking>, userId: string)
    ensures var r := Requeued(Kept(q, bookings, userId));
            && (forall e :: e in r ==> e.priority == 1 && KeepsEntry(e, bookings, userId))
            && (forall i :: 0 <= i < |q| && KeepsEntry(q[i], bookings, userId) ==> Entry(q[i].bookingId, 1) in r)
  {
    var k := Kept(q, bookings, userId);
    var r := Requeued(k);
    KeptMembers(q, bookings, userId);
    forall e | e in r
      ensures e.priority == 1 && KeepsEntry(e, bookings, userId)
    {
      var i :| 0 <= i < |k| && r[i] == e;
      assert k[i] in k;
    }
    forall i | 0 <= i < |q| && KeepsEntry(q[i], bookings, userId)
      ensures Entry(q[i].bookingId, 1) in r
    {
      assert q[i] in k;
      var j :| 0 <= j < |k| && k[j] == q[i];
      assert r[j] == Entry(q[i].bookingId, 1);
    }
  }

  /** The queue after removeUserFromWaitlist drained `q` in delivery order (the
      sequence order, for a tiered queue) and re-sent what it kept: no more
      entries than before, each at priority 1 and for another user's existing
      booking, and one for every such entry of `q`. */
  function Withdrawn(q: seq<Entry>, bookings: map<string, Booking>, userId: string): (r: seq<Entry>)
    ensures |r| <= |q|
    ensures forall e :: e in r ==> e.priority == 1 && KeepsEntry(e, bookings, userId)
    ensures forall i :: 0 <= i < |q| && KeepsEntry(q[i], bookings, userId) ==> Entry(q[i].bookingId, 1) in r
  {
    RequeuedKept(q, bookings, userId);
    Requeued(Kept(q, bookings, userId))
  }

  lemma {:induction false} KeptAppend(a: seq<Entry>, b: seq<Entry>, bookings: map<string, Booking>, userId: string)
    ensures Kept(a + b, bookings, userId) == Kept(a, bookings, userId) + Kept(b, bookings, userId)
  {
    if a == [] {
      assert a + b == b;
    } else {
      assert (a + b)[0] == a[0] && (a + b)[1..] == a[1..] + b;
      KeptAppend(a[1..], b, bookings, userId);
    }
  }

  /** `bookings` and `other` hold the same rows with the same owners. */
  predicate SameOwners(bookings: map<string, Booking>, other: map<string, Booking>) {
    bookings.Keys == other.Keys && forall id :: id in bookings ==> bookings[id].userId == other[id].userId
  }

  /** The drain's filter looks only at which bookings exist and who owns them. */
  lemma {:induction false} KeptSameOwners(q: seq<Entry>, bookings: map<string, Booking>, other: map<string, Booking>,
                                           userId: string)
    requires SameOwners(bookings, other)
    ensures Kept(q, bookings, userId) == Kept(q, other, userId)
  {
    if q != [] {
      KeptSameOwners(q[1..], bookings, other, userId);
    }
  }

  /** The requeued entries are exactly the kept ones with priority 1, so a
      second drain for the same user (whose bookings may have been cancelled in
      between) changes nothing. */
  lemma {:induction false} KeptRequeued(q: seq<Entry>, bookings: map<string, Booking>, other: map<string, Booking>,
                                         userId: string)
    requires SameOwners(bookings, other)
    requires forall e :: e in q ==> KeepsEntry(e, bookings, userId)
    ensures Kept(Requeued(q), other, userId) == Requeued(q)
  {
    if q != [] {
      KeptRequeued(q[1..], bookings, other, userId);
      assert q[0] in q;
      assert KeepsEntry(Requeued(q)[0], other, userId);
      assert Requeued(q) == [Requeued(q)[0]] + Requeued(q[1..]);
    }
  }

  lemma WithdrawnTiered(q: seq<Entry>, bookings: map<string, Booking>, userId: string)
    ensures Tiered(Withdrawn(q, bookings, userId))
  {
  }

  /** Withdrawing a user twice is the same as withdrawing once. */
  lemma WithdrawnIdempotent(q: seq<Entry>, bookings: map<string, Booking>, other: map<string, Booking>,
                            userId: string)
    requires SameOwners(bookings, other)
    ensures Withdrawn(Withdrawn(q, bookings, userId), other, userId) == Withdrawn(q, bookings, userId)
  {
    var w := Withdrawn(q, bookings, userId);
    var k := Kept(q, bookings, userId);
    KeptMembers(q, bookings, userId);
    KeptRequeued(k, bookings, other, userId);
    assert Kept(w, other, userId) == w;
    assert Requeued(w) == w;
  }

  // ---------------------------------------------------------------------------
  // Publishing (addToWaitlistQueue)

  /** The state addToWaitlistQueue reads and writes. */
  datatype Channel = Channel(conferences: map<string, Conference>, queues: map<string, seq<Entry>>,
                             processed: set<IdempotencyKey>)

  datatype SendResult = Sent | Skipped | SendFailed

  /** The queue a conference publishes to after addToWaitlistQueue named it. */
  function QueueOf(c: Conference): string {
    if c.waitlistQueueId.Some? then c.waitlistQueueId.value else QueueName(c.id)
  }

  /** The first half of addToWaitlistQueue: a conference without a queue gets the
      queue named after it, saved on the conference and declared. */
  function Named(ch: Channel, conferenceId: string): (r: Channel)
    requires conferenceId in ch.conferences
    ensures r.conferences.Keys == ch.conferences.Keys && r.processed == ch.processed
    ensures QueueOf(ch.conferences[conferenceId]) in r.queues || ch.conferences[conferenceId].waitlistQueueId.Some?
  {
    var c := ch.conferences[conferenceId];
    if c.waitlistQueueId.Some? then ch
    else
      var qid := QueueOf(c);
      Channel(ch.conferences[conferenceId := c.(waitlistQueueId := Some(qid))],
              if qid in ch.queues then ch.queues else ch.queues[qid := []],
              ch.processed)
  }

  /** The second half: skip a key already recorded, otherwise record the key and
      publish; a failed publish forgets the key again. A message for a queue that
      was never declared is dropped by the broker. */
  function Publish(ch: Channel, queueId: string, b: Booking, sendFails: bool): (r: (Channel, SendResult))
    ensures r.0.conferences == ch.conferences && ch.queues.Keys == r.0.queues.Keys
    ensures r.0.processed == if sendFails then ch.processed else ch.processed + {IdempotencyKey(b.id, b.bookingTime)}
  {
    var key := IdempotencyKey(b.id, b.bookingTime);
    if key in ch.processed then (ch, Skipped)
    else if sendFails then (ch, SendFailed)
    else if queueId !in ch.queues then (ch.(processed := ch.processed + {key}), Sent)
    else (Channel(ch.conferences, ch.queues[queueId := ch.queues[queueId] + [Entry(b.id, 0)]], ch.processed + {key}),
          Sent)
  }

  /** addToWaitlistQueue(booking, conference). */
  function Enqueue(ch: Channel, b: Booking, conferenceId: string, sendFails: bool): (r: (Channel, SendResult))
    requires conferenceId in ch.conferences
    ensures r.0.conferences.Keys == ch.conferences.Keys && ch.queues.Keys <= r.0.queues.Keys
    ensures r.0.processed == if sendFails then ch.processed else ch.processed + {IdempotencyKey(b.id, b.bookingTime)}
  {
    Publish(Named(ch, conferenceId), QueueOf(ch.conferences[conferenceId]), b, sendFails)
  }

  /** A publish with a new key and a working broker records the key and appends the
      booking at the default priority to the conference's queue, naming and
      declaring that queue first if the conference had none; no other queue and
      no other conference changes. */
  lemma EnqueueAppends(ch: Channel, b: Booking, conferenceId: string)
    requires conferenceId in ch.conferences
    requires var c := ch.conferences[conferenceId]; c.id == conferenceId && (c.waitlistQueueId.Some? ==> c.waitlistQueueId.value in ch.queues)
    requires IdempotencyKey(b.id, b.bookingTime) !in ch.processed
    ensures var (after, res) := Enqueue(ch, b, conferenceId, false);
            var c := ch.conferences[conferenceId];
            var qid := if c.waitlistQueueId.Some? then c.waitlistQueueId.value else QueueName(conferenceId);
            && res == Sent
            && after.conferences == ch.conferences[conferenceId := c.(waitlistQueueId := Some(qid))]
            && after.queues == ch.queues[qid := (if qid in ch.queues then ch.queues[qid] else []) + [Entry(b.id, 0)]]
            && after.processed == ch.processed + {IdempotencyKey(b.id, b.bookingTime)}
  {
  }

  /** Enqueueing the same booking again, with the same booking time, adds nothing. */
  lemma EnqueueTwice(ch: Channel, b: Booking, conferenceId: string, sendFails: bool)
    requires conferenceId in ch.conferences
    ensures var first := Enqueue(ch, b, conferenceId, false).0;
            Enqueue(first, b, conferenceId, sendFails) == (first, Skipped)
  {
  }

  /** A failed publish leaves the key free, so a retry publishes. */
  lemma EnqueueRetry(ch: Channel, b: Booking, conferenceId: string)
    requires conferenceId in ch.conferences
    requires Enqueue(ch, b, conferenceId, true).1 == SendFailed
    ensures var failed := Enqueue(ch, b, conferenceId, true).0;
            failed.processed == ch.processed && Enqueue(failed, b, conferenceId, false).1 == Sent
  {
  }

  /** `after` is `before` with messages appended and queue ids given: no conference
      or queue disappears, a queue only grows at its tail and a conference keeps
      the queue id it had. */
  predicate ChannelGrows(before: Channel, after: Channel) {
    && before.conferences.Keys == after.conferences.Keys && before.queues.Keys <= after.queues.Keys
    && (forall q :: q in before.queues ==> before.queues[q] <= after.queues[q])
    && forall cid :: cid in before.conferences && before.conferences[cid].waitlistQueueId.Some? ==>
         after.conferences[cid].waitlistQueueId == before.conferences[cid].waitlistQueueId
  }

  lemma ChannelGrowsTrans(a: Channel, b: Channel, c: Channel)
    requires ChannelGrows(a, b) && ChannelGrows(b, c)
    ensures ChannelGrows(a, c)
  {
    forall q | q in a.queues
      ensures a.queues[q] <= c.queues[q]
    {
      assert a.queues[q] == b.queues[q][..|a.queues[q]|];
    }
  }

  /** addToWaitlistQueue only ever appends and names. */
  lemma EnqueueGrows(ch: Channel, b: Booking, conferenceId: string, sendFails: bool)
    requires conferenceId in ch.conferences
    ensures ChannelGrows(ch, Enqueue(ch, b, conferenceId, sendFails).0)
  {
    var n := Named(ch, conferenceId);
    assert ChannelGrows(ch, n);
  }

  /** Publishing at the default priority keeps every queue tiered. */
  lemma EnqueueTiered(ch: Channel, b: Booking, conferenceId: string, sendFails: bool)
    requires conferenceId in ch.conferences
    requires forall q :: q in ch.queues ==> Tiered(ch.queues[q])
    ensures var after := Enqueue(ch, b, conferenceId, sendFails).0;
            forall q :: q in after.queues ==> Tiered(after.queues[q])
  {
  }
}
