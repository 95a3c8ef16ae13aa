/** ConferenceServiceImpl: conference creation defaults, the search filter, the
    per-user booking annotations, the two-key ordering of search results and the
    upcoming-conference listing. */
module ConferenceService {
  import opened Wrappers
  import opened JavaText
  import opened Entities
  import opened StableSort
  import CV = ConferenceValidator

  /** createConference before the repository write: a conference without an id is
      rebuilt with `freshId` (UUID.randomUUID()), its validated fields, all of its
      slots free and the builder defaults for the rest; then the validator runs. */
  method PrepareConference(d: ConferenceDraft, freshId: string) returns (r: Result<Conference, seq<CV.ConferenceError>>)
    ensures r.Ok? <==> CV.Passes(d)
    ensures r.Err? ==> r.error != [] && CV.InCheckOrder(r.error)
    ensures r.Ok? ==> r.value.id == (if d.id.Some? then d.id.value else freshId)
    ensures r.Ok? ==> r.value.name == d.name.value && r.value.location == d.location.value
                      && r.value.topics == d.topics && r.value.start == d.start.value
                      && r.value.end == d.end.value && r.value.totalSlots == d.totalSlots
    ensures r.Ok? && d.id.None? ==>
              r.value.availableSlots == d.totalSlots && r.value.waitlistQueueId.None? && !r.value.fullyBooked
    ensures r.Ok? && d.id.Some? ==>
              r.value.availableSlots == d.availableSlots && r.value.waitlistQueueId == d.waitlistQueueId
              && r.value.fullyBooked == d.fullyBooked
  {
    var c := d;
    if c.id.None? {
      c := ConferenceDraft(Some(freshId), d.name, d.location, d.topics, d.start, d.end,
                           d.totalSlots, d.totalSlots, None, false);
    }
    var v := CV.Validate(c);
    if v.Rejected? {
      return Err(v.errors);
    }
    r := Ok(Conference(c.id.value, c.name.value, c.location.value, c.topics, c.start.value, c.end.value,
                       c.totalSlots, c.availableSlots, c.waitlistQueueId, c.fullyBooked));
  }

  /** ConferenceSearchDTO. */
  datatype SearchCriteria = SearchCriteria(
    userId: string,
    name: Option<string>,
    location: Option<string>,
    topics: Option<seq<string>>,
    startDate: Option<int>,
    endDate: Option<int>,
    timeframe: Option<string>)

  /** A text criterion applies when it is non-null and non-empty (not trimmed). */
  predicate Given(s: Option<string>) {
    s.Some? && s.value != ""
  }

  predicate NameMatches(c: Conference, q: SearchCriteria) {
    Given(q.name) ==> ContainsIgnoreCase(c.name, q.name.value)
  }

  predicate LocationMatches(c: Conference, q: SearchCriteria) {
    Given(q.location) ==> ContainsIgnoreCase(c.location, q.location.value)
  }

  predicate TopicsMatch(c: Conference, q: SearchCriteria) {
    q.topics.Some? && q.topics.value != [] ==>
      exists i, j :: 0 <= i < |c.topics| && 0 <= j < |q.topics.value|
                     && ContainsIgnoreCase(c.topics[i], q.topics.value[j])
  }

  predicate InDateRange(c: Conference, q: SearchCriteria) {
    (q.startDate.Some? ==> q.startDate.value <= c.start) && (q.endDate.Some? ==> c.end <= q.endDate.value)
  }

  /** "upcoming" keeps conferences not yet started, "past" those already over; any
      other timeframe keeps everything. */
  predicate InTimeframe(c: Conference, timeframe: string, now: int) {
    (timeframe == "upcoming" ==> c.start > now) && (timeframe == "past" ==> c.end < now)
  }

  /** `searchTopics.stream().anyMatch(s -> topic.toLowerCase().contains(s.toLowerCase()))`. */
  function AnySearchTopicIn(topic: string, searchTopics: seq<string>): (r: bool)
    ensures r <==> exists j :: 0 <= j < |searchTopics| && ContainsIgnoreCase(topic, searchTopics[j])
  {
    if searchTopics == [] then false
    else ContainsIgnoreCase(topic, searchTopics[0]) || AnySearchTopicIn(topic, searchTopics[1..])
  }

  /** `topics.stream().anyMatch(topic -> ...)` over the conference's topics. */
  function AnyTopicMatches(topics: seq<string>, searchTopics: seq<string>): (r: bool)
    ensures r <==> exists i, j :: 0 <= i < |topics| && 0 <= j < |searchTopics|
                                  && ContainsIgnoreCase(topics[i], searchTopics[j])
  {
    if topics == [] then false
    else
      var here := AnySearchTopicIn(topics[0], searchTopics);
      var rest := AnyTopicMatches(topics[1..], searchTopics);
      assert rest ==> exists i, j :: 0 <= i < |topics| && 0 <= j < |searchTopics|
                                     && ContainsIgnoreCase(topics[i], searchTopics[j]) by {
        if rest {
          var i, j :| 0 <= i < |topics[1..]| && 0 <= j < |searchTopics| && ContainsIgnoreCase(topics[1..][i], searchTopics[j]);
          assert topics[i + 1] == topics[1..][i];
        }
      }
      here || rest
  }

  /** matchesSearchCriteria. The timeframe switch throws on a null timeframe, which
      searchConferences never lets reach this filter. */
  function MatchesSearchCriteria(c: Conference, q: SearchCriteria, now: int): (r: bool)
    requires q.timeframe.Some?
    ensures r <==> NameMatches(c, q) && LocationMatches(c, q) && TopicsMatch(c, q)
                   && InDateRange(c, q) && InTimeframe(c, q.timeframe.value, now)
  {
    if Given(q.name) && !ContainsIgnoreCase(c.name, q.name.value) then false
    else if Given(q.location) && !ContainsIgnoreCase(c.location, q.location.value) then false
    else if q.topics.Some? && q.topics.value != [] && !AnyTopicMatches(c.topics, q.topics.value) then false
    else if q.startDate.Some? && c.start < q.startDate.value then false
    else if q.endDate.Some? && c.end > q.endDate.value then false
    else if q.timeframe.value == "upcoming" then c.start > now
    else if q.timeframe.value == "past" then c.end < now
    else true
  }

  /** Collectors.toMap(conferenceId, status, (existing, replacement) -> existing)
      over the user's bookings. */
  function StatusMap(bookings: seq<Booking>): (m: map<string, Status>)
    ensures forall cid :: cid in m <==> exists i :: 0 <= i < |bookings| && bookings[i].conferenceId == cid
    ensures forall cid :: cid in m ==> exists i :: FirstFor(bookings, cid, i) && m[cid] == bookings[i].status
  {
    if bookings == [] then map[]
    else
      var rest := StatusMap(bookings[1..]);
      var m := rest[bookings[0].conferenceId := bookings[0].status];
      assert forall cid :: cid in m ==> exists i :: FirstFor(bookings, cid, i) && m[cid] == bookings[i].status by {
        forall cid | cid in m
          ensures exists i :: FirstFor(bookings, cid, i) && m[cid] == bookings[i].status
        {
          if cid == bookings[0].conferenceId {
            assert FirstFor(bookings, cid, 0);
          } else {
            var i :| FirstFor(bookings[1..], cid, i) && rest[cid] == bookings[1..][i].status;
            assert FirstFor(bookings, cid, i + 1);
          }
        }
      }
      assert forall cid :: (exists i :: 0 <= i < |bookings| && bookings[i].conferenceId == cid) ==> cid in m by {
        forall cid | exists i :: 0 <= i < |bookings| && bookings[i].conferenceId == cid
          ensures cid in m
        {
          var i :| 0 <= i < |bookings| && bookings[i].conferenceId == cid;
          if i > 0 {
            assert bookings[1..][i - 1].conferenceId == cid;
          }
        }
      }
      m
  }

  /** `i` is the position of the first booking for `cid`. */
  predicate FirstFor(bookings: seq<Booking>, cid: string, i: int) {
    0 <= i < |bookings| && bookings[i].conferenceId == cid
    && forall j :: 0 <= j < i ==> bookings[j].conferenceId != cid
  }

  /** A search hit with the two transient fields the search fills in. */
  datatype Listing = Listing(conference: Conference, hasActiveBooking: bool, bookingStatus: Option<Status>)

  /** The peek step: hasActiveBooking iff a status is recorded and it is not
      CANCELLED; bookingStatus is set only when a status is recorded. */
  function Annotate(c: Conference, m: map<string, Status>): (l: Listing)
    ensures l.conference == c
    ensures l.hasActiveBooking <==> c.id in m && m[c.id] != Cancelled
    ensures l.bookingStatus == (if c.id in m then Some(m[c.id]) else None)
  {
    Listing(c, c.id in m && m[c.id] != Cancelled, if c.id in m then Some(m[c.id]) else None)
  }

  function AnnotateAll(cs: seq<Conference>, m: map<string, Status>): (r: seq<Listing>)
    ensures |r| == |cs| && forall i :: 0 <= i < |cs| ==> r[i] == Annotate(cs[i], m)
  {
    if cs == [] then [] else [Annotate(cs[0], m)] + AnnotateAll(cs[1..], m)
  }

  function Filtered(cs: seq<Conference>, q: SearchCriteria, now: int): (r: seq<Conference>)
    requires q.timeframe.Some?
    ensures forall c :: c in r <==> c in cs && MatchesSearchCriteria(c, q, now)
  {
    if cs == [] then []
    else (if MatchesSearchCriteria(cs[0], q, now) then [cs[0]] else []) + Filtered(cs[1..], q, now)
  }

  /** The filter runs over the repository's list in order: filtering a
      concatenation filters each part and keeps them in order. */
  lemma {:induction false} FilteredAppend(a: seq<Conference>, b: seq<Conference>, q: SearchCriteria, now: int)
    requires q.timeframe.Some?
    ensures Filtered(a + b, q, now) == Filtered(a, q, now) + Filtered(b, q, now)
  {
    if a == [] {
      assert a + b == b;
    } else {
      assert (a + b)[0] == a[0] && (a + b)[1..] == a[1..] + b;
      FilteredAppend(a[1..], b, q, now);
    }
  }

  /** The filter keeps every copy of a matching conference and no copy of any
      other. */
  lemma {:induction false} FilteredCount(cs: seq<Conference>, q: SearchCriteria, now: int)
    requires q.timeframe.Some?
    ensures forall c :: multiset(Filtered(cs, q, now))[c] == if MatchesSearchCriteria(c, q, now) then multiset(cs)[c] else 0
  {
    if cs != [] {
      FilteredCount(cs[1..], q, now);
      assert cs == [cs[0]] + cs[1..];
    }
  }

  /** The comparator: conferences the user has any booking for (CANCELLED
      included) sort last; then ascending start, or descending end for "past". */
  function SearchKey(m: map<string, Status>, timeframe: string): Listing -> SortKey {
    (l: Listing) => SortKey(l.conference.id in m, if timeframe == "past" then -l.conference.end else l.conference.start)
  }

  /** searchConferences. None is the NullPointerException a null timeframe causes
      when the comparator is built, before any conference is filtered. */
  function SearchConferences(all: seq<Conference>, userBookings: seq<Booking>, q: SearchCriteria, now: int)
    : (r: Option<seq<Listing>>)
    ensures r.None? <==> q.timeframe.None?
  {
    if q.timeframe.None? then None
    else
      var m := StatusMap(userBookings);
      Some(SortByKey(AnnotateAll(Filtered(all, q, now), m), SearchKey(m, q.timeframe.value)))
  }

  /** The hits of a search: a permutation of the annotated conferences that meet
      the criteria, each carrying the annotations of its own status. */
  lemma SearchConferencesHits(all: seq<Conference>, userBookings: seq<Booking>, q: SearchCriteria, now: int)
    requires q.timeframe.Some?
    ensures var m := StatusMap(userBookings);
            var r := SearchConferences(all, userBookings, q, now).value;
            && multiset(r) == multiset(AnnotateAll(Filtered(all, q, now), m))
            && forall l :: l in r ==>
                 l.conference in all && MatchesSearchCriteria(l.conference, q, now) && l == Annotate(l.conference, m)
  {
    var m := StatusMap(userBookings);
    var f := Filtered(all, q, now);
    var hits := AnnotateAll(f, m);
    var r := SortByKey(hits, SearchKey(m, q.timeframe.value));
    PermutedListings(f, m, r);
    forall l | l in r
      ensures l.conference in all && MatchesSearchCriteria(l.conference, q, now) && l == Annotate(l.conference, m)
    {
      assert l.conference in f;
    }
  }

  /** A permutation of annotated conferences holds only annotations of those
      conferences. */
  lemma PermutedListings(f: seq<Conference>, m: map<string, Status>, r: seq<Listing>)
    requires multiset(r) == multiset(AnnotateAll(f, m))
    ensures forall l :: l in r ==> l.conference in f && l == Annotate(l.conference, m)
  {
    var hits := AnnotateAll(f, m);
    forall l | l in r
      ensures l.conference in f && l == Annotate(l.conference, m)
    {
      assert l in multiset(hits);
      var i :| 0 <= i < |hits| && hits[i] == l;
      assert f[i] in f;
    }
  }

  /** The order of a search: conferences without a booking by the user come
      first; within each group by ascending start, or by descending end for
      "past". */
  lemma SearchConferencesOrder(all: seq<Conference>, userBookings: seq<Booking>, q: SearchCriteria, now: int)
    requires q.timeframe.Some?
    ensures var m := StatusMap(userBookings);
            var r := SearchConferences(all, userBookings, q, now).value;
            && (forall i, j :: 0 <= i < j < |r| && r[j].conference.id !in m ==> r[i].conference.id !in m)
            && (forall i, j :: 0 <= i < j < |r| && (r[i].conference.id in m <==> r[j].conference.id in m) ==>
                  if q.timeframe.value == "past" then r[i].conference.end >= r[j].conference.end
                  else r[i].conference.start <= r[j].conference.start)
  {
    var m := StatusMap(userBookings);
    var key := SearchKey(m, q.timeframe.value);
    var hits := AnnotateAll(Filtered(all, q, now), m);
    var r := SortByKey(hits, key);
    SortByKeySorted(hits, key);
    forall i, j | 0 <= i < j < |r|
      ensures KeyLe(key(r[i]), key(r[j]))
    {
    }
  }

  /** The sort is stable: hits with the same group and the same sort time keep
      their findAll order. */
  lemma SearchConferencesStable(all: seq<Conference>, userBookings: seq<Booking>, q: SearchCriteria, now: int,
                                k: SortKey)
    requires q.timeframe.Some?
    ensures var m := StatusMap(userBookings);
            var key := SearchKey(m, q.timeframe.value);
            WithKey(SearchConferences(all, userBookings, q, now).value, key, k)
              == WithKey(AnnotateAll(Filtered(all, q, now), m), key, k)
  {
    var m := StatusMap(userBookings);
    SortByKeyStable(AnnotateAll(Filtered(all, q, now), m), SearchKey(m, q.timeframe.value), k);
  }

  function StartKey(): Conference -> SortKey {
    (c: Conference) => SortKey(false, c.start)
  }

  function StartedAfter(cs: seq<Conference>, now: int): (r: seq<Conference>)
    ensures forall c :: c in r <==> c in cs && c.start > now
  {
    if cs == [] then []
    else (if cs[0].start > now then [cs[0]] else []) + StartedAfter(cs[1..], now)
  }

  /** The upcoming filter keeps the repository's order: it distributes over
      concatenation. */
  lemma {:induction false} StartedAfterAppend(a: seq<Conference>, b: seq<Conference>, now: int)
    ensures StartedAfter(a + b, now) == StartedAfter(a, now) + StartedAfter(b, now)
  {
    if a == [] {
      assert a + b == b;
    } else {
      assert (a + b)[0] == a[0] && (a + b)[1..] == a[1..] + b;
      StartedAfterAppend(a[1..], b, now);
    }
  }

  /** The upcoming filter keeps every copy of an upcoming conference and no copy
      of any other. */
  lemma {:induction false} StartedAfterCount(cs: seq<Conference>, now: int)
    ensures forall c :: multiset(StartedAfter(cs, now))[c] == if c.start > now then multiset(cs)[c] else 0
  {
    if cs != [] {
      StartedAfterCount(cs[1..], now);
      assert cs == [cs[0]] + cs[1..];
    }
  }

  /** Sorting by start time alone keeps the same conferences and orders them by
      start. */
  lemma SortedByStart(s: seq<Conference>)
    ensures var r := SortByKey(s, StartKey());
            && multiset(r) == multiset(s)
            && (forall c :: c in r <==> c in s)
            && (forall i, j :: 0 <= i < j < |r| ==> r[i].start <= r[j].start)
  {
    var r := SortByKey(s, StartKey());
    SortByKeySorted(s, StartKey());
    forall c
      ensures c in r <==> c in s
    {
      assert c in r <==> c in multiset(r);
      assert c in s <==> c in multiset(s);
    }
    forall i, j | 0 <= i < j < |r|
      ensures r[i].start <= r[j].start
    {
      assert KeyLe(StartKey()(r[i]), StartKey()(r[j]));
    }
  }

  /** getUpcomingConferences: a permutation of the conferences that start after
      `now`, in ascending order of start. */
  function UpcomingConferences(all: seq<Conference>, now: int): (r: seq<Conference>)
    ensures multiset(r) == multiset(StartedAfter(all, now))
    ensures forall c :: c in r <==> c in all && c.start > now
    ensures forall i, j :: 0 <= i < j < |r| ==> r[i].start <= r[j].start
    ensures forall c :: multiset(r)[c] == if c.start > now then multiset(all)[c] else 0
  {
    SortedByStart(StartedAfter(all, now));
    StartedAfterCount(all, now);
    SortByKey(StartedAfter(all, now), StartKey())
  }
}
