/** BookingValidator: the checks run before a booking row is created. */
module BookingValidator {
  import opened Wrappers
  import opened Entities

  datatype BookingError =
    | AlreadyStarted        // "Cannot book a conference that has already started"
    | ActiveBookingExists   // "You already have an active booking for this conference"
    | TimeConflict          // "This booking conflicts with another conference you've booked"

  function Rank(e: BookingError): nat {
    match e
    case AlreadyStarted => 0
    case ActiveBookingExists => 1
    case TimeConflict => 2
  }

  predicate InCheckOrder(es: seq<BookingError>) {
    InRankOrder(es, Rank)
  }

  /** Every error in `es` comes from a check before position `k`. */
  predicate Below(es: seq<BookingError>, k: nat) {
    RanksBelow(es, Rank, k)
  }


  /** hasTimeOverlap: neither conference ends before the other starts. */
  function HasTimeOverlap(a: Conference, b: Conference): (r: bool)
    ensures r <==> b.start <= a.end && a.start <= b.end
  {
    !(a.end < b.start) && !(b.end < a.start)
  }

  lemma OverlapSymmetric(a: Conference, b: Conference)
    ensures HasTimeOverlap(a, b) == HasTimeOverlap(b, a)
  {
  }

  /** A conference overlaps itself exactly when it does not end before it starts. */
  lemma OverlapReflexive(a: Conference)
    ensures HasTimeOverlap(a, a) <==> a.start <= a.end
  {
  }

  /** The existing bookings the validator counts as active for this user and
      conference: CONFIRMED or WAITLISTED, never PROCESSING or CANCELLED. */
  predicate IsActiveFor(b: Booking, userId: string, conferenceId: string) {
    b.userId == userId && b.conferenceId == conferenceId && (b.status == Confirmed || b.status == Waitlisted)
  }

  predicate HasActiveBooking(bookings: map<string, Booking>, userId: string, conferenceId: string) {
    exists id :: id in bookings && IsActiveFor(bookings[id], userId, conferenceId)
  }

  /** The ids of the user's active bookings for the conference (findByUserId and the
      two stream filters). */
  function ActiveIds(bookings: map<string, Booking>, userId: string, conferenceId: string): (r: set<string>)
    ensures r != {} <==> HasActiveBooking(bookings, userId, conferenceId)
    ensures forall id :: id in r ==> id in bookings && bookings[id].conferenceId == conferenceId
  {
    var r := set id | id in bookings && IsActiveFor(bookings[id], userId, conferenceId);
    assert HasActiveBooking(bookings, userId, conferenceId) ==> r != {} by {
      if HasActiveBooking(bookings, userId, conferenceId) {
        var id :| id in bookings && IsActiveFor(bookings[id], userId, conferenceId);
        assert id in r;
      }
    }
    r
  }

  /** validateBooking(user, conference). `bookings` is the booking table
      (findByUserId reads the user's rows from it) and `conferences` the conference
      table that getConference reads. */
  method ValidateBooking(userId: string, conference: Conference, bookings: map<string, Booking>,
                         conferences: map<string, Conference>, now: int)
    returns (v: Verdict<BookingError>)
    requires conference.id in conferences
    ensures v.Rejected? ==> v.errors != []
    ensures AlreadyStarted in v.Errors() <==> conference.start < now
    ensures ActiveBookingExists in v.Errors() <==> HasActiveBooking(bookings, userId, conference.id)
    ensures TimeConflict in v.Errors() <==>
              HasActiveBooking(bookings, userId, conference.id) && HasTimeOverlap(conference, conferences[conference.id])
    ensures InCheckOrder(v.Errors())
  {
    var errors: seq<BookingError> := [];
    if conference.start < now {
      errors := Append(errors, AlreadyStarted, Rank);
    }
    var existing := ActiveIds(bookings, userId, conference.id);
    assert Below(errors, 1) && InCheckOrder(errors);
    if existing != {} {
      errors := Append(errors, ActiveBookingExists, Rank);
    }
    ghost var before := errors;
    assert Below(before, 2) && InCheckOrder(before);
    assert AlreadyStarted in before <==> conference.start < now;
    assert ActiveBookingExists in before <==> existing != {};
    var rest := existing;
    while rest != {}
      invariant rest <= existing
      invariant errors == before
      invariant rest != existing ==> !HasTimeOverlap(conference, conferences[conference.id])
      decreases |rest|
    {
      var id :| id in rest;
      var existingConference := conferences[bookings[id].conferenceId];
      if HasTimeOverlap(conference, existingConference) {
        errors := Append(errors, TimeConflict, Rank);
        break;
      }
      rest := rest - {id};
    }
    assert errors == before || errors == before + [TimeConflict];
    assert InCheckOrder(errors);
    if errors == [] {
      v := Accepted;
    } else {
      v := Rejected(errors);
    }
  }
}
