/** The persistent records of the booking system: users, conferences and bookings.
    Timestamps are whole seconds on one clock; `isBefore`/`isAfter` become `<`/`>`. */
module Entities {
  import opened Wrappers

  /** BookingStatus. */
  datatype Status = Confirmed | Waitlisted | Processing | Cancelled

  /** A stored booking row. */
  datatype Booking = Booking(id: string, userId: string, conferenceId: string, bookingTime: int, status: Status)

  /** A stored conference row. Every stored conference passed ConferenceValidator,
      so its name, location and both timestamps are present. */
  datatype Conference = Conference(
    id: string,
    name: string,
    location: string,
    topics: seq<string>,
    start: int,
    end: int,
    totalSlots: int,
    availableSlots: int,
    waitlistQueueId: Option<string>,
    fullyBooked: bool)

  /** A conference object as handed to createConference: any reference field may be
      null. */
  datatype ConferenceDraft = ConferenceDraft(
    id: Option<string>,
    name: Option<string>,
    location: Option<string>,
    topics: seq<string>,
    start: Option<int>,
    end: Option<int>,
    totalSlots: int,
    availableSlots: int,
    waitlistQueueId: Option<string>,
    fullyBooked: bool)

  /** A user as handed to UserValidator. */
  datatype User = User(id: string, name: Option<string>, email: Option<string>, phoneNumber: Option<string>)

  /** The draft view of a stored conference, as it is passed back to createConference
      whenever the booking service saves a changed conference. */
  function AsDraft(c: Conference): ConferenceDraft {
    ConferenceDraft(Some(c.id), Some(c.name), Some(c.location), c.topics, Some(c.start), Some(c.end),
                    c.totalSlots, c.availableSlots, c.waitlistQueueId, c.fullyBooked)
  }
}
