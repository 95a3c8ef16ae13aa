/** ConferenceValidator: field-presence checks on a conference before it is saved. */
module ConferenceValidator {
  import opened Wrappers
  import opened JavaText
  import opened Entities

  datatype ConferenceError =
    | NameRequired       // "Conference name is required"
    | LocationRequired   // "Conference location is required"
    | StartRequired      // "Start time is required"
    | EndRequired        // "End time is required"
    | SlotsNotPositive   // "Total slots must be greater than 0"

  /** Position of each check in the validator, which fixes the order of the list. */
  function Rank(e: ConferenceError): nat {
    match e
    case NameRequired => 0
    case LocationRequired => 1
    case StartRequired => 2
    case EndRequired => 3
    case SlotsNotPositive => 4
  }

  predicate InCheckOrder(es: seq<ConferenceError>) {
    InRankOrder(es, Rank)
  }

  /** Every error in `es` comes from a check before position `k`. */
  predicate Below(es: seq<ConferenceError>, k: nat) {
    RanksBelow(es, Rank, k)
  }

  /** Every check passes. `start < end` is deliberately absent: that check is
      commented out in the validator. */
  predicate Passes(d: ConferenceDraft) {
    !IsMissing(d.name) && !IsMissing(d.location) && d.start.Some? && d.end.Some? && d.totalSlots > 0
  }

  /** The first three checks of validate(conference): name, location and start time. */
  method CheckNameLocationStart(d: ConferenceDraft) returns (errors: seq<ConferenceError>)
    ensures Below(errors, 3) && InCheckOrder(errors)
    ensures NameRequired in errors <==> IsMissing(d.name)
    ensures LocationRequired in errors <==> IsMissing(d.location)
    ensures StartRequired in errors <==> d.start.None?
  {
    errors := [];
    if IsMissing(d.name) {
      errors := Append(errors, NameRequired, Rank);
    }
    if IsMissing(d.location) {
      errors := Append(errors, LocationRequired, Rank);
    }
    assert NameRequired in errors <==> IsMissing(d.name);
    if d.start.None? {
      errors := Append(errors, StartRequired, Rank);
    }
  }

  /** validate(conference): collects the errors in check order and throws iff there
      is at least one. */
  method Validate(d: ConferenceDraft) returns (v: Verdict<ConferenceError>)
    ensures v.Rejected? ==> v.errors != []
    ensures v.Accepted? <==> Passes(d)
    ensures NameRequired in v.Errors() <==> IsMissing(d.name)
    ensures LocationRequired in v.Errors() <==> IsMissing(d.location)
    ensures StartRequired in v.Errors() <==> d.start.None?
    ensures EndRequired in v.Errors() <==> d.end.None?
    ensures SlotsNotPositive in v.Errors() <==> d.totalSlots <= 0
    ensures InCheckOrder(v.Errors())
  {
    var errors := CheckNameLocationStart(d);
    if d.end.None? {
      errors := Append(errors, EndRequired, Rank);
    }
    assert NameRequired in errors <==> IsMissing(d.name);
    assert LocationRequired in errors <==> IsMissing(d.location);
    assert StartRequired in errors <==> d.start.None?;
    if d.totalSlots <= 0 {
      errors := Append(errors, SlotsNotPositive, Rank);
    }
    if errors != [] {
      assert errors[0] in errors;
    }
    if errors == [] {
      v := Accepted;
    } else {
      v := Rejected(errors);
    }
  }

  /** Swapping start and end never changes the verdict: the ordering of the two
      timestamps is not checked. */
  lemma OrderNotChecked(d: ConferenceDraft)
    requires Passes(d)
    ensures Passes(d.(start := d.end, end := d.start))
  {
  }
}
