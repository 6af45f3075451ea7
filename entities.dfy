/** The records kept in the entity store: events, team roles, applications and
    door (attendee) records. Fields that a component reads with a fallback
    (`event.name || ""`) are `Option`s, `None` standing for a field the stored
    record does not have. */
module Entities {
  import opened Seqs

  /** Record ids are opaque to the front end; the store hands out fresh ones. */
  type Id = nat

  // Role names.
  const OrganizerRole: string := "organizer"
  const BouncerRole: string := "bouncer"
  const PerformerRole: string := "performer"

  // Permission names.
  const ManageEvent: string := "manage_event"
  const ScreenAttendees: string := "screen_attendees"
  const ViewDashboard: string := "view_dashboard"
  const CheckIn: string := "check_in"
  const FlagAttendees: string := "flag_attendees"

  // Event statuses.
  const Draft: string := "draft"
  const Published: string := "published"
  const Live: string := "live"

  // Application statuses.
  const Pending: string := "pending"
  const Approved: string := "approved"
  const Denied: string := "denied"
  const Waitlisted: string := "waitlisted"

  datatype Event = Event(
    id: Id,
    name: Option<string>,
    description: Option<string>,
    date: Option<string>,
    locationName: Option<string>,
    locationAddress: Option<string>,
    capacity: Option<int>,
    guestPasses: Option<int>,
    genres: Option<seq<string>>,
    screeningRequired: Option<bool>,
    status: string,
    createdBy: string)

  /** A team assignment: `role` of `userEmail` on event `eventId`. */
  datatype EventRole = EventRole(
    id: Id,
    eventId: Id,
    userEmail: string,
    role: string,
    permissions: seq<string>,
    assignedBy: string)

  /** An attendee's request to be let into an event. */
  datatype Application = Application(
    id: Id,
    eventId: Id,
    userEmail: string,
    message: string,
    guestsRequested: int,
    status: string,
    verified: bool,
    verificationCode: Option<string>,
    reviewedBy: Option<string>,
    reviewedAt: Option<int>)

  datatype Note = Note(author: string, text: string, timestamp: int)

  /** The door record of an admitted guest. */
  datatype Attendee = Attendee(
    id: Id,
    eventId: Id,
    userEmail: string,
    status: string,
    checkedIn: bool,
    checkedInAt: Option<int>,
    checkedInBy: Option<string>,
    flagged: bool,
    flagReason: Option<string>,
    notes: Option<seq<Note>>)

  /** How the browser turns a stored date text into an instant (`new Date(text)`);
      `None` is an Invalid Date. */
  type DateParser = string -> Option<int>

  /** The instant of an event's date; a missing date is an Invalid Date too. */
  function Instant(parse: DateParser, date: Option<string>): Option<int> {
    match date
    case None => None
    case Some(text) => parse(text)
  }

  /** `new Date(date) > now`; false for an Invalid Date. */
  predicate IsAfter(parse: DateParser, date: Option<string>, now: int) {
    var t := Instant(parse, date);
    t.Some? && t.value > now
  }

  /** `new Date(date) <= now`; false for an Invalid Date. */
  predicate IsAtOrBefore(parse: DateParser, date: Option<string>, now: int) {
    var t := Instant(parse, date);
    t.Some? && t.value <= now
  }

  /** An instant is never both after `now` and at or before it, and it is one of
      the two exactly when the date parses. */
  lemma AfterOrBefore(parse: DateParser, date: Option<string>, now: int)
    ensures !(IsAfter(parse, date, now) && IsAtOrBefore(parse, date, now))
    ensures IsAfter(parse, date, now) || IsAtOrBefore(parse, date, now) <==> Instant(parse, date).Some?
  {
  }

  /** Some record of the role table gives `email` the role `role` on event `eventId`. */
  predicate HoldsRole(table: seq<EventRole>, email: string, role: string, eventId: Id) {
    exists x :: x in table && x.userEmail == email && x.role == role && x.eventId == eventId
  }

  /** `EventRole.filter({user_email: email, role: role}).map(r => r.event_id)`: the
      ids of the events on which `email` holds `role`, in table order. */
  function RoleEventIds(table: seq<EventRole>, email: string, role: string): (r: seq<Id>)
    ensures forall id :: id in r <==> HoldsRole(table, email, role, id)
    ensures |r| <= |table|
  {
    if table == [] then []
    else
      var x := table[0];
      assert forall y :: y in table <==> y == x || y in table[1..];
      (if x.userEmail == email && x.role == role then [x.eventId] else []) + RoleEventIds(table[1..], email, role)
  }
}
