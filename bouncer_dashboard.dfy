/** The door panel of the dashboard: the approved attendees of the selected
    event, check-in, flagging with a note, the email search and the counts. */
module BouncerDashboard {
  import opened Seqs
  import opened Text
  import opened Entities
  import opened Gateway
  import OrganizerDashboard

  /** This panel's own selection effect: first live event, else the first event,
      only while nothing is selected. */
  function DefaultSelection(events: seq<Event>, selected: Option<Event>): (r: Option<Event>)
    ensures r == OrganizerDashboard.DefaultSelection(events, selected)
  {
    if selected.Some? || events == [] then selected
    else
      match Find(events, (e: Event) => e.status == Live)
      case Some(live) => Some(live)
      case None => Some(events[0])
  }

  /** `Attendee.filter({event_id, status: "approved"})`. */
  function ApprovedAttendees(table: seq<Attendee>, eventId: Id): (r: seq<Attendee>)
    ensures forall a :: a in r <==> a in table && a.eventId == eventId && a.status == Approved
  {
    Filter(table, (a: Attendee) => a.eventId == eventId && a.status == Approved)
  }

  /** The check-in patch `{checked_in: true, checked_in_at: now, checked_in_by}`. */
  function CheckInPatch(checker: string, now: int): Attendee -> Attendee {
    (a: Attendee) => a.(checkedIn := true, checkedInAt := Some(now), checkedInBy := Some(checker))
  }

  /** Check-in marks the attendee in, stamps time and checker, and changes no
      other field. */
  lemma CheckInFields(a: Attendee, checker: string, now: int)
    ensures CheckInPatch(checker, now)(a).checkedIn
    ensures CheckInPatch(checker, now)(a).checkedInAt == Some(now)
    ensures CheckInPatch(checker, now)(a).checkedInBy == Some(checker)
    ensures CheckInPatch(checker, now)(a).(checkedIn := a.checkedIn, checkedInAt := a.checkedInAt,
      checkedInBy := a.checkedInBy) == a
  {
  }

  /** A repeated check-in is not ignored: it overwrites time and checker, so the
      later one is all that remains, and a check-in at another time gives another record. */
  lemma CheckInOverwrites(a: Attendee, c1: string, t1: int, c2: string, t2: int)
    ensures CheckInPatch(c2, t2)(CheckInPatch(c1, t1)(a)) == CheckInPatch(c2, t2)(a)
    ensures t1 != t2 ==> CheckInPatch(c1, t1)(a) != CheckInPatch(c1, t2)(a)
  {
  }

  /** The note a flag adds. */
  function FlagNote(author: string, reason: string, now: int): (n: Note)
    ensures n.author == author && n.timestamp == now
    ensures |n.text| == 9 + |reason| && n.text[..9] == "FLAGGED: " && n.text[9..] == reason
  {
    Note(author, "FLAGGED: " + reason, now)
  }

  /** `attendee.notes || []`. */
  function NotesOr(notes: Option<seq<Note>>): seq<Note> {
    if notes.None? then [] else notes.value
  }

  /** The flag patch `{flagged: true, flag_reason, notes: [...(notes || []), note]}`,
      whose notes are built from the page's copy `seen` of the attendee. */
  function FlagPatch(seen: Attendee, author: string, reason: string, now: int): Attendee -> Attendee {
    (a: Attendee) => a.(flagged := true, flagReason := Some(reason),
      notes := Some(NotesOr(seen.notes) + [FlagNote(author, reason, now)]))
  }

  /** Flagging marks the attendee, records the reason, keeps every earlier note in
      order (none when the record has no notes) and appends exactly one note at
      the end; status and check-in are not touched. */
  lemma FlagAppendsOneNote(a: Attendee, author: string, reason: string, now: int)
    ensures var r := FlagPatch(a, author, reason, now)(a);
      && r.flagged && r.flagReason == Some(reason)
      && r.notes.Some?
      && |r.notes.value| == |NotesOr(a.notes)| + 1
      && r.notes.value[..|NotesOr(a.notes)|] == NotesOr(a.notes)
      && r.notes.value[|NotesOr(a.notes)|] == FlagNote(author, reason, now)
      && r.status == a.status && r.checkedIn == a.checkedIn
      && r.(flagged := a.flagged, flagReason := a.flagReason, notes := a.notes) == a
  {
    var r := FlagPatch(a, author, reason, now)(a);
    assert r.notes.value == NotesOr(a.notes) + [FlagNote(author, reason, now)];
  }

  /** Its email, lower-cased, contains `term`, lower-cased. */
  function Matches(term: string): Attendee -> bool {
    (a: Attendee) => Includes(Lower(a.userEmail), Lower(term))
  }

  /** `filteredAttendees`. */
  function Search(attendees: seq<Attendee>, term: string): (r: seq<Attendee>)
    ensures forall a :: a in r <==> a in attendees && Includes(Lower(a.userEmail), Lower(term))
  {
    Filter(attendees, Matches(term))
  }

  /** Search keeps exactly the attendees in whose lower-cased email the lower-cased
      term occurs at some position. */
  lemma SearchIffOccurs(attendees: seq<Attendee>, term: string, a: Attendee)
    ensures a in Search(attendees, term) <==>
      a in attendees && exists i :: OccursAt(Lower(a.userEmail), Lower(term), i)
  {
    IncludesIffOccurs(Lower(a.userEmail), Lower(term));
  }

  /** An empty search term keeps every attendee, in order. */
  lemma SearchEmptyKeepsAll(attendees: seq<Attendee>)
    ensures Search(attendees, "") == attendees
  {
    forall a | a in attendees ensures Matches("")(a) {
      IncludesEmpty(Lower(a.userEmail));
    }
    FilterAll(attendees, Matches(""));
  }

  /** The search ignores the case of the term. */
  lemma SearchIgnoresTermCase(attendees: seq<Attendee>, term: string)
    ensures Search(attendees, Lower(term)) == Search(attendees, term)
  {
    LowerIdempotent(term);
    FilterSamePredicate(attendees, Matches(Lower(term)), Matches(term));
  }

  function IsCheckedIn(): Attendee -> bool {
    (a: Attendee) => a.checkedIn
  }

  function IsFlagged(): Attendee -> bool {
    (a: Attendee) => a.flagged
  }

  /** `checkedInCount`. */
  function CheckedInCount(attendees: seq<Attendee>): (n: nat)
    ensures n <= |attendees|
    ensures n == 0 <==> forall a :: a in attendees ==> !a.checkedIn
  {
    var r := Filter(attendees, IsCheckedIn());
    assert r != [] ==> r[0] in r;
    |r|
  }

  /** `flaggedCount`. */
  function FlaggedCount(attendees: seq<Attendee>): (n: nat)
    ensures n <= |attendees|
    ensures n == 0 <==> forall a :: a in attendees ==> !a.flagged
  {
    var r := Filter(attendees, IsFlagged());
    assert r != [] ==> r[0] in r;
    |r|
  }

  /** The checked-in counter counts one for each checked-in attendee: it adds up
      over a split of the list, and a single attendee counts 1 exactly when
      checked in. */
  lemma CheckedInCountAdds(a: seq<Attendee>, b: seq<Attendee>, x: Attendee)
    ensures CheckedInCount(a + b) == CheckedInCount(a) + CheckedInCount(b)
    ensures CheckedInCount([x]) == if x.checkedIn then 1 else 0
  {
    FilterConcat(a, b, IsCheckedIn());
    assert [x][1..] == [];
  }

  /** The flagged counter counts one for each flagged attendee. */
  lemma FlaggedCountAdds(a: seq<Attendee>, b: seq<Attendee>, x: Attendee)
    ensures FlaggedCount(a + b) == FlaggedCount(a) + FlaggedCount(b)
    ensures FlaggedCount([x]) == if x.flagged then 1 else 0
  {
    FilterConcat(a, b, IsFlagged());
    assert [x][1..] == [];
  }

  class DoorPanel {
    const events: seq<Event>
    const user: string
    var selectedEvent: Option<Event>
    var attendees: seq<Attendee>
    var searchTerm: string
    var loading: bool

    constructor (events: seq<Event>, user: string)
      ensures this.events == events && this.user == user
      ensures selectedEvent.None? && attendees == [] && searchTerm == "" && !loading
    {
      this.events := events;
      this.user := user;
      selectedEvent := None;
      attendees := [];
      searchTerm := "";
      loading := false;
    }

    function FilteredAttendees(): seq<Attendee>
      reads this
    {
      Search(attendees, searchTerm)
    }

    method SelectDefault()
      modifies this`selectedEvent
      ensures selectedEvent == DefaultSelection(events, old(selectedEvent))
    {
      if |events| > 0 && selectedEvent.None? {
        var live := Find(events, (e: Event) => e.status == Live);
        selectedEvent := if live.Some? then live else Some(events[0]);
      }
    }

    method SelectEvent(e: Event)
      modifies this`selectedEvent
      ensures selectedEvent == Some(e)
    {
      selectedEvent := Some(e);
    }

    method SetSearchTerm(term: string)
      modifies this`searchTerm
      ensures searchTerm == term
    {
      searchTerm := term;
    }

    /** `loadAttendees`, given the attendee table the filter reads (`None` when it
        throws); nothing happens without a selection. */
    method LoadAttendees(table: Option<seq<Attendee>>)
      modifies this`attendees, this`loading
      ensures loading == if selectedEvent.None? then old(loading) else false
      ensures attendees == if selectedEvent.Some? && table.Some?
        then ApprovedAttendees(table.value, selectedEvent.value.id) else old(attendees)
    {
      if selectedEvent.None? {
        return;
      }
      loading := true;
      if table.Some? {
        attendees := ApprovedAttendees(table.value, selectedEvent.value.id);
      }
      loading := false;
    }

    /** `checkInAttendee` at time `now`; the reload that follows is a separate
        `LoadAttendees`. */
    method CheckInAttendee(store: EntityStore, attendeeId: Id, now: int, accept: bool) returns (ok: bool)
      requires store.Valid()
      modifies store
      ensures store.Valid()
      ensures ok == (accept && attendeeId in old(store.attendees))
      ensures store.attendees == if ok then old(store.attendees)[attendeeId :=
        CheckInPatch(user, now)(old(store.attendees)[attendeeId])] else old(store.attendees)
      ensures store.events == old(store.events) && store.roles == old(store.roles)
      ensures store.applications == old(store.applications) && store.nextId == old(store.nextId)
    {
      ok := store.UpdateAttendee(attendeeId, CheckInPatch(user, now), accept);
    }

    /** `flagAttendee` at time `now`: the notes are taken from the panel's list; an
        id not in that list throws before any write. */
    method FlagAttendee(store: EntityStore, attendeeId: Id, reason: string, now: int, accept: bool) returns (ok: bool)
      requires store.Valid()
      modifies store
      ensures store.Valid()
      ensures var seen := Find(attendees, (a: Attendee) => a.id == attendeeId);
        && ok == (seen.Some? && accept && attendeeId in old(store.attendees))
        && store.attendees == if ok then old(store.attendees)[attendeeId :=
             FlagPatch(seen.value, user, reason, now)(old(store.attendees)[attendeeId])] else old(store.attendees)
      ensures store.events == old(store.events) && store.roles == old(store.roles)
      ensures store.applications == old(store.applications) && store.nextId == old(store.nextId)
    {
      var seen := Find(attendees, (a: Attendee) => a.id == attendeeId);
      if seen.None? {
        ok := false;
      } else {
        ok := store.UpdateAttendee(attendeeId, FlagPatch(seen.value, user, reason, now), accept);
      }
    }
  }
}
