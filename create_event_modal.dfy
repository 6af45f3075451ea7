/** The create-event dialog: its initial form, the genre toggle, and the submit
    handler that stores the event and then the creator's organizer role. */
module CreateEventModal {
  import opened Seqs
  import opened Entities
  import opened Gateway
  import TeamManagement

  /** The fields of the event form (shared with the settings tab). */
  datatype EventForm = EventForm(
    name: string,
    description: string,
    date: string,
    locationName: string,
    locationAddress: string,
    capacity: int,
    guestPasses: int,
    genres: seq<string>,
    screeningRequired: bool)

  /** The form as the dialog opens it. */
  const InitialForm: EventForm := EventForm("", "", "", "", "", 50, 1, [], true)

  /** Is a genre other than `genre`. */
  function Without(genre: string): string -> bool {
    g => g != genre
  }

  /** `handleGenreToggle`: drop the genre if it is selected, append it otherwise. */
  function ToggleGenre(genres: seq<string>, genre: string): (r: seq<string>)
    ensures forall g :: g in r <==> if g == genre then genre !in genres else g in genres
  {
    if genre in genres then Filter(genres, Without(genre)) else genres + [genre]
  }

  /** Toggling an unselected genre appends it after the others, and toggling it
      again gives back the original list. */
  lemma {:induction false} ToggleTwiceRestores(genres: seq<string>, genre: string)
    requires genre !in genres
    ensures ToggleGenre(genres, genre) == genres + [genre]
    ensures ToggleGenre(ToggleGenre(genres, genre), genre) == genres
  {
    FilterConcat(genres, [genre], Without(genre));
    FilterAll(genres, Without(genre));
  }

  /** In a list without repeats, toggling the genre at index `i` removes exactly
      that entry and keeps the others in order. */
  lemma {:induction false} TogglePresentRemoves(genres: seq<string>, i: nat)
    requires NoDups(genres) && i < |genres|
    ensures ToggleGenre(genres, genres[i]) == genres[..i] + genres[i + 1..]
  {
    var genre := genres[i];
    var p := Without(genre);
    var before, after := genres[..i], genres[i + 1..];
    assert genres == (before + [genre]) + after;
    assert genre in genres;
    NoDupsSplit(genres, i);
    FilterAll(before, p);
    FilterAll(after, p);
    FilterNone([genre], p);
    FilterConcat(before, [genre], p);
    FilterConcat(before + [genre], after, p);
  }

  /** The toggle keeps the selected genres free of repeats. */
  lemma ToggleKeepsNoDups(genres: seq<string>, genre: string)
    requires NoDups(genres)
    ensures NoDups(ToggleGenre(genres, genre))
  {
    if genre in genres {
      NoDupsIsDistinctByIdentity(genres);
      FilterDistinctBy(genres, Without(genre), (x: string) => x);
      NoDupsIsDistinctByIdentity(Filter(genres, Without(genre)));
    } else {
      var r := genres + [genre];
      forall i, j | 0 <= i < j < |r| ensures r[i] != r[j] {
        if j == |genres| {
          assert r[i] == genres[i];
        } else {
          assert r[i] == genres[i] && r[j] == genres[j];
        }
      }
    }
  }

  /** The record sent to `Event.create`: the form fields, with the creator and
      the status `published` set over whatever the form holds. */
  function CreatedEvent(form: EventForm, creator: string): Event {
    Event(0, Some(form.name), Some(form.description), Some(form.date), Some(form.locationName),
      Some(form.locationAddress), Some(form.capacity), Some(form.guestPasses), Some(form.genres),
      Some(form.screeningRequired), Published, creator)
  }

  /** The organizer role the dialog stores for the creator of event `eventId`. */
  function CreatorRole(eventId: Id, creator: string): (r: EventRole)
    ensures TeamManagement.Canonical(r) && r.role == OrganizerRole
    ensures r.eventId == eventId && r.userEmail == creator && r.assignedBy == creator
  {
    EventRole(0, eventId, creator, OrganizerRole,
      [ManageEvent, ScreenAttendees, ViewDashboard, CheckIn, FlagAttendees], creator)
  }

  /** What `handleSubmit` achieved: both records, the event alone (the role call
      failed after the event was stored), or nothing. */
  datatype SubmitOutcome = Created(event: Event, role: EventRole) | EventOnly(event: Event) | NotCreated

  class CreateEventPanel {
    const user: string
    var formData: EventForm
    var loading: bool

    constructor (user: string)
      ensures this.user == user && formData == InitialForm && !loading
    {
      this.user := user;
      formData := InitialForm;
      loading := false;
    }

    /** Typing in a field of the form. */
    method EditForm(form: EventForm)
      modifies this`formData
      ensures formData == form
    {
      formData := form;
    }

    method HandleGenreToggle(genre: string)
      modifies this`formData
      ensures formData == old(formData).(genres := ToggleGenre(old(formData).genres, genre))
    {
      formData := formData.(genres := ToggleGenre(formData.genres, genre));
    }

    /** `handleSubmit`: store the event, then the creator's organizer role on the
        new event's id. The form is left as it is. */
    method HandleSubmit(store: EntityStore, acceptEvent: bool, acceptRole: bool) returns (outcome: SubmitOutcome)
      requires store.Valid()
      modifies this`loading, store
      ensures store.Valid() && !loading
      ensures outcome == if !acceptEvent then NotCreated
        else if !acceptRole then EventOnly(CreatedEvent(formData, user).(id := old(store.nextId)))
        else Created(CreatedEvent(formData, user).(id := old(store.nextId)),
                     CreatorRole(old(store.nextId), user).(id := old(store.nextId) + 1))
      ensures store.events == if outcome.NotCreated? then old(store.events)
        else old(store.events)[old(store.nextId) := outcome.event]
      ensures store.roles == if outcome.Created? then old(store.roles)[old(store.nextId) + 1 := outcome.role]
        else old(store.roles)
      ensures store.applications == old(store.applications) && store.attendees == old(store.attendees)
      ensures store.nextId == old(store.nextId) + (if outcome.NotCreated? then 0 else if outcome.EventOnly? then 1 else 2)
    {
      loading := true;
      var newEvent := store.CreateEvent(CreatedEvent(formData, user), acceptEvent);
      if newEvent.None? {
        outcome := NotCreated;
      } else {
        var role := store.CreateRole(CreatorRole(newEvent.value.id, user), acceptRole);
        if role.None? {
          outcome := EventOnly(newEvent.value);
        } else {
          outcome := Created(newEvent.value, role.value);
        }
      }
      loading := false;
    }
  }
}
