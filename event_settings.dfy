/** The settings tab of the event-management page: the form seeded from the
    stored event, its own genre toggle, and the save handler. */
module EventSettings {
  import opened Seqs
  import opened Entities
  import opened Gateway
  import CreateEventModal

  type EventForm = CreateEventModal.EventForm

  /** `value || ""` for a text field. */
  function TextOr(value: Option<string>): (r: string)
    ensures value.None? ==> r == ""
    ensures value.Some? ==> r == value.value
  {
    match value
    case None => ""
    case Some(s) => s
  }

  /** `event.date ? event.date.slice(0, 16) : ""`: the date and time, minutes included. */
  function SeedDate(date: Option<string>): (r: string)
    ensures date.None? ==> r == ""
    ensures date.Some? ==> |r| == (if |date.value| < 16 then |date.value| else 16) && r == date.value[..|r|]
  {
    match date
    case None => ""
    case Some(s) => if |s| <= 16 then s else s[..16]
  }

  /** `value || fallback` for a number: a missing value and zero both give the fallback. */
  function NumberOr(value: Option<int>, fallback: int): (r: int)
    ensures value.None? || value == Some(0) ==> r == fallback
    ensures value.Some? && value.value != 0 ==> r == value.value
  {
    match value
    case None => fallback
    case Some(n) => if n == 0 then fallback else n
  }

  /** `value ?? fallback` for a number: only a missing value gives the fallback. */
  function NumberOrIfMissing(value: Option<int>, fallback: int): (r: int)
    ensures value.None? ==> r == fallback
    ensures value.Some? ==> r == value.value
  {
    match value
    case None => fallback
    case Some(n) => n
  }

  /** `event.screening_required !== false`. */
  function ScreeningOr(value: Option<bool>): (r: bool)
    ensures r <==> value != Some(false)
  {
    match value
    case None => true
    case Some(b) => b
  }

  /** The form seeded exactly as the source writes it: the guest passes use `|| 1`,
      so a stored 0 ("No Guests Allowed") is shown, and saved, as 1. */
  function SeedFormAsWritten(e: Event): (r: EventForm)
    ensures r.guestPasses == NumberOr(e.guestPasses, 1)
    ensures r.capacity == NumberOr(e.capacity, 50)
    ensures r == SeedForm(e).(guestPasses := r.guestPasses)
  {
    CreateEventModal.EventForm(TextOr(e.name), TextOr(e.description), SeedDate(e.date),
      TextOr(e.locationName), TextOr(e.locationAddress), NumberOr(e.capacity, 50),
      NumberOr(e.guestPasses, 1), match e.genres case None => [] case Some(g) => g,
      ScreeningOr(e.screeningRequired))
  }

  /** An event created with "No Guests Allowed" opens in the settings with one guest pass. */
  lemma NoGuestsSeedsAsOne(creator: string)
    ensures
      var form := CreateEventModal.InitialForm.(guestPasses := 0);
      SeedFormAsWritten(CreateEventModal.CreatedEvent(form, creator)).guestPasses == 1 != form.guestPasses
  {
  }

  /** When the guest passes are not edited, saving the form seeded as written
      stores 1 over an event's 0. */
  lemma SaveAsWrittenGrantsGuest(e: Event)
    requires e.guestPasses == Some(0)
    ensures Saved(e, SeedFormAsWritten(e)).guestPasses == Some(1)
    ensures Saved(e, SeedForm(e)).guestPasses == Some(0)
  {
  }

  /** The form seeded from a stored event, with the guest passes falling back to 1
      only when the event has none stored. Missing text seeds as "", missing genres
      as [], capacity 0 or missing as 50, screening as on unless stored as false. */
  function SeedForm(e: Event): (r: EventForm)
    ensures r.name == TextOr(e.name) && r.description == TextOr(e.description)
    ensures r.locationName == TextOr(e.locationName) && r.locationAddress == TextOr(e.locationAddress)
    ensures r.date == SeedDate(e.date)
    ensures r.capacity == NumberOr(e.capacity, 50)
    ensures r.guestPasses == NumberOrIfMissing(e.guestPasses, 1)
    ensures r.genres == if e.genres.None? then [] else e.genres.value
    ensures r.screeningRequired <==> e.screeningRequired != Some(false)
  {
    CreateEventModal.EventForm(TextOr(e.name), TextOr(e.description), SeedDate(e.date),
      TextOr(e.locationName), TextOr(e.locationAddress), NumberOr(e.capacity, 50),
      NumberOrIfMissing(e.guestPasses, 1), match e.genres case None => [] case Some(g) => g,
      ScreeningOr(e.screeningRequired))
  }

  /** The stored event after `Event.update(event.id, formData)`: every form field
      is written; id, status and creator are kept. */
  function Saved(e: Event, form: EventForm): Event {
    e.(name := Some(form.name), description := Some(form.description), date := Some(form.date),
      locationName := Some(form.locationName), locationAddress := Some(form.locationAddress),
      capacity := Some(form.capacity), guestPasses := Some(form.guestPasses),
      genres := Some(form.genres), screeningRequired := Some(form.screeningRequired))
  }

  /** Seeding the form from a saved event gives back the saved form, provided its
      capacity is not 0 and its date text is at most 16 characters (as a
      date-and-time input produces); status and creator survive the save. */
  lemma SeedAfterSave(e: Event, form: EventForm)
    requires form.capacity != 0 && |form.date| <= 16
    ensures SeedForm(Saved(e, form)) == form
    ensures Saved(e, form).id == e.id && Saved(e, form).status == e.status && Saved(e, form).createdBy == e.createdBy
  {
  }

  /** The seed the component runs round-trips a saved form only when, besides
      the conditions above, the form's guest passes are not 0. */
  lemma SeedAsWrittenAfterSave(e: Event, form: EventForm)
    requires form.capacity != 0 && form.guestPasses != 0 && |form.date| <= 16
    ensures SeedFormAsWritten(Saved(e, form)) == form
  {
  }

  /** A freshly created event opens in the settings with the form it was created from. */
  lemma SeedAfterCreate(form: EventForm, creator: string)
    requires form.capacity != 0 && |form.date| <= 16
    ensures SeedForm(CreateEventModal.CreatedEvent(form, creator)) == form
  {
  }

  /** This tab's own `handleGenreToggle`. */
  function ToggleGenre(genres: seq<string>, genre: string): (r: seq<string>)
    ensures r == CreateEventModal.ToggleGenre(genres, genre)
  {
    if genre in genres then Filter(genres, CreateEventModal.Without(genre)) else genres + [genre]
  }

  class SettingsPanel {
    const event: Event
    var formData: EventForm
    var saving: bool

    /** The form is seeded as the component writes it, with `|| 1` for the
        guest passes. */
    constructor (event: Event)
      ensures this.event == event && formData == SeedFormAsWritten(event) && !saving
    {
      this.event := event;
      formData := SeedFormAsWritten(event);
      saving := false;
    }

    /** Typing in a field of the form. */
    method EditForm(form: EventForm)
      modifies this`formData
      ensures formData == form
    {
      formData := form;
    }

    method HandleGenreToggle(genre: string)
      modifies this`formData
      ensures formData == old(formData).(genres := ToggleGenre(old(formData).genres, genre))
    {
      formData := formData.(genres := ToggleGenre(formData.genres, genre));
    }

    /** `handleSave`: write the whole form over the stored event. */
    method HandleSave(store: EntityStore, accept: bool) returns (ok: bool)
      requires store.Valid()
      modifies this`saving, store
      ensures store.Valid() && !saving
      ensures ok == (accept && event.id in old(store.events))
      ensures store.events == if ok then old(store.events)[event.id := Saved(old(store.events)[event.id], formData)]
        else old(store.events)
      ensures store.roles == old(store.roles) && store.applications == old(store.applications)
      ensures store.attendees == old(store.attendees)
    {
      saving := true;
      var form := formData;
      ok := store.UpdateEvent(event.id, (e: Event) => Saved(e, form), accept);
      saving := false;
    }
  }
}
