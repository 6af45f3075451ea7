/** The event details page: the event lookup, the user's existing application,
    and the private address shown only to an approved applicant. */
module EventDetails {
  import opened Seqs
  import opened Entities

  /** Is the event with id `id`. */
  function WithId(id: Id): Event -> bool {
    (e: Event) => e.id == id
  }

  /** Is the application of `email` for event `eventId`. */
  function ApplicationOf(eventId: Id, email: string): Application -> bool {
    (a: Application) => a.eventId == eventId && a.userEmail == email
  }

  /** The first application of `email` for event `eventId`, if there is one. */
  function ExistingApplication(table: seq<Application>, eventId: Id, email: string): (r: Option<Application>)
    ensures r.None? <==> forall a :: a in table ==> !(a.eventId == eventId && a.userEmail == email)
    ensures r.Some? ==> r.value.eventId == eventId && r.value.userEmail == email
    ensures r.Some? ==> exists i ::
      (0 <= i < |table| && table[i] == r.value &&
       forall j :: 0 <= j < i ==> !(table[j].eventId == eventId && table[j].userEmail == email))
  {
    Find(table, ApplicationOf(eventId, email))
  }

  /** The address line: shown, with the stored address (empty when the event has
      none), exactly when the user's application has been approved. */
  function ShownAddress(event: Event, existing: Option<Application>): (r: Option<string>)
    ensures r.Some? <==> existing.Some? && existing.value.status == Approved
    ensures r.Some? && event.locationAddress.Some? ==> r.value == event.locationAddress.value
    ensures r.Some? && event.locationAddress.None? ==> r.value == ""
  {
    if existing.Some? && existing.value.status == Approved then
      Some(if event.locationAddress.Some? then event.locationAddress.value else "")
    else None
  }

  /** A visitor without an application, or with one pending, denied or waitlisted,
      never sees the address, whatever the event stores. */
  lemma AddressHiddenUnlessApproved(event: Event, existing: Option<Application>)
    requires existing.None? || existing.value.status in {Pending, Denied, Waitlisted}
    ensures ShownAddress(event, existing).None?
    ensures ShownAddress(event.(locationAddress := None), existing) == ShownAddress(event, existing)
  {
  }

  datatype DetailsView = Loading | NotFound | Details(event: Event, address: Option<string>)

  function ViewOf(loading: bool, event: Option<Event>, existing: Option<Application>): (v: DetailsView)
    ensures v.Loading? <==> loading
    ensures v.NotFound? <==> !loading && event.None?
    ensures v.Details? ==> event == Some(v.event) && v.address == ShownAddress(v.event, existing)
  {
    if loading then Loading
    else if event.None? then NotFound
    else Details(event.value, ShownAddress(event.value, existing))
  }

  class DetailsPage {
    var event: Option<Event>
    var user: Option<string>
    var existingApplication: Option<Application>
    var loading: bool
    var showApplicationForm: bool

    constructor ()
      ensures event.None? && user.None? && existingApplication.None? && loading && !showApplicationForm
    {
      event, user, existingApplication := None, None, None;
      loading, showApplicationForm := true, false;
    }

    function View(): DetailsView
      reads this
    {
      ViewOf(loading, event, existingApplication)
    }

    /** `loadEventDetails` for the id in the address bar, given the signed-in user
        (`None` when `User.me` throws), the event table for the id lookup and the
        application table for the existing-application lookup (`None` where that
        read throws). The application table is read only once the event is found,
        and nothing is cleared when a lookup comes back empty. */
    method LoadEventDetails(eventId: Id, me: Option<string>, events: Option<seq<Event>>,
        applications: Option<seq<Application>>)
      modifies this`event, this`user, this`existingApplication, this`loading
      ensures !loading
      ensures user == if me.Some? then me else old(user)
      ensures event == if me.Some? && events.Some? && Find(events.value, WithId(eventId)).Some?
        then Find(events.value, WithId(eventId)) else old(event)
      ensures existingApplication ==
        if me.Some? && events.Some? && Find(events.value, WithId(eventId)).Some? && applications.Some?
           && ExistingApplication(applications.value, eventId, me.value).Some?
        then ExistingApplication(applications.value, eventId, me.value) else old(existingApplication)
    {
      loading := true;
      if me.Some? {
        user := me;
        if events.Some? {
          var found := Find(events.value, WithId(eventId));
          if found.Some? {
            event := found;
            if applications.Some? {
              var mine := ExistingApplication(applications.value, eventId, me.value);
              if mine.Some? {
                existingApplication := mine;
              }
            }
          }
        }
      }
      loading := false;
    }

    /** The Apply button. */
    method OpenApplicationForm()
      modifies this`showApplicationForm
      ensures showApplicationForm
    {
      showApplicationForm := true;
    }

    /** `handleApplicationSubmitted` closes the form; the reload is a separate
        `LoadEventDetails`. */
    method HandleApplicationSubmitted()
      modifies this`showApplicationForm
      ensures !showApplicationForm
    {
      showApplicationForm := false;
    }
  }
}
