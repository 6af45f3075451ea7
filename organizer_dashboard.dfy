/** The organizer panel of the dashboard: the default event selection, the live
    and upcoming lists, the screening decision, and the per-event counts. */
module OrganizerDashboard {
  import opened Seqs
  import opened Entities
  import opened Gateway

  /** Is an event with status `live`. */
  function IsLive(): Event -> bool {
    (e: Event) => e.status == Live
  }

  /** The selection effect: once events are known and nothing is selected, the
      first live event, else the first event; an existing selection stays. */
  function DefaultSelection(events: seq<Event>, selected: Option<Event>): (r: Option<Event>)
    ensures selected.Some? ==> r == selected
    ensures selected.None? ==> (r.None? <==> events == [])
    ensures selected.None? && r.Some? ==> r.value in events
    ensures selected.None? && r.Some? && r.value.status == Live ==>
      exists i :: 0 <= i < |events| && events[i] == r.value && forall j :: 0 <= j < i ==> events[j].status != Live
    ensures selected.None? && r.Some? && r.value.status != Live ==>
      r.value == events[0] && forall e :: e in events ==> e.status != Live
  {
    if selected.Some? || events == [] then selected
    else
      match Find(events, IsLive())
      case Some(live) => Some(live)
      case None => Some(events[0])
  }

  /** `liveEvents`. */
  function LiveEvents(events: seq<Event>): (r: seq<Event>)
    ensures forall e :: e in r <==> e in events && e.status == Live
  {
    Filter(events, IsLive())
  }

  /** `upcomingEvents`: the published events whose date is after `now`; an event
      whose date does not parse is not upcoming. */
  function UpcomingEvents(events: seq<Event>, parse: DateParser, now: int): (r: seq<Event>)
    ensures forall e :: e in r <==> e in events && e.status == Published && IsAfter(parse, e.date, now)
  {
    Filter(events, (e: Event) => e.status == Published && IsAfter(parse, e.date, now))
  }

  /** No event is both live and upcoming, and both lists are drawn from `events`. */
  lemma LiveAndUpcomingDisjoint(events: seq<Event>, parse: DateParser, now: int)
    ensures forall e :: !(e in LiveEvents(events) && e in UpcomingEvents(events, parse, now))
    ensures |LiveEvents(events)| <= |events| && |UpcomingEvents(events, parse, now)| <= |events|
  {
  }

  /** The patch `{status, reviewed_by, reviewed_at}` of a screening decision. */
  function Decision(status: string, reviewer: string, now: int): Application -> Application {
    (a: Application) => a.(status := status, reviewedBy := Some(reviewer), reviewedAt := Some(now))
  }

  /** A decision writes the chosen status, whatever it is and whatever the
      application's status was (there is no capacity check), stamps reviewer
      and time, and touches no other field. */
  lemma DecisionFields(a: Application, status: string, reviewer: string, now: int)
    ensures Decision(status, reviewer, now)(a).status == status
    ensures Decision(status, reviewer, now)(a).reviewedBy == Some(reviewer)
    ensures Decision(status, reviewer, now)(a).reviewedAt == Some(now)
    ensures Decision(status, reviewer, now)(a).(status := a.status, reviewedBy := a.reviewedBy, reviewedAt := a.reviewedAt) == a
  {
  }

  /** A second decision replaces the first entirely: only the last one counts. */
  lemma LastDecisionWins(a: Application, s1: string, r1: string, t1: int, s2: string, r2: string, t2: int)
    ensures Decision(s2, r2, t2)(Decision(s1, r1, t1)(a)) == Decision(s2, r2, t2)(a)
  {
  }

  /** The counts `getEventStats` returns. */
  datatype EventStats = EventStats(total: nat, pending: nat, approved: nat, denied: nat, waitlisted: nat, checkedIn: nat)

  /** Is an application for event `eventId`. */
  function ForEvent(eventId: Id): Application -> bool {
    (a: Application) => a.eventId == eventId
  }

  /** Is a role on event `eventId`. */
  function RoleForEvent(eventId: Id): EventRole -> bool {
    (x: EventRole) => x.eventId == eventId
  }

  /** Has status `status`. */
  function WithStatus(status: string): Application -> bool {
    (a: Application) => a.status == status
  }

  /** Is an application for event `eventId` with status `status`. */
  function ForEventWithStatus(eventId: Id, status: string): Application -> bool {
    (a: Application) => a.eventId == eventId && a.status == status
  }

  /** `getEventStats`: each count is the number of the event's applications with
      that status; checked-in is always 0. */
  function Stats(applications: seq<Application>, event: Event): (r: EventStats)
    ensures r.total == |Filter(applications, ForEvent(event.id))| <= |applications|
    ensures r.pending == |Filter(applications, ForEventWithStatus(event.id, Pending))|
    ensures r.approved == |Filter(applications, ForEventWithStatus(event.id, Approved))|
    ensures r.denied == |Filter(applications, ForEventWithStatus(event.id, Denied))|
    ensures r.waitlisted == |Filter(applications, ForEventWithStatus(event.id, Waitlisted))|
    ensures r.pending <= r.total && r.approved <= r.total && r.denied <= r.total && r.waitlisted <= r.total
    ensures r.checkedIn == 0
  {
    var mine := Filter(applications, ForEvent(event.id));
    FilterFilter(applications, ForEvent(event.id), WithStatus(Pending), ForEventWithStatus(event.id, Pending));
    FilterFilter(applications, ForEvent(event.id), WithStatus(Approved), ForEventWithStatus(event.id, Approved));
    FilterFilter(applications, ForEvent(event.id), WithStatus(Denied), ForEventWithStatus(event.id, Denied));
    FilterFilter(applications, ForEvent(event.id), WithStatus(Waitlisted), ForEventWithStatus(event.id, Waitlisted));
    EventStats(|mine|, |Filter(mine, WithStatus(Pending))|, |Filter(mine, WithStatus(Approved))|,
      |Filter(mine, WithStatus(Denied))|, |Filter(mine, WithStatus(Waitlisted))|, 0)
  }

  predicate KnownStatus(s: string) {
    s == Pending || s == Approved || s == Denied || s == Waitlisted
  }

  /** When every application of the list has one of the four statuses, the four
      status counts add up to the length of the list. */
  lemma {:induction false} StatusCountsSum(apps: seq<Application>)
    requires forall a :: a in apps ==> KnownStatus(a.status)
    ensures |Filter(apps, WithStatus(Pending))| + |Filter(apps, WithStatus(Approved))|
      + |Filter(apps, WithStatus(Denied))| + |Filter(apps, WithStatus(Waitlisted))| == |apps|
    decreases |apps|
  {
    if apps != [] {
      assert apps[0] in apps;
      assert forall a :: a in apps[1..] ==> a in apps;
      StatusCountsSum(apps[1..]);
    }
  }

  /** For the event's applications with known statuses the counts partition the total. */
  lemma StatsPartitionTotal(applications: seq<Application>, event: Event)
    requires forall a :: a in applications && a.eventId == event.id ==> KnownStatus(a.status)
    ensures var s := Stats(applications, event); s.pending + s.approved + s.denied + s.waitlisted == s.total
  {
    StatusCountsSum(Filter(applications, ForEvent(event.id)));
  }

  /** Applications of other events do not change an event's counts. */
  lemma {:induction false} StatsIgnoreOtherEvents(applications: seq<Application>, others: seq<Application>, event: Event)
    requires forall a :: a in others ==> a.eventId != event.id
    ensures Stats(applications + others, event) == Stats(applications, event)
  {
    FilterConcat(applications, others, ForEvent(event.id));
    FilterNone(others, ForEvent(event.id));
    assert Filter(applications, ForEvent(event.id)) + [] == Filter(applications, ForEvent(event.id));
  }

  class OrganizerPanel {
    const events: seq<Event>
    const user: string
    var selectedEvent: Option<Event>
    var applications: seq<Application>
    var teamMembers: seq<EventRole>
    var loading: bool

    constructor (events: seq<Event>, user: string)
      ensures this.events == events && this.user == user
      ensures selectedEvent.None? && applications == [] && teamMembers == [] && !loading
    {
      this.events := events;
      this.user := user;
      selectedEvent := None;
      applications := [];
      teamMembers := [];
      loading := false;
    }

    /** The selection effect. */
    method SelectDefault()
      modifies this`selectedEvent
      ensures selectedEvent == DefaultSelection(events, old(selectedEvent))
    {
      if |events| > 0 && selectedEvent.None? {
        var live := Find(events, IsLive());
        selectedEvent := if live.Some? then live else Some(events[0]);
      }
    }

    /** Clicking an event button. */
    method SelectEvent(e: Event)
      modifies this`selectedEvent
      ensures selectedEvent == Some(e)
    {
      selectedEvent := Some(e);
    }

    /** `loadEventData`, given the application and role tables the two filters
        read (`None` when that read throws); nothing happens without a selection. */
    method LoadEventData(applicationTable: Option<seq<Application>>, roleTable: Option<seq<EventRole>>)
      modifies this`applications, this`teamMembers, this`loading
      ensures loading == if selectedEvent.None? then old(loading) else false
      ensures selectedEvent.None? || applicationTable.None? ==> applications == old(applications)
      ensures selectedEvent.Some? && applicationTable.Some? ==>
        applications == Filter(applicationTable.value, ForEvent(selectedEvent.value.id))
      ensures selectedEvent.None? || applicationTable.None? || roleTable.None? ==> teamMembers == old(teamMembers)
      ensures selectedEvent.Some? && applicationTable.Some? && roleTable.Some? ==>
        teamMembers == Filter(roleTable.value, RoleForEvent(selectedEvent.value.id))
    {
      if selectedEvent.None? {
        return;
      }
      loading := true;
      var id := selectedEvent.value.id;
      if applicationTable.Some? {
        applications := Filter(applicationTable.value, ForEvent(id));
        if roleTable.Some? {
          teamMembers := Filter(roleTable.value, RoleForEvent(id));
        }
      }
      loading := false;
    }

    /** `updateApplicationStatus`: record the decision at time `now`. The reload
        that follows is a separate `LoadEventData`. */
    method UpdateApplicationStatus(store: EntityStore, applicationId: Id, status: string, now: int, accept: bool)
      returns (ok: bool)
      requires store.Valid()
      modifies store
      ensures store.Valid()
      ensures ok == (accept && applicationId in old(store.applications))
      ensures store.applications == if ok then old(store.applications)[applicationId :=
        Decision(status, user, now)(old(store.applications)[applicationId])] else old(store.applications)
      ensures store.events == old(store.events) && store.roles == old(store.roles)
      ensures store.attendees == old(store.attendees) && store.nextId == old(store.nextId)
    {
      ok := store.UpdateApplication(applicationId, Decision(status, user, now), accept);
    }
  }
}
