/** The applications page: the user's applications, the events they are for
    (loaded one id at a time), the upcoming/past split and the status colours. */
module MyApplications {
  import opened Seqs
  import opened Entities

  /** `applications.map(app => app.event_id)`. */
  function EventIdsOf(apps: seq<Application>): (r: seq<Id>)
    ensures |r| == |apps| && forall i :: 0 <= i < |apps| ==> r[i] == apps[i].eventId
  {
    seq(|apps|, i requires 0 <= i < |apps| => apps[i].eventId)
  }

  /** `[...new Set(ids)]`: every event id of the applications, once each. */
  function EventIds(apps: seq<Application>): (r: seq<Id>)
    ensures NoDups(r)
    ensures forall id :: id in r <==> exists a :: a in apps && a.eventId == id
  {
    var all := EventIdsOf(apps);
    assert forall id :: id in all <==> exists a :: a in apps && a.eventId == id by {
      forall id | id in all ensures exists a :: a in apps && a.eventId == id {
        var i :| 0 <= i < |all| && all[i] == id;
        assert apps[i] in apps;
      }
      forall a | a in apps ensures a.eventId in all {
        var i :| 0 <= i < |apps| && apps[i] == a;
        assert all[i] == a.eventId;
      }
    }
    Dedup(all)
  }

  /** The answer of `Event.filter({id})` for one id: the first matching event of
      the table read for it, `None` when that read throws or matches nothing. */
  function Lookup(answer: Id -> Option<seq<Event>>, id: Id): (r: Option<Event>)
    ensures r.Some? ==> answer(id).Some? && r.value.id == id && r.value in answer(id).value
    ensures r.None? <==> answer(id).None? || forall e :: e in answer(id).value ==> e.id != id
  {
    match answer(id)
    case None => None
    case Some(table) => Find(table, (e: Event) => e.id == id)
  }

  /** The loop that fills `eventData`: one lookup per id, storing the first match
      and skipping an id whose lookup throws or finds nothing. */
  method BuildEventData(ids: seq<Id>, answer: Id -> Option<seq<Event>>) returns (data: map<Id, Event>)
    ensures forall id :: id in data <==> id in ids && Lookup(answer, id).Some?
    ensures forall id :: id in data ==> data[id] == Lookup(answer, id).value
  {
    data := map[];
    var i := 0;
    while i < |ids|
      invariant 0 <= i <= |ids|
      invariant forall id :: id in data <==> id in ids[..i] && Lookup(answer, id).Some?
      invariant forall id :: id in data ==> data[id] == Lookup(answer, id).value
    {
      var eventId := ids[i];
      var found := Lookup(answer, eventId);
      if found.Some? {
        data := data[eventId := found.value];
      }
      assert ids[..i + 1] == ids[..i] + [eventId];
      i := i + 1;
    }
    assert ids[..i] == ids;
  }

  /** Whether an application's event was loaded and its date is after `now`. */
  function IsUpcoming(events: map<Id, Event>, parse: DateParser, now: int): Application -> bool {
    (a: Application) => a.eventId in events && IsAfter(parse, events[a.eventId].date, now)
  }

  /** Whether an application's event was loaded and its date is at or before `now`. */
  function IsPast(events: map<Id, Event>, parse: DateParser, now: int): Application -> bool {
    (a: Application) => a.eventId in events && IsAtOrBefore(parse, events[a.eventId].date, now)
  }

  /** Whether an application's event was loaded with a date that parses. */
  function IsDated(events: map<Id, Event>, parse: DateParser): Application -> bool {
    (a: Application) => a.eventId in events && Instant(parse, events[a.eventId].date).Some?
  }

  function UpcomingApplications(apps: seq<Application>, events: map<Id, Event>, parse: DateParser, now: int): (r: seq<Application>)
    ensures forall a :: a in r <==> a in apps && a.eventId in events && IsAfter(parse, events[a.eventId].date, now)
  {
    Filter(apps, IsUpcoming(events, parse, now))
  }

  function PastApplications(apps: seq<Application>, events: map<Id, Event>, parse: DateParser, now: int): (r: seq<Application>)
    ensures forall a :: a in r <==> a in apps && a.eventId in events && IsAtOrBefore(parse, events[a.eventId].date, now)
  {
    Filter(apps, IsPast(events, parse, now))
  }

  /** No application is both upcoming and past; one whose event was not loaded is
      in neither list; together the lists hold as many entries as there are
      applications whose loaded event has a date that parses (an Invalid Date
      is neither after nor at-or-before `now`). */
  lemma {:induction false} UpcomingPastPartition(apps: seq<Application>, events: map<Id, Event>, parse: DateParser, now: int)
    ensures forall a :: !(a in UpcomingApplications(apps, events, parse, now) && a in PastApplications(apps, events, parse, now))
    ensures forall a :: a in apps && a.eventId !in events ==>
      a !in UpcomingApplications(apps, events, parse, now) && a !in PastApplications(apps, events, parse, now)
    ensures |UpcomingApplications(apps, events, parse, now)| + |PastApplications(apps, events, parse, now)|
      == |Filter(apps, IsDated(events, parse))|
  {
    forall a | a in apps ensures !(IsUpcoming(events, parse, now)(a) && IsPast(events, parse, now)(a)) {
      if a.eventId in events {
        AfterOrBefore(parse, events[a.eventId].date, now);
      }
    }
    forall a | a in apps
      ensures IsDated(events, parse)(a) == (IsUpcoming(events, parse, now)(a) || IsPast(events, parse, now)(a))
    {
      if a.eventId in events {
        AfterOrBefore(parse, events[a.eventId].date, now);
      }
    }
    FilterSplit(apps, IsUpcoming(events, parse, now), IsPast(events, parse, now), IsDated(events, parse));
  }

  // Badge colours.
  const ApprovedColor: string := "bg-green-500/20 text-green-400 border-green-500/30"
  const DeniedColor: string := "bg-red-500/20 text-red-400 border-red-500/30"
  const PendingColor: string := "bg-yellow-500/20 text-yellow-400 border-yellow-500/30"
  const WaitlistedColor: string := "bg-blue-500/20 text-blue-400 border-blue-500/30"
  const DefaultColor: string := "bg-gray-500/20 text-gray-400 border-gray-500/30"

  /** `getStatusColor`. */
  function StatusColor(status: string): string {
    if status == Approved then ApprovedColor
    else if status == Denied then DeniedColor
    else if status == Pending then PendingColor
    else if status == Waitlisted then WaitlistedColor
    else DefaultColor
  }

  /** The four known statuses get four different colours, none of them the
      default; every other status gets the default. */
  lemma StatusColorsDistinct(status: string)
    ensures StatusColor(status) == DefaultColor <==> !(status in {Approved, Denied, Pending, Waitlisted})
    ensures forall s, t ::
      (s in {Approved, Denied, Pending, Waitlisted} && t in {Approved, Denied, Pending, Waitlisted} && s != t
       ==> StatusColor(s) != StatusColor(t))
  {
    assert |ApprovedColor| == 50 && |DeniedColor| == 44 && |PendingColor| == 53;
    assert |WaitlistedColor| == 47 && |DefaultColor| == 47;
    assert WaitlistedColor[3] == 'b' && DefaultColor[3] != 'b';
  }

  class MyApplicationsPage {
    var applications: seq<Application>
    var events: map<Id, Event>
    var user: Option<string>
    var loading: bool

    constructor ()
      ensures applications == [] && events == map[] && user.None? && loading
    {
      applications, events, user, loading := [], map[], None, true;
    }

    /** `loadApplications`, given the signed-in user (`None` when `User.me` throws),
        the application table (`None` when its read throws), and the event table
        each per-id lookup reads. */
    method LoadApplications(me: Option<string>, applicationTable: Option<seq<Application>>,
        answer: Id -> Option<seq<Event>>)
      modifies this
      ensures !loading
      ensures user == if me.Some? then me else old(user)
      ensures me.None? || applicationTable.None? ==> applications == old(applications) && events == old(events)
      ensures me.Some? && applicationTable.Some? ==>
        && applications == Filter(applicationTable.value, (a: Application) => a.userEmail == me.value)
        && (forall id :: id in events <==> id in EventIds(applications) && Lookup(answer, id).Some?)
        && (forall id :: id in events ==> events[id] == Lookup(answer, id).value)
    {
      loading := true;
      if me.Some? {
        user := me;
        if applicationTable.Some? {
          var email := me.value;
          applications := Filter(applicationTable.value, (a: Application) => a.userEmail == email);
          events := BuildEventData(EventIds(applications), answer);
        }
      }
      loading := false;
    }
  }
}
