/** The entity store the front end talks to, as far as the handlers rely on it:
    one table per entity, `create` that stores a record under a fresh id and
    returns it, and `update` that replaces a stored record by a patched copy.
    Either call may be refused (network or validation error): `accept` is the
    store's answer. */
module Gateway {
  import opened Seqs
  import opened Entities

  class EntityStore {
    var events: map<Id, Event>
    var roles: map<Id, EventRole>
    var applications: map<Id, Application>
    var attendees: map<Id, Attendee>
    /** The id the next created record receives. */
    var nextId: Id

    /** Every stored id was handed out before `nextId`. */
    ghost predicate Valid()
      reads this
    {
      && (forall id :: id in events ==> id < nextId)
      && (forall id :: id in roles ==> id < nextId)
      && (forall id :: id in applications ==> id < nextId)
      && (forall id :: id in attendees ==> id < nextId)
    }

    constructor ()
      ensures Valid()
      ensures events == map[] && roles == map[] && applications == map[] && attendees == map[]
    {
      events, roles, applications, attendees := map[], map[], map[], map[];
      nextId := 0;
    }

    /** `Event.create(fields)`: on success the record, under a fresh id, is stored and returned. */
    method CreateEvent(fields: Event, accept: bool) returns (r: Option<Event>)
      requires Valid()
      modifies this
      ensures Valid()
      ensures r == (if accept then Some(fields.(id := old(nextId))) else None)
      ensures nextId == if accept then old(nextId) + 1 else old(nextId)
      ensures r.Some? ==> old(nextId) !in old(events) && events == old(events)[old(nextId) := r.value]
      ensures r.None? ==> events == old(events)
      ensures roles == old(roles) && applications == old(applications) && attendees == old(attendees)
    {
      if accept {
        var e := fields.(id := nextId);
        events := events[nextId := e];
        nextId := nextId + 1;
        r := Some(e);
      } else {
        r := None;
      }
    }

    /** `EventRole.create(fields)`. */
    method CreateRole(fields: EventRole, accept: bool) returns (r: Option<EventRole>)
      requires Valid()
      modifies this
      ensures Valid()
      ensures r == (if accept then Some(fields.(id := old(nextId))) else None)
      ensures nextId == if accept then old(nextId) + 1 else old(nextId)
      ensures r.Some? ==> old(nextId) !in old(roles) && roles == old(roles)[old(nextId) := r.value]
      ensures r.None? ==> roles == old(roles)
      ensures events == old(events) && applications == old(applications) && attendees == old(attendees)
    {
      if accept {
        var e := fields.(id := nextId);
        roles := roles[nextId := e];
        nextId := nextId + 1;
        r := Some(e);
      } else {
        r := None;
      }
    }

    /** `EventApplication.create(fields)`. */
    method CreateApplication(fields: Application, accept: bool) returns (r: Option<Application>)
      requires Valid()
      modifies this
      ensures Valid()
      ensures r == (if accept then Some(fields.(id := old(nextId))) else None)
      ensures nextId == if accept then old(nextId) + 1 else old(nextId)
      ensures r.Some? ==> old(nextId) !in old(applications) && applications == old(applications)[old(nextId) := r.value]
      ensures r.None? ==> applications == old(applications)
      ensures events == old(events) && roles == old(roles) && attendees == old(attendees)
    {
      if accept {
        var e := fields.(id := nextId);
        applications := applications[nextId := e];
        nextId := nextId + 1;
        r := Some(e);
      } else {
        r := None;
      }
    }

    /** `Event.update(id, patch)`: fails when refused or when no event has that id. */
    method UpdateEvent(id: Id, patch: Event -> Event, accept: bool) returns (ok: bool)
      requires Valid()
      modifies this
      ensures Valid()
      ensures ok == (accept && id in old(events))
      ensures events == if ok then old(events)[id := patch(old(events)[id])] else old(events)
      ensures roles == old(roles) && applications == old(applications) && attendees == old(attendees)
      ensures nextId == old(nextId)
    {
      ok := accept && id in events;
      if ok {
        events := events[id := patch(events[id])];
      }
    }

    /** `EventApplication.update(id, patch)`. */
    method UpdateApplication(id: Id, patch: Application -> Application, accept: bool) returns (ok: bool)
      requires Valid()
      modifies this
      ensures Valid()
      ensures ok == (accept && id in old(applications))
      ensures applications == if ok then old(applications)[id := patch(old(applications)[id])] else old(applications)
      ensures events == old(events) && roles == old(roles) && attendees == old(attendees)
      ensures nextId == old(nextId)
    {
      ok := accept && id in applications;
      if ok {
        applications := applications[id := patch(applications[id])];
      }
    }

    /** `Attendee.update(id, patch)`. */
    method UpdateAttendee(id: Id, patch: Attendee -> Attendee, accept: bool) returns (ok: bool)
      requires Valid()
      modifies this
      ensures Valid()
      ensures ok == (accept && id in old(attendees))
      ensures attendees == if ok then old(attendees)[id := patch(old(attendees)[id])] else old(attendees)
      ensures events == old(events) && roles == old(roles) && applications == old(applications)
      ensures nextId == old(nextId)
    {
      ok := accept && id in attendees;
      if ok {
        attendees := attendees[id := patch(attendees[id])];
      }
    }
  }
}
