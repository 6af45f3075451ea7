/** The event-management page: who may manage an event, the visibility switch,
    and what the page shows after loading. */
module EventManagement {
  import opened Seqs
  import opened Entities
  import opened Gateway

  /** Is the event with id `id`. */
  function WithId(id: Id): Event -> bool {
    (e: Event) => e.id == id
  }

  /** `EventRole.filter({event_id, user_email, role: "organizer"})`. */
  function OrganizerRolesOn(table: seq<EventRole>, eventId: Id, email: string): (r: seq<EventRole>)
    ensures forall x :: x in r <==> x in table && x.eventId == eventId && x.userEmail == email && x.role == OrganizerRole
  {
    Filter(table, (x: EventRole) => x.eventId == eventId && x.userEmail == email && x.role == OrganizerRole)
  }

  /** The permission decision of the load: the creator, or anyone with at least
      one explicit organizer role on the event. */
  predicate MayManage(event: Event, email: string, table: seq<EventRole>)
  {
    event.createdBy == email || |OrganizerRolesOn(table, event.id, email)| > 0
  }

  /** The decision stated without the filter: creator, or holder of an organizer role. */
  lemma MayManageIff(event: Event, email: string, table: seq<EventRole>)
    ensures MayManage(event, email, table) <==> event.createdBy == email || HoldsRole(table, email, OrganizerRole, event.id)
  {
    var found := OrganizerRolesOn(table, event.id, email);
    if |found| > 0 {
      assert found[0] in found;
    }
  }

  /** The creator may manage the event whatever the role table holds. */
  lemma CreatorAlwaysPermitted(event: Event, table: seq<EventRole>)
    ensures MayManage(event, event.createdBy, table)
  {
  }

  /** Bouncer and performer roles (any role other than organizer) never change the
      decision, whoever they are assigned to. */
  lemma {:induction false} OtherRolesGrantNothing(event: Event, email: string, table: seq<EventRole>, more: seq<EventRole>)
    requires forall x :: x in more ==> x.role != OrganizerRole
    ensures MayManage(event, email, table + more) == MayManage(event, email, table)
  {
    var p := (x: EventRole) => x.eventId == event.id && x.userEmail == email && x.role == OrganizerRole;
    FilterConcat(table, more, p);
    FilterNone(more, p);
  }

  /** `event.status === "published" ? "draft" : "published"`. */
  function ToggledStatus(status: string): (r: string)
    ensures r == Draft <==> status == Published
    ensures r == Published <==> status != Published
  {
    if status == Published then Draft else Published
  }

  /** Switching twice restores a published or draft event; any other status
      (live, ended) becomes published, then draft. */
  lemma ToggleTwice(status: string)
    ensures status == Published || status == Draft ==> ToggledStatus(ToggledStatus(status)) == status
    ensures status != Published && status != Draft ==>
      ToggledStatus(status) == Published && ToggledStatus(ToggledStatus(status)) == Draft
  {
  }

  /** The patch `{status: newStatus}`: only the status changes. */
  function StatusPatch(status: string): Event -> Event {
    (e: Event) => e.(status := status)
  }

  lemma StatusPatchOnlyStatus(status: string, e: Event)
    ensures StatusPatch(status)(e).status == status
    ensures StatusPatch(status)(e).(status := e.status) == e
  {
  }

  datatype ManagementView = Loading | NotFound | AccessDenied | Manage(event: Event)

  function ViewOf(loading: bool, event: Option<Event>, hasPermission: bool): (v: ManagementView)
    ensures v.Loading? <==> loading
    ensures v.NotFound? <==> !loading && event.None?
    ensures v.AccessDenied? <==> !loading && event.Some? && !hasPermission
    ensures v.Manage? <==> !loading && event.Some? && hasPermission
    ensures v.Manage? ==> event == Some(v.event)
  {
    if loading then Loading
    else if event.None? then NotFound
    else if !hasPermission then AccessDenied
    else Manage(event.value)
  }

  class ManagementPage {
    var user: Option<string>
    var event: Option<Event>
    var roles: seq<EventRole>
    var loading: bool
    var hasPermission: bool

    constructor ()
      ensures user.None? && event.None? && roles == [] && loading && !hasPermission
    {
      user, event, roles, loading, hasPermission := None, None, [], true, false;
    }

    function View(): ManagementView
      reads this
    {
      ViewOf(loading, event, hasPermission)
    }

    /** `loadEventData` for the id in the address bar, given the gateway's answers:
        the user (`None` when `User.me` throws), the event table for the id lookup,
        the role table for the organizer check and the role table for the team
        list (`None` where that read throws). The organizer check is read only
        for a non-creator. Each throw ends the load with the rest as it was; an
        empty lookup changes nothing either. */
    method LoadEventData(eventId: Id, me: Option<string>, events: Option<seq<Event>>,
        permissionRoles: Option<seq<EventRole>>, teamRoles: Option<seq<EventRole>>)
      modifies this
      ensures !loading
      ensures user == if me.Some? then me else old(user)
      ensures me.None? || events.None? || Find(events.value, WithId(eventId)).None? ==>
        event == old(event) && hasPermission == old(hasPermission) && roles == old(roles)
      ensures me.Some? && events.Some? && Find(events.value, WithId(eventId)).Some? ==>
        var found := Find(events.value, WithId(eventId)).value;
        var creator := found.createdBy == me.value;
        && event == Some(found)
        && hasPermission == (if creator then true
                             else if permissionRoles.None? then old(hasPermission)
                             else MayManage(found, me.value, permissionRoles.value))
        && roles == (if (!creator && permissionRoles.None?) || teamRoles.None? then old(roles)
                     else Filter(teamRoles.value, (x: EventRole) => x.eventId == eventId))
    {
      loading := true;
      if me.Some? {
        user := me;
        if events.Some? {
          var found := Find(events.value, WithId(eventId));
          if found.Some? {
            var item := found.value;
            event := found;
            var reached := true;
            if item.createdBy == me.value {
              hasPermission := true;
            } else if permissionRoles.Some? {
              hasPermission := |OrganizerRolesOn(permissionRoles.value, eventId, me.value)| > 0;
            } else {
              reached := false;
            }
            if reached && teamRoles.Some? {
              roles := Filter(teamRoles.value, (x: EventRole) => x.eventId == eventId);
            }
          }
        }
      }
      loading := false;
    }

    /** `toggleEventVisibility`: write the switched status of the event as the page
        holds it (not as currently stored). Without a loaded event, reading its
        status throws and nothing is written. The reload that follows is a
        separate `LoadEventData`. */
    method ToggleEventVisibility(store: EntityStore, accept: bool) returns (ok: bool)
      requires store.Valid()
      modifies store
      ensures store.Valid()
      ensures ok == (event.Some? && accept && event.value.id in old(store.events))
      ensures store.events == if ok then old(store.events)[event.value.id :=
        old(store.events)[event.value.id].(status := ToggledStatus(event.value.status))] else old(store.events)
      ensures store.roles == old(store.roles) && store.applications == old(store.applications)
      ensures store.attendees == old(store.attendees) && store.nextId == old(store.nextId)
    {
      if event.None? {
        ok := false;
      } else {
        var newStatus := ToggledStatus(event.value.status);
        ok := store.UpdateEvent(event.value.id, StatusPatch(newStatus), accept);
      }
    }
  }
}
