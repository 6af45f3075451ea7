/** The dashboard page: which events the signed-in user sees as organizer and as
    bouncer, when access is denied, and which tab opens first. */
module Dashboard {
  import opened Seqs
  import opened Entities

  /** Is an event created by `email`. */
  function CreatedByUser(email: string): Event -> bool {
    (e: Event) => e.createdBy == email
  }

  /** The events of `all` created by `email`, in list order. */
  function CreatedEvents(all: seq<Event>, email: string): (r: seq<Event>)
    ensures forall e :: e in r <==> e in all && e.createdBy == email
  {
    Filter(all, CreatedByUser(email))
  }

  /** `created.some(c => c.id === id)`. */
  predicate HasId(events: seq<Event>, id: Id) {
    exists c :: c in events && c.id == id
  }

  /** Has an id among `ids` and is not one of the `created` events. */
  function ExtraPredicate(created: seq<Event>, ids: seq<Id>): Event -> bool {
    (e: Event) => e.id in ids && !HasId(created, e.id)
  }

  /** The organizer list: the events the user created, followed by the events of
      the user's explicit organizer roles whose id no created event has. When the
      role read fails (`None`) the list is the created events alone. */
  function OrganizerEvents(all: seq<Event>, email: string, roles: Option<seq<EventRole>>): (r: seq<Event>)
    ensures |CreatedEvents(all, email)| <= |r| && r[..|CreatedEvents(all, email)|] == CreatedEvents(all, email)
    ensures forall e :: e in r <==>
      (e in all &&
       (e.createdBy == email ||
        (roles.Some? && HoldsRole(roles.value, email, OrganizerRole, e.id) && !HasId(CreatedEvents(all, email), e.id))))
  {
    var created := CreatedEvents(all, email);
    match roles
    case None => created
    case Some(table) => created + Filter(all, ExtraPredicate(created, RoleEventIds(table, email, OrganizerRole)))
  }

  /** The created events and the role events each keep table order: two entries
      of the same part appear in the table in the same relative order. */
  lemma OrganizerEventsKeepOrder(all: seq<Event>, email: string, roles: Option<seq<EventRole>>, i: nat, j: nat)
    requires i < j < |OrganizerEvents(all, email, roles)|
    requires j < |CreatedEvents(all, email)| || |CreatedEvents(all, email)| <= i
    ensures exists k, l :: (0 <= k < l < |all| && all[k] == OrganizerEvents(all, email, roles)[i]
      && all[l] == OrganizerEvents(all, email, roles)[j])
  {
    var r, created := OrganizerEvents(all, email, roles), CreatedEvents(all, email);
    var n := |created|;
    if j < n {
      assert r[i] == created[i] && r[j] == created[j];
      FilterKeepsOrder(all, CreatedByUser(email), i, j);
    } else {
      var p := ExtraPredicate(created, RoleEventIds(roles.value, email, OrganizerRole));
      var extra := Filter(all, p);
      assert r == created + extra;
      assert r[i] == extra[i - n] && r[j] == extra[j - n];
      FilterKeepsOrder(all, p, i - n, j - n);
    }
  }

  /** Every organizer event was created by the user or is one of the user's
      organizer-role events. */
  lemma OrganizerEventsQualify(all: seq<Event>, email: string, roles: Option<seq<EventRole>>, e: Event)
    ensures e in OrganizerEvents(all, email, roles) ==>
      e in all && (e.createdBy == email || (roles.Some? && HoldsRole(roles.value, email, OrganizerRole, e.id)))
  {
  }

  /** With distinct ids in the event table, an event is in the organizer list
      exactly when the user created it or holds an organizer role on it. */
  lemma OrganizerEventsExact(all: seq<Event>, email: string, roles: Option<seq<EventRole>>, e: Event)
    requires DistinctBy(all, (x: Event) => x.id)
    ensures e in OrganizerEvents(all, email, roles) <==>
      e in all && (e.createdBy == email || (roles.Some? && HoldsRole(roles.value, email, OrganizerRole, e.id)))
  {
    if e in all && e.createdBy != email {
      forall c | c in CreatedEvents(all, email) ensures c.id != e.id {
        var i :| 0 <= i < |all| && all[i] == c;
        var j :| 0 <= j < |all| && all[j] == e;
        assert i != j;
      }
    }
  }

  /** With distinct ids in the event table the organizer list has no two events
      with the same id: the extra events exclude the created ones. */
  lemma OrganizerEventsDistinct(all: seq<Event>, email: string, roles: Option<seq<EventRole>>)
    requires DistinctBy(all, (x: Event) => x.id)
    ensures DistinctBy(OrganizerEvents(all, email, roles), (x: Event) => x.id)
  {
    var key := (x: Event) => x.id;
    var created := CreatedEvents(all, email);
    FilterDistinctBy(all, CreatedByUser(email), key);
    if roles.Some? {
      var p := ExtraPredicate(created, RoleEventIds(roles.value, email, OrganizerRole));
      var extra := Filter(all, p);
      FilterDistinctBy(all, p, key);
      forall x, y | x in created && y in extra ensures key(x) != key(y) {
        assert !HasId(created, y.id);
      }
      DistinctConcat(created, extra, key);
    }
  }

  /** The bouncer list as set by a load: the events whose id is among the user's
      bouncer roles, in list order; when the role read fails or finds no role
      the previous list `prev` stays. */
  function BouncerEvents(prev: seq<Event>, all: seq<Event>, email: string, roles: Option<seq<EventRole>>): (r: seq<Event>)
    ensures roles.None? || RoleEventIds(roles.value, email, BouncerRole) == [] ==> r == prev
    ensures roles.Some? && RoleEventIds(roles.value, email, BouncerRole) != [] ==>
      forall e :: e in r <==> e in all && HoldsRole(roles.value, email, BouncerRole, e.id)
    ensures roles.Some? && RoleEventIds(roles.value, email, BouncerRole) != [] ==> |r| <= |all|
  {
    match roles
    case None => prev
    case Some(table) =>
      var ids := RoleEventIds(table, email, BouncerRole);
      if ids == [] then prev else Filter(all, (e: Event) => e.id in ids)
  }

  /** What the page shows. */
  datatype DashboardView = Loading | AccessDenied | Panels(defaultTab: string, organizerTab: bool, bouncerTab: bool)

  function ViewOf(loading: bool, organizer: seq<Event>, bouncer: seq<Event>): (v: DashboardView)
    ensures v.Loading? <==> loading
    ensures v.AccessDenied? <==> !loading && organizer == [] && bouncer == []
    ensures v.Panels? ==> v.organizerTab == (organizer != []) && v.bouncerTab == (bouncer != [])
    ensures v.Panels? ==> (v.defaultTab == "organizer" <==> organizer != []) && (v.defaultTab == "bouncer" <==> organizer == [])
  {
    if loading then Loading
    else if organizer == [] && bouncer == [] then AccessDenied
    else Panels(if organizer != [] then "organizer" else "bouncer", organizer != [], bouncer != [])
  }

  /** After the first load, access is denied exactly when no event of the table
      was created by the user or carries one of the user's organizer or bouncer
      roles (counting only the role reads that succeeded). */
  lemma {:induction false} DeniedIffNothingQualifies(all: seq<Event>, email: string,
      organizerRoles: Option<seq<EventRole>>, bouncerRoles: Option<seq<EventRole>>)
    ensures ViewOf(false, OrganizerEvents(all, email, organizerRoles), BouncerEvents([], all, email, bouncerRoles)).AccessDenied?
      <==> forall e :: e in all ==>
        && e.createdBy != email
        && !(organizerRoles.Some? && HoldsRole(organizerRoles.value, email, OrganizerRole, e.id))
        && !(bouncerRoles.Some? && HoldsRole(bouncerRoles.value, email, BouncerRole, e.id))
  {
    var org := OrganizerEvents(all, email, organizerRoles);
    var bnc := BouncerEvents([], all, email, bouncerRoles);
    if org == [] && bnc == [] {
      forall e | e in all
        ensures e.createdBy != email
        ensures !(organizerRoles.Some? && HoldsRole(organizerRoles.value, email, OrganizerRole, e.id))
        ensures !(bouncerRoles.Some? && HoldsRole(bouncerRoles.value, email, BouncerRole, e.id))
      {
        assert e !in org;
        assert CreatedEvents(all, email) == [];
      }
    } else if org != [] {
      assert org[0] in org;
    } else {
      assert bnc[0] in bnc;
    }
  }

  /** The page's state. */
  class DashboardPage {
    var user: Option<string>
    var organizerEvents: seq<Event>
    var bouncerEvents: seq<Event>
    var loading: bool

    constructor ()
      ensures user.None? && organizerEvents == [] && bouncerEvents == [] && loading
    {
      user := None;
      organizerEvents := [];
      bouncerEvents := [];
      loading := true;
    }

    function View(): DashboardView
      reads this
    {
      ViewOf(loading, organizerEvents, bouncerEvents)
    }

    /** `loadDashboardData`, given the answers of the gateway: the signed-in user
        (`None` when `User.me` throws), the event table (`None` when the list
        throws), and the two role tables read with the organizer and bouncer
        filters (`None` when that read throws). A throw of the first two ends the
        load with the lists as they were. */
    method LoadDashboardData(me: Option<string>, all: Option<seq<Event>>,
        organizerRoles: Option<seq<EventRole>>, bouncerRoles: Option<seq<EventRole>>)
      modifies this
      ensures !loading
      ensures user == if me.Some? then me else old(user)
      ensures me.Some? && all.Some? ==> organizerEvents == OrganizerEvents(all.value, me.value, organizerRoles)
      ensures me.Some? && all.Some? ==> bouncerEvents == BouncerEvents(old(bouncerEvents), all.value, me.value, bouncerRoles)
      ensures me.None? || all.None? ==> organizerEvents == old(organizerEvents) && bouncerEvents == old(bouncerEvents)
    {
      loading := true;
      if me.Some? {
        var email := me.value;
        user := me;
        if all.Some? {
          var events := all.value;
          var created := CreatedEvents(events, email);
          organizerEvents := created;
          if organizerRoles.Some? {
            var ids := RoleEventIds(organizerRoles.value, email, OrganizerRole);
            var extra := Filter(events, ExtraPredicate(created, ids));
            if |extra| > 0 {
              organizerEvents := organizerEvents + extra;
            } else {
              assert created + extra == created;
            }
          }
          if bouncerRoles.Some? {
            var ids := RoleEventIds(bouncerRoles.value, email, BouncerRole);
            if |ids| > 0 {
              bouncerEvents := Filter(events, (e: Event) => e.id in ids);
            }
          }
        }
      }
      loading := false;
    }
  }
}
