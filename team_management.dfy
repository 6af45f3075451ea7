/** The team panel of the organizer dashboard: the fixed role-to-permission
    table, adding a team member, the (inert) removal, and the three team lists. */
module TeamManagement {
  import opened Seqs
  import opened Entities
  import opened Gateway

  /** `ROLE_CONFIGS[role].permissions`; `None` for a role the table has no entry for. */
  function RolePermissions(role: string): Option<seq<string>> {
    if role == OrganizerRole then Some([ManageEvent, ScreenAttendees, ViewDashboard, CheckIn, FlagAttendees])
    else if role == BouncerRole then Some([CheckIn, FlagAttendees, ViewDashboard])
    else if role == PerformerRole then Some([ViewDashboard])
    else None
  }

  predicate KnownRole(role: string) {
    role == OrganizerRole || role == BouncerRole || role == PerformerRole
  }

  /** The roles form a chain: every bouncer permission is an organizer permission,
      every performer permission a bouncer one; the organizer holds the five
      permissions and is the only role that may manage the event or screen
      applications. */
  lemma PermissionHierarchy()
    ensures forall role :: RolePermissions(role).Some? <==> KnownRole(role)
    ensures forall p :: p in RolePermissions(BouncerRole).value ==> p in RolePermissions(OrganizerRole).value
    ensures forall p :: p in RolePermissions(PerformerRole).value ==> p in RolePermissions(BouncerRole).value
    ensures (set p | p in RolePermissions(OrganizerRole).value)
      == {ManageEvent, ScreenAttendees, ViewDashboard, CheckIn, FlagAttendees}
    ensures forall role :: RolePermissions(role).Some? && ManageEvent in RolePermissions(role).value ==> role == OrganizerRole
    ensures forall role :: RolePermissions(role).Some? && ScreenAttendees in RolePermissions(role).value ==> role == OrganizerRole
  {
    var org := RolePermissions(OrganizerRole).value;
    assert org[0] == ManageEvent && org[1] == ScreenAttendees && org[2] == ViewDashboard;
    assert org[3] == CheckIn && org[4] == FlagAttendees;
  }

  /** A stored role grants exactly what the table gives its role. */
  predicate Canonical(r: EventRole) {
    RolePermissions(r.role) == Some(r.permissions)
  }

  /** `isCreator`: the add and remove controls are shown only to the creator. */
  predicate IsCreator(event: Event, email: string) {
    event.createdBy == email
  }

  /** The add-member form. */
  datatype MemberForm = MemberForm(userEmail: string, role: string)

  /** The form as first shown and as reset after a successful add. */
  const BlankMemberForm: MemberForm := MemberForm("", BouncerRole)

  /** The record `handleAddMember` sends to the store; `None` when the chosen role
      has no table entry, where reading `config.permissions` throws before any call. */
  function MemberRecord(event: Event, form: MemberForm, assignedBy: string): (r: Option<EventRole>)
    ensures r.Some? <==> KnownRole(form.role)
    ensures r.Some? ==> Canonical(r.value) && r.value.role == form.role
    ensures r.Some? ==> r.value.eventId == event.id && r.value.userEmail == form.userEmail && r.value.assignedBy == assignedBy
  {
    match RolePermissions(form.role)
    case None => None
    case Some(perms) => Some(EventRole(0, event.id, form.userEmail, form.role, perms, assignedBy))
  }

  /** The members shown under one role heading. */
  function MembersWithRole(team: seq<EventRole>, role: string): seq<EventRole> {
    Filter(team, (m: EventRole) => m.role == role)
  }

  /** The organizer, security and performer lists are pairwise disjoint; a member
      with a known role is in exactly the list of that role; together they hold
      as many entries as the team has members with a known role. */
  lemma {:induction false} TeamListsPartition(team: seq<EventRole>)
    ensures forall m :: m in team && KnownRole(m.role) ==>
      (m in MembersWithRole(team, OrganizerRole) <==> m.role == OrganizerRole) &&
      (m in MembersWithRole(team, BouncerRole) <==> m.role == BouncerRole) &&
      (m in MembersWithRole(team, PerformerRole) <==> m.role == PerformerRole)
    ensures forall m :: !(m in MembersWithRole(team, OrganizerRole) && m in MembersWithRole(team, BouncerRole))
    ensures forall m :: !(m in MembersWithRole(team, OrganizerRole) && m in MembersWithRole(team, PerformerRole))
    ensures forall m :: !(m in MembersWithRole(team, BouncerRole) && m in MembersWithRole(team, PerformerRole))
    ensures |MembersWithRole(team, OrganizerRole)| + |MembersWithRole(team, BouncerRole)| + |MembersWithRole(team, PerformerRole)|
      == |Filter(team, (m: EventRole) => KnownRole(m.role))|
    decreases |team|
  {
    if team != [] {
      TeamListsPartition(team[1..]);
    }
  }

  /** The team panel's own state; the event and the signed-in user are fixed props. */
  class TeamPanel {
    const event: Event
    const currentUser: string
    var showAddForm: bool
    var newMember: MemberForm
    var loading: bool

    /** Only the creator can have opened the add form. */
    ghost predicate Valid()
      reads this
    {
      showAddForm ==> IsCreator(event, currentUser)
    }

    constructor (event: Event, currentUser: string)
      ensures Valid()
      ensures this.event == event && this.currentUser == currentUser
      ensures !showAddForm && newMember == BlankMemberForm && !loading
    {
      this.event := event;
      this.currentUser := currentUser;
      showAddForm := false;
      newMember := BlankMemberForm;
      loading := false;
    }

    /** The ADD MEMBER button: it exists only for the creator, so for anyone else
        nothing can toggle the form. */
    method ToggleAddForm()
      requires Valid()
      modifies this
      ensures Valid()
      ensures showAddForm == if IsCreator(event, currentUser) then !old(showAddForm) else old(showAddForm)
      ensures newMember == old(newMember) && loading == old(loading)
    {
      if IsCreator(event, currentUser) {
        showAddForm := !showAddForm;
      }
    }

    /** Typing in the email field and choosing a role. */
    method EditForm(form: MemberForm)
      requires Valid()
      modifies this`newMember
      ensures Valid() && newMember == form
    {
      newMember := form;
    }

    /** `handleAddMember`: store the member record; on success reset and close the
        form, on failure leave the form as it was. */
    method HandleAddMember(store: EntityStore, accept: bool) returns (ok: bool)
      requires Valid() && store.Valid()
      modifies this, store
      ensures Valid() && store.Valid()
      ensures ok == (KnownRole(old(newMember).role) && accept)
      ensures ok ==> store.roles == old(store.roles)[old(store.nextId) :=
        MemberRecord(event, old(newMember), currentUser).value.(id := old(store.nextId))]
      ensures !ok ==> store.roles == old(store.roles)
      ensures store.events == old(store.events) && store.applications == old(store.applications)
      ensures store.attendees == old(store.attendees)
      ensures store.nextId == old(store.nextId) + (if ok then 1 else 0)
      ensures newMember == (if ok then BlankMemberForm else old(newMember))
      ensures showAddForm == (if ok then false else old(showAddForm))
      ensures !loading
    {
      loading := true;
      var record := MemberRecord(event, newMember, currentUser);
      ok := false;
      if record.Some? {
        var created := store.CreateRole(record.value, accept);
        if created.Some? {
          newMember := BlankMemberForm;
          showAddForm := false;
          ok := true;
        }
      }
      loading := false;
    }

    /** `handleRemoveMember`: even when confirmed it deletes nothing; it only asks
        the parent to reload. */
    method HandleRemoveMember(store: EntityStore, memberId: Id, confirmed: bool)
      ensures store.roles == old(store.roles)
    {
    }
  }
}
