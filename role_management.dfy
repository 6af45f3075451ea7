/** The team tab of the event-management page. It carries its own copy of the
    role-to-permission table and its own add and (inert) remove handlers. */
module RoleManagement {
  import opened Seqs
  import opened Entities
  import opened Gateway
  import TeamManagement

  /** This component's `ROLE_CONFIGS[role].permissions`. */
  function RolePermissions(role: string): Option<seq<string>> {
    if role == OrganizerRole then Some([ManageEvent, ScreenAttendees, ViewDashboard, CheckIn, FlagAttendees])
    else if role == BouncerRole then Some([CheckIn, FlagAttendees, ViewDashboard])
    else if role == PerformerRole then Some([ViewDashboard])
    else None
  }

  /** The two copies of the table agree on every role name, known or not. */
  lemma TablesAgree(role: string)
    ensures RolePermissions(role) == TeamManagement.RolePermissions(role)
  {
  }

  /** The record `handleAddRole` sends to the store; `None` when the role has no entry. */
  function RoleRecord(event: Event, form: TeamManagement.MemberForm, assignedBy: string): (r: Option<EventRole>)
    ensures r == TeamManagement.MemberRecord(event, form, assignedBy)
  {
    match RolePermissions(form.role)
    case None => None
    case Some(perms) => Some(EventRole(0, event.id, form.userEmail, form.role, perms, assignedBy))
  }

  class RolePanel {
    const event: Event
    const currentUser: string
    var showAddForm: bool
    var newRole: TeamManagement.MemberForm
    var loading: bool

    /** Only the creator can have opened the add form. */
    ghost predicate Valid()
      reads this
    {
      showAddForm ==> TeamManagement.IsCreator(event, currentUser)
    }

    constructor (event: Event, currentUser: string)
      ensures Valid()
      ensures this.event == event && this.currentUser == currentUser
      ensures !showAddForm && newRole == TeamManagement.BlankMemberForm && !loading
    {
      this.event := event;
      this.currentUser := currentUser;
      showAddForm := false;
      newRole := TeamManagement.BlankMemberForm;
      loading := false;
    }

    /** The Add Member button, rendered only for the creator. */
    method ToggleAddForm()
      requires Valid()
      modifies this
      ensures Valid()
      ensures showAddForm == if TeamManagement.IsCreator(event, currentUser) then !old(showAddForm) else old(showAddForm)
      ensures newRole == old(newRole) && loading == old(loading)
    {
      if TeamManagement.IsCreator(event, currentUser) {
        showAddForm := !showAddForm;
      }
    }

    method EditForm(form: TeamManagement.MemberForm)
      requires Valid()
      modifies this`newRole
      ensures Valid() && newRole == form
    {
      newRole := form;
    }

    /** `handleAddRole`: store the role record with the configured permissions; on
        success reset the form to an empty email with role bouncer and close it. */
    method HandleAddRole(store: EntityStore, accept: bool) returns (ok: bool)
      requires Valid() && store.Valid()
      modifies this, store
      ensures Valid() && store.Valid()
      ensures ok == (TeamManagement.KnownRole(old(newRole).role) && accept)
      ensures ok ==> store.roles == old(store.roles)[old(store.nextId) :=
        RoleRecord(event, old(newRole), currentUser).value.(id := old(store.nextId))]
      ensures !ok ==> store.roles == old(store.roles)
      ensures store.events == old(store.events) && store.applications == old(store.applications)
      ensures store.attendees == old(store.attendees)
      ensures store.nextId == old(store.nextId) + (if ok then 1 else 0)
      ensures newRole == (if ok then TeamManagement.BlankMemberForm else old(newRole))
      ensures showAddForm == (if ok then false else old(showAddForm))
      ensures !loading
    {
      loading := true;
      var record := RoleRecord(event, newRole, currentUser);
      ok := false;
      if record.Some? {
        var created := store.CreateRole(record.value, accept);
        if created.Some? {
          newRole := TeamManagement.BlankMemberForm;
          showAddForm := false;
          ok := true;
        }
      }
      loading := false;
    }

    /** `handleRemoveRole`: deletes nothing, only asks the parent to reload. */
    method HandleRemoveRole(store: EntityStore, roleId: Id, confirmed: bool)
      ensures store.roles == old(store.roles)
    {
    }
  }
}
