/** The events page: the public list, the user's own events, the upcoming and
    live lists drawn from the public one, and which tabs appear. */
module EventsPage {
  import opened Seqs
  import opened Entities

  /** Is published or live. */
  function IsPublic(): Event -> bool {
    (e: Event) => e.status == Published || e.status == Live
  }

  /** The events shown to everyone, in table order. */
  function PublicEvents(all: seq<Event>): (r: seq<Event>)
    ensures forall e :: e in r <==> e in all && (e.status == Published || e.status == Live)
  {
    Filter(all, IsPublic())
  }

  /** The public list keeps table order: the public events of a concatenation are
      those of the first part followed by those of the second. */
  lemma PublicKeepsOrder(a: seq<Event>, b: seq<Event>)
    ensures PublicEvents(a + b) == PublicEvents(a) + PublicEvents(b)
  {
    FilterConcat(a, b, IsPublic());
  }

  /** `myEvents`: the user's events whatever their status. */
  function MyEvents(all: seq<Event>, email: string): (r: seq<Event>)
    ensures forall e :: e in r <==> e in all && e.createdBy == email
  {
    Filter(all, (e: Event) => e.createdBy == email)
  }

  /** Is an event whose date parses to an instant after `now`. */
  function AfterNow(parse: DateParser, now: int): Event -> bool {
    (e: Event) => IsAfter(parse, e.date, now)
  }

  /** `upcomingEvents`, counted on the All tab. */
  function UpcomingEvents(events: seq<Event>, parse: DateParser, now: int): (r: seq<Event>)
    ensures forall e :: e in r <==> e in events && IsAfter(parse, e.date, now)
  {
    Filter(events, AfterNow(parse, now))
  }

  function IsLive(): Event -> bool {
    (e: Event) => e.status == Live
  }

  /** `liveEvents`. */
  function LiveEvents(events: seq<Event>): (r: seq<Event>)
    ensures forall e :: e in r <==> e in events && e.status == Live
  {
    Filter(events, IsLive())
  }

  /** The upcoming and live lists only hold public events, and the live list of
      the public events is exactly the live events of the table, in order. */
  lemma {:induction false} DerivedListsArePublic(all: seq<Event>, parse: DateParser, now: int)
    ensures forall e :: e in UpcomingEvents(PublicEvents(all), parse, now) ==> e in PublicEvents(all)
    ensures forall e :: e in LiveEvents(PublicEvents(all)) ==> e in PublicEvents(all)
    ensures LiveEvents(PublicEvents(all)) == Filter(all, IsLive())
  {
    FilterFilter(all, IsPublic(), IsLive(), IsLive());
  }

  datatype Tab = AllTab | LiveTab | MineTab

  /** The tab buttons shown: All always; Live when some public event is live;
      Mine when a user is signed in and has created an event. */
  function TabShown(tab: Tab, signedIn: bool, events: seq<Event>, myEvents: seq<Event>): bool {
    match tab
    case AllTab => true
    case LiveTab => |LiveEvents(events)| > 0
    case MineTab => signedIn && |myEvents| > 0
  }

  /** After a load the Live tab is shown iff the table has a live event, and the
      Mine tab iff the signed-in user created some event of the table. */
  lemma TabsAfterLoad(all: seq<Event>, email: string)
    ensures TabShown(LiveTab, true, PublicEvents(all), MyEvents(all, email)) <==> exists e :: e in all && e.status == Live
    ensures TabShown(MineTab, true, PublicEvents(all), MyEvents(all, email)) <==> exists e :: e in all && e.createdBy == email
    ensures !TabShown(MineTab, false, PublicEvents(all), MyEvents(all, email))
  {
    var live := LiveEvents(PublicEvents(all));
    if |live| > 0 {
      assert live[0] in live;
    }
    var mine := MyEvents(all, email);
    if |mine| > 0 {
      assert mine[0] in mine;
    }
  }

  class EventsPageState {
    var events: seq<Event>
    var myEvents: seq<Event>
    var user: Option<string>
    var showCreateModal: bool
    var loading: bool
    var activeTab: Tab

    constructor ()
      ensures events == [] && myEvents == [] && user.None? && !showCreateModal && loading && activeTab == AllTab
    {
      events, myEvents, user := [], [], None;
      showCreateModal, loading, activeTab := false, true, AllTab;
    }

    /** `loadData`, given the signed-in user (`None` when `User.me` throws) and the
        event table (`None` when the list throws). */
    method LoadData(me: Option<string>, all: Option<seq<Event>>)
      modifies this`events, this`myEvents, this`user, this`loading
      ensures !loading
      ensures user == if me.Some? then me else old(user)
      ensures events == if me.Some? && all.Some? then PublicEvents(all.value) else old(events)
      ensures myEvents == if me.Some? && all.Some? then MyEvents(all.value, me.value) else old(myEvents)
    {
      loading := true;
      if me.Some? {
        user := me;
        if all.Some? {
          events := PublicEvents(all.value);
          myEvents := MyEvents(all.value, me.value);
        }
      }
      loading := false;
    }

    /** The Create Event button, shown only to a signed-in user. */
    method OpenCreateModal()
      modifies this`showCreateModal
      ensures showCreateModal == (user.Some? || old(showCreateModal))
    {
      if user.Some? {
        showCreateModal := true;
      }
    }

    /** `handleEventCreated` closes the dialog; the reload is a separate `LoadData`. */
    method HandleEventCreated()
      modifies this`showCreateModal
      ensures !showCreateModal
    {
      showCreateModal := false;
    }

    /** Clicking a tab button; a button that is not shown cannot be clicked. */
    method SetActiveTab(tab: Tab)
      modifies this`activeTab
      ensures activeTab == if TabShown(tab, user.Some?, events, myEvents) then tab else old(activeTab)
    {
      if TabShown(tab, user.Some?, events, myEvents) {
        activeTab := tab;
      }
    }
  }
}
