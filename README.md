# Underground events front end: a Dafny model of its handlers and filters

The application is a React front end for invitation-only events. Organizers
create events and assign team roles. Guests apply to an event and confirm the
application with a code. Organizers screen the applications. Bouncers check
guests in and flag them at the door. All data lives in an external entity store
with four tables: `Event`, `EventRole`, `EventApplication` and `Attendee`.

This project models the business logic the components run against that store.
- The store is a class (`Gateway.EntityStore`) holding one map from id to record per table.
- Each `create` or `update` is a method that may be refused. The `accept` argument is the store's answer.
- Each read (`list`, `filter`, `User.me`) is an argument of the handler that uses it. `None` means the read threw.
- The exact-match filter a read performs is written out in the model.
- The clock is an integer `now`.
- Parsing a date is a `DateParser` function, where `None` is an Invalid Date.

One module per source file:
- `TeamManagement` and `RoleManagement`: the two copies of the role-to-permission table, adding a member, the inert removal, and the role lists.
- `CreateEventModal` and `EventSettings`: the event form, the genre toggle, creation and saving.
- `Dashboard`, `EventManagement`, `OrganizerDashboard`, `BouncerDashboard`, `EventsPage`, `MyApplications` and `EventDetails`: the pages and panels.
- `ApplicationForm`: the two-step application wizard.
- `Seqs`, `Text`, `Entities` and `Gateway`: list and string operations, the records, and the store.

Each component's local React state is a class.
- Its handlers are methods whose `ensures` state the whole new state.
- Its derived values are functions of that state.
- The properties the pages rely on are lemmas about those functions.

## Model

| member | source | states |
|---|---|---|
| TeamManagement.PermissionHierarchy | Components/dashboard/TeamManagement.jsx:11-30 | exactly the three role names have a table entry; bouncer permissions are organizer permissions and performer permissions are bouncer permissions; the organizer has exactly the five permissions; only the organizer has manage_event or screen_attendees |
| TeamManagement.MemberRecord | Components/dashboard/TeamManagement.jsx:44-51 | a record exists exactly for a known role; its permissions are the table's entry for that role; it carries the event id, the entered email and the current user as assigner |
| TeamManagement.TeamListsPartition | Components/dashboard/TeamManagement.jsx:75-77 | the three role lists are pairwise disjoint; a member with a known role is in exactly the list of its role; together the lists are as long as the known-role members |
| TeamManagement.TeamPanel.constructor | Components/dashboard/TeamManagement.jsx:33-38 | the form starts closed, with an empty email and role bouncer |
| TeamManagement.TeamPanel.ToggleAddForm | Components/dashboard/TeamManagement.jsx:88-96 | only the creator can open or close the add form; the form can be open only for the creator |
| TeamManagement.TeamPanel.EditForm | Components/dashboard/TeamManagement.jsx:105-118 | typing sets the form |
| TeamManagement.TeamPanel.HandleAddMember | Components/dashboard/TeamManagement.jsx:40-60 | succeeds iff the role is known and the store accepts; then the role table gains the member record under a fresh id and the form resets to empty email and bouncer and closes; on failure the form and the role table are unchanged; one id is used exactly on success |
| TeamManagement.TeamPanel.HandleRemoveMember | Components/dashboard/TeamManagement.jsx:62-72 | the role table is unchanged |
| RoleManagement.TablesAgree | Components/events/RoleManagement.jsx:11-27 | this file's permission table equals the team panel's for every role name |
| RoleManagement.RoleRecord | Components/events/RoleManagement.jsx:41-48 | the record sent is the same as the team panel's member record: configured permissions, event id, assigner |
| RoleManagement.RolePanel.constructor | Components/events/RoleManagement.jsx:30-35 | closed form with empty email and role bouncer |
| RoleManagement.RolePanel.ToggleAddForm | Components/events/RoleManagement.jsx:71-82 | only the creator can toggle the add form |
| RoleManagement.RolePanel.EditForm | Components/events/RoleManagement.jsx:96-110 | typing sets the form |
| RoleManagement.RolePanel.HandleAddRole | Components/events/RoleManagement.jsx:37-57 | on success the role is stored under a fresh id and the form resets to empty email and bouncer and closes; one id is used exactly on success; otherwise nothing changes |
| RoleManagement.RolePanel.HandleRemoveRole | Components/events/RoleManagement.jsx:59-69 | the role table is unchanged |
| CreateEventModal.ToggleGenre | Components/events/CreateEventModal.jsx:32-39 | a genre is in the result iff it is the toggled genre and was absent, or another genre that was present |
| CreateEventModal.ToggleTwiceRestores | Components/events/CreateEventModal.jsx:35-37 | toggling an absent genre appends it after the others in order; toggling it again restores the list |
| CreateEventModal.TogglePresentRemoves | Components/events/CreateEventModal.jsx:35-36 | in a list without repeats, toggling the genre at index i removes exactly that entry and keeps the rest in order |
| CreateEventModal.ToggleKeepsNoDups | Components/events/CreateEventModal.jsx:32-39 | the toggle keeps a repeat-free genre list repeat-free |
| CreateEventModal.CreatorRole | Components/events/CreateEventModal.jsx:55-61 | the creator's role is an organizer role with the table's five permissions, on the given event, assigned by the creator |
| CreateEventModal.CreateEventPanel.constructor | Components/events/CreateEventModal.jsx:19-29 | the form starts empty, with capacity 50, 1 guest pass, no genres and screening required |
| CreateEventModal.CreateEventPanel.EditForm | Components/events/CreateEventModal.jsx:91-163 | typing sets the form |
| CreateEventModal.CreateEventPanel.HandleGenreToggle | Components/events/CreateEventModal.jsx:32-39 | only the genres of the form change, by the toggle |
| CreateEventModal.CreateEventPanel.HandleSubmit | Components/events/CreateEventModal.jsx:41-68 | the event is stored as the form with creator set and status published; only after that is the creator's organizer role stored, on the new event's id; a failed role call leaves the event stored; each stored record takes one id |
| EventSettings.SeedFormAsWritten | Components/events/EventSettings.jsx:18-28 | the form as the component seeds it: capacity and guest passes fall back when missing or 0; otherwise as the corrected seed |
| EventSettings.NoGuestsSeedsAsOne | Components/events/EventSettings.jsx:25 | an event created with "No Guests Allowed" (0) opens in the settings with 1 guest pass |
| EventSettings.SaveAsWrittenGrantsGuest | Components/events/EventSettings.jsx:25 | saving the form as seeded stores 1 over a stored 0; the corrected seed keeps 0 |
| EventSettings.SeedDate | Components/events/EventSettings.jsx:21 | the first 16 characters of the date, or "" when absent |
| EventSettings.NumberOr | Components/events/EventSettings.jsx:24 | `value || fallback`: missing and 0 both give the fallback |
| EventSettings.ScreeningOr | Components/events/EventSettings.jsx:27 | screening is on unless stored as exactly false |
| EventSettings.SeedForm | Components/events/EventSettings.jsx:18-28 | missing text seeds as "", missing genres as []; capacity falls back to 50 when missing or 0; guest passes fall back to 1 only when missing; screening as above |
| EventSettings.SeedAfterSave | Components/events/EventSettings.jsx:44 | seeding from a saved event gives back the saved form (capacity not 0, date text of at most 16 characters); id, status and creator survive the save |
| EventSettings.SeedAsWrittenAfterSave | Components/events/EventSettings.jsx:18-28 | the seed the component runs gives back a saved form only when its capacity and guest passes are not 0 and its date text has at most 16 characters |
| EventSettings.SeedAfterCreate | Components/events/EventSettings.jsx:18-28 | a freshly created event opens with the form it was created from |
| EventSettings.ToggleGenre | Components/events/EventSettings.jsx:31-38 | the settings toggle equals the creation dialog's toggle |
| EventSettings.SettingsPanel.constructor | Components/events/EventSettings.jsx:18-29 | the form is the event seeded as the component writes it, with `|| 1` for guest passes; not saving |
| EventSettings.SettingsPanel.EditForm | Components/events/EventSettings.jsx:64-108 | typing sets the form |
| EventSettings.SettingsPanel.HandleGenreToggle | Components/events/EventSettings.jsx:31-38 | only the genres of the form change, by the toggle |
| EventSettings.SettingsPanel.HandleSave | Components/events/EventSettings.jsx:40-50 | on success every form field is written over the stored event; otherwise the store is unchanged |
| Dashboard.CreatedEvents | Pages/Dashboard.jsx:33 | exactly the events of the table created by the user |
| Dashboard.OrganizerEvents | Pages/Dashboard.jsx:31-51 | the created events come first in table order; an event is in the list iff the user created it, or the role read succeeded, the user holds an organizer role on it and no created event has its id |
| Dashboard.OrganizerEventsKeepOrder | Pages/Dashboard.jsx:33-47 | two created events, or two role events, of the organizer list appear in the table in the same relative order |
| Dashboard.OrganizerEventsQualify | Pages/Dashboard.jsx:33-44 | every organizer event was created by the user or carries one of the user's organizer roles |
| Dashboard.OrganizerEventsExact | Pages/Dashboard.jsx:38-44 | with distinct ids, an event is listed iff created by the user or carrying an organizer role of the user |
| Dashboard.OrganizerEventsDistinct | Pages/Dashboard.jsx:41-47 | with distinct ids in the table, the organizer list has no two events with the same id |
| Dashboard.BouncerEvents | Pages/Dashboard.jsx:53-64 | when the role read finds some bouncer role, exactly the events of those roles; otherwise the previous list |
| Dashboard.ViewOf | Pages/Dashboard.jsx:86-120 | access denied iff both lists are empty once loaded; each tab shows iff its list is non-empty; the default tab is organizer iff the organizer list is non-empty, else bouncer |
| Dashboard.DeniedIffNothingQualifies | Pages/Dashboard.jsx:86-89 | after the first load, access is denied iff no event was created by the user or carries one of the user's organizer or bouncer roles |
| Dashboard.DashboardPage.constructor | Pages/Dashboard.jsx:16-19 | empty lists, loading |
| Dashboard.DashboardPage.LoadDashboardData | Pages/Dashboard.jsx:25-69 | the lists become the organizer and bouncer lists of the table; a throw of the user or event read leaves them as they were |
| EventManagement.MayManageIff | pages/EventManagement.jsx:44-54 | permission iff the user is the creator or holds an organizer role on the event |
| EventManagement.CreatorAlwaysPermitted | pages/EventManagement.jsx:45-46 | the creator is permitted whatever the roles |
| EventManagement.OtherRolesGrantNothing | pages/EventManagement.jsx:48-53 | adding roles other than organizer never changes the decision |
| EventManagement.OrganizerRolesOn | pages/EventManagement.jsx:48-52 | exactly the organizer roles of that user on that event |
| EventManagement.ToggledStatus | pages/EventManagement.jsx:84 | published becomes draft; every other status becomes published |
| EventManagement.ToggleTwice | pages/EventManagement.jsx:84 | two switches restore published or draft; live or ended goes to published, then draft |
| EventManagement.StatusPatchOnlyStatus | pages/EventManagement.jsx:85 | the update changes the status and nothing else |
| EventManagement.ViewOf | pages/EventManagement.jsx:92-120 | not found iff no event; access denied iff an event and no permission; the management view otherwise |
| EventManagement.ManagementPage.constructor | pages/EventManagement.jsx:19-23 | no event, no permission, loading |
| EventManagement.ManagementPage.LoadEventData | pages/EventManagement.jsx:30-64 | event and permission are set only when the lookup finds the event; the creator is permitted without a role read; a non-creator is permitted iff an organizer role exists; each throw stops the load |
| EventManagement.ManagementPage.ToggleEventVisibility | pages/EventManagement.jsx:82-90 | the stored event gets the switched status of the page's copy; nothing else changes; without an event nothing is written |
| OrganizerDashboard.DefaultSelection | Components/dashboard/OrganizerDashboard.jsx:43-49 | an existing selection stays; otherwise the first live event, else the first event; none for no events |
| OrganizerDashboard.LiveEvents | Components/dashboard/OrganizerDashboard.jsx:80 | exactly the live events |
| OrganizerDashboard.UpcomingEvents | Components/dashboard/OrganizerDashboard.jsx:81 | exactly the published events whose date parses to after now |
| OrganizerDashboard.LiveAndUpcomingDisjoint | Components/dashboard/OrganizerDashboard.jsx:80-81 | no event is both live and upcoming |
| OrganizerDashboard.DecisionFields | Components/dashboard/OrganizerDashboard.jsx:57-61 | a decision writes any status, whatever the previous one, stamps reviewer and time, and no other field |
| OrganizerDashboard.LastDecisionWins | Components/dashboard/OrganizerDashboard.jsx:55-66 | a later decision overwrites an earlier one entirely |
| OrganizerDashboard.Stats | Components/dashboard/OrganizerDashboard.jsx:68-78 | total is the number of the event's applications; each status count is the number of the event's applications with that status, so at most total; checked-in is 0 |
| OrganizerDashboard.StatusCountsSum | Components/dashboard/OrganizerDashboard.jsx:72-75 | with only the four statuses, the four counts add up to the length |
| OrganizerDashboard.StatsPartitionTotal | Components/dashboard/OrganizerDashboard.jsx:70-75 | pending + approved + denied + waitlisted == total when the event's statuses are known |
| OrganizerDashboard.StatsIgnoreOtherEvents | Components/dashboard/OrganizerDashboard.jsx:69 | applications of other events do not change the counts |
| OrganizerDashboard.OrganizerPanel.constructor | Components/dashboard/OrganizerDashboard.jsx:20-23 | nothing selected and nothing loaded |
| OrganizerDashboard.OrganizerPanel.SelectDefault | Components/dashboard/OrganizerDashboard.jsx:43-49 | the selection becomes the default selection |
| OrganizerDashboard.OrganizerPanel.SelectEvent | Components/dashboard/OrganizerDashboard.jsx:99 | clicking selects that event |
| OrganizerDashboard.OrganizerPanel.LoadEventData | Components/dashboard/OrganizerDashboard.jsx:25-41 | nothing without a selection; otherwise the event's applications, then its roles; a throw keeps what is not yet read |
| OrganizerDashboard.OrganizerPanel.UpdateApplicationStatus | Components/dashboard/OrganizerDashboard.jsx:55-66 | the stored application gets the decision at now; nothing else changes |
| ApplicationForm.SubmittedApplication | Components/events/ApplicationForm.jsx:26-33 | pending, unverified, for this event and user, with message and guest count copied |
| ApplicationForm.VerifyPatchFields | Components/events/ApplicationForm.jsx:50-53 | verification sets verified and the entered code, whatever it is, and nothing else |
| ApplicationForm.OnlyLengthIsChecked | Components/events/ApplicationForm.jsx:98 | the button is enabled iff no submit is in flight and the code is exactly 6 UTF-16 code units long; codes of the same length are treated alike |
| ApplicationForm.AstralCharacterCountsTwice | Components/events/ApplicationForm.jsx:98 | six characters inside the Basic Multilingual Plane enable the button; six characters with one outside it are seven code units and do not |
| ApplicationForm.ApplicationWizard.constructor | Components/events/ApplicationForm.jsx:12-19 | step 1, empty message, 0 guests, no id |
| ApplicationForm.ApplicationWizard.EditForm | Components/events/ApplicationForm.jsx:117-120 | typing sets the form |
| ApplicationForm.ApplicationWizard.EditCode | Components/events/ApplicationForm.jsx:84 | typing sets the code |
| ApplicationForm.ApplicationWizard.HandleApplicationSubmit | Components/events/ApplicationForm.jsx:21-41 | on success the application is stored, its id kept and the step becomes 2; on failure step and id stay; step 2 never goes back to 1; one id is used exactly on success |
| ApplicationForm.ApplicationWizard.HandleVerificationSubmit | Components/events/ApplicationForm.jsx:43-60 | the application with the kept id is marked verified with the entered code; without an id nothing is written |
| BouncerDashboard.DefaultSelection | Components/dashboard/BouncerDashboard.jsx:30-36 | the door panel selects by the same rule as the organizer panel |
| BouncerDashboard.ApprovedAttendees | Components/dashboard/BouncerDashboard.jsx:22 | exactly the approved attendees of the selected event |
| BouncerDashboard.CheckInFields | Components/dashboard/BouncerDashboard.jsx:44-48 | check-in sets checked in, time and checker, and nothing else |
| BouncerDashboard.CheckInOverwrites | Components/dashboard/BouncerDashboard.jsx:42-53 | a second check-in overwrites time and checker; it is not idempotent |
| BouncerDashboard.FlagNote | Components/dashboard/BouncerDashboard.jsx:58-62 | the note's author is the user, its text "FLAGGED: " followed by the reason, its time now |
| BouncerDashboard.FlagAppendsOneNote | Components/dashboard/BouncerDashboard.jsx:64-67 | flagging sets flagged and reason, keeps the earlier notes in order (none if absent), appends exactly one note, and leaves status and check-in alone |
| BouncerDashboard.Search | Components/dashboard/BouncerDashboard.jsx:75-77 | exactly the attendees whose lower-cased email includes the lower-cased term |
| BouncerDashboard.SearchIffOccurs | Components/dashboard/BouncerDashboard.jsx:75-77 | the search keeps an attendee iff the term occurs somewhere in its email, ignoring case |
| BouncerDashboard.SearchEmptyKeepsAll | Components/dashboard/BouncerDashboard.jsx:75-77 | an empty term keeps every attendee in order |
| BouncerDashboard.SearchIgnoresTermCase | Components/dashboard/BouncerDashboard.jsx:76 | lower-casing the term first changes nothing |
| BouncerDashboard.CheckedInCount | Components/dashboard/BouncerDashboard.jsx:79 | at most the number of attendees; 0 iff none is checked in |
| BouncerDashboard.FlaggedCount | Components/dashboard/BouncerDashboard.jsx:80 | at most the number of attendees; 0 iff none is flagged |
| BouncerDashboard.CheckedInCountAdds | Components/dashboard/BouncerDashboard.jsx:79 | the counter adds up over a split of the list and counts a single attendee as 1 exactly when checked in |
| BouncerDashboard.FlaggedCountAdds | Components/dashboard/BouncerDashboard.jsx:80 | the counter adds up over a split of the list and counts a single attendee as 1 exactly when flagged |
| BouncerDashboard.DoorPanel.constructor | Components/dashboard/BouncerDashboard.jsx:12-15 | nothing selected, no attendees, empty term |
| BouncerDashboard.DoorPanel.SelectDefault | Components/dashboard/BouncerDashboard.jsx:30-36 | the selection becomes the default selection |
| BouncerDashboard.DoorPanel.SelectEvent | Components/dashboard/BouncerDashboard.jsx:90 | clicking selects that event |
| BouncerDashboard.DoorPanel.SetSearchTerm | Components/dashboard/BouncerDashboard.jsx:14 | typing sets the term |
| BouncerDashboard.DoorPanel.LoadAttendees | Components/dashboard/BouncerDashboard.jsx:17-28 | nothing without a selection; otherwise the approved attendees of the selected event, unless the read throws |
| BouncerDashboard.DoorPanel.CheckInAttendee | Components/dashboard/BouncerDashboard.jsx:42-53 | the stored attendee gets the check-in patch; nothing else changes |
| BouncerDashboard.DoorPanel.FlagAttendee | Components/dashboard/BouncerDashboard.jsx:55-73 | the stored attendee gets the flag patch built from the panel's copy; an id not in the panel's list writes nothing |
| EventsPage.PublicEvents | pages/Events.jsx:36 | exactly the published or live events |
| EventsPage.PublicKeepsOrder | pages/Events.jsx:36 | the public list keeps table order |
| EventsPage.MyEvents | pages/Events.jsx:39 | exactly the user's events, whatever their status |
| EventsPage.UpcomingEvents | pages/Events.jsx:52 | exactly the events whose date parses to after now |
| EventsPage.LiveEvents | pages/Events.jsx:53 | exactly the live events |
| EventsPage.DerivedListsArePublic | pages/Events.jsx:52-53 | upcoming and live lists are drawn from the public list; its live list is exactly the table's live events in order |
| EventsPage.TabsAfterLoad | pages/Events.jsx:87-101 | the live tab shows iff some event is live; the mine tab iff a user is signed in and created some event |
| EventsPage.EventsPageState.constructor | pages/Events.jsx:18-23 | empty lists, no user, the All tab |
| EventsPage.EventsPageState.LoadData | pages/Events.jsx:29-45 | the lists become the public and the user's events; a throw leaves them as they were |
| EventsPage.EventsPageState.OpenCreateModal | pages/Events.jsx:66-73 | only a signed-in user opens the dialog |
| EventsPage.EventsPageState.HandleEventCreated | pages/Events.jsx:47-50 | the dialog closes |
| EventsPage.EventsPageState.SetActiveTab | pages/Events.jsx:78-103 | only a shown tab can become active |
| MyApplications.EventIds | pages/MyApplications.jsx:33 | no repeats, and exactly the event ids of the applications |
| MyApplications.Lookup | pages/MyApplications.jsx:38-41 | the first event of the answer with that id; none when the read throws or nothing matches |
| MyApplications.BuildEventData | pages/MyApplications.jsx:34-45 | a key exists iff the id is in the list and its lookup found an event, mapped to that first match |
| MyApplications.UpcomingApplications | pages/MyApplications.jsx:73-76 | exactly the applications whose loaded event dates after now |
| MyApplications.PastApplications | pages/MyApplications.jsx:78-81 | exactly the applications whose loaded event dates at or before now |
| MyApplications.UpcomingPastPartition | pages/MyApplications.jsx:73-81 | the lists are disjoint; an application without a loaded event is in neither; together they count the applications whose loaded event has a date that parses |
| MyApplications.StatusColorsDistinct | pages/MyApplications.jsx:54-62 | the four known statuses get four different colours, none the default; every other status gets the default |
| MyApplications.MyApplicationsPage.constructor | pages/MyApplications.jsx:14-17 | nothing loaded |
| MyApplications.MyApplicationsPage.LoadApplications | pages/MyApplications.jsx:23-52 | the user's applications, then the event map built from their distinct event ids; a throw of the user or application read leaves both as they were |
| EventDetails.ExistingApplication | pages/EventDetails.jsx:44-50 | the first application of the user for the event, none when there is none |
| EventDetails.ShownAddress | pages/EventDetails.jsx:135-139 | the address is shown iff the user's application is approved |
| EventDetails.AddressHiddenUnlessApproved | pages/EventDetails.jsx:135-139 | no application, or a pending, denied or waitlisted one, never shows the address |
| EventDetails.ViewOf | pages/EventDetails.jsx:63-81 | "Event Not Found" iff loaded without an event; otherwise the details with the address rule |
| EventDetails.DetailsPage.constructor | pages/EventDetails.jsx:19-23 | nothing loaded |
| EventDetails.DetailsPage.LoadEventDetails | pages/EventDetails.jsx:30-56 | the event is set only when found; the application table is read only when the event was found; an empty lookup clears nothing |
| EventDetails.DetailsPage.OpenApplicationForm | pages/EventDetails.jsx:23 | the application form, declared closed here, opens (the Apply button that opens it lies past line 154, where the available text of the file ends) |
| EventDetails.DetailsPage.HandleApplicationSubmitted | pages/EventDetails.jsx:58-61 | the form closes |
| Entities.RoleEventIds | Pages/Dashboard.jsx:38-39 | the event ids of exactly the roles of that user with that role name |
| Entities.AfterOrBefore | pages/MyApplications.jsx:73-81 | a date is never both after and at-or-before now, and is one of the two iff it parses |
| Gateway.EntityStore.CreateEvent | Components/events/CreateEventModal.jsx:52 | on acceptance the record is stored and returned under a fresh id; other tables unchanged |
| Gateway.EntityStore.CreateRole | Components/dashboard/TeamManagement.jsx:45-51 | on acceptance the role is stored under a fresh id |
| Gateway.EntityStore.CreateApplication | Components/events/ApplicationForm.jsx:26-33 | on acceptance the application is stored under a fresh id |
| Gateway.EntityStore.UpdateEvent | Components/events/EventSettings.jsx:44 | succeeds iff accepted and the id exists; then the record is patched |
| Gateway.EntityStore.UpdateApplication | Components/dashboard/OrganizerDashboard.jsx:57-61 | succeeds iff accepted and the id exists; then the record is patched |
| Gateway.EntityStore.UpdateAttendee | Components/dashboard/BouncerDashboard.jsx:44-48 | succeeds iff accepted and the id exists; then the record is patched |
| Seqs.Dedup | pages/MyApplications.jsx:33 | no repeats, and the same members as the input |
| Seqs.Find | Components/dashboard/OrganizerDashboard.jsx:46 | none iff nothing matches; otherwise a match with no earlier match |
| Text.Utf16Length | Components/events/ApplicationForm.jsx:98 | `length` counts one unit per character of the Basic Multilingual Plane and two per other character, so it lies between the character count and twice it, and equals the character count iff every character lies inside the plane |
| Seqs.FilterKeepsOrder | Pages/Dashboard.jsx:41-44 | two entries of a filtered list appear in the input in the same relative order |
| Text.IncludesIffOccurs | Components/dashboard/BouncerDashboard.jsx:76 | `includes` holds iff the term occurs at some index |

## Left out

- The store's own behaviour (validation, the `-created_date` sort order, real id generation) is not modelled. Every read returns a whole table in table order, and the model applies the filter itself.
- Authentication (`User.me`) is an argument of each load. Profile and layout pages are not part of this model.
- Rendering, styling and the purely presentational components (ApplicationsList, AttendeesList, EventCard) are not modelled.
- EventOverviewCard's only computation is a floating-point percentage, which is not modelled.
- Date parsing and formatting are not modelled. A stored date is text; `DateParser` turns it into an instant, and `None` stands for an Invalid Date. Clock reads are the argument `now`, and ISO timestamps are stored as that integer.
- `window.confirm`, URL parameters and navigation are not modelled. The event id from the address bar is an argument. Confirmation does not matter, because removal writes nothing either way.
- The reload a handler triggers after a write (`onTeamUpdated`, `loadEventData()`, `loadAttendees()`) is a separate call to the load method, not part of the handler.
- Async interleaving and React's re-render ordering are not modelled. Each handler is one sequential step.
- Text.Lower: lower-cases ASCII letters only, because `toLowerCase` on other Unicode characters is not modelled.
- EventSettings.SeedDate: cuts the date after 16 characters (Unicode scalar values) where `slice(0, 16)` cuts after 16 UTF-16 code units, so a date text holding a character outside the Basic Multilingual Plane is cut differently. Only the code length of the verification button is measured in code units (Text.Utf16Length); `includes` in Text.Includes compares characters, which agrees with code-unit matching on well-formed strings.
- The HTML `required` and `maxLength` attributes are browser validation and are not modelled. A code of any length can be typed; only the button's length check is modelled.
- MemberRecord already covers a role name the table has no entry for: reading `config.permissions` throws before any store call. Role names that are keys of `Object.prototype` (such as `constructor`) are not modelled.
- The Cancel button of the add-member form (Components/dashboard/TeamManagement.jsx:145) only closes the form; it is not modelled as a separate method.
- CreateEventModal.CreateEventPanel.EditForm: form numbers are unbounded integers. `parseInt` of an emptied capacity field (Components/events/CreateEventModal.jsx:128) gives NaN, which the model cannot hold, and the same would apply to guest passes (:163).
- EventSettings.SettingsPanel.constructor: seeds with EventSettings.SeedFormAsWritten, as the component does, so a stored guest-pass 0 opens as 1. EventSettings.SeedForm is the corrected seed of the Findings row; the panel does not use it.
- Event deletion is not modelled, because the source has none: `deleteEvent` only navigates.
- EventSettings.SeedAfterSave: holds only for a capacity other than 0 and a date text of at most 16 characters, because the seed maps capacity 0 to 50 and cuts the date at 16 characters. The seed the component runs also maps guest passes 0 to 1, so EventSettings.SeedAsWrittenAfterSave needs guest passes other than 0 as well.
- Dashboard.BouncerEvents: takes the previous list as an argument. A reload can start from a non-empty list, because Pages/Dashboard.jsx:142 and :148 pass `loadDashboardData` on as `onRefresh`. When the role read then throws or finds no bouncer role, the stale list is kept, and the model states exactly that.

## Findings

| source | as written | input that shows it | evidently intended | confidence | as-written member | corrected member |
|---|---|---|---|---|---|---|
| Components/events/EventSettings.jsx:25 | `guest_passes_per_attendee \|\| 1` treats a stored 0 as missing | an event created with "No Guests Allowed" (value 0, Components/events/CreateEventModal.jsx:169) opens in the settings with 1 guest pass, and saving the unchanged form stores 1 | fall back to 1 only when the field is missing (`?? 1`), so 0 survives opening and saving | not executed | EventSettings.NoGuestsSeedsAsOne | EventSettings.SeedAfterCreate |
