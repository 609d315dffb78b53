# Bulletin-board client state machine

A model of the client side of a small staff bulletin board. Signed-in staff
post short notifications. Signed-out visitors see the newest one in a
dismissible banner. Everyone sees a list of finalized crop batches. All data
and sign-in live in a hosted backend. The client's behaviour is the page
component's state cells and the handlers that update them, plus two display
components.

The model has five modules:

- `Records` (`records.dfy`) holds the rows (`Notification`, `Batch`), the
  signed-in `User`, the `Session` of an auth event and the shapes of the
  backend's answers. `Fetched` is the `{ data, error }` pair of a select query.
  `Outcome` says whether a mutation or sign-in failed. `Env` holds the two
  build-time settings.
- `NotificationList` (`notification_list.dfy`) is the feed panel as a pure
  function. It shows only the newest notification, or a placeholder when the
  feed is empty. Its delete button appears only for the author and hands over
  that notification's id.
- `NotificationBanner` (`notification_banner.dfy`) renders its notification's
  title and message, or nothing when there is no notification or `show` is
  false.
- `App` (`app.dfy`) is the page component:
  - `State` holds the ten state cells.
  - There is one transition function per handler.
  - `Step` and `Run` apply events and sequences of events.
  - The derived values are `LatestNotification`, `Open`, `BannerShow` and the
    rendered `View`.
  - The class `Component` holds the cells as fields. Its methods update those
    fields in place. The constructor proves its state is `Initial()`.
    `FetchNotifications` and `FetchFinalizedBatches` prove their new state is
    `NotificationsFetchStep` or `BatchesFetchStep` of the old one. Every other
    method proves its new state is `Step` of its old state.
- `AppProperties` (`app_properties.dfy`) proves facts about whole runs:
  - The banner latch is one-way, and the popover opens and shuts only on its handlers.
  - The feed and batch lists only ever hold lists the backend delivered.
  - The feed stays newest-first when the backend's lists are.
  - Once the configuration error appears, only the error view renders.
  - Background events never touch the UI state.
  - It also proves three worked scenarios.

Every backend call is replaced by its answer, passed in as a parameter:
- the select result
- the insert, delete or sign-in outcome
- the user returned by `getUser`
- the session carried by an auth event

Each asynchronous handler, including the feed refresh it starts, is one atomic
transition.

Notes on what the code does:

- A successful login sets the user directly to the re-queried `getUser` result
  (src/App.tsx:103-104). That result may be null. The user is not left to the
  auth-state callback.
- A failed sign-in only clears the password. A failed post or delete is only
  logged. None of these failures is shown to the user.
- `handlePost` with nobody signed in fails when it reads the author's e-mail,
  before any insert (src/App.tsx:119). The model records no insert and no
  change.

## Model

| member | source | states |
|---|---|---|
| Records.Delivered | src/App.tsx:84 | a select result is adopted exactly when it carries no error and non-null data |
| NotificationList.DateLabel | src/components/NotificationList.tsx:36-47 | an empty timestamp, or one that does not parse, is labelled "Unknown date"; otherwise the formatted date is shown |
| NotificationList.Render | src/components/NotificationList.tsx:23-82 | placeholder iff the feed is empty; otherwise the card shows the first notification's title, message, author and date label; the delete button appears iff the user is signed in and their e-mail equals the author; the button passes that notification's id |
| NotificationList.OnlyNewestShown | src/components/NotificationList.tsx:24 | lists with the same first notification render identically, whatever follows it |
| NotificationBanner.Render | src/components/NotificationBanner.tsx:8-28 | the banner renders iff there is a notification and show is true; it carries that notification's title and message unchanged |
| App.NotificationsFetchStep | src/App.tsx:79-85 | the feed is replaced wholesale by a delivered list, otherwise kept; no other cell changes |
| App.BatchesFetchStep | src/App.tsx:87-95 | the batch list is replaced by a delivered list, otherwise kept; no other cell changes |
| App.MountStep | src/App.tsx:62-70 | without both settings only the configuration error is set; otherwise both lists are fetched, the user becomes the looked-up user, and the UI state and error are untouched |
| App.AuthChangeStep | src/App.tsx:71-73 | the user becomes the session's user, or null without a session, unconditionally; nothing else changes |
| App.LoginStep | src/App.tsx:97-109 | the password is always cleared; on failure nothing else changes; on success the user is the re-queried user, the popover anchor is null, the e-mail is cleared, and nothing else changes |
| App.PostRequest | src/App.tsx:115-120 | an insert is issued iff the title and message are non-empty and a user is signed in; it carries the title, the message and the user's e-mail as author |
| App.PostStep | src/App.tsx:115-128 | without an issued insert, or when the insert fails, the state is unchanged; on success the title and message are cleared, the feed is refreshed, and nothing else changes |
| App.DeleteStep | src/App.tsx:130-137 | a rejected delete changes nothing; an accepted one only refreshes the feed |
| App.LatestNotification | src/App.tsx:148 | the first notification when the feed is non-empty, otherwise null |
| App.View | src/App.tsx:150-262 | the configuration-error view, carrying the error text, iff the error is set; otherwise the banner shows iff signed out, not dismissed and the feed is non-empty, with the newest notification; the batch list is always shown; the workspace iff signed in, with the form's title and message and the feed panel; the login popover open iff anchored, with the form fields |
| App.Component.constructor | src/App.tsx:51-60 | initial cells: no user, empty lists and fields, no anchor, banner latch open, no error |
| App.Component.FetchNotifications | src/App.tsx:79-85 | updates only the feed, by the keep-on-failure rule |
| App.Component.FetchFinalizedBatches | src/App.tsx:87-95 | updates only the batch list, by the keep-on-failure rule |
| App.Component.Mount | src/App.tsx:62-70 | the error gate or the three lookups, in place; equals MountStep |
| App.Component.OnAuthStateChange | src/App.tsx:71-73 | sets only the user, to the session's user or null |
| App.Component.HandleLogin | src/App.tsx:97-109 | password cleared; on failure the user, anchor and e-mail are unchanged; on success user, anchor and e-mail as in LoginStep |
| App.Component.HandleLogout | src/App.tsx:111-113 | assigns no cell at all |
| App.Component.HandlePost | src/App.tsx:115-128 | returns the insert issued, which is PostRequest of the old state; empty fields or a failed insert leave every cell unchanged; success clears title and message |
| App.Component.HandleDeleteNotification | src/App.tsx:130-137 | only the feed may change, and not on a rejected delete |
| App.Component.HandleProfileClick | src/App.tsx:139-141 | the anchor becomes the clicked element |
| App.Component.HandleProfileClose | src/App.tsx:142-144 | the anchor becomes null |
| App.Component.CloseBanner | src/components/NotificationBanner.tsx:30 | the banner's close handler sets only the latch, to false |
| App.Component.SetTitle | src/App.tsx:208 | the title field becomes the typed text, nothing else changes |
| App.Component.SetMessage | src/App.tsx:209 | the message field becomes the typed text, nothing else changes |
| App.Component.SetEmail | src/App.tsx:254 | the e-mail field becomes the typed text, nothing else changes |
| App.Component.SetPassword | src/App.tsx:255 | the password field becomes the typed text, nothing else changes |
| AppProperties.LatchStep | src/App.tsx:162 | only the banner's close event changes the latch, and only from open to shut |
| AppProperties.LatchOneWay | src/App.tsx:59 | once the latch is shut, it stays shut after any sequence of events |
| AppProperties.LatchStartsOpen | src/App.tsx:59 | the latch starts open |
| AppProperties.BannerShowOnlySignedOut | src/App.tsx:162 | the banner's show flag is set only while signed out; once the latch is shut, no run of events sets the flag again |
| AppProperties.PopoverFollowsHandlers | src/App.tsx:139-145 | the profile click opens the popover; closing it or a successful sign-in shuts it; every other event leaves it open or shut as it was |
| AppProperties.BannerHiddenAfterClose | src/App.tsx:162 | after the close button, no later sign-in, sign-out or fetch makes the page show the banner |
| AppProperties.FeedStep | src/App.tsx:84 | one event keeps any property shared by the current feed and every list the event delivers |
| AppProperties.FeedOnlyFromFetches | src/App.tsx:79-85 | over any run, the feed only ever holds the initial list or a delivered list; it is never patched locally |
| AppProperties.BatchesOnlyFromFetches | src/App.tsx:87-95 | over any run, the batch list only ever holds the initial list or a delivered list |
| AppProperties.FeedStaysNewestFirst | src/App.tsx:80-83 | if every delivered feed is newest-first by timestamp text (lexicographic order), the feed is newest-first after every event |
| AppProperties.EnvErrorSticky | src/App.tsx:150-156 | once the configuration error is set, every later page is the error view alone |
| AppProperties.EnvErrorOnlyMessage | src/App.tsx:65 | over any run, the recorded error is absent or is the non-empty configuration message, so the page's truthiness test and the model's presence test agree |
| AppProperties.UnconfiguredMountFetchesNothing | src/App.tsx:63-67 | a missing setting leaves the lists and the user untouched and renders only the error message |
| AppProperties.MountOrderIrrelevant | src/App.tsx:68-70 | the answers of the mount's three lookups commute pairwise: notifications with batches, and each list with the user. So all six landing orders give the same state |
| AppProperties.LogoutLeavesUserToAuthEvent | src/App.tsx:111-113 | logging out assigns nothing; the signed-out auth event that follows clears the user |
| AppProperties.BackgroundLeavesUi | src/App.tsx:62-77 | runs of mount and auth events leave the form fields, the popover anchor and the latch unchanged |
| AppProperties.DeleteOfferedOnlyToAuthor | src/components/NotificationList.tsx:78-79 | a delete button on the page belongs to the newest notification, is shown only to its author, and passes its id |
| AppProperties.ScenarioBannerThenSignIn | src/App.tsx:158-171 | signed out with two notifications, the banner shows the newest; closing hides it; after signing in the workspace appears and there is still no banner |
| AppProperties.ScenarioPost | src/App.tsx:115-128 | a signed-in post is inserted under the user's e-mail; the refreshed feed leads with the new notification, which offers its author the delete button; the form is cleared |
| AppProperties.ScenarioRejectedDelete | src/App.tsx:130-137 | another user gets no delete button for the author's notification, and a rejected delete changes nothing |

## Left out

- The backend calls themselves are outside the model. These are sign-in, user
  lookup, sign-out, select, insert, delete and the auth subscription. Their
  answers are parameters.
- Sorting by timestamp is done by the backend query. `FeedStaysNewestFirst`
  takes it as an assumption about the delivered lists.
- Removing a deleted row from the next fetch is also the backend's job.
- Asynchronous interleaving and stale responses are not modelled. Each handler,
  with the refresh it starts, is one atomic transition. The model does not
  capture a refresh that lands after a newer one, or an auth event that arrives
  between a sign-in and its `getUser`.
- Releasing the auth subscription on unmount is not modelled. Nothing in the
  client state depends on it.
- The `ErrorBoundary` fallback view is not modelled. It is the UI framework's
  exception handling.
- Date formatting is a parameter of `DateLabel`. It depends on the locale, the
  time zone and the runtime's date parser. The batch cards' dates are left out
  for the same reason.
- The header's outbound link (`goToWalmart`) is left out because it only opens
  a browser window.
- Console logging is left out.
- The header, footer, batch card, login popover and post form only pass props
  through or set styling. Their setters appear as `SetTitle`, `SetMessage`,
  `SetEmail` and `SetPassword`. The browser's `required` check on the inputs is
  not modelled. `handlePost` repeats that check itself.
- App.Component.HandleDeleteNotification: the id is only sent to the backend.
  The model keeps it as a parameter and does not model the request.
