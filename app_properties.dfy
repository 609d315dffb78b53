/** Properties of the page component over whole runs of events, and the
    worked scenarios of the bulletin board. */
module AppProperties {
  import opened Records
  import opened App
  import NotificationBanner

  // ---- the banner latch ----

  /** Only the banner's close button touches the latch, and it only shuts it. */
  lemma LatchStep(s: State, e: Event)
    ensures Step(s, e).showBanner == (s.showBanner && !e.BannerClose?)
  {
  }

  /** Once the banner is dismissed, no sequence of events brings it back. */
  lemma {:induction false} LatchOneWay(s: State, events: seq<Event>)
    requires !s.showBanner
    ensures !Run(s, events).showBanner
    decreases |events|
  {
    if events != [] {
      LatchStep(s, events[0]);
      LatchOneWay(Step(s, events[0]), events[1..]);
    }
  }

  /** The latch starts open. */
  lemma LatchStartsOpen()
    ensures Initial().showBanner
  {
  }

  /** After the close button, the page never shows the banner again, whatever
      is fetched, signed in or out afterwards. */
  lemma BannerHiddenAfterClose(s: State, events: seq<Event>, format: string -> Option<string>)
    ensures var p := View(Run(Step(s, BannerClose), events), format);
            p.Main? ==> p.banner.Nothing?
  {
    LatchOneWay(Step(s, BannerClose), events);
  }

  /** The banner's show flag is only ever set while signed out, and once the
      latch is shut no run sets it again. */
  lemma BannerShowOnlySignedOut(s: State, events: seq<Event>)
    ensures BannerShow(s) ==> s.user.None?
    ensures !s.showBanner ==> !BannerShow(Run(s, events))
  {
    if !s.showBanner {
      LatchOneWay(s, events);
    }
  }

  // ---- the popover ----

  /** The profile button opens the login popover, closing it or a successful
      sign-in shuts it, and every other event leaves it as it was. */
  lemma PopoverFollowsHandlers(s: State, e: Event)
    ensures e.ProfileClick? ==> Open(Step(s, e))
    ensures e.ProfileClose? ==> !Open(Step(s, e))
    ensures e.Login? && e.signIn.Ok? ==> !Open(Step(s, e))
    ensures !e.ProfileClick? && !e.ProfileClose? && !(e.Login? && e.signIn.Ok?) ==>
      Open(Step(s, e)) == Open(s)
  {
  }

  // ---- the feed and the batch list are only ever replaced by fetched lists ----

  /** Every notification list that `e` makes the client adopt satisfies `P`. */
  ghost predicate FeedAnswerSatisfies(e: Event, P: seq<Notification> -> bool) {
    match e
    case Mount(_, notes, _, _) => Delivered(notes).Some? ==> P(Delivered(notes).value)
    case Post(_, refetch) => Delivered(refetch).Some? ==> P(Delivered(refetch).value)
    case Delete(_, _, refetch) => Delivered(refetch).Some? ==> P(Delivered(refetch).value)
    case _ => true
  }

  lemma FeedStep(s: State, e: Event, P: seq<Notification> -> bool)
    requires P(s.notifications) && FeedAnswerSatisfies(e, P)
    ensures P(Step(s, e).notifications)
  {
  }

  /** The feed is never patched locally: any property of the initial feed that
      every delivered fetch also has holds of the feed after any run. */
  lemma {:induction false} FeedOnlyFromFetches(s: State, events: seq<Event>, P: seq<Notification> -> bool)
    requires P(s.notifications)
    requires forall i :: 0 <= i < |events| ==> FeedAnswerSatisfies(events[i], P)
    ensures P(Run(s, events).notifications)
    decreases |events|
  {
    if events != [] {
      FeedStep(s, events[0], P);
      FeedOnlyFromFetches(Step(s, events[0]), events[1..], P);
    }
  }

  ghost predicate BatchAnswerSatisfies(e: Event, P: seq<Batch> -> bool) {
    match e
    case Mount(_, _, batches, _) => Delivered(batches).Some? ==> P(Delivered(batches).value)
    case _ => true
  }

  /** The batch list likewise only ever holds a list the backend delivered. */
  lemma {:induction false} BatchesOnlyFromFetches(s: State, events: seq<Event>, P: seq<Batch> -> bool)
    requires P(s.batches)
    requires forall i :: 0 <= i < |events| ==> BatchAnswerSatisfies(events[i], P)
    ensures P(Run(s, events).batches)
    decreases |events|
  {
    if events != [] {
      assert P(Step(s, events[0]).batches);
      BatchesOnlyFromFetches(Step(s, events[0]), events[1..], P);
    }
  }

  /** `a` is not earlier than `b` in the lexicographic order of timestamp text. */
  predicate NotBefore(a: string, b: string)
    decreases |b|
  {
    if b == [] then true
    else if a == [] then false
    else if a[0] != b[0] then a[0] > b[0]
    else NotBefore(a[1..], b[1..])
  }

  predicate NewestFirst(ns: seq<Notification>) {
    forall i, j :: 0 <= i < j < |ns| ==> NotBefore(ns[i].createdAt, ns[j].createdAt)
  }

  /** The query asks the backend for newest-first order; if every delivered
      list honours that, the feed is newest-first after every event. */
  lemma FeedStaysNewestFirst(events: seq<Event>)
    requires forall i :: 0 <= i < |events| ==> FeedAnswerSatisfies(events[i], NewestFirst)
    ensures NewestFirst(Run(Initial(), events).notifications)
  {
    FeedOnlyFromFetches(Initial(), events, NewestFirst);
  }

  // ---- the configuration gate ----

  /** Once the configuration error is recorded, only the error view renders. */
  lemma {:induction false} EnvErrorSticky(s: State, events: seq<Event>, format: string -> Option<string>)
    requires s.envError.Some?
    ensures View(Run(s, events), format).ConfigError?
    decreases |events|
  {
    if events != [] {
      assert Step(s, events[0]).envError.Some?;
      EnvErrorSticky(Step(s, events[0]), events[1..], format);
    }
  }

  /** Without both settings the mount fetches nothing and looks up no user. */
  lemma UnconfiguredMountFetchesNothing(s: State, env: Env, notes: Fetched<Notification>, batches: Fetched<Batch>, current: Option<User>,
                                        format: string -> Option<string>)
    requires !Configured(env)
    ensures var t := Step(s, Mount(env, notes, batches, current));
            t.notifications == s.notifications && t.batches == s.batches && t.user == s.user
            && View(t, format) == ConfigError(EnvErrorMessage)
  {
  }

  /** The three lookups the mount starts touch different cells: any two of
      their answers commute, so all six landing orders give the same state. */
  lemma MountOrderIrrelevant(s: State, notes: Fetched<Notification>, batches: Fetched<Batch>, current: Option<User>)
    ensures NotificationsFetchStep(BatchesFetchStep(s, batches), notes)
         == BatchesFetchStep(NotificationsFetchStep(s, notes), batches)
    ensures NotificationsFetchStep(s.(user := current), notes)
         == NotificationsFetchStep(s, notes).(user := current)
    ensures BatchesFetchStep(s.(user := current), batches)
         == BatchesFetchStep(s, batches).(user := current)
  {
  }

  /** The only error text ever recorded is the non-empty configuration
      message, so testing for an error and testing its text agree. */
  lemma {:induction false} EnvErrorOnlyMessage(s: State, events: seq<Event>)
    requires s.envError.None? || s.envError == Some(EnvErrorMessage)
    ensures var t := Run(s, events);
            t.envError.None? || (t.envError == Some(EnvErrorMessage) && t.envError.value != "")
    decreases |events|
  {
    if events != [] {
      assert Step(s, events[0]).envError.None? || Step(s, events[0]).envError == Some(EnvErrorMessage);
      EnvErrorOnlyMessage(Step(s, events[0]), events[1..]);
    }
  }

  // ---- the session ----

  /** Signing out assigns nothing; the user is cleared by the auth event that follows. */
  lemma LogoutLeavesUserToAuthEvent(s: State)
    ensures Step(s, Logout) == s
    ensures Run(s, [Logout, AuthChange(None)]).user.None?
  {
    assert Run(s, [Logout, AuthChange(None)]) == Run(Step(s, Logout), [AuthChange(None)]);
  }

  /** Events that are backend answers rather than user input. */
  predicate Background(e: Event) {
    e.Mount? || e.AuthChange?
  }

  /** Background events never touch the form fields, the popover or the latch. */
  lemma {:induction false} BackgroundLeavesUi(s: State, events: seq<Event>)
    requires forall i :: 0 <= i < |events| ==> Background(events[i])
    ensures Ui(Run(s, events)) == Ui(s)
    decreases |events|
  {
    if events != [] {
      assert Background(events[0]);
      assert Ui(Step(s, events[0])) == Ui(s);
      BackgroundLeavesUi(Step(s, events[0]), events[1..]);
    }
  }

  // ---- the feed panel ----

  /** A delete button on the page is always for the newest notification and
      only ever shown to its author. */
  lemma DeleteOfferedOnlyToAuthor(s: State, format: string -> Option<string>)
    requires var p := View(s, format);
             p.Main? && p.workspace.Some? && p.workspace.value.feed.Card? && p.workspace.value.feed.onDelete.Some?
    ensures s.notifications != []
    ensures s.user.Some? && s.user.value.email == s.notifications[0].author
    ensures View(s, format).workspace.value.feed.onDelete.value == s.notifications[0].id
  {
  }

  // ---- worked scenarios ----

  const N1 := Notification(1, "Sale", "Rollbacks today", "2024-05-02T10:00:00", "alice@x.com")
  const N2 := Notification(2, "Hours", "Open late", "2024-05-01T10:00:00", "alice@x.com")
  const N3 := Notification(3, "Hi", "Hello", "2024-05-03T10:00:00", "alice@x.com")
  const Settings := Env("https://example.test", "anon")

  /** Signed out with two notifications, the banner shows the newest; closing
      it hides it; signing in shows the workspace and still no banner. */
  lemma ScenarioBannerThenSignIn(format: string -> Option<string>)
    ensures var s := Step(Initial(), Mount(Settings, Fetched(false, Some([N1, N2])), Fetched(false, Some([])), None));
            && View(s, format).banner == NotificationBanner.Banner("Sale", "Rollbacks today")
            && var closed := Step(s, BannerClose);
               && View(closed, format).banner.Nothing?
               && var signedIn := Step(closed, Login(Ok, Some(User("alice@x.com"))));
                  && View(signedIn, format).banner.Nothing?
                  && View(signedIn, format).workspace.Some?
  {
  }

  /** Signed in as the author, a post is inserted under her e-mail and the
      refreshed feed, newest first, leads with the new notification. */
  lemma ScenarioPost(format: string -> Option<string>)
    ensures var s := Initial().(user := Some(User("alice@x.com")), notifications := [N1, N2], title := "Hi", message := "Hello");
            && PostRequest(s) == Some(Insert("Hi", "Hello", "alice@x.com"))
            && var t := Step(s, Post(Ok, Fetched(false, Some([N3, N1, N2]))));
               && t.notifications == [N3, N1, N2]
               && t.title == "" && t.message == ""
               && View(t, format).workspace.value.feed.onDelete == Some(3)
  {
  }

  /** Signed in as someone else, no delete button is offered for the author's
      notification, and a delete the backend rejects changes nothing. */
  lemma ScenarioRejectedDelete(format: string -> Option<string>)
    ensures var s := Initial().(user := Some(User("bob@x.com")), notifications := [N1, N2]);
            && View(s, format).workspace.value.feed.onDelete.None?
            && Step(s, Delete(1, Err, Fetched(false, Some([N2])))) == s
  {
  }
}
