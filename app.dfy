/** The top-level page component: its state cells, the handlers that change
    them on backend answers and user input, and the page derived from them.

    Every backend call is replaced by its answer, passed in as a parameter, so
    each asynchronous handler (including the feed refresh it starts) is one
    deterministic transition. `State` and `Step` say what each transition does;
    the class `Component` holds the cells as fields and performs the
    transitions in place. */
module App {
  import opened Records
  import NotificationList
  import NotificationBanner

  const EnvErrorMessage := "Missing Supabase environment variables. Please check your .env file."

  /** The component's state cells. */
  datatype State = State(
    user: Option<User>,
    notifications: seq<Notification>,
    batches: seq<Batch>,
    title: string,
    message: string,
    email: string,
    password: string,
    anchorEl: Option<Anchor>,
    showBanner: bool,
    envError: Option<string>)

  /** The cells as first rendered. */
  function Initial(): State {
    State(None, [], [], "", "", "", "", None, true, None)
  }

  /** The purely local interaction state: form fields, popover anchor and the
      banner latch. Backend answers never change it. */
  function Ui(s: State): (string, string, string, string, Option<Anchor>, bool) {
    (s.title, s.message, s.email, s.password, s.anchorEl, s.showBanner)
  }

  /** The row `handlePost` asks the backend to insert. */
  datatype Insert = Insert(title: string, message: string, author: string)

  /** Something that happens to the component, with the backend's answers
      to the calls it makes. */
  datatype Event =
    | Mount(env: Env, notes: Fetched<Notification>, batches: Fetched<Batch>, current: Option<User>)
    | AuthChange(session: Option<Session>)
    | Login(signIn: Outcome, current: Option<User>)
    | Logout
    | Post(insert: Outcome, refetch: Fetched<Notification>)
    | Delete(id: int, outcome: Outcome, refetch: Fetched<Notification>)
    | ProfileClick(anchor: Anchor)
    | ProfileClose
    | BannerClose
    | TitleInput(title: string)
    | MessageInput(message: string)
    | EmailInput(email: string)
    | PasswordInput(password: string)

  /** `fetchNotifications`: the feed is replaced wholesale by a delivered list,
      and otherwise the previous feed stays. */
  function NotificationsFetchStep(s: State, r: Fetched<Notification>): (t: State)
    ensures Delivered(r).Some? ==> t.notifications == Delivered(r).value
    ensures Delivered(r).None? ==> t.notifications == s.notifications
    ensures t.(notifications := s.notifications) == s
  {
    match Delivered(r)
    case Some(list) => s.(notifications := list)
    case None => s
  }

  /** `fetchFinalizedBatches`: the same keep-on-failure rule for the batch list. */
  function BatchesFetchStep(s: State, r: Fetched<Batch>): (t: State)
    ensures Delivered(r).Some? ==> t.batches == Delivered(r).value
    ensures Delivered(r).None? ==> t.batches == s.batches
    ensures t.(batches := s.batches) == s
  {
    match Delivered(r)
    case Some(list) => s.(batches := list)
    case None => s
  }

  /** The mount effect: without both settings only the error is recorded and
      nothing is fetched; otherwise both lists are fetched and the current user
      is looked up. */
  function MountStep(s: State, env: Env, notes: Fetched<Notification>, batches: Fetched<Batch>, current: Option<User>): (t: State)
    ensures !Configured(env) ==> t.envError == Some(EnvErrorMessage) && t.(envError := s.envError) == s
    ensures Configured(env) ==>
      && t.user == current
      && t.notifications == NotificationsFetchStep(s, notes).notifications
      && t.batches == BatchesFetchStep(s, batches).batches
      && t.envError == s.envError
      && Ui(t) == Ui(s)
  {
    if !Configured(env) then s.(envError := Some(EnvErrorMessage))
    else BatchesFetchStep(NotificationsFetchStep(s, notes), batches).(user := current)
  }

  /** The auth-state callback: the user becomes the session's user, or null
      when there is no session, whatever it was before. */
  function AuthChangeStep(s: State, session: Option<Session>): (t: State)
    ensures session.None? ==> t.user.None?
    ensures session.Some? ==> t.user == session.value.user
    ensures t.(user := s.user) == s
  {
    var u := match session case Some(ss) => ss.user case None => None;
    s.(user := u)
  }

  /** `handleLogin`: the password is cleared either way; on success the user is
      re-read from the backend, the popover closes and the e-mail is cleared. */
  function LoginStep(s: State, signIn: Outcome, current: Option<User>): (t: State)
    ensures t.password == ""
    ensures signIn.Err? ==> t.(password := s.password) == s
    ensures signIn.Ok? ==> t.user == current && t.anchorEl.None? && t.email == ""
    ensures signIn.Ok? ==> t.(user := s.user, anchorEl := s.anchorEl, email := s.email, password := s.password) == s
  {
    if signIn.Err? then s.(password := "")
    else s.(user := current, anchorEl := None, email := "", password := "")
  }

  /** The insert `handlePost` issues, if any: none when the title or the
      message is empty, and none when nobody is signed in (reading the author's
      e-mail fails before the call is made). The author is the signed-in e-mail. */
  function PostRequest(s: State): (r: Option<Insert>)
    ensures r.Some? <==> s.title != "" && s.message != "" && s.user.Some?
    ensures r.Some? ==> r.value.title == s.title && r.value.message == s.message && r.value.author == s.user.value.email
  {
    if s.title == "" || s.message == "" then None
    else match s.user
      case None => None
      case Some(u) => Some(Insert(s.title, s.message, u.email))
  }

  /** `handlePost`: nothing changes unless an insert is issued and succeeds;
      then the form is cleared and the feed refreshed. */
  function PostStep(s: State, insert: Outcome, refetch: Fetched<Notification>): (t: State)
    ensures PostRequest(s).None? ==> t == s
    ensures insert.Err? ==> t == s
    ensures PostRequest(s).Some? && insert.Ok? ==>
      && t.title == "" && t.message == ""
      && t.notifications == NotificationsFetchStep(s, refetch).notifications
      && t.(title := s.title, message := s.message, notifications := s.notifications) == s
  {
    if PostRequest(s).None? || insert.Err? then s
    else NotificationsFetchStep(s.(title := "", message := ""), refetch)
  }

  /** `handleDeleteNotification`: a rejected delete leaves everything as it
      was; an accepted one only refreshes the feed. */
  function DeleteStep(s: State, outcome: Outcome, refetch: Fetched<Notification>): (t: State)
    ensures outcome.Err? ==> t == s
    ensures outcome.Ok? ==> t.notifications == NotificationsFetchStep(s, refetch).notifications
    ensures t.(notifications := s.notifications) == s
  {
    if outcome.Err? then s else NotificationsFetchStep(s, refetch)
  }

  function Step(s: State, e: Event): State {
    match e
    case Mount(env, notes, batches, current) => MountStep(s, env, notes, batches, current)
    case AuthChange(session) => AuthChangeStep(s, session)
    case Login(signIn, current) => LoginStep(s, signIn, current)
    case Logout => s
    case Post(insert, refetch) => PostStep(s, insert, refetch)
    case Delete(_, outcome, refetch) => DeleteStep(s, outcome, refetch)
    case ProfileClick(anchor) => s.(anchorEl := Some(anchor))
    case ProfileClose => s.(anchorEl := None)
    case BannerClose => s.(showBanner := false)
    case TitleInput(v) => s.(title := v)
    case MessageInput(v) => s.(message := v)
    case EmailInput(v) => s.(email := v)
    case PasswordInput(v) => s.(password := v)
  }

  /** The state after a sequence of events, in order. */
  function Run(s: State, events: seq<Event>): State
    decreases |events|
  {
    if events == [] then s else Run(Step(s, events[0]), events[1..])
  }

  // ---- values derived from the state on every render ----

  function LatestNotification(s: State): (n: Option<Notification>)
    ensures n.Some? <==> s.notifications != []
    ensures n.Some? ==> n.value == s.notifications[0]
  {
    if |s.notifications| > 0 then Some(s.notifications[0]) else None
  }

  /** The login popover is open exactly while it has an anchor. */
  function Open(s: State): bool {
    s.anchorEl.Some?
  }

  /** The `show` flag handed to the banner: signed out and not dismissed. */
  function BannerShow(s: State): bool {
    s.user.None? && s.showBanner
  }

  /** The posting form, logout button and feed panel of a signed-in user. */
  datatype Workspace = Workspace(title: string, message: string, feed: NotificationList.ListView)

  datatype LoginPopover = LoginPopover(open: bool, email: string, password: string)

  /** What the component renders: the configuration error alone, or the page. */
  datatype Page =
    | ConfigError(error: string)
    | Main(banner: NotificationBanner.BannerView, batches: seq<Batch>,
           workspace: Option<Workspace>, login: LoginPopover)

  function View(s: State, format: string -> Option<string>): (p: Page)
    ensures p.ConfigError? <==> s.envError.Some?
    ensures p.ConfigError? ==> p.error == s.envError.value
    ensures p.Main? ==> (p.banner.Banner? <==> s.user.None? && s.showBanner && s.notifications != [])
    ensures p.Main? && p.banner.Banner? ==>
      p.banner.title == s.notifications[0].title && p.banner.message == s.notifications[0].message
    ensures p.Main? ==> p.batches == s.batches
    ensures p.Main? && p.workspace.Some? ==>
      p.workspace.value.title == s.title && p.workspace.value.message == s.message
    ensures p.Main? ==> (p.workspace.Some? <==> s.user.Some?)
    ensures p.Main? && p.workspace.Some? ==>
      p.workspace.value.feed == NotificationList.Render(s.notifications, s.user, format)
    ensures p.Main? ==> p.login == LoginPopover(s.anchorEl.Some?, s.email, s.password)
  {
    // The page tests the error text for truthiness; the only text ever
    // recorded is the non-empty EnvErrorMessage (AppProperties.EnvErrorOnlyMessage).
    match s.envError
    case Some(err) => ConfigError(err)
    case None =>
      Main(NotificationBanner.Render(LatestNotification(s), BannerShow(s)),
           s.batches,
           if s.user.Some?
           then Some(Workspace(s.title, s.message, NotificationList.Render(s.notifications, s.user, format)))
           else None,
           LoginPopover(Open(s), s.email, s.password))
  }

  /** The component itself: its state cells as fields, updated in place by
      its handlers. */
  class Component {
    var user: Option<User>
    var notifications: seq<Notification>
    var batches: seq<Batch>
    var title: string
    var message: string
    var email: string
    var password: string
    var anchorEl: Option<Anchor>
    var showBanner: bool
    var envError: Option<string>

    function Snapshot(): State
      reads this
    {
      State(user, notifications, batches, title, message, email, password, anchorEl, showBanner, envError)
    }

    constructor ()
      ensures Snapshot() == Initial()
      ensures showBanner
    {
      user, notifications, batches := None, [], [];
      title, message, email, password := "", "", "", "";
      anchorEl, showBanner, envError := None, true, None;
    }

    method FetchNotifications(r: Fetched<Notification>)
      modifies this`notifications
      ensures !r.error && r.data.Some? ==> notifications == r.data.value
      ensures r.error || r.data.None? ==> notifications == old(notifications)
      ensures Snapshot() == NotificationsFetchStep(old(Snapshot()), r)
    {
      if !r.error && r.data.Some? {
        notifications := r.data.value;
      }
    }

    method FetchFinalizedBatches(r: Fetched<Batch>)
      modifies this`batches
      ensures !r.error && r.data.Some? ==> batches == r.data.value
      ensures r.error || r.data.None? ==> batches == old(batches)
      ensures Snapshot() == BatchesFetchStep(old(Snapshot()), r)
    {
      if !r.error && r.data.Some? {
        batches := r.data.value;
      }
    }

    method Mount(env: Env, notes: Fetched<Notification>, batchList: Fetched<Batch>, current: Option<User>)
      modifies this`envError, this`notifications, this`batches, this`user
      ensures !Configured(env) ==> envError == Some(EnvErrorMessage) && unchanged(this`notifications, this`batches, this`user)
      ensures Snapshot() == Step(old(Snapshot()), Event.Mount(env, notes, batchList, current))
    {
      if env.url == "" || env.anonKey == "" {
        envError := Some(EnvErrorMessage);
        return;
      }
      FetchNotifications(notes);
      FetchFinalizedBatches(batchList);
      user := current;
    }

    method OnAuthStateChange(session: Option<Session>)
      modifies this`user
      ensures user == (if session.Some? then session.value.user else None)
      ensures Snapshot() == Step(old(Snapshot()), AuthChange(session))
    {
      user := if session.Some? then session.value.user else None;
    }

    method HandleLogin(signIn: Outcome, current: Option<User>)
      modifies this`password, this`user, this`anchorEl, this`email
      ensures password == ""
      ensures signIn.Err? ==> unchanged(this`user, this`anchorEl, this`email)
      ensures signIn.Ok? ==> user == current && anchorEl.None? && email == ""
      ensures Snapshot() == Step(old(Snapshot()), Login(signIn, current))
    {
      if signIn.Err? {
        password := "";
      } else {
        user := current;
        anchorEl := None;
        email := "";
        password := "";
      }
    }

    /** Signing out assigns nothing here: the auth-state callback clears the user. */
    method HandleLogout()
      ensures Snapshot() == Step(old(Snapshot()), Logout)
    {
    }

    /** Returns the insert that was issued, if any. */
    method HandlePost(insert: Outcome, refetch: Fetched<Notification>) returns (sent: Option<Insert>)
      modifies this`title, this`message, this`notifications
      ensures sent == PostRequest(old(Snapshot()))
      ensures (old(title) == "" || old(message) == "") ==> sent.None? && unchanged(this)
      ensures insert.Err? ==> unchanged(this)
      ensures sent.Some? && insert.Ok? ==> title == "" && message == ""
      ensures Snapshot() == Step(old(Snapshot()), Post(insert, refetch))
    {
      if title == "" || message == "" {
        return None;
      }
      if user.None? {
        // reading the author's e-mail off a null user fails before the insert
        return None;
      }
      sent := Some(Insert(title, message, user.value.email));
      if insert.Err? {
        return;
      }
      title := "";
      message := "";
      FetchNotifications(refetch);
    }

    method HandleDeleteNotification(id: int, outcome: Outcome, refetch: Fetched<Notification>)
      modifies this`notifications
      ensures outcome.Err? ==> notifications == old(notifications)
      ensures Snapshot() == Step(old(Snapshot()), Delete(id, outcome, refetch))
    {
      if outcome.Ok? {
        FetchNotifications(refetch);
      }
    }

    method HandleProfileClick(anchor: Anchor)
      modifies this`anchorEl
      ensures anchorEl == Some(anchor)
      ensures Snapshot() == Step(old(Snapshot()), ProfileClick(anchor))
    {
      anchorEl := Some(anchor);
    }

    method HandleProfileClose()
      modifies this`anchorEl
      ensures anchorEl.None?
      ensures Snapshot() == Step(old(Snapshot()), ProfileClose)
    {
      anchorEl := None;
    }

    /** The banner's `onClose`: latch the banner shut. */
    method CloseBanner()
      modifies this`showBanner
      ensures !showBanner
      ensures Snapshot() == Step(old(Snapshot()), BannerClose)
    {
      showBanner := false;
    }

    method SetTitle(v: string)
      modifies this`title
      ensures title == v
      ensures Snapshot() == Step(old(Snapshot()), TitleInput(v))
    {
      title := v;
    }

    method SetMessage(v: string)
      modifies this`message
      ensures message == v
      ensures Snapshot() == Step(old(Snapshot()), MessageInput(v))
    {
      message := v;
    }

    method SetEmail(v: string)
      modifies this`email
      ensures email == v
      ensures Snapshot() == Step(old(Snapshot()), EmailInput(v))
    {
      email := v;
    }

    method SetPassword(v: string)
      modifies this`password
      ensures password == v
      ensures Snapshot() == Step(old(Snapshot()), PasswordInput(v))
    {
      password := v;
    }
  }
}
