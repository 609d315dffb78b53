/** The signed-in feed panel: it shows only the newest notification, with a
    delete button for its author. */
module NotificationList {
  import opened Records

  const UnknownDate := "Unknown date"

  /** What the panel renders. `onDelete` is the id the delete button hands to
      the delete handler, or None when no delete button is rendered. */
  datatype ListView =
    | Placeholder
    | Card(title: string, message: string, author: string, date: string, onDelete: Option<int>)

  /** The date label of a card. `format` stands for parsing the timestamp and
      formatting it for display; None means the timestamp did not parse. */
  function DateLabel(createdAt: string, format: string -> Option<string>): (text: string)
    ensures createdAt == "" ==> text == UnknownDate
    ensures createdAt != "" && format(createdAt).None? ==> text == UnknownDate
    ensures createdAt != "" && format(createdAt).Some? ==> text == format(createdAt).value
  {
    if createdAt == "" then UnknownDate
    else match format(createdAt)
      case None => UnknownDate
      case Some(d) => d
  }

  /** Whether `user` may delete `n`: a signed-in user whose e-mail is the author. */
  predicate IsAuthor(user: Option<User>, n: Notification) {
    user.Some? && user.value.email == n.author
  }

  function Render(notifications: seq<Notification>, user: Option<User>, format: string -> Option<string>): (v: ListView)
    ensures v.Placeholder? <==> notifications == []
    ensures v.Card? ==>
      && v.title == notifications[0].title
      && v.message == notifications[0].message
      && v.author == notifications[0].author
      && v.date == DateLabel(notifications[0].createdAt, format)
    ensures v.Card? ==> (v.onDelete.Some? <==> IsAuthor(user, notifications[0]))
    ensures v.Card? && v.onDelete.Some? ==> v.onDelete.value == notifications[0].id
  {
    if |notifications| == 0 then Placeholder
    else
      var n := notifications[0];
      Card(n.title, n.message, n.author, DateLabel(n.createdAt, format),
           if IsAuthor(user, n) then Some(n.id) else None)
  }

  /** Only the head of the list matters: two lists with the same newest
      notification render identically, whatever follows it. */
  lemma OnlyNewestShown(a: seq<Notification>, b: seq<Notification>, user: Option<User>, format: string -> Option<string>)
    requires a != [] && b != [] && a[0] == b[0]
    ensures Render(a, user, format) == Render(b, user, format)
  {
  }
}
