/** The home page of `FRONTEND/app/src/pages/Home.tsx`: the greeting chosen from the
    hour of the day and the badge counting unread notifications. */
module Home {
  import opened Wrappers
  import opened Seqs

  /** `updateTimeAndGreeting`'s if-chain over `getHours()`. */
  function Greeting(hour: nat): (g: string)
    ensures g == "Good Morning" <==> hour < 12
    ensures g == "Good Afternoon" <==> 12 <= hour < 18
    ensures g == "Good Evening" <==> 18 <= hour < 21
    ensures g == "Good Night" <==> 21 <= hour
  {
    if hour < 12 then "Good Morning"
    else if hour < 18 then "Good Afternoon"
    else if hour < 21 then "Good Evening"
    else "Good Night"
  }

  /** Over one day the greetings come in order: an earlier hour never has a later greeting. */
  lemma GreetingsInOrder(early: nat, late: nat)
    requires early <= late
    ensures Greeting(early) == "Good Night" ==> Greeting(late) == "Good Night"
    ensures Greeting(late) == "Good Morning" ==> Greeting(early) == "Good Morning"
  {
  }

  /** A notification as the server sends it; `read` may be missing. */
  datatype Notification = Notification(id: Option<string>, message: string, read: Option<bool>)

  /** `!n.read` is false only for a notification whose `read` is `true`. */
  predicate IsUnread(n: Notification) {
    n.read != Some(true)
  }

  /** `notifications.filter(n => !n.read).length`. */
  function UnreadCount(notifications: seq<Notification>): (count: nat)
    ensures count <= |notifications|
  {
    |Filter(notifications, IsUnread)|
  }

  /** The badge is empty exactly when every notification has been read, and shows the
      full length exactly when none has. */
  lemma UnreadCountExtremes(notifications: seq<Notification>)
    ensures UnreadCount(notifications) == 0 <==> forall i :: 0 <= i < |notifications| ==> !IsUnread(notifications[i])
    ensures (forall i :: 0 <= i < |notifications| ==> IsUnread(notifications[i])) ==> UnreadCount(notifications) == |notifications|
  {
    if forall i :: 0 <= i < |notifications| ==> !IsUnread(notifications[i]) {
      FilterDropsAll(notifications, IsUnread);
    }
    if forall i :: 0 <= i < |notifications| ==> IsUnread(notifications[i]) {
      FilterKeepsAll(notifications, IsUnread);
    }
  }

  /** The badge counts each batch of notifications separately. */
  lemma UnreadCountAppend(a: seq<Notification>, b: seq<Notification>)
    ensures UnreadCount(a + b) == UnreadCount(a) + UnreadCount(b)
  {
    FilterConcat(a, b, IsUnread);
  }

  /** What the notifications request gave: a body, possibly empty, or an error. */
  datatype FetchOutcome = Received(data: Option<seq<Notification>>) | FetchFailed

  /** `fetchNotifications`: nothing is requested without a token; an error empties the
      list and a missing body counts as an empty one. */
  function LoadNotifications(current: seq<Notification>, token: Option<string>, outcome: FetchOutcome): (r: seq<Notification>)
    ensures token.None? || token == Some("") ==> r == current
    ensures token.Some? && token != Some("") && outcome.FetchFailed? ==> r == []
    ensures token.Some? && token != Some("") && outcome.Received? ==> r == outcome.data.GetOr([])
  {
    if token.None? || token.value == "" then current
    else match outcome
      case FetchFailed => []
      case Received(data) => data.GetOr([])
  }
}
