/** The earlier notification screen (utils/oldNotification.tsx): how each
    notification is classified and turned into a title, a details line, a
    message line and a read badge, the guard on "Mark as Read", and which of
    the screen's states is shown. */
module OldNotification {
  import opened Common
  import opened ChatTypes
  import AppContext

  /** `'sessionId' in item.event.data`: only chat payloads carry a session. */
  predicate IsChat(n: Notification) {
    n.ChatNotification?
  }

  /** `item.event?.message || 'No message content'`. */
  function MessageContent(n: Notification): (s: string)
    ensures s != ""
    ensures n.message != "" ==> s == n.message
    ensures n.message == "" ==> s == "No message content"
  {
    OrElse(n.message, "No message content")
  }

  /** A chat notification is titled 'New Chat Message'; a rental notification
      takes its message as its title, even an empty one. */
  function Title(n: Notification): (s: string)
    ensures IsChat(n) ==> s == "New Chat Message"
    ensures !IsChat(n) ==> s == n.message
  {
    match n
    case ChatNotification(_, _, _, _, _) => "New Chat Message"
    case RentalNotification(_, _, message, _, _) => message
  }

  /** The details line: the sender and session of a chat; for a rental the
      booking form when a renter is named, else the update form when an owner
      is named, else the bare rental id. */
  function Details(n: Notification): string {
    match n
    case ChatNotification(_, _, _, d, _) =>
      "From: " + OrElse(d.senderName, "Unknown") + ", Session: " + IntToString(d.sessionId)
    case RentalNotification(_, _, _, d, _) =>
      if Truthy(d.renterName) then
        "New booking by: " + d.renterName.value + ", Vehicle ID: " + IntToString(d.vehicleId) + ", Status: " + d.rentalStatus
      else if Truthy(d.ownerName) then
        "Status updated by: " + d.ownerName.value + ", Vehicle ID: " + IntToString(d.vehicleId) + ", Status: " + d.rentalStatus
      else
        "Rental ID: " + IntToString(d.rentalId) + ", Status: " + d.rentalStatus
  }

  /** The opening words of each details form. */
  function Opening(n: Notification): string {
    if IsChat(n) then "From: "
    else if Truthy(n.rental.renterName) then "New booking by: "
    else if Truthy(n.rental.ownerName) then "Status updated by: "
    else "Rental ID: "
  }

  lemma Opens4(p: string, a: string, b: string, c: string)
    ensures var s := p + a + b + c;
            |s| == |p| + |a| + |b| + |c| && s[..|p|] == p
  {
  }

  lemma Opens6(p: string, a: string, b: string, c: string, d: string, e: string)
    ensures var s := p + a + b + c + d + e;
            |s| == |p| + |a| + |b| + |c| + |d| + |e| && s[..|p|] == p
  {
  }

  lemma DetailsOpening(n: Notification)
    ensures |Details(n)| >= 19
    ensures Details(n)[..|Opening(n)|] == Opening(n)
  {
    match n
    case ChatNotification(_, _, _, d, _) =>
      Opens4("From: ", OrElse(d.senderName, "Unknown"), ", Session: ", IntToString(d.sessionId));
    case RentalNotification(_, _, _, d, _) =>
      if Truthy(d.renterName) {
        Opens6("New booking by: ", d.renterName.value, ", Vehicle ID: ", IntToString(d.vehicleId), ", Status: ", d.rentalStatus);
      } else if Truthy(d.ownerName) {
        Opens6("Status updated by: ", d.ownerName.value, ", Vehicle ID: ", IntToString(d.vehicleId), ", Status: ", d.rentalStatus);
      } else {
        Opens4("Rental ID: ", IntToString(d.rentalId), ", Status: ", d.rentalStatus);
      }
  }

  /** Which of the four details forms a line is: its first word tells them
      apart, so the reader can recover the classification from the text. */
  lemma DetailsForm(n: Notification)
    ensures Details(n)[..6] == "From: " <==> IsChat(n)
    ensures Details(n)[..16] == "New booking by: " <==> !IsChat(n) && Truthy(n.rental.renterName)
    ensures Details(n)[..19] == "Status updated by: " <==>
              !IsChat(n) && !Truthy(n.rental.renterName) && Truthy(n.rental.ownerName)
    ensures Details(n)[..11] == "Rental ID: " <==>
              !IsChat(n) && !Truthy(n.rental.renterName) && !Truthy(n.rental.ownerName)
  {
    var s, o := Details(n), Opening(n);
    DetailsOpening(n);
    assert s[0] == o[0];
  }

  /** The chat form names the sender, or 'Unknown' when there is none. */
  lemma ChatDetailsSender(n: Notification)
    requires IsChat(n)
    ensures var s := OrElse(n.chat.senderName, "Unknown");
            Details(n)[..6 + |s|] == "From: " + s && s != ""
  {
  }

  /** The badge on the mark button. */
  function ReadLabel(item: ClientNotification): (s: string)
    ensures s == "Read" <==> item.isRead
    ensures !item.isRead ==> s == "Mark as Read"
  {
    if item.isRead then "Read" else "Mark as Read"
  }

  /** `createdAt` through the locale formatter, or 'N/A' when it is empty. */
  function CreatedAtText(createdAt: string, toLocale: string -> string): (s: string)
    ensures createdAt == "" ==> s == "N/A"
    ensures createdAt != "" ==> s == toLocale(createdAt)
  {
    if createdAt != "" then toLocale(createdAt) else "N/A"
  }

  datatype Rendered = Rendered(title: string, details: string, content: string, badge: string)

  function Render(item: ClientNotification): Rendered {
    Rendered(Title(item.base), Details(item.base), MessageContent(item.base), ReadLabel(item))
  }

  /** Pressing the mark button: nothing happens without an id; with one,
      that notification is marked read in the shared list. */
  function Press(l: seq<ClientNotification>, item: ClientNotification): (r: seq<ClientNotification>)
    ensures item.base.id.None? ==> r == l
    ensures |r| == |l|
    ensures forall i :: 0 <= i < |l| ==> r[i].base == l[i].base && r[i].clientId == l[i].clientId
    ensures forall i :: 0 <= i < |l| ==> r[i].isRead == (l[i].isRead || (item.base.id.Some? && l[i].base.id == item.base.id))
  {
    if item.base.id.Some? then AppContext.MarkRead(l, item.base.id.value) else l
  }

  /** After a press on an item that has an id, its row reads 'Read' and the
      rest of its rendering is unchanged. */
  lemma PressShowsRead(l: seq<ClientNotification>, i: int)
    requires 0 <= i < |l| && l[i].base.id.Some?
    ensures var r := Press(l, l[i]);
            && Render(r[i]).badge == "Read"
            && Render(r[i]).title == Render(l[i]).title
            && Render(r[i]).details == Render(l[i]).details
            && Render(r[i]).content == Render(l[i]).content
  {
  }

  // ---------------------------------------------------------------------
  // The screen

  datatype View =
    | LoadingView
    | ErrorView(text: string)
    | DisabledView
    | ListView(rows: seq<Rendered>, caughtUp: bool)

  /** The screen's state, checked in order: loading, an error, push
      notifications off with nothing loaded, and otherwise the list (with
      the "all caught up" placeholder when it is empty). */
  function Screen(loading: bool, error: Option<string>, pushEnabled: bool, l: seq<ClientNotification>): (v: View)
    ensures v == LoadingView <==> loading
    ensures v.ErrorView? <==> !loading && Truthy(error)
    ensures v.ErrorView? ==> v.text == "Error loading notifications: " + error.value
    ensures v == DisabledView <==> !loading && !Truthy(error) && !pushEnabled && |l| == 0
    ensures v.ListView? ==> |v.rows| == |l| && (v.caughtUp <==> |l| == 0)
    ensures v.ListView? ==> forall i :: 0 <= i < |l| ==> v.rows[i] == Render(l[i])
  {
    if loading then LoadingView
    else if Truthy(error) then ErrorView("Error loading notifications: " + error.value)
    else if !pushEnabled && |l| == 0 then DisabledView
    else ListView(seq(|l|, i requires 0 <= i < |l| => Render(l[i])), |l| == 0)
  }

  /** With push notifications on, an empty list still shows the list view,
      with its placeholder. */
  lemma EnabledEmptyIsCaughtUp(error: Option<string>)
    requires !Truthy(error)
    ensures Screen(false, error, true, []) == ListView([], true)
  {
  }

  /** The provider supplies none of `loadingNotifications`,
      `notificationError` and `isPushNotificationsEnabled`, so in the app
      all three are undefined: the screen never shows the loading or error
      view, and an empty list always shows the disabled view. */
  lemma ProviderSuppliedScreen(l: seq<ClientNotification>)
    ensures Screen(false, None, false, l) == DisabledView <==> |l| == 0
    ensures |l| > 0 ==> Screen(false, None, false, l).ListView? && !Screen(false, None, false, l).caughtUp
  {
  }
}
