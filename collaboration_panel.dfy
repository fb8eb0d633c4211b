/**
 * The collaboration panel (`components/collaboration/collaboration-panel.tsx`):
 * a chat in which sending appends one message from the current user and
 * clears the draft, a roster that shows how long ago each other collaborator
 * was active, and a private/public switch.
 */
module CollaborationPanel {
  import opened Wrappers
  import opened Text
  import opened Types
  import RelativeTime

  datatype Status = Online | Offline | Away
  datatype Role = Owner | Editor | Viewer

  datatype Collaborator = Collaborator(
    id: string, name: string, email: string, avatar: Option<string>,
    status: Status, role: Role, lastActive: Option<int>)

  datatype Message = Message(id: string, sender: Collaborator, content: string, timestamp: int)

  /** The signed-in user, first in the roster, never given a last-active time. */
  const You: Collaborator := Collaborator("1", "You", "you@example.com", None, Online, Owner, None)

  /** The roster, as built when the page was loaded at `loadTime` (milliseconds). */
  function Collaborators(loadTime: int): (r: seq<Collaborator>)
    ensures |r| == 4 && r[0] == You
    ensures forall i :: 1 <= i < |r| ==> r[i].id != "1" && r[i].lastActive.Some? && r[i].lastActive.value <= loadTime
  {
    [ You,
      Collaborator("2", "Jane Smith", "jane@example.com", Some("/placeholder.svg?height=32&width=32"), Online, Editor, Some(loadTime)),
      Collaborator("3", "Alex Johnson", "alex@example.com", Some("/placeholder.svg?height=32&width=32"), Away, Editor, Some(loadTime - 15 * 60 * 1000)),
      Collaborator("4", "Sam Wilson", "sam@example.com", Some("/placeholder.svg?height=32&width=32"), Offline, Viewer, Some(loadTime - 2 * 60 * 60 * 1000)) ]
  }

  /** A message is drawn as one's own when its sender has the current user's id. */
  predicate IsCurrentUser(m: Message) {
    m.sender.id == "1"
  }

  /** The roster shows a last-active time for everyone but the current user. */
  predicate LastActiveShown(c: Collaborator) {
    c.id != "1"
  }

  /** In the roster that is everyone after the first entry, and all of them have a time. */
  lemma RosterLastActive(loadTime: int)
    ensures forall i :: 0 <= i < 4 ==>
      (LastActiveShown(Collaborators(loadTime)[i]) <==> i != 0)
  {
  }

  /** `formatLastActive(date)` at time `now`: the feed's buckets with no calendar cap. */
  function FormatLastActive(date: Option<int>, now: int): (r: string)
    ensures date.None? <==> r == "Never"
    ensures date.Some? ==>
      (r == "Just now" <==> now - date.value < RelativeTime.MinuteMs)
    ensures date.Some? && RelativeTime.MinuteMs <= now - date.value < RelativeTime.HourMs ==>
      r == NatToString((now - date.value) / RelativeTime.MinuteMs) + "m ago"
    ensures date.Some? && RelativeTime.HourMs <= now - date.value < RelativeTime.DayMs ==>
      r == NatToString((now - date.value) / RelativeTime.HourMs) + "h ago"
    ensures date.Some? && now - date.value >= RelativeTime.DayMs ==>
      r == NatToString((now - date.value) / RelativeTime.DayMs) + "d ago"
  {
    if date.None? then "Never"
    else
      var age := RelativeTime.LastActiveAge(now - date.value);
      RelativeTime.LastActiveRanges(now - date.value);
      RelativeTime.AgeRanges(now - date.value);
      RelativeTime.LabelJustNow(age);
      var text := RelativeTime.Label(age).value;
      assert text[0] == 'J' || IsDigit(text[0]);
      text
  }

  /** The panel's state. */
  class Panel {
    var messages: seq<Message>
    var newMessage: string
    var projectVisibility: Visibility

    /** Every message in the chat has some text. */
    ghost predicate Valid()
      reads this
    {
      forall i :: 0 <= i < |messages| ==> !IsBlank(messages[i].content)
    }

    constructor (initialMessages: seq<Message>)
      requires forall i :: 0 <= i < |initialMessages| ==> !IsBlank(initialMessages[i].content)
      ensures messages == initialMessages && newMessage == "" && projectVisibility == Private
      ensures Valid()
    {
      messages := initialMessages;
      newMessage := "";
      projectVisibility := Private;
    }

    /**
     * `sendMessage` at time `now`: a blank draft changes nothing; otherwise the
     * draft, untrimmed, is appended as a message from the current user and the
     * draft is cleared.  Pressing Enter without Shift does the same.
     */
    method SendMessage(now: nat)
      modifies this`messages, this`newMessage
      ensures IsBlank(old(newMessage)) ==> messages == old(messages) && newMessage == old(newMessage)
      ensures !IsBlank(old(newMessage)) ==>
        && messages == old(messages) + [Message("msg" + NatToString(now), You, old(newMessage), now)]
        && IsCurrentUser(messages[|messages| - 1])
        && newMessage == ""
      ensures old(Valid()) ==> Valid()
    {
      if IsBlank(newMessage) {
        return;
      }
      // `collaborators[0]`, the current user
      var message := Message("msg" + NatToString(now), You, newMessage, now);
      messages := messages + [message];
      newMessage := "";
    }

    /** The "Private" and "Public" items of the Share menu. */
    method SetVisibility(v: Visibility)
      modifies this`projectVisibility
      ensures projectVisibility == v
    {
      projectVisibility := v;
    }
  }
}
