/** The Slack message records the rescheduler builds and receives, and the
    Slack client as an external collaborator that records what it posts. */
module SlackApi {
  import opened Wrappers

  /** The names of the rescheduler's controls. */
  const SelectTarget := "selectTarget"
  const SelectTime := "selectTime"
  const Cancel := "cancel"

  /** One entry of a select menu: what is shown and the token sent back. */
  datatype MenuOption = MenuOption(text: string, value: string)

  /** A control in an attachment: a select menu (`kind` "select") or a
      button (`kind` "button"). In a callback `selectedOptions` holds the
      option the user picked. */
  datatype AttachmentAction = AttachmentAction(
    name: string,
    kind: string,
    text: string,
    options: seq<MenuOption>,
    selectedOptions: seq<MenuOption>)

  datatype AttachmentField = AttachmentField(title: string, value: string)

  datatype Attachment = Attachment(
    title: string,
    text: string,
    callbackId: string,
    fields: seq<AttachmentField>,
    actions: seq<AttachmentAction>)

  datatype Message = Message(attachments: seq<Attachment>, replaceOriginal: bool, responseType: string)

  datatype User = User(id: string, name: string)

  /** An interactive-message callback, already read and decoded. */
  datatype Callback = Callback(
    token: string,
    user: User,
    channel: string,
    originalMessage: Message,
    actions: seq<AttachmentAction>)

  /** A message sent to a channel, holding one attachment. */
  datatype Post = Post(channel: string, attachment: Attachment)

  /** A select menu named `name` offering `options`. */
  function Select(name: string, options: seq<MenuOption>): (a: AttachmentAction)
    ensures a.name == name && a.kind == "select" && a.options == options
  {
    AttachmentAction(name, "select", "", options, [])
  }

  /** A button named `name` labelled `caption`. */
  function Button(name: string, caption: string): (a: AttachmentAction)
    ensures a.name == name && a.kind == "button" && a.text == caption && a.options == []
  {
    AttachmentAction(name, "button", caption, [], [])
  }

  /** An attachment held by pointer (`*slack.Attachment`) and filled in field
      by field. */
  class AttachmentRef {
    var title: string
    var text: string
    var callbackId: string
    var fields: seq<AttachmentField>
    var actions: seq<AttachmentAction>

    constructor (a: Attachment)
      ensures Value() == a
    {
      title, text, callbackId := a.title, a.text, a.callbackId;
      fields, actions := a.fields, a.actions;
    }

    /** The attachment as a value (`*attachment`). */
    function Value(): Attachment
      reads this
    {
      Attachment(title, text, callbackId, fields, actions)
    }
  }

  class Client {
    /** Every message delivered, in order. */
    var posts: seq<Post>
    /** Whether PostMessage succeeds. */
    const delivers: bool

    constructor (delivers: bool)
      ensures posts == [] && this.delivers == delivers
    {
      posts := [];
      this.delivers := delivers;
    }

    /** PostMessage(channel, "", {Attachments: [attachment]}). */
    method PostMessage(channel: string, attachment: Attachment) returns (err: Option<Error>)
      modifies this
      ensures err.None? <==> delivers
      ensures posts == if delivers then old(posts) + [Post(channel, attachment)] else old(posts)
    {
      if delivers {
        posts := posts + [Post(channel, attachment)];
        err := None;
      } else {
        err := Some(Upstream("message not delivered"));
      }
    }
  }
}
