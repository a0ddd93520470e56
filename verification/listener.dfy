/** The chat side: recognising a "search" command addressed to the bot, and
    the menu of matching meetings it replies with. */
module Listener {
  import opened Wrappers
  import opened Text
  import opened Clock
  import opened Garoon
  import opened SlackApi
  import opened Handler

  datatype MessageEvent = MessageEvent(channel: string, text: string)

  /** What handleMessageEvent makes of a message. */
  datatype Command = Ignored | Usage | Search(keyword: string)

  const UsageText := "Would you mind ordering like `@rescheduler search Foo`?"
  const TargetTitle := "Which schedule do you intend? :calendar:"
  const TargetCallbackId := "target"

  /** The reply to a message of any other shape. */
  const UsageAttachment := Attachment("", UsageText, "", [], [])

  /** "<@botID> ": the prefix of a message addressed to the bot. */
  function Mention(botId: string): string
  {
    "<@" + botId + "> "
  }

  /** The decisions of handleMessageEvent: ignore what is not addressed to
      the bot or comes from another channel than the configured one; accept
      exactly "search <keyword>" after the mention; answer anything else with
      the usage hint. */
  function ParseCommand(botId: string, channelId: string, ev: MessageEvent): (c: Command)
    ensures c.Ignored? <==> !(Mention(botId) <= ev.text) || (channelId != "" && ev.channel != channelId)
    ensures c.Search? ==> ' ' !in c.keyword
  {
    if !(Mention(botId) <= ev.text) then Ignored
    else if channelId != "" && ev.channel != channelId then Ignored
    else Interpret(Words(ev.text))
  }

  /** The words of a message after the mention. */
  function Words(text: string): (words: seq<string>)
    ensures forall k :: 0 <= k < |words| ==> ' ' !in words[k]
  {
    Split(TrimSpace(text), ' ')[1..]
  }

  /** "search <keyword>" is a search; anything else earns the usage hint. */
  function Interpret(words: seq<string>): (c: Command)
    ensures c != Ignored
    ensures c.Search? <==> |words| == 2 && words[0] == "search"
    ensures c.Search? ==> c.keyword == words[1]
  {
    if |words| != 2 || words[0] != "search" then Usage else Search(words[1])
  }

  /** An accepted command is, once trimmed, one word, " search ", and the
      keyword. */
  lemma AcceptedShape(botId: string, channelId: string, ev: MessageEvent)
    requires ParseCommand(botId, channelId, ev).Search?
    ensures var w := Split(TrimSpace(ev.text), ' ');
      TrimSpace(ev.text) == w[0] + [' '] + "search" + [' '] + ParseCommand(botId, channelId, ev).keyword
  {
    var s := TrimSpace(ev.text);
    var w := Split(s, ' ');
    assert Words(ev.text) == w[1..];
    assert |w| == 3;
    assert w[1] == "search";
    assert ParseCommand(botId, channelId, ev).keyword == w[2];
    ThreeFields(s, ' ');
  }

  /** A command text whose ends are not white space is its own trim. */
  lemma CommandIsTrimmed(head: string, verb: string, arg: string)
    requires head != [] && !IsSpace(head[0])
    requires arg != [] && !IsSpace(arg[|arg| - 1])
    ensures var text := head + [' '] + verb + [' '] + arg; TrimSpace(text) == text
  {
    var text := head + [' '] + verb + [' '] + arg;
    assert text[0] == head[0];
    assert text[|text| - 1] == arg[|arg| - 1];
    TrimSpaceKeeps(text);
  }

  /** Three space-free words joined by single spaces split back into them. */
  lemma CommandSplits(head: string, verb: string, arg: string)
    requires ' ' !in head && ' ' !in verb && ' ' !in arg
    ensures Split(head + [' '] + verb + [' '] + arg, ' ') == [head, verb, arg]
  {
    JoinThree(head, verb, arg, ' ');
    SplitJoin([head, verb, arg], ' ');
  }

  /** The words after the first one of such a text. */
  lemma WordsOf(head: string, verb: string, arg: string)
    requires head != [] && !IsSpace(head[0]) && ' ' !in head
    requires ' ' !in verb
    requires arg != [] && ' ' !in arg && !IsSpace(arg[|arg| - 1])
    ensures Words(head + [' '] + verb + [' '] + arg) == [verb, arg]
  {
    CommandIsTrimmed(head, verb, arg);
    CommandSplits(head, verb, arg);
  }

  /** The mention is one space-free word followed by a space. */
  lemma MentionHead(botId: string)
    requires ' ' !in botId
    ensures var head := "<@" + botId + ">";
      Mention(botId) == head + [' '] && head[0] == '<' && ' ' !in head
  {
    var head := "<@" + botId + ">";
    assert forall k :: 0 <= k < |head| ==> head[k] == '<' || head[k] == '@' || head[k] == '>' || head[k] in botId;
  }

  /** The words after the mention in "<@bot> search kw". */
  lemma WordsOfMention(botId: string, keyword: string)
    requires ' ' !in botId
    requires keyword != [] && ' ' !in keyword && !IsSpace(keyword[|keyword| - 1])
    ensures Words(Mention(botId) + "search" + [' '] + keyword) == ["search", keyword]
  {
    var head := "<@" + botId + ">";
    MentionHead(botId);
    assert Mention(botId) + "search" + [' '] + keyword == head + [' '] + "search" + [' '] + keyword;
    WordsOf(head, "search", keyword);
  }

  /** A message to the bot, in the configured channel, whose words are
      "search kw", searches for kw. */
  lemma AcceptedWhenWordsMatch(botId: string, channelId: string, ev: MessageEvent, keyword: string)
    requires Mention(botId) <= ev.text
    requires Words(ev.text) == ["search", keyword]
    requires channelId == "" || ev.channel == channelId
    ensures ParseCommand(botId, channelId, ev) == Search(keyword)
  {
    assert ParseCommand(botId, channelId, ev) == Interpret(["search", keyword]);
  }

  lemma MentionIsPrefix(botId: string, ev: MessageEvent, keyword: string)
    requires ev.text == Mention(botId) + "search" + [' '] + keyword
    ensures Mention(botId) <= ev.text
  {
  }

  /** "<@bot> search kw" in the configured channel, with a one-word keyword
      that does not end in white space, is a search for that keyword. */
  lemma MentionedSearchIsAccepted(botId: string, channelId: string, ev: MessageEvent, keyword: string)
    requires ' ' !in botId
    requires keyword != [] && ' ' !in keyword && !IsSpace(keyword[|keyword| - 1])
    requires ev.text == Mention(botId) + "search" + [' '] + keyword
    requires channelId == "" || ev.channel == channelId
    ensures ParseCommand(botId, channelId, ev) == Search(keyword)
  {
    MentionIsPrefix(botId, ev, keyword);
    WordsOfMention(botId, keyword);
    AcceptedWhenWordsMatch(botId, channelId, ev, keyword);
  }

  /** The menu entry for one found meeting, as written: shown as its start
      and subject, valued with the bare event ID. */
  function TargetOption(ev: Event): (option: MenuOption)
    ensures |SplitFirst(option.value, ',')| == 2 <==> ',' in ev.id
  {
    MenuOption(Readable(ev.start) + " " + ev.subject, ev.id)
  }

  function TargetMenu(events: seq<Event>): (os: seq<MenuOption>)
    ensures |os| == |events|
    ensures forall k :: 0 <= k < |events| ==>
      os[k].value == events[k].id && os[k].text == Readable(events[k].start) + " " + events[k].subject
  {
    seq(|events|, k requires 0 <= k < |events| => TargetOption(events[k]))
  }

  /** The reply listing the found meetings: a select menu of them, then a
      cancel button. */
  function TargetAttachment(events: seq<Event>): (a: Attachment)
    ensures a.title == TargetTitle && a.callbackId == TargetCallbackId
    ensures |a.actions| == 2
    ensures a.actions[0].name == SelectTarget && a.actions[0].kind == "select"
    ensures a.actions[0].options == TargetMenu(events)
    ensures a.actions[1].name == Cancel && a.actions[1].kind == "button" && a.actions[1].options == []
  {
    Attachment(TargetTitle, "", TargetCallbackId, [],
               [Select(SelectTarget, TargetMenu(events)), Button(Cancel, "Cancel")])
  }

  // ---------------------------------------------------------------------
  // The target token.

  /** The target token the interaction handler reads: the event ID, a
      comma, and the subject it shows in its acknowledgement. */
  function TargetToken(eventId: string, subject: string): string
  {
    eventId + "," + subject
  }

  /** The menu entry with the token the handler reads. */
  function CorrectedTargetOption(ev: Event): MenuOption
  {
    MenuOption(Readable(ev.start) + " " + ev.subject, TargetToken(ev.id, ev.subject))
  }

  /** A callback choosing `option` in the target menu. */
  function TargetChoice(token: string, user: User, channel: string, original: Message, option: MenuOption): Callback
  {
    Callback(token, user, channel, original, [AttachmentAction(SelectTarget, "select", "", [], [option])])
  }

  /** As written, choosing a meeting whose ID has no comma gives ServeHTTP
      a value without the comma it splits on, so the subject it reads does
      not exist. */
  lemma AsWrittenTargetChoiceIsUndecodable(ev: Event, token: string, user: User, channel: string, original: Message)
    requires ',' !in ev.id
    ensures !ServeDecodable(TargetChoice(token, user, channel, original, TargetOption(ev)))
  {
  }

  /** With the corrected token every chosen meeting is decodable: the
      acknowledgement shows its subject, whatever the subject holds, and the
      follow-up looks up its ID. */
  lemma CorrectedTargetChoiceIsServed(ev: Event, token: string, user: User, channel: string, original: Message)
    requires ',' !in ev.id
    ensures var cb := TargetChoice(token, user, channel, original, CorrectedTargetOption(ev));
      && ServeDecodable(cb)
      && AckText(cb.actions[0]) == ":ok: " + ev.subject + " was selected.\nPlease wait."
      && SplitFirst(cb.actions[0].selectedOptions[0].value, ',')[0] == ev.id
  {
    assert TargetToken(ev.id, ev.subject) == ev.id + [','] + ev.subject;
    SplitFirstOfJoin(ev.id, ev.subject, ',');
  }

  class SlackListener {
    const client: SlackApi.Client
    const botId: string
    const channelId: string
    const ownerId: string
    const garoon: Garoon.Client

    constructor (client: SlackApi.Client, botId: string, channelId: string, ownerId: string, garoon: Garoon.Client)
      ensures this.client == client && this.botId == botId && this.channelId == channelId
      ensures this.ownerId == ownerId && this.garoon == garoon
    {
      this.client := client;
      this.botId := botId;
      this.channelId := channelId;
      this.ownerId := ownerId;
      this.garoon := garoon;
    }

    /** searchSchedules: the meetings matching the keyword. */
    method SearchSchedules(keyword: string) returns (r: Result<seq<Event>>)
      ensures garoon.eventsByKeyword(keyword).Ok? ==> r == garoon.eventsByKeyword(keyword)
      ensures garoon.eventsByKeyword(keyword).Err? ==>
        r == Err(Wrapped("failed to search schedules", garoon.eventsByKeyword(keyword).error))
    {
      var pager := garoon.eventsByKeyword(keyword);
      if pager.Err? {
        return Err(Wrapped("failed to search schedules", pager.error));
      }
      return pager;
    }

    /** setupAttachment (slack.go): the option loop and the reply. */
    method SetupAttachment(events: seq<Event>) returns (attachment: Attachment)
      ensures attachment == TargetAttachment(events)
    {
      var options := [];
      for k := 0 to |events|
        invariant options == TargetMenu(events[..k])
      {
        options := options + [MenuOption(Readable(events[k].start) + " " + events[k].subject, events[k].id)];
      }
      assert events[..|events|] == events;
      attachment := Attachment(TargetTitle, "", TargetCallbackId, [],
                               [Select(SelectTarget, options), Button(Cancel, "Cancel")]);
    }

    /** handleMessageEvent. */
    method HandleMessageEvent(ev: MessageEvent) returns (err: Option<Error>)
      modifies client
      ensures ParseCommand(botId, channelId, ev).Ignored? ==> err.None? && client.posts == old(client.posts)
      ensures ParseCommand(botId, channelId, ev).Usage? ==>
        && (err.None? <==> client.delivers)
        && client.posts == old(client.posts) + (if client.delivers then [Post(ev.channel, UsageAttachment)] else [])
      ensures ParseCommand(botId, channelId, ev).Search? ==>
        match garoon.eventsByKeyword(ParseCommand(botId, channelId, ev).keyword)
        case Err(e) =>
          err == Some(Wrapped("failed to search schedules", e)) && client.posts == old(client.posts)
        case Ok(events) =>
          && (err.None? <==> client.delivers)
          && client.posts == old(client.posts) +
               (if client.delivers then [Post(ev.channel, TargetAttachment(events))] else [])
    {
      if !(Mention(botId) <= ev.text) {
        return None;
      }
      if channelId != "" && ev.channel != channelId {
        return None;
      }
      err := Reply(ev.channel, Words(ev.text));
    }

    /** The reply part of handleMessageEvent: the usage hint or the target
        menu for the words after the mention, posted to the channel. */
    method Reply(channel: string, m: seq<string>) returns (err: Option<Error>)
      modifies client
      ensures Interpret(m).Usage? ==>
        && (err.None? <==> client.delivers)
        && client.posts == old(client.posts) + (if client.delivers then [Post(channel, UsageAttachment)] else [])
      ensures Interpret(m).Search? ==>
        match garoon.eventsByKeyword(m[1])
        case Err(e) =>
          err == Some(Wrapped("failed to search schedules", e)) && client.posts == old(client.posts)
        case Ok(events) =>
          && (err.None? <==> client.delivers)
          && client.posts == old(client.posts) +
               (if client.delivers then [Post(channel, TargetAttachment(events))] else [])
    {
      var attachment;
      if |m| != 2 || m[0] != "search" {
        attachment := UsageAttachment;
      } else {
        var pager := SearchSchedules(m[1]);
        if pager.Err? {
          return Some(pager.error);
        }
        attachment := SetupAttachment(pager.value);
      }
      var posted := client.PostMessage(channel, attachment);
      if posted.Some? {
        return Some(Wrapped("failed to post message", posted.value));
      }
      return None;
    }
  }
}
