/** The interactive-message handler: the room substitution filter, the
    availability search, the presentation of the candidates, the selection
    token, the event overwrite, and the dispatch of user actions. */
module Handler {
  import opened Wrappers
  import opened Text
  import opened Clock
  import opened Garoon
  import opened SlackApi
  import opened Planner
  import opened Availability

  // ---------------------------------------------------------------------
  // Room substitution

  /** The facilities of `fs`, in order, whose code is none of `codes`. */
  function Exclude(fs: seq<Facility>, codes: seq<string>): (r: seq<Facility>)
    ensures |r| <= |fs|
    ensures forall f :: f in r <==> f in fs && f.code !in codes
  {
    if fs == [] then []
    else
      var last := fs[|fs| - 1];
      assert fs == fs[..|fs| - 1] + [last];
      Exclude(fs[..|fs| - 1], codes) + (if last.code in codes then [] else [last])
  }

  /** Excluding keeps the order: it distributes over concatenation. */
  lemma {:induction false} ExcludeAppend(a: seq<Facility>, b: seq<Facility>, codes: seq<string>)
    ensures Exclude(a + b, codes) == Exclude(a, codes) + Exclude(b, codes)
    decreases |b|
  {
    if b == [] {
      assert a + b == a;
    } else {
      var b', x := b[..|b| - 1], b[|b| - 1];
      var keep := if x.code in codes then [] else [x];
      assert (a + b)[..|a + b| - 1] == a + b' && (a + b)[|a + b| - 1] == x;
      assert Exclude(a + b, codes) == Exclude(a + b', codes) + keep;
      assert Exclude(b, codes) == Exclude(b', codes) + keep;
      ExcludeAppend(a, b', codes);
    }
  }

  /** The exclusion loop of getFacilitiesFromOwnFacilityGroup. */
  method FilterFacilities(group: seq<Facility>, codes: seq<string>) returns (filtered: seq<Facility>)
    ensures filtered == Exclude(group, codes)
  {
    filtered := [];
    for i := 0 to |group|
      invariant filtered == Exclude(group[..i], codes)
    {
      var f := group[i];
      var isIncluded := false;
      for j := 0 to |codes|
        invariant isIncluded <==> f.code in codes[..j]
      {
        if f.code == codes[j] {
          isIncluded := true;
        }
      }
      assert codes[..|codes|] == codes;
      assert group[..i + 1][..i] == group[..i];
      if !isIncluded {
        filtered := filtered + [f];
      }
    }
    assert group[..|group|] == group;
  }

  /** With an empty exclusion setting the code list is [""], so rooms without
      a code are dropped too. */
  lemma EmptySettingDropsUncodedRooms(fs: seq<Facility>)
    ensures Split("", ',') == [""]
    ensures forall f :: f in Exclude(fs, Split("", ',')) <==> f in fs && f.code != ""
  {
  }

  /** The rooms that may replace the meeting's room: none when it has no
      room; otherwise the rooms of the facility group of the first room whose
      name matches, minus the excluded codes. */
  function OwnGroupFacilities(
    facilities: seq<Facility>,
    byName: string -> Result<seq<Facility>>,
    inGroup: string -> Result<seq<Facility>>,
    excluding: string): (r: Result<seq<Facility>>)
    ensures facilities == [] ==> r == Ok([])
    ensures r.Ok? ==> forall f :: f in r.value ==> f.code !in Split(excluding, ',')
    ensures r.Ok? && facilities != [] ==>
      && byName(facilities[0].name).Ok?
      && |byName(facilities[0].name).value| > 0
      && var group := inGroup(byName(facilities[0].name).value[0].facilityGroup);
         group.Ok? && forall f :: f in r.value <==> f in group.value && f.code !in Split(excluding, ',')
    ensures facilities != [] && byName(facilities[0].name).Err? ==> r == Err(byName(facilities[0].name).error)
    ensures facilities != [] && byName(facilities[0].name) == Ok([]) ==> r == Err(Failed("target facilities not found."))
    ensures facilities != [] && byName(facilities[0].name).Ok? && |byName(facilities[0].name).value| > 0
            && inGroup(byName(facilities[0].name).value[0].facilityGroup).Err? ==>
      r == Err(Failed("facilities in the facility group not found."))
  {
    if facilities == [] then Ok([])
    else
      match byName(facilities[0].name)
      case Err(e) => Err(e)
      case Ok(matches) =>
        if matches == [] then Err(Failed("target facilities not found."))
        else
          match inGroup(matches[0].facilityGroup)
          case Err(_) => Err(Failed("facilities in the facility group not found."))
          case Ok(group) => Ok(Exclude(group, Split(excluding, ',')))
  }

  // ---------------------------------------------------------------------
  // Presentation and the selection token

  const NoEndTitle := "No end MTG does not supported."
  const MultipleRoomsTitle := "Multiple MTG rooms does not supported."
  const NothingFoundTitle := "Could not find a date to reschedule."
  const ChooseTitle := "Which shedule would you like?"
  const NotPermittedTitle := ":x: You are not permitted."
  const RescheduledTitle := "The schedule has been rescheduled! :white_check_mark:"

  /** "%d schedules found." */
  function FoundTitle(n: nat): string
  {
    Digits(n) + " schedules found."
  }

  /** The readable start and the room name of a slot. */
  function SlotLine(t: AvailableTime): string
  {
    Readable(t.start) + " " + t.facility.name
  }

  /** The selectTime token: event ID, start, end and room ID joined by commas. */
  function TimeToken(eventId: string, t: AvailableTime): (token: string)
    ensures ',' !in eventId && ',' !in t.facility.id ==>
      Split(token, ',') == [eventId, Stamp(t.start), Stamp(t.end), t.facility.id]
  {
    var fields := [eventId, Stamp(t.start), Stamp(t.end), t.facility.id];
    if ',' in eventId || ',' in t.facility.id then Join(fields, ',')
    else
      StampRoundTrip(t.start);
      StampRoundTrip(t.end);
      SplitJoin(fields, ',');
      Join(fields, ',')
  }

  function SlotOption(eventId: string, t: AvailableTime): MenuOption
  {
    MenuOption(SlotLine(t), TimeToken(eventId, t))
  }

  function SlotOptions(eventId: string, ts: seq<AvailableTime>): (os: seq<MenuOption>)
    ensures |os| == |ts| && forall k :: 0 <= k < |ts| ==> os[k] == SlotOption(eventId, ts[k])
  {
    seq(|ts|, k requires 0 <= k < |ts| => SlotOption(eventId, ts[k]))
  }

  lemma SlotOptionsAppend(eventId: string, ts: seq<AvailableTime>, t: AvailableTime)
    ensures SlotOptions(eventId, ts + [t]) == SlotOptions(eventId, ts) + [SlotOption(eventId, t)]
  {
    var l, r := SlotOptions(eventId, ts + [t]), SlotOptions(eventId, ts) + [SlotOption(eventId, t)];
    assert |l| == |r|;
    forall k | 0 <= k < |l| ensures l[k] == r[k] {
      if k < |ts| {
        assert (ts + [t])[k] == ts[k];
      }
    }
  }

  /** The controls offered to the owner: the slot menu and a cancel button. */
  function TimeActions(eventId: string, ts: seq<AvailableTime>): seq<AttachmentAction>
  {
    [Select(SelectTime, SlotOptions(eventId, ts)), Button(Cancel, "Cancel")]
  }

  /** The lines of the listing, one per slot. */
  function Lines(ts: seq<AvailableTime>): (ls: seq<string>)
    ensures |ls| == |ts| && forall k :: 0 <= k < |ts| ==> ls[k] == SlotLine(ts[k])
  {
    seq(|ts|, k requires 0 <= k < |ts| => SlotLine(ts[k]))
  }

  /** Lines each followed by a newline. */
  function Terminated(ls: seq<string>): string
  {
    if ls == [] then "" else ls[0] + "\n" + Terminated(ls[1..])
  }

  /** The slot listing: one line per slot, each ended by a newline. */
  function Listing(ts: seq<AvailableTime>): string
  {
    Terminated(Lines(ts))
  }

  lemma {:induction false} TerminatedAppend(ls: seq<string>, l: string)
    ensures Terminated(ls + [l]) == Terminated(ls) + l + "\n"
  {
    if ls == [] {
      assert ls + [l] == [l] && [l][1..] == [];
    } else {
      var rest := ls[1..];
      assert (ls + [l])[0] == ls[0] && (ls + [l])[1..] == rest + [l];
      TerminatedAppend(rest, l);
      var head := ls[0] + "\n";
      assert head + (Terminated(rest) + l + "\n") == (head + Terminated(rest)) + l + "\n";
    }
  }

  lemma ListingAppend(ts: seq<AvailableTime>, t: AvailableTime)
    ensures Listing(ts + [t]) == Listing(ts) + SlotLine(t) + "\n"
  {
    assert Lines(ts + [t]) == Lines(ts) + [SlotLine(t)];
    TerminatedAppend(Lines(ts), SlotLine(t));
  }

  /** Split at newlines, the listing gives back exactly one line per slot, in
      order (and the empty text after the last newline), provided no room
      name holds a newline. */
  lemma ListingSplits(ts: seq<AvailableTime>)
    requires forall k :: 0 <= k < |ts| ==> '\n' !in ts[k].facility.name
    ensures Split(Listing(ts), '\n') == Lines(ts) + [""]
  {
    var fields := Lines(ts) + [""];
    TerminatedIsJoin(Lines(ts));
    forall k | 0 <= k < |fields| ensures '\n' !in fields[k] {
      if k < |ts| {
        assert fields[k] == Readable(ts[k].start) + " " + ts[k].facility.name;
      }
    }
    SplitJoin(fields, '\n');
  }

  lemma {:induction false} TerminatedIsJoin(ls: seq<string>)
    ensures Terminated(ls) == Join(ls + [""], '\n')
  {
    if ls != [] {
      TerminatedIsJoin(ls[1..]);
      assert (ls + [""])[1..] == ls[1..] + [""];
    }
  }

  /** updateEvent's overwrite: the given start and end, the single room
      `facilityId`, every other field as it was. */
  function Rescheduled(ev: Event, start: string, end: string, facilityId: string): (r: Event)
    ensures r.start == ParseStamp(start) && r.end == ParseStamp(end)
    ensures r.facilities == [FacilityWithId(facilityId)]
    ensures r.(start := ev.start, end := ev.end, facilities := ev.facilities) == ev
  {
    ev.(start := ParseStamp(start), end := ParseStamp(end), facilities := [FacilityWithId(facilityId)])
  }

  /** Choosing the menu entry of a slot moves the event to exactly that slot
      and room. */
  lemma ChosenSlotIsApplied(ev: Event, t: AvailableTime)
    requires ',' !in ev.id && ',' !in t.facility.id
    ensures var s := Split(SlotOption(ev.id, t).value, ',');
      && |s| == 4 && s[0] == ev.id
      && var moved := Rescheduled(ev, s[1], s[2], s[3]);
         moved.start == t.start && moved.end == t.end && moved.facilities == [FacilityWithId(t.facility.id)]
  {
    StampRoundTrip(t.start);
    StampRoundTrip(t.end);
  }

  /** One more slot extends the listing by its line and the menu by its
      entry. */
  lemma RenderStep(eventId: string, ts: seq<AvailableTime>, k: nat)
    requires k < |ts|
    ensures Listing(ts[..k + 1]) == Listing(ts[..k]) + SlotLine(ts[k]) + "\n"
    ensures SlotOptions(eventId, ts[..k + 1]) == SlotOptions(eventId, ts[..k]) + [SlotOption(eventId, ts[k])]
  {
    assert ts[..k + 1] == ts[..k] + [ts[k]];
    ListingAppend(ts[..k], ts[k]);
    SlotOptionsAppend(eventId, ts[..k], ts[k]);
  }

  /** The loop of setupAttachment that writes the listing and the menu. */
  method RenderAvailableTimes(eventId: string, ts: seq<AvailableTime>)
    returns (text: string, options: seq<MenuOption>)
    ensures text == Listing(ts)
    ensures options == SlotOptions(eventId, ts)
  {
    text := "";
    options := [];
    for k := 0 to |ts|
      invariant text == Listing(ts[..k])
      invariant options == SlotOptions(eventId, ts[..k])
    {
      RenderStep(eventId, ts, k);
      text := text + SlotLine(ts[k]) + "\n";
      options := options + [SlotOption(eventId, ts[k])];
    }
    assert ts[..|ts|] == ts;
  }

  // ---------------------------------------------------------------------
  // Dispatch

  const MethodPost := "POST"
  const StatusOK := 200
  const StatusUnauthorized := 401
  const StatusMethodNotAllowed := 405

  /** What the handler writes to the HTTP response, if anything. */
  datatype HttpResponse = Unwritten | StatusOnly(code: int) | Json(code: int, body: Message)

  /** The outcome of ServeHTTP: the response, and whether asyncResponse is
      started afterwards. */
  datatype Served = Served(response: HttpResponse, spawnsAsync: bool)

  /** The indexing ServeHTTP does without checking: an action, and for the
      two select actions a chosen option whose value has as many
      comma-separated fields as it reads (two for selectTarget, where it
      reads the part after the first comma, and two for selectTime). */
  predicate ServeDecodable(cb: Callback)
  {
    && |cb.actions| > 0
    && (cb.actions[0].name == SelectTarget ==>
          |cb.actions[0].selectedOptions| > 0 && |SplitFirst(cb.actions[0].selectedOptions[0].value, ',')| == 2)
    && (cb.actions[0].name == SelectTime ==>
          |cb.actions[0].selectedOptions| > 0 && |Split(cb.actions[0].selectedOptions[0].value, ',')| >= 2)
  }

  /** The "please wait" text of the acknowledgement. */
  function AckText(action: AttachmentAction): (text: string)
    requires action.name == SelectTarget ==>
      |action.selectedOptions| > 0 && |SplitFirst(action.selectedOptions[0].value, ',')| == 2
    requires action.name == SelectTime ==>
      |action.selectedOptions| > 0 && |Split(action.selectedOptions[0].value, ',')| >= 2
    requires action.name == SelectTarget || action.name == SelectTime
    ensures action.name == SelectTarget ==>
      var v := action.selectedOptions[0].value;
      var id := SplitFirst(v, ',')[0];
      v == id + "," + v[|id| + 1..] && text == ":ok: " + v[|id| + 1..] + " was selected.\nPlease wait."
  {
    var shown :=
      if action.name == SelectTarget then SplitFirst(action.selectedOptions[0].value, ',')[1]
      else Readable(ParseStamp(Split(action.selectedOptions[0].value, ',')[1]));
    ":ok: " + shown + " was selected.\nPlease wait."
  }

  const EmptyAttachment := Attachment("", "", "", [], [])

  /** responseMessage: the original message with its first attachment's
      controls removed and its text replaced (an empty attachment is added
      when there is none). */
  function Acknowledgement(original: Message, text: string): (m: Message)
    ensures |m.attachments| == if original.attachments == [] then 1 else |original.attachments|
    ensures m.attachments[0].actions == [] && m.attachments[0].text == text
    ensures m.attachments[0] ==
      (if original.attachments == [] then EmptyAttachment else original.attachments[0]).(actions := [], text := text)
    ensures m.attachments[0].title == (if original.attachments == [] then "" else original.attachments[0].title)
    ensures original.attachments != [] ==> m.attachments[1..] == original.attachments[1..]
    ensures m.replaceOriginal == original.replaceOriginal && m.responseType == original.responseType
  {
    var first := if original.attachments == [] then EmptyAttachment else original.attachments[0];
    var rest := if original.attachments == [] then [] else original.attachments[1..];
    original.(attachments := [first.(actions := [], text := text)] + rest)
  }

  /** An attachment with title, text, fields and controls cleared, as
      asyncResponse starts from. */
  function Cleared(a: Attachment): (c: Attachment)
    ensures c.title == "" && c.text == "" && c.fields == [] && c.actions == []
    ensures c.callbackId == a.callbackId
  {
    a.(title := "", text := "", fields := [], actions := [])
  }

  /** The indexing asyncResponse does without checking. */
  predicate AsyncDecodable(cb: Callback, owner: string)
  {
    && |cb.actions| > 0
    && (cb.actions[0].name == SelectTarget ==> |cb.actions[0].selectedOptions| > 0)
    && (cb.actions[0].name == SelectTime && cb.user.id == owner ==>
          |cb.actions[0].selectedOptions| > 0 && |Split(cb.actions[0].selectedOptions[0].value, ',')| >= 4)
  }

  /** A callback choosing a slot's menu entry passes both handlers' indexing,
      and its acknowledgement shows the slot's start time. */
  lemma SlotChoiceIsServed(cb: Callback, owner: string, ev: Event, t: AvailableTime)
    requires ',' !in ev.id && ',' !in t.facility.id
    requires |cb.actions| > 0 && cb.actions[0].name == SelectTime
    requires cb.actions[0].selectedOptions == [SlotOption(ev.id, t)]
    ensures ServeDecodable(cb) && AsyncDecodable(cb, owner)
    ensures AckText(cb.actions[0]) == ":ok: " + Readable(t.start) + " was selected.\nPlease wait."
  {
    StampRoundTrip(t.start);
  }

  /** `after` is `before` or `before` with one message to `channel` added. */
  ghost predicate PostedAtMostOnce(before: seq<Post>, after: seq<Post>, channel: string)
  {
    after == before || (|after| == |before| + 1 && after[..|before|] == before && after[|before|].channel == channel)
  }

  class InteractionHandler {
    const ownerSlackId: string
    const slack: SlackApi.Client
    const garoon: Garoon.Client
    const garoonExcludingFacilityCode: string
    const verificationToken: string

    constructor (ownerSlackId: string, slack: SlackApi.Client, garoon: Garoon.Client,
                 garoonExcludingFacilityCode: string, verificationToken: string)
      ensures this.ownerSlackId == ownerSlackId && this.slack == slack && this.garoon == garoon
      ensures this.garoonExcludingFacilityCode == garoonExcludingFacilityCode
      ensures this.verificationToken == verificationToken
    {
      this.ownerSlackId := ownerSlackId;
      this.slack := slack;
      this.garoon := garoon;
      this.garoonExcludingFacilityCode := garoonExcludingFacilityCode;
      this.verificationToken := verificationToken;
    }

    /** getFacilitiesFromOwnFacilityGroup. */
    method GetFacilitiesFromOwnFacilityGroup(facilities: seq<Facility>) returns (r: Result<seq<Facility>>)
      ensures r == OwnGroupFacilities(facilities, garoon.facilitiesByName, garoon.facilitiesInGroup,
                                       garoonExcludingFacilityCode)
    {
      if |facilities| == 0 {
        return Ok([]);
      }
      var pager := garoon.facilitiesByName(facilities[0].name);
      if pager.Err? {
        return Err(pager.error);
      }
      if |pager.value| == 0 {
        return Err(Failed("target facilities not found."));
      }
      var facilityGroupId := pager.value[0].facilityGroup;
      var groupPager := garoon.facilitiesInGroup(facilityGroupId);
      if groupPager.Err? {
        return Err(Failed("facilities in the facility group not found."));
      }
      var filtered := FilterFacilities(groupPager.value, Split(garoonExcludingFacilityCode, ','));
      return Ok(filtered);
    }

    /** What searchAvailableTimes may return: the facility error, or the
        error of the first failing query, or every slot the queries return,
        sorted. */
    ghost predicate SearchOutcome(ev: Event, nowHour: Hour, r: Result<seq<AvailableTime>>)
    {
      match OwnGroupFacilities(ev.facilities, garoon.facilitiesByName, garoon.facilitiesInGroup,
                               garoonExcludingFacilityCode)
      case Err(e) => r == Err(e)
      case Ok(facilities) =>
        match Gather(Queries(ev, facilities, nowHour), garoon.availableTimes)
        case Err(e) => r == Err(e)
        case Ok(ts) => r.Ok? && Sorted(r.value) && multiset(r.value) == multiset(ts)
    }

    /** searchAvailableTimes. */
    method SearchAvailableTimes(ev: Event, nowHour: Hour) returns (r: Result<seq<AvailableTime>>)
      ensures SearchOutcome(ev, nowHour, r)
    {
      var facilities := GetFacilitiesFromOwnFacilityGroup(ev.facilities);
      if facilities.Err? {
        return Err(facilities.error);
      }
      var params := BuildAvailableTimeParameters(ev, facilities.value, nowHour);
      var found, _ := SearchEach(params, garoon.availableTimes);
      if found.Err? {
        return Err(found.error);
      }
      var all := found.value;
      var availableTimes := new AvailableTime[|all|](k requires 0 <= k < |all| => all[k]);
      assert availableTimes[..] == all;
      SortAvailableTimes(availableTimes);
      return Ok(availableTimes[..]);
    }

    /** setupAttachment: fills in the reply for a chosen meeting. `found` is
        the search result the reply was built from. */
    method SetupAttachment(messageUserId: string, ev: Event, attachment: AttachmentRef, nowHour: Hour)
      returns (err: Option<Error>, ghost found: seq<AvailableTime>)
      modifies attachment
      ensures ev.isAllDay || ev.isStartOnly ==>
        err.None? && attachment.Value() == old(attachment.Value()).(title := NoEndTitle)
      ensures !(ev.isAllDay || ev.isStartOnly) && |ev.facilities| > 1 ==>
        err.None? && attachment.Value() == old(attachment.Value()).(title := MultipleRoomsTitle)
      ensures !(ev.isAllDay || ev.isStartOnly) && |ev.facilities| <= 1 ==>
        && SearchOutcome(ev, nowHour, if err.Some? then Err(err.value) else Ok(found))
        && (err.Some? ==> attachment.Value() == old(attachment.Value()))
        && (err.None? && found == [] ==>
              attachment.Value() == old(attachment.Value()).(title := NothingFoundTitle))
        && (err.None? && found != [] && messageUserId == ownerSlackId ==>
              attachment.Value() == old(attachment.Value()).(
                title := ChooseTitle, text := Listing(found), actions := TimeActions(ev.id, found)))
        && (err.None? && found != [] && messageUserId != ownerSlackId ==>
              attachment.Value() == old(attachment.Value()).(
                title := FoundTitle(|found|), text := Listing(found)))
      ensures messageUserId != ownerSlackId ==> attachment.actions == old(attachment.actions)
    {
      found := [];
      if ev.isAllDay || ev.isStartOnly {
        attachment.title := NoEndTitle;
        return None, found;
      }
      if |ev.facilities| > 1 {
        attachment.title := MultipleRoomsTitle;
        return None, found;
      }
      var availableTimes := SearchAvailableTimes(ev, nowHour);
      if availableTimes.Err? {
        return Some(availableTimes.error), found;
      }
      found := availableTimes.value;
      if |availableTimes.value| == 0 {
        attachment.title := NothingFoundTitle;
        return None, found;
      }
      var text, options := RenderAvailableTimes(ev.id, availableTimes.value);
      attachment.text := text;
      if messageUserId != ownerSlackId {
        attachment.title := FoundTitle(|availableTimes.value|);
        return None, found;
      }
      attachment.title := ChooseTitle;
      attachment.actions := [Select(SelectTime, options), Button(Cancel, "Cancel")];
      return None, found;
    }

    /** updateEvent: re-reads the event and stores it with the new start,
        end and single room. */
    method UpdateEvent(eventId: string, start: string, end: string, facilityId: string)
      returns (err: Option<Error>)
      requires garoon.Valid()
      modifies garoon
      ensures garoon.Valid()
      ensures old(garoon.FindEvent(eventId)).Err? ==>
        && err == Some(Failed("failed to find the event."))
        && garoon.updates == old(garoon.updates) && garoon.events == old(garoon.events)
      ensures old(garoon.FindEvent(eventId)).Ok? ==>
        var moved := Rescheduled(old(garoon.FindEvent(eventId)).value, start, end, facilityId);
        && garoon.updates == old(garoon.updates) + [moved]
        && (err.None? <==> garoon.acceptsUpdate(moved))
        && (err.None? ==> garoon.FindEvent(eventId) == Ok(moved) && garoon.events == old(garoon.events)[eventId := moved])
        && (err.Some? ==> err == Some(Failed("failed to update the event.")) && garoon.events == old(garoon.events))
    {
      var found := garoon.FindEvent(eventId);
      if found.Err? {
        return Some(Failed("failed to find the event."));
      }
      var ev := found.value;
      ev := ev.(start := ParseStamp(start));
      ev := ev.(end := ParseStamp(end));
      ev := ev.(facilities := [FacilityWithId(facilityId)]);
      var updated := garoon.UpdateEvent(ev);
      if updated.Err? {
        return Some(Failed("failed to update the event."));
      }
      return None;
    }

    /** ServeHTTP, for a callback already read and decoded: method and token
        checks, the acknowledgement, and whether asyncResponse follows. */
    function ServeHTTP(httpMethod: string, cb: Callback): (s: Served)
      requires httpMethod == MethodPost && cb.token == verificationToken ==> ServeDecodable(cb)
      ensures httpMethod != MethodPost ==> s == Served(StatusOnly(StatusMethodNotAllowed), false)
      ensures httpMethod == MethodPost && cb.token != verificationToken ==>
        s == Served(StatusOnly(StatusUnauthorized), false)
      ensures s.spawnsAsync <==>
        httpMethod == MethodPost && cb.token == verificationToken
        && (cb.actions[0].name == SelectTarget || cb.actions[0].name == SelectTime)
      ensures s.spawnsAsync ==>
        && s.response.Json? && s.response.code == StatusOK && |s.response.body.attachments| > 0
        && s.response.body.replaceOriginal && s.response.body.responseType == "in_channel"
        && s.response.body.attachments[0].actions == []
        && s.response.body.attachments[0].text == AckText(cb.actions[0])
      ensures s.spawnsAsync ==>
        s.response == Json(StatusOK, Acknowledgement(cb.originalMessage.(replaceOriginal := true, responseType := "in_channel"),
                                                     AckText(cb.actions[0])))
      ensures httpMethod == MethodPost && cb.token == verificationToken && !s.spawnsAsync ==>
        s.response == Unwritten
    {
      if httpMethod != MethodPost then Served(StatusOnly(StatusMethodNotAllowed), false)
      else if cb.token != verificationToken then Served(StatusOnly(StatusUnauthorized), false)
      else
        var original := cb.originalMessage.(replaceOriginal := true, responseType := "in_channel");
        var action := cb.actions[0];
        if action.name == SelectTarget || action.name == SelectTime then
          Served(Json(StatusOK, Acknowledgement(original, AckText(action))), true)
        else
          Served(Unwritten, false)
    }

    /** asyncResponse: the work done after the acknowledgement, ending in at
        most one message to the callback's channel. */
    /** The selectTarget case of asyncResponse: the chosen meeting's slots
        are filled in by SetupAttachment; nothing is posted when the meeting
        is missing or its slot search fails. Returns whether the reply is
        posted. */
    method ShowChosenTarget(userId: string, action: AttachmentAction, attachment: AttachmentRef, nowHour: Hour)
      returns (reply: bool)
      requires garoon.Valid()
      requires |action.selectedOptions| > 0
      modifies attachment
      ensures var found := garoon.FindEvent(SplitFirst(action.selectedOptions[0].value, ',')[0]);
        && (found.Err? ==> !reply && attachment.Value() == old(attachment.Value()))
        && (found.Ok? && (found.value.isAllDay || found.value.isStartOnly) ==>
              reply && attachment.Value() == old(attachment.Value()).(title := NoEndTitle))
      ensures userId != ownerSlackId ==> attachment.actions == old(attachment.actions)
    {
      var eventId := SplitFirst(action.selectedOptions[0].value, ',')[0];
      var ev := garoon.FindEvent(eventId);
      if ev.Err? {
        return false;
      }
      var err, _ := SetupAttachment(userId, ev.value, attachment, nowHour);
      return err.None?;
    }

    /** The selectTime case of asyncResponse: anyone but the owner is told
        the move is not theirs to make; for the owner the meeting is moved to
        the chosen slot and the reply says so, and nothing is posted when the
        meeting is missing or the move is refused. Returns whether the reply
        is posted. */
    method MoveToChosenTime(userId: string, action: AttachmentAction, attachment: AttachmentRef) returns (reply: bool)
      requires garoon.Valid()
      requires userId == ownerSlackId ==>
        |action.selectedOptions| > 0 && |Split(action.selectedOptions[0].value, ',')| >= 4
      modifies garoon, attachment
      ensures garoon.Valid()
      ensures userId != ownerSlackId ==>
        && reply && garoon.updates == old(garoon.updates) && garoon.events == old(garoon.events)
        && attachment.Value() == old(attachment.Value()).(title := NotPermittedTitle)
      ensures userId == ownerSlackId ==>
        var s := Split(action.selectedOptions[0].value, ',');
        match old(garoon.FindEvent(s[0]))
        case Err(_) =>
          !reply && garoon.updates == old(garoon.updates) && garoon.events == old(garoon.events)
        case Ok(ev) =>
          var moved := Rescheduled(ev, s[1], s[2], s[3]);
          && garoon.updates == old(garoon.updates) + [moved]
          && (reply <==> garoon.acceptsUpdate(moved))
          && (reply ==> garoon.FindEvent(s[0]) == Ok(moved))
          && garoon.events == (if reply then old(garoon.events)[s[0] := moved] else old(garoon.events))
          && (reply ==> attachment.Value() == old(attachment.Value()).(title := RescheduledTitle))
    {
      if userId != ownerSlackId {
        attachment.title := NotPermittedTitle;
        return true;
      }
      var s := Split(action.selectedOptions[0].value, ',');
      var err := UpdateEvent(s[0], s[1], s[2], s[3]);
      if err.Some? {
        return false;
      }
      attachment.title := RescheduledTitle;
      return true;
    }

    method AsyncResponse(cb: Callback, nowHour: Hour)
      requires garoon.Valid()
      requires AsyncDecodable(cb, ownerSlackId)
      modifies garoon, slack
      ensures garoon.Valid()
      ensures PostedAtMostOnce(old(slack.posts), slack.posts, cb.channel)
      ensures cb.originalMessage.attachments == [] ==> unchanged(garoon, slack)
      ensures cb.actions[0].name !in {SelectTarget, SelectTime, Cancel} ==> unchanged(garoon, slack)
      ensures cb.actions[0].name != SelectTime ==>
        garoon.updates == old(garoon.updates) && garoon.events == old(garoon.events)
      ensures cb.user.id != ownerSlackId ==>
        && garoon.updates == old(garoon.updates) && garoon.events == old(garoon.events)
        && forall k :: |old(slack.posts)| <= k < |slack.posts| ==> slack.posts[k].attachment.actions == []
      ensures cb.originalMessage.attachments != [] && cb.actions[0].name == SelectTime && cb.user.id != ownerSlackId ==>
        slack.posts == old(slack.posts) +
          (if slack.delivers
           then [Post(cb.channel, Cleared(cb.originalMessage.attachments[0]).(title := NotPermittedTitle))]
           else [])
      ensures cb.originalMessage.attachments != [] && cb.actions[0].name == SelectTime && cb.user.id == ownerSlackId ==>
        var s := Split(cb.actions[0].selectedOptions[0].value, ',');
        match old(garoon.FindEvent(s[0]))
        case Err(_) =>
          && garoon.updates == old(garoon.updates) && garoon.events == old(garoon.events)
          && slack.posts == old(slack.posts)
        case Ok(ev) =>
          var moved := Rescheduled(ev, s[1], s[2], s[3]);
          && garoon.updates == old(garoon.updates) + [moved]
          && (garoon.acceptsUpdate(moved) ==> garoon.FindEvent(s[0]) == Ok(moved))
          && garoon.events == (if garoon.acceptsUpdate(moved) then old(garoon.events)[s[0] := moved] else old(garoon.events))
          && slack.posts == old(slack.posts) +
               (if garoon.acceptsUpdate(moved) && slack.delivers
                then [Post(cb.channel, Cleared(cb.originalMessage.attachments[0]).(title := RescheduledTitle))]
                else [])
      ensures cb.originalMessage.attachments != [] && cb.actions[0].name == Cancel ==>
        slack.posts == old(slack.posts) +
          (if slack.delivers
           then [Post(cb.channel, Cleared(cb.originalMessage.attachments[0]).(title := "@" + cb.user.name + " canceled."))]
           else [])
      ensures cb.originalMessage.attachments != [] && cb.actions[0].name == SelectTarget
              && old(garoon.FindEvent(SplitFirst(cb.actions[0].selectedOptions[0].value, ',')[0])).Err? ==>
        slack.posts == old(slack.posts)
    {
      if |cb.originalMessage.attachments| == 0 {
        return;
      }
      var attachment := new AttachmentRef(cb.originalMessage.attachments[0]);
      attachment.title := "";
      attachment.text := "";
      attachment.fields := [];
      attachment.actions := [];

      var action := cb.actions[0];
      if action.name == SelectTarget {
        var reply := ShowChosenTarget(cb.user.id, action, attachment, nowHour);
        if !reply {
          return;
        }
      } else if action.name == SelectTime {
        var reply := MoveToChosenTime(cb.user.id, action, attachment);
        if !reply {
          return;
        }
      } else if action.name == Cancel {
        attachment.title := "@" + cb.user.name + " canceled.";
      } else {
        return;
      }
      var _ := slack.PostMessage(cb.channel, attachment.Value());
    }
  }
}
