# rescheduler, modelled in Dafny

rescheduler is a chat bot that moves a Garoon meeting to another free slot.
A user mentions the bot with `search <keyword>`; the bot lists the matching
meetings in a select menu (the *target* menu). Choosing one makes the
interaction handler acknowledge the choice and, in the background, look up
the meeting, plan search windows over the next eight calendar days (business
hours 10:00–19:00 on weekdays, the meeting's own date starting no earlier than
the current hour), ask Garoon for free slots in each window for the same
attendees and the rooms of the meeting room's group (minus the configured
excluded room codes), sort the slots by start time and room code, and post
them as a second menu. When the owner picks a slot, the meeting is moved to
that start, end and room.

The model covers the interaction handler (`handler.go`) and the chat listener
(`slack.go`):

| file | module | models |
|---|---|---|
| `wrappers.dfy` | `Wrappers` | `Option`, `Result` and the error values the handlers return or wrap |
| `text.dfy` | `Text` | `strings.Split`, `SplitN(…, 2)`, `Join`, `TrimSpace`, with their round trips |
| `clock.dfy` | `Clock` | instants as minutes, weekdays, hours, the token layout and the readable layout |
| `garoon.dfy` | `Garoon` | the Garoon entities and a client whose event store is updated in place |
| `slack_api.dfy` | `SlackApi` | the chat entities, the action names, and a client that records posted messages |
| `planner.dfy` | `Planner` | `buildTimeRanges` |
| `availability.dfy` | `Availability` | `buildAvailableTimeParameters`, the search loop, and the `AvailableTimes` sort order |
| `handler.dfy` | `Handler` | room substitution, the slot reply, the tokens, `updateEvent`, `ServeHTTP`, `asyncResponse` |
| `listener.dfy` | `Listener` | `handleMessageEvent`, `searchSchedules`, the target menu |

Modelling conventions:

- An instant is a whole number of minutes since 00:00 of day 0, and day 0 is a Sunday.
  The time zone is fixed, so calendar days are whole multiples of 1440 minutes.
- The current hour (`time.Now().Hour()`) is an explicit `nowHour` parameter.
- The token layout `2006-01-02T15:04:05-07:00` is modelled by `Clock.Stamp`, a decimal rendering of the instant that parses back exactly.
  A malformed token parses to the zero instant, as `time.Parse` with its error discarded does.
  The readable layout `2006-01-02 15:04` is `Clock.Readable`.
- The Garoon web API is a `Garoon.Client` object.
  - Its queries are fixed functions: free slots per query, rooms by name, rooms by group, and events by keyword.
  - Updates change its `events` map and are logged in `updates`.
  - Whether Garoon accepts an update is a fixed predicate of the event.
- The chat web API is a `SlackApi.Client` object.
  - `PostMessage` appends to `posts` when the fixed flag `delivers` holds, and otherwise returns an error.
- Go compares strings byte-wise on their UTF-8 encoding.
  This is code-point order, which `Availability.LexLess` uses.
- `ServeHTTP` is a function of the request method and the decoded callback.
  It returns what is written to the response and whether `asyncResponse` is started.
- An index that the Go code does without checking, and that panics when out of range, is a precondition.
  These are `Handler.ServeDecodable` and `Handler.AsyncDecodable`.

Behaviour of the code worth noting:

- A cancel click returns from `ServeHTTP` without writing a response and without starting `asyncResponse`.
  So the cancel branch of `asyncResponse` is never reached from `ServeHTTP`.
  It is still modelled for a direct call.
- The title for an empty search result is "Could not find a date to reschedule.".
- `setupAttachment` does not clear the controls for a user who is not the owner; it leaves them as they were.
  Only `asyncResponse` clearing them beforehand makes the reply read-only.
- The target menu's option value is the bare event ID, not an (ID, subject) pair.
  See Findings.

## Model

| member | source | states |
|---|---|---|
| `Text.Split` | handler.go:134 | every field is separator-free and there is at least one field |
| `Text.SplitJoin` | handler.go:134 | splitting fields that are joined by a separator they do not contain gives the fields back |
| `Text.JoinSplit` | handler.go:344 | joining the fields of a split with the separator gives the string back |
| `Text.SplitFirst` | handler.go:87 | `SplitN(s, sep, 2)`: one or two parts, two exactly when `s` holds the separator, the first separator-free, joined they give `s` |
| `Text.SplitFirstOfJoin` | handler.go:119 | `a + sep + b` with a separator-free `a` splits into exactly `[a, b]`, whatever `b` holds |
| `Text.TrimLeft` | slack.go:63 | a suffix of the input whose first character is not white space, after only white space |
| `Text.TrimRight` | slack.go:63 | a prefix of the input whose last character is not white space, before only white space |
| `Text.TrimSpace` | slack.go:63 | `strings.TrimSpace`: the result is the slice of the input left once its leading and trailing white space is cut off, so neither end is white space, and only an all-white-space input trims to empty |
| `Text.TrimSpaceKeeps` | slack.go:63 | a string whose ends are not white space is its own `TrimSpace` |
| `Text.ThreeFields` | slack.go:63-65 | a string that splits into three fields is those fields joined by the separator |
| `Clock.At` | handler.go:311-312 | the instant of a day and an hour has that day, that hour and minute 0 |
| `Clock.Weekday` | handler.go:296 | a weekday number below 7 |
| `Clock.DigitsRoundTrip` | handler.go:368-369 | reading the digits of `n` gives `n` |
| `Clock.ParseStamp` | handler.go:368-369 | `time.Parse` with its error discarded: a malformed token gives the zero instant, and a token written without leading zeros parses to the instant that writes it |
| `Clock.DigitsOfValue` | handler.go:90 | writing out the value of a digit run without leading zeros gives the run back |
| `Clock.StampRoundTrip` | handler.go:368-369 | parsing the token form of an instant gives the instant, and the token form holds no comma |
| `Clock.Readable` | handler.go:207 | the readable form holds neither a newline nor a comma |
| `Planner.WindowAt` | handler.go:295-313 | an offset gets a window exactly when its day is a weekday and, for the end date itself, the current hour is before 19:00; the window lies on that day and ends at 19:00 |
| `Planner.Plan` | handler.go:294-314 | the windows of the first `n` offsets in offset order, each offset contributing at most one, so at most `n` windows |
| `Planner.BuildTimeRanges` | handler.go:290-317 | the loop over offsets 0..7 returns exactly the plan `Plan(Day(end), nowHour, 8)` |
| `Planner.WindowAtShape` | handler.go:295-313 | a window, when there is one, is on its offset's day, a weekday, ends at 19:00, starts at 10:00 or, on the end date, at the later current hour, and starts before it ends |
| `Planner.PlanShape` | handler_test.go:33-37 | every planned window starts before it ends and is well shaped; at most one window per day offset, all within the searched days |
| `Planner.PlanOrdered` | handler.go:294-314 | windows come in strictly increasing day order |
| `Planner.PlanComplete` | handler.go:294-314 | every offset that gets a window has it in the plan |
| `Planner.PlanSkips` | handler.go:296-305 | each offset known to get no window lowers the bound on the plan's size |
| `Planner.AtMostSixWindows` | handler.go:294-298 | eight consecutive days contain a Saturday and a Sunday, so at most six windows |
| `Planner.PlanExtends` | handler.go:294-314 | planning more offsets only appends windows |
| `Planner.SundayMeetingStartsMonday` | handler_test.go:18-32 | for a meeting ending on a Sunday, planned at 10:00, the first window is the following Monday 10:00–19:00 |
| `Availability.Queries` | handler.go:267-288 | one query per planned window, in order, each over that window alone, with the meeting's duration, its attendees, the given rooms and the "OR" condition |
| `Availability.BuildAvailableTimeParameters` | handler.go:267-288 | the loop returns exactly `Queries` |
| `Availability.Gather` | handler.go:251-259 | the concatenated answers in query order, or the error of the first query that fails, every earlier query having succeeded |
| `Availability.GatherFacts` | handler.go:251-259 | the search succeeds exactly when every query does, and a slot is found exactly when some query's answer holds it |
| `Availability.SearchEach` | handler.go:251-259 | the loop returns the gathered result, issues queries in order, issues all on success, and on failure stops at the first failing query with the earlier ones succeeding |
| `Availability.GatherStep` | handler.go:252-258 | one successful query moves its answer into the accumulated prefix |
| `Availability.LexLess` | handler.go:39 | Go's `<` on room codes, character by character in code-point order: only distinct strings are ordered, and a proper prefix sorts first |
| `Availability.Less` | handler.go:37-42 | `AvailableTimes.Less`: an earlier start sorts first; a slot never sorts before one that starts earlier; equal starts are ordered by room code, so equal starts and equal codes are not ordered |
| `Availability.LexLessIrreflexive` | handler.go:39 | no room code sorts before itself |
| `Availability.LexLessTransitive` | handler.go:39 | room-code order is transitive |
| `Availability.LexLessTotal` | handler.go:39 | of two distinct room codes one sorts first |
| `Availability.LessAsymmetric` | handler.go:37-42 | a slot that sorts before another is not after it |
| `Availability.NotAfterTransitive` | handler.go:37-42 | the slot order is transitive |
| `Availability.SortedNeighbours` | handler.go:261-262 | in a sorted result each slot starts earlier than the next, or at the same time in a room whose code does not sort after the next one's |
| `Availability.Swap` | handler.go:33-35 | exchanges two slots in place and keeps the multiset |
| `Availability.SortAvailableTimes` | handler.go:261-262 | sorts the slots in place by start and then room code, as a permutation |
| `Handler.Exclude` | handler.go:343-356 | a room is kept exactly when it is in the group and its code is not excluded |
| `Handler.ExcludeAppend` | handler.go:346-356 | filtering works room by room, in order |
| `Handler.FilterFacilities` | handler.go:343-356 | the nested loops return exactly `Exclude` |
| `Handler.EmptySettingDropsUncodedRooms` | handler.go:344 | an empty exclusion setting splits into one empty code, so only rooms without a code are dropped |
| `Handler.OwnGroupFacilities` | handler.go:319-359 | none for a meeting without rooms; otherwise the rooms of the first room's group minus the excluded codes, and each error path with its message |
| `Handler.InteractionHandler.GetFacilitiesFromOwnFacilityGroup` | handler.go:319-359 | the method returns exactly `OwnGroupFacilities` over the client's queries |
| `Handler.InteractionHandler.SearchAvailableTimes` | handler.go:238-265 | either the first error, or every slot of every window's answer, sorted, as a permutation |
| `Handler.SlotOptions` | handler.go:208-211 | one menu entry per slot: its readable start and room name, and its token |
| `Handler.ListingAppend` | handler.go:207 | the listing grows by one line per slot |
| `Handler.ListingSplits` | handler.go:203-213 | split at newlines, the listing gives one line per slot in order, when no room name holds a newline |
| `Handler.TimeToken` | handler.go:210 | the selectTime token "ID,start,end,roomID"; when the event ID and the room ID hold no comma it splits back into exactly those four values, as handler.go:134-136 reads them |
| `Handler.Rescheduled` | handler.go:367-374 | the event gets the parsed start and end and a single room with the given ID; every other field is kept |
| `Handler.ChosenSlotIsApplied` | handler.go:134-136 | choosing a slot's entry reschedules that meeting to exactly the slot's start, end and room |
| `Handler.RenderAvailableTimes` | handler.go:200-213 | the loop returns the listing and the menu entries |
| `Handler.InteractionHandler.SetupAttachment` | handler.go:176-236 | all-day and start-only meetings and several rooms get their titles; search errors leave the reply; no slots gets its title; otherwise the listing, with the menu and cancel button for the owner and a count title for anyone else, whose controls stay as they were |
| `Handler.InteractionHandler.UpdateEvent` | handler.go:361-382 | a missing event or a refused update gives its error and leaves the stored events as they were; otherwise exactly the rescheduled event is sent and, when accepted, stored under its ID with every other event unchanged |
| `Handler.Acknowledgement` | handler.go:164-170 | the first attachment (an empty one when missing) is kept as it was, callback ID and fields included, except that its controls are dropped and its text replaced; the rest of the message is kept |
| `Handler.Cleared` | handler.go:110-114 | title, text, fields and controls emptied, the callback ID kept |
| `Handler.AckText` | handler.go:86-91 | the acknowledgement text; for a chosen meeting it shows the whole value after the event ID and its comma |
| `Handler.InteractionHandler.ServeHTTP` | handler.go:44-103 | 405 for other methods, 401 for a wrong token, an acknowledgement and background work exactly for the two select actions, the acknowledgement being the original message echoed back with replace-original and in-channel set and `responseMessage`'s changes, nothing written for cancel or an unknown action |
| `Handler.SlotChoiceIsServed` | handler.go:89-91 | a callback choosing a slot's entry is decoded without panic, and its acknowledgement shows the slot's readable start |
| `Handler.InteractionHandler.AsyncResponse` | handler.go:105-160 | at most one post to the callback's channel; no update and no controls for a user who is not the owner; "not permitted" for such a user's slot choice; for the owner, the rescheduled meeting replaces the chosen ID's entry with every other event unchanged, and "rescheduled" is posted, only when the update is accepted; cancel posts "@name canceled."; nothing for an unknown action, a missing meeting or a message without attachments |
| `Handler.InteractionHandler.ShowChosenTarget` | handler.go:117-127 | a meeting that cannot be found leaves the reply unposted and untouched; an all-day or start-only meeting gets the no-end title and is posted; the controls stay as they were for a user who is not the owner |
| `Handler.InteractionHandler.MoveToChosenTime` | handler.go:128-140 | anyone but the owner gets "not permitted" and nothing changes in the calendar; for the owner, a missing meeting posts nothing, and otherwise the rescheduled meeting is sent, stored under the chosen ID with every other event unchanged when accepted, and the reply titled "rescheduled" exactly then |
| `Listener.ParseCommand` | slack.go:49-65 | a message is ignored exactly when it does not start with the mention or comes from another channel than the configured one; a search keyword holds no space |
| `Listener.Words` | slack.go:63 | the words of the trimmed message after the first, each free of spaces |
| `Listener.Interpret` | slack.go:65-72 | exactly two words, the first "search", make a search for the second; anything else gets the usage hint |
| `Listener.AcceptedShape` | slack.go:63-65 | an accepted message is, trimmed, one word, " search " and the keyword |
| `Listener.MentionedSearchIsAccepted` | slack.go:51-72 | "<@bot> search kw" in the configured channel is a search for kw, for a one-word kw that does not end in white space |
| `Listener.WordsOf` | slack.go:63 | the words after the first of "head verb arg" are [verb, arg] |
| `Listener.TargetOption` | slack.go:118-121 | one meeting's entry as written: its value holds the comma the handler splits on only when the event ID itself does |
| `Listener.TargetMenu` | slack.go:116-122 | one entry per found meeting, in order, showing its readable start and subject, valued with its ID |
| `Listener.TargetAttachment` | slack.go:125-142 | the target title and callback ID, then the select menu of meetings and the cancel button |
| `Listener.SlackListener.SearchSchedules` | slack.go:96-111 | the meetings matching the keyword, or the search error wrapped as "failed to search schedules" |
| `Listener.SlackListener.SetupAttachment` | slack.go:113-145 | the loop builds exactly the target reply |
| `Listener.SlackListener.HandleMessageEvent` | slack.go:49-94 | nothing for ignored messages; the usage hint for other shapes; a search error without a post; otherwise one target reply; a failed post becomes an error |
| `Listener.SlackListener.Reply` | slack.go:60-93 | for the words after the mention: the usage hint, or the search error without a post, or the target reply; a failed post becomes an error |
| `Listener.AsWrittenTargetChoiceIsUndecodable` | slack.go:120 | choosing a meeting whose ID holds no comma gives a callback that `ServeHTTP` cannot decode |
| `Listener.CorrectedTargetChoiceIsServed` | handler.go:87-88 | with the corrected token a choice is decoded, the acknowledgement shows the subject, and the follow-up looks up the meeting's ID |

## Left out

- Reading the request body, URL-unescaping it, JSON decoding and the three 500 responses (handler.go:51-70): I/O and parsing of wire formats.
  `ServeHTTP` starts from the decoded callback.
- Logging, the goroutine that runs `asyncResponse`, and the real-time connection loop `ListenAndResponse` (slack.go:29-46).
  These are I/O and concurrency; their only effect in the model is that `asyncResponse` and `handleMessageEvent` are called.
- `main.go`: configuration and start-up.
- The reply colours, the button style, the `excludeFromSearch`, `rangeStart` and `orderBy` search parameters (slack.go:99-103): only the keyword and the answer are modelled.
- Calendar arithmetic of `time.Date`, months, leap years and time zones.
  Days are fixed 1440-minute blocks in one zone, and the layouts are replaced by `Clock.Stamp` and `Clock.Readable`.
- `%2.0f` formatting of the interval (handler.go:279): the interval is the whole number of minutes.
- Unicode beyond code points: no normalisation or case folding.
- `AvailableTimes.Len` is the length of the slice and needs no model of its own.
- `Garoon.Client.FindEvent`: errors other than a missing event ID are not modelled.
- `Handler.InteractionHandler.ShowChosenTarget`: for a found meeting that is neither all-day nor start-only, its contract states only that a user who is not the owner keeps the controls as they were; the full reply is `SetupAttachment`'s contract and is not repeated.
- `Handler.InteractionHandler.AsyncResponse`: for a selectTarget choice whose meeting is found, the post is stated only through `SetupAttachment`'s contract (at most one post, no update, no controls for a user who is not the owner), not as the exact reply.
- `Listener.SlackListener.SetupAttachment` keeps the bare event ID as written; the corrected token is `Listener.CorrectedTargetOption`.

## Findings

| source | as written | input that shows it | evidently intended | confidence | as-written member | corrected member |
|---|---|---|---|---|---|---|
| slack.go:120 with handler.go:87 | the target menu's value is the bare event ID, but `ServeHTTP` takes `SplitN(value, ",", 2)[1]` as the subject, which panics (index out of range) when there is no comma | choosing any meeting whose ID holds no comma, e.g. ID "42" | the value is "ID,subject", which the handler splits into the ID to look up and the subject to acknowledge | not executed | `Listener.AsWrittenTargetChoiceIsUndecodable` | `Listener.CorrectedTargetChoiceIsServed` |
