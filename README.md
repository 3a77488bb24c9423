# Channel relay bot: configuration, relay check and content mapping

`bot.py` is a Telegram bot that copies posts from a list of source channels
into one destination channel. Operators configure it with text commands
(`/setsource`, `/setdestination`, `/startcopy`, `/stopcopy`,
`/removesource`, `/removedestination`). The message handler
`handle_messages` is registered for eight content types. For each message
the library hands it, it decides whether to relay the post and, if so,
issues one `send_*` call with the same content. Which updates reach the
handler is decided by the library. Audio and
document posts get a synthesized caption.

This project models that logic in Dafny:

- `wrappers.dfy`: `Option`, used for Python's `None`.
- `python.dfy` (module `Python`): the Python semantics the bot relies on.
  - truthiness of `str`/`int`/`None`;
  - `x or ''` and `str(x)` in f-strings;
  - `int(token)` as an optional sign followed by decimal digits, with its
    inverse `str(n)` and a round-trip proof.
- `commands.dfy` (module `Commands`): the three globals as a `Config`
  record. `Apply` is the pure state machine for the six commands. Its
  replies are a success acknowledgement, a usage error, or the
  "channel ids not set" precondition error. The module also has lemmas for
  every command and for sequences of commands (`Run`).
- `relay.dfy` (module `Relay`): the `Message` datatype with optional
  fields, the relay predicate `ShouldRelay`, the first-match content mapper
  `MapContent`, the caption builders `AudioCaption` and `DocumentCaption`,
  and `Handle`, the outcome of one call of the handler.
- `bot_state.dfy` (module `BotState`): class `Bot` holds the configuration
  in place. Each command handler is a method with `modifies this`, proved
  against `Commands.Apply`. `HandleMessage` reads the configuration and
  changes nothing.

Commands and messages are applied one at a time, in sequence.

Where the code behaves surprisingly, the model follows the code:

- The sources are a list. Order and duplicates are kept.
- `/setsource` with no ids succeeds and empties the list.
- A destination of `0` counts as unset, because `check_channel_ids` tests
  truthiness.
- A failed `/startcopy` keeps the previous value of the flag, which may
  already be true.
- `/removesource` and `/removedestination` leave copying enabled.
  `Commands.EnabledWithoutDestination` shows a reachable enabled state with
  no destination.
- The relay check never looks at the destination. Posts are then sent to
  `chat_id=None` (`Relay.SendsWithoutDestination`).
- The audio caption always contains the `**` markers and `" - "`, even when
  the performer or title is missing.
- The document caption prints a missing file name as `None`.
- `/setdestination` ignores tokens after the first.

## Model

| member | source | states |
|---|---|---|
| Python.OrEmpty | bot.py:160 | `x or ''` is the string itself when truthy and `""` otherwise |
| Python.Str | bot.py:166 | an f-string hole prints a present string unchanged and `None` as the text `None` |
| Python.ParseInt | bot.py:85 | `int()` accepts a token exactly when its first character is a digit, or a sign followed by at least one more character, and the rest are all digits; a negative result needs a leading `-` |
| Python.StrTruthy | bot.py:145 | a string field is false exactly when it is `None` or `''` |
| Python.IntTruthy | bot.py:19 | the destination is false exactly when it is `None` or `0` |
| Python.ShowInt | bot.py:86 | `str(n)` starts with `-` exactly for negative numbers, followed by digits with no leading zero unless the number is 0 |
| Python.ParseSigned | bot.py:85 | an optional sign followed by digits parses to the digits' value, negated for `-` |
| Python.ParseShowRoundTrip | bot.py:85-86 | the id echoed in a reply, parsed again, is the id stored: `int(str(n)) == n` for every integer |
| Python.ParseIntRejects | bot.py:84-88 | any character that is not a digit and not a leading sign makes `int()` raise `ValueError` |
| Python.ParseIntNeedsDigit | bot.py:84-88 | the empty token and a bare sign are not integers |
| Python.ParseIntLenient | bot.py:85 | like `int()`, no sign, `+` or `-` followed by any number of leading zeros and a number gives that number with the sign applied (`-007` is -7) |
| Commands.ParseIds | bot.py:73-74 | the list comprehension succeeds exactly when every token is an integer, and then yields one id per token, in order |
| Commands.ChannelIdsSet | bot.py:17-22 | `check_channel_ids` holds exactly when the source list is non-empty and the destination is neither `None` nor `0` |
| Commands.JoinInts | bot.py:75 | the ids printed by `str`: empty exactly for no ids, a single id printed alone |
| Commands.JoinConcat | bot.py:75 | printing two non-empty id lists joined by `, ` prints their concatenation, so every id appears in order separated by `, ` |
| Commands.JoinIntsHead | bot.py:75 | (corollary of `JoinConcat`) a printed id list starts with the first id, followed by `, ` when more ids follow |
| Commands.ListRepr | bot.py:75 | Python's list `repr` is the printed ids between `[` and `]`, and is `[]` exactly for the empty list |
| Commands.ReplyText | bot.py:20-121 | the `/setsource` reply ends with the list `repr` of the ids set, the `/setdestination` reply ends with `str` of the id, and both usage replies start with `Usage: /` |
| Commands.Apply | bot.py:70-121 | each global is written only by its own commands, and an error reply leaves the whole configuration untouched |
| Commands.SetSourceReplaces | bot.py:73-75 | all-numeric `/setsource` replaces the list by exactly those ids, in order with duplicates, and leaves the other fields alone |
| Commands.SetSourceNoIds | bot.py:73-75 | `/setsource` with no ids succeeds and empties the list |
| Commands.SetSourceUsageError | bot.py:74-77 | one non-numeric token makes `/setsource` a usage error that changes nothing |
| Commands.SetDestinationSpec | bot.py:84-88 | `/setdestination` fails, changing nothing, exactly when its first token is missing or not an integer; otherwise only the destination changes, to that integer |
| Commands.DestinationReplyReadable | bot.py:85-86 | the success reply of `/setdestination` ends with the stored id in a form `int()` reads back |
| Commands.StartCopySpec | bot.py:93-97 | `/startcopy` replies `Started` when sources are non-empty and the destination is truthy, and the channel-ids precondition error otherwise; the flag becomes `old flag or check`; nothing else changes |
| Commands.StartCopyRejectsZero | bot.py:17-22 | a destination of `0` makes `check_channel_ids` fail |
| Commands.ResetSpec | bot.py:102-121 | `/stopcopy`, `/removesource` and `/removedestination` always succeed with their own acknowledgement, reset exactly their own field to `False`, `[]` or `None`, and are idempotent |
| Commands.RemovalKeepsCopying | bot.py:108-121 | removing sources or destination leaves copying enabled in a state that fails `check_channel_ids` |
| Commands.EnabledOnlyAfterStart | bot.py:93-97 | in any run of commands, copying becomes enabled only through a `/startcopy` issued while `check_channel_ids` held |
| Commands.EnabledWithoutDestination | bot.py:116-121 | set source, set destination, start, remove destination ends enabled with no destination |
| Relay.Handled | bot.py:137 | the handler's content-type filter admits exactly the type names of the eight kinds it dispatches |
| Relay.ShouldRelay | bot.py:141-142 | a post is relayed exactly when copying is on, its chat type is `'channel'` and it has a sender chat whose id is in the (hence non-empty) source list |
| Relay.SourcePostActedOn | bot.py:141-146 | a handled post meeting the four conditions is never dropped |
| Relay.SourcePostRelayed | bot.py:141-146 | a text post from a listed channel while copying is on is sent as that text to the stored destination, posted or failed as the send goes |
| Relay.AudioCaption | bot.py:160 | the audio caption is absent exactly when performer, title and caption are all falsy; otherwise its length is 9 plus the three parts |
| Relay.DocumentCaption | bot.py:166 | the document caption is absent exactly when file name and caption are both falsy; otherwise its length is 6 plus the printed name and the caption |
| Relay.MapContent | bot.py:145-177 | no request exactly when no content field is truthy; otherwise one request to the destination, of the first truthy kind in the fixed order, carrying that kind's payload |
| Relay.Handle | bot.py:138-181 | a message is acted on exactly when its type is handled and the relay check holds; it sends nothing exactly when no content field is truthy; otherwise the request is `MapContent`'s first match, addressed to the stored destination, and fails exactly when the send raises |
| Relay.DisabledSendsNothing | bot.py:141 | with copying disabled nothing is sent |
| Relay.OtherSendersDropped | bot.py:141-142 | a post without a sender chat, or from a sender chat not in the source list, is dropped |
| Relay.OnlyChannelPosts | bot.py:141 | a post whose chat type is not `'channel'` is dropped |
| Relay.RelayIgnoresDestination | bot.py:141-142 | the relay decision is the same whatever the destination, including unset |
| Relay.SendsWithoutDestination | bot.py:141-146 | after `/removedestination` while copying, a relayable post is still handed to the send call, addressed to `chat_id=None`, whether or not that call fails |
| Relay.TextVerbatim | bot.py:145-146 | truthy text is sent verbatim, whatever other fields the message has |
| Relay.PhotoLargestSize | bot.py:147-150 | a photo is sent as the last entry of its size list, with the caption unchanged |
| Relay.NoCaptionKinds | bot.py:168-177 | when a sticker or video note is sent, the message's caption has no effect on the request |
| Relay.FirstMatchWins | bot.py:145-177 | of two truthy fields, the later one in the dispatch order is never the one sent |
| Relay.AudioCaptionLayout | bot.py:160 | a present audio caption is `**`, performer or empty, ` - `, title or empty, `**`, a blank line, then the caption or empty |
| Relay.AudioCaptionTitleOnly | bot.py:160 | with only a title the caption still starts `** - ` |
| Relay.AudioCaptionNoCaption | bot.py:160 | performer and title without caption give `**performer - title**` and a trailing blank line |
| Relay.DocumentCaptionLayout | bot.py:166 | a present document caption is the bold printed file name, a blank line, then the caption or empty |
| Relay.DocumentCaptionMissingName | bot.py:166 | a captioned document without a file name is captioned `**None**` |
| BotState.Bot.constructor | bot.py:11-13 | the globals start as an empty list, `None` and `False` |
| BotState.Bot.SetSource | bot.py:70-77 | the new state and reply are those of `Apply`; on a usage error the state is unchanged |
| BotState.Bot.SetDestination | bot.py:82-88 | the new state and reply are those of `Apply`; the reply is an error exactly when the first token is missing or not an integer |
| BotState.Bot.StartCopy | bot.py:93-97 | the new state and reply are those of `Apply`; the flag becomes `old flag or check` |
| BotState.Bot.StopCopy | bot.py:102-105 | only the flag changes, to false |
| BotState.Bot.RemoveSource | bot.py:110-113 | only the source list changes, to empty |
| BotState.Bot.RemoveDestination | bot.py:118-121 | only the destination changes, to `None` |
| BotState.Bot.HandleMessage | bot.py:138-181 | the outcome is `Handle` of the current configuration; a successful send carries the mapped request; the configuration is not modified |
| BotState.FailureIsolated | bot.py:143-181 | a failed send changes nothing, so the same message delivered again is posted normally |

## Left out

- The Telegram library: `bot.reply_to`, the `bot.send_*` calls and `bot.polling`. A reply is modelled as the `Reply` value and its text (`Commands.ReplyText`). A send is modelled as the `OutboundRequest` it would make. Whether it raises is a parameter (`sendFails`).
- Routing of updates to handlers is done by the library and is not modelled. This includes which update kinds (ordinary messages or channel posts) reach `handle_messages` and command handlers taking precedence. The model takes as given that a message reaching the handler may come from a chat of type `'channel'`, as the handler's own test presumes. Only the handler's content-type filter is modelled (`Relay.Handled`).
- Reading `BOT_TOKEN` from the environment and the console `print` logging. They have no behaviour to specify.
- `/start`, `/help` and `/status`. They only display fixed text or the state. `/status` prints a falsy list or destination as `None`.
- Concurrency. The code has no locking. Commands and messages are treated as applied one at a time.
- Python.ParseInt: does not accept surrounding whitespace, underscores between digits or non-ASCII digits, which `int()` also accepts. Tokens come from `split()`, so they never contain whitespace.
- Splitting of the command text. Commands take the tokens after the command word, `message.text.split()[1:]`.
- Library objects (`Video`, `Audio`, `Document`, ...) are treated as truthy whenever present. The photo size list is truthy when non-empty.
