# Relay engine of the Bedrock realm / Discord bridge

The bridge connects a Discord bot to a Minecraft Bedrock realm. It relays
chat between them, announces players as they join and leave, kicks players
on banned devices or on a block list, and reconnects when the game session
drops. The repository holds two diverging versions of it, `index.js` and
`client.js`. This project models the relay engine of each version
as its own state machine.

For each version there are two modules:

- The value model (`IndexRelay`, `ClientRelay`) is a `State` datatype plus
  one function per handler, from the old state to the new one. `Step` and
  `Run` replay any stream of events.
- The engine (`IndexEngine.Relay`, `ClientEngine.Relay`) is a class whose
  fields are the program's module-level variables:
  - the `playerNames`, `joinTimes` and `messageCounts` maps;
  - the `autoKickList` set, and the `flaggedForSpam` set (index.js only);
  - `reconnectAttempts`, and whether `mcClient` is set.

  Its methods update those fields in place, looping over the records of a
  `player_list` packet as the `forEach` does. Each method is proved to leave
  the object exactly in the state the matching function computes.

What the engine sends out is appended to sequences:

- embeds for the relay channel;
- `command_request` commands queued on the game client (index.js), or
  `kick_player` packets written to it (client.js);
- `playerLog` entries (index.js);
- replies to operator commands.

`Date.now()` is the `now` field of each record. A `setTimeout(startChatRelay)`
is a pair of counters: retries pending and retries scheduled. Whether
`createClient` returned or threw is the `created` argument.

Module `Js` states the JavaScript built-ins the engine relies on:

- string truthiness;
- `startsWith` and `includes`;
- ECMAScript `trim`;
- `split(' ')`;
- a `Map` that keeps insertion order, so that
  `Array.from(playerNames.values()).pop()` means "the name inserted last".

The code behaves as follows, which a reader might not expect; the model
follows the code and the lemmas say what it does:

- A successful connection does not reset `reconnectAttempts` in either
  file.
- The allow-list (`whitelistedPlayers`) is never consulted, so it exempts
  no one from a kick.
- `flaggedForSpam` is keyed by user name, not by uuid.
- In index.js, `!leave` resets the counter to 0. In client.js it sets the
  counter to the limit.
- A retry already scheduled survives `!leave` in both files
  (`LeaveDoesNotCancelRetry`).
- The rapid connect/disconnect alert can never fire in either file. A
  removal deletes the uuid from `joinTimes` together with `playerNames`, so
  a uuid with a previous join time is always a duplicate, and duplicates
  are skipped before the check (`IndexRelay.RapidAlertNeverSent`,
  `ClientRelay.RetriesBoundedFromStart`).

## Model

| member | source | states |
|---|---|---|
| Js.IncludesIffOccurs | index.js:307 | the left-to-right scan used for `includes` succeeds exactly when the needle occurs at some position of the string |
| Js.TrimOfPadded | index.js:206 | `trim` returns the text between any leading and trailing ECMAScript white space, provided that text neither starts nor ends with white space |
| Js.SplitJoin | index.js:124 | joining the fields of `split(' ')` with single spaces gives the original string back, so splitting loses nothing |
| Js.SecondField | index.js:124-125 | `split(' ').slice(1)[0]` is `undefined` exactly when the string has no space, and otherwise is the first field of the text after the first space: a word without spaces |
| Js.OrderedMap.Set | index.js:370 | `set` stores the value under the key; a new key goes to the end of the insertion order, and an existing key keeps its place; well-formedness is kept |
| Js.OrderedMap.Delete | index.js:399 | `delete` removes exactly that key from the entries and its one position from the order, the other keys keeping their insertion order; deleting an absent key leaves the map unchanged |
| Js.DeleteKeepsLast | index.js:399 | deleting any key but the one inserted last leaves `Array.from(values()).pop()` as it was |
| Js.OrderedMap.Last | index.js:277 | `Array.from(values()).pop()` is `undefined` exactly for an empty map, and otherwise is the value of the key inserted last |
| IndexRelay.Init | index.js:65-72 | start-up state: the three player maps, the kick list and the spam flags are empty, counter 0, no client, no retry pending, the prefix and log as loaded, no rapid alert; the reachable-state invariant holds |
| IndexRelay.DeviceNameTable | index.js:428-448 | `getDeviceName` is total: codes 0..15 have their own names (read back by `PlatformOf`), 7 is "Windows x64", 0 is "Unknown", and every other value is "Other" |
| IndexRelay.CheckAndKickPlayer | index.js:480-504 | one kick embed, one `/kick <name> You are not allowed to play on this realm.` command and the uuid in `autoKickList` if and only if the device is banned or the name is blocked; otherwise nothing changes |
| IndexRelay.PlayerAdded | index.js:333-373 | a uuid already tracked leaves the state unchanged; a fresh uuid gets one join embed, one `/me §e<name>§r joined on §a<device>§r` command, one join log entry, name and join time stored, the kick check, and is set in the name map after the other names, which keep their values and order; the invariant holds and no rapid alert is sent |
| IndexRelay.PlayersAdded | index.js:332-374 | a batch adds exactly its uuids to the tracked set and keeps connection state and spam flags; a batch of known uuids changes nothing; the invariant holds |
| IndexRelay.RepeatedJoinCountsOnce | index.js:338-341 | a batch repeating one uuid has exactly the effect of its first record |
| IndexRelay.FlagsCleared | index.js:318-323 | the first listener clears exactly the truthy tracked names of the batch's uuids |
| IndexRelay.PlayerRemoved | index.js:377-402 | an untracked uuid, or one tracked under a falsy name, changes nothing; a uuid tracked under a truthy name is deleted from all three maps (the other names keep their order) with one leave embed, one leave log entry and one `/me … left the realm` command; the invariant holds |
| IndexRelay.PlayersRemovedEach | index.js:376-404 | the main listener's batch forgets exactly the listed uuids that have truthy names, and keeps the other names unchanged |
| IndexRelay.PlayersRemoved | index.js:314-407 | a remove packet first clears the spam flags of the leaving names, looked up before deletion, and then removes the players; an untracked batch changes nothing |
| IndexRelay.SpamSender | index.js:277-282 | the user a spam line is blamed on is the truthy `source_name`; without one it is the name of the uuid inserted last, when that name is truthy; there is none otherwise, and none for an empty map |
| IndexRelay.RemovalKeepsSpamSuspect | index.js:277-282 | a leave of anyone but the player who joined last does not change whom an External line is blamed on |
| IndexRelay.ChatRelayed | index.js:256-273 | an ordinary chat line adds exactly one relayed `<source> > <message>` embed and clears `connected` exactly when the trimmed message is `-leave`; nothing else changes |
| IndexRelay.SpamFlagged | index.js:276-304 | with no truthy sender (the source name, else the last-inserted player) nothing changes; otherwise the sender is flagged, and reported exactly when it was not flagged before; nothing else changes |
| IndexRelay.TextReceived | index.js:250-311 | normal chat is relayed as `<source> > <message>`, and a trimmed `-leave` drops the client; an External line notifies only when its sender is not yet flagged and then flags it; a translation containing "death" is forwarded; a `chat` packet with an empty message and any other packet type change nothing |
| IndexRelay.SpamNotifiedOnce | index.js:284-290 | for a sender that resolves and is not yet flagged, any number (at least one) of repeats of one External line give exactly one anti-spam embed |
| IndexRelay.Disconnect | index.js:409-418 | each `disconnect` adds one to the counter and schedules a retry exactly when the new value is at most `maxReconnectAttempts` |
| IndexRelay.StartChatRelay | index.js:236-248 | a created client becomes current with an empty spam-flag set; a failed creation changes nothing; the counter is untouched |
| IndexRelay.RetryElapsed | index.js:414 | a fired timer uses up one pending retry and runs `startChatRelay` |
| IndexRelay.JoinCommand | index.js:153-160 | `!join` starts the relay only without a client, and replies "Connected" even if creation failed; with a client it only replies "already connected" |
| IndexRelay.LeaveCommand | index.js:162-177 | `!leave` acts only with a client: drops it, resets the counter to 0, clears the four collections and keeps pending retries; the log, the prefix, the embeds, the commands and the scheduled-retry count stay as they were; without a client it only replies |
| IndexRelay.SayCommand | index.js:201-223 | `!say` needs a client and non-blank trimmed text, and then queues `/me <text>` |
| IndexRelay.PrefixCommandAsWritten | index.js:123-137 | as written, the prefix never changes: a valid word (non-empty, at most 3 characters) changes nothing at all because the assignment to a `const` throws before the reply, and a missing or too long word gets exactly the error reply of the intended `PrefixCommand` |
| IndexRelay.PrefixAsWrittenIgnoresValidPrefix | index.js:135 | the valid request `!prefix ?` changes nothing and gets no reply |
| IndexRelay.PrefixCommand | index.js:123-137 | as intended, the word after the command becomes the prefix exactly when it is non-empty and at most 3 characters long, with its reply; otherwise the matching error reply is sent |
| IndexRelay.Step | index.js:236-426 | every event keeps the invariant (`joinTimes` keys equal `playerNames` keys) and never sends a rapid alert; only `!leave` lowers the counter |
| IndexRelay.GameStep | index.js:250-405 | a realm packet arriving with no client set changes nothing; any realm packet keeps the invariant, sends no rapid alert and leaves the attempt counter and the scheduled retries as they were |
| IndexRelay.ControlStep | index.js:113-418 | start-up, `disconnect`, a retry firing and the operator commands keep the invariant and send no rapid alert; only `!leave` lowers the counter |
| IndexRelay.TextCommandStep | index.js:123-223 | `!say` and `!prefix` run `SayCommand`/`PrefixCommand` exactly when the message starts with the current prefix and the command's name, and otherwise change nothing; both keep the invariant and leave the connection, the retry counters, the tracked players and the embeds as they were |
| IndexRelay.RapidAlertNeverSent | index.js:338-349 | from start-up, whatever events arrive, the rapid connect/disconnect alert is never sent |
| IndexRelay.Run | index.js:236-426 | event streams keep the invariant and never send a rapid alert |
| IndexRelay.RetriesBounded | index.js:409-418 | without `!leave`, the counter never falls, and retries scheduled from a state grow by at most the remaining budget up to `maxReconnectAttempts` |
| IndexRelay.RetriesBoundedFromStart | index.js:409-418 | from start-up without `!leave`, at most `maxReconnectAttempts` retries are scheduled, however often connections succeed |
| IndexRelay.LeaveDoesNotCancelRetry | index.js:162-177 | after `!leave` a pending retry is still pending, and when it fires it creates a client again |
| IndexEngine.Relay.constructor | index.js:65-72 | the object starts in `Init`, with the log as loaded |
| IndexEngine.Relay.LogPlayerJoin | index.js:16-25 | appends one join entry with the device |
| IndexEngine.Relay.LogPlayerLeave | index.js:28-37 | appends one leave entry; the handler passes no device |
| IndexEngine.Relay.CheckAndKick | index.js:480-504 | leaves the object in `CheckAndKickPlayer`'s state and changes only the three fields it names |
| IndexEngine.Relay.OnPlayerAdded | index.js:333-373 | one `forEach` callback leaves the object in `PlayerAdded`'s state |
| IndexEngine.Relay.RecordJoin | index.js:343-371 | the callback up to the kick check leaves the object in `JoinRecorded`'s state |
| IndexEngine.Relay.AnnounceJoin | index.js:343-368 | the rapid-rejoin test, the join embed, the log entry and the `/me` command, as `JoinAnnounced` |
| IndexEngine.Relay.StoreJoin | index.js:370-371 | the name and the join time stored, as `JoinStored` |
| IndexEngine.Relay.OnPlayersAdded | index.js:332-374 | the loop over the batch leaves the object in `PlayersAdded`'s state and keeps the invariant |
| IndexEngine.Relay.ClearSpamFlags | index.js:314-327 | the first listener's loop changes only `flaggedForSpam`, removing `FlagsCleared` |
| IndexEngine.Relay.OnPlayerRemoved | index.js:377-403 | one `forEach` callback leaves the object in `PlayerRemoved`'s state |
| IndexEngine.Relay.AnnounceLeave | index.js:380-397 | the leave embed, the log entry and the `/me` command, as `LeaveAnnounced` |
| IndexEngine.Relay.ForgetPlayer | index.js:399-401 | the uuid removed from the three maps, as `LeaveForgotten` |
| IndexEngine.Relay.OnPlayersRemoved | index.js:314-407 | both listeners, in registration order, leave the object in `PlayersRemoved`'s state |
| IndexEngine.Relay.OnText | index.js:250-311 | leaves the object in `TextReceived`'s state |
| IndexEngine.Relay.RelayChat | index.js:256-273 | leaves the object in `ChatRelayed`'s state |
| IndexEngine.Relay.FlagSpam | index.js:276-304 | leaves the object in `SpamFlagged`'s state |
| IndexEngine.Relay.OnDisconnect | index.js:409-418 | leaves the object in `Disconnect`'s state |
| IndexEngine.Relay.StartRelay | index.js:236-248 | leaves the object in `StartChatRelay`'s state |
| IndexEngine.Relay.OnRetryElapsed | index.js:414 | leaves the object in `RetryElapsed`'s state |
| IndexEngine.Relay.Join | index.js:153-160 | leaves the object in `JoinCommand`'s state |
| IndexEngine.Relay.Leave | index.js:162-177 | leaves the object in `LeaveCommand`'s state |
| IndexEngine.Relay.Say | index.js:201-223 | leaves the object in `SayCommand`'s state |
| IndexEngine.Relay.Prefix | index.js:123-137 | leaves the object in the corrected `PrefixCommand`'s state |
| IndexEngine.Relay.Handle | index.js:236-426 | any event leaves the object in `Step`'s state, so every lemma about `Run` holds of the object |
| IndexEngine.Relay.HandleGame | index.js:250-405 | a realm packet leaves the object in `GameStep`'s state and keeps the invariant |
| IndexEngine.Relay.HandleControl | index.js:113-418 | a lifecycle event or a command leaves the object in `ControlStep`'s state and keeps the invariant |
| ClientRelay.DeviceNameTable | client.js:282-294 | 7 is "Windows", 1..6 are iOS, Android, PlayStation, Switch, Xbox and Linux (read back by `PlatformOf`), and every other code, 0 included, is "Unknown" |
| ClientRelay.IsValidRealmCode | client.js:106-108 | a realm code is valid if and only if it is exactly 15 characters long and every character is in `[A-Za-z0-9]` |
| ClientRelay.AlphanumericRunIff | client.js:107 | the anchored quantifier `[A-Za-z0-9]{n}$` matches exactly the strings of length n made of letters and digits |
| ClientRelay.Init | client.js:6-17 | start-up state: the three player maps and the kick list are empty, counter 0, no client, no retry pending; the invariant holds |
| ClientRelay.KickPackets | client.js:260-272 | one `kick_player` packet per list the player is on, all for its uuid: "Banned Device" iff the device is banned, "Blocked Player" iff the name is blocked, in that order when both apply |
| ClientRelay.KickNotifications | client.js:260-272 | one kick embed per list the player is on, the device one iff the device is banned, the block one iff the name is blocked; when both apply, the device embed comes first |
| ClientRelay.CheckAndKickPlayer | client.js:260-272 | appends exactly those packets and embeds, and changes nothing else |
| ClientRelay.SourceBannedDeviceNeverMatches | client.js:11 | with the declared list `{'Device'}` the device check never fires, since `getDeviceName` never returns "Device" |
| ClientRelay.BotAlert | client.js:207-210 | the "Possible Bot!" embed is sent if and only if the device is "Windows" |
| ClientRelay.PlayerAdded | client.js:173-211 | a uuid already tracked leaves the state unchanged; a fresh uuid gets both maps set, one join embed, the kick packets and embeds, and the bot alert for Windows; the invariant holds and no rapid alert is sent |
| ClientRelay.PlayersAdded | client.js:172-212 | a batch adds exactly its uuids and never renames a tracked uuid; a batch of known uuids changes nothing |
| ClientRelay.RepeatedJoinCountsOnce | client.js:179-183 | a batch repeating one uuid has exactly the effect of its first record |
| ClientRelay.PlayerRemoved | client.js:215-221 | every record gets one leave embed, with the tracked name or `undefined`; its uuid is gone from both maps; for an untracked uuid nothing else changes |
| ClientRelay.PlayersRemoved | client.js:214-222 | a batch appends exactly one leave embed per record and removes exactly the listed uuids from both maps |
| ClientRelay.ScheduleRetry | client.js:228-234 | a retry is scheduled, with one step of the counter, only while the counter is below 3 |
| ClientRelay.End | client.js:227-235 | `end` follows that rule and leaves `mcClient` set |
| ClientRelay.StartChatRelay | client.js:135-245 | a created client becomes current; a failed creation follows the same retry rule; the counter is never lowered |
| ClientRelay.RetryElapsed | client.js:231 | a fired timer uses up one pending retry and runs `startChatRelay` |
| ClientRelay.JoinCommand | client.js:62-69 | `!join` starts the relay only without a client, replying "Connected" even if creation failed |
| ClientRelay.ResetClient | client.js:247-258 | drops the client, clears the four collections, and changes nothing else |
| ClientRelay.LeaveCommand | client.js:71-87 | `!leave` acts only with a client: drops it, sets the counter to the limit, clears the four collections and keeps pending retries |
| ClientRelay.Step | client.js:135-245 | every event keeps the invariant (equal key sets; retries scheduled ≤ counter ≤ 3) and sends no rapid alert; each new retry costs one step of the counter |
| ClientRelay.GameStep | client.js:168-224 | a `player_list` packet arriving with no client set changes nothing; any `player_list` packet keeps the invariant, sends no rapid alert and leaves the connection bookkeeping as it was |
| ClientRelay.ControlStep | client.js:62-258 | start-up, `end`, a retry firing, `resetClient` and the commands keep the invariant and send no rapid alert; each new retry costs one step of the counter and only `!leave` can skip ahead |
| ClientRelay.Run | client.js:135-245 | event streams keep the invariant and send no rapid alert |
| ClientRelay.RetriesBoundedFromStart | client.js:227-244 | from start-up, whatever happens, at most 3 retries are ever scheduled and no rapid alert is sent |
| ClientRelay.NoRetryAfterLimit | client.js:75 | once the counter is at the limit, no event stream schedules another retry |
| ClientRelay.LeaveSilencesEnd | client.js:71-87 | the `end` caused by `!leave`'s disconnect schedules no retry |
| ClientRelay.LeaveDoesNotCancelRetry | client.js:71-87 | after `!leave` a pending retry is still pending, and when it fires it creates a client again |
| ClientEngine.Relay.constructor | client.js:6-17 | the object starts in `Init` |
| ClientEngine.Relay.CheckAndKick | client.js:260-272 | leaves the object in `CheckAndKickPlayer`'s state and changes only packets and embeds |
| ClientEngine.Relay.OnPlayerAdded | client.js:173-211 | one `forEach` callback leaves the object in `PlayerAdded`'s state |
| ClientEngine.Relay.RecordJoin | client.js:185-199 | the rapid-rejoin test, the join embed and both maps, as `JoinRecorded` |
| ClientEngine.Relay.OnPlayersAdded | client.js:172-212 | the loop over the batch leaves the object in `PlayersAdded`'s state and keeps the invariant |
| ClientEngine.Relay.OnPlayerRemoved | client.js:215-221 | one `forEach` callback leaves the object in `PlayerRemoved`'s state |
| ClientEngine.Relay.OnPlayersRemoved | client.js:214-222 | the loop over the batch leaves the object in `PlayersRemoved`'s state |
| ClientEngine.Relay.MaybeScheduleRetry | client.js:228-234 | changes only the counter and the two retry counts, as `ScheduleRetry` says |
| ClientEngine.Relay.OnEnd | client.js:227-235 | leaves the object in `End`'s state |
| ClientEngine.Relay.StartRelay | client.js:135-245 | leaves the object in `StartChatRelay`'s state |
| ClientEngine.Relay.OnRetryElapsed | client.js:231 | leaves the object in `RetryElapsed`'s state |
| ClientEngine.Relay.Join | client.js:62-69 | leaves the object in `JoinCommand`'s state |
| ClientEngine.Relay.Reset | client.js:247-258 | leaves the object in `ResetClient`'s state |
| ClientEngine.Relay.Leave | client.js:71-87 | leaves the object in `LeaveCommand`'s state |
| ClientEngine.Relay.Handle | client.js:135-245 | any event leaves the object in `Step`'s state, so every lemma about `Run` holds of the object |

## Left out

- Discord plumbing: login, intents, embeds, `channel.send`, the permission check of `!set relay`, `!help`, `!playerlist` and the `!config player/device` stub. Embeds are values appended to a sequence.
- The relay channel is taken to be set. With no channel, `sendEmbed(null, …)` rejects, which the model does not capture.
- The Discord-to-game relay handler (index.js:450-477): it is a separate Discord listener, not part of the game-side engine.
- File I/O: loading `config.json` and the relay-channel file, writing `player-log.json` (the log is an in-memory sequence) and `logRealmCode` (client.js:275-279).
- The `text` handler of client.js (client.js:146-167): it is not part of the engine modelled here.
- `bedrock-protocol`: `createClient` is reduced to "returned or threw", and `queue`, `write` and `disconnect` to appended values. The wire format and the `error` listener are not modelled.
- Handlers of a client that `-leave`, `!leave` or `resetClient` dropped: game events are delivered only while a client is set. `disconnect`/`end` events are allowed at any time.
- Timers: `reconnectInterval` and the order in which timers fire relative to other events. A retry is a pending count that any later event may consume.
- The relative order of outputs across the separate sequences (embeds vs. commands vs. log).
- Packet fields that are not strings or numbers, such as a missing `message` or a non-numeric `build_platform`.
- String lengths counted in UTF-16 code units (`newPrefix.length`) are counted in characters.
- `whitelistedPlayers`: declared in both files and never read, so it is not a field of the model.
- `messageCounts` is never incremented in either file, so its values are not modelled beyond what the code does to it: index.js deletes a uuid on leave and clears it on `!leave`, client.js only clears it. Likewise client.js's `autoKickList` is only cleared.
- `ClientRelay.ResetClient` models `resetClient`, which client.js defines but never calls, so it is an event of its own.
- `!prefix` in the event model: `Step`, `Run` and `IndexEngine.Relay.Handle` dispatch the corrected `PrefixCommand`, so the lemmas about `Run` describe a bot whose `!prefix` works. The code as written is `PrefixCommandAsWritten`, which treats the failing assignment as "nothing changes". The TypeError is thrown inside the `async` `messageCreate` listener, so it becomes an unhandled promise rejection, which by default ends a Node.js 15+ process. The model does not capture that the bot would stop.
- Console output: the `console.log` and `console.error` calls of both handlers write to the terminal only and change no state, so they are not modelled.
- `IndexRelay.RetriesBounded`: the bound holds between two `!leave`s only, because `!leave` resets the counter to 0 in index.js.

## Findings

| source | as written | input that shows it | evidently intended | confidence | as-written member | corrected member |
|---|---|---|---|---|---|---|
| index.js:135 | `botPrefix` is bound by the `const` destructuring at index.js:49-59, so `botPrefix = newPrefix` throws a TypeError: a valid prefix is never applied and no reply is sent; the rejection of the `async` listener is unhandled and by default ends the process | the message `!prefix ?` (`IndexRelay.PrefixAsWrittenIgnoresValidPrefix`) | the prefix becomes `?` and "Prefix Changed" is replied | not executed | IndexRelay.PrefixCommandAsWritten | IndexRelay.PrefixCommand |
