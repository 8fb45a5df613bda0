# Queueing songs from queries and chat messages

This project models two parts of the Muse Discord music bot and proves properties of the model.

- `AddQueryToQueue` turns a query into songs, adds them to a guild's player, starts playback when needed and builds the reply. The query can be a YouTube, Spotify or stream URL, or a search.
- The message-command front end reacts to plain chat messages. `!skip`, `!play`, `!bumpplay`, `!stop` and `!shuffle` run commands. A message that is only a song link is queued.

Files, one module each:

| file | module | what it holds |
|---|---|---|
| `wrappers.dfy` | `Wrappers` | `Option` and `Result` |
| `text.dfy` | `Text` | decimal rendering of numbers, the digit reader used by the round trips, prefix helpers |
| `songs.dfy` | `Songs` | song metadata and the queued song record |
| `player.dfy` | `PlayerState` | the `Player` class, reduced to what the core reads and calls, with a log of every call made on it |
| `resolution.dfy` | `SongResolution` | `getNewSongs`: branch choice, the found note, the shuffle, the fallback to search, and the imperative method |
| `add_query_to_queue.dfy` | `AddQueryToQueue` | `getMessage`, `addToQueue`, and the null guards of the two entry points |
| `message_commands.dfy` | `MessageCommands` | `escapeRegExp`, the two patterns, the dispatcher and the handlers |

Modelling choices:

- Each provider of the `GetSongs` service is a function-typed field returning `Returned(value)` or `Threw(message)`. An awaited call that rejects is `Threw`.
- A falsy provider result is `None`. An empty list is truthy, so it passes the `if (songs)` checks and ends in "no songs found".
- `new URL(query)` is a parser given as a parameter: `None` when it throws, otherwise the protocol, host, href and `list` search parameter.
- The shuffle is driven by a sequence of random picks.
- Each imperative source function has two parts:
  - a method written the way the source writes it (a `for` loop over `player.add`, `+=` on `foundMsg`, a `threw` flag for the `catch`);
  - a specification function that the method's `ensures` equals.

  The lemmas state the source's promises about those functions.
- The player keeps only what the core reads: the voice connection, the status, whether a song is current, and how many songs are queued after it. Every call made on it is logged.
- The two regular expressions are written out as string predicates.
  - The command pattern is `"!"`, a command name, the longest run of JavaScript `\s` characters, then a query with no line terminator.
  - The link pattern is `"https://"`, one of the four hosts, then a remainder with no line terminator.

Behaviours of the code worth knowing:

- The link pattern is `^https://(host).*$` without the `m` or `s` flag. A line break anywhere after the host defeats the match, and nothing at all is needed after the host (`SongUrlOf`).
- `stop` answers "currently playing" when the player is connected but not playing (`StopReply`).
- Resolving accepts `music.youtube.com` links (`YoutubeHosts`), but the message front end does not treat them as song links (`MusicHostIsNotASongUrl`).
- The host in the link pattern is not delimited, so `https://youtube.com.example.org/` counts as a YouTube link (`LookalikeHost`).

## Model

| member | source | states |
|---|---|---|
| SongResolution.Classify | src/services/add-query-to-queue.ts:219-272 | The branch the query takes: search iff the URL does not parse, otherwise YouTube playlist iff a YouTube host with a non-empty `list`, otherwise YouTube video, otherwise Spotify iff `spotify:` protocol or the Spotify host, otherwise live stream. Each branch is stated as an if-and-only-if. |
| SongResolution.FoundNote | src/services/add-query-to-queue.ts:247-261 | The note is empty iff there was no sampling and nothing was missing. When the total exceeds the limit it opens with the sample clause. It ends with "1 song was not found" or "<n> songs were not found" as the count says, and starts with a letter or a digit. |
| SongResolution.NotFoundClauseRoundTrip | src/services/add-query-to-queue.ts:255-261 | Reading the not-found clause gives back the number of songs not found. |
| SongResolution.ReadSampledNote | src/services/add-query-to-queue.ts:247-253 | A note that opens with the sample clause reads back as that sample size and the not-found count. |
| SongResolution.FoundNoteRoundTrip | src/services/add-query-to-queue.ts:247-261 | Every note reads back as exactly whether a sample was taken, its size, and how many songs were not found. |
| SongResolution.StepwiseNote | src/services/add-query-to-queue.ts:247-261 | Building the note clause by clause with `+=`, as the source does, yields `FoundNote`. |
| SongResolution.Shuffled | src/services/add-query-to-queue.ts:289 | The shuffled list has the same length and the same multiset of songs as its input. |
| SongResolution.Resolve | src/services/add-query-to-queue.ts:204-292 | On success there is at least one song. A non-empty note implies the Spotify branch. It succeeds iff the lookup succeeds with a non-empty list. Songs are a permutation of the lookup's, and unchanged when not shuffling. Errors are the lookup's own or "no songs found". |
| SongResolution.FallbackToSearch | src/services/add-query-to-queue.ts:219-282 | Any failure of the URL branch (parse failure, provider rejection, missing video or stream) ends in the search for the raw query, and in "that doesn't exist" when the search finds nothing. A URL branch that succeeds does not depend on the search provider. |
| SongResolution.TryUrl | src/services/add-query-to-queue.ts:219-272 | The `try` block succeeds iff the providers' answers say the URL branch succeeds. Only the Spotify branch produces a note. A branch that throws without a provider rejecting throws "that doesn't exist". |
| SongResolution.Search | src/services/add-query-to-queue.ts:273-282 | The `catch` succeeds iff the search returns a list, and then with that list and no note. It fails with the search's own error, or "that doesn't exist" when the search finds nothing. |
| SongResolution.Lookup | src/services/add-query-to-queue.ts:219-282 | An error comes only from a failed URL branch followed by a failed search. A note implies the Spotify branch. |
| SongResolution.VideoFound | src/services/add-query-to-queue.ts:236-242 | A YouTube video URL whose video is found gives exactly the provider's songs, with no note. |
| SongResolution.SpotifyFound | src/services/add-query-to-queue.ts:244-263 | A Spotify URL gives the converted songs, with the note built from the total, the number not found and the playlist limit. |
| SongResolution.LiveStreamFound | src/services/add-query-to-queue.ts:264-271 | Any other URL that the live-stream provider recognises gives that one song, with no note. |
| SongResolution.PlaylistIsNotLimited | src/services/add-query-to-queue.ts:232-234 | A YouTube playlist URL yields the provider's whole list with no note, whatever the playlist limit. |
| SongResolution.GetNewSongs | src/services/add-query-to-queue.ts:204-292 | The imperative rendering (push, `+=`, try/catch) returns exactly `Resolve`. |
| Text.NatToString | src/services/add-query-to-queue.ts:259 | A number renders as a non-empty string of digits with no leading zero. |
| Text.NatToStringRoundTrip | src/services/add-query-to-queue.ts:259 | Reading the rendered digits gives back the number. |
| AddQueryToQueue.GetMessage | src/services/add-query-to-queue.ts:197-201 | The reply starts with the first title in bold and ends with the extra note. |
| AddQueryToQueue.GetMessageRoundTrip | src/services/add-query-to-queue.ts:197-201 | The reply reads back as the number of songs added, whether it says "front of the" (exactly for one song added to the front), and the note. |
| AddQueryToQueue.ExtraMsg | src/services/add-query-to-queue.ts:170-180 | The note is empty iff both parts are. Otherwise it is `" ("`, the parts joined by `", "`, and `")"`. |
| AddQueryToQueue.ComposeExtraMsg | src/services/add-query-to-queue.ts:169-180 | The step-by-step reassignment of `extraMsg` yields `ExtraMsg`. |
| AddQueryToQueue.ResumingOnlyOnReconnect | src/services/add-query-to-queue.ts:153-180 | The note opens with "resuming playback" iff the player had no connection and a song was current when the request came in. |
| AddQueryToQueue.AddCalls | src/services/add-query-to-queue.ts:143-149 | One `add` per resolved song, in order. Each carries that song's metadata, the requesting channel and member, and the front-of-queue flag. |
| AddQueryToQueue.AddEach | src/services/add-query-to-queue.ts:143-149 | The `forEach` loop logs exactly `AddCalls`, grows the pending count by the number of songs, and keeps connection and status. |
| AddQueryToQueue.StartPlayback | src/services/add-query-to-queue.ts:151-167 | With no connection: connect to the target channel, play, one embed, and "resuming playback" iff a song was current. Connected but idle: play. Otherwise: no call. Afterwards the player is connected, has a current song, is playing unless it was paused, and has the same number of songs pending. |
| AddQueryToQueue.AddResolved | src/services/add-query-to-queue.ts:140-186 | After resolution, the calls made and the reply are exactly those of the plan. The player ends connected to the old or target channel, with a current song, playing unless paused, and with the resolved songs added to its pending count. |
| AddQueryToQueue.TargetChannel | src/services/add-query-to-queue.ts:130 | The member's own voice channel when there is one, otherwise the guild's most popular one. |
| AddQueryToQueue.Transition | src/services/add-query-to-queue.ts:151-167 | A `connect` to the target happens iff there was no connection; a `play` iff there was no connection or the player was idle; a `connect` always comes before the `play`. |
| AddQueryToQueue.PlanCalls | src/services/add-query-to-queue.ts:143-167 | Every resolved song is added once, in order, before any other call, and the plan counts them as added. Then comes connect-and-play with no connection, play alone when idle, and nothing otherwise. |
| AddQueryToQueue.PlanReply | src/services/add-query-to-queue.ts:163-185 | The reply reads back as the song count, the front flag and the note. There is one embed iff the player had to connect. |
| AddQueryToQueue.AddToQueue | src/services/add-query-to-queue.ts:111-186 | A failed resolution returns its error and leaves the player untouched. Otherwise the calls and the reply follow the plan, computed from the player as it was before the request; the pending count grows by the number of songs added; the player ends connected to its old channel or the target channel, with a current song, playing unless paused. |
| AddQueryToQueue.RequireContext | src/services/add-query-to-queue.ts:34-81 | Succeeds iff guild, member and channel are all present. Otherwise the error names the first missing one, as "`<origin>`.guild is null", ".member", ".channel" in that order. |
| AddQueryToQueue.AddToQueueFrom | src/services/add-query-to-queue.ts:62-109 | A failed guard or resolution returns the error with the player untouched. Otherwise the calls and the reply follow the plan, the pending count grows by the number of songs added, and the player ends connected, with a current song, playing unless paused. |
| PlayerState.Player.Add | src/services/add-query-to-queue.ts:144-148 | `add` logs the call, adds one pending song, keeps connection and status, and never loses the current song. |
| PlayerState.Player.Connect | src/services/add-query-to-queue.ts:154 | `connect` sets the connection to the given channel and changes nothing else. |
| PlayerState.Player.Play | src/services/add-query-to-queue.ts:157-166 | `play` on a connected player with something pending makes it playing with a current song and the same number pending. Otherwise nothing changes. |
| PlayerState.Player.Stop | src/events/message-commands.ts:79 | `stop` leaves the player idle with no current song and keeps the queue and connection. |
| PlayerState.Player.Shuffle | src/events/message-commands.ts:89 | `shuffle` changes neither the view nor the queue size. |
| PlayerState.Player.Forward | src/events/message-commands.ts:38 | `forward(n)` succeeds iff a song is current and at least n are pending. Success removes n pending songs, keeping a current song iff any remain; failure changes nothing. |
| MessageCommands.EscapeRegExp | src/events/message-commands.ts:95 | The output length is the input length plus the number of special characters. |
| MessageCommands.EscapeRegExpRoundTrip | src/events/message-commands.ts:95 | Read as a literal pattern, the escaped string stands for exactly the input. |
| MessageCommands.ReadLiteralIsEscape | src/events/message-commands.ts:95 | Any literal pattern for a string is that string's escape, so escaping is the only encoding. |
| MessageCommands.LeadingWhitespace | src/events/message-commands.ts:97 | The greedy `\s*` takes a run of JavaScript white space that is followed by a non-space or the end. |
| MessageCommands.LeadingWhitespaceOf | src/events/message-commands.ts:97 | White space followed by a non-space is taken whole. |
| MessageCommands.NamesPrefixFree | src/events/message-commands.ts:35-97 | No command name starts another command's name. |
| MessageCommands.MatchNameOf | src/events/message-commands.ts:97 | The alternation finds the one command whose name the text starts with. |
| MessageCommands.ParseCommand | src/events/message-commands.ts:97-111 | A match starts with "!" and the command's name. Its query holds no line terminator and does not start with white space. |
| MessageCommands.ParseCommandShape | src/events/message-commands.ts:97 | A matched message is "!", the name, white space only, then the query up to the end. |
| MessageCommands.ParseCommandOf | src/events/message-commands.ts:97 | Every message of that shape matches, with that command and query, iff the query has no line terminator. |
| MessageCommands.PlaylistIsPlay | src/events/message-commands.ts:97 | "!playlist x" is `play` with the query "list x". |
| MessageCommands.LineBreakBeforeQuery | src/events/message-commands.ts:97 | A command name, a line break, then a one-line query still matches, with that command and query. |
| MessageCommands.LineBreakInQuery | src/events/message-commands.ts:97 | A line break inside the query defeats the match. |
| MessageCommands.HostsPrefixFree | src/events/message-commands.ts:17-22 | No song host starts another song host. |
| MessageCommands.MatchHostOf | src/events/message-commands.ts:98 | The host alternation finds the one host the text starts with. |
| MessageCommands.SongUrlHost | src/events/message-commands.ts:98-118 | A song link is "https://", one of the four hosts, then text with no line terminator. |
| MessageCommands.SongUrlOf | src/events/message-commands.ts:98 | "https://" plus a song host plus any text is a song link iff the text has no line terminator. Nothing is needed after the host. |
| MessageCommands.MusicHostIsNotASongUrl | src/events/message-commands.ts:17-22 | No `https://music.youtube.com` message is a song link. |
| MessageCommands.LookalikeHost | src/events/message-commands.ts:98 | A host that merely starts with a song host is taken for it. |
| MessageCommands.SongUrlIsNotACommand | src/events/message-commands.ts:110-118 | No song link parses as a command, so the two patterns never compete. |
| MessageCommands.Dispatch | src/events/message-commands.ts:104-127 | Without a guild: nothing. A command iff the command pattern matches, with its name and query. Otherwise the whole content is queued iff it is a song link. |
| MessageCommands.QueueRequest | src/events/message-commands.ts:48-65 | Only `play`, `bumpplay` and a bare link queue anything. The query is the command's query or the whole link; only `bumpplay` adds to the front; nothing shuffles or splits chapters. |
| MessageCommands.PlayAndBumpPlay | src/events/message-commands.ts:48-65 | `play` and `bumpplay` pass the same options except the front-of-queue flag (false and true). Neither shuffles nor splits chapters. |
| MessageCommands.LinkIsQueued | src/events/message-commands.ts:118-126 | In a guild, a one-line song link is queued whole at the back, without shuffle or chapter splitting. |
| MessageCommands.StopReply | src/events/message-commands.ts:66-81 | The reply is "stopped" iff the player is connected and playing, and "not connected" iff it has no connection. |
| MessageCommands.StopHandler | src/events/message-commands.ts:66-81 | "not connected" or "currently playing" leave the player untouched. "stopped" comes with exactly one `stop` call, leaving the player idle with no current song. |
| MessageCommands.ShuffleHandler | src/events/message-commands.ts:82-92 | An empty queue gives "not enough songs to shuffle" and an untouched player. Otherwise there is exactly one `shuffle` call and "shuffled". |
| MessageCommands.SkipHandler | src/events/message-commands.ts:36-47 | Exactly one `forward(1)`, and the connection is kept. The reply is "skipping" iff a song was current, else "no songs to skip" with the player unchanged. After a skip one song fewer is pending and a song is current iff one followed the skipped one; the player is idle when none followed, and otherwise keeps its status. There is one embed iff a song follows the skipped one. |
| MessageCommands.OnMessage | src/events/message-commands.ts:100-128 | Nothing happens to an ignored message. `stop`, `shuffle` and `skip` give their handlers' replies, calls and new player state. `play`, `bumpplay` and bare links give the outcome and calls of the entry point's plan with the dispatcher's options, an untouched player on failure, and on success the pending count, connection, status and current song that `addToQueue` leaves. |

## Left out

- Discord transport is not modelled: deferring, editing and sending replies, reactions, the typing indicator and its 11-second interval. Replies are returned as values; embeds are only counted.
- The content of the now-playing embed is not modelled, because it comes from a helper outside the core.
- Guild settings storage is not modelled. The playlist limit is a parameter.
- The YouTube and Spotify providers and Node's URL parser are parameters, because they are network and library code.
- The random source of `array-shuffle` is replaced by a sequence of picks. Only the permutation is promised.
- `getMemberVoiceChannel` and `getMostPopularVoiceChannel` are a channel option with a fallback channel. The case where the fallback finds no channel is not modelled.
- The player's internals (src/services/player.ts) and the per-guild registry (src/managers/player.ts) are not part of this model.
  - `PlayerState.Player` is a stand-in. It keeps only the connection, status, current flag, pending count and call log.
  - Its methods state the effects the core relies on, not how the real player orders its queue.
  - The player for a guild is passed in instead of looked up.
- Failures of `connect` and `play` are not modelled; the stand-in's calls do not fail. Errors raised by `message.reply` inside the `skip` handler's `try` are left out with the transport.
- PlayerState.Player.Forward: that a skip from a paused or idle player keeps its status when a song follows is the stand-in's own choice; the core never reads the status after `forward`, so neither `SkipHandler` nor `OnMessage` relies on it.
- The stand-in's `forward` fails only when there is no current song or too few songs. That is the only failure the `skip` handler's `catch` is modelled to see.
- Chapter splitting is passed through to the providers unchanged, because its effect lies inside them.
- The patterns work on Dafny characters (code points), while JavaScript patterns without the `u` flag see UTF-16 code units. This matters only for characters outside the Basic Multilingual Plane, none of which is white space or a line terminator.
- Asynchronous ordering (`await`) is treated as sequential execution.
