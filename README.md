# Music bot queue and playback model

A Dafny model of the core of a voice-channel music bot for a chat platform.
Users in a guild (a server) issue `play`, `pause`, `resume`, `skip`, `stop` and
`queue`. The bot keeps one FIFO of pending tracks per guild and drives that
guild's voice client.

- `resolver.dfy` (module `Resolver`) holds the track descriptor
  `(audio_url, title, webpage_url, thumbnail)` and how it is built from an
  extractor entry: a missing title becomes `"Untitled"`. It also holds the
  query classifier. A query that contains `youtube.com/playlist` or `&list=`
  goes to the extractor unchanged. Any other query becomes
  `"ytsearch1:" + query`.
- `bot.dfy` (module `Bot`) holds class `MusicBot`. Its field `queues` is the
  process-wide map from guild-id string to pending tracks. Its field
  `sessions` abstracts each guild's voice client to
  `Disconnected | Idle | Playing | Paused`. The class has one method per
  command handler and one for `play_next_song` (`Advance`). The voice client's
  `after` callback is the event `OnTrackFinished`, which makes the session
  idle and calls `Advance`. Skip and stop stop the audio, so they raise that
  event themselves.
- `views.py` is modelled by `views.dfy` (module `Views`): the page arithmetic
  as functions and class `QueueView` with its page and button state.
  `get_embed` is a method that accumulates the lines with a loop.

Every handler keeps `MusicBot.Valid()`. That invariant says two things for
every guild. A guild whose audio is playing or paused has a queue. A guild with
no audio loaded has nothing pending. Because of it, `play` on an idle guild
starts exactly the first resolved track, the one its reply announces.

Python's `//` floors. For the positive page size used here, that is the same
as Dafny's `/`. Python slice bounds below zero count from the end of the list
before they are clamped, and `PyIndex` models that normalisation.

Two behaviours of the source are modelled as written:

- The check at bot.py:113 comes too late. bot.py:111 reads
  `interaction.user.voice.channel` first, so a caller who is not in a voice
  channel causes an attribute error. The "You must be in a voice channel." reply is never
  sent and nothing changes. The model returns `NoReply` with the state
  unchanged.
- A new `QueueView` starts with both buttons enabled, because the flags are
  only computed after the first press. Pressing "previous" on a fresh view
  therefore goes to page -1, and that page shows no tracks (`PrevOnFreshView`).
  Likewise "next" on a fresh view whose queue fits on one page goes to page 1,
  titled "Page 2/1" with no tracks (`NextOnFreshView`). The model never claims
  `0 <= page` or `page < page count`. What it states is the flag rule after
  each navigation.

## Model

| member | source | states |
|---|---|---|
| Resolver.ToTracks | bot.py:156-162 | one track per resolved entry, same length, i-th track built from the i-th entry (order kept) |
| Resolver.ContainsIffWindow | bot.py:136 | the left-to-right scan modelling Python's `in` holds iff some window of the query equals the marker |
| Resolver.ContainsUnderPrefix | bot.py:139 | prepending text none of whose suffixes can begin the marker does not change whether the marker occurs |
| Resolver.SearchPrefixHidesNoMarker | bot.py:136-139 | `"ytsearch1:" + q` contains a playlist marker iff `q` does |
| Resolver.ClassifyQuery | bot.py:136-139 | the query sent is the user's text or `"ytsearch1:"` + the text, and it is a playlist query iff the user's text is |
| Resolver.ClassifyQueryRecoverable | bot.py:136-139 | a playlist query passes unchanged; otherwise the result starts with `"ytsearch1:"` and the rest is exactly the user's text |
| Bot.MusicBot.constructor | bot.py:31 | the bot starts with no queues and no sessions, satisfying the invariant |
| Bot.MusicBot.Enqueue | bot.py:152-162 | creates the guild's queue when missing; new queue = old pending ++ resolved tracks; each stored track's title is its entry's title, or "Untitled" when the entry has none; other guilds' queues and all sessions unchanged |
| Bot.MusicBot.Advance | bot.py:188-224 | non-empty queue: returns exactly the head, leaves the tail, session Playing; empty queue: session Disconnected and queue reset to empty; other guilds untouched; invariant restored |
| Bot.MusicBot.OnTrackFinished | bot.py:207-212 | the finished callback on a playing or paused guild advances: starts the head and leaves the tail, or drains to Disconnected with an empty queue |
| Bot.MusicBot.Connect | bot.py:117-122 | a disconnected guild becomes connected and idle; a connected guild keeps its state; queues never change |
| Bot.MusicBot.EnqueueAndStart | bot.py:152-186 | with audio loaded: resolved tracks appended at the tail, playback untouched, reply counts them and names the first; otherwise the queue was empty, so the first resolved track starts and the rest stay queued in order |
| Bot.MusicBot.Play | bot.py:106-186 | not in voice: no reply and nothing changes; no entries (absent or empty): no queue created or changed, session connected; with entries and audio loaded: queue grows by the resolved tracks at the tail, no playback change; otherwise the first resolved track starts, the rest are queued, and the reply names that first track |
| Bot.MusicBot.Skip | bot.py:41-47 | acts only when playing or paused: the next queued track starts, or the guild drains to Disconnected; otherwise nothing changes |
| Bot.MusicBot.Pause | bot.py:50-64 | only a connected, playing guild moves to Paused; disconnected, idle or already paused guilds are unchanged with the matching reply; queues never change |
| Bot.MusicBot.Resume | bot.py:67-81 | only a connected, paused guild moves to Playing; all other cases unchanged with the matching reply; queues never change |
| Bot.MusicBot.Stop | bot.py:84-104 | not connected: nothing changes; otherwise the guild's queue (if present) is emptied, loaded audio is drained through the finished callback, and the guild ends Disconnected; other guilds untouched |
| Bot.MusicBot.ShowQueue | bot.py:226-235 | a fresh view over the pending queue for the requester, on page 0 with 10 per page, or none for an empty queue |
| Views.PyIndex | views.py:28 | a normalised slice bound lies in `[0, len]` and equals `min(i, len)` for a non-negative bound |
| Views.PyIndexSpread | views.py:26-28 | normalised slice bounds lie no further apart than the raw ones, so a slice never exceeds its width |
| Views.PageSlice | views.py:26-28 | at most `per_page` tracks; for a page >= 0 exactly `songs[page*per_page .. page*per_page+per_page]` clipped to the list, in order; page -1 shows nothing |
| Views.PageCountIsCeiling | views.py:31 | `(n-1)//per_page + 1` is 0 for an empty list and `ceil(n/per_page)` otherwise |
| Views.PageLinesArePositions | views.py:35-36 | on a page >= 0 the k-th line's ordinal is `page*per_page + 1 + k`, lies in `1..n`, and labels the track at that 1-based position, so ordinals continue across pages |
| Views.PagesFromIsSuffix | views.py:26-31 | the pages from `p` to the last, laid end to end, are the queue from position `p*per_page` on |
| Views.PagesCoverQueue | views.py:26-31 | reading pages 0 .. page count - 1 in turn shows the whole queue exactly once, in order |
| Views.FirstPageNextEnabled | views.py:53-57 | on page 0 "next" is enabled iff the queue holds more than `per_page` tracks |
| Views.QueueView.constructor | views.py:17-23 | a new view is on page 0, `per_page` defaults to 10, the idle timeout is 60, both buttons start enabled |
| Views.QueueView.GetEmbed | views.py:25-37 | the embed shows page `page+1` of the page count and one line per shown track with continuing ordinals |
| Views.QueueView.UpdateButtonsAndEmbed | views.py:52-59 | prev disabled iff `page <= 0`, next disabled iff `page >= (n-1)//per_page`, and the current page re-rendered |
| Views.QueueView.PrevPage | views.py:42-45 | page decreases by exactly 1, flags recomputed, songs and page size unchanged |
| Views.QueueView.NextPage | views.py:47-50 | page increases by exactly 1, flags recomputed, songs and page size unchanged |
| Views.QueueView.Press | views.py:39-50 | a press by anyone but the requester changes nothing; the requester's press moves the page by one and recomputes the flags |
| Views.PrevOnFreshView | views.py:42-45 | "previous" on a fresh view reaches page -1 and renders page number 0 with no lines |
| Views.NextOnFreshView | views.py:47-50 | "next" on a fresh view reaches page 1 and renders page number 2; with at most 10 tracks it shows no lines, and with 1 to 10 tracks the page count is 1 |

## Left out

- Chat-platform plumbing: deferral, followups, embed colours, images and text, `on_ready`, command registration, `bot.run`. Replies are abstract `Reply` values.
- Bot.MusicBot.OnTrackFinished: the `after` callback also fires when the encoder fails; the source logs the error (bot.py:208-209) and then advances as after a normal end. The model advances the same way and does not model the log line.
- Presence changes (bot.py:203-205, 223): they are output only and do not affect the queue or the session.
- The media extractor (bot.py:16-22) and its options: it is the parameter `extract` of `Play`, a function from the classified query to an optional list of entries. The option dictionary (bot.py:124-133) is not modelled.
- Extractor entries are modelled as records. With `ignoreerrors` the extractor may return `None` for the whole result or for single entries, and the source would then fail on `.get`. The model does not cover those inputs.
- Resolver.ToTrack: an entry whose title key is present with the value `None` is stored as `None` by the source. The model treats that entry like one with no title.
- FFmpeg source construction and paths (bot.py:192-200), and the "Now Playing" message. `Advance` returns the started track instead.
- Thread handoff (`run_coroutine_threadsafe`, `create_task`) and every interleaving of commands with callbacks. Each command and each finished callback is one serialized method call. For example, the model does not cover a `play` that runs before the callback of a previous `stop`, although the source can run them in that order because the callback's `play_next_song` is scheduled with `run_coroutine_threadsafe` (bot.py:210).
- Voice connect and move (bot.py:117-122): `Connect` models them as the transition from `Disconnected` to `Idle`. Moving to another channel changes nothing in the model.
- A voice client disconnected from outside the bot is not modelled. `Valid()` (no pending tracks while no audio is loaded) relies on the bot doing every disconnect itself.
- The view's idle expiry after 60 seconds is not modelled (it needs a clock). Only the timeout value is recorded.
- The source does not reject presses on a disabled button. The Discord client enforces that, so `Press` does not check the flags.
- Environment loading (bot.py:11-13).
