# Ramiel music player: a Dafny model

Ramiel is a Discord music bot. Each guild has one player, which keeps a queue of YouTube
entries, the song being played, and two loop flags (loop the queue, loop the song). On top
of it sit slash commands that format the queue and durations as text. This project models:

- `musicplayer.dfy`, module `Player`: the player of the Go package `musicplayer`.
  - `MusicPlayer` is a class. Its fields are `queue: seq<Item>`, `activeSong`, `isPlaying`,
    `loopQueue` and `loopSong`.
  - Its methods reassign the queue the way the Go methods re-slice and append to theirs:
    add a song, add a playlist, shuffle, clear down to the head, remove duplicates, find
    and remove an entry, and the end-of-song step.
  - `Shuffle`, `RemoveDuplicates`, `FindSongIndex`, `RemoveSongFromQueue` and
    `PostSongHandling` are specified by pure functions of the old queue: `Shuffled`,
    `Dedup`, `FirstIndex`, `WithoutSong` and `AfterSong`. The lemmas prove what the Go code
    promises about those functions.
  - The other methods state the new queue or field directly in terms of the old
    state: the two add methods, `ClearQueue`, `StartCurrentSong` and `SkipCurrentSong`.
- `musicmodule.dfy`, module `MusicModule`: the pure formatting of the C# `MusicModule`.
  - The duration string is modelled over whole non-negative seconds, with TimeSpan's
    hours, minutes and seconds components.
  - One queue line per track.
  - The "Up Next" section, capped at ten numbered entries.
  - A small parser (`Split`, `ParseNat`, `ParseDuration`) is the inverse that the
    round-trip lemmas use.

Inputs the code gets from outside are parameters:

- The YouTube lookups (`youtube.ResolveVideoData`, `youtube.ResolvePlaylistData`). The
  methods take the resolved video or playlist, or the resolver's error.
- The random draws of `rand.Shuffle`. These are a sequence of naturals, one per swap step.

Three behaviours of the Go code are worth knowing:

- `ClearQueue` keeps the head of the queue, which is the song being played. It does not
  empty the queue.
- `Shuffle` permutes the whole queue. That includes the head, which is the song being played.
- Duplicates are told apart by `VideoID` only.

`PlayerQueueItem` and its constructors `newPlayerQueueItem` and `newPlaylistInfo` are
defined outside the files modelled. `NewItem` and `PlaylistItems` assume that the
constructors copy the video's id, title and URL, plus the requester text
"nick (username#id)" built at `musicplayer.go:66` and `:80`. The item's `Video` pointer,
which can be nil (`musicplayer.go:172`), is not modelled.

## Model

| member | source | states |
|---|---|---|
| Player.RequestedBy | src/pkg/musicplayer/musicplayer.go:66 | the requester text is the nick, then " (", the username, '#', the user id and ")", each part in its place |
| Player.MusicPlayer.constructor | src/pkg/musicplayer/musicplayer.go:38-49 | a new player has an empty queue, no active song, and is neither playing nor looping |
| Player.MusicPlayer.AddSongToQueue | src/pkg/musicplayer/musicplayer.go:74-86 | a failed resolution returns its error and leaves the queue unchanged; otherwise exactly the new entry is appended, earlier entries stay, and it is returned |
| Player.MusicPlayer.AddPlaylistToQueue | src/pkg/musicplayer/musicplayer.go:56-72 | a failed resolution gives "Failed to get playlist info: " plus the error; a nil playlist gives no info; in both cases the queue is unchanged; otherwise the playlist's entries are appended in playlist order and returned with the requester |
| Player.PlaylistItems | src/pkg/musicplayer/musicplayer.go:67-69 | the entries appended for a playlist carry exactly the playlist's video ids |
| Player.MusicPlayer.Shuffle | src/pkg/musicplayer/musicplayer.go:120-123 | the queue becomes the Fisher-Yates walk of rand.Shuffle over the draws; its length and its multiset of entries are unchanged |
| Player.SwapPermutes | src/pkg/musicplayer/musicplayer.go:122 | the swap callback keeps the length and the multiset of the queue |
| Player.ShuffledPermutes | src/pkg/musicplayer/musicplayer.go:120-123 | whatever the draws, the shuffle is a permutation of the queue |
| Player.MusicPlayer.ClearQueue | src/pkg/musicplayer/musicplayer.go:125-127 | on a non-empty queue, exactly the first entry is kept |
| Player.MusicPlayer.RemoveDuplicates | src/pkg/musicplayer/musicplayer.go:129-139 | the loop with its seen-keys map computes Dedup of the old queue; the ids afterwards are distinct, the set of ids is unchanged, and the result is a subsequence of the old queue |
| Player.DedupIdsAndDistinct | src/pkg/musicplayer/musicplayer.go:129-139 | removing duplicates keeps the set of ids and leaves the ids pairwise distinct |
| Player.DedupOfDistinct | src/pkg/musicplayer/musicplayer.go:129-139 | a queue whose ids are already distinct is left unchanged |
| Player.DedupIdempotent | src/pkg/musicplayer/musicplayer.go:129-139 | removing duplicates twice gives the same queue as removing them once |
| Player.DedupIsSubsequence | src/pkg/musicplayer/musicplayer.go:129-139 | the survivors are a subsequence of the queue, in their original order |
| Player.DedupKeepsFirst | src/pkg/musicplayer/musicplayer.go:132-136 | for every id, the entry kept is the first entry in the queue with that id |
| Player.FirstIndex | src/pkg/musicplayer/musicplayer.go:216-223 | it gives the least index whose VideoID matches; it gives -1 exactly when no entry matches, that is, when the id is not among the queue's ids |
| Player.MusicPlayer.FindSongIndex | src/pkg/musicplayer/musicplayer.go:216-223 | the scan returns the least matching index, or -1 exactly when no entry matches |
| Player.MusicPlayer.RemoveSongFromQueue | src/pkg/musicplayer/musicplayer.go:153-160 | an empty queue stays empty; otherwise the queue becomes WithoutSong of the old queue; an id that is absent is excluded by the requires, because the re-slice at -1 panics |
| Player.WithoutSongSpec | src/pkg/musicplayer/musicplayer.go:158-159 | exactly one entry goes, the first with the id; the entries before it stay; the entries after it move up by one in the same order; the multiset loses just that entry |
| Player.MusicPlayer.PostSongHandling | src/pkg/musicplayer/musicplayer.go:201-214 | activeSong is cleared, and the queue becomes AfterSong of the old queue under the two loop flags; a missing id is excluded where the code would panic |
| Player.AfterSongLoopQueue | src/pkg/musicplayer/musicplayer.go:204-208 | queue looping takes precedence over song looping and keeps the length; when the entry found is the item, the queue's multiset is unchanged; with the item at the head, the queue rotates by one |
| Player.AfterSongNoLoopQueue | src/pkg/musicplayer/musicplayer.go:211-213 | with song looping the queue is unchanged; otherwise an empty queue stays empty and a non-empty one loses exactly the entry found |
| Player.MusicPlayer.StartCurrentSong | src/pkg/musicplayer/musicplayer.go:181 | the head of the queue becomes the active song |
| Player.MusicPlayer.SkipCurrentSong | src/pkg/musicplayer/musicplayer.go:192-194 | a skip switches song looping off |
| MusicModule.NatToString | src/Ramiel.Bot/Modules/MusicModule.cs:261-265 | int formatting gives a non-empty digit string without a leading zero, one character long exactly below 10 |
| MusicModule.NatToStringRoundTrip | src/Ramiel.Bot/Modules/MusicModule.cs:261-265 | reading the decimal text back gives the number |
| MusicModule.Pad2 | src/Ramiel.Bot/Modules/MusicModule.cs:261-267 | the D2 format of a value below 100 is exactly two digits that read back as the value |
| MusicModule.TimeSpanComponents | src/Ramiel.Bot/Modules/MusicModule.cs:256 | seconds and minutes lie in 0..59 and hours in 0..23, so whole days never appear; together the components give the duration modulo one day |
| MusicModule.DurationString | src/Ramiel.Bot/Modules/MusicModule.cs:254-270 | GetDurationString: M:SS below an hour, H:MM:SS from an hour on; DurationStringFields states the layout and DurationStringRoundTrip the value it reads back as |
| MusicModule.DurationStringFields | src/Ramiel.Bot/Modules/MusicModule.cs:254-270 | with 0 hours the string is minutes:SS, minutes unpadded and seconds in two digits; with hours above 0 it is H:MM:SS, minutes and seconds in two digits each |
| MusicModule.DurationStringRoundTrip | src/Ramiel.Bot/Modules/MusicModule.cs:254-270 | parsing the duration string back gives the duration modulo one day |
| MusicModule.QueueTrackString | src/Ramiel.Bot/Modules/MusicModule.cs:272-275 | GetQueueTrackString: "[title](url) \| \`duration\`"; QueueTrackStringLayout states where each part sits |
| MusicModule.QueueTrackStringLayout | src/Ramiel.Bot/Modules/MusicModule.cs:272-275 | the line is "[title](url) \| \`duration\`"; each part sits in its place, and the part between the backticks reads back as the track's duration |
| MusicModule.UpNextCap | src/Ramiel.Bot/Modules/MusicModule.cs:98-102 | the cap is min(10, queue length) |
| MusicModule.UpNextEntry | src/Ramiel.Bot/Modules/MusicModule.cs:106 | the numbered line of one Up Next entry; UpNextEntryNumbered states its layout and that the number reads back |
| MusicModule.UpNextEntryNumbered | src/Ramiel.Bot/Modules/MusicModule.cs:106 | an entry line opens with its number in backticks, and that number reads back as given; the track's line follows ".\` " |
| MusicModule.UpNextSection | src/Ramiel.Bot/Modules/MusicModule.cs:93-108 | an empty queue gives no section; otherwise a blank line, the "__Up Next:__" heading, then the first min(10, length) entries in queue order, numbered 1 to the cap |

## Left out

- Player.MusicPlayer.ClearQueue: the requires asks for a non-empty queue. The model has no
  Go slice capacity. On an empty slice of capacity 0 (the one `New` makes), `p.queue[:1]`
  panics. On an empty slice whose backing array still has room, it brings back a stale
  entry instead. The model does not capture that case.
- Player.MusicPlayer.Shuffle: it states only what any run preserves: the Fisher-Yates walk
  over the given draws, the length, and the multiset. It does not state that
  `rand.Shuffle` is uniform. `rand.Seed(time.Now().UnixNano())` is outside the model.
- Player.MusicPlayer.AddSongToQueue and AddPlaylistToQueue: the URL argument and the
  YouTube lookups are not modelled. The methods take the lookup's outcome instead.
- `New` (`musicplayer.go:27-50`): connecting to Lavalink and joining the voice channel,
  with their error returns, is network I/O. Only the initial field values are modelled,
  as the constructor.
- `Play`, `playCurrentSong`, `Skip` and `Replay` (`musicplayer.go:88-106,145-151,171-199`):
  they block on Go channels, which is concurrency. Only their bookkeeping is modelled: the
  head becoming the active song (`StartCurrentSong`) and a skip clearing song looping
  (`SkipCurrentSong`).
- Each method is modelled as one atomic step. In Go, `Play` runs on a goroutine of its own,
  because `Skip`'s unbuffered send (`musicplayer.go:146`) only completes when the `select`
  of `playCurrentSong` (`:188-198`) receives it. That goroutine reads `p.queue`
  (`:96`, `:172-181`) while `AddSongToQueue`, `Shuffle`, `ClearQueue` and
  `RemoveDuplicates` write it, and `MusicPlayer` has no lock (`:13-25`). Interleavings and
  lost updates are not modelled. For example, an entry appended while `RemoveDuplicates`
  walks the queue is dropped when its result is stored (`:138`).
- `playCurrentSong` also re-resolves an entry whose video is missing (`:172-179`) and calls
  Lavalink. Both are foreign calls and are not modelled.
- `Stop`, `Resume` and `Exit` are not modelled. They are calls into Lavalink and the voice
  connection. `Exit` is `ClearQueue` followed by a skip signal and a disconnect.
- `GetChannelID`, `Queue` and `NowPlaying` are not modelled. They only return a field.
  `Queue()` (`musicplayer.go:116-118`) returns the live slice. `Shuffle` swaps in place and
  `RemoveSongFromQueue` and `postSongHandling` re-slice in place (`:122`, `:159`, `:206`),
  so in Go they change what a caller of `Queue()` already holds. The model's queue is a
  value sequence and does not capture that aliasing.
- The slash-command handlers of `MusicModule.cs` are not modelled. They wrap a music
  service that is not part of this model, and Discord's responses and embeds.
- The head and footer lines of the queue listing are not modelled: "__Now Playing:__", the
  track count, and the loop description (`MusicModule.cs:90-91,110-119`). The lines are a
  sequence of strings, so the line terminator that `AppendLine` writes is not modelled.
- The now-playing progress bar (`MusicModule.cs:189-199`) is not modelled. It uses
  floating-point division and `Math.Round`.
- Durations are whole non-negative seconds. The fractional part of `TotalSeconds` and
  negative time spans are not modelled.
- `src/Ramiel.Bot/Program.cs` and `src/internal/discord/discord.go` are not modelled. They
  are host bootstrap and Discord session I/O.
