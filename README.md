# Playback rules of the autoplayer installations, in Dafny

The repository holds a family of Raspberry Pi scripts that play short video
"blocks" (one video with text followed by three plain videos) from a tree of
category directories, alone or in sync with other screens over UDP. This
project models the deterministic rules under the process, socket and thread
plumbing of those scripts and proves what they promise.

Conventions used throughout:

- A directory tree is `Files.Tree`, a map from a directory path to its
  listing (names and whether each is a directory); a path that is not a key
  is a missing directory.
- `random.choice`/`random.sample` become a `Blocks.Draw` (an index and a
  sequence of distinct indices) passed in, with preconditions that it is in
  range; `random.shuffle` becomes a permutation passed in (a sequence with
  the same multiset as the shuffled one).
- Every network or thread handler is one atomic transition of a class whose
  fields are the script's globals; datagrams sent are appended to a log
  field. A loop that blocks on arrivals consumes a sequence of arrivals and
  reports how many it used, or that it would still be waiting.
- Clocks are integer milliseconds passed in.
- The JSON decoding of mpv events is a function parameter giving an event
  kind (`end-file`, another event, or unparseable).

Modules:

- `Text`, `Decimal`, `Names`, `Files`, `Blocks`: the Python built-ins the
  scripts lean on (`strip`, `split`, `join`, newline framing, `int()`/`str()`,
  the code-point sum, sorting, suffix and extension filters, directory
  listings, sampling a block, flattening lists of blocks).
- `MpvController`: the `MPVController` class of
  `HyperObjectLumalogySingle/roleplayer-sync.py` (command log, end-file
  counter, newline-framed event buffer).
- `RoleplayerSync`: the rest of `roleplayer-sync.py` (category playlist,
  `PLAY:<idx>`/`DONE:<idx>` messages, the leader round controller, the
  follower's AUTO/SYNC rules).
- `Roleplayer`: `HyperObjectLumalogySingle/roleplayer.py`.
- `SinglePlayer`, `RoleplayerRotable`, `RoleplayerFullscreen`: the
  stand-alone m3u players `roleplayer-rotable.py` and
  `roleplayer-fullscreen.py` (the shared playlist builder and each script's
  own orientation rules).
- `LumaCache`, `LumaFollower`, `LumaNode`, `LumaLeader`:
  `HyperObjectLumalogy/follower.py`, `HyperObjectLumalogy/leader.py` (a node
  that follows a leader and plays alone when it goes OFFLINE) and
  `HyperObjectLumalogy/Leader/leader.py`.
- `HyperVideos`, `HyperLeader`, `HyperFollower`:
  `HyperObject/leader2_modify.py` and `HyperObject/follower2_org.py`.
- `Autoplayer`: `python-autoplayer/autoplayer.py`.

## Model

| member | source | states |
|---|---|---|
| Text.Strip | HyperObjectLumalogySingle/roleplayer-sync.py:393 | `str.strip()`: the result is no longer than the input and neither starts nor ends with whitespace |
| Text.StripUnpadded | HyperObjectLumalogy/leader.py:248 | stripping a message that has no surrounding whitespace leaves it unchanged |
| Text.Split | HyperObject/follower2_org.py:52 | `str.split(sep)`: at least one piece, and no piece contains the separator |
| Text.JoinSplit | HyperObject/follower2_org.py:52 | joining the pieces of a split with the separator gives back the original text |
| Text.SplitJoin | HyperObjectLumalogy/Leader/leader.py:145 | splitting a comma-joined list of separator-free names gives back exactly that list |
| Text.Frame | HyperObjectLumalogySingle/roleplayer-sync.py:234-237 | the reader's framing of a byte buffer into complete lines and a trailing partial line: neither contains the newline |
| Text.FrameRebuilds | HyperObjectLumalogySingle/roleplayer-sync.py:234-237 | the framed lines, each followed by a newline, plus the kept partial line rebuild the buffer: nothing is lost or invented |
| Text.FrameUnframe | HyperObjectLumalogySingle/roleplayer-sync.py:234-237 | framing newline-terminated lines followed by a partial line yields exactly those lines and that partial line |
| Decimal.ParseFormat | HyperObjectLumalogySingle/roleplayer-sync.py:343 | `int(str(n)) == n` for every integer, negative ones included |
| Decimal.NoDigitNoInt | HyperObjectLumalogySingle/roleplayer-sync.py:343-345 | any text without a digit (empty, signs only, blanks, words) is not an integer |
| Decimal.CodePointSumAppend | HyperObjectLumalogy/follower.py:122 | the code-point sum of a concatenation is the sum of the code-point sums |
| Decimal.HostIndex | HyperObjectLumalogy/follower.py:122 | the index `sum(ord(c)) % n` is always within a pool of `n > 0` tracks |
| Names.KeepExtensions | HyperObjectLumalogy/Leader/leader.py:54-55 | the names kept are exactly those of the listing whose lower-cased name ends with one of the extensions |
| Names.KeepPermutation | HyperObjectLumalogy/leader.py:88-90 | filtering two listings with the same names by extension gives the same names |
| Names.LessEqTotal | HyperObjectLumalogySingle/roleplayer.py:69 | the string order used by `sort` is total |
| Names.Sort | HyperObjectLumalogySingle/roleplayer.py:69 | `list.sort()`: the result is sorted and a permutation of the input |
| Names.SortedUnique | HyperObjectLumalogy/Leader/leader.py:74 | two sorted permutations of the same names are equal |
| Names.SortCanonical | HyperObjectLumalogy/Leader/leader.py:74 | sorting gives the same list whatever order the directory was listed in |
| Files.SubDirs | HyperObject/leader2_modify.py:76-78 | the listed sub-directories are entries of the directory that are directories |
| Files.SubDirsMembers | HyperObjectLumalogySingle/roleplayer-sync.py:108 | a name is a listed sub-directory exactly when it is a directory entry of the listing |
| Files.Suffix | HyperObjectLumalogySingle/roleplayer-sync.py:86-87 | `Path.suffix`: empty, or a dot and at least one character ending the name, never the whole name |
| Files.VideoNames | HyperObjectLumalogySingle/roleplayer-sync.py:86-87 | every kept file has a lower-cased suffix among the video extensions |
| Files.ListingsDistinct | HyperObjectLumalogySingle/roleplayer-sync.py:98-99 | in a tree whose directories list no name twice, a pool of video paths holds no path twice |
| Blocks.TakeFromDistinct | HyperObjectLumalogySingle/roleplayer-sync.py:103 | `random.sample` at distinct positions of a duplicate-free pool gives distinct members of the pool |
| Blocks.OneAndThree | HyperObjectLumalogySingle/roleplayer-sync.py:101-103 | no block exactly when the text pool is empty or there are fewer than three videos; otherwise one text video then three videos of the pool, pairwise different when the pool is |
| Blocks.ConcatAppend | HyperObject/leader2_modify.py:110-111 | flattening two lists of blocks in a row is flattening each and appending |
| Blocks.Concat2WholeBlocks | HyperObjectLumalogySingle/roleplayer.py:105-114 | rounds of whole blocks or nothing flatten to four lines per block: a multiple of four, at most four per round and category |
| Blocks.ConcatEmpty | HyperObjectLumalogySingle/roleplayer.py:112-114 | the flattened list is empty exactly when every block is empty |
| Blocks.Concat2Empty | HyperObjectLumalogySingle/roleplayer-rotable.py:100-112 | the playlist of all rounds is empty exactly when every round adds nothing |
| MpvController.AppendsEffect | HyperObjectLumalogySingle/roleplayer-sync.py:283-284 | the `append` commands add the paths to the end of mpv's playlist, in order |
| MpvController.LoadCommandsEffect | HyperObjectLumalogySingle/roleplayer-sync.py:276-288 | whatever state mpv was in, the load commands leave it playing exactly the block, from its first video, unpaused |
| MpvController.EndFilesAppend | HyperObjectLumalogySingle/roleplayer-sync.py:235-245 | the end-file count of two runs of lines is the sum of their counts |
| MpvController.EndFilesCons | HyperObjectLumalogySingle/roleplayer-sync.py:237-245 | a line adds one exactly when it is not blank and decodes to an end-file event |
| MpvController.FeedSplit | HyperObjectLumalogySingle/roleplayer-sync.py:231-245 | the count and buffer do not depend on how the byte stream is cut into chunks |
| MpvController.FeedAllIsFeed | HyperObjectLumalogySingle/roleplayer-sync.py:229-245 | reading chunk after chunk counts exactly the end-file lines of the whole stream and keeps its trailing partial line |
| MpvController.FeedAllSnoc | HyperObjectLumalogySingle/roleplayer-sync.py:229-245 | reading one more chunk is one more step of the reader |
| MpvController.FeedAllMonotone | HyperObjectLumalogySingle/roleplayer-sync.py:243-245 | reading never lowers the end-file count |
| MpvController.Controller.constructor | HyperObjectLumalogySingle/roleplayer-sync.py:154-164 | a new controller has counted nothing, buffers nothing and has sent nothing |
| MpvController.Controller.Cmd | HyperObjectLumalogySingle/roleplayer-sync.py:212-215 | the command is appended to the log; counter and buffer unchanged |
| MpvController.Controller.ResetEndfileCounter | HyperObjectLumalogySingle/roleplayer-sync.py:252-254 | the counter is zero; buffer and log unchanged |
| MpvController.Controller.LoadBlock | HyperObjectLumalogySingle/roleplayer-sync.py:266-289 | succeeds exactly for a block of `BLOCK_SIZE`; otherwise nothing changes; on success the counter is zero and the log gains pause, clear, replace, three appends, position 0, unpause |
| MpvController.Controller.ReadChunk | HyperObjectLumalogySingle/roleplayer-sync.py:231-245 | the counter and buffer are the reader's state after the chunk; the log is unchanged |
| MpvController.Controller.WaitBlockDone | HyperObjectLumalogySingle/roleplayer-sync.py:256-264 | reads event chunks until the count reaches `BLOCK_SIZE`, stopping at the first chunk that does so; if the chunks run out it would still be waiting |
| RoleplayerSync.InvertedOnlyRotates | HyperObjectLumalogySingle/roleplayer-sync.py:52-77 | an inverted mounting reads the same directories as the upright one and only adds a 180-degree rotation; upright ones are not rotated |
| RoleplayerSync.PickBlock | HyperObjectLumalogySingle/roleplayer-sync.py:96-103 | no block exactly when the category has no text video or fewer than three videos; otherwise a text video of the category then three of its videos, pairwise different |
| RoleplayerSync.BuildCategoryPlaylist | HyperObjectLumalogySingle/roleplayer-sync.py:110-118 | the result is the rounds' shuffles of the categories, one after the other |
| RoleplayerSync.CategoryPlaylist | HyperObjectLumalogySingle/roleplayer-sync.py:110-118 | empty exactly when there is no category; `ROUNDS` times as long as the category list; each consecutive round a permutation of the categories; each category `ROUNDS` times as often as listed |
| RoleplayerSync.TaggedRoundTrip | HyperObjectLumalogySingle/roleplayer-sync.py:341-343 | a `PLAY:`/`DONE:` message built from an index parses back to that index |
| RoleplayerSync.PlayRoundTrip | HyperObjectLumalogySingle/roleplayer-sync.py:351-352 | the follower reads back the index the leader broadcast |
| RoleplayerSync.DoneMatchesOnlyItsRound | HyperObjectLumalogySingle/roleplayer-sync.py:341-346 | a follower's DONE counts for the current round exactly when it carries the current index |
| RoleplayerSync.NonIntegerDone | HyperObjectLumalogySingle/roleplayer-sync.py:342-345 | `DONE:` followed by any digit-free payload yields no index, so it matches no round |
| RoleplayerSync.StaleDoneIgnored | HyperObjectLumalogySingle/roleplayer-sync.py:346-349 | a DONE for another round changes nothing |
| RoleplayerSync.CurrentDoneEnds | HyperObjectLumalogySingle/roleplayer-sync.py:346-349 | a DONE for the current round ends it, and a later one changes nothing |
| RoleplayerSync.RaceReader | HyperObjectLumalogySingle/roleplayer-sync.py:463-471 | while the leader waits, DONE datagrams do not disturb the end-file count: it is what the engine chunks alone give |
| RoleplayerSync.RaceFlag | HyperObjectLumalogySingle/roleplayer-sync.py:341-349 | the first-done flag is set exactly when a DONE for the current index has arrived |
| RoleplayerSync.Wrap | HyperObjectLumalogySingle/roleplayer-sync.py:436-439 | after the wrap step the index is inside the playlist, or the playlist is the rebuilt one |
| RoleplayerSync.Leader.constructor | HyperObjectLumalogySingle/roleplayer-sync.py:418-425 | the leader starts on the category playlist at index 0, with the flag clear and nothing broadcast; it is idle (asleep for good) exactly when that playlist is empty |
| RoleplayerSync.Leader.OnDone | HyperObjectLumalogySingle/roleplayer-sync.py:338-349 | the flag becomes set exactly when the DONE carries the current index, and stays set; an idle leader never started the listener |
| RoleplayerSync.Leader.Receive | HyperObjectLumalogySingle/roleplayer-sync.py:338-349 | one arrival (a DONE datagram or an engine chunk) is one step of the round race; playlist, index and broadcasts unchanged |
| RoleplayerSync.Leader.PlayRound | HyperObjectLumalogySingle/roleplayer-sync.py:449-471 | broadcasts `PLAY:<idx>`, loads the block, then consumes arrivals until the first current DONE or the fourth end-file, and no later |
| RoleplayerSync.Leader.RoundStep | HyperObjectLumalogySingle/roleplayer-sync.py:418-473 | an idle leader does nothing; otherwise one pass of the loop: wrap to a rebuilt playlist at the end (crash if it is empty); skip an unplayable category with no broadcast; otherwise play the round and advance the index by exactly one once it is over |
| RoleplayerSync.Follower.constructor | HyperObjectLumalogySingle/roleplayer-sync.py:475-483 | the follower starts in AUTO at index 0 of its own category playlist, with no leader; it is idle (asleep for good) exactly when that playlist is empty |
| RoleplayerSync.Follower.OnHeartbeat | HyperObjectLumalogySingle/roleplayer-sync.py:366-372 | a `LEADER_HERE` datagram records its sender and the time; anything else, or any datagram to an idle follower, changes nothing |
| RoleplayerSync.Follower.RegisterOnce | HyperObjectLumalogySingle/roleplayer-sync.py:374-386 | sends `REGISTER:<host>:ROLE=<role>` to the known leader, or nothing without one |
| RoleplayerSync.Follower.SendDone | HyperObjectLumalogySingle/roleplayer-sync.py:401-412 | sends `DONE:<idx>` to the known leader, or nothing without one |
| RoleplayerSync.Follower.PlayIdx | HyperObjectLumalogySingle/roleplayer-sync.py:485-501 | an index outside the playlist is ignored; otherwise the mode becomes SYNC and the index is recorded before the block is picked; a played block ends with `DONE:<idx>` |
| RoleplayerSync.Follower.OnCommand | HyperObjectLumalogySingle/roleplayer-sync.py:391-399 | an idle follower changes nothing; otherwise a command that is not `PLAY:<integer>` is ignored with nothing changed, and a `PLAY:<n>` has exactly the effect of `play_idx(n)`: nothing for an out-of-range n, else SYNC at n, the block loaded and `DONE:<n>` once it is done |
| RoleplayerSync.Follower.MainStep | HyperObjectLumalogySingle/roleplayer-sync.py:475-541 | an idle follower does nothing; otherwise with a leader seen within `LEADER_TIMEOUT` it only registers; otherwise AUTO plays the next block, wrapping and skipping like the leader |
| RoleplayerSync.Follower.AutoStep | HyperObjectLumalogySingle/roleplayer-sync.py:523-541 | past the end the playlist is rebuilt and the index reset; an empty playlist halts; a category without a full block is skipped; otherwise the block is loaded and the index moves on exactly when the engine reports it done; the rest of the state is kept |
| Roleplayer.PickAudioByRole | HyperObjectLumalogySingle/roleplayer.py:53-59 | roles 0 to 3 get a track; any other role raises `ValueError` |
| Roleplayer.EachRoleItsTrack | HyperObjectLumalogySingle/roleplayer.py:55 | different roles get different tracks, and the leader plays `drone_81.WAV` |
| Roleplayer.ListCategories | HyperObjectLumalogySingle/roleplayer.py:65-70 | a missing base directory raises `FileNotFoundError`; otherwise the sub-directory names, sorted |
| Roleplayer.CategoryDirs | HyperObjectLumalogySingle/roleplayer.py:72-79 | only `hor` and `ver` are accepted, else `ValueError`; the video directory is `<base>/<cat>/<orientation>` and the text one is it plus `_text` |
| Roleplayer.BlockShape | HyperObjectLumalogySingle/roleplayer.py:81-98 | an invalid orientation raises; no block exactly when there are too few text videos or videos; otherwise a text video then three videos, pairwise different |
| Roleplayer.BlockWhole | HyperObjectLumalogySingle/roleplayer.py:90-98 | a block has no item or exactly four |
| Roleplayer.PickBlockForCategory | HyperObjectLumalogySingle/roleplayer.py:81-98 | the method computes the block that `BlockShape` describes |
| Roleplayer.BuildLongPlaylist | HyperObjectLumalogySingle/roleplayer.py:100-116 | the playlist is built from the listed categories, each round's shuffle in order, and the listing's errors propagate |
| Roleplayer.RunRounds | HyperObjectLumalogySingle/roleplayer.py:106-114 | the nested loop's result is the rounds' blocks flattened in order |
| Roleplayer.AppendRound | HyperObjectLumalogySingle/roleplayer.py:110-114 | one round extends the playlist by the blocks of its categories, in order, incomplete ones adding nothing |
| Roleplayer.LongPlaylistShape | HyperObjectLumalogySingle/roleplayer.py:100-116 | the playlist length is a multiple of four and at most `4 * ROUNDS * |cats|` |
| Roleplayer.WriteM3u | HyperObjectLumalogySingle/roleplayer.py:118-122 | the file text is each path followed by a newline, in order |
| Roleplayer.M3uReadsBack | HyperObjectLumalogySingle/roleplayer.py:118-122 | reading the file back line by line gives exactly the paths |
| Roleplayer.GetProperty | HyperObjectLumalogySingle/roleplayer.py:156-160 | a value is returned exactly when the reply's error is `success`, and it is the reply's data |
| Roleplayer.FailedReplyNotIdle | HyperObjectLumalogySingle/roleplayer.py:274-276 | no reply or a failed one never counts as idle |
| Roleplayer.WatchMeans | HyperObjectLumalogySingle/roleplayer.py:274-285 | a recorded idle start is the time of an observation after which every observation was idle |
| Roleplayer.ReloadOnlyAfterIdleStretch | HyperObjectLumalogySingle/roleplayer.py:280-283 | a reload is attempted only after mpv has been idle for more than 0.8 s without interruption |
| Roleplayer.IdleWatch.constructor | HyperObjectLumalogySingle/roleplayer.py:261 | the watch starts with no idle start |
| Roleplayer.IdleWatch.Observe | HyperObjectLumalogySingle/roleplayer.py:274-285 | an idle start is set on the first idle observation and cleared by a non-idle one or a successful reload; a reload is attempted exactly when idleness has lasted over the margin |
| SinglePlayer.Categories | HyperObjectLumalogySingle/roleplayer-rotable.py:97-98 | a missing base directory raises `FileNotFoundError`; otherwise exactly its sub-directories |
| SinglePlayer.TwoWayLayout | HyperObjectLumalogySingle/roleplayer-fullscreen.py:59-70 | `hor` reads `hor`, anything else `ver_rotated`; the text directory is the video one plus `_text` |
| SinglePlayer.BlockShape | HyperObjectLumalogySingle/roleplayer-rotable.py:102-110 | no block exactly when the category lacks a text video or three videos; otherwise a text video then three videos, pairwise different |
| SinglePlayer.BuildLines | HyperObjectLumalogySingle/roleplayer-rotable.py:100-112 | the nested loop produces the rounds' blocks, flattened in order |
| SinglePlayer.PlaylistShape | HyperObjectLumalogySingle/roleplayer-rotable.py:100-112 | whole blocks only: a multiple of four lines, at most `4 * ROUNDS * |cats|` |
| SinglePlayer.EmptyIffNothingPlayable | HyperObjectLumalogySingle/roleplayer-rotable.py:105-110 | the playlist is empty exactly when no category has a text video and three videos |
| SinglePlayer.PlayableGivesLines | HyperObjectLumalogySingle/roleplayer-rotable.py:100-112 | a playable category is visited in the first round, so the playlist is not empty |
| SinglePlayer.NothingPlayableGivesNone | HyperObjectLumalogySingle/roleplayer-rotable.py:100-112 | with no playable category every visit is skipped and the playlist is empty |
| SinglePlayer.WritePlaylist | HyperObjectLumalogySingle/roleplayer-rotable.py:118-127 | an empty list writes nothing and returns false; otherwise the file holds one line per entry, in order, and it returns true |
| RoleplayerRotable.OrientationMap | HyperObjectLumalogySingle/roleplayer-rotable.py:34-55 | exactly the four mountings have an entry, with a rotation of 0, 90, 180 or 270 and a text directory that is the video one plus `_text` |
| RoleplayerRotable.InvertedIsHalfTurn | HyperObjectLumalogySingle/roleplayer-rotable.py:34-55 | `inverted_hor`/`inverted_ver` read the same directories as `hor`/`ver`, turned 180 degrees further; `hor*` read `hor`, `ver*` read `ver_rotated` |
| RoleplayerRotable.RotationsDistinct | HyperObjectLumalogySingle/roleplayer-rotable.py:34-55 | the four mountings have four different rotations |
| RoleplayerRotable.CategoryDirs | HyperObjectLumalogySingle/roleplayer-rotable.py:89-94 | an unknown orientation raises `KeyError`; otherwise the video directory is `<base>/<cat>/hor` for the two horizontal orientations and `<base>/<cat>/ver_rotated` for the vertical ones, the text one being it plus `_text` |
| RoleplayerRotable.BuildPlaylist | HyperObjectLumalogySingle/roleplayer-rotable.py:96-114 | a missing base raises `FileNotFoundError`, no category gives no lines, an unknown orientation raises `KeyError`, otherwise the lines of every round |
| RoleplayerRotable.BuildShape | HyperObjectLumalogySingle/roleplayer-rotable.py:96-114 | it fails exactly in those two cases; the lines are a multiple of four, at most `4 * ROUNDS * |cats|`, and empty exactly when no category is playable |
| RoleplayerRotable.WritePlaylist | HyperObjectLumalogySingle/roleplayer-rotable.py:116-127 | errors of the build propagate and write nothing; an empty playlist gives false and no file; otherwise true and one line per entry |
| RoleplayerFullscreen.CategoryDirs | HyperObjectLumalogySingle/roleplayer-fullscreen.py:59-70 | `hor` reads `<cat>/hor` and anything else `<cat>/ver_rotated`; the text directory is the video one plus `_text` |
| RoleplayerFullscreen.BuildPlaylist | HyperObjectLumalogySingle/roleplayer-fullscreen.py:72-91 | a missing base raises `FileNotFoundError`, otherwise the lines of every round |
| RoleplayerFullscreen.BuildShape | HyperObjectLumalogySingle/roleplayer-fullscreen.py:72-91 | it fails exactly when the base is missing; the lines are a multiple of four, at most `4 * ROUNDS * |cats|`, and empty exactly when no category is playable |
| RoleplayerFullscreen.WritePlaylist | HyperObjectLumalogySingle/roleplayer-fullscreen.py:93-104 | errors propagate; an empty playlist gives false and no file; otherwise true and one line per entry, in order |
| LumaCache.CategoryPoolsFrom | HyperObjectLumalogy/follower.py:63-101 | every cached path is a listed video of `hor_text`/`hor` joined under its directory, and no path is cached twice |
| LumaCache.MakePlaylist | HyperObjectLumalogy/follower.py:155-178 | nothing for an uncached category or one with no text video or fewer than three videos; otherwise a cached text video then three cached videos, pairwise different (the same rule as `make_playlist` in `HyperObjectLumalogy/leader.py`) |
| LumaCache.HostTrack | HyperObjectLumalogy/follower.py:117-124 | no track exactly when there is no audio file; otherwise one of them, joined under the audio directory |
| LumaFollower.PickAudio | HyperObjectLumalogy/follower.py:107-126 | no track when the directory is missing or holds no audio file; otherwise one of its audio files |
| LumaFollower.DoneFor | HyperObjectLumalogy/follower.py:224-235 | `done` goes to the leader exactly when one is known, otherwise nothing is sent |
| LumaFollower.ListenAsWritten | HyperObjectLumalogy/follower.py:280-311 | the listener as written raises exactly on an accepted PLAY while the local `current_category` is unbound |
| LumaFollower.FirstPlayRaises | HyperObjectLumalogy/follower.py:294-297 | for any category, leader address and sender the filter lets through (no leader known yet, or the sender is the leader), the first PLAY ends the listener thread |
| LumaFollower.AsWrittenNeverDebounces | HyperObjectLumalogy/follower.py:294-309 | even with the local bound, every accepted PLAY starts a playback: the duplicate check never sees the global |
| LumaFollower.Follower.constructor | HyperObjectLumalogy/follower.py:43-46 | an empty cache, no leader, no category, not playing, nothing sent |
| LumaFollower.Follower.BuildCache | HyperObjectLumalogy/follower.py:63-101 | with the base present, every category gets its pools and other entries are kept; a missing base changes nothing |
| LumaFollower.Follower.StartCategory | HyperObjectLumalogy/follower.py:184-199 | does nothing while a playback runs; otherwise records the category and starts the block, clearing the flag again when there is none |
| LumaFollower.Follower.SendDone | HyperObjectLumalogy/follower.py:224-235 | sends `done` to the leader when one is known |
| LumaFollower.Follower.FinishCategory | HyperObjectLumalogy/follower.py:201-218 | the end of a playback reports `done` and clears the flag |
| LumaFollower.Follower.RegisterWithLeader | HyperObjectLumalogy/follower.py:263-274 | sends `REGISTER:hello` to the known leader, or nothing |
| LumaFollower.Follower.OnBroadcast | HyperObjectLumalogy/follower.py:241-260 | only `LEADER_HERE:` counts; a new sender becomes the leader and is registered with, the same one changes nothing |
| LumaFollower.Follower.OnCommand | HyperObjectLumalogy/follower.py:280-311 | intended listener: commands from a non-leader are dropped; a PLAY of the current category is debounced; another one, unless a playback runs, makes it current and starts exactly `make_playlist`'s block for it (the flag set exactly when one started); NEXT clears the category and the flag |
| LumaNode.PickAudioDeterministic | HyperObjectLumalogy/leader.py:83-98 | no track exactly when the directory is missing or holds no audio file; otherwise one of its audio files |
| LumaNode.AudioIgnoresListingOrder | HyperObjectLumalogy/leader.py:88-96 | the track does not depend on the order the directory is listed in |
| LumaNode.DoneFor | HyperObjectLumalogy/leader.py:151-161 | `done` goes to the leader exactly when one is known |
| LumaNode.Heartbeat | HyperObjectLumalogy/leader.py:214-228 | a `LEADER_HERE:` datagram makes its sender the leader, stamps the time and returns to SYNC; anything else changes nothing |
| LumaNode.Watchdog | HyperObjectLumalogy/leader.py:230-237 | after more than `OFFLINE_AFTER` of silence the node is OFFLINE, forgetting the leader when it leaves SYNC; otherwise nothing changes |
| LumaNode.RegisterFor | HyperObjectLumalogy/leader.py:217-222 | registers exactly when a `LEADER_HERE:` comes from an address other than the stored one |
| LumaNode.OnDatagramConsistent | HyperObjectLumalogy/leader.py:210-237 | an OFFLINE node never holds a leader address, after any datagram or watchdog check |
| LumaNode.SilentLeaderKeepsSync | HyperObjectLumalogy/leader.py:210-237 | as written, a leader that falls silent for a minute leaves the node in SYNC with its address |
| LumaNode.WatchedGoesOffline | HyperObjectLumalogy/leader.py:230-237 | when the watchdog also runs on silence, a node is OFFLINE without a leader once the silence exceeds `OFFLINE_AFTER` |
| LumaNode.RunWatchedConsistent | HyperObjectLumalogy/leader.py:203-237 | from the start state, an OFFLINE node never holds a leader address |
| LumaNode.Node.constructor | HyperObjectLumalogy/leader.py:36-46 | SYNC with no leader, an empty cache, no category, not playing, nothing sent |
| LumaNode.Node.BuildCache | HyperObjectLumalogy/leader.py:55-80 | with the base present the cache is replaced by exactly its categories, each with its pools; a missing base changes nothing |
| LumaNode.CollectPools | HyperObjectLumalogy/leader.py:65-77 | the loop builds a fresh dictionary whose keys are exactly the given categories, each mapped to its pools |
| LumaNode.Node.StartCategory | HyperObjectLumalogy/leader.py:164-178 | does nothing while a playback runs; otherwise records the category and starts the block, clearing the flag when there is none |
| LumaNode.Node.SendDone | HyperObjectLumalogy/leader.py:151-161 | sends `done` to the leader when one is known |
| LumaNode.Node.FinishCategory | HyperObjectLumalogy/leader.py:180-187 | the end of a playback clears the flag and reports `done` only when asked to and a leader is known |
| LumaNode.Node.OnBroadcast | HyperObjectLumalogy/leader.py:210-237 | one datagram: the heartbeat rule, then the watchdog; registers when the leader address changed |
| LumaNode.Node.Tick | HyperObjectLumalogy/leader.py:230-237 | the watchdog run on its own, without a datagram |
| LumaNode.Node.OnCommand | HyperObjectLumalogy/leader.py:240-272 | commands are dropped unless in SYNC, and dropped from a non-leader; a PLAY of the current category is debounced; another one, unless a playback runs, makes the stripped payload current and starts exactly `make_playlist`'s block for it (the flag set exactly when one started); NEXT changes nothing |
| LumaNode.Node.OfflineStep | HyperObjectLumalogy/leader.py:276-293 | plays only when OFFLINE with a non-empty cache, never reporting `done`; when idle, the picked category becomes current and the block started is `make_playlist`'s for it, or none when it has no material |
| LumaLeader.PickCategories | HyperObjectLumalogy/Leader/leader.py:64-76 | no category when the base is missing; otherwise its sub-directories, sorted |
| LumaLeader.PickVideos | HyperObjectLumalogy/Leader/leader.py:82-108 | no block exactly when a directory is missing or there is no text video or fewer than three videos; otherwise four items |
| LumaLeader.PickVideosIsBlock | HyperObjectLumalogy/Leader/leader.py:82-108 | a non-empty result is a text video then three different videos, each joined under its directory |
| LumaLeader.Heartbeat | HyperObjectLumalogy/Leader/leader.py:140-147 | the heartbeat text starts with `LEADER_HERE:` |
| LumaLeader.HeartbeatCarriesQueue | HyperObjectLumalogy/Leader/leader.py:145 | a follower splitting the heartbeat on commas reads back exactly the category queue |
| LumaLeader.RoundCommandsAlternate | HyperObjectLumalogy/Leader/leader.py:212-245 | the commands of the completed turns of a pass (as `LumaLeader.Leader.PlayPass` logs them) alternate `PLAY:<cat>` and NEXT, each PLAY naming a category of the queue |
| LumaLeader.Leader.constructor | HyperObjectLumalogy/Leader/leader.py:251-257 | the queue is the sorted categories; no follower, no category, nothing sent |
| LumaLeader.Leader.SendToFollowers | HyperObjectLumalogy/Leader/leader.py:176-184 | the message goes to every follower that can be reached, and exactly the unreachable ones are discarded |
| LumaLeader.Leader.OnRegister | HyperObjectLumalogy/Leader/leader.py:153-170 | `REGISTER:` adds the sender to the set and re-sends `PLAY:<current>` when a category is active; other messages change nothing |
| LumaLeader.Leader.OnDone | HyperObjectLumalogy/Leader/leader.py:190-200 | the flag is set exactly by the payload `done` |
| LumaLeader.Leader.WaitDone | HyperObjectLumalogy/Leader/leader.py:239 | consumes arrivals up to and including the first `done`, or all of them if none comes |
| LumaLeader.Leader.Turn | HyperObjectLumalogy/Leader/leader.py:212-245 | the category is current before selection; without videos nothing is sent; otherwise PLAY, the playback of the block, and NEXT once a `done` arrives, each send reaching the followers still reachable at that send; `done` ends set exactly when the turn advanced |
| LumaLeader.Leader.PlayPass | HyperObjectLumalogy/Leader/leader.py:209-245 | the queue is shuffled in place; the pass runs its turns in order and stops at a turn whose `done` never comes (`Waiting`), or completes every turn (`Progress`); the log grows by exactly the round's PLAY/NEXT commands for the completed turns, then that turn's lone PLAY, all sent to the reachable followers; the screen grows by the block of every played turn, then the waiting turn's block; `done` is clear while waiting and, after a full pass, set exactly when it was set before or some turn played; an empty pass leaves the current category alone |
| LumaLeader.ScreensMatchCommands | HyperObjectLumalogy/Leader/leader.py:218-243 | the leader starts a block on its own screen for every PLAY/NEXT pair it sends: the commands of the completed turns are twice as many as the blocks played |
| LumaLeader.ScreensAreWhole | HyperObjectLumalogy/Leader/leader.py:218-236 | every block a pass plays on the leader's screen has four items: the text video and three videos |
| HyperVideos.PickVideos | HyperObject/leader2_modify.py:81-104 | no block exactly when a directory is missing or there are too few videos for the variant; otherwise one block of four |
| HyperVideos.PickVideosShape | HyperObject/leader2_modify.py:81-104 | with text, a text video then three different videos; without, four different videos |
| HyperVideos.GeneratePlaylist | HyperObject/leader2_modify.py:107-113 | the file is every block's items, flattened in order, one per line |
| HyperVideos.PlaylistReadsBack | HyperObject/follower2_org.py:89-95 | reading the file back line by line gives the flattened items |
| HyperLeader.Heartbeat | HyperObject/leader2_modify.py:24-32 | always `LEADER_HERE:<queue joined by commas>` to the presence port, plus `PLAY:<current>` to the command port exactly when a category is set |
| HyperLeader.HeartbeatCarriesQueue | HyperObject/leader2_modify.py:28 | splitting the heartbeat payload on commas reads back the queue |
| HyperLeader.TextRoundCounts | HyperObject/leader2_modify.py:140-153 | after a pass, the text round has advanced by the number of categories actually played, modulo 4; skipped ones leave it |
| HyperLeader.Leader.constructor | HyperObject/leader2_modify.py:171-173 | the queue is the base directory's sub-directories; round 0, no follower, nothing sent |
| HyperLeader.Leader.OnRegister | HyperObject/leader2_modify.py:35-44 | `REGISTER:` adds the sender to the set; other messages change nothing |
| HyperLeader.Leader.OnDone | HyperObject/leader2_modify.py:58-66 | the flag is set exactly by `done` |
| HyperLeader.Leader.SendToFollowers | HyperObject/leader2_modify.py:47-55 | the message goes to the reachable followers and exactly the unreachable ones are discarded |
| HyperLeader.Leader.Turn | HyperObject/leader2_modify.py:126-153 | the leader includes text exactly in round 0; a category without a block is skipped and keeps the round; a played one writes its playlist, sends NEXT and advances the round modulo 4 |
| HyperLeader.Leader.PlayPass | HyperObject/leader2_modify.py:179-181 | a pass over a shuffle of the queue ends at the round `TextRoundAfter` gives; the playlists grow by exactly `PassPlaylists`, one per played category in order, each built from the block its own round asks for; the log keeps its earlier sends and grows by one NEXT per played category, each to the followers that were reachable; once anything was played the unreachable followers are gone and the flag is clear, otherwise followers and flag are unchanged; the last category of the pass is current, and an empty pass leaves the current category alone |
| HyperLeader.PlaylistsCounted | HyperObject/leader2_modify.py:140-146 | a pass plays exactly one playlist per category it does not skip |
| HyperFollower.FirstLeaderHere | HyperObject/follower2_org.py:27-32 | finds the first datagram starting with `LEADER_HERE`, and none before it |
| HyperFollower.PrefixesExclusive | HyperObject/follower2_org.py:50-54 | no message is both a category list and a PLAY |
| HyperFollower.Listen | HyperObject/follower2_org.py:42-62 | `CATEGORIAS:` replaces the list with the comma-split payload; `PLAY:<c>` records `c` and starts it exactly when it differs from the last one; anything else changes nothing |
| HyperFollower.NextIgnored | HyperObject/follower2_org.py:61-62 | NEXT changes nothing |
| HyperFollower.PlayDebounced | HyperObject/follower2_org.py:57-60 | a repeated PLAY of the same category is ignored |
| HyperFollower.CategoriesArrive | HyperObject/follower2_org.py:50-53 | the leader's comma-joined list arrives as exactly that list |
| HyperFollower.NeverTwiceInARow | HyperObject/follower2_org.py:54-60 | over any run of messages no category is started twice in a row |
| HyperFollower.HeartbeatStartsOnce | HyperObject/follower2_org.py:54-60 | the leader's repeated PLAY heartbeat starts the category at most once |
| HyperFollower.PickVideos | HyperObject/follower2_org.py:70-87 | no block exactly when a directory is missing or there is no text video or fewer than three videos; otherwise one block, a text video then three different videos |
| HyperFollower.Follower.constructor | HyperObject/follower2_org.py:17-19 | no leader, no categories, nothing started |
| HyperFollower.Follower.DiscoverLeader | HyperObject/follower2_org.py:22-32 | a known leader skips discovery; otherwise the sender of the first `LEADER_HERE` becomes the leader and listening stops there |
| HyperFollower.Follower.RegisterWithLeader | HyperObject/follower2_org.py:34-40 | sends `REGISTER:<host>` to the leader's port 8899 |
| HyperFollower.Follower.OnCommand | HyperObject/follower2_org.py:42-62 | the state and the category started are the listener rule's |
| HyperFollower.Follower.Reproduce | HyperObject/follower2_org.py:97-115 | a category without a block plays nothing; otherwise its playlist is played and `done` is sent to the leader |
| Autoplayer.PickBlock | python-autoplayer/autoplayer.py:75-84 | no block exactly when the category lacks a text video or three videos; otherwise a text video then three different videos |
| Autoplayer.PlayBlock | python-autoplayer/autoplayer.py:119-126 | each video plays only while time is left in the block, is asked for `min(VIDEO_DURATION, remaining)`, and the loop stops at the first reading past the budget |
| Autoplayer.RunsBehindClock | python-autoplayer/autoplayer.py:119-126 | the videos run so far took no longer than the clock moved, plus the last one's run |
| Autoplayer.BlockWithinBudget | python-autoplayer/autoplayer.py:119-126 | however long each mpv run lasts, the videos of a block together take at most `BLOCK_DURATION` |
| Autoplayer.Step | python-autoplayer/autoplayer.py:108-129 | over the base's listed sub-directories, no category raises `IndexError`; an empty block gives no playback (retry); otherwise the budgeted videos and then the black gap |

## Left out

- Launching, watching and restarting mpv and the audio players (`subprocess`, `proc.poll()`), the audio loops, and the audio choice of `leader2_modify.py` (`play_audio_background`) and `autoplayer.py` (`pick_audio`, `audio_loop`): process control outside the model.
- UDP sockets, broadcast and the Unix-socket IPC: only the text of each message and the state change of each handler are modelled; a sender address is a string parameter.
- Threads, locks and events: each handler is one atomic step; interleavings are not modelled, and the follower of `roleplayer-sync.py` blocking inside its listener thread is modelled as one call of `PlayIdx`.
- JSON encoding and decoding: an mpv event line is given an event kind by a function parameter; the property reply of `roleplayer.py` is a record.
- The wall clock, `time.sleep` and float seconds: times are integer milliseconds passed in; the sleeps and polling intervals are left out; the two-second delay of `send_done_later` in `leader2_modify.py` is not modelled: its `done` is taken as raised when the wait begins.
- The `random` module: choices, samples and shuffles are parameters; an in-place shuffle is modelled as the permuted value it leaves behind.
- Temporary files and `os.remove`: the playlist file is modelled as the text written.
- `str.lower` and `str.strip` cover ASCII letters and the ASCII and Latin-1 whitespace only; `int()` accepts surrounding whitespace, an optional sign and ASCII digits only: no underscores, no non-ASCII digits; byte decoding errors are not modelled.
- `os.path.join`/`Path /` with an absolute second part is not modelled: a path is the directory, `/`, and the name.
- `Path.exists()` versus `is_dir()` on a file of the same name: a path is a directory exactly when it is a key of the tree.
- `HyperLeader.Leader.SendToFollowers` and `LumaLeader.Leader.SendToFollowers`: the order in which followers are sent to is not modelled (the recipients are a set).
- `LumaLeader.Leader.PlayPass`: one pass of `play_loop`'s endless loop; the outer loop that reshuffles and starts again is not modelled, and a turn left waiting ends the pass; which followers cannot be reached is fixed for the whole pass (`LumaLeader.Leader.Turn` takes one set per send, but the pass gives every send the same set).
- `HyperLeader.Leader.PlayPass`: one shuffle and `play_loop` of `main`'s endless loop; the loop that starts again is not modelled, and which followers cannot be reached is fixed for the whole pass.
- `HyperLeader.Leader.constructor`: requires the base directory to exist, since `os.listdir` raises otherwise and the script stops.
- `HyperFollower.Follower.Reproduce`: `done` with no known leader (a send to `None` that raises and is lost) is modelled as no datagram.
- `Autoplayer.Step`: one pass of the endless `video_loop`; the mpv run lengths are not outputs of the model, and the clock readings are supplied as inputs.
- `RoleplayerSync.Follower.MainStep`, `RoleplayerSync.Follower.AutoStep` and `RoleplayerSync.Leader.RoundStep`: the wait for the block end consumes a given sequence of engine chunks; the polling loop itself is not modelled.
- `MpvController.Controller.WaitBlockDone`: the polling with `POLL_DT` is modelled as reading chunks until the count is reached.
- `start_mpv` and `stop` of `MPVController`, and `loadlist_replace`, `launch_audio_mpv`, `launch_video_mpv`, `watchdog_audio` of `roleplayer.py`: mpv process and IPC plumbing.
- The `main` functions of every script: argument reading and thread start-up.

## Findings

| source | as written | input that shows it | evidently intended | confidence | as-written member | corrected member |
|---|---|---|---|---|---|---|
| HyperObjectLumalogy/follower.py:297-309 | `listen_for_commands` assigns `current_category = None` on NEXT without a `global` declaration, so `current_category` is a local of the function everywhere in it and the PLAY check at line 297 reads an unbound local | the first `PLAY:news` from the leader, before any NEXT: `UnboundLocalError` ends the listener thread | the check reads and NEXT clears the global `current_category`, so a repeated PLAY is debounced and NEXT resets it | not executed | LumaFollower.FirstPlayRaises | LumaFollower.Follower.OnCommand |
| HyperObjectLumalogy/leader.py:210-237 | the OFFLINE watchdog runs only after `recvfrom` returns a datagram, so a leader that stops broadcasting is never noticed | a `LEADER_HERE:` at 1 s, then silence until 61 s: the node stays in SYNC with the old leader address | after `OFFLINE_AFTER` of silence the node goes OFFLINE and forgets the leader, whether or not a datagram arrives | not executed | LumaNode.SilentLeaderKeepsSync | LumaNode.WatchedGoesOffline |
