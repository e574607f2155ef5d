# Sound-Stream playback state machine

A Dafny model of the playlist and playback logic behind the Sound-Stream web player
(`Application.py`). The Flask routes there keep four process-wide globals:
`current_state` ('stopped', 'paused' or 'playing'), `current_song` (a name or `None`),
`playlist` (a list of names) and `current_index` (-1 meaning nothing is selected). The
POST routes play, pause, stop, skip, previous, add_song and remove_song are transitions
over those globals.

The model turns the globals into one immutable `Player.PlayerState` and each route into
a pure function returning a `Player.Reply`: an outcome (`Ok` for a 'success' reply,
`Failed(...)` naming which 'error' reply, or `Raised` for an `IndexError` escaping the
route) together with the globals afterwards. The functions are total. A state the routes
never produce still gets Python's behaviour: negative list subscripts count from the end,
an out-of-range subscript raises, and the globals keep what was assigned before the
failing subscript. `Player.Step` dispatches one request and `Player.Run` serves a sequence
of them, the requests being handled one at a time.

Modules:

- `Optional` — `Option`, standing for Python's `None`-or-value.
- `PyText` — `str.strip()`. It uses the exact set of code points Python's `str.isspace()`
  accepts.
- `PyList` — list subscripting (`PyIndex`), `list.index` (`FirstIndex`), `list.remove`
  (`RemoveFirst`), and "no duplicates".
- `Player` — the state, the seven routes, `Step` and `Run`.
- `PlayerProperties` — the invariant the routes keep, and properties relating routes.
- `PlayerScenarios` — short request sequences worked through on concrete playlists.

The invariant (`PlayerProperties.WellFormed`) has four parts:

- `-1 <= current_index < len(playlist)`;
- the index is -1 exactly when no song is selected;
- a selected song is in the playlist;
- no name is listed twice.

It holds at start-up and every route keeps it. So after any sequence of requests, no
route can raise `IndexError` (`ReachableNeverRaises`).

"The selected song is the one at the index" is not an invariant. Removing an entry
before the selected one shifts the list under an unchanged index
(`PlayerProperties.RemoveEarlierEntryDesyncs`).

Behaviour of the code worth noting:

- skip and previous never change `current_state`, and do not start playback;
- after remove_song the name and the index may disagree, as above;
- when remove_song empties the playlist without removing the selected name, the index
  becomes -1 and `current_song` keeps its old value. From well-formed states this case
  cannot arise.

## Model

| member | source | states |
|---|---|---|
| `PyText.Strip` | Application.py:124 | `str.strip()` returns a contiguous slice of its argument; everything cut off on either side is whitespace, and a non-empty result neither starts nor ends with whitespace |
| `PyText.StripEmptyIffAllSpace` | Application.py:124-127 | the stripped name is empty, the case rejected as 'Song name cannot be empty', exactly when the raw name is all whitespace |
| `PyText.StripTrimmed` | Application.py:124 | a name with no whitespace at either end passes through strip unchanged |
| `PyText.StripIdempotent` | Application.py:142 | stripping an already stripped name changes nothing |
| `PyList.PyIndex` | Application.py:51 | a list subscript succeeds exactly for indices in `[-len, len)`; it yields entry `i` for a non-negative `i` and entry `len + i` for a negative one |
| `PyList.FirstIndex` | Application.py:148 | `list.index` yields a position holding the value with no earlier occurrence |
| `PyList.RemoveFirst` | Application.py:148 | `list.remove` of a listed value shortens the list by one; an unlisted value leaves the list unchanged |
| `PyList.RemoveFirstMembers` | Application.py:148 | `list.remove` lists no new value and keeps every value other than the removed one |
| `PyList.RemoveFirstIsSplice` | Application.py:148 | `list.remove` equals cutting the list around the position `list.index` reports, keeping the order of the rest |
| `PyList.RemoveFirstMultiset` | Application.py:148 | `list.remove` takes away exactly one copy of the value and leaves every other count alone |
| `PyList.RemoveFirstNoDup` | Application.py:148 | removing from a duplicate-free list keeps it duplicate-free, and the removed value is no longer listed |
| `PyList.RemoveFirstAppended` | Application.py:132-148 | removing a value that was just appended, and was not listed before, gives back the original list |
| `PyList.AppendNoDup` | Application.py:129-132 | appending an unlisted value keeps a list duplicate-free |
| `Player.SongArg` | Application.py:123-124 | the request's name is the stripped 'song' value, so it has no whitespace at either end; a body without a 'song' key gives the empty name |
| `Player.Play` | Application.py:41-54 | empty playlist: 'No songs in playlist' with nothing changed. Index in range: success, the unset index becomes 0 and any other index is kept. On success the player is playing and the song is the listed entry at the index. An index at or past the end, or below `-len`, raises `IndexError` with nothing changed. An index in `[-len, -1)` is kept and selects entry `len + index`. The playlist never changes; a failed play changes nothing |
| `Player.Pause` | Application.py:57-65 | succeeds exactly when playing, then only the status becomes paused; otherwise 'No music playing' with nothing changed |
| `Player.Stop` | Application.py:68-76 | always succeeds: stopped, no song, index -1, playlist untouched |
| `Player.Skip` | Application.py:79-96 | empty playlist: error with nothing changed. Index in range: success and the new index is `(old + 1) mod len`, so the unset index and the last entry both go to 0. An index at or past the last entry also goes to 0. From a negative index the new index is `old + 1`: below `-len` this raises `IndexError` with only the index moved, otherwise the song is entry `len + old + 1`. The song becomes the entry at the new index. Status and playlist are unchanged |
| `Player.NextWraps` | Application.py:86-89 | the skip step, "next index, or 0 after the last entry", is the successor modulo the playlist length for every index from -1 to the last position |
| `Player.Previous` | Application.py:99-116 | empty playlist: error with nothing changed. Index in range: success with the new index in range; from a position the new index is `(old - 1) mod len`, and from the unset index it is the last entry. From any index at most 0 it is the last entry, and from `len` it is `len - 1`. An index past `len` raises `IndexError` with only the index moved down by one. The song becomes the entry at the new index. Status and playlist are unchanged |
| `Player.AddSong` | Application.py:119-134 | a blank name gives 'Song name cannot be empty' and a listed name 'Song already in playlist', both with nothing changed. Success happens exactly otherwise: the stripped name is appended, earlier entries and all other globals are unchanged, and a duplicate-free playlist stays duplicate-free |
| `Player.RemoveSong` | Application.py:137-159 | success exactly when the name is listed, otherwise 'Song not found in playlist' with nothing changed. On success the playlist is the old one after `list.remove` of the name, one entry shorter. Removing the current song clears song and index. An index left past the end moves to the new last entry, whose name becomes the song. Any other index and song are kept. The status never changes, and `-1 <= index < len` is preserved |
| `PlayerProperties.InitialWellFormed` | Application.py:9-23 | the start-up globals satisfy the invariant |
| `PlayerProperties.StepKeepsIndexInRange` | Application.py:41-159 | every route preserves `-1 <= current_index < len(playlist)`, and while it holds no route raises |
| `PlayerProperties.RemoveSongKeepsWellFormed` | Application.py:144-157 | remove_song preserves the full invariant, including that a selected song is listed |
| `PlayerProperties.StepKeepsWellFormed` | Application.py:41-159 | every route preserves the full invariant and, from a well-formed state, never raises |
| `PlayerProperties.RunKeepsWellFormed` | Application.py:41-159 | any sequence of requests preserves the invariant |
| `PlayerProperties.ReachableNeverRaises` | Application.py:9-159 | after any requests since start-up the globals are well formed and the next request cannot raise `IndexError` |
| `PlayerProperties.PlayCases` | Application.py:45-52 | on a consistent state play either reports the empty playlist and changes nothing, or succeeds playing in sync, at index 0 when nothing was selected and at the old index otherwise |
| `PlayerProperties.PauseThenPlayResumes` | Application.py:48-65 | pausing and then playing returns to exactly the state before, with the same song |
| `PlayerProperties.StopIdempotent` | Application.py:72-76 | a second stop yields the same reply as the first |
| `PlayerProperties.SkipPreviousSync` | Application.py:86-111 | with the index in range, skip and previous leave a valid index whose entry is the current song |
| `PlayerProperties.SkipThenPrevious` | Application.py:86-111 | from any position, skip then previous restores the index; if the song matched the index, the whole state is restored |
| `PlayerProperties.PreviousThenSkip` | Application.py:86-111 | from any position, previous then skip restores the index; if the song matched the index, the whole state is restored |
| `PlayerProperties.AddTwiceIsDuplicate` | Application.py:129-132 | after a successful add, adding the same name again is rejected as a duplicate and the playlist keeps its length |
| `PlayerProperties.AddThenRemove` | Application.py:119-159 | on a consistent state, removing a song that was just added restores the state exactly |
| `PlayerProperties.RemoveSongExactly` | Application.py:144-148 | in a duplicate-free playlist the removed name is gone, the rest keeps its order, and the counts of other names are unchanged |
| `PlayerProperties.RemoveEarlierEntryDesyncs` | Application.py:151-157 | removing an entry before the selected one leaves a well-formed state whose song is no longer the entry at the index |
| `PlayerScenarios.PlaySkipWraps` | Application.py:41-96 | on [A, B, C] with nothing selected, play selects A, and skips give B, then C, then A again, while playing |
| `PlayerScenarios.PreviousWraps` | Application.py:106-111 | on [A, B] at A, previous wraps to B |
| `PlayerScenarios.AddOnEmpty` | Application.py:124-132 | adding " s1\t" to an empty playlist lists "s1" and selects nothing |
| `PlayerScenarios.RemoveOnlySong` | Application.py:144-157 | removing the only song leaves an empty playlist with nothing selected |
| `PlayerScenarios.BlankNamesRejected` | Application.py:123-127 | a body without a 'song' key, or with a blank one, is rejected as an empty name |

## Left out

- The Flask application, route dispatch, `jsonify`, `render_template` and the page route (Application.py:1-6, 25-28). Each route's reply is modelled as an outcome tag, not a JSON response.
- The read-only routes /api/status, /api/playlist and /api/current_song (Application.py:30-38, 161-176). They only report the fields of `PlayerState`.
- The reply message texts. This includes the two texts skip and previous choose between by `current_state`. Only which reply was given is modelled.
- `request.get_json()` returning `None`, and a 'song' value that is not a string. Both end in an uncaught exception before any global changes.
- The `__main__` block: console output, creating the template directory, moving the page file, starting the server (Application.py:178-193).
- Concurrent requests against the shared globals. Requests are modelled as atomic and served one at a time.
- The class-based player in Music Player.py is not part of this model: its sources, observers, `load_playlist` and `reorder_songs` do not feed the web player's state.
