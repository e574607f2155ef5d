/** The playback state machine behind the web player's POST routes.

    The four process-wide globals become one immutable `PlayerState`, and every route
    becomes a function from the state before the request to a `Reply`: the outcome the
    route reports and the state the globals hold afterwards. The functions are total:
    a state the routes never produce still gets the Python behaviour, including negative
    list subscripts and an uncaught `IndexError` (`Raised`), in which case the globals
    keep whatever was assigned before the failing subscript. */
module Player {
  import opened Optional
  import opened PyText
  import opened PyList

  /** `current_state`: 'stopped', 'paused' or 'playing'. */
  datatype Status = Stopped | Paused | Playing

  /** The globals `current_state`, `current_song`, `playlist` and `current_index`
      (-1 meaning no song is selected). */
  datatype PlayerState = PlayerState(status: Status, song: Option<string>, playlist: seq<string>, index: int)

  /** The error replies, one per distinct error message. */
  datatype Failure =
    | EmptyPlaylist  // 'No songs in playlist'
    | NotPlaying     // 'No music playing'
    | EmptyName      // 'Song name cannot be empty'
    | Duplicate      // 'Song already in playlist'
    | NotFound       // 'Song not found in playlist'

  /** `Ok` is a 'success' reply, `Failed` an 'error' reply, and `Raised` an `IndexError`
      escaping the route. */
  datatype Outcome = Ok | Failed(failure: Failure) | Raised

  datatype Reply = Reply(outcome: Outcome, state: PlayerState)

  /** The playlist the process starts with. */
  const SampleSongs: seq<string> := ["spotify_song1", "spotify_song2", "local_song1.mp3", "local_song2.mp3"]

  /** The globals at start-up: stopped, nothing selected, the sample playlist. */
  const Initial: PlayerState := PlayerState(Stopped, None, SampleSongs, -1)

  /** `current_index` is the unset marker -1 or a position of the playlist. */
  predicate IndexInRange(s: PlayerState) {
    -1 <= s.index < |s.playlist|
  }

  /** The song name a request carries: `data.get('song', '').strip()`, with `None` for a
      body that has no 'song' key. */
  function SongArg(arg: Option<string>): (name: string)
    ensures |name| > 0 ==> !IsSpace(name[0]) && !IsSpace(name[|name| - 1])
    ensures arg.None? ==> name == []
    ensures arg.Some? ==> name == Strip(arg.value)
  {
    match arg
    case None => Strip("")
    case Some(v) => Strip(v)
  }

  /** POST /api/play. */
  function Play(s: PlayerState): (r: Reply)
    ensures |s.playlist| == 0 ==> r == Reply(Failed(EmptyPlaylist), s)
    ensures r.state.playlist == s.playlist
    ensures IndexInRange(s) && |s.playlist| > 0 ==>
      && r.outcome == Ok
      && r.state.index == (if s.index == -1 then 0 else s.index)
    ensures r.outcome == Ok ==> r.state.status == Playing && r.state.song.Some? && r.state.song.value in s.playlist
    ensures r.outcome == Ok ==> -|s.playlist| <= r.state.index < |s.playlist|
    ensures r.outcome == Ok && 0 <= r.state.index ==> r.state.song == Some(s.playlist[r.state.index])
    ensures r.outcome != Ok ==> r.state == s
    ensures 0 < |s.playlist| && s.index != -1 && !(-|s.playlist| <= s.index < |s.playlist|) ==>
      r == Reply(Raised, s)
    ensures 0 < |s.playlist| && -|s.playlist| <= s.index < -1 ==>
      && r.outcome == Ok
      && r.state.index == s.index
      && r.state.song == Some(s.playlist[|s.playlist| + s.index])
  {
    if |s.playlist| == 0 then Reply(Failed(EmptyPlaylist), s)
    else
      var i := if s.index == -1 then 0 else s.index;
      match PyIndex(s.playlist, i)
      case None => Reply(Raised, s.(index := i))
      case Some(x) => Reply(Ok, s.(status := Playing, song := Some(x), index := i))
  }

  /** POST /api/pause. */
  function Pause(s: PlayerState): (r: Reply)
    ensures r.outcome == Ok <==> s.status == Playing
    ensures r.outcome == Ok ==> r.state == s.(status := Paused)
    ensures r.outcome != Ok ==> r == Reply(Failed(NotPlaying), s)
  {
    if s.status == Playing then Reply(Ok, s.(status := Paused))
    else Reply(Failed(NotPlaying), s)
  }

  /** POST /api/stop. */
  function Stop(s: PlayerState): (r: Reply)
    ensures r.outcome == Ok
    ensures r.state.status == Stopped && r.state.song == None && r.state.index == -1
    ensures r.state.playlist == s.playlist
  {
    Reply(Ok, s.(status := Stopped, song := None, index := -1))
  }

  /** POST /api/skip: the next song, wrapping from the last entry (and from the unset
      index) to the first; the playback status is left as it was. */
  function Skip(s: PlayerState): (r: Reply)
    ensures |s.playlist| == 0 ==> r == Reply(Failed(EmptyPlaylist), s)
    ensures r.state.playlist == s.playlist && r.state.status == s.status
    ensures IndexInRange(s) && |s.playlist| > 0 ==>
      && r.outcome == Ok
      && r.state.index == (s.index + 1) % |s.playlist|
    ensures r.outcome == Ok ==> -|s.playlist| <= r.state.index < |s.playlist|
    ensures r.outcome == Ok && 0 <= r.state.index ==> r.state.song == Some(s.playlist[r.state.index])
    ensures r.outcome != Ok ==> r.state.song == s.song
    ensures 0 < |s.playlist| <= s.index + 1 ==> r.outcome == Ok && r.state.index == 0
    ensures 0 < |s.playlist| && s.index + 1 < -|s.playlist| ==>
      r == Reply(Raised, s.(index := s.index + 1))
    ensures 0 < |s.playlist| && -|s.playlist| <= s.index + 1 < 0 ==>
      && r.outcome == Ok
      && r.state.index == s.index + 1
      && r.state.song == Some(s.playlist[|s.playlist| + s.index + 1])
  {
    if |s.playlist| == 0 then Reply(Failed(EmptyPlaylist), s)
    else
      var i := if s.index < |s.playlist| - 1 then s.index + 1 else 0;
      NextWraps(s.index, |s.playlist|);
      match PyIndex(s.playlist, i)
      case None => Reply(Raised, s.(index := i))
      case Some(x) => Reply(Ok, s.(song := Some(x), index := i))
  }

  /** The skip arithmetic is the successor modulo the playlist length. */
  lemma NextWraps(k: int, n: int)
    requires n > 0
    ensures -1 <= k < n ==> (if k < n - 1 then k + 1 else 0) == (k + 1) % n
  {
  }

  /** POST /api/previous: the song before, wrapping from the first entry (and from the
      unset index) to the last; the playback status is left as it was. */
  function Previous(s: PlayerState): (r: Reply)
    ensures |s.playlist| == 0 ==> r == Reply(Failed(EmptyPlaylist), s)
    ensures r.state.playlist == s.playlist && r.state.status == s.status
    ensures IndexInRange(s) && |s.playlist| > 0 ==>
      && r.outcome == Ok
      && 0 <= r.state.index < |s.playlist|
      && (s.index == -1 ==> r.state.index == |s.playlist| - 1)
      && (0 <= s.index ==> r.state.index == (s.index - 1) % |s.playlist|)
    ensures r.outcome == Ok ==> -|s.playlist| <= r.state.index < |s.playlist|
    ensures r.outcome == Ok && 0 <= r.state.index ==> r.state.song == Some(s.playlist[r.state.index])
    ensures r.outcome != Ok ==> r.state.song == s.song
    ensures 0 < |s.playlist| && s.index <= 0 ==> r.outcome == Ok && r.state.index == |s.playlist| - 1
    ensures 0 < s.index <= |s.playlist| ==> r.outcome == Ok && r.state.index == s.index - 1
    ensures 0 < |s.playlist| < s.index ==> r == Reply(Raised, s.(index := s.index - 1))
  {
    if |s.playlist| == 0 then Reply(Failed(EmptyPlaylist), s)
    else
      var i := if s.index > 0 then s.index - 1 else |s.playlist| - 1;
      match PyIndex(s.playlist, i)
      case None => Reply(Raised, s.(index := i))
      case Some(x) => Reply(Ok, s.(song := Some(x), index := i))
  }

  /** POST /api/add_song. */
  function AddSong(s: PlayerState, arg: Option<string>): (r: Reply)
    ensures SongArg(arg) == [] ==> r == Reply(Failed(EmptyName), s)
    ensures SongArg(arg) != [] && SongArg(arg) in s.playlist ==> r == Reply(Failed(Duplicate), s)
    ensures r.outcome == Ok <==> SongArg(arg) != [] && SongArg(arg) !in s.playlist
    ensures r.outcome == Ok ==>
      && |r.state.playlist| == |s.playlist| + 1
      && r.state.playlist[..|s.playlist|] == s.playlist
      && r.state.playlist[|s.playlist|] == SongArg(arg)
      && r.state.(playlist := s.playlist) == s
    ensures NoDup(s.playlist) ==> NoDup(r.state.playlist)
  {
    var name := SongArg(arg);
    if name == [] then Reply(Failed(EmptyName), s)
    else if name in s.playlist then Reply(Failed(Duplicate), s)
    else
      assert (s.playlist + [name])[..|s.playlist|] == s.playlist;
      Reply(Ok, s.(playlist := s.playlist + [name]))
  }

  /** POST /api/remove_song: deletes the first entry equal to the name, then repairs the
      selection. Removing the selected song clears it; otherwise an index left past the
      end is pulled back to the new last entry, whose name becomes the current song (the
      old name stays when the playlist is now empty). */
  function RemoveSong(s: PlayerState, arg: Option<string>): (r: Reply)
    ensures SongArg(arg) !in s.playlist ==> r == Reply(Failed(NotFound), s)
    ensures r.outcome == Ok <==> SongArg(arg) in s.playlist
    ensures r.state.status == s.status
    ensures r.outcome == Ok ==>
      && r.state.playlist == RemoveFirst(s.playlist, SongArg(arg))
      && |r.state.playlist| == |s.playlist| - 1
    ensures r.outcome == Ok && s.song == Some(SongArg(arg)) ==>
      r.state.song == None && r.state.index == -1
    ensures r.outcome == Ok && s.song != Some(SongArg(arg)) && s.index >= |s.playlist| - 1 ==>
      && r.state.index == |s.playlist| - 2
      && (r.state.index >= 0 ==> r.state.song == Some(r.state.playlist[r.state.index]))
      && (r.state.index < 0 ==> r.state.song == s.song)
    ensures r.outcome == Ok && s.song != Some(SongArg(arg)) && s.index < |s.playlist| - 1 ==>
      r.state.index == s.index && r.state.song == s.song
    ensures IndexInRange(s) ==> IndexInRange(r.state)
  {
    var name := SongArg(arg);
    if name !in s.playlist then Reply(Failed(NotFound), s)
    else
      var rest := RemoveFirst(s.playlist, name);
      if s.song == Some(name) then
        Reply(Ok, s.(playlist := rest, song := None, index := -1))
      else if s.index >= |rest| then
        var i := |rest| - 1;
        Reply(Ok, s.(playlist := rest, index := i, song := if i >= 0 then Some(rest[i]) else s.song))
      else
        Reply(Ok, s.(playlist := rest))
  }

  /** One request to a state-changing route. */
  datatype Command =
    | PlayCmd
    | PauseCmd
    | StopCmd
    | SkipCmd
    | PreviousCmd
    | AddSongCmd(arg: Option<string>)
    | RemoveSongCmd(arg: Option<string>)

  /** Dispatches one request to its route. */
  function Step(s: PlayerState, c: Command): Reply {
    match c
    case PlayCmd => Play(s)
    case PauseCmd => Pause(s)
    case StopCmd => Stop(s)
    case SkipCmd => Skip(s)
    case PreviousCmd => Previous(s)
    case AddSongCmd(a) => AddSong(s, a)
    case RemoveSongCmd(a) => RemoveSong(s, a)
  }

  /** The globals after serving the requests one at a time, in order; a failed request
      leaves the globals as its route left them. */
  function Run(s: PlayerState, cs: seq<Command>): PlayerState
    decreases |cs|
  {
    if cs == [] then s else Run(Step(s, cs[0]).state, cs[1..])
  }
}
