/** What the routes guarantee when they are only ever applied to states they produce
    themselves, starting from the start-up globals. */
module PlayerProperties {
  import opened Optional
  import opened PyText
  import opened PyList
  import opened Player

  /** The invariant the routes keep: the index is -1 or a position of the playlist, it is -1
      exactly when no song is selected, and a selected song is in the playlist. */
  predicate Consistent(s: PlayerState) {
    && IndexInRange(s)
    && (s.index == -1 <==> s.song == None)
    && (s.song.Some? ==> s.song.value in s.playlist)
  }

  /** `Consistent`, and no song is listed twice. */
  predicate WellFormed(s: PlayerState) {
    Consistent(s) && NoDup(s.playlist)
  }

  /** The selected song is the one at the index. Play, skip and previous establish this;
      it is not an invariant, see `RemoveEarlierEntryDesyncs`. */
  predicate Synced(s: PlayerState) {
    0 <= s.index < |s.playlist| && s.song == Some(s.playlist[s.index])
  }

  lemma InitialWellFormed()
    ensures WellFormed(Initial)
  {
  }

  /** The bounded-index invariant alone is kept by every route, and while it holds no
      list subscript in any route raises. */
  lemma StepKeepsIndexInRange(s: PlayerState, c: Command)
    requires IndexInRange(s)
    ensures IndexInRange(Step(s, c).state)
    ensures Step(s, c).outcome != Raised
  {
  }

  /** Removing a song keeps the invariant: the selection is either cleared, kept (and then
      still listed, being a different name), or moved to the new last entry. */
  lemma RemoveSongKeepsWellFormed(s: PlayerState, arg: Option<string>)
    requires WellFormed(s)
    ensures WellFormed(RemoveSong(s, arg).state)
  {
    var name := SongArg(arg);
    RemoveFirstNoDup(s.playlist, name);
    RemoveFirstMembers(s.playlist, name);
  }

  /** Every route keeps `WellFormed`, and from a well-formed state none of them raises. */
  lemma StepKeepsWellFormed(s: PlayerState, c: Command)
    requires WellFormed(s)
    ensures WellFormed(Step(s, c).state)
    ensures Step(s, c).outcome != Raised
  {
    if c.RemoveSongCmd? {
      RemoveSongKeepsWellFormed(s, c.arg);
    }
  }

  /** Any sequence of requests keeps `WellFormed`. */
  lemma {:induction false} RunKeepsWellFormed(s: PlayerState, cs: seq<Command>)
    requires WellFormed(s)
    ensures WellFormed(Run(s, cs))
    decreases |cs|
  {
    if cs != [] {
      StepKeepsWellFormed(s, cs[0]);
      RunKeepsWellFormed(Step(s, cs[0]).state, cs[1..]);
    }
  }

  /** Whatever requests the server has served since start-up, the globals are well formed
      and the next request cannot end in an `IndexError`. */
  lemma ReachableNeverRaises(cs: seq<Command>, c: Command)
    ensures WellFormed(Run(Initial, cs))
    ensures Step(Run(Initial, cs), c).outcome != Raised
  {
    InitialWellFormed();
    RunKeepsWellFormed(Initial, cs);
    StepKeepsWellFormed(Run(Initial, cs), c);
  }

  /** Play on an empty playlist reports the empty playlist and changes nothing; on a
      non-empty one it selects the first song when nothing was selected, keeps the
      selection otherwise, and leaves the player playing in sync. */
  lemma PlayCases(s: PlayerState)
    requires Consistent(s)
    ensures |s.playlist| == 0 ==> Play(s) == Reply(Failed(EmptyPlaylist), s)
    ensures |s.playlist| > 0 ==>
      && Play(s).outcome == Ok
      && Play(s).state.status == Playing
      && Synced(Play(s).state)
      && (s.song == None ==> Play(s).state.index == 0)
      && (s.song != None ==> Play(s).state.index == s.index)
  {
  }

  /** Pausing and then playing resumes the same song. */
  lemma PauseThenPlayResumes(s: PlayerState)
    requires s.status == Playing && Synced(s)
    ensures Play(Pause(s).state) == Reply(Ok, s)
  {
  }

  /** Stop is idempotent: a second stop succeeds and lands in the same state. */
  lemma StopIdempotent(s: PlayerState)
    ensures Stop(Stop(s).state) == Stop(s)
  {
  }

  /** Skip and previous leave a selected, in-sync song. */
  lemma SkipPreviousSync(s: PlayerState)
    requires IndexInRange(s) && |s.playlist| > 0
    ensures Synced(Skip(s).state) && Synced(Previous(s).state)
  {
  }

  /** Skip then previous comes back to the starting position; when the song was in sync
      with the index the whole state is restored. */
  lemma SkipThenPrevious(s: PlayerState)
    requires 0 <= s.index < |s.playlist|
    ensures Previous(Skip(s).state).state.index == s.index
    ensures Synced(s) ==> Previous(Skip(s).state) == Reply(Ok, s)
  {
  }

  /** Previous then skip comes back to the starting position likewise. */
  lemma PreviousThenSkip(s: PlayerState)
    requires 0 <= s.index < |s.playlist|
    ensures Skip(Previous(s).state).state.index == s.index
    ensures Synced(s) ==> Skip(Previous(s).state) == Reply(Ok, s)
  {
  }

  /** Adding the same name twice: the second request reports a duplicate and the playlist
      keeps its length. */
  lemma AddTwiceIsDuplicate(s: PlayerState, arg: Option<string>)
    requires AddSong(s, arg).outcome == Ok
    ensures AddSong(AddSong(s, arg).state, arg) == Reply(Failed(Duplicate), AddSong(s, arg).state)
    ensures |AddSong(s, arg).state.playlist| == |s.playlist| + 1
  {
  }

  /** Removing a song that was just added undoes the addition entirely. */
  lemma AddThenRemove(s: PlayerState, arg: Option<string>)
    requires Consistent(s) && AddSong(s, arg).outcome == Ok
    ensures RemoveSong(AddSong(s, arg).state, arg) == Reply(Ok, s)
  {
    var name := SongArg(arg);
    assert AddSong(s, arg).state.playlist == s.playlist + [name];
    RemoveFirstAppended(s.playlist, name);
  }

  /** In a playlist without duplicates, remove takes out exactly the named song: it is no
      longer listed, every other entry keeps its relative order, and the counts of all
      other songs are unchanged. */
  lemma RemoveSongExactly(s: PlayerState, arg: Option<string>)
    requires NoDup(s.playlist) && SongArg(arg) in s.playlist
    ensures SongArg(arg) !in RemoveSong(s, arg).state.playlist
    ensures RemoveSong(s, arg).state.playlist ==
      s.playlist[..FirstIndex(s.playlist, SongArg(arg))] + s.playlist[FirstIndex(s.playlist, SongArg(arg)) + 1..]
    ensures multiset(RemoveSong(s, arg).state.playlist) == multiset(s.playlist) - multiset{SongArg(arg)}
  {
    RemoveFirstNoDup(s.playlist, SongArg(arg));
    RemoveFirstIsSplice(s.playlist, SongArg(arg));
    RemoveFirstMultiset(s.playlist, SongArg(arg));
  }

  /** Removing an entry before the selected one shifts the playlist under the index while
      the song name stays, so the name and the index no longer agree. */
  lemma RemoveEarlierEntryDesyncs()
    ensures var s := PlayerState(Playing, Some("b"), ["a", "b", "c"], 1);
      && Synced(s)
      && WellFormed(RemoveSong(s, Some("a")).state)
      && !Synced(RemoveSong(s, Some("a")).state)
  {
    var s := PlayerState(Playing, Some("b"), ["a", "b", "c"], 1);
    assert SongArg(Some("a")) == "a" by {
      StripTrimmed("a");
    }
    assert RemoveFirst(s.playlist, "a") == ["b", "c"] by {
      assert s.playlist[0] == "a";
    }
    var t := PlayerState(Playing, Some("b"), ["b", "c"], 1);
    assert RemoveSong(s, Some("a")) == Reply(Ok, t);
    assert t.playlist[1] == "c" != "b";
    assert NoDup(t.playlist);
  }
}
