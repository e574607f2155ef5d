/** Request sequences worked through end to end on small playlists. */
module PlayerScenarios {
  import opened Optional
  import opened PyText
  import opened PyList
  import opened Player

  /** Play from nothing selected starts at the first song; three skips visit the next two
      and wrap around to the first again, all while playing. */
  lemma PlaySkipWraps()
    ensures var s0 := PlayerState(Stopped, None, ["A", "B", "C"], -1);
      var s1 := Play(s0).state;
      var s2 := Skip(s1).state;
      var s3 := Skip(s2).state;
      var s4 := Skip(s3).state;
      && s1.song == Some("A") && s1.status == Playing
      && s2.song == Some("B") && s2.status == Playing
      && s3.song == Some("C")
      && s4.song == Some("A") && s4.index == 0
  {
  }

  /** Previous from the first song wraps to the last. */
  lemma PreviousWraps()
    ensures Previous(PlayerState(Playing, Some("A"), ["A", "B"], 0)) ==
      Reply(Ok, PlayerState(Playing, Some("B"), ["A", "B"], 1))
  {
  }

  /** Adding a song to an empty playlist lists it, trimmed, and selects nothing. */
  lemma AddOnEmpty()
    ensures AddSong(PlayerState(Stopped, None, [], -1), Some(" s1\t")) ==
      Reply(Ok, PlayerState(Stopped, None, ["s1"], -1))
  {
    assert LeadingSpaces(" s1\t") == 1 by {
      assert " s1\t"[1..] == "s1\t";
    }
    assert TrailingSpaces("s1\t") == 1 by {
      assert "s1\t"[..2] == "s1";
    }
    assert " s1\t"[1..] == "s1\t";
    assert SongArg(Some(" s1\t")) == "s1";
  }

  /** Removing that song again leaves an empty playlist with nothing selected. */
  lemma RemoveOnlySong()
    ensures RemoveSong(PlayerState(Stopped, None, ["s1"], -1), Some("s1")) ==
      Reply(Ok, PlayerState(Stopped, None, [], -1))
  {
    assert SongArg(Some("s1")) == "s1" by {
      StripTrimmed("s1");
    }
    var s := PlayerState(Stopped, None, ["s1"], -1);
    assert "s1" in s.playlist;
    assert |RemoveFirst(s.playlist, "s1")| == 0;
  }

  /** A body without a 'song' key, or with a blank one, is rejected as an empty name. */
  lemma BlankNamesRejected(s: PlayerState)
    ensures AddSong(s, None) == Reply(Failed(EmptyName), s)
    ensures AddSong(s, Some(" \n ")) == Reply(Failed(EmptyName), s)
  {
  }
}
