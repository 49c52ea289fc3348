/**
 * The player screen: which of the now-playing bar and the detail sheet is
 * shown, and the controller object holding the screen's remembered playback
 * state, whose methods are the screen's event handlers. Each handler is
 * proved to move the state exactly as the matching function of `Playback`
 * does; the properties of those functions are proved there.
 */
module MainScreen {
  import opened Wrappers
  import opened Catalog
  import opened Playback

  // ---------------------------------------------------------------------------
  // What is shown

  /** The current song: the catalog entry at the current index, if there is one. */
  function CurrentSong(songs: seq<Song>, index: int): (r: Option<Song>)
    ensures r.Some? <==> 0 <= index < |songs|
    ensures r.Some? ==> r.value == songs[index]
  {
    GetOrNull(songs, index)
  }

  /** The now-playing bar: shown while the detail sheet is closed and a song is current. */
  predicate MiniBarVisible(songs: seq<Song>, index: int, showDetail: bool)
    ensures MiniBarVisible(songs, index, showDetail) <==> !showDetail && 0 <= index < |songs|
  {
    !showDetail && CurrentSong(songs, index).Some?
  }

  /** The detail sheet: shown while it is open and a song is current. */
  predicate DetailVisible(songs: seq<Song>, index: int, showDetail: bool)
    ensures DetailVisible(songs, index, showDetail) <==> showDetail && 0 <= index < |songs|
    ensures DetailVisible(songs, index, showDetail) ==> !MiniBarVisible(songs, index, showDetail)
  {
    showDetail && CurrentSong(songs, index).Some?
  }

  /**
   * The bar and the sheet are never shown together, and one of them is shown
   * exactly when the index names a song of the catalog.
   */
  lemma ControlsVisibility(songs: seq<Song>, index: int, showDetail: bool)
    ensures !(MiniBarVisible(songs, index, showDetail) && DetailVisible(songs, index, showDetail))
    ensures MiniBarVisible(songs, index, showDetail) || DetailVisible(songs, index, showDetail)
            <==> 0 <= index < |songs|
  {
  }

  /**
   * While a player exists its song is the current song, so the transport
   * controls are on screen.
   */
  lemma PlayerHasCurrentSong(songs: seq<Song>, s: Session, showDetail: bool)
    requires WellFormed(songs, s) && s.player.Some?
    ensures CurrentSong(songs, s.index).Some?
    ensures CurrentSong(songs, s.index).value.data == s.player.value.source
    ensures MiniBarVisible(songs, s.index, showDetail) || DetailVisible(songs, s.index, showDetail)
  {
  }

  /** The handles of the players that exist and have not been released. */
  function LiveHandles(player: Option<Engine>): set<nat>
  {
    if player.Some? then {player.value.handle} else {}
  }

  // ---------------------------------------------------------------------------
  // The controller

  /**
   * The state the player screen remembers across recompositions, and its
   * handlers. `live` is the set of player handles created and not yet
   * released, `peak` the largest number of them ever alive at once.
   */
  class Controller {
    const songs: seq<Song>
    var index: int
    var isPlaying: bool
    var progress: Progress
    var player: Option<Engine>
    var created: nat
    ghost var live: set<nat>
    ghost var peak: nat

    /** The remembered state as a `Playback` session. */
    function State(): Session
      reads this
    {
      Session(index, isPlaying, progress, player, created)
    }

    /** Exactly the current player is alive, and never were two players alive at once. */
    ghost predicate HandlesTracked()
      reads this
    {
      live == LiveHandles(player) && peak <= 1
      && (player.Some? ==> player.value.handle < created)
    }

    ghost predicate Valid()
      reads this
    {
      WellFormed(songs, State()) && HandlesTracked()
    }

    constructor (catalog: seq<Song>)
      ensures Valid() && songs == catalog && State() == Initial
    {
      songs := catalog;
      index := -1;
      isPlaying := false;
      progress := Reset;
      player := None;
      created := 0;
      live := {};
      peak := 0;
    }

    /** `playSong`: release the current player, then create and install one for `song`. */
    method PlaySong(song: Song)
      requires HandlesTracked()
      modifies this
      ensures HandlesTracked()
      ensures State() == Playback.PlaySong(old(State()), song)
    {
      if player.Some? {
        live := live - {player.value.handle};
      }
      player := None;
      var h := created;
      created := created + 1;
      live := live + {h};
      if |live| > peak {
        peak := |live|;
      }
      player := Some(NewEngine(h, song));
    }

    /** `playWithAutoNext(i)`: make song `i` current and start it on a new player. */
    method PlayWithAutoNext(i: int)
      requires Valid() && 0 <= i < |songs|
      modifies this
      ensures Valid() && State() == Playback.PlayWithAutoNext(songs, old(State()), i)
    {
      index := i;
      progress := Reset;
      isPlaying := true;
      PlaySong(songs[i]);
    }

    /** A click on a row of the list plays the first song equal to the clicked one. */
    method OnSongClick(selected: Song)
      requires Valid() && selected in songs
      modifies this
      ensures Valid() && State() == ClickSong(songs, old(State()), selected)
    {
      PlayWithAutoNext(IndexOf(songs, selected));
    }

    method OnPreviousClick()
      requires Valid()
      modifies this
      ensures Valid() && State() == Previous(songs, old(State()))
    {
      if index > 0 {
        PlayWithAutoNext(index - 1);
      }
    }

    method OnNextClick()
      requires Valid()
      modifies this
      ensures Valid() && State() == Next(songs, old(State()))
    {
      if index < |songs| - 1 {
        PlayWithAutoNext(index + 1);
      }
    }

    method OnPlayPauseClick()
      requires Valid()
      modifies this
      ensures Valid() && State() == TogglePlayPause(songs, old(State()))
    {
      if player.Some? {
        var mp := player.value;
        if isPlaying {
          mp := Pause(mp);
        } else {
          mp := Start(mp);
        }
        player := Some(mp);
        isPlaying := mp.IsPlaying();
      }
    }

    /** The slider was released at `num / den`. */
    method OnSeekTo(num: nat, den: nat)
      requires Valid() && 0 < den && num <= den
      modifies this
      ensures Valid() && State() == Seek(songs, old(State()), num, den)
    {
      if player.Some? {
        var dur := player.value.duration;
        FractionWithin(dur, num, den);
        player := Some(player.value.(position := dur * num / den));
      }
    }

    /** The player finished preparing; its prepared listener starts it. */
    method OnPrepared(duration: nat)
      requires Valid()
      modifies this
      ensures Valid() && State() == Prepared(songs, old(State()), duration)
    {
      if player.Some? && player.value.phase == Preparing {
        player := Some(player.value.(phase := Started, duration := duration));
      }
    }

    /** Time passes while the player plays. */
    method OnTimePassed(ms: nat)
      requires Valid()
      modifies this
      ensures Valid() && State() == Elapse(songs, old(State()), ms)
    {
      if player.Some? && player.value.IsPlaying() {
        var mp := player.value;
        var p := if mp.position + ms <= mp.duration then mp.position + ms else mp.duration;
        player := Some(mp.(position := p));
      }
    }

    /** The player reached the end of its track and the completion listener runs. */
    method OnCompletion()
      requires Valid()
      modifies this
      ensures Valid() && State() == Complete(songs, old(State()))
    {
      if player.Some? && player.value.IsPlaying() {
        player := Some(player.value.(phase := Completed, position := player.value.duration));
        if index < |songs| - 1 {
          PlayWithAutoNext(index + 1);
        } else {
          isPlaying := false;
        }
      }
    }

    /** One tick of the progress poller; `running` is false once the handle is null. */
    method PollTick() returns (running: bool)
      requires Valid()
      modifies this
      ensures Valid() && State() == Playback.PollTick(songs, old(State()))
      ensures running <==> player.Some?
    {
      running := player.Some?;
      if running {
        progress := SampleProgress(progress, player.value);
      }
    }

    /**
     * The poller's loop over one player's lifetime: `observed[k]` is the
     * handle the k-th tick finds. It samples while the handle is present and
     * stops at the first null; `ticks` is the number of ticks it ran.
     */
    method RunPoller(observed: seq<Option<Engine>>) returns (ticks: nat)
      requires Valid()
      requires forall k :: 0 <= k < |observed| && observed[k].Some? ==>
        observed[k].value.position <= observed[k].value.duration
      modifies this`progress
      ensures Valid()
      ensures progress == PolledProgress(old(progress), observed)
      ensures ticks == TicksUntilNull(observed)
    {
      ticks := 0;
      while ticks < |observed| && observed[ticks].Some?
        invariant ticks <= |observed|
        invariant Valid()
        invariant forall k :: 0 <= k < ticks ==> observed[k].Some?
        invariant PolledProgress(old(progress), observed) == PolledProgress(progress, observed[ticks..])
        invariant TicksUntilNull(observed) == ticks + TicksUntilNull(observed[ticks..])
      {
        assert observed[ticks..][1..] == observed[ticks + 1..];
        progress := SampleProgress(progress, observed[ticks].value);
        ticks := ticks + 1;
      }
    }

    /** Disposal: release the player and clear the reference; a second call changes nothing. */
    method Dispose()
      requires Valid()
      modifies this
      ensures Valid() && State() == Playback.Dispose(songs, old(State()))
      ensures live == {}
    {
      if player.Some? {
        live := live - {player.value.handle};
      }
      player := None;
    }
  }
}
