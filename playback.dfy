/**
 * The playback controller of the player screen as a pure state machine.
 *
 * A `Session` holds the screen's remembered playback state: the current song
 * index (-1 before anything was chosen), the `isPlaying` flag, the published
 * progress, and the single player handle. The player itself is a platform
 * object; it is modelled by the `Engine` record, and what the platform does on
 * its own (finishing preparation, time passing, reaching the end of the
 * track) arrives as explicit events. Each handler of the screen is one
 * function from session to session; `Step` dispatches an `Event` to them and
 * `Run` folds a sequence of events.
 */
module Playback {
  import opened Wrappers
  import opened Catalog

  // ---------------------------------------------------------------------------
  // The player engine

  /** The states of one player instance that this screen drives it through. */
  datatype Phase = Preparing | Started | Paused | Completed

  /**
   * One player instance: its identity, the source it was given, its phase,
   * and the position and duration it reports, in milliseconds. The duration
   * is 0 until preparation has finished.
   */
  datatype Engine = Engine(handle: nat, source: string, phase: Phase, position: nat, duration: nat)
  {
    /** What the player answers to `isPlaying`. */
    predicate IsPlaying() { phase == Started }
  }

  /** A fresh player with `song`'s file as data source, preparing asynchronously. */
  function NewEngine(handle: nat, song: Song): Engine
  {
    Engine(handle, song.data, Preparing, 0, 0)
  }

  /**
   * The player's `start()`. A paused player resumes, a finished one starts
   * over from the beginning; a player still preparing does not start.
   */
  function Start(e: Engine): (r: Engine)
    ensures r.handle == e.handle && r.source == e.source && r.duration == e.duration
    ensures r.IsPlaying() <==> e.phase != Preparing
    ensures r.position <= r.duration <== e.position <= e.duration
  {
    match e.phase
    case Preparing => e
    case Started => e
    case Paused => e.(phase := Started)
    case Completed => e.(phase := Started, position := 0)
  }

  /** The player's `pause()`: afterwards it does not report playing. */
  function Pause(e: Engine): (r: Engine)
    ensures !r.IsPlaying()
    ensures r.(phase := e.phase) == e
  {
    if e.phase == Preparing then e else e.(phase := Paused)
  }

  // ---------------------------------------------------------------------------
  // The session

  /**
   * The published progress: `Reset` is the `0f` written when a track starts,
   * `Sampled(p, d)` the fraction p / d last read from the player.
   */
  datatype Progress = Reset | Sampled(position: nat, duration: nat)

  /**
   * The screen's playback state. `created` counts the player instances made
   * so far; each new one takes that count as its handle.
   */
  datatype Session = Session(index: int, isPlaying: bool, progress: Progress, player: Option<Engine>, created: nat)

  /** The state when the screen first appears: no song, not playing, no player. */
  const Initial := Session(-1, false, Reset, None, 0)

  /**
   * The session invariant: the index is -1 or a position of the catalog; a
   * player exists only once a song was chosen, plays the current song's file,
   * was created by this session and is positioned within its duration.
   */
  predicate WellFormed(songs: seq<Song>, s: Session)
  {
    -1 <= s.index < |songs|
    && (s.player.Some? ==>
          0 <= s.index
          && s.player.value.source == songs[s.index].data
          && s.player.value.handle < s.created
          && s.player.value.position <= s.player.value.duration
          && (s.player.value.phase == Preparing ==> s.player.value.duration == 0))
    && (s.progress.Sampled? ==> s.progress.position <= s.progress.duration)
  }

  /**
   * `playSong`: the old player is released before the new one is made. The
   * new player has a handle no earlier player had, and nothing but the player
   * changes.
   */
  function PlaySong(s: Session, song: Song): (r: Session)
    ensures r.player == Some(NewEngine(s.created, song)) && r.created == s.created + 1
    ensures r.index == s.index && r.isPlaying == s.isPlaying && r.progress == s.progress
  {
    // the old player, if any, is released and dropped; then the new one is made
    var released := s.(player := None);
    released.(player := Some(NewEngine(released.created, song)), created := released.created + 1)
  }

  /**
   * `playWithAutoNext(i)`: song `i` becomes current, progress is reset, the
   * flag says playing, and a fresh player for song `i` is preparing.
   */
  function PlayWithAutoNext(songs: seq<Song>, s: Session, i: int): (r: Session)
    requires WellFormed(songs, s) && 0 <= i < |songs|
    ensures WellFormed(songs, r)
    ensures r.index == i && r.progress == Reset && r.isPlaying
    ensures r.player == Some(NewEngine(s.created, songs[i]))
  {
    PlaySong(s.(index := i, progress := Reset, isPlaying := true), songs[i])
  }

  /** A click on a row of the list: play the first song equal to the clicked one. */
  function ClickSong(songs: seq<Song>, s: Session, selected: Song): (r: Session)
    requires WellFormed(songs, s) && selected in songs
    ensures WellFormed(songs, r)
    ensures 0 <= r.index < |songs| && songs[r.index] == selected
    ensures r.progress == Reset && r.isPlaying && r.player == Some(NewEngine(s.created, selected))
    ensures forall k :: 0 <= k < r.index ==> songs[k] != selected
  {
    PlayWithAutoNext(songs, s, IndexOf(songs, selected))
  }

  /** The previous button: step back one song, never before the first. */
  function Previous(songs: seq<Song>, s: Session): (r: Session)
    requires WellFormed(songs, s)
    ensures WellFormed(songs, r)
    ensures s.index > 0 ==> r.index == s.index - 1 && r.isPlaying && r.progress == Reset
    ensures s.index > 0 ==> r.player == Some(NewEngine(s.created, songs[s.index - 1]))
    ensures s.index <= 0 ==> r == s
  {
    if s.index > 0 then PlayWithAutoNext(songs, s, s.index - 1) else s
  }

  /** The next button: step forward one song, never past the last. */
  function Next(songs: seq<Song>, s: Session): (r: Session)
    requires WellFormed(songs, s)
    ensures WellFormed(songs, r)
    ensures s.index < |songs| - 1 ==> r.index == s.index + 1 && r.isPlaying && r.progress == Reset
    ensures s.index < |songs| - 1 ==> r.player == Some(NewEngine(s.created, songs[s.index + 1]))
    ensures s.index >= |songs| - 1 ==> r == s
  {
    if s.index < |songs| - 1 then PlayWithAutoNext(songs, s, s.index + 1) else s
  }

  /**
   * The play/pause button: pause when the flag says playing, start otherwise,
   * then adopt what the player reports. Without a player nothing happens.
   */
  function TogglePlayPause(songs: seq<Song>, s: Session): (r: Session)
    requires WellFormed(songs, s)
    ensures WellFormed(songs, r)
    ensures s.player.None? ==> r == s
    ensures s.player.Some? ==>
      r.player.Some? && r.isPlaying == r.player.value.IsPlaying()
      && r.player.value.handle == s.player.value.handle
      && (s.isPlaying ==> !r.isPlaying)
      && r.index == s.index && r.progress == s.progress && r.created == s.created
    ensures s.player.Some? ==>
      r.player == Some(if s.isPlaying then Pause(s.player.value) else Start(s.player.value))
    ensures s.player.Some? && !s.isPlaying ==> (r.isPlaying <==> s.player.value.phase != Preparing)
  {
    match s.player
    case None => s
    case Some(e) =>
      var e' := if s.isPlaying then Pause(e) else Start(e);
      s.(player := Some(e'), isPlaying := e'.IsPlaying())
  }

  /**
   * Releasing the slider at `num / den` of its track: the player seeks to
   * that fraction of the duration it reports, truncated to whole
   * milliseconds. There is no guard on the duration: with a duration of 0
   * the player is sent to position 0.
   */
  function Seek(songs: seq<Song>, s: Session, num: nat, den: nat): (r: Session)
    requires WellFormed(songs, s) && 0 < den && num <= den
    ensures WellFormed(songs, r)
    ensures s.player.None? ==> r == s
    ensures s.player.Some? ==>
      r.player.Some? && r.player.value.position == s.player.value.duration * num / den
      && r.player.value.(position := s.player.value.position) == s.player.value
      && r.(player := s.player) == s
  {
    match s.player
    case None => s
    case Some(e) =>
      FractionWithin(e.duration, num, den);
      s.(player := Some(e.(position := e.duration * num / den)))
  }

  /** `d * num / den` lies within 0..d when `num <= den`. */
  lemma FractionWithin(d: nat, num: nat, den: nat)
    requires 0 < den && num <= den
    ensures 0 <= d * num / den <= d
  {
  }

  /**
   * The player finished preparing and reports `duration`; its prepared
   * listener starts it. The session's flag is not touched.
   */
  function Prepared(songs: seq<Song>, s: Session, duration: nat): (r: Session)
    requires WellFormed(songs, s)
    ensures WellFormed(songs, r)
    ensures r.isPlaying == s.isPlaying && r.index == s.index && r.progress == s.progress
    ensures s.player.Some? && s.player.value.phase == Preparing ==>
      r.player.Some? && r.player.value.IsPlaying() && r.player.value.duration == duration
      && r == s.(player := Some(s.player.value.(phase := Started, duration := duration)))
    ensures !(s.player.Some? && s.player.value.phase == Preparing) ==> r == s
  {
    match s.player
    case Some(e) =>
      if e.phase == Preparing then s.(player := Some(e.(phase := Started, duration := duration))) else s
    case None => s
  }

  /** Time passes while the player plays: its position moves toward its duration. */
  function Elapse(songs: seq<Song>, s: Session, ms: nat): (r: Session)
    requires WellFormed(songs, s)
    ensures WellFormed(songs, r)
    ensures r.(player := s.player) == s
    ensures s.player.None? ==> r == s
    ensures s.player.Some? ==>
      r.player.Some? && r.player.value.(position := s.player.value.position) == s.player.value
      && r.player.value.position >= s.player.value.position
    ensures s.player.Some? && !s.player.value.IsPlaying() ==> r == s
  {
    match s.player
    case Some(e) =>
      if e.IsPlaying() then
        var p := if e.position + ms <= e.duration then e.position + ms else e.duration;
        s.(player := Some(e.(position := p)))
      else s
    case None => s
  }

  /**
   * The player reached the end of its track, and the completion listener
   * runs: it moves on to the next song when there is one; after the last
   * song it only clears the flag, keeping the index and the progress.
   */
  function Complete(songs: seq<Song>, s: Session): (r: Session)
    requires WellFormed(songs, s)
    ensures WellFormed(songs, r)
    ensures !(s.player.Some? && s.player.value.IsPlaying()) ==> r == s
    ensures s.player.Some? && s.player.value.IsPlaying() && s.index < |songs| - 1 ==>
      r.index == s.index + 1 && r.progress == Reset && r.isPlaying
      && r.player == Some(NewEngine(s.created, songs[s.index + 1]))
    ensures s.player.Some? && s.player.value.IsPlaying() && s.index >= |songs| - 1 ==>
      !r.isPlaying && r.index == s.index && r.progress == s.progress
      && r.player.Some? && r.player.value.handle == s.player.value.handle
      && r.player.value.phase == Completed
    ensures s.player.Some? && s.player.value.IsPlaying() && s.index >= |songs| - 1 ==>
      r == s.(isPlaying := false,
              player := Some(s.player.value.(phase := Completed, position := s.player.value.duration)))
  {
    match s.player
    case Some(e) =>
      if e.IsPlaying() then
        var ended := s.(player := Some(e.(phase := Completed, position := e.duration)));
        if s.index < |songs| - 1 then PlayWithAutoNext(songs, ended, s.index + 1)
        else ended.(isPlaying := false)
      else s
    case None => s
  }

  /** One sample of the progress poller: a playing player's position over its duration. */
  function SampleProgress(p: Progress, e: Engine): (r: Progress)
    ensures r != p ==> e.IsPlaying()
    ensures e.IsPlaying() ==> r == Sampled(e.position, e.duration)
  {
    if e.IsPlaying() then Sampled(e.position, e.duration) else p
  }

  /**
   * One tick of the progress poller on the current player: only the
   * progress can change, and only while a player reports playing.
   */
  function PollTick(songs: seq<Song>, s: Session): (r: Session)
    requires WellFormed(songs, s)
    ensures WellFormed(songs, r)
    ensures r.(progress := s.progress) == s
    ensures r.progress != s.progress ==> s.player.Some? && s.player.value.IsPlaying()
    ensures s.player.Some? && s.player.value.IsPlaying() ==>
      r.progress == Sampled(s.player.value.position, s.player.value.duration)
  {
    match s.player
    case Some(e) => s.(progress := SampleProgress(s.progress, e))
    case None => s
  }

  /** Disposal of the screen: the player is released and the reference cleared. */
  function Dispose(songs: seq<Song>, s: Session): (r: Session)
    requires WellFormed(songs, s)
    ensures WellFormed(songs, r)
    ensures r.player.None? && r.(player := s.player) == s
  {
    s.(player := None)
  }

  // ---------------------------------------------------------------------------
  // Events

  /** What can happen to the screen: user actions, player callbacks, poller ticks. */
  datatype Event =
    | SongClicked(song: Song)
    | PreviousClicked
    | NextClicked
    | PlayPauseClicked
    | SliderReleased(num: nat, den: nat)
    | PollerTicked
    | PlayerPrepared(duration: nat)
    | TimePassed(ms: nat)
    | PlayerCompleted
    | ScreenDisposed

  /** Events the screen can produce: a clicked row is a row of the list, a slider value lies in 0..1. */
  predicate Admissible(songs: seq<Song>, ev: Event)
  {
    match ev
    case SongClicked(song) => song in songs
    case SliderReleased(num, den) => 0 < den && num <= den
    case _ => true
  }

  function Step(songs: seq<Song>, s: Session, ev: Event): (r: Session)
    requires WellFormed(songs, s) && Admissible(songs, ev)
    ensures WellFormed(songs, r)
    ensures s.index >= 0 ==> r.index >= 0
  {
    match ev
    case SongClicked(song) => ClickSong(songs, s, song)
    case PreviousClicked => Previous(songs, s)
    case NextClicked => Next(songs, s)
    case PlayPauseClicked => TogglePlayPause(songs, s)
    case SliderReleased(num, den) => Seek(songs, s, num, den)
    case PollerTicked => PollTick(songs, s)
    case PlayerPrepared(duration) => Prepared(songs, s, duration)
    case TimePassed(ms) => Elapse(songs, s, ms)
    case PlayerCompleted => Complete(songs, s)
    case ScreenDisposed => Dispose(songs, s)
  }

  /**
   * A sequence of events applied in order. The invariant holds throughout,
   * and once a song was chosen there is a current song from then on.
   */
  function Run(songs: seq<Song>, s: Session, events: seq<Event>): (r: Session)
    requires WellFormed(songs, s)
    requires forall k :: 0 <= k < |events| ==> Admissible(songs, events[k])
    ensures WellFormed(songs, r)
    ensures s.index >= 0 ==> r.index >= 0
    decreases |events|
  {
    if events == [] then s else Run(songs, Step(songs, s, events[0]), events[1..])
  }

  // ---------------------------------------------------------------------------
  // The progress poller loop

  /** How many ticks the poller runs when it observes these handle values: up to the first null. */
  function TicksUntilNull(observed: seq<Option<Engine>>): (n: nat)
    ensures n <= |observed|
    ensures forall k :: 0 <= k < n ==> observed[k].Some?
    ensures n < |observed| ==> observed[n].None?
  {
    if observed == [] || observed[0].None? then 0 else 1 + TicksUntilNull(observed[1..])
  }

  /** The progress the poller leaves after observing these handle values, starting from `p`. */
  function PolledProgress(p: Progress, observed: seq<Option<Engine>>): Progress
    decreases |observed|
  {
    if observed == [] || observed[0].None? then p
    else PolledProgress(SampleProgress(p, observed[0].value), observed[1..])
  }

  // ---------------------------------------------------------------------------
  // Properties relating several events

  /** Next followed by previous comes back to the same song, restarted. */
  lemma NextThenPrevious(songs: seq<Song>, s: Session)
    requires WellFormed(songs, s) && 0 <= s.index < |songs| - 1
    ensures Previous(songs, Next(songs, s)).index == s.index
    ensures Previous(songs, Next(songs, s)).isPlaying
  {
  }

  /**
   * Two presses of play/pause on a prepared player whose flag agrees with it
   * restore the flag and the player's state.
   */
  lemma ToggleTwice(songs: seq<Song>, s: Session)
    requires WellFormed(songs, s) && s.player.Some?
    requires s.player.value.phase == Started || s.player.value.phase == Paused
    requires s.isPlaying == s.player.value.IsPlaying()
    ensures TogglePlayPause(songs, TogglePlayPause(songs, s)) == s
  {
  }

  /** Disposing twice is the same as disposing once. */
  lemma DisposeIdempotent(songs: seq<Song>, s: Session)
    requires WellFormed(songs, s)
    ensures Dispose(songs, Dispose(songs, s)) == Dispose(songs, s)
  {
  }

  /** Switching tracks replaces the player by one with a handle never used before. */
  lemma NewPlayerIsFresh(songs: seq<Song>, s: Session, i: int)
    requires WellFormed(songs, s) && 0 <= i < |songs|
    ensures s.player.Some? ==>
      PlayWithAutoNext(songs, s, i).player.value.handle != s.player.value.handle
  {
  }

  /** The poller never changes the progress when no observed player was playing. */
  lemma {:induction false} PollerFrozenWhileNotPlaying(p: Progress, observed: seq<Option<Engine>>)
    requires forall k :: 0 <= k < TicksUntilNull(observed) ==> !observed[k].value.IsPlaying()
    ensures PolledProgress(p, observed) == p
    decreases |observed|
  {
    if observed != [] && observed[0].Some? {
      assert !observed[0].value.IsPlaying();
      var rest := observed[1..];
      assert forall k :: 0 <= k < TicksUntilNull(rest) ==> rest[k] == observed[k + 1];
      PollerFrozenWhileNotPlaying(p, rest);
    }
  }

  /** The poller publishes the sample of the last tick at which the player was playing. */
  lemma {:induction false} PollerPublishesLastSample(p: Progress, observed: seq<Option<Engine>>, k: nat)
    requires k < TicksUntilNull(observed) && observed[k].value.IsPlaying()
    requires forall j :: k < j < TicksUntilNull(observed) ==> !observed[j].value.IsPlaying()
    ensures PolledProgress(p, observed) == Sampled(observed[k].value.position, observed[k].value.duration)
    decreases |observed|
  {
    var rest := observed[1..];
    var p' := SampleProgress(p, observed[0].value);
    assert TicksUntilNull(observed) == 1 + TicksUntilNull(rest);
    if k == 0 {
      assert forall j :: 0 <= j < TicksUntilNull(rest) ==> rest[j] == observed[j + 1];
      PollerFrozenWhileNotPlaying(p', rest);
    } else {
      PollerPublishesLastSample(p', rest, k - 1);
    }
  }

  /** Once the poller observes a null handle, nothing observed later has any effect. */
  lemma {:induction false} PollerStopsAtNull(p: Progress, before: seq<Option<Engine>>, after: seq<Option<Engine>>)
    ensures PolledProgress(p, before + [None] + after) == PolledProgress(p, before)
    ensures TicksUntilNull(before + [None] + after) == TicksUntilNull(before + [None]) <= |before|
    decreases |before|
  {
    var all := before + [None] + after;
    if before == [] {
      assert all[0] == None;
    } else if before[0].None? {
      assert all[0] == None;
    } else {
      assert all[1..] == before[1..] + [None] + after;
      assert (before + [None])[1..] == before[1..] + [None];
      PollerStopsAtNull(SampleProgress(p, before[0].value), before[1..], after);
    }
  }

  /**
   * The end-to-end scenario for a catalog of two tracks: choosing the first
   * starts it, its completion moves on to the second, and the completion of
   * the second stops with the second still current.
   */
  lemma TwoTrackScenario(a: Song, b: Song)
    ensures var songs := [a, b];
      var s1 := Run(songs, Initial, [SongClicked(a)]);
      var s2 := Run(songs, s1, [PlayerPrepared(10000), PlayerCompleted]);
      var s3 := Run(songs, s2, [PlayerPrepared(5000), PlayerCompleted]);
      s1.index == 0 && s1.progress == Reset && s1.isPlaying
      && s2.index == 1 && s2.progress == Reset && s2.isPlaying
      && s3.index == 1 && !s3.isPlaying
  {
  }
}
