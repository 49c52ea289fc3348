# Player screen playback controller, in Dafny

This project models the playback logic of a local-audio player screen for Android. The screen lists
the device's audio files and plays them one after another. It has a now-playing bar with
previous, play/pause and next buttons, and a detail sheet with a scrub slider. All of that logic
lives in the `MainScreen` composable. It keeps four pieces of remembered state: the current song
index (-1 before any choice), the `isPlaying` flag, the published progress, and one nullable
`MediaPlayer` reference. Every change to that state is a reaction to a discrete event: a click, a
player callback or a poller tick.

Modules:

- `Wrappers`: `Option`, standing for Kotlin's nullable references.
- `Catalog`: the `Song` record and the two list lookups the screen uses: `indexOf` on a row click
  and `getOrNull` for the current song.
- `DurationFormat`: `formatDuration`. Kotlin's truncating `Long` division and remainder and the
  `"%d:%02d"` pattern are written out, so every input is covered, negative ones included. It is
  paired with a reader, `ParseDuration`, and round trips are proved in both directions.
- `Playback`: the controller as a pure state machine.
  - The player is an `Engine` record: handle, data source, phase, position, duration.
  - The screen's state is a `Session` record.
  - Each handler is one function from session to session. `Step` and `Run` apply an `Event` and a
    sequence of events.
  - What the player does on its own arrives as explicit events: finishing preparation, time
    passing, reaching the end of the track.
  - The invariant `WellFormed` says the index is -1 or in range. It also says a player exists only
    for the current song's file and is positioned within its duration. A sampled progress has its
    position within its duration, so for a positive duration the fraction it stands for lies in 0..1.
  - The progress poller's loop is specified by `PolledProgress` and `TicksUntilNull`.
- `MainScreen`: the visibility rules of the bar and the sheet, and the class `Controller`.
  - The class holds the screen's remembered state as fields. Its methods are the screen's handlers.
  - Each method is proved to change the state exactly as the matching `Playback` function does.
  - Ghost fields track the player handles that are alive: created and not released. `Valid()`
    requires that no two were ever alive at once. This holds because `playSong` releases the old
    player before it creates the new one.

Three behaviours of the code shape the contracts:

- `playWithAutoNext` indexes `songs[index]`, which throws for an index outside the catalog. Every
  caller passes an index in range, so `PlayWithAutoNext` requires `0 <= i < |songs|`.
- Next at the last song changes nothing. In particular, the `isPlaying` flag is not cleared.
- Seeking does not check the duration. With a duration of 0 the player is sent to position 0.

## Model

| member | source | states |
|---|---|---|
| `Catalog.IndexOf` | app/src/main/java/com/example/spotifyplayer/MainActivity.kt:214 | `indexOf` returns -1 exactly when the song is absent. Otherwise it returns a position holding the song with no equal song before it. |
| `Catalog.GetOrNull` | app/src/main/java/com/example/spotifyplayer/MainActivity.kt:170 | `getOrNull` gives a song exactly when the index is in range, and then it gives the song at that index. |
| `Catalog.ClickedRowIndex` | app/src/main/java/com/example/spotifyplayer/MainActivity.kt:213-215 | Clicking row `pos` plays a position at or before `pos`. It plays `pos` itself exactly when no earlier row holds an equal record. |
| `DurationFormat.NatToString` | app/src/main/java/com/example/spotifyplayer/MainActivity.kt:490 | `%d` on a non-negative number prints at least one digit, only digits, and no leading zero. |
| `DurationFormat.TruncDiv` | app/src/main/java/com/example/spotifyplayer/MainActivity.kt:487-488 | Kotlin's `/` truncates toward zero: it agrees with floor division on non-negative operands, and the remainder it leaves has the sign of the dividend and is smaller than the divisor in size. |
| `DurationFormat.TruncRem` | app/src/main/java/com/example/spotifyplayer/MainActivity.kt:489 | Kotlin's `%` is the ordinary remainder for non-negative operands. For a negative dividend it is minus the remainder of the magnitude, so it lies strictly above `-b` and at most 0. |
| `DurationFormat.IntToString` | app/src/main/java/com/example/spotifyplayer/MainActivity.kt:490 | `%d` prints canonical digits reading back to the number, with a leading minus sign for a negative number. |
| `DurationFormat.ZeroPad2` | app/src/main/java/com/example/spotifyplayer/MainActivity.kt:490 | `%02d` prints at least two characters and pads only 0..9. Every number in 0..99 comes out as exactly two digits reading back to it. |
| `DurationFormat.FormatDuration` | app/src/main/java/com/example/spotifyplayer/MainActivity.kt:486-491 | The label has at least four characters. For `ms >= 0` it is `minutes:ss`: minutes without leading zeros, seconds as exactly two digits with a value in 0..59, and minutes*60 + seconds == ms/1000. |
| `DurationFormat.FormatDurationRoundTrip` | app/src/main/java/com/example/spotifyplayer/MainActivity.kt:486-491 | Reading the label of `ms >= 0` back gives `ms / 1000` whole seconds. |
| `DurationFormat.ParseDurationRoundTrip` | app/src/main/java/com/example/spotifyplayer/MainActivity.kt:486-491 | Every well-formed `m:ss` label is the label of its own number of seconds, so the formatter's image is exactly the well-formed labels. |
| `DurationFormat.FormatDurationInjective` | app/src/main/java/com/example/spotifyplayer/MainActivity.kt:486-491 | Two non-negative durations get the same label exactly when they have the same whole seconds. |
| `DurationFormat.NegativeDurations` | app/src/main/java/com/example/spotifyplayer/MainActivity.kt:487-490 | Kotlin's truncating division makes a negative duration under one second print `0:00`, and -61000 ms print `-1:-1`. |
| `Playback.Start` | app/src/main/java/com/example/spotifyplayer/MainActivity.kt:184 | `start()` makes the player report playing unless it is still preparing. It keeps the handle, source and duration. |
| `Playback.Pause` | app/src/main/java/com/example/spotifyplayer/MainActivity.kt:184 | After `pause()` the player does not report playing, and only its phase may change. |
| `Playback.PlaySong` | app/src/main/java/com/example/spotifyplayer/MainActivity.kt:251-261 | The old player is dropped first, then replaced by a fresh player (position and duration 0) preparing the song's file. The new handle is newer than every earlier one. Index, flag and progress are unchanged. |
| `Playback.PlayWithAutoNext` | app/src/main/java/com/example/spotifyplayer/MainActivity.kt:111-115 | For an index `i` inside the catalog: the index becomes `i`, progress is reset to 0 and the flag says playing. A fresh player is loading `songs[i]`. The invariant is kept. |
| `Playback.ClickSong` | app/src/main/java/com/example/spotifyplayer/MainActivity.kt:213-215 | After a row click the current song equals the clicked one and is its first occurrence in the catalog. Progress is reset, the flag says playing, and a fresh player is loading the clicked song. |
| `Playback.Previous` | app/src/main/java/com/example/spotifyplayer/MainActivity.kt:188-190 | Above index 0 it restarts at index-1 with progress 0 and playing, on a fresh player loading that song. At index 0 or -1 nothing changes. The sheet's copy at lines 237-239 is the same. |
| `Playback.Next` | app/src/main/java/com/example/spotifyplayer/MainActivity.kt:191-193 | Below the last index it restarts at index+1 on a fresh player loading that song; from -1 that is index 0. At the last index nothing changes, including the flag. The sheet's copy at lines 240-242 is the same. |
| `Playback.TogglePlayPause` | app/src/main/java/com/example/spotifyplayer/MainActivity.kt:182-186 | With no player nothing changes. Otherwise the player is paused if the flag says playing and started if not. Afterwards the flag equals what the same player reports. The sheet's copy at lines 231-235 is the same. |
| `Playback.Seek` | app/src/main/java/com/example/spotifyplayer/MainActivity.kt:227-230 | With no player nothing changes. Otherwise only the player's position changes, to `duration*num/den`, which lies within 0..duration. A zero duration seeks to 0. |
| `Playback.Prepared` | app/src/main/java/com/example/spotifyplayer/MainActivity.kt:258-259 | When preparation finishes, the prepared listener starts the player with the reported duration. The screen's flag, index and progress are untouched. When no player is preparing, nothing changes. |
| `Playback.Elapse` | app/src/main/java/com/example/spotifyplayer/MainActivity.kt:130 | Time passing moves only the position of a playing player, the one the poller reads. The position never goes back and stays within the duration. Without a playing player nothing changes. |
| `Playback.Complete` | app/src/main/java/com/example/spotifyplayer/MainActivity.kt:116-122 | On completion below the last index, the controller restarts at index+1 with progress 0, playing, on a fresh player. At the last index only the flag is cleared and the player is marked finished at its end; nothing else changes. |
| `Playback.SampleProgress` | app/src/main/java/com/example/spotifyplayer/MainActivity.kt:129-131 | A sample changes the progress only when the player reports playing, and then it is that player's (position, duration). |
| `Playback.PollTick` | app/src/main/java/com/example/spotifyplayer/MainActivity.kt:127-133 | A tick changes nothing but the progress. It changes only when a player exists and reports playing, and then it becomes that player's position over its duration. |
| `Playback.Dispose` | app/src/main/java/com/example/spotifyplayer/MainActivity.kt:163-167 | Disposal leaves no player and changes nothing else. |
| `Playback.Step` | app/src/main/java/com/example/spotifyplayer/MainActivity.kt:111-167 | Every event keeps the session invariant, including a published progress whose position is within its duration (a fraction in 0..1 for a positive duration). Once a song was chosen, an index stays chosen. |
| `Playback.Run` | app/src/main/java/com/example/spotifyplayer/MainActivity.kt:111-167 | Any sequence of events the screen can produce keeps the invariant. The index never returns to -1 once set. |
| `Playback.TicksUntilNull` | app/src/main/java/com/example/spotifyplayer/MainActivity.kt:127 | The poller runs exactly as many ticks as there are non-null handles before the first null. |
| `Playback.NextThenPrevious` | app/src/main/java/com/example/spotifyplayer/MainActivity.kt:188-193 | Below the last index, next then previous returns to the same song, playing. |
| `Playback.ToggleTwice` | app/src/main/java/com/example/spotifyplayer/MainActivity.kt:182-186 | Two presses of play/pause restore the session, for a prepared player whose flag agrees with it. |
| `Playback.DisposeIdempotent` | app/src/main/java/com/example/spotifyplayer/MainActivity.kt:165-166 | A second disposal is a no-op. |
| `Playback.NewPlayerIsFresh` | app/src/main/java/com/example/spotifyplayer/MainActivity.kt:255-256 | Switching tracks installs a player whose handle differs from the released one. |
| `Playback.PollerFrozenWhileNotPlaying` | app/src/main/java/com/example/spotifyplayer/MainActivity.kt:127-134 | If no observed player reports playing, the poller leaves the progress unchanged (paused or still preparing). |
| `Playback.PollerPublishesLastSample` | app/src/main/java/com/example/spotifyplayer/MainActivity.kt:127-134 | The published progress is the sample of the last tick at which the player was playing. |
| `Playback.PollerStopsAtNull` | app/src/main/java/com/example/spotifyplayer/MainActivity.kt:127 | After the poller sees a null handle it stops. Nothing observed later affects the progress or the tick count. |
| `Playback.TwoTrackScenario` | app/src/main/java/com/example/spotifyplayer/MainActivity.kt:111-122 | Catalog [A, B]: choosing A plays index 0 from 0. A's completion plays index 1 from 0. B's completion stops playing with index 1 kept. |
| `MainScreen.CurrentSong` | app/src/main/java/com/example/spotifyplayer/MainActivity.kt:170 | The current song exists exactly when the index is within the catalog, and it is the catalog entry at that index. |
| `MainScreen.MiniBarVisible` | app/src/main/java/com/example/spotifyplayer/MainActivity.kt:178 | The now-playing bar is shown exactly when the detail sheet is closed and the index is within the catalog. |
| `MainScreen.DetailVisible` | app/src/main/java/com/example/spotifyplayer/MainActivity.kt:219 | The detail sheet is shown exactly when it is open and the index is within the catalog. It is never shown together with the bar. |
| `MainScreen.ControlsVisibility` | app/src/main/java/com/example/spotifyplayer/MainActivity.kt:178-219 | The now-playing bar (line 178) and the detail sheet (line 219) are never shown together. One of them is shown exactly when the index is in range. |
| `MainScreen.PlayerHasCurrentSong` | app/src/main/java/com/example/spotifyplayer/MainActivity.kt:170 | While a player exists, the current song is present and is the one whose file the player plays, so the controls are on screen. |
| `MainScreen.Controller.constructor` | app/src/main/java/com/example/spotifyplayer/MainActivity.kt:99-108 | Starts with index -1, not playing, progress 0, no player and no live handle. |
| `MainScreen.Controller.PlaySong` | app/src/main/java/com/example/spotifyplayer/MainActivity.kt:251-261 | Releases the held player before creating the new one, so the peak count of live handles stays at most 1. The new state is `Playback.PlaySong`'s. |
| `MainScreen.Controller.PlayWithAutoNext` | app/src/main/java/com/example/spotifyplayer/MainActivity.kt:111-123 | Assigns index, progress and flag and swaps the player, moving the state as `Playback.PlayWithAutoNext` does. |
| `MainScreen.Controller.OnSongClick` | app/src/main/java/com/example/spotifyplayer/MainActivity.kt:213-215 | Moves the state as `Playback.ClickSong` does. |
| `MainScreen.Controller.OnPreviousClick` | app/src/main/java/com/example/spotifyplayer/MainActivity.kt:188-190 | Moves the state as `Playback.Previous` does. |
| `MainScreen.Controller.OnNextClick` | app/src/main/java/com/example/spotifyplayer/MainActivity.kt:191-193 | Moves the state as `Playback.Next` does. |
| `MainScreen.Controller.OnPlayPauseClick` | app/src/main/java/com/example/spotifyplayer/MainActivity.kt:182-186 | Moves the state as `Playback.TogglePlayPause` does. |
| `MainScreen.Controller.OnSeekTo` | app/src/main/java/com/example/spotifyplayer/MainActivity.kt:227-230 | Moves the state as `Playback.Seek` does. |
| `MainScreen.Controller.OnPrepared` | app/src/main/java/com/example/spotifyplayer/MainActivity.kt:258 | Moves the state as `Playback.Prepared` does. |
| `MainScreen.Controller.OnTimePassed` | app/src/main/java/com/example/spotifyplayer/MainActivity.kt:130 | Moves the state as `Playback.Elapse` does. |
| `MainScreen.Controller.OnCompletion` | app/src/main/java/com/example/spotifyplayer/MainActivity.kt:116-122 | Moves the state as `Playback.Complete` does. |
| `MainScreen.Controller.PollTick` | app/src/main/java/com/example/spotifyplayer/MainActivity.kt:127-133 | One pass of the poll loop: the state moves as `Playback.PollTick` does, and the loop goes on exactly while the handle is non-null. |
| `MainScreen.Controller.RunPoller` | app/src/main/java/com/example/spotifyplayer/MainActivity.kt:126-135 | The while loop over one player's lifetime leaves the progress `PolledProgress` gives and keeps `Valid()`. It runs `TicksUntilNull` ticks. |
| `MainScreen.Controller.Dispose` | app/src/main/java/com/example/spotifyplayer/MainActivity.kt:163-167 | Releases the player and clears the reference, leaving no live handle. The state moves as `Playback.Dispose` does. |

## Left out

- Compose layout, theming, animation and window setup: presentation only. `SongList`, `BottomPlayerBar`, `PlayerDetailSheet` and `MainActivity.onCreate` are not modelled.
- The slider's local `sliderPosition` copy is presentation only and is not modelled. The model starts from the value handed to `onSeekTo`.
- The detail flag `showPlayerDetail` is a parameter of the visibility predicates. Its two writers, bar click and dismiss, are one-line UI assignments.
- The permission request flow is a platform API, not logic.
- `loadSongs` is a media-store query (I/O), so the catalog is a constant of the controller. Loading happens before any row can be clicked. The `Desconocido` fallback for a missing title or artist is part of that query.
- Floating-point progress is not modelled. Progress is kept as the pair (position, duration), and the `Float` division that turns it into a fraction is not modelled. A zero duration would give NaN there.
- `Playback.Seek`: computes the target as exactly `duration * num / den` rounded down, with the slider value as a fraction `num / den`. The `Float` rounding of `(dur * sliderPos).toInt()` is not modelled.
- `MediaPlayer` internals are replaced by the `Engine` record: data source, asynchronous preparation, decoding and the error state. The prepared, time-passing and completion callbacks become explicit events.
- The platform's `Error` state is not modelled. A `start()` or `pause()` issued while preparing leaves the player preparing.
- The 500 ms `delay` and the coroutine that runs the poller are scheduling, not logic. `MainScreen.Controller.RunPoller` takes as a parameter the sequence of handle values its ticks find. Restarting the poller when the handle changes is outside the model.
- `String.format` uses the default locale, and a locale with other digit characters is not modelled. Digits are ASCII.
- `Long` ranges are not modelled: integers are unbounded. `formatDuration` cannot overflow: it only divides.
