# A Dafny model of the libra / wylt ListenBrainz scrobbler

The program watches an MPD music player and reports what it plays to
ListenBrainz. On every MPD "player" event it stops the stored submission
timer. If MPD is playing, it sends a "playing_now" submission and arms a new
timer for `min(floor(duration / 2), 240)` seconds. When that timer expires,
it reads the status again. It sends a "single" listen only if the track's
identity, `Title + " by " + Artist`, is unchanged.

This model covers that core in the historical copies where it appears:

- `main.go`: status reading, body building, timer delay, the startup block and the event loop.
- `services/listenbrainz/listenbrainz.go`: the body builder and the deadline.
- `players.go` and `players/mpd/mpd.go`: the player status readers and their event loops.
- `utils/utils.go`: an earlier cut of the helpers.
- `old.go`: `encodeStatus`.

Files and modules:

- `mpd_reply.dfy` (`MpdReply`): the shared types. An MPD reply is a `map<string, string>`, and a
  missing key reads as `""`, as a Go map does. An MPD query gives a `Reply`: its attributes, or
  the client's error. Errors are a datatype. `Fatal(where, cause)` stands for `log.Fatalln`, which
  ends the process. Float parsing is the parameter `parse: FloorParser`, a function from the text
  to the already floored whole seconds, or `None` when the text does not parse.
- `records.dfy` (`Records`): the status records, the identity string, and the submission record
  (`listen_type`, `payload`, `listened_at`, `track_metadata`). The JSON bytes are not modelled.
- `deadline.dfy` (`Deadline`): the deadline rule. It also proves that flooring the duration before
  halving loses nothing: `floor(x/2) = floor(floor(x)/2)` for real `x >= 0`.
- `listenbrainz.dfy`, `mpd_player.dfy`, `players.dfy`, `utils.dfy`, `libra.dfy`, `old_main.dfy`:
  one module per source file.
- `watch_loop.dfy` (`WatchLoop`): `main.go`'s loop as a state value with one transition function
  per event. The state holds every timer created (pending, stopped or fired), the one-slot
  `currentTimer` channel, the bodies sent, and whether the process has ended. The invariant says
  the channel holds at most one timer, and only the timer in the channel can still fire. Timer
  expiry is an explicit event.
- `scrobbler.dfy` (`Scrobbling`): class `Scrobbler` runs the same loop with fields updated in
  place. Each method is proved to follow the matching transition function.

The model follows the code where it differs from what a scrobbler usually does:

- There is no de-duplication of repeated "play" events.
- There is no minimum duration.
- The identity compares title and artist only, not album.
- At expiry a paused player still gets its listen if the identity matches.
- `getStatus` failing at expiry ends the process.
- There is no per-player, per-target fan-out.

## Model

| member | source | states |
|---|---|---|
| `Records.IdentityIsCoarse` | main.go:113 | The identity ignores the album. Two different title/artist pairs can share one identity. |
| `Deadline.HalfPoint` | utils/utils.go:90-95 | The half point is floor(duration / 2): `2*hp <= d < 2*hp + 2`. |
| `Deadline.SubmissionDelay` | main.go:174-179 | The delay is at most 240 and at most the half point, and equals one of them: their minimum. |
| `Deadline.HalfOfFloor` | main.go:165-167 | For real `x >= 0`, `floor(x/2) == floor(x)/2`, so a floored duration gives the same half point. |
| `Deadline.FlooredDurationIsFaithful` | services/listenbrainz/listenbrainz.go:79-96 | The Go float computation of the delay equals `SubmissionDelay(floor(x))` for every `x >= 0`. |
| `Deadline.DelayExamples` | services/listenbrainz/listenbrainz.go:90-96 | The rule gives 10→5, 100→50, 300→150, 481→240, 500→240 and 600→240. |
| `ListenBrainz.FormatAsJson` | services/listenbrainz/listenbrainz.go:39-66 | Succeeds exactly for "playing_now" and "single", else returns "Unrecognized listen type." Gives one payload with metadata title/artist/album and `listened_at` = now for "single", 0 for "playing_now". |
| `ListenBrainz.ListenedAtOnlyForSingle` | services/listenbrainz/listenbrainz.go:27-55 | A "playing_now" body has no `listened_at` member (omitempty). A "single" body carries the clock reading. |
| `ListenBrainz.GetSubmissionTime` | services/listenbrainz/listenbrainz.go:77-97 | A duration that does not parse is fatal. Otherwise the result is at most 240 and at most half the duration, and equals floor(d/2) unless capped. |
| `ListenBrainz.PostPlayingNow` | services/listenbrainz/listenbrainz.go:126-133 | Always uses "playing_now", so the format error is never returned. The body has one payload with `listened_at` 0. |
| `ListenBrainz.PostSingle` | services/listenbrainz/listenbrainz.go:136-143 | Always uses "single" and never fails. The body is stamped with the clock reading. |
| `MpdPlayer.GetStatus` | players/mpd/mpd.go:36-59 | A failed Status query's error is returned unchanged. Play/pause copies song and status fields, or returns a failed CurrentSong's error. Any other state gives "not playing". |
| `MpdPlayer.Forwarded` | players/mpd/mpd.go:77-89 | Every forwarded status has state "play", and no event forwards more than one status. |
| `MpdPlayer.Watch` | players/mpd/mpd.go:62-89 | The loop sends on statusCh exactly `Forwarded(events)`. |
| `MpdPlayer.PausedNeverForwarded` | players/mpd/mpd.go:80-84 | A paused status is never forwarded. |
| `MpdPlayer.SwallowsNextEvent` | players/mpd/mpd.go:85-88 | An event for another subsystem makes the loop skip the next event unread. |
| `MpdPlayer.PlayEventForwarded` | players/mpd/mpd.go:78-84 | A "player" event whose status reads "play" forwards exactly that status. |
| `MpdPlayer.ForwardedComesFromPlayerEvent` | players/mpd/mpd.go:77-84 | Every forwarded status is what GetStatus read on some "player" event of the stream. |
| `MpdPlayer.GetStatusAgreesWithMain` | players/mpd/mpd.go:36-59 | Succeeds exactly when main.go's getStatus does, with the same fields. Both report "not playing" for other states. |
| `Players.NowPlaying` | players.go:98-121 | Never returns an error. A failed song or status query, or a duration that does not parse, gives the zero Track. Otherwise it copies title/artist/album and uses the floored duration. |
| `Players.Emitted` | players.go:67-93 | The loop sends at most two values per event. |
| `Players.Subscribe` | players.go:55-96 | The goroutine's loop sends exactly `Emitted(events)`, in order. |
| `Players.PlayEventSendsTrack` | players.go:79-85 | A "player" event whose status reads "play" sends NowPlaying's track. If the song query failed, that is the zero track. |
| `Players.StatusErrorSendsOnlyError` | players.go:71-79 | A failed status query sends its error and no track. |
| `Players.NotPlayingSendsNothing` | players.go:79-86 | A "player" event in any state other than "play" sends nothing. |
| `Players.SwallowsNextEvent` | players.go:88-91 | An event for another subsystem makes the loop skip the next event. |
| `Utils.GetStatus` | utils/utils.go:61-77 | Query failures are fatal. Play/pause gives the record with `Track = Title + " by " + Artist`. Any other state gives "not playing". |
| `Utils.GetHalfPoint` | utils/utils.go:90-95 | Unparsable durations are fatal. Otherwise the result is floor(d / 2). |
| `Utils.StartTimer` | utils/utils.go:98-107 | The armed delay (`hp < 240 ? hp : 240`) equals `Deadline.SubmissionDelay`, for the given identity. |
| `Utils.CallApi` | utils/utils.go:33-44 | Builds a "single" body with `listened_at` = now (no omitempty). The metadata is filled by position, so artist_name gets the title and track_name the artist. |
| `Utils.Fire` | utils/utils.go:110-116 | Every status error is fatal, and "not playing" becomes `Fatal("timer status", ...)`. Otherwise CallAPI runs exactly when the stored identity equals the current one, on the current status. |
| `Utils.GetStatusAgreesWithMain` | utils/utils.go:61-77 | Reads the same status as main.go's getStatus. The two differ only in the fatal label. |
| `Utils.CallApiExchangesTitleAndArtist` | utils/utils.go:26-43 | CallAPI's body is main.go's "single" body with title and artist exchanged. It differs whenever they differ. |
| `Libra.GetStatus` | main.go:102-123 | Succeeds only for "play"/"pause", with the identity string. Query failures are fatal. Other states give "MPD is not playing anything". |
| `Libra.FormatJson` | main.go:126-160 | "playing_now" gives one payload with `listened_at` 0. "single" gives `listened_at` = now. Any other type gives the empty result. |
| `Libra.FormatJsonAgreesWithListenBrainz` | main.go:126-160 | Builds the same body as the listenbrainz package's formatAsJSON, for the same listen types. |
| `Libra.TimerDelay` | main.go:163-179 | An unparsable duration is fatal (`check`). Otherwise the delay is `Deadline.SubmissionDelay` of the floored duration. |
| `WatchLoop.AtMostOnePending` | main.go:237 | Under the loop invariant, at most one timer can still fire. |
| `WatchLoop.Startup` | main.go:226-234 | One "playing_now" is sent for a playing or paused track, and no timer is armed. A query failure ends the process. |
| `WatchLoop.Drain` | main.go:243-246 | The channel is emptied and its timer stopped. Timers that fired are unaffected. |
| `WatchLoop.OnPlayer` | main.go:241-257 | A "player" event keeps the invariant: the channel never holds a second timer when refilled. |
| `WatchLoop.OnSubsystem` | main.go:240-258 | Any other event leaves the state unchanged. Unlike the player watchers, it does not skip the event after it. Every event keeps the invariant. |
| `WatchLoop.Fire` | main.go:182-190 | A timer expiry keeps the invariant. |
| `WatchLoop.Step` | main.go:240-258 | Any event keeps the invariant. |
| `WatchLoop.Steps` | main.go:240-259 | Any run of events keeps the invariant. |
| `WatchLoop.PlayerEventCancels` | main.go:241-246 | After a "player" event, in any state, no earlier timer can fire. |
| `WatchLoop.PlayArmsOneTimer` | main.go:250-256 | A timer is armed exactly when the status is "play" and the duration parses. Its delay is the deadline and it is due at now + delay. "playing_now" for the same status is sent. |
| `WatchLoop.NotPlayingLeavesNoTimer` | main.go:248-257 | A pause, stop or unread status sends nothing and leaves no timer armed. The process ends exactly when getStatus failed fatally (a failed Status or CurrentSong query). "Not playing" lets the loop go on. No timer is added. |
| `WatchLoop.PlayingNowBeforeTimer` | main.go:250-256 | If the duration does not parse, "playing_now" has already been sent when the process ends, and no timer is armed. |
| `WatchLoop.RepeatedPlayIsNotDeduplicated` | main.go:243-256 | The same "play" event twice sends "playing_now" twice. It stops the first new timer and arms a second. |
| `WatchLoop.StoppedTimerNeverFires` | main.go:245 | The expiry of a stopped or fired timer changes nothing. |
| `WatchLoop.FireIsIdempotent` | main.go:182-190 | A timer fires at most once. |
| `WatchLoop.ListenOnlyForSameIdentity` | main.go:183-188 | A listen is sent exactly when the timer is pending, the status reads, and the identity matches. The body comes from the fire-time status and is stamped with the due time. |
| `WatchLoop.FireMarksFired` | main.go:182-190 | The expiry of a pending timer marks it fired and leaves the channel as it is. The process ends exactly when getStatus fails. |
| `WatchLoop.SupersededTimerSendsNothing` | main.go:241-246 | After any later "player" event, an earlier timer's expiry sends nothing. |
| `WatchLoop.StepKeepsNonPending` | main.go:241-257 | A stopped or fired timer is left exactly as it is by any event. |
| `WatchLoop.StepsKeepNonPending` | main.go:240-259 | A stopped or fired timer is left exactly as it is by any run of events. |
| `WatchLoop.SupersededTimerNeverSends` | main.go:241-246 | After a later "player" event and any events after it, an earlier timer's expiry sends nothing and changes nothing. |
| `WatchLoop.TimerFiresAtMostOnce` | main.go:182-190 | After a timer's expiry and any events after it, a second expiry of the same timer changes nothing. |
| `WatchLoop.FireStatusErrorIsFatal` | main.go:183-184 | Any getStatus error at expiry, "not playing" included, ends the process without a listen. |
| `WatchLoop.AtMostOneListenPerTimer` | main.go:182-190 | On every run from startup, the listens sent never outnumber the timers that fired. |
| `WatchLoop.TrackAStarts` | main.go:250-256 | From the empty state, "play" of A (500 s) at t=1000 sends one "playing_now" and arms a 240 s timer due at 1240. |
| `WatchLoop.TrackBReplacesA` | main.go:243-256 | With A's timer pending, "play" of B (300 s) at t=1200 stops A's timer. It sends "playing_now" for B and arms a 150 s timer due at 1350. |
| `WatchLoop.ScenarioTrackChangeCancelsListen` | main.go:240-257 | A (500 s) at t=1000 gets a timer due at 1240. B at 1200 stops it, and A's expiry sends nothing. B's timer is due at 1350. |
| `WatchLoop.ScenarioUninterruptedPlay` | main.go:182-190 | A (100 s) played through its deadline gets exactly one listen, stamped 1050. |
| `WatchLoop.ScenarioStopBeforeDeadline` | main.go:241-250 | A stop before the deadline stops the timer. No listen is sent and nothing stays armed. |
| `Scrobbling.Scrobbler.constructor` | main.go:226-234 | The startup block establishes the invariant, with state `Startup`. |
| `Scrobbling.Scrobbler.OnEvent` | main.go:240-258 | Updates the fields in place to `OnSubsystem` of the old state. |
| `Scrobbling.Scrobbler.FireTimer` | main.go:182-190 | Updates the fields in place to `Fire` of the old state. |
| `Scrobbling.Scrobbler.Run` | main.go:240-259 | The loop over events ends in `Steps` of the old state. |
| `Scrobbling.RepeatedPlayThenStaleExpiry` | main.go:243-256 | As a client of the class: startup plus two "play" events send three "playing_now". The first timer's expiry sends nothing. |
| `OldMain.EncodeStatus` | old.go:58-83 | elapsed is parsed first, then duration, each failure returning the parse error. On success both are floored and title/artist/album/state are copied. |
| `OldMain.EncodeStatusKeepsAnyState` | old.go:71-81 | Any state is copied, not only "play"/"pause". |

## Left out

- HTTP: `submitRequest`, `createRequest`, `SubmitRequest`, the request headers and the
  responses. These are network I/O. The model records the body each call would send. A network
  failure, which is fatal in main.go, is not modelled.
- The JSON bytes from `json.Marshal` are not modelled; the submission record is. The marshal
  error branch of `formatAsJSON` cannot be taken for these records.
- Float parsing (`strconv.ParseFloat`, `math.Floor`) is a parameter. Negative, infinite and NaN
  values are outside the model, because MPD reports none.
- Go's conversions to `int` and `time.Duration` are taken as exact, with no overflow. Finite
  values beyond their range are not modelled. In Go such a conversion is
  implementation-dependent; on amd64 it gives the least int64. By site:
  - main.go:167, services/listenbrainz/listenbrainz.go:83 and utils/utils.go:94 convert the
    halved duration. The conversion overflows only for a duration of 2^64 s or more. Between
    2^63 s and 2^64 s, Go gives 240 as the model does. At 2^64 s or more, on amd64:
    - main.go and utils/utils.go arm the timer with `time.Duration(least int64) * time.Second`,
      which wraps to 0, so the timer fires at once. `Libra.TimerDelay` and `Utils.StartTimer`
      give 240.
    - `getSubmissionTime` in services/listenbrainz/listenbrainz.go arms no timer; it returns the
      least int64. `ListenBrainz.GetSubmissionTime` gives 240.
  - old.go:63 and old.go:69 convert the elapsed time and the duration themselves. These
    overflow from 2^63 s; `OldMain.EncodeStatus` keeps the floored value.
  - players.go:118 multiplies by `time.Second`, which overflows int64 nanoseconds above about
    9.2e9 s (2^63 ns). `Players.NowPlaying` keeps the whole seconds.
- The clock is a parameter of each watcher event. At a timer's expiry, the clock reading is the
  time the timer is due. The time spent between expiry and `time.Now()` is not modelled.
- Events are ordered only by their place in the sequence. The `now` readings need not increase.
  A `TimerFires` event is not tied to its timer's due time: it may come before or after any
  other event. The model therefore admits more runs than the program can have. Its per-run
  lemmas hold of every run it admits, and so of the program's own runs.
- Races between `time.AfterFunc` and `Stop` are not modelled. Expiry is a sequential event, and a
  stopped timer never fires.
- Configuration loading, log files, MPD dialing, watchers, `Close`, keep-alive pings
  (`keepAlive`, `KeepAlive`, the `time.Tick` goroutines) and the error-forwarding goroutines are
  left out. They are I/O and concurrency.
- targets.go is not part of this model; it wraps a library that is not available. players/players.go
  is only the `Status` datatype.
- old.go's `main` does not compile; only `encodeStatus` is modelled.
- utils/utils.go:36-37 writes its payload list with a type name as the element key, which Go
  rejects. `Utils.CallApi` takes the evident meaning, a one-element list. CallAPI only writes
  the body to the log, never sending it; the model returns the body, and the log line itself is
  not modelled.
- In players.go:81-83, the error send after `NowPlaying` is not a branch of the model. NowPlaying
  never returns an error (`Players.NowPlaying`), so that send cannot happen.
- The end of the watcher's event channel is the end of the event sequence. A swallowed read on a
  closed channel ends the loop there.
- Behaviour the code lacks is not modelled: de-duplication of repeated "play" events,
  cancellation checked at expiry, a minimum duration, and fan-out over several players and
  targets.
- `Players.Emitted`: its own contract only bounds the number of sends. What each event sends is
  stated by the lemmas beside it.
