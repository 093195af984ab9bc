/** players.go: the MPD player as the scrobbler's track source, with its
    point query NowPlaying and the Subscribe loop that turns watcher events
    into tracks and errors. The keep-alive goroutine is not part of this
    model. */
module Players {
  import opened MpdReply

  /** A track; `duration` is whole seconds (time.Duration of int(math.Floor(d)) seconds). */
  datatype Track = Track(title: string, artist: string, album: string, duration: nat)

  /** Track{}: the zero value NowPlaying returns when a query fails. */
  const ZeroTrack: Track := Track("", "", "", 0)

  /** (*mpd).NowPlaying: the current track from a `currentsong` reply and a
      `status` reply. Every failure yields the zero track and no error. */
  function NowPlaying(song: Reply, status: Reply, parse: FloorParser): (r: Result<Track>)
    ensures r.Ok?
    ensures song.Err? || status.Err? || parse(Field(status, "duration")).None? ==>
      r.value == ZeroTrack
    ensures song.Ok? && status.Ok? && parse(Get(status.value, "duration")).Some? ==>
      && r.value.title == Get(song.value, "Title")
      && r.value.artist == Get(song.value, "Artist")
      && r.value.album == Get(song.value, "Album")
      && r.value.duration == parse(Get(status.value, "duration")).value
  {
    if song.Err? then Ok(ZeroTrack)
    else if status.Err? then Ok(ZeroTrack)
    else match parse(Get(status.value, "duration"))
      case None => Ok(ZeroTrack)
      case Some(d) =>
        Ok(Track(Get(song.value, "Title"), Get(song.value, "Artist"), Get(song.value, "Album"), d))
  }

  /** One watcher event and the replies to the queries made while handling
      it: Subscribe's own `status`, then NowPlaying's `currentsong` and `status`. */
  datatype SubscribeEvent = SubscribeEvent(subsystem: string, status: Reply, song: Reply, nowStatus: Reply)

  /** A value Subscribe sends, on the track channel or on the error channel. */
  datatype Emission = TrackSent(track: Track) | ErrorSent(error: Error)

  /** What handling one "player" event sends. NowPlaying never returns an
      error, so the error send after it never happens and is not listed. */
  function HandlePlayer(e: SubscribeEvent, parse: FloorParser): seq<Emission> {
    (if e.status.Err? then [ErrorSent(e.status.error)] else [])
    + (if Field(e.status, "state") == "play"
       then [TrackSent(NowPlaying(e.song, e.nowStatus, parse).value)]
       else [])
  }

  /** The values Subscribe sends for a stream of events, in order. An event
      for any other subsystem makes the loop take the next event unread. */
  function Emitted(events: seq<SubscribeEvent>, parse: FloorParser): (out: seq<Emission>)
    ensures |out| <= 2 * |events|
    decreases |events|
  {
    if events == [] then []
    else if events[0].subsystem == "player" then HandlePlayer(events[0], parse) + Emitted(events[1..], parse)
    else if |events| == 1 then []
    else Emitted(events[2..], parse)
  }

  /** Emitted from position i on, one event at a time. */
  lemma EmittedFrom(events: seq<SubscribeEvent>, i: nat, parse: FloorParser)
    requires i < |events|
    ensures events[i].subsystem == "player" ==>
      Emitted(events[i..], parse) == HandlePlayer(events[i], parse) + Emitted(events[i + 1..], parse)
    ensures events[i].subsystem != "player" && i + 1 < |events| ==>
      Emitted(events[i..], parse) == Emitted(events[i + 2..], parse)
    ensures events[i].subsystem != "player" && i + 1 == |events| ==>
      Emitted(events[i..], parse) == []
  {
    assert events[i..][0] == events[i];
    assert events[i..][1..] == events[i + 1..];
    if i + 1 < |events| {
      assert events[i..][2..] == events[i + 2..];
    }
  }

  /** (*mpd).Subscribe: the watch goroutine's loop over the watcher's events. */
  method Subscribe(events: seq<SubscribeEvent>, parse: FloorParser) returns (sent: seq<Emission>)
    ensures sent == Emitted(events, parse)
  {
    sent := [];
    var i := 0;
    while i < |events|
      invariant 0 <= i <= |events|
      invariant Emitted(events, parse) == sent + Emitted(events[i..], parse)
    {
      var e := events[i];
      EmittedFrom(events, i, parse);
      if e.subsystem == "player" {
        ghost var before := sent;
        if e.status.Err? {
          sent := sent + [ErrorSent(e.status.error)];
        }
        if Field(e.status, "state") == "play" {
          var t := NowPlaying(e.song, e.nowStatus, parse);
          sent := sent + [TrackSent(t.value)];
        }
        assert sent == before + HandlePlayer(e, parse);
        i := i + 1;
      } else if i + 1 < |events| {
        // other events are not handled: empty the channel of the next one
        i := i + 2;
      } else {
        i := |events|;
      }
    }
    assert events[|events|..] == [];
  }

  /** A "player" event whose status reads "play" sends a track, even when
      NowPlaying's own queries failed: then it is the zero track. */
  lemma PlayEventSendsTrack(e: SubscribeEvent, rest: seq<SubscribeEvent>, parse: FloorParser)
    requires e.subsystem == "player" && e.status.Ok? && Get(e.status.value, "state") == "play"
    ensures Emitted([e] + rest, parse) == [TrackSent(NowPlaying(e.song, e.nowStatus, parse).value)] + Emitted(rest, parse)
    ensures e.song.Err? ==> Emitted([e] + rest, parse)[0] == TrackSent(ZeroTrack)
  {
    assert ([e] + rest)[1..] == rest;
  }

  /** A failed status query sends its error and no track. */
  lemma StatusErrorSendsOnlyError(e: SubscribeEvent, rest: seq<SubscribeEvent>, parse: FloorParser)
    requires e.subsystem == "player" && e.status.Err?
    ensures Emitted([e] + rest, parse) == [ErrorSent(e.status.error)] + Emitted(rest, parse)
  {
    assert ([e] + rest)[1..] == rest;
  }

  /** A "player" event in any state other than "play" sends nothing. */
  lemma NotPlayingSendsNothing(e: SubscribeEvent, rest: seq<SubscribeEvent>, parse: FloorParser)
    requires e.subsystem == "player" && e.status.Ok? && Get(e.status.value, "state") != "play"
    ensures Emitted([e] + rest, parse) == Emitted(rest, parse)
  {
    assert ([e] + rest)[1..] == rest;
  }

  /** An event for another subsystem swallows the event after it. */
  lemma SwallowsNextEvent(e: SubscribeEvent, next: SubscribeEvent, rest: seq<SubscribeEvent>, parse: FloorParser)
    requires e.subsystem != "player"
    ensures Emitted([e, next] + rest, parse) == Emitted(rest, parse)
  {
    assert ([e, next] + rest)[2..] == rest;
  }
}
