/** players/mpd/mpd.go: reading the player status from MPD, and the watch
    loop that forwards statuses on player events. Dialing, keep-alive pings
    and the watcher's error channel are not part of this model. */
module MpdPlayer {
  import opened MpdReply
  import opened Records
  import Libra

  /** GetStatus: the status from a `status` reply and a `currentsong` reply.
      `song` is consulted only in the "play" and "pause" states, as MPD is
      queried for it only then. */
  function GetStatus(status: Reply, song: Reply): (r: Result<Status>)
    ensures status.Err? ==> r == Err(status.error)
    ensures r.Ok? <==>
      status.Ok? && Get(status.value, "state") in {"play", "pause"} && song.Ok?
    ensures status.Ok? && Get(status.value, "state") in {"play", "pause"} && song.Err? ==>
      r == Err(song.error)
    ensures status.Ok? && Get(status.value, "state") !in {"play", "pause"} ==>
      r == Err(NotPlaying)
    ensures r.Ok? ==>
      && r.value.title == Get(song.value, "Title")
      && r.value.artist == Get(song.value, "Artist")
      && r.value.album == Get(song.value, "Album")
      && r.value.duration == Get(status.value, "duration")
      && r.value.elapsed == Get(status.value, "elapsed")
      && r.value.state == Get(status.value, "state")
  {
    if status.Err? then
      Err(status.error)
    else
      var st := Get(status.value, "state");
      if st == "play" || st == "pause" then
        if song.Err? then
          Err(song.error)
        else
          Ok(Status(
            Get(song.value, "Title"), Get(song.value, "Artist"), Get(song.value, "Album"),
            Get(status.value, "duration"), Get(status.value, "elapsed"), st))
      else
        Err(NotPlaying)
  }

  /** One event of the MPD watcher: the subsystem that changed, and the
      replies MPD gives to the queries made while handling it. */
  datatype WatchEvent = WatchEvent(subsystem: string, status: Reply, song: Reply)

  /** What handling a "player" event forwards: the status, when it reads
      and the player is playing. */
  function ForwardOne(e: WatchEvent): seq<Status> {
    var r := GetStatus(e.status, e.song);
    if r.Ok? && r.value.state == "play" then [r.value] else []
  }

  /** The statuses the watch loop sends on statusCh for a stream of events.
      An event for any other subsystem makes the loop take the next event
      off the channel unread. */
  function Forwarded(events: seq<WatchEvent>): (out: seq<Status>)
    ensures |out| <= |events|
    ensures forall k :: 0 <= k < |out| ==> out[k].state == "play"
    decreases |events|
  {
    if events == [] then []
    else if events[0].subsystem == "player" then ForwardOne(events[0]) + Forwarded(events[1..])
    else if |events| == 1 then []
    else Forwarded(events[2..])
  }

  /** Watch: the loop over the watcher's events. */
  method Watch(events: seq<WatchEvent>) returns (statusCh: seq<Status>)
    ensures statusCh == Forwarded(events)
  {
    statusCh := [];
    var i := 0;
    while i < |events|
      invariant 0 <= i <= |events|
      invariant Forwarded(events) == statusCh + Forwarded(events[i..])
    {
      var e := events[i];
      assert events[i..][0] == e;
      if e.subsystem == "player" {
        var r := GetStatus(e.status, e.song);
        if r.Ok? && r.value.state == "play" {
          statusCh := statusCh + [r.value];
        }
        assert events[i..][1..] == events[i + 1..];
        i := i + 1;
      } else if i + 1 < |events| {
        // drain the next event so the watcher does not block
        assert events[i..][2..] == events[i + 2..];
        i := i + 2;
      } else {
        i := |events|;
      }
    }
    assert events[|events|..] == [];
  }

  /** A paused player is never forwarded, whatever the events. */
  lemma {:induction false} PausedNeverForwarded(events: seq<WatchEvent>, s: Status)
    requires s.state == "pause"
    ensures s !in Forwarded(events)
  {
  }

  /** An event for another subsystem swallows the event after it. */
  lemma SwallowsNextEvent(e: WatchEvent, next: WatchEvent, rest: seq<WatchEvent>)
    requires e.subsystem != "player"
    ensures Forwarded([e, next] + rest) == Forwarded(rest)
  {
    assert ([e, next] + rest)[2..] == rest;
  }

  /** A "player" event in play state forwards exactly the status GetStatus read. */
  lemma PlayEventForwarded(e: WatchEvent, rest: seq<WatchEvent>)
    requires e.subsystem == "player"
    requires GetStatus(e.status, e.song).Ok? && GetStatus(e.status, e.song).value.state == "play"
    ensures Forwarded([e] + rest) == [GetStatus(e.status, e.song).value] + Forwarded(rest)
  {
    assert ([e] + rest)[1..] == rest;
  }

  /** Every forwarded status is what GetStatus read on some "player" event. */
  lemma {:induction false} ForwardedComesFromPlayerEvent(events: seq<WatchEvent>, k: nat)
    requires k < |Forwarded(events)|
    ensures exists j ::
              && 0 <= j < |events| && events[j].subsystem == "player"
              && GetStatus(events[j].status, events[j].song) == Ok(Forwarded(events)[k])
    decreases |events|
  {
    var out := Forwarded(events);
    if events[0].subsystem == "player" {
      var first := ForwardOne(events[0]);
      if k < |first| {
        assert events[0].subsystem == "player";
      } else {
        ForwardedComesFromPlayerEvent(events[1..], k - |first|);
        var j :| 0 <= j < |events[1..]| && events[1..][j].subsystem == "player" &&
          GetStatus(events[1..][j].status, events[1..][j].song) == Ok(Forwarded(events[1..])[k - |first|]);
        assert events[j + 1] == events[1..][j];
      }
    } else {
      ForwardedComesFromPlayerEvent(events[2..], k);
      var j :| 0 <= j < |events[2..]| && events[2..][j].subsystem == "player" &&
        GetStatus(events[2..][j].status, events[2..][j].song) == Ok(Forwarded(events[2..])[k]);
      assert events[j + 2] == events[2..][j];
    }
  }

  /** GetStatus reads the same status as main.go's getStatus; only the
      errors differ, main.go dying where this returns the query's error. */
  lemma GetStatusAgreesWithMain(status: Reply, song: Reply)
    ensures GetStatus(status, song).Ok? <==> Libra.GetStatus(status, song).Ok?
    ensures GetStatus(status, song).Ok? ==>
      GetStatus(status, song).value == Libra.AsStatus(Libra.GetStatus(status, song).value)
    ensures status.Ok? && Get(status.value, "state") !in {"play", "pause"} ==>
      GetStatus(status, song) == Err(NotPlaying) && Libra.GetStatus(status, song) == Err(NotPlaying)
  {
  }
}
