/** main.go: reading the status, building the submission body and the
    timer delay. The event loop that uses them is in module WatchLoop. */
module Libra {
  import opened MpdReply
  import opened Records
  import Deadline
  import ListenBrainz

  /** getStatus: the status while MPD plays or pauses a track, NotPlaying
      otherwise; a failed query ends the process through `check`. */
  function GetStatus(status: Reply, song: Reply): (r: Result<PlayingStatus>)
    ensures status.Err? ==> r == Err(Fatal("status", status.error))
    ensures r.Ok? <==>
      status.Ok? && Get(status.value, "state") in {"play", "pause"} && song.Ok?
    ensures status.Ok? && Get(status.value, "state") in {"play", "pause"} && song.Err? ==>
      r == Err(Fatal("CurrentSong@getStatus", song.error))
    ensures status.Ok? && Get(status.value, "state") !in {"play", "pause"} ==>
      r == Err(NotPlaying)
    ensures r.Ok? ==> r.value.state in {"play", "pause"}
    ensures r.Ok? ==> r.value == PlayingStatusOf(status.value, song.value)
  {
    if status.Err? then
      Err(Fatal("status", status.error))
    else
      var st := Get(status.value, "state");
      if st == "play" || st == "pause" then
        if song.Err? then Err(Fatal("CurrentSong@getStatus", song.error))
        else Ok(PlayingStatusOf(status.value, song.value))
      else
        Err(NotPlaying)
  }

  /** formatJSON: the submission body for listen type `lt`, None standing
      for the empty byte slice returned for any other type. `now` is the
      clock reading, used only for "single". */
  function FormatJson(s: PlayingStatus, lt: string, now: int): (r: Option<Submission>)
    ensures r.Some? <==> lt == PlayingNow || lt == Single
    ensures r.Some? ==> r.value.listenType == lt && |r.value.payloads| == 1
    ensures r.Some? ==> r.value.payloads[0].trackMetadata == TrackMetadata(s.title, s.artist, s.album)
    ensures r.Some? ==> r.value.payloads[0].listenedAt == (if lt == Single then now else 0)
  {
    if lt == PlayingNow then
      Some(Submission(lt, [Payload(0, TrackMetadata(s.title, s.artist, s.album))]))
    else if lt == Single then
      Some(Submission(lt, [Payload(now, TrackMetadata(s.title, s.artist, s.album))]))
    else
      None
  }

  /** The status record of players/players.go with the same fields. */
  function AsStatus(s: PlayingStatus): Status {
    Status(s.title, s.artist, s.album, s.duration, s.elapsed, s.state)
  }

  /** main.go's formatJSON and the listenbrainz package's formatAsJSON build
      the same body, and reject the same listen types. */
  lemma FormatJsonAgreesWithListenBrainz(s: PlayingStatus, lt: string, now: int)
    ensures FormatJson(s, lt, now).Some? <==> ListenBrainz.FormatAsJson(AsStatus(s), lt, now).Ok?
    ensures FormatJson(s, lt, now).Some? ==>
      FormatJson(s, lt, now).value == ListenBrainz.FormatAsJson(AsStatus(s), lt, now).value
  {
  }

  /** startTimer's delay; a duration that does not parse ends the process. */
  function TimerDelay(s: PlayingStatus, parse: FloorParser): (r: Result<nat>)
    ensures r.Err? <==> parse(s.duration).None?
    ensures r.Err? ==> r.error == Fatal("totalLength", ParseFailed(s.duration))
    ensures r.Ok? ==> r.value == Deadline.SubmissionDelay(parse(s.duration).value)
  {
    match parse(s.duration)
    case None => Err(Fatal("totalLength", ParseFailed(s.duration)))
    case Some(totalLength) =>
      var hp := totalLength / 2;
      Ok(if hp > 240 then 240 else hp)
  }
}
