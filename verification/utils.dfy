/** utils/utils.go: an earlier cut of the scrobbler's helpers. Its GetStatus
    and timer die on any error; its CallAPI builds a "single" listen and
    only logs it. */
module Utils {
  import opened MpdReply
  import opened Records
  import Deadline
  import Libra

  /** GetStatus: as in main.go, with the identity string; a failed query
      ends the process. */
  function GetStatus(status: Reply, song: Reply): (r: Result<PlayingStatus>)
    ensures status.Err? ==> r == Err(Fatal("status", status.error))
    ensures r.Ok? <==>
      status.Ok? && Get(status.value, "state") in {"play", "pause"} && song.Ok?
    ensures status.Ok? && Get(status.value, "state") in {"play", "pause"} && song.Err? ==>
      r == Err(Fatal("current song", song.error))
    ensures status.Ok? && Get(status.value, "state") !in {"play", "pause"} ==>
      r == Err(NotPlaying)
    ensures r.Ok? ==> r.value == PlayingStatusOf(status.value, song.value)
    ensures r.Ok? ==> r.value.track == Get(song.value, "Title") + " by " + Get(song.value, "Artist")
  {
    if status.Err? then
      Err(Fatal("status", status.error))
    else
      var st := Get(status.value, "state");
      if st == "play" || st == "pause" then
        if song.Err? then Err(Fatal("current song", song.error))
        else Ok(PlayingStatusOf(status.value, song.value))
      else
        Err(NotPlaying)
  }

  /** getHalfPoint: floor(duration / 2); a duration that does not parse ends
      the process. */
  function GetHalfPoint(d: string, parse: FloorParser): (r: Result<nat>)
    ensures r.Err? <==> parse(d).None?
    ensures r.Err? ==> r.error == Fatal("totalLength", ParseFailed(d))
    ensures r.Ok? ==> 2 * r.value <= parse(d).value < 2 * r.value + 2
  {
    match parse(d)
    case None => Err(Fatal("totalLength", ParseFailed(d)))
    case Some(totalLength) => Ok(Deadline.HalfPoint(totalLength))
  }

  /** The timer StartTimer arms: the identity it was armed for and its delay. */
  datatype PendingListen = PendingListen(track: string, delay: nat)

  /** StartTimer's delay: the half point when it is below 240, else 240. */
  function StartTimer(t: string, d: string, parse: FloorParser): (r: Result<PendingListen>)
    ensures r.Err? <==> parse(d).None?
    ensures r.Ok? ==> r.value.track == t
    ensures r.Ok? ==> r.value.delay == Deadline.SubmissionDelay(parse(d).value)
  {
    match GetHalfPoint(d, parse)
    case Err(e) => Err(e)
    case Ok(hp) => Ok(PendingListen(t, if hp < 240 then hp else 240))
  }

  /** CallAPI: the "single" submission it builds. The metadata is filled by
      position into {ArtistName, TrackName, ReleaseName}, so the artist name
      receives the title and the track name the artist. */
  function CallApi(s: PlayingStatus, now: int): (p: Submission)
    ensures p.listenType == Single && |p.payloads| == 1
    ensures p.payloads[0].trackMetadata.artistName == s.title
    ensures p.payloads[0].trackMetadata.trackName == s.artist
    ensures p.payloads[0].trackMetadata.releaseName == s.album
    ensures ListenedAtMember(p.payloads[0], false) == Some(now)
  {
    Submission(Single, [Payload(now, TrackMetadata(s.artist, s.title, s.album))])
  }

  /** The timer's function when it fires: read the status again and call
      the API only if the identity is unchanged. Some(p) is the submission
      built, None means the identities differed. Any status error ends the
      process, "not playing" included (check(err, "timer status")). */
  function Fire(timer: PendingListen, status: Reply, song: Reply, now: int): (r: Result<Option<Submission>>)
    ensures r.Err? <==> GetStatus(status, song).Err?
    ensures r.Err? ==> r.error.Fatal?
    ensures GetStatus(status, song) == Err(NotPlaying) ==> r == Err(Fatal("timer status", NotPlaying))
    ensures r.Ok? ==> (r.value.Some? <==> timer.track == GetStatus(status, song).value.track)
    ensures r.Ok? && r.value.Some? ==> r.value.value == CallApi(GetStatus(status, song).value, now)
  {
    match GetStatus(status, song)
    case Err(e) => Err(if e.Fatal? then e else Fatal("timer status", e))
    case Ok(s) => Ok(if timer.track == s.track then Some(CallApi(s, now)) else None)
  }

  /** utils.go's GetStatus reads the same status as main.go's getStatus; the
      two differ only in the label of a fatal error. */
  lemma GetStatusAgreesWithMain(status: Reply, song: Reply)
    ensures GetStatus(status, song).Ok? <==> Libra.GetStatus(status, song).Ok?
    ensures GetStatus(status, song).Ok? ==> GetStatus(status, song) == Libra.GetStatus(status, song)
    ensures GetStatus(status, song).Err? ==>
      (GetStatus(status, song).error.Fatal? <==> Libra.GetStatus(status, song).error.Fatal?)
  {
  }

  /** CallAPI's body is main.go's "single" body for the status with title
      and artist exchanged; so whenever they differ the two bodies differ. */
  lemma CallApiExchangesTitleAndArtist(s: PlayingStatus, now: int)
    ensures CallApi(s, now) == Libra.FormatJson(s.(title := s.artist, artist := s.title), Single, now).value
    ensures s.title != s.artist ==> CallApi(s, now) != Libra.FormatJson(s, Single, now).value
  {
    if s.title != s.artist {
      assert CallApi(s, now).payloads[0].trackMetadata.trackName == s.artist;
      assert Libra.FormatJson(s, Single, now).value.payloads[0].trackMetadata.trackName == s.title;
    }
  }
}
