/** old.go: encodeStatus, the one part of that file that is usable; the
    rest of it does not compile. */
module OldMain {
  import opened MpdReply

  datatype Track = Track(title: string, artist: string, album: string)

  /** CurrentStatus: elapsed and duration in whole seconds. */
  datatype CurrentStatus = CurrentStatus(duration: nat, elapsed: nat, state: string)

  datatype Status = Status(track: Track, current: CurrentStatus)

  /** encodeStatus: the status from a `status` reply and a `currentsong`
      reply. Elapsed is parsed before duration, so when both are malformed
      the error names the elapsed text. */
  function EncodeStatus(status: Attrs, song: Attrs, parse: FloorParser): (r: Result<Status>)
    ensures r.Ok? <==> parse(Get(status, "elapsed")).Some? && parse(Get(status, "duration")).Some?
    ensures parse(Get(status, "elapsed")).None? ==> r == Err(ParseFailed(Get(status, "elapsed")))
    ensures parse(Get(status, "elapsed")).Some? && parse(Get(status, "duration")).None? ==>
      r == Err(ParseFailed(Get(status, "duration")))
    ensures r.Ok? ==>
      && r.value.current.elapsed == parse(Get(status, "elapsed")).value
      && r.value.current.duration == parse(Get(status, "duration")).value
      && r.value.current.state == Get(status, "state")
      && r.value.track == Track(Get(song, "Title"), Get(song, "Artist"), Get(song, "Album"))
  {
    match parse(Get(status, "elapsed"))
    case None => Err(ParseFailed(Get(status, "elapsed")))
    case Some(elapsed) =>
      match parse(Get(status, "duration"))
      case None => Err(ParseFailed(Get(status, "duration")))
      case Some(duration) =>
        Ok(Status(
          Track(Get(song, "Title"), Get(song, "Artist"), Get(song, "Album")),
          CurrentStatus(duration, elapsed, Get(status, "state"))))
  }

  /** The state is copied whatever it is: unlike getStatus, encodeStatus
      does not reject a stopped player. */
  lemma EncodeStatusKeepsAnyState(state: string, parse: FloorParser)
    requires parse("1") == Some(1)
    ensures var r := EncodeStatus(map["state" := state, "elapsed" := "1", "duration" := "1"], map[], parse);
      r.Ok? && r.value.current.state == state && r.value.track == Track("", "", "")
  {
    var status := map["state" := state, "elapsed" := "1", "duration" := "1"];
    assert Get(status, "elapsed") == "1" && Get(status, "duration") == "1";
  }
}
