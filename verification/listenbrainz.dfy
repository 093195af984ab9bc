/** services/listenbrainz/listenbrainz.go: the submission body and the
    submission deadline. The HTTP request that carries the body is not part
    of this model. */
module ListenBrainz {
  import opened MpdReply
  import opened Records
  import Deadline

  /** formatAsJSON: the submission record for listen type `lt`; `now` is the
      clock reading (Unix seconds), used only for a "single" listen. */
  function FormatAsJson(s: Status, lt: string, now: int): (r: Result<Submission>)
    ensures r.Ok? <==> lt == PlayingNow || lt == Single
    ensures r.Err? ==> r.error == UnrecognizedListenType
    ensures r.Ok? ==> r.value.listenType == lt && |r.value.payloads| == 1
    ensures r.Ok? ==> r.value.payloads[0].trackMetadata == TrackMetadata(s.title, s.artist, s.album)
    ensures r.Ok? ==> r.value.payloads[0].listenedAt == (if lt == Single then now else 0)
  {
    var tm := TrackMetadata(s.title, s.artist, s.album);
    if lt == PlayingNow then
      Ok(Submission(lt, [Payload(0, tm)]))
    else if lt == Single then
      Ok(Submission(lt, [Payload(now, tm)]))
    else
      Err(UnrecognizedListenType)
  }

  /** A "playing_now" body carries no listened_at member; a "single" body
      carries the clock reading (unless that reading is 0, which the
      `omitempty` tag drops). */
  lemma ListenedAtOnlyForSingle(s: Status, now: int)
    ensures ListenedAtMember(FormatAsJson(s, PlayingNow, now).value.payloads[0], true) == None
    ensures now != 0 ==>
      ListenedAtMember(FormatAsJson(s, Single, now).value.payloads[0], true) == Some(now)
  {
  }

  /** getSubmissionTime: the delay in seconds before a listen counts; a
      duration that does not parse ends the process. */
  function GetSubmissionTime(d: string, parse: FloorParser): (r: Result<nat>)
    ensures r.Err? <==> parse(d).None?
    ensures r.Err? ==> r.error == Fatal("Failed to parse duration", ParseFailed(d))
    ensures r.Ok? ==> r.value <= 240 && 2 * r.value <= parse(d).value
    ensures r.Ok? ==> r.value == 240 || parse(d).value < 2 * r.value + 2
  {
    match parse(d)
    case None => Err(Fatal("Failed to parse duration", ParseFailed(d)))
    case Some(totalLength) => Ok(Deadline.SubmissionDelay(totalLength))
  }

  /** PostPlayingNow: the body it sends; formatting never fails for
      "playing_now", so the error return is unreachable. The clock is not
      read for "playing_now". */
  function PostPlayingNow(s: Status): (r: Result<Submission>)
    ensures r.Ok? && r.value.listenType == PlayingNow
    ensures r.value.payloads == [Payload(0, TrackMetadata(s.title, s.artist, s.album))]
  {
    FormatAsJson(s, PlayingNow, 0)
  }

  /** PostSingle: the body it sends, stamped with the clock reading `now`. */
  function PostSingle(s: Status, now: int): (r: Result<Submission>)
    ensures r.Ok? && r.value.listenType == Single
    ensures r.value.payloads == [Payload(now, TrackMetadata(s.title, s.artist, s.album))]
  {
    FormatAsJson(s, Single, now)
  }
}
