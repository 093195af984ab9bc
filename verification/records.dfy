/** The records the scrobbler builds: the player status it reads from MPD
    and the submission it sends to ListenBrainz (before JSON encoding). */
module Records {
  import opened MpdReply

  /** players.Status: the player's state, with MPD's texts unparsed. */
  datatype Status = Status(
    title: string, artist: string, album: string,
    duration: string, elapsed: string, state: string)

  /** playingStatus of main.go, PlayingStatus of utils/utils.go: the same
      fields plus the identity string the timer compares. */
  datatype PlayingStatus = PlayingStatus(
    track: string, title: string, artist: string, album: string,
    duration: string, elapsed: string, state: string)

  /** The identity of a track when a timer fires: "<title> by <artist>". */
  function Identity(title: string, artist: string): string {
    title + " by " + artist
  }

  /** The status record built from a `status` reply and a `currentsong` reply. */
  function PlayingStatusOf(status: Attrs, song: Attrs): (s: PlayingStatus)
    ensures s.track == Identity(s.title, s.artist)
  {
    PlayingStatus(
      Identity(Get(song, "Title"), Get(song, "Artist")),
      Get(song, "Title"), Get(song, "Artist"), Get(song, "Album"),
      Get(status, "duration"), Get(status, "elapsed"), Get(status, "state"))
  }

  /** The identity compares title and artist only: two tracks that differ in
      album alone, or whose title and artist split " by " differently, have
      the same identity. */
  lemma IdentityIsCoarse(album1: string, album2: string)
    ensures Identity("A by B", "C") == Identity("A", "B by C")
    ensures PlayingStatusOf(map[], map["Title" := "T", "Artist" := "R", "Album" := album1]).track
         == PlayingStatusOf(map[], map["Title" := "T", "Artist" := "R", "Album" := album2]).track
  {
    assert "A by B" + " by " + "C" == "A" + " by " + "B by C";
  }

  datatype TrackMetadata = TrackMetadata(trackName: string, artistName: string, releaseName: string)

  /** One listen; `listenedAt` is a Unix time, 0 where the Go code leaves it unset. */
  datatype Payload = Payload(listenedAt: int, trackMetadata: TrackMetadata)

  /** The body of a submit-listens request. */
  datatype Submission = Submission(listenType: string, payloads: seq<Payload>)

  const PlayingNow: string := "playing_now"
  const Single: string := "single"

  /** The listened_at member json.Marshal writes for a payload: under an
      `omitempty` tag a zero value is left out. */
  function ListenedAtMember(p: Payload, omitEmpty: bool): Option<int> {
    if omitEmpty && p.listenedAt == 0 then None else Some(p.listenedAt)
  }
}
