/** What the MPD client library hands back to the scrobbler, and the errors
    the scrobbler creates, forwards or dies of. */
module MpdReply {

  datatype Option<+T> = None | Some(value: T)

  /** The Go errors of the core, by origin. */
  datatype Error =
    | QueryFailed(msg: string)            // an error returned by an MPD query (Status, CurrentSong)
    | NotPlaying                          // "MPD is not playing anything"
    | ParseFailed(input: string)          // strconv.ParseFloat rejected this text
    | UnrecognizedListenType              // "Unrecognized listen type."
    | Fatal(where: string, cause: Error)  // log.Fatalln: the process ends here

  datatype Result<+T> = Ok(value: T) | Err(error: Error)

  /** An attribute map as MPD returns it (mpd.Attrs). */
  type Attrs = map<string, string>

  /** The outcome of one MPD query: its attributes, or the client's error. */
  type Reply = Result<Attrs>

  /** Go's map index: a missing key reads as the empty string. */
  function Get(a: Attrs, key: string): string {
    if key in a then a[key] else ""
  }

  /** Reading a key of a query's reply; a failed query leaves a nil map,
      which reads as "" for every key. */
  function Field(r: Reply, key: string): string {
    if r.Ok? then Get(r.value, key) else ""
  }

  /** strconv.ParseFloat followed by math.Floor, for the non-negative numbers
      MPD reports: the whole seconds the text denotes, or None when it does
      not parse. */
  type FloorParser = string -> Option<nat>
}
