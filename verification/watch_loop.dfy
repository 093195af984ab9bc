/** main.go's event loop (the startup block and the `for range w.Event`
    loop) and the timers startTimer arms. Timer expiry is an explicit event
    here; a stopped timer never fires. The state of the loop is given as a
    value (Loop) with one function per event; class Scrobbler runs the loop
    on that state in place. */
module WatchLoop {
  import opened MpdReply
  import opened Records
  import Deadline
  import Libra

  datatype TimerState = Pending | Stopped | Fired

  /** A timer created by startTimer: the status it was armed with, its delay
      in seconds, the clock time it is due, and whether it is still pending. */
  datatype Timer = Timer(armedWith: PlayingStatus, delay: nat, due: int, state: TimerState)

  /** time.Timer.Stop: a pending timer will not fire; a fired or stopped one is unaffected. */
  function Stop(t: Timer): Timer {
    if t.state == Pending then t.(state := Stopped) else t
  }

  /** The state of the loop: every timer created so far (oldest first), the
      one-slot `currentTimer` channel holding indices into `timers`, the
      request bodies sent so far, and whether log.Fatalln ended the process. */
  datatype Loop = Loop(timers: seq<Timer>, currentTimer: seq<nat>, sent: seq<Submission>, halted: bool)

  /** The channel holds at most one timer, and a timer that can still fire
      is the one in the channel. */
  predicate Inv(st: Loop) {
    && |st.currentTimer| <= 1
    && (forall k :: 0 <= k < |st.currentTimer| ==> st.currentTimer[k] < |st.timers|)
    && (forall i :: 0 <= i < |st.timers| && st.timers[i].state == Pending ==> st.currentTimer == [i])
  }

  /** Under the invariant at most one timer is pending. */
  lemma AtMostOnePending(st: Loop, i: nat, j: nat)
    requires Inv(st)
    requires i < |st.timers| && j < |st.timers|
    requires st.timers[i].state == Pending && st.timers[j].state == Pending
    ensures i == j
  {
    assert st.currentTimer == [i] && st.currentTimer == [j];
  }

  /** The "playing_now" body main.go sends for a status. */
  function PlayingNowBody(s: PlayingStatus): Submission {
    Libra.FormatJson(s, PlayingNow, 0).value
  }

  /** The "single" body main.go sends for a status at clock time `now`. */
  function ListenBody(s: PlayingStatus, now: int): Submission {
    Libra.FormatJson(s, Single, now).value
  }

  /** The startup block: one "playing_now" for whatever is loaded, playing
      or paused; no timer is armed. */
  function Startup(status: Reply, song: Reply): (st: Loop)
    ensures Inv(st) && st.timers == [] && st.currentTimer == []
    ensures Libra.GetStatus(status, song).Ok? ==>
      st.sent == [PlayingNowBody(Libra.GetStatus(status, song).value)] && !st.halted
    ensures Libra.GetStatus(status, song).Err? ==>
      st.sent == [] && (st.halted <==> Libra.GetStatus(status, song).error.Fatal?)
  {
    match Libra.GetStatus(status, song)
    case Ok(s) => Loop([], [], [PlayingNowBody(s)], false)
    case Err(e) => Loop([], [], [], e.Fatal?)
  }

  /** Take the timer out of the channel, if any, and stop it. */
  function Drain(st: Loop): (r: Loop)
    requires Inv(st)
    ensures r.currentTimer == [] && r.sent == st.sent && r.halted == st.halted
    ensures |r.timers| == |st.timers|
    ensures forall i :: 0 <= i < |st.timers| ==> r.timers[i] == Stop(st.timers[i])
  {
    if |st.currentTimer| > 0 then
      var t := st.currentTimer[0];
      st.(timers := st.timers[t := Stop(st.timers[t])], currentTimer := st.currentTimer[1..])
    else
      st
  }

  /** A "player" event: stop the stored timer, read the status, and when
      the player is playing send "playing_now" and arm a new timer. */
  function OnPlayer(st: Loop, now: int, status: Reply, song: Reply, parse: FloorParser): (r: Loop)
    requires Inv(st)
    ensures Inv(r)
  {
    if st.halted then st
    else
      var d := Drain(st);
      match Libra.GetStatus(status, song)
      case Err(e) => d.(halted := e.Fatal?)
      case Ok(s) =>
        if s.state != "play" then d
        else
          var withNow := d.(sent := d.sent + [PlayingNowBody(s)]);
          match Libra.TimerDelay(s, parse)
          case Err(_) => withNow.(halted := true)
          case Ok(td) =>
            withNow.(timers := d.timers + [Timer(s, td, now + td, Pending)],
                     currentTimer := d.currentTimer + [|d.timers|])
  }

  /** One event of the watcher: only "player" events are handled. Any other
      event is ignored, and the event after it is read as usual. */
  function OnSubsystem(st: Loop, subsystem: string, now: int, status: Reply, song: Reply, parse: FloorParser): (r: Loop)
    requires Inv(st)
    ensures Inv(r)
    ensures subsystem != "player" ==> r == st
  {
    if subsystem == "player" then OnPlayer(st, now, status, song, parse) else st
  }

  /** Timer i expires: if it is still pending, read the status again and
      send a "single" listen, stamped with the due time, only if the
      identity is the one the timer was armed for. A status error is fatal. */
  function Fire(st: Loop, i: nat, status: Reply, song: Reply): (r: Loop)
    requires Inv(st) && i < |st.timers|
    ensures Inv(r)
  {
    var t := st.timers[i];
    if st.halted || t.state != Pending then st
    else
      var fired := st.(timers := st.timers[i := t.(state := Fired)]);
      match Libra.GetStatus(status, song)
      case Err(_) => fired.(halted := true)
      case Ok(cs) =>
        if t.armedWith.track == cs.track then fired.(sent := fired.sent + [ListenBody(cs, t.due)])
        else fired
  }

  /** The events the loop sees, in order: watcher events, and timer expiries. */
  datatype Event =
    | Subsystem(name: string, now: int, status: Reply, song: Reply)
    | TimerFires(timer: nat, status: Reply, song: Reply)

  function Step(st: Loop, e: Event, parse: FloorParser): (r: Loop)
    requires Inv(st)
    ensures Inv(r)
  {
    match e
    case Subsystem(name, now, status, song) => OnSubsystem(st, name, now, status, song, parse)
    case TimerFires(i, status, song) => if i < |st.timers| then Fire(st, i, status, song) else st
  }

  /** The state after a sequence of events; nothing happens once the process has ended. */
  function Steps(st: Loop, events: seq<Event>, parse: FloorParser): (r: Loop)
    requires Inv(st)
    ensures Inv(r)
    decreases |events|
  {
    if events == [] || st.halted then st
    else Steps(Step(st, events[0], parse), events[1..], parse)
  }

  // ---------------------------------------------------------------------
  // What a "player" event does

  /** Every "player" event stops the stored timer first, whatever the new
      state turns out to be: afterwards no timer created before it can fire. */
  lemma PlayerEventCancels(st: Loop, now: int, status: Reply, song: Reply, parse: FloorParser)
    requires Inv(st) && !st.halted
    ensures var r := OnPlayer(st, now, status, song, parse);
      && |r.timers| >= |st.timers|
      && forall i :: 0 <= i < |st.timers| ==> r.timers[i] == Stop(st.timers[i]) && r.timers[i].state != Pending
  {
  }

  /** A timer is armed, after a "playing_now" for the same status, exactly
      when the status reads with state "play" and its duration parses; its
      delay is the ListenBrainz deadline. */
  lemma PlayArmsOneTimer(st: Loop, now: int, status: Reply, song: Reply, parse: FloorParser)
    requires Inv(st) && !st.halted
    ensures var r := OnPlayer(st, now, status, song, parse);
      var g := Libra.GetStatus(status, song);
      && (|r.timers| > |st.timers| <==>
           g.Ok? && g.value.state == "play" && parse(g.value.duration).Some?)
      && (|r.timers| > |st.timers| ==>
           var s := g.value;
           var td := Deadline.SubmissionDelay(parse(s.duration).value);
           && r.timers == Drain(st).timers + [Timer(s, td, now + td, Pending)]
           && r.currentTimer == [|st.timers|]
           && r.sent == st.sent + [PlayingNowBody(s)]
           && !r.halted)
  {
  }

  /** A pause, a stop, or a status that does not read leaves no timer armed
      and sends nothing. The loop goes on, "not playing" included; only a
      failed Status or CurrentSong query ends the process. */
  lemma NotPlayingLeavesNoTimer(st: Loop, now: int, status: Reply, song: Reply, parse: FloorParser)
    requires Inv(st) && !st.halted
    requires Libra.GetStatus(status, song).Err? || Libra.GetStatus(status, song).value.state != "play"
    ensures var r := OnPlayer(st, now, status, song, parse);
      && r.currentTimer == [] && r.sent == st.sent
      && forall i :: 0 <= i < |r.timers| ==> r.timers[i].state != Pending
    ensures var r := OnPlayer(st, now, status, song, parse);
      var g := Libra.GetStatus(status, song);
      r.halted <==> g.Err? && g.error.Fatal?
    ensures |OnPlayer(st, now, status, song, parse).timers| == |st.timers|
  {
  }

  /** "playing_now" goes out before the timer is armed: when the duration
      does not parse, it has been sent and then the process ends. */
  lemma PlayingNowBeforeTimer(st: Loop, now: int, status: Reply, song: Reply, parse: FloorParser)
    requires Inv(st) && !st.halted
    requires Libra.GetStatus(status, song).Ok? && Libra.GetStatus(status, song).value.state == "play"
    requires parse(Libra.GetStatus(status, song).value.duration).None?
    ensures var r := OnPlayer(st, now, status, song, parse);
      r.sent == st.sent + [PlayingNowBody(Libra.GetStatus(status, song).value)] &&
      r.halted && r.currentTimer == [] && |r.timers| == |st.timers|
  {
  }

  /** There is no de-duplication: the same "play" event twice sends
      "playing_now" twice, stops the first new timer and arms a second. */
  lemma RepeatedPlayIsNotDeduplicated(st: Loop, now1: int, now2: int, status: Reply, song: Reply, parse: FloorParser)
    requires Inv(st) && !st.halted
    requires Libra.GetStatus(status, song).Ok? && Libra.GetStatus(status, song).value.state == "play"
    requires parse(Libra.GetStatus(status, song).value.duration).Some?
    ensures var s := Libra.GetStatus(status, song).value;
      var r1 := OnPlayer(st, now1, status, song, parse);
      var r2 := OnPlayer(r1, now2, status, song, parse);
      && r2.sent == st.sent + [PlayingNowBody(s), PlayingNowBody(s)]
      && |r2.timers| == |st.timers| + 2
      && r2.timers[|st.timers|].state == Stopped
      && r2.timers[|st.timers| + 1].state == Pending
      && r2.currentTimer == [|st.timers| + 1]
  {
    var r1 := OnPlayer(st, now1, status, song, parse);
    PlayArmsOneTimer(st, now1, status, song, parse);
    PlayArmsOneTimer(r1, now2, status, song, parse);
    PlayerEventCancels(r1, now2, status, song, parse);
  }

  // ---------------------------------------------------------------------
  // What a timer expiry does

  /** A stopped or already fired timer never fires: its expiry changes nothing. */
  lemma StoppedTimerNeverFires(st: Loop, i: nat, status: Reply, song: Reply)
    requires Inv(st) && i < |st.timers| && st.timers[i].state != Pending
    ensures Fire(st, i, status, song) == st
  {
  }

  /** A timer fires at most once: expiring it again changes nothing. */
  lemma FireIsIdempotent(st: Loop, i: nat, status: Reply, song: Reply, status2: Reply, song2: Reply)
    requires Inv(st) && i < |st.timers|
    ensures var r := Fire(st, i, status, song);
      i < |r.timers| && Fire(r, i, status2, song2) == r
  {
  }

  /** A listen is sent only by a pending timer whose identity (title and
      artist, not album) matches the status read at expiry, and its body is
      built from that fire-time status and stamped with the due time. */
  lemma ListenOnlyForSameIdentity(st: Loop, i: nat, status: Reply, song: Reply)
    requires Inv(st) && i < |st.timers| && !st.halted
    ensures var r := Fire(st, i, status, song);
      var g := Libra.GetStatus(status, song);
      var t := st.timers[i];
      && (r.sent != st.sent <==> t.state == Pending && g.Ok? && g.value.track == t.armedWith.track)
      && (r.sent != st.sent ==> r.sent == st.sent + [ListenBody(g.value, t.due)])
  {
  }

  /** The expiry of a pending timer marks it fired, leaves the channel as it
      is, and ends the process exactly when the status read fails. */
  lemma FireMarksFired(st: Loop, i: nat, status: Reply, song: Reply)
    requires Inv(st) && i < |st.timers| && !st.halted && st.timers[i].state == Pending
    ensures var r := Fire(st, i, status, song);
      && r.timers == st.timers[i := st.timers[i].(state := Fired)]
      && r.currentTimer == st.currentTimer
      && (r.halted <==> Libra.GetStatus(status, song).Err?)
  {
  }

  /** After a later "player" event, whatever it reports, the expiry of an
      earlier timer sends nothing: a superseded track never gets a listen. */
  lemma SupersededTimerSendsNothing(st: Loop, i: nat, now: int, status: Reply, song: Reply,
                                    parse: FloorParser, fireStatus: Reply, fireSong: Reply)
    requires Inv(st) && !st.halted && i < |st.timers|
    ensures var r := OnPlayer(st, now, status, song, parse);
      i < |r.timers| && Fire(r, i, fireStatus, fireSong) == r
  {
    PlayerEventCancels(st, now, status, song, parse);
  }

  /** A timer that is stopped or has fired stays exactly as it is, whatever
      event comes next: nothing in the loop ever makes it pending again. */
  lemma StepKeepsNonPending(st: Loop, e: Event, parse: FloorParser, i: nat)
    requires Inv(st) && i < |st.timers| && st.timers[i].state != Pending
    ensures i < |Step(st, e, parse).timers| && Step(st, e, parse).timers[i] == st.timers[i]
  {
  }

  /** The same over any run of events. */
  lemma {:induction false} StepsKeepNonPending(st: Loop, events: seq<Event>, parse: FloorParser, i: nat)
    requires Inv(st) && i < |st.timers| && st.timers[i].state != Pending
    ensures i < |Steps(st, events, parse).timers| && Steps(st, events, parse).timers[i] == st.timers[i]
    decreases |events|
  {
    if events != [] && !st.halted {
      StepKeepsNonPending(st, events[0], parse, i);
      StepsKeepNonPending(Step(st, events[0], parse), events[1..], parse, i);
    }
  }

  /** Once a later "player" event has arrived, an earlier timer never sends
      a listen, however many events follow before it expires. */
  lemma SupersededTimerNeverSends(st: Loop, i: nat, now: int, status: Reply, song: Reply,
                                  parse: FloorParser, events: seq<Event>, fireStatus: Reply, fireSong: Reply)
    requires Inv(st) && !st.halted && i < |st.timers|
    ensures var r := Steps(OnPlayer(st, now, status, song, parse), events, parse);
      i < |r.timers| && Fire(r, i, fireStatus, fireSong) == r
  {
    var r0 := OnPlayer(st, now, status, song, parse);
    PlayerEventCancels(st, now, status, song, parse);
    StepsKeepNonPending(r0, events, parse, i);
    var r := Steps(r0, events, parse);
    StoppedTimerNeverFires(r, i, fireStatus, fireSong);
  }

  /** A timer fires at most once over a whole run: after its expiry, any
      later expiry of it, after any events, changes nothing. */
  lemma TimerFiresAtMostOnce(st: Loop, i: nat, status: Reply, song: Reply, parse: FloorParser,
                             events: seq<Event>, status2: Reply, song2: Reply)
    requires Inv(st) && i < |st.timers| && !st.halted
    ensures var r := Steps(Fire(st, i, status, song), events, parse);
      i < |r.timers| && Fire(r, i, status2, song2) == r
  {
    var r0 := Fire(st, i, status, song);
    assert r0.timers[i].state != Pending;
    StepsKeepNonPending(r0, events, parse, i);
    var r := Steps(r0, events, parse);
    StoppedTimerNeverFires(r, i, status2, song2);
  }

  /** Ending the process through a fatal status read at expiry: any error
      from getStatus, "not playing" included, is fatal there. */
  lemma FireStatusErrorIsFatal(st: Loop, i: nat, status: Reply, song: Reply)
    requires Inv(st) && i < |st.timers| && !st.halted && st.timers[i].state == Pending
    requires Libra.GetStatus(status, song).Err?
    ensures Fire(st, i, status, song).halted && Fire(st, i, status, song).sent == st.sent
  {
  }

  // ---------------------------------------------------------------------
  // At most one listen per timer, over any run

  function ListenCount(sent: seq<Submission>): nat {
    if sent == [] then 0
    else ListenCount(sent[..|sent| - 1]) + (if sent[|sent| - 1].listenType == Single then 1 else 0)
  }

  function FiredCount(timers: seq<Timer>): nat {
    if timers == [] then 0
    else FiredCount(timers[..|timers| - 1]) + (if timers[|timers| - 1].state == Fired then 1 else 0)
  }

  /** Every listen sent so far is paid for by a distinct fired timer. */
  predicate Accounted(st: Loop) {
    ListenCount(st.sent) <= FiredCount(st.timers)
  }

  lemma ListenCountAppend(sent: seq<Submission>, p: Submission)
    ensures ListenCount(sent + [p]) == ListenCount(sent) + (if p.listenType == Single then 1 else 0)
  {
    assert (sent + [p])[..|sent|] == sent;
  }

  lemma FiredCountAppend(timers: seq<Timer>, t: Timer)
    ensures FiredCount(timers + [t]) == FiredCount(timers) + (if t.state == Fired then 1 else 0)
  {
    assert (timers + [t])[..|timers|] == timers;
  }

  /** Replacing one timer changes the count by the difference at that place. */
  lemma {:induction false} FiredCountUpdate(timers: seq<Timer>, i: nat, t: Timer)
    requires i < |timers|
    ensures FiredCount(timers[i := t]) + (if timers[i].state == Fired then 1 else 0)
         == FiredCount(timers) + (if t.state == Fired then 1 else 0)
    decreases |timers|
  {
    var n := |timers| - 1;
    if i == n {
      assert timers[i := t][..n] == timers[..n];
    } else {
      assert timers[i := t][..n] == timers[..n][i := t];
      FiredCountUpdate(timers[..n], i, t);
    }
  }

  /** Stopping the stored timer does not change how many timers fired. */
  lemma DrainKeepsFiredCount(st: Loop)
    requires Inv(st)
    ensures FiredCount(Drain(st).timers) == FiredCount(st.timers)
  {
    if |st.currentTimer| > 0 {
      var t := st.currentTimer[0];
      FiredCountUpdate(st.timers, t, Stop(st.timers[t]));
    }
  }

  lemma {:induction false} StepKeepsAccounted(st: Loop, e: Event, parse: FloorParser)
    requires Inv(st) && Accounted(st)
    ensures Accounted(Step(st, e, parse))
  {
    match e
    case Subsystem(name, now, status, song) =>
      if name == "player" && !st.halted {
        var d := Drain(st);
        DrainKeepsFiredCount(st);
        match Libra.GetStatus(status, song)
        case Err(_) =>
        case Ok(s) =>
          if s.state == "play" {
            ListenCountAppend(d.sent, PlayingNowBody(s));
            match Libra.TimerDelay(s, parse)
            case Err(_) =>
            case Ok(td) => FiredCountAppend(d.timers, Timer(s, td, now + td, Pending));
          }
      }
    case TimerFires(i, status, song) =>
      if i < |st.timers| && !st.halted && st.timers[i].state == Pending {
        var t := st.timers[i];
        FiredCountUpdate(st.timers, i, t.(state := Fired));
        match Libra.GetStatus(status, song)
        case Err(_) =>
        case Ok(cs) => ListenCountAppend(st.sent, ListenBody(cs, t.due));
      }
  }

  lemma {:induction false} StepsKeepAccounted(st: Loop, events: seq<Event>, parse: FloorParser)
    requires Inv(st) && Accounted(st)
    ensures Accounted(Steps(st, events, parse))
    decreases |events|
  {
    if events != [] && !st.halted {
      StepKeepsAccounted(st, events[0], parse);
      StepsKeepAccounted(Step(st, events[0], parse), events[1..], parse);
    }
  }

  /** Over any run from startup, the number of "single" listens sent never
      exceeds the number of timers that fired, and no timer fires twice
      (FireIsIdempotent): at most one listen per armed timer. */
  lemma AtMostOneListenPerTimer(status: Reply, song: Reply, events: seq<Event>, parse: FloorParser)
    ensures var st := Steps(Startup(status, song), events, parse);
      ListenCount(st.sent) <= FiredCount(st.timers)
  {
    var st0 := Startup(status, song);
    if Libra.GetStatus(status, song).Ok? {
      ListenCountAppend([], PlayingNowBody(Libra.GetStatus(status, song).value));
    }
    StepsKeepAccounted(st0, events, parse);
  }

  // ---------------------------------------------------------------------
  // Scenarios

  /** The first "play" event of ScenarioTrackChangeCancelsListen: A (500 s)
      at t=1000 sends "playing_now" and arms a 240 s timer due at 1240. */
  lemma TrackAStarts(parse: FloorParser)
    requires parse("500") == Some(500)
    ensures var sA := PlayingStatus("A by X", "A", "X", "", "500", "", "play");
      Step(Loop([], [], [], false),
           Subsystem("player", 1000, Ok(map["state" := "play", "duration" := "500"]),
                     Ok(map["Title" := "A", "Artist" := "X"])), parse)
      == Loop([Timer(sA, 240, 1240, Pending)], [0], [PlayingNowBody(sA)], false)
  {
    var statusA: Reply := Ok(map["state" := "play", "duration" := "500"]);
    var songA: Reply := Ok(map["Title" := "A", "Artist" := "X"]);
    assert Identity("A", "X") == "A by X";
    assert Get(songA.value, "Album") == "" && Get(statusA.value, "elapsed") == "";
  }

  /** The second "play" event: B (300 s) at t=1200 stops A's timer, sends
      "playing_now" for B and arms a 150 s timer due at 1350. */
  lemma TrackBReplacesA(parse: FloorParser)
    requires parse("300") == Some(300)
    ensures var sA := PlayingStatus("A by X", "A", "X", "", "500", "", "play");
      var sB := PlayingStatus("B by X", "B", "X", "", "300", "", "play");
      Step(Loop([Timer(sA, 240, 1240, Pending)], [0], [PlayingNowBody(sA)], false),
           Subsystem("player", 1200, Ok(map["state" := "play", "duration" := "300"]),
                     Ok(map["Title" := "B", "Artist" := "X"])), parse)
      == Loop([Timer(sA, 240, 1240, Stopped), Timer(sB, 150, 1350, Pending)], [1],
              [PlayingNowBody(sA), PlayingNowBody(sB)], false)
  {
    var statusB: Reply := Ok(map["state" := "play", "duration" := "300"]);
    var songB: Reply := Ok(map["Title" := "B", "Artist" := "X"]);
    var sA := PlayingStatus("A by X", "A", "X", "", "500", "", "play");
    assert Identity("B", "X") == "B by X";
    assert Get(songB.value, "Album") == "" && Get(statusB.value, "elapsed") == "";
    assert Drain(Loop([Timer(sA, 240, 1240, Pending)], [0], [PlayingNowBody(sA)], false)).timers
        == [Timer(sA, 240, 1240, Stopped)];
  }

  /** Track A (500 s) starts at t=1000: "playing_now" for A and a timer due
      at 1240. Track B (300 s) starts at 1200: "playing_now" for B, A's
      timer is stopped, its expiry sends nothing, and B's timer is due at 1350. */
  lemma ScenarioTrackChangeCancelsListen(parse: FloorParser)
    requires parse("500") == Some(500) && parse("300") == Some(300)
    ensures var a := Subsystem("player", 1000, Ok(map["state" := "play", "duration" := "500"]),
                                Ok(map["Title" := "A", "Artist" := "X"]));
      var b := Subsystem("player", 1200, Ok(map["state" := "play", "duration" := "300"]),
                          Ok(map["Title" := "B", "Artist" := "X"]));
      var fireA := TimerFires(0, Ok(map["state" := "play", "duration" := "300"]),
                              Ok(map["Title" := "B", "Artist" := "X"]));
      var st := Steps(Loop([], [], [], false), [a, b, fireA], parse);
      && |st.sent| == 2 && |st.timers| == 2
      && st.sent[0] == Submission(PlayingNow, [Payload(0, TrackMetadata("A", "X", ""))])
      && st.sent[1] == Submission(PlayingNow, [Payload(0, TrackMetadata("B", "X", ""))])
      && st.timers[0].delay == 240 && st.timers[0].due == 1240 && st.timers[0].state == Stopped
      && st.timers[1].delay == 150 && st.timers[1].due == 1350 && st.timers[1].state == Pending
      && st.currentTimer == [1] && !st.halted
  {
    var statusB: Reply := Ok(map["state" := "play", "duration" := "300"]);
    var songB: Reply := Ok(map["Title" := "B", "Artist" := "X"]);
    var a := Subsystem("player", 1000, Ok(map["state" := "play", "duration" := "500"]),
                       Ok(map["Title" := "A", "Artist" := "X"]));
    var b := Subsystem("player", 1200, statusB, songB);
    var fireA := TimerFires(0, statusB, songB);
    var sA := PlayingStatus("A by X", "A", "X", "", "500", "", "play");
    var sB := PlayingStatus("B by X", "B", "X", "", "300", "", "play");
    var st0 := Loop([], [], [], false);
    var st1 := Loop([Timer(sA, 240, 1240, Pending)], [0], [PlayingNowBody(sA)], false);
    var st2 := Loop([Timer(sA, 240, 1240, Stopped), Timer(sB, 150, 1350, Pending)], [1],
                    [PlayingNowBody(sA), PlayingNowBody(sB)], false);
    TrackAStarts(parse);
    TrackBReplacesA(parse);
    assert Step(st2, fireA, parse) == st2;
    calc {
      Steps(st0, [a, b, fireA], parse);
      { assert [a, b, fireA][1..] == [b, fireA]; }
      Steps(st1, [b, fireA], parse);
      { assert [b, fireA][1..] == [fireA]; }
      Steps(st2, [fireA], parse);
      { assert [fireA][1..] == []; }
      st2;
    }
  }

  /** Track A (100 s) starts at t=1000 and is still playing when its timer
      expires: exactly one "single" listen, stamped 1050. */
  lemma ScenarioUninterruptedPlay(parse: FloorParser)
    requires parse("100") == Some(100)
    ensures var status := Ok(map["state" := "play", "duration" := "100"]);
      var song := Ok(map["Title" := "A", "Artist" := "X", "Album" := "L"]);
      var st := Steps(Loop([], [], [], false),
                      [Subsystem("player", 1000, status, song), TimerFires(0, status, song)], parse);
      && st.sent == [Submission(PlayingNow, [Payload(0, TrackMetadata("A", "X", "L"))]),
                     Submission(Single, [Payload(1050, TrackMetadata("A", "X", "L"))])]
      && |st.timers| == 1 && st.timers[0].state == Fired && !st.halted
  {
    var status: Reply := Ok(map["state" := "play", "duration" := "100"]);
    var song: Reply := Ok(map["Title" := "A", "Artist" := "X", "Album" := "L"]);
    var e1 := Subsystem("player", 1000, status, song);
    var e2 := TimerFires(0, status, song);
    var s := PlayingStatus("A by X", "A", "X", "L", "100", "", "play");
    assert Identity("A", "X") == "A by X";
    assert Get(status.value, "elapsed") == "";
    assert Libra.GetStatus(status, song) == Ok(s);
    var st0 := Loop([], [], [], false);
    var st1 := Loop([Timer(s, 50, 1050, Pending)], [0], [PlayingNowBody(s)], false);
    var st2 := Loop([Timer(s, 50, 1050, Fired)], [0], [PlayingNowBody(s), ListenBody(s, 1050)], false);
    assert Step(st0, e1, parse) == st1;
    assert Step(st1, e2, parse) == st2;
    calc {
      Steps(st0, [e1, e2], parse);
      { assert [e1, e2][1..] == [e2]; }
      Steps(st1, [e2], parse);
      { assert [e2][1..] == []; }
      st2;
    }
  }

  /** Track A starts, then the player stops before the deadline: the timer
      is stopped, no listen is sent, and no timer is left armed. */
  lemma ScenarioStopBeforeDeadline(parse: FloorParser)
    requires parse("100") == Some(100)
    ensures var song := Ok(map["Title" := "A", "Artist" := "X"]);
      var st := Steps(Loop([], [], [], false),
                      [Subsystem("player", 1000, Ok(map["state" := "play", "duration" := "100"]), song),
                       Subsystem("player", 1020, Ok(map["state" := "stop"]), song),
                       TimerFires(0, Ok(map["state" := "stop"]), song)], parse);
      && st.sent == [Submission(PlayingNow, [Payload(0, TrackMetadata("A", "X", ""))])]
      && st.currentTimer == [] && |st.timers| == 1 && st.timers[0].state == Stopped && !st.halted
  {
    var song: Reply := Ok(map["Title" := "A", "Artist" := "X"]);
    var play: Reply := Ok(map["state" := "play", "duration" := "100"]);
    var stop: Reply := Ok(map["state" := "stop"]);
    var e1 := Subsystem("player", 1000, play, song);
    var e2 := Subsystem("player", 1020, stop, song);
    var e3 := TimerFires(0, stop, song);
    var s := PlayingStatus("A by X", "A", "X", "", "100", "", "play");
    assert Identity("A", "X") == "A by X";
    assert Get(song.value, "Album") == "" && Get(play.value, "elapsed") == "";
    assert Libra.GetStatus(play, song) == Ok(s);
    assert Libra.GetStatus(stop, song) == Err(NotPlaying);
    var st0 := Loop([], [], [], false);
    var st1 := Loop([Timer(s, 50, 1050, Pending)], [0], [PlayingNowBody(s)], false);
    var st2 := Loop([Timer(s, 50, 1050, Stopped)], [], [PlayingNowBody(s)], false);
    assert Step(st0, e1, parse) == st1;
    assert Step(st1, e2, parse) == st2;
    assert Step(st2, e3, parse) == st2;
    calc {
      Steps(st0, [e1, e2, e3], parse);
      { assert [e1, e2, e3][1..] == [e2, e3]; }
      Steps(st1, [e2, e3], parse);
      { assert [e2, e3][1..] == [e3]; }
      Steps(st2, [e3], parse);
      { assert [e3][1..] == []; }
      st2;
    }
  }
}
