/** main.go's watch loop as a stateful object: the timers, the one-slot
    `currentTimer` channel and the requests sent are fields updated in
    place, each method following the matching transition of WatchLoop. */
module Scrobbling {
  import opened MpdReply
  import opened Records
  import Libra
  import opened WatchLoop

  class Scrobbler {
    /** strconv.ParseFloat with math.Floor, as used by startTimer. */
    const parse: FloorParser
    /** Every timer startTimer has created, oldest first. */
    var timers: seq<Timer>
    /** The buffered channel of capacity 1: the index of the stored timer. */
    var currentTimer: seq<nat>
    /** The request bodies handed to submitRequest, in order. */
    var sent: seq<Submission>
    /** log.Fatalln has ended the process. */
    var halted: bool

    function State(): Loop
      reads this
    {
      Loop(timers, currentTimer, sent, halted)
    }

    predicate Valid()
      reads this
    {
      Inv(State())
    }

    /** The startup block: read the status once and announce it. */
    constructor (parse: FloorParser, status: Reply, song: Reply)
      ensures Valid() && this.parse == parse
      ensures State() == Startup(status, song)
    {
      this.parse := parse;
      timers := [];
      currentTimer := [];
      var r := Libra.GetStatus(status, song);
      if r.Ok? {
        sent := [Libra.FormatJson(r.value, PlayingNow, 0).value];
        halted := false;
      } else {
        sent := [];
        halted := r.error.Fatal?;
      }
    }

    /** One watcher event at clock time `now`, with the replies MPD gives to
        the queries made for it. */
    method OnEvent(subsystem: string, now: int, status: Reply, song: Reply)
      requires Valid() && !halted
      modifies this
      ensures Valid()
      ensures State() == OnSubsystem(old(State()), subsystem, now, status, song, parse)
    {
      if subsystem == "player" {
        if |currentTimer| > 0 {
          var t := currentTimer[0];
          currentTimer := currentTimer[1..];
          timers := timers[t := Stop(timers[t])];
        }
        var r := Libra.GetStatus(status, song);
        if r.Err? {
          halted := r.error.Fatal?;
        } else if r.value.state == "play" {
          var s := r.value;
          sent := sent + [Libra.FormatJson(s, PlayingNow, 0).value];
          var td := Libra.TimerDelay(s, parse);
          if td.Err? {
            halted := true;
          } else {
            currentTimer := currentTimer + [|timers|];
            timers := timers + [Timer(s, td.value, now + td.value, Pending)];
          }
        }
      }
    }

    /** Timer i expires, with the replies MPD gives to its status query. */
    method FireTimer(i: nat, status: Reply, song: Reply)
      requires Valid() && !halted && i < |timers|
      modifies this
      ensures Valid()
      ensures State() == Fire(old(State()), i, status, song)
    {
      var t := timers[i];
      if t.state == Pending {
        timers := timers[i := t.(state := Fired)];
        var r := Libra.GetStatus(status, song);
        if r.Err? {
          halted := true;
        } else if t.armedWith.track == r.value.track {
          sent := sent + [Libra.FormatJson(r.value, Single, t.due).value];
        }
      }
    }

    /** The loop over events, until the process ends or the events run out;
        an expiry of a timer that was never created is ignored. */
    method Run(events: seq<Event>)
      requires Valid()
      modifies this
      ensures Valid()
      ensures State() == Steps(old(State()), events, parse)
    {
      var k := 0;
      while k < |events| && !halted
        invariant 0 <= k <= |events|
        invariant Valid()
        invariant Steps(old(State()), events, parse) == Steps(State(), events[k..], parse)
        decreases |events| - k
      {
        ghost var before := State();
        var e := events[k];
        assert Steps(before, events[k..], parse) == Steps(Step(before, e, parse), events[k + 1..], parse) by {
          assert events[k..][0] == e && events[k..][1..] == events[k + 1..];
        }
        match e {
          case Subsystem(name, now, status, song) =>
            OnEvent(name, now, status, song);
          case TimerFires(i, status, song) =>
            if i < |timers| {
              FireTimer(i, status, song);
            }
        }
        assert State() == Step(before, e, parse);
        k := k + 1;
      }
      assert k == |events| ==> events[k..] == [];
    }
  }

  /** A client of the class: startup and the same "play" event twice send
      three "playing_now"; the expiry of the first timer then sends no listen. */
  method RepeatedPlayThenStaleExpiry(parse: FloorParser, status: Reply, song: Reply, now: int)
    returns (sent: seq<Submission>)
    requires Libra.GetStatus(status, song).Ok? && Libra.GetStatus(status, song).value.state == "play"
    requires parse(Libra.GetStatus(status, song).value.duration).Some?
    ensures sent == [PlayingNowBody(Libra.GetStatus(status, song).value),
                     PlayingNowBody(Libra.GetStatus(status, song).value),
                     PlayingNowBody(Libra.GetStatus(status, song).value)]
  {
    var s := new Scrobbler(parse, status, song);
    s.OnEvent("player", now, status, song);
    s.OnEvent("player", now + 1, status, song);
    s.FireTimer(0, status, song);
    sent := s.sent;
  }
}
