/** The transport under the engine (MpMsgTransport): one message at a time, a bounded number
    of attempts, one report. */
module Transport {
  import opened Base
  import opened Payload

  /** The outcome of a SIP transfer; every status but MP_MESSAGE_SENT is a failure. */
  datatype Status = Sent | NotSent

  datatype Xfer = Xfer(msg: Msg, counter: int)

  /** What one completion leads to. A report carries the message with its retry field zeroed. */
  datatype Outcome = Ignored | Resent | Reported(msg: Msg, status: Status)

  predicate Busy(x: Xfer) { x.msg.retries != 0 }

  /** sendMessage overwrites the current message; it sends only when there are retries. */
  function Accept(m: Msg): Xfer { Xfer(m, m.retries) }

  /** The packets that accepting a message puts on the wire at once. */
  function SentOnAccept(m: Msg): seq<(Serial, seq<byte>)> {
    if m.retries > 0 then [(m.serial, m.payload)] else []
  }

  function Done(x: Xfer, status: Status): (Xfer, Outcome) {
    if x.msg.retries == 0 then (x, Ignored)
    else
      var y := x.(counter := x.counter - 1);
      if status != Sent && y.counter > 0 then (y, Resent)
      else
        var m := x.msg.(retries := 0);
        (y.(msg := m), Reported(m, status))
  }

  /** removeMessageForSerial: the completion to come will be ignored. */
  function Forget(x: Xfer, serial: Serial): Xfer {
    if x.msg.serial == serial then x.(msg := x.msg.(retries := 0)) else x
  }

  // Runs of completions --------------------------------------------------------------------

  /** How many completions a message with `r` retries consumes: up to the first success, at most `r`. */
  function Needed(statuses: seq<Status>, r: nat): (n: nat)
    ensures n <= r
  {
    if r == 0 then 0
    else if statuses == [] || statuses[0] == Sent then 1
    else 1 + Needed(statuses[1..], r - 1)
  }

  datatype Trace = Trace(final: Xfer, resends: nat, reports: seq<Status>)

  function Feed(x: Xfer, statuses: seq<Status>): Trace
    decreases |statuses|
  {
    if statuses == [] then Trace(x, 0, [])
    else
      var (y, o) := Done(x, statuses[0]);
      var t := Feed(y, statuses[1..]);
      match o
      case Ignored => t
      case Resent => t.(resends := t.resends + 1)
      case Reported(_, st) => t.(reports := [st] + t.reports)
  }

  lemma {:induction false} IdleIgnores(x: Xfer, statuses: seq<Status>)
    requires !Busy(x)
    ensures Feed(x, statuses) == Trace(x, 0, [])
  {
    if statuses != [] { IdleIgnores(x, statuses[1..]); }
  }

  lemma {:induction false} FeedFrom(x: Xfer, statuses: seq<Status>)
    requires Busy(x) && 0 < x.counter
    ensures var n := Needed(statuses, x.counter);
            var t := Feed(x, statuses);
            && 1 <= n <= x.counter
            && (n <= |statuses| ==>
                  && t.resends == n - 1 && t.reports == [statuses[n - 1]] && !Busy(t.final)
                  && (statuses[n - 1] == NotSent ==> n == x.counter)
                  && forall i :: 0 <= i < n - 1 ==> statuses[i] == NotSent)
            && (|statuses| < n ==> t.resends == |statuses| && t.reports == [] && Busy(t.final))
    decreases |statuses|
  {
    if statuses != [] {
      var (y, o) := Done(x, statuses[0]);
      if o == Resent {
        FeedFrom(y, statuses[1..]);
        var n := Needed(statuses, x.counter);
        assert n <= |statuses| ==> statuses[n - 1] == statuses[1..][n - 2];
        forall i | 0 <= i < n - 1 && n <= |statuses| ensures statuses[i] == NotSent {
          if i > 0 { assert statuses[i] == statuses[1..][i - 1]; }
        }
      } else {
        IdleIgnores(y, statuses[1..]);
      }
    }
  }

  /** A message accepted with r > 0 retries is sent between 1 and r times and reported exactly once,
      as Sent exactly when the last send was acknowledged; completions after that change nothing. */
  lemma BoundedAttempts(m: Msg, statuses: seq<Status>)
    requires m.retries > 0
    ensures var n := Needed(statuses, m.retries);
            var t := Feed(Accept(m), statuses);
            && 1 <= n <= m.retries
            && (n <= |statuses| ==>
                  && 1 + t.resends == n
                  && t.reports == [statuses[n - 1]]
                  && (statuses[n - 1] == NotSent ==> n == m.retries)
                  && (forall i :: 0 <= i < n - 1 ==> statuses[i] == NotSent)
                  && t == Feed(Accept(m), statuses[..n]))
            && (|statuses| < n ==> 1 + t.resends == 1 + |statuses| && t.reports == [])
  {
    var n := Needed(statuses, m.retries);
    FeedFrom(Accept(m), statuses);
    if n <= |statuses| {
      FeedPrefix(Accept(m), statuses);
    }
  }

  lemma {:induction false} FeedPrefix(x: Xfer, statuses: seq<Status>)
    requires Busy(x) && 0 < x.counter && Needed(statuses, x.counter) <= |statuses|
    ensures Feed(x, statuses) == Feed(x, statuses[..Needed(statuses, x.counter)])
    decreases |statuses|
  {
    var n := Needed(statuses, x.counter);
    FeedFrom(x, statuses);
    var (y, o) := Done(x, statuses[0]);
    assert statuses[..n][0] == statuses[0];
    assert statuses[..n][1..] == statuses[1..][..n - 1];
    if o == Resent {
      FeedPrefix(y, statuses[1..]);
    } else {
      IdleIgnores(y, statuses[1..]);
      IdleIgnores(y, statuses[1..][..n - 1]);
    }
  }

  // The class -----------------------------------------------------------------------------------

  /** `wire` stands for the SIP stack: the packets given to it, in order. The callback object is
      replaced by the outcome that `OnSendMsgDone` returns. */
  class MsgTransport {
    var msg: Msg
    var counter: int
    var wire: seq<(Serial, seq<byte>)>

    function Value(): Xfer
      reads this
    {
      Xfer(msg, counter)
    }

    constructor ()
      ensures !Busy(Value()) && wire == []
    {
      msg, counter, wire := MakeMsg("null", [], 0, 0, Message, false), 0, [];
    }

    method SendMessage(m: Msg)
      modifies this
      ensures Value() == Accept(m)
      ensures wire == old(wire) + SentOnAccept(m)
    {
      msg := m;
      counter := msg.retries;
      if counter <= 0 { return; }
      wire := wire + [(msg.serial, msg.payload)];
    }

    method OnSendMsgDone(status: Status) returns (outcome: Outcome)
      modifies this
      ensures (Value(), outcome) == Done(old(Value()), status)
      ensures wire == old(wire) + if outcome == Resent then [(msg.serial, msg.payload)] else []
    {
      if msg.retries == 0 { return Ignored; }
      counter := counter - 1;
      if status != Sent && counter > 0 {
        wire := wire + [(msg.serial, msg.payload)];
        outcome := Resent;
      } else {
        msg := msg.(retries := 0);
        outcome := Reported(msg, status);
      }
    }

    method RemoveMessageForSerial(serial: Serial)
      modifies this
      ensures Value() == Forget(old(Value()), serial) && wire == old(wire)
    {
      if msg.serial == serial { msg := msg.(retries := 0); }
    }
  }
}
