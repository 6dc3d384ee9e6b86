/** What each record does to the status of a session, and how a handshake that was rejected starts again. */
module Alerts {
  import opened Base
  import opened Smkex
  import opened Handshake

  // The states of a session ----------------------------------------------------------------------

  /** The status after a record of the given type, where `ok` is the verdict over H; None: the process ends. */
  function Moved(status: Status, kind: byte, valid: bool, ok: bool, initiator: bool): Option<Status> {
    var verdict := if ok then Connected else NotConnected;
    match (kind, status)
    case (0, NotConnected) => if valid then Some(WaitNonceInit) else None
    case (0, WaitKeyNonceHDest) => if valid then Some(WaitNonceHDest) else None
    case (0, WaitKeyDest) => if valid then Some(verdict) else None
    case (0, Connected) => Some(WaitNonceInit)
    case (1, WaitNonceInit) => Some(WaitNonce2HInit)
    case (1, WaitKeyNonceHDest) => Some(WaitKeyDest)
    case (1, Connected) => Some(WaitKeyInit)
    case (1, _) => Some(NotConnected)
    case (2, WaitNonceHDest) => Some(verdict)
    case (2, WaitNonce2HInit) => Some(verdict)
    case (4, _) => Some(if initiator then WaitKeyNonceHDest else NotConnected)
    case (_, _) => if kind == 0 || kind == 2 || kind == 5 then Some(status) else None
  }

  function Kinds(out: seq<Out>): seq<byte> { seq(|out|, i requires 0 <= i < |out| => out[i].kind) }

  /** The types of the records sent in answer. */
  function Answers(status: Status, kind: byte, ok: bool, initiator: bool, keyed: bool): seq<byte> {
    var reply := if keyed then [2] else [];
    var alert := if ok then [] else [4];
    match (kind, status)
    case (0, NotConnected) => [0]
    case (0, WaitKeyDest) => reply + alert
    case (1, WaitNonceInit) => reply
    case (1, WaitKeyNonceHDest) => []
    case (1, Connected) => []
    case (1, _) => [4]
    case (2, WaitNonceHDest) => reply + alert
    case (2, WaitNonce2HInit) => alert
    case (4, _) => if initiator then [0, 1] else []
    case (_, _) => []
  }

  /** Whether a record is judged, and on which session. */
  function Judged(s: Session, cr: Crypto, kind: byte, data: seq<byte>): Session {
    if kind == 0 then TakeKey(cr, s, data) else s.(received := data, remoteNonce := NonceOf(data))
  }

  /** The session moves, and answers, as its states say; the data of a key is taken exactly in the four states
      that expect one, and no record touches the own keys. */
  lemma Moves(v: Variant, cr: Crypto, s: Session, kind: byte, data: seq<byte>, drawn: seq<byte>)
    ensures var ok := Verifies(v, cr, Judged(s, cr, kind, data));
            var keyed := if kind == 0 then data != [] else s.remotePub != [];
            match Receive(v, cr, s, kind, data, drawn)
            case Exits => Moved(s.status, kind, cr.valid(data), ok, s.initiator) == None
            case Goes(t, out) =>
              && Moved(s.status, kind, cr.valid(data), ok, s.initiator) == Some(t.status)
              && Kinds(out) == Answers(s.status, kind, ok, s.initiator, keyed)
              && t.priv == s.priv && t.pub == s.pub && t.nonce2 == s.nonce2
  {
    if kind == 0 { MovesKey(v, cr, s, data); }
    else if kind == 1 { MovesNonce(v, cr, s, data); }
    else if kind == 2 { MovesNonceH(v, cr, s, data); }
  }

  lemma KindsJoin(a: seq<Out>, b: seq<Out>)
    ensures Kinds(a + b) == Kinds(a) + Kinds(b) && Kinds([]) == []
  {}

  lemma MovesKey(v: Variant, cr: Crypto, s: Session, data: seq<byte>)
    ensures var ok := Verifies(v, cr, TakeKey(cr, s, data));
            match ReceiveKey(v, cr, s, data)
            case Exits => Moved(s.status, 0, cr.valid(data), ok, s.initiator) == None
            case Goes(t, out) =>
              && Moved(s.status, 0, cr.valid(data), ok, s.initiator) == Some(t.status)
              && Kinds(out) == Answers(s.status, 0, ok, s.initiator, data != [])
              && t.priv == s.priv && t.pub == s.pub && t.nonce2 == s.nonce2
  {
    if s.status == WaitKeyDest { KindsJoin(NonceH(v, cr, TakeKey(cr, s, data)), [ALERT_RECORD]); }
  }

  lemma MovesNonce(v: Variant, cr: Crypto, s: Session, data: seq<byte>)
    ensures var Goes(t, out) := ReceiveNonce(v, cr, s, data);
            && Moved(s.status, 1, true, true, s.initiator) == Some(t.status)
            && Kinds(out) == Answers(s.status, 1, true, s.initiator, s.remotePub != [])
            && t.priv == s.priv && t.pub == s.pub && t.nonce2 == s.nonce2
  {}

  lemma MovesNonceH(v: Variant, cr: Crypto, s: Session, data: seq<byte>)
    ensures var ok := Verifies(v, cr, s.(received := data, remoteNonce := NonceOf(data)));
            var Goes(t, out) := ReceiveNonceH(v, cr, s, data);
            && Moved(s.status, 2, true, ok, s.initiator) == Some(t.status)
            && Kinds(out) == Answers(s.status, 2, ok, s.initiator, s.remotePub != [])
            && t.priv == s.priv && t.pub == s.pub && t.nonce2 == s.nonce2
  {
    var r := s.(received := data);
    KindsJoin(NonceH(v, cr, if v == AsWritten then r else r.(remoteNonce := NonceOf(data))), [ALERT_RECORD]);
  }

  /** The four states that take a key; all but the last derive the session key from it. */
  predicate TakesKey(status: Status) {
    status == NotConnected || status == WaitKeyNonceHDest || status == WaitKeyDest || status == Connected
  }

  /** What a key leaves in the session. */
  lemma StoresKey(v: Variant, cr: Crypto, s: Session, data: seq<byte>)
    requires ReceiveKey(v, cr, s, data).Goes?
    ensures var t := ReceiveKey(v, cr, s, data).session;
            && t.remotePub == (if TakesKey(s.status) then data else s.remotePub)
            && t.sessionKey == (if TakesKey(s.status) && s.status != Connected then cr.dh(s.priv, data) else s.sessionKey)
            && t.remoteNonce == s.remoteNonce && t.received == s.received && t.nonce == s.nonce && t.initiator == s.initiator
  {}

  /** What a nonce does. */
  lemma StoresNonce(v: Variant, cr: Crypto, s: Session, data: seq<byte>)
    ensures var t := ReceiveNonce(v, cr, s, data).session;
            && t.remoteNonce == (if s.status == WaitNonceInit || s.status == WaitKeyNonceHDest || s.status == Connected
                                 then (if |data| >= 8 then data[..8] else data) else s.remoteNonce)
            && t.received == (if s.status == WaitKeyNonceHDest
                              then data + (if |data| < |s.received| then s.received[|data|..] else []) else s.received)
            && t.remotePub == s.remotePub && t.sessionKey == s.sessionKey && t.nonce == s.nonce && t.initiator == s.initiator
  {}

  /** The three states that store the nonce before an H. */
  predicate TakesNonceH(status: Status) {
    status == WaitKeyNonceHDest || status == WaitNonceHDest || status == WaitNonce2HInit
  }

  /** And a nonce with H. */
  lemma StoresNonceH(v: Variant, cr: Crypto, s: Session, data: seq<byte>)
    ensures var t := ReceiveNonceH(v, cr, s, data).session;
            && t.remoteNonce == (if !TakesNonceH(s.status) then s.remoteNonce
                                 else if |data| >= 8 then data[..8] else data)
            && t.received == data
            && t.remotePub == s.remotePub && t.sessionKey == s.sessionKey && t.nonce == s.nonce && t.initiator == s.initiator
  {}

  // Alerts -----------------------------------------------------------------------------------------

  /** After an alert no session is connected. Who did not initiate gives up and sends nothing; who did starts
      again with the drawn nonce, having sent exactly its key and that nonce. Nothing else changes. */
  lemma AlertEnds(v: Variant, cr: Crypto, s: Session, data: seq<byte>, drawn: seq<byte>)
    ensures Receive(v, cr, s, 4, data, drawn) ==
            if s.initiator
            then Goes(s.(status := WaitKeyNonceHDest, nonce := drawn), [Out(1, 0, s.pub), Out(1, 1, drawn)])
            else Goes(s.(status := NotConnected), [])
  {}

  /** A rejected H: the session gives up, and the last record sent is an alert. */
  lemma RejectionAlerts(v: Variant, cr: Crypto, s: Session, data: seq<byte>, drawn: seq<byte>)
    requires s.status == WaitNonceHDest || s.status == WaitNonce2HInit
    requires !Verifies(v, cr, s.(received := data, remoteNonce := NonceOf(data)))
    ensures var r := Receive(v, cr, s, 2, data, drawn);
            r.Goes? && r.session.status == NotConnected && r.out != [] && r.out[|r.out| - 1] == Out(1, 4, [97, 0])
  {}

  // A rejected handshake ------------------------------------------------------------------------------

  /** The two peers after both checks of H, with the alert of each that rejected. */
  function Checked(v: Variant, cr: Crypto, a0: Session, b: Session): Net {
    var okA, okB := Verifies(v, cr, A2(v, cr, a0, b)), Verifies(v, cr, B3(v, cr, a0, b));
    Net(A2(v, cr, a0, b).(status := if okA then Connected else NotConnected),
        B3(v, cr, a0, b).(status := if okB then Connected else NotConnected),
        if okA then [] else [ALERT_RECORD], if okB then [] else [ALERT_RECORD])
  }

  lemma CheckB(v: Variant, cr: Crypto, a0: Session, b: Session, net: Net, again: seq<byte>)
    requires |a0.nonce| == NONCE_LEN && a0.pub != []
    requires net.b == B2(cr, a0, b) && net.ab != [] && net.ab[0] == ReplyA(v, cr, a0, b) && net.ba == []
    ensures var okB := Verifies(v, cr, B3(v, cr, a0, b));
            Deliver(v, cr, net, true, again) ==
            Some(Net(net.a, B3(v, cr, a0, b).(status := if okB then Connected else NotConnected), net.ab[1..],
                     if okB then [] else [ALERT_RECORD]))
  {
    NonceHead(a0.nonce, SentHash(v, cr, ASends(v, cr, a0, b)));
    Tails(ALERT_RECORD, ALERT_RECORD);
  }

  /** Whatever the order of the first five deliveries from initSession, they end with both verdicts given. */
  lemma FiveCheck(v: Variant, cr: Crypto, a: Session, b: Session, drawn: seq<byte>, to: seq<bool>, again: seq<byte>)
    requires Peers(cr, a, b, drawn) && |to| == 5 && Play(v, cr, Begin(a, b, drawn), to, again).Some?
    ensures Play(v, cr, Begin(a, b, drawn), to, again) == Some(Checked(v, cr, A0(a, drawn), b))
  {
    assert Begin(a, b, drawn) == At(v, cr, A0(a, drawn), b, Opened);
    FromStage(v, cr, a, b, Opened, to, drawn, again);
  }

  lemma {:induction false} FromStage(v: Variant, cr: Crypto, a: Session, b: Session, stage: Stage, to: seq<bool>,
                                     drawn: seq<byte>, again: seq<byte>)
    requires Peers(cr, a, b, drawn) && Left(stage) >= 2 && |to| == Left(stage)
    requires Play(v, cr, At(v, cr, A0(a, drawn), b, stage), to, again).Some?
    ensures Play(v, cr, At(v, cr, A0(a, drawn), b, stage), to, again) == Some(Checked(v, cr, A0(a, drawn), b))
    decreases |to|
  {
    NextDelivery(v, cr, A0(a, drawn), b, stage, to[0]);
    if stage == AnsweredLate {
      BothCheck(v, cr, a, b, to, drawn, again);
    } else {
      DeliverEarly(v, cr, a, b, stage, to[0], drawn, again);
      FromStage(v, cr, a, b, After(stage, to[0]), to[1..], drawn, again);
    }
  }

  lemma BothCheck(v: Variant, cr: Crypto, a: Session, b: Session, to: seq<bool>, drawn: seq<byte>, again: seq<byte>)
    requires Peers(cr, a, b, drawn) && |to| == 2 && !to[0]
    requires Play(v, cr, At(v, cr, A0(a, drawn), b, AnsweredLate), to, again).Some?
    ensures Play(v, cr, At(v, cr, A0(a, drawn), b, AnsweredLate), to, again) == Some(Checked(v, cr, A0(a, drawn), b))
  {
    var a0 := A0(a, drawn);
    InitiatorChecks(v, cr, a, b, drawn, again);
    var net := Deliver(v, cr, At(v, cr, a0, b, AnsweredLate), false, again).value;
    OneMore(v, cr, net, to[1..], again);
    CheckB(v, cr, a0, b, net, again);
    Tails(ReplyA(v, cr, a0, b), ALERT_RECORD);
  }

  /** The two peers of a new attempt: those of the last one, given up. */
  function Again(v: Variant, cr: Crypto, a0: Session, b: Session): (Session, Session) {
    (A2(v, cr, a0, b).(status := NotConnected), B3(v, cr, a0, b).(status := NotConnected))
  }

  lemma AgainPeers(v: Variant, cr: Crypto, a: Session, b: Session, drawn: seq<byte>, again: seq<byte>)
    requires Peers(cr, a, b, drawn) && |again| == NONCE_LEN
    ensures var (a', b') := Again(v, cr, A0(a, drawn), b); Peers(cr, a', b', again)
  {}

  /** The alert of the initiator, whenever it arrives. */
  lemma AlertToB(v: Variant, cr: Crypto, net: Net, again: seq<byte>)
    requires net.ab != [] && net.ab[0] == ALERT_RECORD && !net.b.initiator
    ensures Deliver(v, cr, net, true, again) == Some(Net(net.a, net.b.(status := NotConnected), net.ab[1..], net.ba))
  {
    assert net.ba + [] == net.ba;
  }

  /** The alert of the responder makes the initiator start again. */
  lemma AlertToA(v: Variant, cr: Crypto, net: Net, again: seq<byte>)
    requires net.ba != [] && net.ba[0] == ALERT_RECORD && net.a.initiator
    ensures var (a', out) := Init(net.a.(status := NotConnected), again);
            Deliver(v, cr, net, false, again) == Some(Net(a', net.b, net.ab + out, net.ba[1..]))
  {}

  /** How many alerts a rejected handshake leaves in flight. */
  function Alerted(net: Net): nat { |net.ab| + |net.ba| }

  lemma OneAlert(v: Variant, cr: Crypto, a0: Session, b: Session, to: seq<bool>, again: seq<byte>)
    requires a0.initiator && !b.initiator
    requires var net := Checked(v, cr, a0, b);
             Alerted(net) == 1 && |to| == 1 && Play(v, cr, net, to, again).Some?
    ensures Play(v, cr, Checked(v, cr, a0, b), to, again) == Some(Settled(v, cr, a0, b, again))
  {
    var net := Checked(v, cr, a0, b);
    Tails(ALERT_RECORD, ALERT_RECORD);
    assert to[1..] == [];
    if to[0] { AlertToB(v, cr, net, again); } else {
      AlertToA(v, cr, net, again);
      var (a', out) := Init(net.a.(status := NotConnected), again);
      assert [] + out == out;
    }
  }

  lemma TwoSteps(v: Variant, cr: Crypto, net: Net, to: seq<bool>, n: Net, m: Net, again: seq<byte>)
    requires |to| == 2 && Deliverable(net, to[0]) && Deliver(v, cr, net, to[0], again) == Some(n)
    requires Deliverable(n, to[1]) && Deliver(v, cr, n, to[1], again) == Some(m)
    ensures Play(v, cr, net, to, again) == Some(m)
  {
    var rest := to[1..];
    assert rest[0] == to[1] && rest[1..] == [];
    assert Play(v, cr, m, [], again) == Some(m);
    assert Play(v, cr, n, rest, again) == Some(m);
  }

  /** Both alerts, in the order that lets the initiator's go first. */
  lemma AlertsBA(v: Variant, cr: Crypto, a: Session, b: Session, again: seq<byte>) returns (n: Net)
    requires a.initiator && !b.initiator && a.status == NotConnected && b.status == NotConnected
    ensures var net := Net(a, b, [ALERT_RECORD], [ALERT_RECORD]);
            && Deliver(v, cr, net, true, again) == Some(n) && Deliverable(n, false)
            && Deliver(v, cr, n, false, again) == Some(Begin(a, b, again))
  {
    var net := Net(a, b, [ALERT_RECORD], [ALERT_RECORD]);
    AlertToB(v, cr, net, again);
    n := Net(a, b, [], [ALERT_RECORD]);
    AlertToA(v, cr, n, again);
    assert [] + Init(a, again).1 == Init(a, again).1;
  }

  lemma AlertsAB(v: Variant, cr: Crypto, a: Session, b: Session, again: seq<byte>) returns (n: Net)
    requires a.initiator && !b.initiator && a.status == NotConnected && b.status == NotConnected
    ensures var net := Net(a, b, [ALERT_RECORD], [ALERT_RECORD]);
            && Deliver(v, cr, net, false, again) == Some(n) && Deliverable(n, true)
            && Deliver(v, cr, n, true, again) == Some(Begin(a, b, again))
  {
    var net := Net(a, b, [ALERT_RECORD], [ALERT_RECORD]);
    AlertToA(v, cr, net, again);
    var out := Init(a, again).1;
    n := Net(Init(a, again).0, b, [ALERT_RECORD] + out, []);
    AlertToB(v, cr, n, again);
    assert ([ALERT_RECORD] + out)[1..] == out && [ALERT_RECORD][1..] == [];
  }

  lemma TwoAlerts(v: Variant, cr: Crypto, a: Session, b: Session, to: seq<bool>, again: seq<byte>)
    requires a.initiator && !b.initiator && a.status == NotConnected && b.status == NotConnected
    requires |to| == 2 && to[0] != to[1]
    ensures Play(v, cr, Net(a, b, [ALERT_RECORD], [ALERT_RECORD]), to, again) == Some(Begin(a, b, again))
  {
    var n: Net;
    if to[0] { n := AlertsBA(v, cr, a, b, again); } else { n := AlertsAB(v, cr, a, b, again); }
    TwoSteps(v, cr, Net(a, b, [ALERT_RECORD], [ALERT_RECORD]), to, n, Begin(a, b, again), again);
  }

  /** Where the alerts lead: a new attempt with the fresh nonce is under way exactly when the responder rejected;
      when only the initiator did, both have given up and nothing is in flight. */
  function Settled(v: Variant, cr: Crypto, a0: Session, b: Session, again: seq<byte>): Net {
    var (a', b') := Again(v, cr, a0, b);
    if Verifies(v, cr, B3(v, cr, a0, b)) then Net(a', b', [], []) else Begin(a', b', again)
  }

  /** Each alert delivered once. */
  predicate DeliversAlerts(net: Net, to: seq<bool>) {
    |to| == Alerted(net) && (|to| == 2 ==> to[0] != to[1])
  }

  /** A rejected honest handshake: five deliveries from initSession and then the alerts, all in any order the
      channels allow. In the end the two sessions are again two peers to which HonestHandshake and HonestOutcome
      apply, with the fresh nonce: under way by itself exactly when the responder rejected, and otherwise at
      the next call of initSession. */
  lemma RejectedStartsAgain(v: Variant, cr: Crypto, a: Session, b: Session, drawn: seq<byte>, to: seq<bool>,
                            alerts: seq<bool>, again: seq<byte>)
    requires Peers(cr, a, b, drawn) && !b.initiator && |again| == NONCE_LEN && !Accepted(v, cr, A0(a, drawn), b)
    requires |to| == 5 && Play(v, cr, Begin(a, b, drawn), to, again).Some?
    requires var net := Play(v, cr, Begin(a, b, drawn), to, again).value;
             DeliversAlerts(net, alerts) && Play(v, cr, net, alerts, again).Some?
    ensures var net := Play(v, cr, Begin(a, b, drawn), to, again).value;
            var (a', b') := Again(v, cr, A0(a, drawn), b);
            && Peers(cr, a', b', again) && !b'.initiator
            && Play(v, cr, net, alerts, again) ==
               Some(if Verifies(v, cr, B3(v, cr, A0(a, drawn), b)) then Net(a', b', [], []) else Begin(a', b', again))
  {
    var a0 := A0(a, drawn);
    FiveCheck(v, cr, a, b, drawn, to, again);
    AgainPeers(v, cr, a, b, drawn, again);
    if Alerted(Checked(v, cr, a0, b)) == 1 {
      OneAlert(v, cr, a0, b, alerts, again);
    } else {
      var (a', b') := Again(v, cr, a0, b);
      TwoAlerts(v, cr, a', b', alerts, again);
    }
  }
}
