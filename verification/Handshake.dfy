/** The handshake between two honest peers over channels that deliver in order. */
module Handshake {
  import opened Base
  import opened Codec
  import opened Smkex

  datatype Net = Net(a: Session, b: Session, ab: seq<Out>, ba: seq<Out>)

  predicate Deliverable(net: Net, toB: bool) {
    if toB then net.ab != [] else net.ba != []
  }

  /** Delivery of the oldest record in one direction; `drawn` is the nonce a restart would use. */
  function Deliver(v: Variant, cr: Crypto, net: Net, toB: bool, drawn: seq<byte>): Option<Net>
    requires Deliverable(net, toB)
  {
    if toB then
      match Receive(v, cr, net.b, net.ab[0].kind, net.ab[0].data, drawn)
      case Exits => None
      case Goes(b, out) => Some(Net(net.a, b, net.ab[1..], net.ba + out))
    else
      match Receive(v, cr, net.a, net.ba[0].kind, net.ba[0].data, drawn)
      case Exits => None
      case Goes(a, out) => Some(Net(a, net.b, net.ab + out, net.ba[1..]))
  }

  /** The network after the deliveries in `to`, oldest first; None when one of them is impossible. */
  function Play(v: Variant, cr: Crypto, net: Net, to: seq<bool>, drawn: seq<byte>): Option<Net>
    decreases |to|
  {
    if to == [] then Some(net)
    else if !Deliverable(net, to[0]) then None
    else match Deliver(v, cr, net, to[0], drawn)
      case None => None
      case Some(n) => Play(v, cr, n, to[1..], drawn)
  }

  /** SHA-256 seen as an ideal hash: H is never empty, and four values have the H of no other four. */
  ghost predicate SoundHash(cr: Crypto) {
    && (forall k1, n1, k2, n2 :: cr.hash(k1, n1, k2, n2) != [])
    && forall k1, n1, k2, n2, l1, m1, l2, m2 :: cr.hash(k1, n1, k2, n2) == cr.hash(l1, m1, l2, m2) ==>
         k1 == l1 && n1 == m1 && k2 == l2 && n2 == m2
  }

  /** What the check as written would need besides: strncmp, which stops at a zero byte, tells any two H apart. */
  ghost predicate GoodHash(cr: Crypto) {
    && (forall k1, n1, k2, n2 :: cr.hash(k1, n1, k2, n2) != [])
    && forall k1, n1, k2, n2, l1, m1, l2, m2 :: UpToZero(cr.hash(k1, n1, k2, n2)) <= cr.hash(l1, m1, l2, m2) ==>
         k1 == l1 && n1 == m1 && k2 == l2 && n2 == m2
  }

  /** Bytes that tell where they end, with no zero among them. */
  function Delimited(s: seq<byte>): (r: seq<byte>)
    ensures 0 !in r
  {
    if s == [] then [1] else [2, s[0] / 16 + 1, s[0] % 16 + 1] + Delimited(s[1..])
  }

  lemma {:induction false} DelimitedPrefix(s: seq<byte>, x: seq<byte>, t: seq<byte>, y: seq<byte>)
    requires Delimited(s) + x <= Delimited(t) + y
    ensures s == t && x <= y
  {
    var a, b := Delimited(s) + x, Delimited(t) + y;
    assert a[0] == b[0];
    if s == [] {
      assert a[1..] == x && b[1..] == y;
    } else {
      assert a[1] == b[1] && a[2] == b[2];
      assert a[3..] == Delimited(s[1..]) + x && b[3..] == Delimited(t[1..]) + y;
      DelimitedPrefix(s[1..], x, t[1..], y);
      assert s == [s[0]] + s[1..] && t == [t[0]] + t[1..];
    }
  }

  /** Such a hash can exist: what is assumed of H is not contradictory. */
  lemma GoodHashExists(dh: (seq<byte>, seq<byte>) -> seq<byte>, valid: seq<byte> -> bool) returns (cr: Crypto)
    ensures GoodHash(cr) && SoundHash(cr) && cr.dh == dh && cr.valid == valid
  {
    cr := Crypto((k1, n1, k2, n2) => Delimited(k1) + (Delimited(n1) + (Delimited(k2) + (Delimited(n2)
        + []))), dh, valid);
    forall k1, n1, k2, n2, l1, m1, l2, m2 | UpToZero(cr.hash(k1, n1, k2, n2)) <= cr.hash(l1, m1, l2, m2)
      ensures k1 == l1 && n1 == m1 && k2 == l2 && n2 == m2
    {
      var z: seq<byte> := [];
      ZeroFree(cr.hash(k1, n1, k2, n2));
      DelimitedPrefix(k1, Delimited(n1) + (Delimited(k2) + (Delimited(n2) + z)), l1, Delimited(m1)
          + (Delimited(l2) + (Delimited(m2) + z)));
      DelimitedPrefix(n1, Delimited(k2) + (Delimited(n2) + z), m1, Delimited(l2) + (Delimited(m2) + z));
      DelimitedPrefix(k2, Delimited(n2) + z, l2, Delimited(m2) + z);
      DelimitedPrefix(n2, z, m2, z);
    }
    GoodIsSound(cr);
  }

  lemma GoodIsSound(cr: Crypto)
    requires GoodHash(cr)
    ensures SoundHash(cr)
  {
    forall k1, n1, k2, n2, l1, m1, l2, m2 | cr.hash(k1, n1, k2, n2) == cr.hash(l1, m1, l2, m2)
      ensures k1 == l1 && n1 == m1 && k2 == l2 && n2 == m2
    {
      UpToZeroPrefix(cr.hash(k1, n1, k2, n2));
    }
  }

  /** Two idle peers with pre-created sessions, as the main program makes them: `a` will initiate. */
  ghost predicate Peers(cr: Crypto, a: Session, b: Session, drawn: seq<byte>) {
    && a.status == NotConnected && b.status == NotConnected
    && cr.valid(a.pub) && cr.valid(b.pub) && a.pub != [] && b.pub != []
    && |drawn| == NONCE_LEN && |b.nonce| == NONCE_LEN
    && cr.dh(a.priv, b.pub) == cr.dh(b.priv, a.pub)
  }

  function Begin(a: Session, b: Session, drawn: seq<byte>): Net {
    var (a0, out) := Init(a, drawn);
    Net(a0, b, out, [])
  }

  // The states of the handshake -----------------------------------------------------------------

  function A0(a: Session, drawn: seq<byte>): Session {
    a.(initiator := true, nonce := drawn, status := WaitKeyNonceHDest)
  }

  function B1(cr: Crypto, a0: Session, b: Session): Session {
    TakeKey(cr, b, a0.pub).(status := WaitNonceInit)
  }

  function B2(cr: Crypto, a0: Session, b: Session): Session {
    B1(cr, a0, b).(remoteNonce := a0.nonce, status := WaitNonce2HInit)
  }

  /** The record with the responder's nonce and H. */
  function ReplyB(v: Variant, cr: Crypto, a0: Session, b: Session): Out {
    Out(2, HANDSHAKE_NONCE_H, b.nonce + SentHash(v, cr, B2(cr, a0, b)))
  }

  function A1(cr: Crypto, a0: Session, b: Session): Session {
    TakeKey(cr, a0, b.pub).(status := WaitNonceHDest)
  }

  /** The initiator with the responder's nonce and H stored, about to check. */
  function A2(v: Variant, cr: Crypto, a0: Session, b: Session): Session {
    A1(cr, a0, b).(received := ReplyB(v, cr, a0, b).data, remoteNonce := b.nonce)
  }

  /** The initiator as it is when it computes its own H. */
  function ASends(v: Variant, cr: Crypto, a0: Session, b: Session): Session {
    if v == AsWritten then A1(cr, a0, b).(received := ReplyB(v, cr, a0, b).data) else A2(v, cr, a0, b)
  }

  function ReplyA(v: Variant, cr: Crypto, a0: Session, b: Session): Out {
    Out(2, HANDSHAKE_NONCE_H, a0.nonce + SentHash(v, cr, ASends(v, cr, a0, b)))
  }

  /** The responder with the initiator's nonce and H stored, about to check. */
  function B3(v: Variant, cr: Crypto, a0: Session, b: Session): Session {
    B2(cr, a0, b).(received := ReplyA(v, cr, a0, b).data, remoteNonce := a0.nonce)
  }

  datatype Stage = Opened | KeyTaken | KeysTaken | Answered | AnsweredLate | Replied | Done

  /** The one network state that belongs to a stage: both sessions and the records in flight. */
  function At(v: Variant, cr: Crypto, a0: Session, b: Session, stage: Stage): Net {
    match stage
    case Opened => Net(a0, b, [Key(a0), Nonce(a0)], [])
    case KeyTaken => Net(a0, B1(cr, a0, b), [Nonce(a0)], [Key(b)])
    case KeysTaken => Net(A1(cr, a0, b), B1(cr, a0, b), [Nonce(a0)], [])
    case Answered => Net(a0, B2(cr, a0, b), [], [Key(b), ReplyB(v, cr, a0, b)])
    case AnsweredLate => Net(A1(cr, a0, b), B2(cr, a0, b), [], [ReplyB(v, cr, a0, b)])
    case Replied => Net(A2(v, cr, a0, b).(status := Connected), B2(cr, a0, b), [ReplyA(v, cr, a0, b)], [])
    case Done => Net(A2(v, cr, a0, b).(status := Connected), B3(v, cr, a0, b).(status := Connected), [], [])
  }

  function Left(stage: Stage): nat {
    match stage
    case Opened => 5 case KeyTaken => 4 case KeysTaken => 3 case Answered => 3
    case AnsweredLate => 2 case Replied => 1 case Done => 0
  }

  function After(stage: Stage, toB: bool): Stage {
    match stage
    case Opened => KeyTaken
    case KeyTaken => if toB then Answered else KeysTaken
    case KeysTaken => AnsweredLate
    case Answered => AnsweredLate
    case AnsweredLate => Replied
    case Replied => Done
    case Done => Done
  }

  /** Both checks of H succeed. */
  predicate Accepted(v: Variant, cr: Crypto, a0: Session, b: Session) {
    Verifies(v, cr, A2(v, cr, a0, b)) && Verifies(v, cr, B3(v, cr, a0, b))
  }

  /** Tails of the channels that occur. */
  lemma Tails(x: Out, y: Out)
    ensures [x, y][1..] == [y] && [x][1..] == [] && [x] + [y] == [x, y] && [] + [x] == [x] && [x] + [] == [x]
    ensures var none: seq<Out> := []; none + none == none
  {}

  lemma NonceHead(nonce: seq<byte>, h: seq<byte>)
    requires |nonce| == NONCE_LEN
    ensures NonceOf(nonce + h) == nonce && NonceOf(nonce) == nonce
  {}

  lemma DeliverFirst(v: Variant, cr: Crypto, a: Session, b: Session, drawn: seq<byte>, again: seq<byte>)
    requires Peers(cr, a, b, drawn)
    ensures var a0 := A0(a, drawn);
            Deliver(v, cr, At(v, cr, a0, b, Opened), true, again) == Some(At(v, cr, a0, b, KeyTaken))
  {
    var a0 := A0(a, drawn);
    Tails(Key(a0), Nonce(a0));
    Tails(Key(b), Key(b));
  }

  lemma DeliverKey(v: Variant, cr: Crypto, a: Session, b: Session, drawn: seq<byte>, again: seq<byte>)
    requires Peers(cr, a, b, drawn)
    ensures var a0 := A0(a, drawn);
            && Deliver(v, cr, At(v, cr, a0, b, KeyTaken), false, again) == Some(At(v, cr, a0, b, KeysTaken))
            && Deliver(v, cr, At(v, cr, a0, b, Answered), false, again) == Some(At(v, cr, a0, b, AnsweredLate))
  {
    var a0 := A0(a, drawn);
    Tails(Key(b), ReplyB(v, cr, a0, b));
    Tails(Nonce(a0), Nonce(a0));
  }

  lemma DeliverNonce(v: Variant, cr: Crypto, a: Session, b: Session, drawn: seq<byte>, again: seq<byte>)
    requires Peers(cr, a, b, drawn)
    ensures var a0 := A0(a, drawn);
            && Deliver(v, cr, At(v, cr, a0, b, KeyTaken), true, again) == Some(At(v, cr, a0, b, Answered))
            && Deliver(v, cr, At(v, cr, a0, b, KeysTaken), true, again) == Some(At(v, cr, a0, b, AnsweredLate))
  {
    var a0 := A0(a, drawn);
    NonceHead(a0.nonce, []);
    Tails(Nonce(a0), Nonce(a0));
    Tails(Key(b), ReplyB(v, cr, a0, b));
    Tails(ReplyB(v, cr, a0, b), Key(b));
    assert NonceH(v, cr, B1(cr, a0, b).(remoteNonce := a0.nonce)) == [ReplyB(v, cr, a0, b)];
  }

  lemma DeliverReplyB(v: Variant, cr: Crypto, a: Session, b: Session, drawn: seq<byte>, again: seq<byte>)
    requires Peers(cr, a, b, drawn) && Verifies(v, cr, A2(v, cr, A0(a, drawn), b))
    ensures var a0 := A0(a, drawn);
            Deliver(v, cr, At(v, cr, a0, b, AnsweredLate), false, again) == Some(At(v, cr, a0, b, Replied))
  {
    var a0 := A0(a, drawn);
    NonceHead(b.nonce, SentHash(v, cr, B2(cr, a0, b)));
    Tails(ReplyB(v, cr, a0, b), Key(b));
    Tails(ReplyA(v, cr, a0, b), Key(b));
  }

  lemma TakesReplyA(v: Variant, cr: Crypto, a0: Session, b: Session, again: seq<byte>)
    requires |a0.nonce| == NONCE_LEN && Verifies(v, cr, B3(v, cr, a0, b))
    ensures Receive(v, cr, B2(cr, a0, b), HANDSHAKE_NONCE_H, ReplyA(v, cr, a0, b).data, again) ==
            Goes(B3(v, cr, a0, b).(status := Connected), [])
  {
    NonceHead(a0.nonce, SentHash(v, cr, ASends(v, cr, a0, b)));
  }

  lemma DeliverReplyA(v: Variant, cr: Crypto, a: Session, b: Session, drawn: seq<byte>, again: seq<byte>)
    requires Peers(cr, a, b, drawn) && Verifies(v, cr, B3(v, cr, A0(a, drawn), b))
    ensures var a0 := A0(a, drawn);
            Deliver(v, cr, At(v, cr, a0, b, Replied), true, again) == Some(At(v, cr, a0, b, Done))
  {
    var a0 := A0(a, drawn);
    TakesReplyA(v, cr, a0, b, again);
    Tails(ReplyA(v, cr, a0, b), Key(b));
  }

  /** Only after the first key is there a choice between the two directions. */
  lemma NextDelivery(v: Variant, cr: Crypto, a0: Session, b: Session, stage: Stage, toB: bool)
    requires Deliverable(At(v, cr, a0, b, stage), toB)
    ensures stage != Done && Left(After(stage, toB)) == Left(stage) - 1
    ensures stage != KeyTaken ==> (toB <==> stage == Opened || stage == KeysTaken || stage == Replied)
  {}

  /** Until the initiator has the responder's H to check, every delivery succeeds. */
  lemma DeliverEarly(v: Variant, cr: Crypto, a: Session, b: Session, stage: Stage, toB: bool, drawn: seq<byte>,
                     again: seq<byte>)
    requires Peers(cr, a, b, drawn) && Left(stage) >= 3
    requires Deliverable(At(v, cr, A0(a, drawn), b, stage), toB)
    ensures var a0 := A0(a, drawn);
            Deliver(v, cr, At(v, cr, a0, b, stage), toB, again) == Some(At(v, cr, a0, b, After(stage, toB)))
  {
    NextDelivery(v, cr, A0(a, drawn), b, stage, toB);
    match stage
    case Opened => DeliverFirst(v, cr, a, b, drawn, again);
    case KeyTaken => if toB { DeliverNonce(v, cr, a, b, drawn, again); } else { DeliverKey(v, cr, a, b, drawn, again); }
    case KeysTaken => DeliverNonce(v, cr, a, b, drawn, again);
    case Answered => DeliverKey(v, cr, a, b, drawn, again);
  }

  lemma DeliverStage(v: Variant, cr: Crypto, a: Session, b: Session, stage: Stage, toB: bool, drawn: seq<byte>,
                     again: seq<byte>)
    requires Peers(cr, a, b, drawn)
    requires var a0 := A0(a, drawn); Accepted(v, cr, a0, b) && Deliverable(At(v, cr, a0, b, stage), toB)
    ensures var a0 := A0(a, drawn);
            && Deliver(v, cr, At(v, cr, a0, b, stage), toB, again) == Some(At(v, cr, a0, b, After(stage, toB)))
            && Left(After(stage, toB)) == Left(stage) - 1
  {
    NextDelivery(v, cr, A0(a, drawn), b, stage, toB);
    if Left(stage) >= 3 { DeliverEarly(v, cr, a, b, stage, toB, drawn, again); }
    else if stage == AnsweredLate { DeliverReplyB(v, cr, a, b, drawn, again); }
    else { DeliverReplyA(v, cr, a, b, drawn, again); }
  }

  /** Whatever the order of the deliveries, the network is always in the one state of some stage, with
      that many deliveries made; a run that cannot go on has made five and is Done. */
  lemma {:induction false} PlayStages(v: Variant, cr: Crypto, a: Session, b: Session, stage: Stage, to: seq<bool>,
                                     drawn: seq<byte>, again: seq<byte>)
    returns (last: Stage)
    requires Peers(cr, a, b, drawn) && Accepted(v, cr, A0(a, drawn), b)
    requires Play(v, cr, At(v, cr, A0(a, drawn), b, stage), to, again).Some?
    ensures Play(v, cr, At(v, cr, A0(a, drawn), b, stage), to, again) == Some(At(v, cr, A0(a, drawn), b, last))
    ensures |to| + Left(last) == Left(stage)
    decreases |to|
  {
    if to == [] {
      last := stage;
    } else {
      DeliverStage(v, cr, a, b, stage, to[0], drawn, again);
      last := PlayStages(v, cr, a, b, After(stage, to[0]), to[1..], drawn, again);
    }
  }

  ghost predicate BothConnected(net: Net, a: Session, b: Session) {
    && net.a.status == Connected && net.b.status == Connected
    && net.a.remotePub == b.pub && net.b.remotePub == a.pub
    && net.a.sessionKey == net.b.sessionKey
    && net.ab == [] && net.ba == []
  }

  /** If both checks accept, every run from initSession makes at most five deliveries, and every run that
      cannot go on made exactly five and left both peers connected, each with the other's public key, and
      with equal session keys. */
  lemma HonestHandshake(v: Variant, cr: Crypto, a: Session, b: Session, drawn: seq<byte>, to: seq<bool>,
                        again: seq<byte>)
    requires Peers(cr, a, b, drawn) && Accepted(v, cr, A0(a, drawn), b)
    requires Play(v, cr, Begin(a, b, drawn), to, again).Some?
    ensures var net := Play(v, cr, Begin(a, b, drawn), to, again).value;
            && |to| <= 5
            && (!Deliverable(net, true) && !Deliverable(net, false) <==> |to| == 5)
            && (|to| == 5 ==> BothConnected(net, a, b))
  {
    assert Begin(a, b, drawn) == At(v, cr, A0(a, drawn), b, Opened);
    var last := PlayStages(v, cr, a, b, Opened, to, drawn, again);
  }

  // Exactly when it succeeds ------------------------------------------------------------------

  /** The initiator's verdict over the responder's H, whatever it is. */
  lemma InitiatorChecks(v: Variant, cr: Crypto, a: Session, b: Session, drawn: seq<byte>, again: seq<byte>)
    requires Peers(cr, a, b, drawn)
    ensures var a0 := A0(a, drawn);
            var ok := Verifies(v, cr, A2(v, cr, a0, b));
            Deliver(v, cr, At(v, cr, a0, b, AnsweredLate), false, again) ==
            Some(Net(A2(v, cr, a0, b).(status := if ok then Connected else NotConnected), B2(cr, a0, b),
                     if ok then [ReplyA(v, cr, a0, b)] else [ReplyA(v, cr, a0, b), ALERT_RECORD], []))
  {
    var a0 := A0(a, drawn);
    NonceHead(b.nonce, SentHash(v, cr, B2(cr, a0, b)));
    Tails(ReplyB(v, cr, a0, b), Key(b));
    Tails(ReplyA(v, cr, a0, b), ALERT_RECORD);
    assert [] + [ReplyA(v, cr, a0, b), ALERT_RECORD] == [ReplyA(v, cr, a0, b), ALERT_RECORD];
  }

  /** The responder's verdict over the initiator's H. */
  lemma ResponderChecks(v: Variant, cr: Crypto, a0: Session, b: Session, net: Net, again: seq<byte>)
    requires |a0.nonce| == NONCE_LEN && a0.pub != []
    requires net.b == B2(cr, a0, b) && net.ab != [] && net.ab[0] == ReplyA(v, cr, a0, b)
    ensures var r := Deliver(v, cr, net, true, again);
            r.Some? && r.value.a == net.a && (r.value.b.status == Connected <==> Verifies(v, cr, B3(v, cr, a0, b)))
  {
    NonceHead(a0.nonce, SentHash(v, cr, ASends(v, cr, a0, b)));
  }

  lemma OneMore(v: Variant, cr: Crypto, net: Net, to: seq<bool>, again: seq<byte>)
    requires |to| == 1 && net.ba == [] && Play(v, cr, net, to, again).Some?
    ensures Deliverable(net, true) && Play(v, cr, net, to, again) == Deliver(v, cr, net, true, again)
  {
    assert to[0] && to[1..] == [];
  }

  /** The last two of five deliveries. */
  lemma LastTwo(v: Variant, cr: Crypto, a: Session, b: Session, drawn: seq<byte>, to: seq<bool>, again: seq<byte>)
    requires Peers(cr, a, b, drawn) && |to| == 2
    requires Play(v, cr, At(v, cr, A0(a, drawn), b, AnsweredLate), to, again).Some?
    ensures var net := Play(v, cr, At(v, cr, A0(a, drawn), b, AnsweredLate), to, again).value;
            net.a.status == Connected && net.b.status == Connected ==> Accepted(v, cr, A0(a, drawn), b)
  {
    var a0 := A0(a, drawn);
    NextDelivery(v, cr, a0, b, AnsweredLate, to[0]);
    InitiatorChecks(v, cr, a, b, drawn, again);
    var net := Deliver(v, cr, At(v, cr, a0, b, AnsweredLate), false, again).value;
    ResponderChecks(v, cr, a0, b, net, again);
    OneMore(v, cr, net, to[1..], again);
  }

  lemma {:induction false} FirstThree(v: Variant, cr: Crypto, a: Session, b: Session, stage: Stage, to: seq<bool>,
                                      drawn: seq<byte>, again: seq<byte>)
    requires Peers(cr, a, b, drawn) && Left(stage) >= 2 && |to| == Left(stage)
    requires Play(v, cr, At(v, cr, A0(a, drawn), b, stage), to, again).Some?
    ensures var net := Play(v, cr, At(v, cr, A0(a, drawn), b, stage), to, again).value;
            net.a.status == Connected && net.b.status == Connected ==> Accepted(v, cr, A0(a, drawn), b)
    decreases |to|
  {
    if stage == AnsweredLate {
      LastTwo(v, cr, a, b, drawn, to, again);
    } else {
      NextDelivery(v, cr, A0(a, drawn), b, stage, to[0]);
      DeliverEarly(v, cr, a, b, stage, to[0], drawn, again);
      FirstThree(v, cr, a, b, After(stage, to[0]), to[1..], drawn, again);
    }
  }

  /** For every order of five deliveries from initSession: both peers end connected if and only if both
      checks accept; with `WrittenAccepts` and `IntendedAccepts` this decides the honest handshake. */
  lemma HonestOutcome(v: Variant, cr: Crypto, a: Session, b: Session, drawn: seq<byte>, to: seq<bool>, again: seq<byte>)
    requires Peers(cr, a, b, drawn) && |to| == 5
    requires Play(v, cr, Begin(a, b, drawn), to, again).Some?
    ensures var net := Play(v, cr, Begin(a, b, drawn), to, again).value;
            net.a.status == Connected && net.b.status == Connected <==> Accepted(v, cr, A0(a, drawn), b)
  {
    assert Begin(a, b, drawn) == At(v, cr, A0(a, drawn), b, Opened);
    FirstThree(v, cr, a, b, Opened, to, drawn, again);
    if Accepted(v, cr, A0(a, drawn), b) { HonestHandshake(v, cr, a, b, drawn, to, again); }
  }

  // Repetitions ------------------------------------------------------------------------------------

  /** The oldest record in one direction, and the session of its receiver after it. */
  function Oldest(net: Net, toB: bool): Out
    requires Deliverable(net, toB)
  {
    if toB then net.ab[0] else net.ba[0]
  }

  function Receiver(net: Net, toB: bool): Session { if toB then net.b else net.a }

  /** A record that arrives once more, right after itself, changes nothing in the honest handshake if and only
      if it is not the initiator's nonce; that one ends the responder's session with an alert. */
  lemma RepeatedRecord(v: Variant, cr: Crypto, a: Session, b: Session, stage: Stage, toB: bool,
                       drawn: seq<byte>, again: seq<byte>)
    requires Peers(cr, a, b, drawn) && Accepted(v, cr, A0(a, drawn), b)
    requires Deliverable(At(v, cr, A0(a, drawn), b, stage), toB)
    ensures var a0 := A0(a, drawn);
            var r := Oldest(At(v, cr, a0, b, stage), toB);
            var s := Receiver(At(v, cr, a0, b, After(stage, toB)), toB);
            var once := Receive(v, cr, s, r.kind, r.data, again);
            if r.kind != HANDSHAKE_NONCE then once == Goes(s, [])
            else s.status != NotConnected && once == Goes(s.(status := NotConnected), [ALERT_RECORD])
  {
    NextDelivery(v, cr, A0(a, drawn), b, stage, toB);
  }

  lemma HashTail(nonce: seq<byte>, h: seq<byte>)
    requires |nonce| == NONCE_LEN
    ensures HashOf(nonce + h) == h
  {}

  /** Under the intended contract the honest handshake is always accepted. */
  lemma IntendedAccepts(cr: Crypto, a: Session, b: Session, drawn: seq<byte>)
    requires Peers(cr, a, b, drawn)
    ensures Accepted(Intended, cr, A0(a, drawn), b)
  {
    var a0 := A0(a, drawn);
    HashTail(b.nonce, SentHash(Intended, cr, B2(cr, a0, b)));
    HashTail(a0.nonce, SentHash(Intended, cr, ASends(Intended, cr, a0, b)));
  }

  lemma WrittenVerdict(cr: Crypto, s: Session, k: seq<byte>, n: seq<byte>, l: seq<byte>, m: seq<byte>)
    requires GoodHash(cr) && s.remotePub != [] && HashOf(s.received) == Hashed(AsWritten, cr, k, n, l, m)
    ensures Verifies(AsWritten, cr, s) <==>
            !(Cut(k) == Cut(s.pub) && Cut(n) == Cut(s.nonce) && Cut(l) == Cut(s.remotePub)
                && Cut(m) == Cut(s.remoteNonce))
  {
    UpToZeroPrefix(ExpectedHash(AsWritten, cr, s));
  }

  /** The code as written accepts the honest handshake exactly when its departures from the contract make
      the H values wrong: as far as strlen sees them, the responder's second nonce differs from its first, and
      the initiator's does or the initiator had not yet stored the responder's nonce. */
  lemma WrittenAccepts(cr: Crypto, a: Session, b: Session, drawn: seq<byte>)
    requires Peers(cr, a, b, drawn) && GoodHash(cr)
    ensures Accepted(AsWritten, cr, A0(a, drawn), b) <==>
            Cut(b.nonce2) != Cut(b.nonce) && (Cut(a.nonce2) != Cut(drawn) || Cut(a.remoteNonce) != Cut(b.nonce))
  {
    var a0 := A0(a, drawn);
    HashTail(b.nonce, SentHash(AsWritten, cr, B2(cr, a0, b)));
    HashTail(a0.nonce, SentHash(AsWritten, cr, ASends(AsWritten, cr, a0, b)));
    WrittenVerdict(cr, A2(AsWritten, cr, a0, b), a0.pub, a0.nonce, b.pub, b.nonce2);
    WrittenVerdict(cr, B3(AsWritten, cr, a0, b), b.pub, a.remoteNonce, a0.pub, a.nonce2);
  }
}
