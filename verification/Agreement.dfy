/** Key agreement when one of the two channels is in other hands: exactly when it holds. */
module Agreement {
  import opened Base
  import opened Codec
  import opened Smkex
  import opened Handshake

  /** Keys and alerts travel on channel 1, nonces and H on channel 2. */
  function ChannelOf(kind: byte): nat { if kind == HANDSHAKE_NONCE || kind == HANDSHAKE_NONCE_H then 2 else 1 }

  /** Two peers and every record each of them has sent so far. */
  datatype Duo = Duo(a: Session, b: Session, fromA: set<Out>, fromB: set<Out>)

  function Elements(out: seq<Out>): set<Out> { set i | 0 <= i < |out| :: out[i] }

  datatype Move =
    | InitA(drawn: seq<byte>) | InitB(drawn: seq<byte>)
    | ToA(kind: byte, data: seq<byte>, drawn: seq<byte>)
    | ToB(kind: byte, data: seq<byte>, drawn: seq<byte>)

  /** On the honest channel only records that the peer did send arrive, in any order and any number; on
      channel `bad` anything may arrive at any time. */
  ghost predicate Arrives(bad: nat, kind: byte, data: seq<byte>, sent: set<Out>) {
    ChannelOf(kind) == bad || exists o :: o in sent && o.kind == kind && o.data == data
  }

  ghost predicate Allowed(v: Variant, cr: Crypto, bad: nat, d: Duo, m: Move) {
    match m
    case InitA(drawn) => |drawn| == NONCE_LEN
    case InitB(drawn) => |drawn| == NONCE_LEN
    case ToA(kind, data, drawn) =>
      |drawn| == NONCE_LEN && Arrives(bad, kind, data, d.fromB) && Receive(v, cr, d.a, kind, data, drawn).Goes?
    case ToB(kind, data, drawn) =>
      |drawn| == NONCE_LEN && Arrives(bad, kind, data, d.fromA) && Receive(v, cr, d.b, kind, data, drawn).Goes?
  }

  function After(v: Variant, cr: Crypto, d: Duo, m: Move): Duo {
    match m
    case InitA(drawn) => var (s, out) := Init(d.a, drawn); d.(a := s, fromA := d.fromA + Elements(out))
    case InitB(drawn) => var (s, out) := Init(d.b, drawn); d.(b := s, fromB := d.fromB + Elements(out))
    case ToA(kind, data, drawn) =>
      (match Receive(v, cr, d.a, kind, data, drawn)
       case Exits => d
       case Goes(s, out) => d.(a := s, fromA := d.fromA + Elements(out)))
    case ToB(kind, data, drawn) =>
      (match Receive(v, cr, d.b, kind, data, drawn)
       case Exits => d
       case Goes(s, out) => d.(b := s, fromB := d.fromB + Elements(out)))
  }

  ghost predicate Moves(v: Variant, cr: Crypto, bad: nat, d: Duo, ms: seq<Move>, e: Duo)
    decreases |ms|
  {
    if ms == [] then d == e
    else Allowed(v, cr, bad, d, ms[0]) && Moves(v, cr, bad, After(v, cr, d, ms[0]), ms[1..], e)
  }

  // What one peer's records say ------------------------------------------------------------------

  /** A record of a peer with public key `pub`: its key, or an H over its key. */
  ghost predicate Genuine(v: Variant, cr: Crypto, pub: seq<byte>, o: Out) {
    && (o.kind == HANDSHAKE_KEY ==> o.data == pub)
    && (o.kind == HANDSHAKE_NONCE ==> |o.data| == NONCE_LEN)
    && (o.kind == HANDSHAKE_NONCE_H ==> |o.data| >= NONCE_LEN && HashOver(v, cr, pub, HashOf(o.data)))
  }

  ghost predicate HashOver(v: Variant, cr: Crypto, pub: seq<byte>, h: seq<byte>) {
    exists k, n, m :: h == cr.hash(k, n, Seen(v, pub), m)
  }

  lemma HashIsOver(v: Variant, cr: Crypto, s: Session)
    requires |s.nonce| == NONCE_LEN
    ensures forall i :: 0 <= i < |NonceH(v, cr, s)| ==> Genuine(v, cr, s.pub, NonceH(v, cr, s)[i])
  {
    HashTail(s.nonce, SentHash(v, cr, s));
    assert HashOver(v, cr, s.pub, SentHash(v, cr, s));
  }

  /** Everything a peer sends is genuine, and its keys and the length of its nonce stay. */
  lemma SendsGenuine(v: Variant, cr: Crypto, s: Session, kind: byte, data: seq<byte>, drawn: seq<byte>)
    requires |s.nonce| == NONCE_LEN && |drawn| == NONCE_LEN
    requires Receive(v, cr, s, kind, data, drawn).Goes?
    ensures var Goes(t, out) := Receive(v, cr, s, kind, data, drawn);
            && t.priv == s.priv && t.pub == s.pub && |t.nonce| == NONCE_LEN
            && forall i :: 0 <= i < |out| ==> Genuine(v, cr, s.pub, out[i])
  {
    if kind == HANDSHAKE_NONCE_H { NonceHGenuine(v, cr, s, data); }
    else if kind == HANDSHAKE_KEY { HashIsOver(v, cr, TakeKey(cr, s, data)); }
    else if kind == HANDSHAKE_NONCE { HashIsOver(v, cr, s.(remoteNonce := NonceOf(data))); }
  }

  lemma NonceHGenuine(v: Variant, cr: Crypto, s: Session, data: seq<byte>)
    requires |s.nonce| == NONCE_LEN
    ensures var Goes(t, out) := ReceiveNonceH(v, cr, s, data);
            && t.priv == s.priv && t.pub == s.pub && |t.nonce| == NONCE_LEN
            && forall i :: 0 <= i < |out| ==> Genuine(v, cr, s.pub, out[i])
  {
    HashIsOver(v, cr, s.(remoteNonce := NonceOf(data), received := data));
    HashIsOver(v, cr, s.(received := data));
  }

  // What one peer believes -----------------------------------------------------------------------

  predicate HasKey(st: Status) {
    st == WaitNonceHDest || st == WaitNonceInit || st == WaitNonce2HInit || st == Connected
  }

  /** The session key belongs to the stored remote key, or already to the peer's true key. */
  predicate Keyed(cr: Crypto, s: Session, peer: seq<byte>) {
    s.sessionKey == cr.dh(s.priv, s.remotePub) || s.sessionKey == cr.dh(s.priv, peer)
  }

  predicate TrueKey(cr: Crypto, s: Session, peer: seq<byte>) {
    s.remotePub == peer && s.sessionKey == cr.dh(s.priv, peer)
  }

  /** When the channel of the keys is in other hands: the H received is the peer's, or none. */
  ghost predicate BelievesH(cr: Crypto, s: Session, peer: seq<byte>) {
    && (HasKey(s.status) ==> Keyed(cr, s, peer))
    && (s.status == Connected ==> TrueKey(cr, s, peer))
    && (HashOf(s.received) == [] || HashOver(Intended, cr, peer, HashOf(s.received)))
  }

  /** When the channel of the nonces is in other hands: every key taken is the peer's. */
  predicate BelievesKey(cr: Crypto, s: Session, peer: seq<byte>) {
    HasKey(s.status) ==> TrueKey(cr, s, peer)
  }

  lemma VerifiedKey(cr: Crypto, s: Session, peer: seq<byte>)
    requires SoundHash(cr) && Verifies(Intended, cr, s)
    requires HashOf(s.received) == [] || HashOver(Intended, cr, peer, HashOf(s.received))
    ensures s.remotePub == peer
  {
    var k, n, m :| HashOf(s.received) == cr.hash(k, n, Seen(Intended, peer), m);
  }

  lemma ConcludesTrue(cr: Crypto, s: Session, peer: seq<byte>, out: seq<Out>)
    requires SoundHash(cr) && Keyed(cr, s, peer)
    requires HashOf(s.received) == [] || HashOver(Intended, cr, peer, HashOf(s.received))
    ensures BelievesH(cr, Conclude(Intended, cr, s, out).session, peer)
  {
    if Verifies(Intended, cr, s) { VerifiedKey(cr, s, peer); }
  }

  lemma OverwrittenNonce(buffer: seq<byte>, data: seq<byte>)
    requires |data| == NONCE_LEN
    ensures HashOf(Overwrite(buffer, data)) == HashOf(buffer)
  {}

  lemma KeepsBelievingH(cr: Crypto, s: Session, peer: seq<byte>, kind: byte, data: seq<byte>, drawn: seq<byte>)
    requires SoundHash(cr) && BelievesH(cr, s, peer) && Receive(Intended, cr, s, kind, data, drawn).Goes?
    requires ChannelOf(kind) == 2 ==> Genuine(Intended, cr, peer, Out(2, kind, data))
    ensures BelievesH(cr, Receive(Intended, cr, s, kind, data, drawn).session, peer)
  {
    if kind == HANDSHAKE_KEY { KeyKeepsH(cr, s, peer, data); }
    else if kind == HANDSHAKE_NONCE { OverwrittenNonce(s.received, data); }
    else if kind == HANDSHAKE_NONCE_H { NonceHKeepsH(cr, s, peer, data); }
  }

  lemma KeyKeepsH(cr: Crypto, s: Session, peer: seq<byte>, data: seq<byte>)
    requires SoundHash(cr) && BelievesH(cr, s, peer) && ReceiveKey(Intended, cr, s, data).Goes?
    ensures BelievesH(cr, ReceiveKey(Intended, cr, s, data).session, peer)
  {
    if s.status == WaitKeyDest {
      var t := TakeKey(cr, s, data);
      ConcludesTrue(cr, t, peer, NonceH(Intended, cr, t));
    }
  }

  lemma NonceHKeepsH(cr: Crypto, s: Session, peer: seq<byte>, data: seq<byte>)
    requires SoundHash(cr) && BelievesH(cr, s, peer) && HashOver(Intended, cr, peer, HashOf(data))
    ensures BelievesH(cr, ReceiveNonceH(Intended, cr, s, data).session, peer)
  {
    if s.status == WaitNonceHDest || s.status == WaitNonce2HInit {
      var t := s.(received := data, remoteNonce := NonceOf(data));
      ConcludesTrue(cr, t, peer, if s.status == WaitNonceHDest then NonceH(Intended, cr, t) else []);
    }
  }

  lemma KeepsBelievingKey(v: Variant, cr: Crypto, s: Session, peer: seq<byte>, kind: byte, data: seq<byte>,
                          drawn: seq<byte>)
    requires BelievesKey(cr, s, peer) && Receive(v, cr, s, kind, data, drawn).Goes?
    requires ChannelOf(kind) == 1 ==> Genuine(v, cr, peer, Out(1, kind, data))
    ensures BelievesKey(cr, Receive(v, cr, s, kind, data, drawn).session, peer)
  {
    if kind == HANDSHAKE_NONCE_H { NonceHKeepsKey(v, cr, s, peer, data); }
  }

  lemma NonceHKeepsKey(v: Variant, cr: Crypto, s: Session, peer: seq<byte>, data: seq<byte>)
    requires BelievesKey(cr, s, peer)
    ensures BelievesKey(cr, ReceiveNonceH(v, cr, s, data).session, peer)
  {}

  ghost predicate Believes(cr: Crypto, bad: nat, s: Session, peer: seq<byte>) {
    if bad == 1 then BelievesH(cr, s, peer) else BelievesKey(cr, s, peer)
  }

  ghost predicate AllGenuine(v: Variant, cr: Crypto, pub: seq<byte>, sent: set<Out>) {
    forall o :: o in sent ==> Genuine(v, cr, pub, o)
  }

  /** The invariant of one peer `s` towards a peer with key `peer`. */
  ghost predicate Side(v: Variant, cr: Crypto, bad: nat, s: Session, sent: set<Out>, peer: seq<byte>) {
    |s.nonce| == NONCE_LEN && AllGenuine(v, cr, s.pub, sent) && Believes(cr, bad, s, peer)
  }

  /** The channel in other hands is that of the nonces; or it is that of the keys and H is checked as its
      contract says. */
  ghost predicate Protected(v: Variant, cr: Crypto, bad: nat) {
    bad == 2 || (bad == 1 && v == Intended && SoundHash(cr))
  }

  lemma SideReceives(v: Variant, cr: Crypto, bad: nat, s: Session, sent: set<Out>, peer: seq<byte>, peerSent: set<Out>,
                     kind: byte, data: seq<byte>, drawn: seq<byte>)
    requires Protected(v, cr, bad) && |drawn| == NONCE_LEN
    requires Side(v, cr, bad, s, sent, peer) && AllGenuine(v, cr, peer, peerSent)
    requires Arrives(bad, kind, data, peerSent) && Receive(v, cr, s, kind, data, drawn).Goes?
    ensures var Goes(t, out) := Receive(v, cr, s, kind, data, drawn);
            Side(v, cr, bad, t, sent + Elements(out), peer) && t.priv == s.priv && t.pub == s.pub
  {
    SendsGenuine(v, cr, s, kind, data, drawn);
    if ChannelOf(kind) != bad {
      var o :| o in peerSent && o.kind == kind && o.data == data;
      assert Genuine(v, cr, peer, o);
    }
    if bad == 1 { KeepsBelievingH(cr, s, peer, kind, data, drawn); }
    else { KeepsBelievingKey(v, cr, s, peer, kind, data, drawn); }
  }

  lemma SideInits(v: Variant, cr: Crypto, bad: nat, s: Session, sent: set<Out>, peer: seq<byte>, drawn: seq<byte>)
    requires |drawn| == NONCE_LEN && Side(v, cr, bad, s, sent, peer)
    ensures var (t, out) := Init(s, drawn);
            Side(v, cr, bad, t, sent + Elements(out), peer) && t.priv == s.priv && t.pub == s.pub
  {}

  /** Invariant of both peers; `a0` and `b0` are the sessions they started from. */
  ghost predicate DuoInv(v: Variant, cr: Crypto, bad: nat, a0: Session, b0: Session, d: Duo) {
    && d.a.priv == a0.priv && d.a.pub == a0.pub && d.b.priv == b0.priv && d.b.pub == b0.pub
    && Side(v, cr, bad, d.a, d.fromA, b0.pub)
    && Side(v, cr, bad, d.b, d.fromB, a0.pub)
  }

  lemma DuoStep(v: Variant, cr: Crypto, bad: nat, a0: Session, b0: Session, d: Duo, m: Move)
    requires Protected(v, cr, bad)
    requires DuoInv(v, cr, bad, a0, b0, d) && Allowed(v, cr, bad, d, m)
    ensures DuoInv(v, cr, bad, a0, b0, After(v, cr, d, m))
  {
    match m
    case InitA(drawn) => SideInits(v, cr, bad, d.a, d.fromA, b0.pub, drawn);
    case InitB(drawn) => SideInits(v, cr, bad, d.b, d.fromB, a0.pub, drawn);
    case ToA(kind, data, drawn) => SideReceives(v, cr, bad, d.a, d.fromA, b0.pub, d.fromB, kind, data, drawn);
    case ToB(kind, data, drawn) => SideReceives(v, cr, bad, d.b, d.fromB, a0.pub, d.fromA, kind, data, drawn);
  }

  lemma {:induction false} DuoRun(v: Variant, cr: Crypto, bad: nat, a0: Session, b0: Session, d: Duo,
                                  ms: seq<Move>, e: Duo)
    requires Protected(v, cr, bad)
    requires DuoInv(v, cr, bad, a0, b0, d) && Moves(v, cr, bad, d, ms, e)
    ensures DuoInv(v, cr, bad, a0, b0, e)
    decreases |ms|
  {
    if ms != [] {
      DuoStep(v, cr, bad, a0, b0, d, ms[0]);
      DuoRun(v, cr, bad, a0, b0, After(v, cr, d, ms[0]), ms[1..], e);
    }
  }

  /** A session before any record, with no H received yet. */
  predicate Blank(s: Session) {
    s.status == NotConnected && s.received == [] && |s.nonce| == NONCE_LEN
  }

  /** A connected peer holds the other's true public key and the session key of the two key pairs, and two
      connected peers hold the same session key. */
  predicate Agree(cr: Crypto, a0: Session, b0: Session, d: Duo) {
    && (d.a.status == Connected ==> d.a.remotePub == b0.pub && d.a.sessionKey == cr.dh(a0.priv, b0.pub))
    && (d.b.status == Connected ==> d.b.remotePub == a0.pub && d.b.sessionKey == cr.dh(b0.priv, a0.pub))
    && (d.a.status == Connected && d.b.status == Connected ==> d.a.sessionKey == d.b.sessionKey)
  }

  /** Agreement: as documented whichever one of the two channels is in other hands, and as written when it
      is that of the nonces; whatever is injected, dropped, replayed or reordered there, and however often
      either side restarts. */
  lemma AgreementHolds(v: Variant, cr: Crypto, bad: nat, a0: Session, b0: Session, ms: seq<Move>, d: Duo)
    requires Protected(v, cr, bad)
    requires Blank(a0) && Blank(b0) && cr.dh(a0.priv, b0.pub) == cr.dh(b0.priv, a0.pub)
    requires Moves(v, cr, bad, Duo(a0, b0, {}, {}), ms, d)
    ensures Agree(cr, a0, b0, d)
  {
    DuoRun(v, cr, bad, a0, b0, Duo(a0, b0, {}, {}), ms, d);
  }

  // As written -----------------------------------------------------------------------------------

  /** The check as written accepts the H of another key, as far as strncmp tells it from the expected one. */
  lemma OtherKeyAccepted(cr: Crypto, s: Session, data: seq<byte>)
    requires s.status == WaitNonceHDest && s.remotePub != []
    requires var t := s.(remoteNonce := NonceOf(data)); !(UpToZero(ExpectedHash(AsWritten, cr, t)) <= HashOf(data))
    ensures Receive(AsWritten, cr, s, HANDSHAKE_NONCE_H, data, []).Goes?
    ensures var t := Receive(AsWritten, cr, s, HANDSHAKE_NONCE_H, data, []).session;
            t.status == Connected && t.remotePub == s.remotePub
  {}

  /** strncmp tells the H that the initiator expects with the key `other` from the H the responder sends. */
  ghost predicate ToldApart(cr: Crypto, a0: Session, b0: Session, drawn: seq<byte>, other: seq<byte>) {
    var expected, sent :=
      Hashed(AsWritten, cr, a0.pub, drawn, other, b0.nonce), Hashed(AsWritten, cr, a0.pub, drawn, b0.pub, b0.nonce2);
    !(UpToZero(expected) <= sent)
  }

  /** It does for every key that strlen tells from the responder's, if it tells any two H apart. */
  lemma GoodHashTellsApart(cr: Crypto, a0: Session, b0: Session, drawn: seq<byte>, other: seq<byte>)
    requires GoodHash(cr) && Cut(other) != Cut(b0.pub)
    ensures ToldApart(cr, a0, b0, drawn, other)
  {}

  lemma SentOne(sent: set<Out>, o: Out)
    ensures o in sent + Elements([o])
  {
    assert [o][0] == o;
  }

  lemma SentTwo(sent: set<Out>, o: Out, p: Out)
    ensures o in sent + Elements([o, p]) && p in sent + Elements([o, p])
  {
    assert [o, p][0] == o && [o, p][1] == p;
  }

  /** What the responder has sent once the initiator's key and nonce arrived. */
  lemma ResponderAnswers(cr: Crypto, a0: Session, b0: Session, drawn: seq<byte>) returns (ms: seq<Move>, d: Duo)
    requires Blank(a0) && Blank(b0) && cr.valid(a0.pub) && a0.pub != [] && |drawn| == NONCE_LEN
    ensures Moves(AsWritten, cr, 1, Duo(a0, b0, {}, {}), ms, d)
    ensures d.a == A0(a0, drawn) && ReplyB(AsWritten, cr, d.a, b0) in d.fromB
  {
    var d0 := Duo(a0, b0, {}, {});
    var m1, m2, m3 := InitA(drawn), ToB(HANDSHAKE_KEY, a0.pub, drawn), ToB(HANDSHAKE_NONCE, drawn, drawn);
    var a1 := A0(a0, drawn);
    SentTwo({}, Key(a1), Nonce(a1));
    var d1 := After(AsWritten, cr, d0, m1);
    assert d1 == Duo(a1, b0, {} + Elements([Key(a1), Nonce(a1)]), {});
    var d2 := After(AsWritten, cr, d1, m2);
    assert d2.a == a1 && d2.b == B1(cr, a1, b0) && d2.fromA == d1.fromA;
    assert Nonce(a1) in d2.fromA && NonceOf(drawn) == drawn;
    d := After(AsWritten, cr, d2, m3);
    var out := [ReplyB(AsWritten, cr, a1, b0)];
    assert Receive(AsWritten, cr, d2.b, HANDSHAKE_NONCE, drawn, drawn) == Goes(B2(cr, a1, b0), out);
    SentOne(d2.fromB, ReplyB(AsWritten, cr, a1, b0));
    ms := [m1] + ([m2] + ([m3] + []));
    MovesCons(cr, d2, m3, d, [], d);
    MovesCons(cr, d1, m2, d2, [m3] + [], d);
    MovesCons(cr, d0, m1, d1, [m2] + ([m3] + []), d);
  }

  lemma MovesCons(cr: Crypto, d: Duo, m: Move, e: Duo, ms: seq<Move>, f: Duo)
    requires Allowed(AsWritten, cr, 1, d, m) && After(AsWritten, cr, d, m) == e && Moves(AsWritten, cr, 1, e, ms, f)
    ensures Moves(AsWritten, cr, 1, d, [m] + ms, f)
  {
    assert ([m] + ms)[1..] == ms;
  }

  lemma {:induction false} MovesJoin(cr: Crypto, d: Duo, ms: seq<Move>, e: Duo, ns: seq<Move>, f: Duo)
    requires Moves(AsWritten, cr, 1, d, ms, e) && Moves(AsWritten, cr, 1, e, ns, f)
    ensures Moves(AsWritten, cr, 1, d, ms + ns, f)
    decreases |ms|
  {
    if ms == [] {
      assert ms + ns == ns;
    } else {
      MovesJoin(cr, After(AsWritten, cr, d, ms[0]), ms[1..], e, ns, f);
      assert (ms + ns)[1..] == ms[1..] + ns;
    }
  }

  /** A run as written, from two blank sessions, after which one side is connected under a key that is not
      the peer's. */
  lemma WrittenDisagrees(cr: Crypto, a0: Session, b0: Session, drawn: seq<byte>, other: seq<byte>)
    returns (ms: seq<Move>, d: Duo)
    requires Blank(a0) && Blank(b0) && |drawn| == NONCE_LEN && ToldApart(cr, a0, b0, drawn, other)
    requires cr.valid(a0.pub) && a0.pub != [] && cr.valid(other) && other != [] && other != b0.pub
    ensures Moves(AsWritten, cr, 1, Duo(a0, b0, {}, {}), ms, d) && !Agree(cr, a0, b0, d)
  {
    var ms1, d3 := ResponderAnswers(cr, a0, b0, drawn);
    var reply := ReplyB(AsWritten, cr, d3.a, b0);
    var m4, m5 := ToA(HANDSHAKE_KEY, other, drawn), ToA(HANDSHAKE_NONCE_H, reply.data, drawn);
    var d4 := After(AsWritten, cr, d3, m4);
    assert d4.a == TakeKey(cr, d3.a, other).(status := WaitNonceHDest) && d3.fromB <= d4.fromB;
    HashTail(b0.nonce, SentHash(AsWritten, cr, B2(cr, d3.a, b0)));
    NonceHead(b0.nonce, SentHash(AsWritten, cr, B2(cr, d3.a, b0)));
    OtherKeyAccepted(cr, d4.a, reply.data);
    d := After(AsWritten, cr, d4, m5);
    assert Moves(AsWritten, cr, 1, d, [], d);
    MovesCons(cr, d4, m5, d, [], d);
    MovesCons(cr, d3, m4, d4, [m5] + [], d);
    MovesJoin(cr, Duo(a0, b0, {}, {}), ms1, d3, [m4] + ([m5] + []), d);
    ms := ms1 + ([m4] + ([m5] + []));
  }

  ghost predicate AlwaysAgree(v: Variant, cr: Crypto, bad: nat, a0: Session, b0: Session) {
    forall ms, d :: Moves(v, cr, bad, Duo(a0, b0, {}, {}), ms, d) ==> Agree(cr, a0, b0, d)
  }

  /** The documented check keeps agreement in all runs, whichever channel is in other hands. */
  lemma IntendedAgreement(cr: Crypto, bad: nat, a0: Session, b0: Session)
    requires SoundHash(cr) && (bad == 1 || bad == 2)
    requires Blank(a0) && Blank(b0) && cr.dh(a0.priv, b0.pub) == cr.dh(b0.priv, a0.pub)
    ensures AlwaysAgree(Intended, cr, bad, a0, b0)
  {
    forall ms, d | Moves(Intended, cr, bad, Duo(a0, b0, {}, {}), ms, d) ensures Agree(cr, a0, b0, d) {
      AgreementHolds(Intended, cr, bad, a0, b0, ms, d);
    }
  }

  /** The code as written keeps it if and only if the channel in other hands is that of the nonces, so the
      channel of the keys is the honest one. Of H nothing is assumed but one inequality. */
  lemma WrittenAgreement(cr: Crypto, bad: nat, a0: Session, b0: Session, drawn: seq<byte>, other: seq<byte>)
    requires (bad == 1 || bad == 2) && |drawn| == NONCE_LEN && ToldApart(cr, a0, b0, drawn, other)
    requires Blank(a0) && Blank(b0) && cr.dh(a0.priv, b0.pub) == cr.dh(b0.priv, a0.pub)
    requires cr.valid(a0.pub) && a0.pub != [] && cr.valid(other) && other != [] && other != b0.pub
    ensures AlwaysAgree(AsWritten, cr, bad, a0, b0) <==> bad == 2
  {
    if bad == 2 {
      forall ms, d | Moves(AsWritten, cr, 2, Duo(a0, b0, {}, {}), ms, d) ensures Agree(cr, a0, b0, d) {
        AgreementHolds(AsWritten, cr, 2, a0, b0, ms, d);
      }
    } else {
      var ms, d := WrittenDisagrees(cr, a0, b0, drawn, other);
    }
  }
}
