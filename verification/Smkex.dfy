/** The SMKEX key exchange of one peer (Smkex.cpp): what one record does to a session, and the class
    that does it in place. */
module Smkex {
  import opened Base
  import opened Codec

  const NONCE_LEN: nat := 8

  datatype Status =
    | NotConnected | WaitKeyNonceHDest | WaitNonceHDest | WaitKeyDest
    | WaitNonceInit | WaitKeyInit | WaitNonce2HInit | Connected

  /** The library calls: `hash` is calculateH(key1, nonce1, key2, nonce2), `dh` the derived key of a private
      and a public key, `valid` whether bytes are a point of the curve. */
  datatype Crypto = Crypto(
    hash: (seq<byte>, seq<byte>, seq<byte>, seq<byte>) -> seq<byte>,
    dh: (seq<byte>, seq<byte>) -> seq<byte>,
    valid: seq<byte> -> bool)

  /** The code, and the contract its header states for H: the check compares for equality, H covers whole keys
      and nonces and the nonce that is sent, and a nonce is stored before an H over it is computed. */
  datatype Variant = AsWritten | Intended

  datatype Session = Session(
    initiator: bool, status: Status,
    priv: seq<byte>, pub: seq<byte>, nonce: seq<byte>, nonce2: seq<byte>,
    remotePub: seq<byte>, remoteNonce: seq<byte>, sessionKey: seq<byte>,
    received: seq<byte>)   // the last nonce and H received

  /** A record handed to the message engine: the channel the code names, the type and the data. */
  datatype Out = Out(channel: nat, kind: byte, data: seq<byte>)

  /** Exits: the process calls exit. */
  datatype Reaction = Goes(session: Session, out: seq<Out>) | Exits

  // Pieces ---------------------------------------------------------------------------------

  function NonceOf(data: seq<byte>): seq<byte> { if |data| >= NONCE_LEN then data[..NONCE_LEN] else data }

  function HashOf(data: seq<byte>): seq<byte> { if |data| >= NONCE_LEN then data[NONCE_LEN..] else [] }

  /** memcpy over the start of a buffer. */
  function Overwrite(buffer: seq<byte>, data: seq<byte>): seq<byte> {
    data + if |data| < |buffer| then buffer[|data|..] else []
  }

  /** What strlen leaves of a buffer: the bytes before the first zero. */
  function Cut(s: seq<byte>): seq<byte> {
    if s == [] || s[0] == 0 then [] else [s[0]] + Cut(s[1..])
  }

  /** What strncmp looks at: the bytes up to and with the first zero. */
  function UpToZero(s: seq<byte>): seq<byte> {
    if s == [] then [] else if s[0] == 0 then [0] else [s[0]] + UpToZero(s[1..])
  }

  /** How calculateH sees a key or a nonce. */
  function Seen(v: Variant, s: seq<byte>): seq<byte> { if v == AsWritten then Cut(s) else s }

  function Hashed(v: Variant, cr: Crypto, key1: seq<byte>, nonce1: seq<byte>, key2: seq<byte>,
                  nonce2: seq<byte>): seq<byte> {
    cr.hash(Seen(v, key1), Seen(v, nonce1), Seen(v, key2), Seen(v, nonce2))
  }

  function SentHash(v: Variant, cr: Crypto, s: Session): seq<byte> {
    Hashed(v, cr, s.remotePub, s.remoteNonce, s.pub, if v == AsWritten then s.nonce2 else s.nonce)
  }

  function ExpectedHash(v: Variant, cr: Crypto, s: Session): seq<byte> {
    Hashed(v, cr, s.pub, s.nonce, s.remotePub, s.remoteNonce)
  }

  /** sendNonceH: nothing is sent without a remote key. */
  function NonceH(v: Variant, cr: Crypto, s: Session): seq<Out> {
    if s.remotePub == [] then [] else [Out(2, HANDSHAKE_NONCE_H, s.nonce + SentHash(v, cr, s))]
  }

  /** verifyH: the code returns strncmp itself, which is true when the values differ. */
  predicate Verifies(v: Variant, cr: Crypto, s: Session) {
    s.remotePub != [] &&
    match v
    case AsWritten => !(UpToZero(ExpectedHash(v, cr, s)) <= HashOf(s.received))
    case Intended => HashOf(s.received) == ExpectedHash(v, cr, s)
  }

  const ALERT_RECORD: Out := Out(1, ALERT, [97, 0])

  function Key(s: Session): Out { Out(1, HANDSHAKE_KEY, s.pub) }

  function Nonce(s: Session): Out { Out(1, HANDSHAKE_NONCE, s.nonce) }

  /** initSession on an existing session; `drawn` is the nonce it draws. */
  function Init(s: Session, drawn: seq<byte>): (Session, seq<Out>) {
    var t := s.(initiator := true);
    if s.status == WaitKeyNonceHDest then (t, [])
    else
      var u := t.(nonce := drawn, status := WaitKeyNonceHDest);
      (u, [Key(u), Nonce(u)])
  }

  /** Connect or give up, after an H was received. */
  function Conclude(v: Variant, cr: Crypto, s: Session, out: seq<Out>): Reaction {
    if Verifies(v, cr, s) then Goes(s.(status := Connected), out)
    else Goes(s.(status := NotConnected), out + [ALERT_RECORD])
  }

  function TakeKey(cr: Crypto, s: Session, data: seq<byte>): Session {
    s.(remotePub := data, sessionKey := cr.dh(s.priv, data))
  }

  // One record --------------------------------------------------------------------------------

  function ReceiveKey(v: Variant, cr: Crypto, s: Session, data: seq<byte>): Reaction {
    match s.status
    case NotConnected =>
      if !cr.valid(data) then Exits else Goes(TakeKey(cr, s, data).(status := WaitNonceInit), [Key(s)])
    case WaitKeyNonceHDest =>
      if !cr.valid(data) then Exits else Goes(TakeKey(cr, s, data).(status := WaitNonceHDest), [])
    case WaitKeyDest =>
      if !cr.valid(data) then Exits else
      var t := TakeKey(cr, s, data);
      Conclude(v, cr, t, NonceH(v, cr, t))
    case Connected => Goes(s.(remotePub := data, status := WaitNonceInit), [])
    case _ => Goes(s, [])
  }

  function ReceiveNonce(v: Variant, cr: Crypto, s: Session, data: seq<byte>): Reaction {
    var t := s.(remoteNonce := NonceOf(data));
    match s.status
    case WaitNonceInit => Goes(t.(status := WaitNonce2HInit), NonceH(v, cr, t))
    case WaitKeyNonceHDest => Goes(t.(received := Overwrite(s.received, data), status := WaitKeyDest), [])
    case Connected => Goes(t.(status := WaitKeyInit), [])
    case _ => Goes(s.(status := NotConnected), [ALERT_RECORD])
  }

  function ReceiveNonceH(v: Variant, cr: Crypto, s: Session, data: seq<byte>): Reaction {
    var r := s.(received := data);
    var t := r.(remoteNonce := NonceOf(data));
    match s.status
    case WaitKeyNonceHDest => Goes(t, [])
    case WaitNonceHDest => Conclude(v, cr, t, NonceH(v, cr, if v == AsWritten then r else t))
    case WaitNonce2HInit => Conclude(v, cr, t, [])
    case _ => Goes(r, [])
  }

  /** processSmkexMessageSip for a record of a peer with a session. */
  function Receive(v: Variant, cr: Crypto, s: Session, kind: byte, data: seq<byte>, drawn: seq<byte>): Reaction {
    if kind == HANDSHAKE_KEY then ReceiveKey(v, cr, s, data)
    else if kind == HANDSHAKE_NONCE then ReceiveNonce(v, cr, s, data)
    else if kind == HANDSHAKE_NONCE_H then ReceiveNonceH(v, cr, s, data)
    else if kind == ALERT then
      var t := s.(status := NotConnected);
      if s.initiator then var (u, out) := Init(t, drawn); Goes(u, out) else Goes(t, [])
    else if kind == APPLICATION_DATA then Goes(s, [])
    else Exits
  }

  lemma {:induction false} UpToZeroPrefix(s: seq<byte>)
    ensures UpToZero(s) <= s
  {
    if s != [] && s[0] != 0 { UpToZeroPrefix(s[1..]); }
  }

  /** The positions strncmp looks at are those with no zero before them. */
  lemma {:induction false} UpToZeroAt(s: seq<byte>, i: nat)
    requires i < |s|
    ensures i < |UpToZero(s)| <==> 0 !in s[..i]
    ensures i < |UpToZero(s)| ==> UpToZero(s)[i] == s[i]
  {
    if i > 0 {
      assert s[..i] == [s[0]] + s[1..][..i - 1];
      if s[0] != 0 { UpToZeroAt(s[1..], i - 1); }
    }
  }

  lemma UpToZeroAgrees(s: seq<byte>, t: seq<byte>)
    requires |s| <= |t|
    ensures UpToZero(s) <= t <==> forall i :: 0 <= i < |s| && 0 !in s[..i] ==> s[i] == t[i]
  {
    UpToZeroPrefix(s);
    forall i | 0 <= i < |s|
      ensures i < |UpToZero(s)| <==> 0 !in s[..i]
      ensures i < |UpToZero(s)| ==> UpToZero(s)[i] == s[i]
    {
      UpToZeroAt(s, i);
    }
  }

  /** The verdict of the code is that of strncmp, read as true when it is not zero: some byte differs, and no
      zero stands before it. */
  lemma WrittenCheckIsStrncmp(cr: Crypto, s: Session)
    requires s.remotePub != [] && |HashOf(s.received)| >= |ExpectedHash(AsWritten, cr, s)|
    ensures var h, got := ExpectedHash(AsWritten, cr, s), HashOf(s.received);
            Verifies(AsWritten, cr, s) <==> exists i :: 0 <= i < |h| && 0 !in h[..i] && h[i] != got[i]
  {
    UpToZeroAgrees(ExpectedHash(AsWritten, cr, s), HashOf(s.received));
  }

  lemma {:induction false} ZeroFree(s: seq<byte>)
    requires 0 !in s
    ensures Cut(s) == s && UpToZero(s) == s
  {
    if s != [] { ZeroFree(s[1..]); }
  }

  /** The check of the code against its contract: on values without zero bytes and with a received value of
      the right length, the code accepts exactly when the contract rejects. */
  lemma WrittenCheckIsInverted(cr: Crypto, s: Session)
    requires s.remotePub != [] && 0 !in s.pub && 0 !in s.nonce && 0 !in s.remotePub && 0 !in s.remoteNonce
    requires var h := ExpectedHash(Intended, cr, s); 0 !in h && |HashOf(s.received)| == |h|
    ensures Verifies(AsWritten, cr, s) <==> !Verifies(Intended, cr, s)
  {
    var h, got := ExpectedHash(Intended, cr, s), HashOf(s.received);
    ZeroFree(s.pub);
    ZeroFree(s.nonce);
    ZeroFree(s.remotePub);
    ZeroFree(s.remoteNonce);
    ZeroFree(h);
    if h <= got { assert got[..|h|] == got; }
  }

  // The class -----------------------------------------------------------------------------------

  class SessionInfo {
    var iAmSessionInitiator: bool
    var status: Status
    const privKey: seq<byte>
    const pubKey: seq<byte>
    var localNonce: seq<byte>
    const localNonce2: seq<byte>
    var remotePubKey: seq<byte>
    var remoteNonce: seq<byte>
    var sessionKey: seq<byte>
    var receivedNonceHValue: seq<byte>

    function Value(): Session
      reads this
    {
      Session(iAmSessionInitiator, status, privKey, pubKey, localNonce, localNonce2,
              remotePubKey, remoteNonce, sessionKey, receivedNonceHValue)
    }

    constructor (s: Session)
      ensures Value() == s
    {
      iAmSessionInitiator, status, privKey, pubKey := s.initiator, s.status, s.priv, s.pub;
      localNonce, localNonce2, remotePubKey, remoteNonce := s.nonce, s.nonce2, s.remotePub, s.remoteNonce;
      sessionKey, receivedNonceHValue := s.sessionKey, s.received;
    }
  }

  class Exchange {
    const variant: Variant
    const crypto: Crypto
    var keychain: map<Serial, SessionInfo>
    var outbox: seq<Out>
    var exited: bool

    constructor (variant: Variant, crypto: Crypto)
      ensures keychain == map[] && outbox == [] && !exited
      ensures this.variant == variant && this.crypto == crypto
    {
      this.variant, this.crypto := variant, crypto;
      keychain, outbox, exited := map[], [], false;
    }

    /** A buddy that already has a session keeps it, `force` or not: the map's insert never replaces. */
    method AddSessionInfo(buddy: Serial, session: SessionInfo, force: bool) returns (r: int)
      modifies this`keychain
      ensures r == 1
      ensures keychain == if buddy in old(keychain) then old(keychain) else old(keychain)[buddy := session]
    {
      if force {
        if buddy !in keychain { keychain := keychain[buddy := session]; }
      } else if buddy !in keychain {
        keychain := keychain[buddy := session];
      }
      r := 1;
    }

    method Send(out: Out)
      modifies this`outbox
      ensures outbox == old(outbox) + [out]
    {
      outbox := outbox + [out];
    }

    method InitSession(session: SessionInfo, drawn: seq<byte>)
      modifies session, this`outbox
      ensures (session.Value(), outbox) ==
              (Init(old(session.Value()), drawn).0, old(outbox) + Init(old(session.Value()), drawn).1)
    {
      session.iAmSessionInitiator := true;
      assert outbox + [] == outbox;
      if session.status != WaitKeyNonceHDest {
        session.localNonce := drawn;
        Send(Out(1, HANDSHAKE_KEY, session.pubKey));
        Send(Out(1, HANDSHAKE_NONCE, session.localNonce));
        session.status := WaitKeyNonceHDest;
        assert outbox == old(outbox) + [Key(session.Value()), Nonce(session.Value())];
      }
    }

    method CalculateH(key1: seq<byte>, nonce1: seq<byte>, key2: seq<byte>, nonce2: seq<byte>) returns (h: seq<byte>)
      ensures h == Hashed(variant, crypto, key1, nonce1, key2, nonce2)
    {
      h := crypto.hash(Seen(variant, key1), Seen(variant, nonce1), Seen(variant, key2), Seen(variant, nonce2));
    }

    method SendNonceH(session: SessionInfo) returns (sent: bool)
      modifies this`outbox
      ensures outbox == old(outbox) + NonceH(variant, crypto, session.Value())
      ensures sent == (session.remotePubKey != [])
    {
      if |session.remotePubKey| == 0 { return false; }
      var covered := if variant == AsWritten then session.localNonce2 else session.localNonce;
      var h := CalculateH(session.remotePubKey, session.remoteNonce, session.pubKey, covered);
      Send(Out(2, HANDSHAKE_NONCE_H, session.localNonce + h));
      sent := true;
    }

    method VerifyH(session: SessionInfo) returns (ok: bool)
      ensures ok == Verifies(variant, crypto, session.Value())
    {
      if |session.remotePubKey| == 0 { return false; }
      var h := CalculateH(session.pubKey, session.localNonce, session.remotePubKey, session.remoteNonce);
      var got := HashOf(session.receivedNonceHValue);
      ok := if variant == AsWritten then !(UpToZero(h) <= got) else got == h;
    }

    method Finish(session: SessionInfo)
      modifies session, this`outbox
      ensures Goes(session.Value(), outbox) == Conclude(variant, crypto, old(session.Value()), old(outbox))
    {
      var ok := VerifyH(session);
      if ok {
        session.status := Connected;
      } else {
        Send(ALERT_RECORD);
        session.status := NotConnected;
      }
    }

    /** False when the bytes are no curve point, which makes the process exit. */
    method ComputeAndStoreSessionKey(session: SessionInfo) returns (ok: bool)
      modifies session`sessionKey
      ensures ok == crypto.valid(session.remotePubKey)
      ensures session.Value() ==
              if ok then old(session.Value()).(sessionKey := crypto.dh(session.privKey, session.remotePubKey))
              else old(session.Value())
    {
      if !crypto.valid(session.remotePubKey) { return false; }
      session.sessionKey := crypto.dh(session.privKey, session.remotePubKey);
      ok := true;
    }

    /** What a method that follows `Receive` leaves behind. */
    twostate predicate Follows(new session: SessionInfo, r: Reaction)
      reads this, session
    {
      match r
      case Exits => exited
      case Goes(s, out) => session.Value() == s && outbox == old(outbox) + out && exited == old(exited)
    }

    method OnKey(session: SessionInfo, data: seq<byte>)
      modifies session, this`outbox, this`exited
      ensures Follows(session, ReceiveKey(variant, crypto, old(session.Value()), data))
    {
      match session.status
      case NotConnected =>
        session.remotePubKey := data;
        var ok := ComputeAndStoreSessionKey(session);
        if !ok { exited := true; return; }
        Send(Out(1, HANDSHAKE_KEY, session.pubKey));
        session.status := WaitNonceInit;
      case WaitKeyNonceHDest =>
        session.remotePubKey := data;
        var ok := ComputeAndStoreSessionKey(session);
        if !ok { exited := true; return; }
        session.status := WaitNonceHDest;
      case WaitKeyDest =>
        session.remotePubKey := data;
        var ok := ComputeAndStoreSessionKey(session);
        if !ok { exited := true; return; }
        var sent := SendNonceH(session);
        Finish(session);
      case Connected =>
        session.remotePubKey := data;
        session.status := WaitNonceInit;
      case _ =>
    }

    method OnNonce(session: SessionInfo, data: seq<byte>)
      modifies session, this`outbox
      ensures Follows(session, ReceiveNonce(variant, crypto, old(session.Value()), data))
    {
      match session.status
      case WaitNonceInit =>
        session.remoteNonce := NonceOf(data);
        var sent := SendNonceH(session);
        session.status := WaitNonce2HInit;
      case WaitKeyNonceHDest =>
        session.remoteNonce := NonceOf(data);
        session.receivedNonceHValue := Overwrite(session.receivedNonceHValue, data);
        session.status := WaitKeyDest;
      case Connected =>
        session.remoteNonce := NonceOf(data);
        session.status := WaitKeyInit;
      case _ =>
        Send(ALERT_RECORD);
        session.status := NotConnected;
    }

    method OnNonceH(session: SessionInfo, data: seq<byte>)
      modifies session, this`outbox
      ensures Follows(session, ReceiveNonceH(variant, crypto, old(session.Value()), data))
    {
      session.receivedNonceHValue := data;
      match session.status
      case WaitKeyNonceHDest =>
        session.remoteNonce := NonceOf(data);
      case WaitNonceHDest =>
        if variant == Intended { session.remoteNonce := NonceOf(data); }
        var sent := SendNonceH(session);
        session.remoteNonce := NonceOf(data);
        Finish(session);
      case WaitNonce2HInit =>
        session.remoteNonce := NonceOf(data);
        Finish(session);
      case _ =>
    }

    method OnRecord(session: SessionInfo, kind: byte, data: seq<byte>, drawn: seq<byte>)
      modifies session, this`outbox, this`exited
      ensures Follows(session, Receive(variant, crypto, old(session.Value()), kind, data, drawn))
    {
      if kind == HANDSHAKE_KEY {
        OnKey(session, data);
      } else if kind == HANDSHAKE_NONCE {
        OnNonce(session, data);
      } else if kind == HANDSHAKE_NONCE_H {
        OnNonceH(session, data);
      } else if kind == ALERT {
        session.status := NotConnected;
        if session.iAmSessionInitiator { InitSession(session, drawn); }
      } else if kind != APPLICATION_DATA {
        exited := true;
      }
    }

    /** A message from `buddy`: the type byte is skipped and the record parsed; an unknown buddy gets a
        new session, here `blank`, in which this side is not the initiator. */
    method ProcessMessage(msg: array<byte>, buddy: Serial, blank: Session, drawn: seq<byte>) returns (r: int)
      requires msg.Length > 0
      modifies this`keychain, this`outbox, this`exited, if buddy in keychain then {keychain[buddy]} else {}
      ensures match Decode(msg[1..])
              case None => r == 0 && unchanged(this) && (buddy in old(keychain) ==> unchanged(old(keychain[buddy])))
              case Some(p) =>
                && r == 1 && buddy in keychain && keychain == old(keychain)[buddy := keychain[buddy]]
                && (if buddy in old(keychain) then keychain == old(keychain) else fresh(keychain[buddy]))
                && Follows(keychain[buddy],
                     Receive(variant, crypto,
                             if buddy in old(keychain) then old(keychain[buddy].Value())
                                 else blank.(initiator := false),
                             p.0.kind, p.0.data, drawn))
    {
      var rec := GetRecordFromSerial(msg, 1);
      if rec == None { return 0; }
      var session: SessionInfo;
      if buddy in keychain {
        session := keychain[buddy];
      } else {
        session := new SessionInfo(blank.(initiator := false));
        var added := AddSessionInfo(buddy, session, true);
      }
      OnRecord(session, rec.value.kind, rec.value.data, drawn);
      r := 1;
    }
  }
}
