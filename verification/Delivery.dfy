/** The record exchange over the message engine: SMKEX hands each serialized record to the engine as
    the content of a plain message, and the receiver strips the type byte and parses. */
module Delivery {
  import opened Base
  import opened Payload
  import opened Pool
  import opened Codec
  import opened EngineSpec
  import opened World
  import opened Everywhere
  import opened Conservation
  import opened Quiescence

  /** The message that sendKeyOrNonce makes: always UID 1, with five retries. */
  function Packed(s: Serial, r: Record): Msg { MakeMsg(s, Encode(r), 1, 5, Message, false) }

  /** What processSmkexMessageSip sees of a packet. */
  function Unpacked(packet: seq<byte>): Option<Record> {
    match Unframe(packet)
    case None => None
    case Some(content) => match Decode(content) case None => None case Some(p) => Some(p.0)
  }

  /** Framing and parsing give the record back, whatever the message type and whatever bytes follow. */
  lemma PacketRoundTrip(k: Kind, r: Record, rest: seq<byte>)
    ensures Unpacked(Frame(k, Encode(r) + rest)) == Some(r)
  {
    assert Frame(k, Encode(r) + rest)[1..] == Encode(r) + rest;
    DecodeEncode(r, rest);
  }

  ghost predicate AllPacked(s: Serial, ms: seq<Msg>, recs: seq<Record>) {
    |ms| == |recs| && forall i :: 0 <= i < |ms| ==> ms[i] == Packed(s, recs[i])
  }

  /** The packets of `ms` are the records of `recs`, in order. */
  ghost predicate Conveys(ms: seq<Msg>, recs: seq<Record>) {
    |ms| == |recs| && forall i :: 0 <= i < |ms| ==> Unpacked(ms[i].payload) == Some(recs[i])
  }

  lemma PrefixConveys(s: Serial, added: seq<Msg>, confirmed: seq<Msg>, recs: seq<Record>)
    requires AllPacked(s, added, recs) && Bares(confirmed) <= Bares(added)
    ensures Conveys(confirmed, recs[..|confirmed|])
  {
    forall i | 0 <= i < |confirmed| ensures Unpacked(confirmed[i].payload) == Some(recs[i]) {
      assert Bares(confirmed)[i] == Bares(added)[i];
      PacketRoundTrip(Message, recs[i], []);
      assert Encode(recs[i]) + [] == Encode(recs[i]);
    }
  }

  lemma {:induction false} PastGrows(w: World, es: seq<Event>, v: World, s: Serial)
    requires Runs(w, es, v)
    ensures Past(w.added, s) <= Past(v.added, s)
    decreases |es|
  {
    if es != [] {
      PastStep(w, es[0], s);
      PastGrows(Next(w, es[0]), es[1..], v, s);
    }
  }

  lemma PastStep(w: World, e: Event, s: Serial)
    requires Enabled(w, e)
    ensures Past(Next(w, e).added, s) == Past(w.added, s) + if (e.Add? || e.Sync?) && e.m.serial == s then [e.m] else []
  {}

  predicate IsPacked(m: Msg) { m.retries == 5 && !m.processed }

  /** What is added for `s` in the run, as Past records it. */
  ghost predicate Adds(w: World, v: World, s: Serial, added: seq<Msg>) {
    Past(v.added, s) == Past(w.added, s) + added
  }

  /** Whatever holds of all messages added for `s` holds of every event that adds one. */
  lemma {:induction false} AddsAre(w: World, es: seq<Event>, v: World, s: Serial, added: seq<Msg>, f: Msg -> bool)
    requires Runs(w, es, v) && Adds(w, v, s, added) && All(added, f)
    ensures forall i :: 0 <= i < |es| && (es[i].Add? || es[i].Sync?) && es[i].m.serial == s ==> f(es[i].m)
    decreases |es|
  {
    if es != [] {
      var u, e := Next(w, es[0]), es[0];
      PastStep(w, e, s);
      PastGrows(u, es[1..], v, s);
      var rest := Past(v.added, s)[|Past(u.added, s)|..];
      if (e.Add? || e.Sync?) && e.m.serial == s {
        assert added[0] == Past(v.added, s)[|Past(w.added, s)|] == e.m;
        assert rest == added[1..];
      } else {
        assert rest == added;
      }
      AddsAre(u, es[1..], v, s, rest, f);
      forall i | 0 <= i < |es| && (es[i].Add? || es[i].Sync?) && es[i].m.serial == s ensures f(es[i].m) {
        if i > 0 { assert es[i] == es[1..][i - 1]; }
      }
    }
  }

  lemma PackedAdds(w: World, es: seq<Event>, v: World, s: Serial, added: seq<Msg>, recs: seq<Record>)
    requires Runs(w, es, v) && Adds(w, v, s, added) && AllPacked(s, added, recs)
    ensures UnprocessedAdds(es, s) && AddsSatisfy(es, FiveTries(s))
  {
    AddsAre(w, es, v, s, added, IsPacked);
  }

  // In order -------------------------------------------------------------------------------------

  /** The messages confirmed for `s` since `w` convey the first of the records, and the others are queued. */
  ghost predicate ConveyedSince(w: World, v: World, s: Serial, recs: seq<Record>) {
    && |Past(w.confirmed, s)| <= |Past(v.confirmed, s)|
    && var confirmed := Past(v.confirmed, s)[|Past(w.confirmed, s)|..];
    |confirmed| + |Queue(v.core, s)| == |recs| && Conveys(confirmed, recs[..|confirmed|])
  }

  lemma LedgerConveys(w: World, v: World, s: Serial, added: seq<Msg>, recs: seq<Record>)
    requires Ledger(v, s, |AddedTo(w, s)|, |ConfirmedTo(w, s)|, [])
    requires Adds(w, v, s, added) && AllPacked(s, added, recs)
    ensures ConveyedSince(w, v, s, recs)
  {
    var confirmed := Past(v.confirmed, s)[|Past(w.confirmed, s)|..];
    assert Bares(added) == AddedTo(v, s)[|Past(w.added, s)|..];
    assert Bares(confirmed) == ConfirmedTo(v, s)[|Past(w.confirmed, s)|..];
    assert [] + Bares(added) == Bares(added);
    PrefixConveys(s, added, confirmed, recs);
  }

  /** In any mode, switched at will, whatever the interleaving, whatever happens to other recipients and
      whatever was refused before, from any reachable state in which nothing is queued for `s`: if everything
      added for `s` since is a record and none is refused, the packets confirmed since parse to the first of
      those records, in the order they were added, each once, although all carry the same UID. */
  lemma RecordsInOrder(w0: World, before: seq<Event>, w: World, es: seq<Event>, v: World, s: Serial,
                       added: seq<Msg>, recs: seq<Record>)
    requires Initial(w0) && Runs(w0, before, w) && s !in w.core.pools
    requires Runs(w, es, v) && NoRefusals(w, es, s) && Adds(w, v, s, added) && AllPacked(s, added, recs)
    ensures ConveyedSince(w, v, s, recs)
  {
    EmptiedIsUntouched(w0, before, w, s);
    PackedAdds(w, es, v, s, added, recs);
    NothingLostWithoutRefusals(w0, before, w, es, v, s);
    LedgerConveys(w, v, s, added, recs);
  }

  /** While auto-resend stays on, refusals in the run do no harm either. */
  lemma RecordsInOrderInAutoMode(w0: World, before: seq<Event>, w: World, es: seq<Event>, v: World, s: Serial,
                                 added: seq<Msg>, recs: seq<Record>)
    requires Initial(w0) && Runs(w0, before, w) && s !in w.core.pools
    requires StaysAuto(w, es) && Runs(w, es, v) && Adds(w, v, s, added) && AllPacked(s, added, recs)
    ensures ConveyedSince(w, v, s, recs)
  {
    EmptiedIsUntouched(w0, before, w, s);
    NothingLostInAutoMode(w0, before, w, es, v, s);
    LedgerConveys(w, v, s, added, recs);
  }

  // All of them ----------------------------------------------------------------------------------

  function FiveTries(s: Serial): Msg -> bool { (m: Msg) => m.serial == s ==> m.retries == 5 }

  /** Before anything is added for `s`, no queued message is for it. */
  lemma NoneQueued(c: Core, s: Serial)
    requires RepInv(c) && s !in c.pools
    ensures Every(c, FiveTries(s))
  {
    forall t | t in c.pools ensures All(c.pools[t].messages, FiveTries(s)) { assert PoolInv(t, c.pools[t]); }
  }

  lemma {:induction false} AutoLasts(w: World, es: seq<Event>, v: World)
    requires StaysAuto(w, es) && Runs(w, es, v)
    ensures v.core.auto
    decreases |es|
  {
    if es != [] { AutoLasts(Next(w, es[0]), es[1..], v); }
  }

  lemma {:induction false} NoAddsInside(w: World, es: seq<Event>, v: World, s: Serial)
    requires AllInternal(es) && Runs(w, es, v)
    ensures Past(v.added, s) == Past(w.added, s)
    decreases |es|
  {
    if es != [] {
      PastStep(w, es[0], s);
      NoAddsInside(Next(w, es[0]), es[1..], v, s);
    }
  }

  /** While records are added for `s`: no refusal for it in any mode; or auto mode, and in the end its pool is
      gone or clean. */
  ghost predicate GoesWell(w: World, es: seq<Event>, v: World, s: Serial) {
    NoRefusals(w, es, s) || (StaysAuto(w, es) && (s in v.core.pools ==> !v.core.pools[s].dirty))
  }

  lemma RecordsSendable(w: World, es: seq<Event>, v: World, s: Serial)
    requires Inv(w) && s !in w.core.pools && Runs(w, es, v) && GoesWell(w, es, v, s)
    requires UnprocessedAdds(es, s) && AddsSatisfy(es, FiveTries(s))
    ensures Sendable(v.core, s)
  {
    NoneQueued(w.core, s);
    EveryRun(w, es, v, FiveTries(s));
    InvRun(w, es, v);
    if NoRefusals(w, es, s) { UntouchedRun(w, es, v, s); } else { AutoLasts(w, es, v); }
    if s in v.core.pools {
      assert PoolInv(s, v.core.pools[s]);
      assert All(v.core.pools[s].messages, FiveTries(s));
    }
  }

  /** Only heads are handed over to `s`, then and while the engine is left to itself. */
  lemma HeadsOnly(w: World, during: seq<Event>, u: World, es: seq<Event>, v: World, s: Serial)
    requires Inv(w) && s !in w.core.pools && Runs(w, during, u) && GoesWell(w, during, u, s) && UnprocessedAdds(during, s)
    requires AllInternal(es) && Runs(u, es, v) && NoRefusals(u, es, s)
    ensures HandsHeads(w, during, s) && HandsHeads(u, es, s)
  {
    InvRun(w, during, u);
    if NoRefusals(w, during, s) {
      UntouchedRun(w, during, u, s);
      forall i | 0 <= i < |es| ensures !es[i].Add? && !es[i].Sync? { assert Internal(es[i]); }
      UntouchedRun(u, es, v, s);
    } else {
      AutoHandsHeads(w, during, u, s);
      AutoLasts(w, during, u);
      AutoStays(u, es, v);
      AutoHandsHeads(u, es, v, s);
    }
  }

  lemma LedgerThrough(w: World, during: seq<Event>, u: World, es: seq<Event>, v: World, s: Serial)
    requires HeadInv(w, s) && Queue(w.core, s) == [] && Runs(w, during, u) && Runs(u, es, v)
    requires HandsHeads(w, during, s) && HandsHeads(u, es, s)
    ensures Ledger(v, s, |AddedTo(w, s)|, |ConfirmedTo(w, s)|, [])
  {
    var a, c := |AddedTo(w, s)|, |ConfirmedTo(w, s)|;
    LedgerRun(w, during, u, s, a, c, []);
    LedgerRun(u, es, v, s, a, c, []);
  }

  lemma QueueEmpties(w0: World, before: seq<Event>, w: World, during: seq<Event>, u: World, es: seq<Event>, v: World,
                     s: Serial)
    requires Initial(w0) && Runs(w0, before, w) && s !in w.core.pools
    requires Runs(w, during, u) && GoesWell(w, during, u, s)
    requires UnprocessedAdds(during, s) && AddsSatisfy(during, FiveTries(s))
    requires Awake(u) && AllInternal(es) && Runs(u, es, v) && NoRefusals(u, es, s) && AtRest(v)
    ensures s in v.core.pools ==> s in v.excused
  {
    InvRun(w0, before, w);
    RecordsSendable(w, during, u, s);
    RunsJoin(w0, before, w, during, u);
    Drained(w0, before + during, u, es, v, s);
  }

  /** And all of them arrive. From any reachable state `w` in which nothing is queued for `s`, whatever was
      refused or lost before: records are added for `s`, in any mode without a refusal or in auto mode. If then,
      in a state in which no wakeup is lost, the engine is left to itself and comes to rest without a refusal
      for `s`, every one of those records was confirmed, in order, unless `s` is excused. */
  lemma RecordsAllArrive(w0: World, before: seq<Event>, w: World, during: seq<Event>, u: World, es: seq<Event>, v: World,
                         s: Serial, added: seq<Msg>, recs: seq<Record>)
    requires Initial(w0) && Runs(w0, before, w) && s !in w.core.pools
    requires Runs(w, during, u) && GoesWell(w, during, u, s) && Adds(w, u, s, added) && AllPacked(s, added, recs)
    requires Awake(u) && AllInternal(es) && Runs(u, es, v) && NoRefusals(u, es, s) && AtRest(v)
    requires s !in v.excused
    ensures |Past(w.confirmed, s)| <= |Past(v.confirmed, s)|
    ensures Conveys(Past(v.confirmed, s)[|Past(w.confirmed, s)|..], recs)
  {
    EmptiedIsUntouched(w0, before, w, s);
    FlyingRun(w0, before, w);
    PackedAdds(w, during, u, s, added, recs);
    QueueEmpties(w0, before, w, during, u, es, v, s);
    HeadsOnly(w, during, u, es, v, s);
    LedgerThrough(w, during, u, es, v, s);
    NoAddsInside(u, es, v, s);
    LedgerConveys(w, v, s, added, recs);
    assert recs[..|recs|] == recs;
  }
}
