/** Properties of single messages that no operation of the engine can spoil. */
module Everywhere {
  import opened Base
  import opened Payload
  import opened Pool
  import opened Transport
  import opened EngineSpec
  import opened World

  /** A property that does not look at the processed mark. */
  ghost predicate MarkBlind(f: Msg -> bool) {
    forall m: Msg, b: bool :: f(m.(processed := b)) == f(m)
  }

  ghost predicate All(ms: seq<Msg>, f: Msg -> bool) {
    forall i :: 0 <= i < |ms| ==> f(ms[i])
  }

  ghost predicate Every(c: Core, f: Msg -> bool) {
    forall s :: s in c.pools ==> All(c.pools[s].messages, f)
  }

  lemma MarkedAll(ms: seq<Msg>, uid: int, processed: bool, f: Msg -> bool)
    requires MarkBlind(f) && All(ms, f)
    ensures All(MarkUid(ms, uid, processed), f) && All(MarkAll(ms, processed), f) && All(RemoveUid(ms, uid), f)
  {
    forall i | 0 <= i < |ms| ensures f(ms[i].(processed := processed)) {}
  }

  lemma AddEvery(c: Core, m: Msg, f: Msg -> bool)
    requires MarkBlind(f) && Every(c, f) && f(m)
    ensures Every(AddInternal(c, m), f)
  {
    var q := if m.serial in c.pools then c.pools[m.serial].messages else [];
    MarkedAll(q + [m], 0, false, f);
  }

  lemma OnlineEvery(c: Core, s: Serial, f: Msg -> bool)
    requires MarkBlind(f) && Every(c, f)
    ensures Every(Online(c, s), f)
  {
    if s in c.pools { MarkedAll(c.pools[s].messages, 0, false, f); }
  }

  lemma ResendEvery(c: Core, s: Serial, uid: int, f: Msg -> bool)
    requires MarkBlind(f) && Every(c, f) && CanResend(c, s, uid)
    ensures Every(Resend(c, s, uid), f)
  {
    MarkedAll(c.pools[s].messages, uid, false, f);
  }

  lemma ScanEvery(c: Core, f: Msg -> bool)
    requires RepInv(c) && MarkBlind(f) && Every(c, f)
    ensures Every(Scan(c).core, f)
  {
    ScanKeeps(c);
    forall s | s in Scan(c).core.pools ensures All(Scan(c).core.pools[s].messages, f) {
      assert SweptFrom(Scan(c).core.pools[s], c.pools[s]);
      MarkedAll(c.pools[s].messages, 0, true, f);
    }
  }

  lemma StatusEvery(c: Core, m: Msg, status: Status, f: Msg -> bool)
    requires MarkBlind(f) && Every(c, f)
    ensures Every(StatusUpdate(c, m, status), f)
  {
    if m.serial in c.pools {
      var ms := c.pools[m.serial].messages;
      MarkedAll(ms, m.uid, true, f);
      MarkedAll(MarkUid(ms, m.uid, true), m.uid, true, f);
    }
  }

  /** What holds of every message added keeps holding of every message queued. */
  lemma EveryStep(w: World, e: Event, f: Msg -> bool)
    requires RepInv(w.core) && MarkBlind(f) && Every(w.core, f) && Enabled(w, e)
    requires e.Add? || e.Sync? ==> f(e.m)
    ensures Every(Next(w, e).core, f)
  {
    match e
    case Add(m) => AddEvery(w.core, m, f);
    case Sync(m) => AddEvery(w.core, m, f);
    case GoesOnline(s) => OnlineEvery(w.core, s, f);
    case Raise(s, uid) => if CanResend(w.core, s, uid) { ResendEvery(w.core, s, uid, f); }
    case StartScans => ScanEvery(w.core, f);
    case CallbackScans => ScanEvery(w.core, f);
    case PoolUpdates => StatusEvery(w.core, w.cb.msg, w.cb.status, f);
    case _ =>
  }

  ghost predicate AddsSatisfy(es: seq<Event>, f: Msg -> bool) {
    forall i :: 0 <= i < |es| && (es[i].Add? || es[i].Sync?) ==> f(es[i].m)
  }

  lemma {:induction false} EveryRun(w: World, es: seq<Event>, v: World, f: Msg -> bool)
    requires Inv(w) && MarkBlind(f) && Every(w.core, f) && AddsSatisfy(es, f) && Runs(w, es, v)
    ensures Every(v.core, f)
    decreases |es|
  {
    if es != [] {
      InvStep(w, es[0]);
      EveryStep(w, es[0], f);
      EveryRun(Next(w, es[0]), es[1..], v, f);
    }
  }
}
