/** An unreachable recipient is left alone until something about it changes. */
module Quarantine {
  import opened Base
  import opened Payload
  import opened Pool
  import opened Transport
  import opened EngineSpec
  import opened World
  import opened Conservation

  ghost predicate AllProcessed(ms: seq<Msg>) {
    forall i :: 0 <= i < |ms| ==> ms[i].processed
  }

  /** A refused pool ends with every message processed, except when its weight stood at INT_MAX and a
      message other than the refused one was not processed yet. */
  lemma RefusedProcessed(p: Pool, uid: int)
    requires p.messages != []
    ensures AllProcessed(Refused(p, uid).messages) <==>
            p.weight != INT_MAX ||
            forall i :: 0 <= i < |p.messages| && i != IndexOf(p.messages, uid) ==> p.messages[i].processed
  {
    var i := IndexOf(p.messages, uid);
    var marked := MarkUid(p.messages, uid, true);
    assert forall j :: 0 <= j < |marked| ==> marked[j] == p.messages[j] || (j == i && marked[j].processed);
    assert i >= 0 ==> marked[i].processed;
  }

  /** Clean pools weigh at most `n`, and dirty pools are fully processed. */
  ghost predicate Calm(c: Core, n: nat) {
    forall s :: s in c.pools ==> if c.pools[s].dirty then AllProcessed(c.pools[s].messages) else c.pools[s].weight <= n
  }

  lemma AddCalm(c: Core, m: Msg, n: nat)
    requires Calm(c, n)
    ensures Calm(AddInternal(c, m), n)
  {}

  lemma OnlineCalm(c: Core, s: Serial, n: nat)
    requires Calm(c, n)
    ensures Calm(Online(c, s), n)
  {}

  lemma ResendCalm(c: Core, s: Serial, uid: int, n: nat)
    requires RepInv(c) && Calm(c, n) && CanResend(c, s, uid)
    ensures Calm(Resend(c, s, uid), n + 1)
  {}

  lemma ScanCalm(c: Core, n: nat)
    requires RepInv(c) && Calm(c, n)
    ensures Calm(Scan(c).core, n)
  {
    ScanKeeps(c);
    var d := Scan(c).core;
    forall s | s in d.pools
      ensures if d.pools[s].dirty then AllProcessed(d.pools[s].messages) else d.pools[s].weight <= n
    {
      assert SweptFrom(d.pools[s], c.pools[s]);
    }
  }

  lemma StatusCalm(c: Core, m: Msg, status: Status, n: nat)
    requires RepInv(c) && Calm(c, n) && n < INT_MAX
    requires m.serial in c.pools && !c.pools[m.serial].dirty
    ensures Calm(StatusUpdate(c, m, status), n + 1)
  {
    RefusedProcessed(c.pools[m.serial], m.uid);
  }

  ghost predicate CalmInv(w: World, n: nat) {
    Inv(w) && Flying(w) && Calm(w.core, n)
  }

  lemma CalmStep(w: World, e: Event, n: nat)
    requires CalmInv(w, n) && n < INT_MAX && Enabled(w, e)
    ensures CalmInv(Next(w, e), n + 1)
  {
    InvStep(w, e);
    FlyingStep(w, e);
    CalmCore(w, e, n);
  }

  lemma CalmCore(w: World, e: Event, n: nat)
    requires CalmInv(w, n) && n < INT_MAX && Enabled(w, e)
    ensures Calm(Next(w, e).core, n + 1)
  {
    if Internal(e) { CalmInside(w, e, n); } else { CalmOutside(w, e, n); }
  }

  lemma CalmOutside(w: World, e: Event, n: nat)
    requires RepInv(w.core) && Calm(w.core, n) && Enabled(w, e) && !Internal(e)
    ensures Calm(Next(w, e).core, n + 1)
  {
    if e.Add? || e.Sync? { AddCalm(w.core, e.m, n); }
    else if e.GoesOnline? { OnlineCalm(w.core, e.s, n); }
    else if e.Raise? { if CanResend(w.core, e.s, e.uid) { ResendCalm(w.core, e.s, e.uid, n); } }
  }

  lemma CalmInside(w: World, e: Event, n: nat)
    requires CalmInv(w, n) && n < INT_MAX && Enabled(w, e) && Internal(e)
    ensures Calm(Next(w, e).core, n + 1)
  {
    if Scanning(e) { ScansCore(w, e); ScanCalm(w.core, n); }
    else if e.PoolUpdates? { StatusCalm(w.core, w.cb.msg, w.cb.status, n); }
    else { CoreStays(w, e); }
  }

  /** In every run of fewer than INT_MAX steps the weight of a clean pool is at most the number of
      steps, so the wrap-around at INT_MAX stays out of reach, and dirty pools are fully processed. */
  lemma {:induction false} CalmRun(w: World, es: seq<Event>, v: World, n: nat)
    requires CalmInv(w, n) && n + |es| <= INT_MAX && Runs(w, es, v)
    ensures CalmInv(v, n + |es|)
    decreases |es|
  {
    if es != [] {
      CalmStep(w, es[0], n);
      CalmRun(Next(w, es[0]), es[1..], v, n + 1);
    }
  }

  /** `s` is unreachable: its pool is dirty. */
  ghost predicate Held(w: World, s: Serial) { s in w.core.pools && w.core.pools[s].dirty }

  /** And none of its messages is left to offer. */
  ghost predicate Marked(w: World, s: Serial) { Held(w, s) && AllProcessed(w.core.pools[s].messages) }

  /** What a step leaves of an unreachable recipient. */
  ghost predicate StaysHeld(w: World, v: World, s: Serial) { Held(v, s) && (Marked(w, s) ==> Marked(v, s)) }

  predicate Concerns(w: World, e: Event, s: Serial) {
    match e
    case Add(m) => m.serial == s
    case Sync(m) => m.serial == s
    case GoesOnline(t) => t == s
    case Raise(t, uid) => t == s && CanResend(w.core, t, uid)
    case _ => false
  }

  /** No message is added for `s`, `s` does not come online and no message to `s` is raised. */
  ghost predicate LeavesAlone(w: World, es: seq<Event>, s: Serial)
    decreases |es|
  {
    es == [] || (Enabled(w, es[0]) && !Concerns(w, es[0], s) && LeavesAlone(Next(w, es[0]), es[1..], s))
  }

  lemma ScanHeld(c: Core, s: Serial)
    requires RepInv(c) && s in c.pools && c.pools[s].dirty
    ensures var d := Scan(c).core;
            && s in d.pools && d.pools[s].dirty
            && (AllProcessed(c.pools[s].messages) ==> AllProcessed(d.pools[s].messages))
    ensures Scan(c).next.Some? ==> Scan(c).next.value.serial != s
  {
    ScanKeeps(c);
    ScanPicks(c);
  }

  /** `later` continues `handed` with messages for others than `s`. */
  ghost predicate Skips(handed: seq<Msg>, later: seq<Msg>, s: Serial) {
    |handed| <= |later| && forall i :: |handed| <= i < |later| ==> later[i].serial != s
  }

  lemma HeldScan(w: World, byCallback: bool, s: Serial)
    requires RepInv(w.core) && Held(w, s)
    ensures var v := Scans(w, byCallback); StaysHeld(w, v, s) && Skips(w.handed, v.handed, s) && w.handed <= v.handed
  {
    ScanHeld(w.core, s);
  }

  lemma HeldReport(w: World, s: Serial)
    requires Flying(w) && w.cb.Notified? && !Busy(w.xfer) && Held(w, s)
    ensures var v := Next(w, PoolUpdates); StaysHeld(w, v, s) && v.handed == w.handed
  {}

  lemma HeldStep(w: World, e: Event, s: Serial)
    requires Inv(w) && Flying(w) && Held(w, s) && Enabled(w, e) && !Concerns(w, e, s)
    ensures var v := Next(w, e); StaysHeld(w, v, s) && Skips(w.handed, v.handed, s) && w.handed <= v.handed
  {
    if e.StartScans? { HeldScan(w, false, s); }
    else if e.CallbackScans? { HeldScan(w, true, s); }
    else if e.PoolUpdates? { HeldReport(w, s); }
    else if !Internal(e) { HeldOutside(w, e, s); }
  }

  lemma HeldOutside(w: World, e: Event, s: Serial)
    requires Held(w, s) && Enabled(w, e) && !Internal(e) && !Concerns(w, e, s)
    ensures var v := Next(w, e); StaysHeld(w, v, s) && v.handed == w.handed
  {}

  lemma SkipsJoin(a: seq<Msg>, b: seq<Msg>, c: seq<Msg>, s: Serial)
    requires Skips(a, b, s) && Skips(b, c, s) && b <= c
    ensures Skips(a, c, s)
  {
    forall i | |a| <= i < |c| ensures c[i].serial != s {
      if i < |b| { assert c[i] == b[i]; }
    }
  }

  lemma {:induction false} HeldRun(w: World, es: seq<Event>, v: World, s: Serial)
    requires Inv(w) && Flying(w) && Held(w, s) && Runs(w, es, v) && LeavesAlone(w, es, s)
    ensures StaysHeld(w, v, s) && Skips(w.handed, v.handed, s)
    decreases |es|
  {
    if es != [] {
      var u := Next(w, es[0]);
      HeldStep(w, es[0], s);
      InvStep(w, es[0]);
      FlyingStep(w, es[0]);
      HeldRun(u, es[1..], v, s);
      HandedGrows(u, es[1..], v);
      SkipsJoin(w.handed, u.handed, v.handed, s);
    }
  }

  lemma {:induction false} HandedGrows(w: World, es: seq<Event>, v: World)
    requires Runs(w, es, v)
    ensures w.handed <= v.handed
    decreases |es|
  {
    if es != [] {
      HandedStep(w, es[0]);
      HandedGrows(Next(w, es[0]), es[1..], v);
    }
  }

  lemma HandedStep(w: World, e: Event)
    requires Enabled(w, e)
    ensures w.handed <= Next(w, e).handed
  {
    if !Scanning(e) { if Internal(e) { HandedInside(w, e); } else { HandedOutside(w, e); } }
  }

  lemma HandedInside(w: World, e: Event)
    requires Enabled(w, e) && Internal(e) && !Scanning(e)
    ensures Next(w, e).handed == w.handed
  {}

  lemma HandedOutside(w: World, e: Event)
    requires Enabled(w, e) && !Internal(e)
    ensures Next(w, e).handed == w.handed
  {}

  /** Whether a refusal leaves its pool dirty and fully processed: always, save for a pool at INT_MAX with
      another message still to offer. */
  ghost predicate RefusalMarks(w: World)
    requires w.cb.Notified? && w.cb.msg.serial in w.core.pools
  {
    var p := w.core.pools[w.cb.msg.serial];
    p.weight != INT_MAX ||
    forall i :: 0 <= i < |p.messages| && i != IndexOf(p.messages, w.cb.msg.uid) ==> p.messages[i].processed
  }

  lemma RefusalHolds(w0: World, es: seq<Event>, w: World)
    requires Initial(w0) && Runs(w0, es, w) && w.cb.Notified? && w.cb.status == NotSent
    ensures w.cb.msg.serial in w.core.pools
    ensures Held(Next(w, PoolUpdates), w.cb.msg.serial)
    ensures Marked(Next(w, PoolUpdates), w.cb.msg.serial) <==> RefusalMarks(w)
  {
    FlyingRun(w0, es, w);
    var s := w.cb.msg.serial;
    assert PoolInv(s, w.core.pools[s]);
    RefusedProcessed(w.core.pools[s], w.cb.msg.uid);
    assert Next(w, PoolUpdates).core.pools[s] == Refused(w.core.pools[s], w.cb.msg.uid);
  }

  /** Once a transfer to `s` has failed, however long the run goes on, and whatever happens to other
      recipients and to the weight of `s`, no message is handed over to `s` until a message is added for it, it
      comes online or one of its messages is raised; and a pool that the refusal marked stays marked. */
  lemma Quarantined(w0: World, es: seq<Event>, w: World, later: seq<Event>, v: World)
    requires Initial(w0) && Runs(w0, es, w) && w.cb.Notified? && w.cb.status == NotSent
    requires var u := Next(w, PoolUpdates); Runs(u, later, v) && LeavesAlone(u, later, w.cb.msg.serial)
    ensures Held(v, w.cb.msg.serial) && Skips(w.handed, v.handed, w.cb.msg.serial)
    ensures w.cb.msg.serial in w.core.pools && (RefusalMarks(w) ==> Marked(v, w.cb.msg.serial))
  {
    RefusalHolds(w0, es, w);
    FlyingRun(w0, es, w);
    InvStep(w, PoolUpdates);
    FlyingStep(w, PoolUpdates);
    HeldRun(Next(w, PoolUpdates), later, v, w.cb.msg.serial);
  }

  /** In runs of fewer than INT_MAX steps every refusal marks its pool. */
  lemma ShortRunsMark(w0: World, es: seq<Event>, w: World)
    requires Initial(w0) && Runs(w0, es, w) && |es| < INT_MAX && w.cb.Notified?
    ensures w.cb.msg.serial in w.core.pools && RefusalMarks(w)
  {
    CalmRun(w0, es, w, 0);
  }
}
