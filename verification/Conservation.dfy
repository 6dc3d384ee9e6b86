/** Nothing is lost, duplicated or reordered: what was added is what was confirmed followed by
    what is still queued. */
module Conservation {
  import opened Base
  import opened Payload
  import opened Pool
  import opened Transport
  import opened EngineSpec
  import opened World

  /** The queue of `s`, as identities. */
  function Queue(c: Core, s: Serial): seq<Msg> {
    if s in c.pools then Bares(c.pools[s].messages) else []
  }

  function RemoveAt<T>(q: seq<T>, k: nat): seq<T>
    requires k < |q|
  {
    q[..k] + q[k + 1..]
  }

  // What one region does to the queues ------------------------------------------------------

  lemma AddQueue(c: Core, m: Msg, s: Serial)
    ensures Queue(AddInternal(c, m), s) == Queue(c, s) + if s == m.serial then [Bare(m)] else []
  {
    if s == m.serial {
      var q := if s in c.pools then c.pools[s].messages else [];
      MarksKeepBares(q + [m], 0, false);
      BaresAppend(q, [m]);
    }
  }

  lemma OnlineQueue(c: Core, t: Serial, s: Serial)
    ensures Queue(Online(c, t), s) == Queue(c, s)
  {
    if t in c.pools { MarksKeepBares(c.pools[t].messages, 0, false); }
  }

  lemma ResendQueue(c: Core, t: Serial, uid: int, s: Serial)
    requires CanResend(c, t, uid)
    ensures Queue(Resend(c, t, uid), s) == Queue(c, s)
  {
    MarksKeepBares(c.pools[t].messages, uid, false);
  }

  lemma ScanQueue(c: Core, s: Serial)
    requires RepInv(c)
    ensures Queue(Scan(c).core, s) == Queue(c, s)
  {
    ScanKeeps(c);
    if s in c.pools { MarksKeepBares(c.pools[s].messages, 0, true); }
  }

  lemma ConfirmedBares(ms: seq<Msg>, uid: int)
    ensures var i := IndexOf(ms, uid);
            Bares(Confirmed(ms, uid)) == if i >= 0 then RemoveAt(Bares(ms), i) else Bares(ms)
  {
    var marked := MarkUid(ms, uid, true);
    MarksKeepBares(ms, uid, true);
    MarkUidIndex(ms, uid, true, uid);
    if IndexOf(marked, uid) >= 0 { BaresRemove(marked, uid); }
  }

  lemma RefusedBares(p: Pool, uid: int)
    ensures Bares(Refused(p, uid).messages) == Bares(p.messages)
  {
    MarksKeepBares(p.messages, uid, true);
    MarksKeepBares(MarkUid(p.messages, uid, true), 0, true);
  }

  lemma StatusPools(c: Core, m: Msg, status: Status)
    requires m.serial in c.pools
    ensures var p := c.pools[m.serial];
            Queue(StatusUpdate(c, m, status), m.serial) ==
            Bares(if status == Sent then Confirmed(p.messages, m.uid) else Refused(p, m.uid).messages)
  {}

  /** A completion removes the first message with the UID, when the status is Sent. */
  lemma StatusQueue(c: Core, m: Msg, status: Status, s: Serial)
    ensures Queue(StatusUpdate(c, m, status), s) ==
            if status == Sent && s == m.serial && s in c.pools && IndexOf(c.pools[s].messages, m.uid) >= 0
            then RemoveAt(Queue(c, s), IndexOf(c.pools[s].messages, m.uid)) else Queue(c, s)
  {
    if m.serial in c.pools && s == m.serial {
      StatusPools(c, m, status);
      ConfirmedBares(c.pools[s].messages, m.uid);
      RefusedBares(c.pools[s], m.uid);
    }
  }

  // Which message a confirmation removes -------------------------------------------------------

  lemma {:induction false} SameRemoval<T>(q: seq<T>, i: nat, k: nat)
    requires i <= k < |q|
    ensures RemoveAt(q, i) == RemoveAt(q, k) <==> forall j :: i <= j <= k ==> q[j] == q[k]
    decreases k - i
  {
    var a, b := RemoveAt(q, i), RemoveAt(q, k);
    if i < k {
      SameRemoval(q, i + 1, k);
      assert forall j :: 0 <= j < |a| && j != i ==> a[j] == RemoveAt(q, i + 1)[j];
      assert a[i] == q[i + 1] && b[i] == q[i] && RemoveAt(q, i + 1)[i] == q[i];
      assert a == b <==> RemoveAt(q, i + 1) == b && q[i] == q[i + 1] by {
        if a == b { assert a[i] == b[i]; assert forall j :: 0 <= j < |a| ==> RemoveAt(q, i + 1)[j] == b[j]; }
        if RemoveAt(q, i + 1) == b && q[i] == q[i + 1] { assert forall j :: 0 <= j < |a| ==> a[j] == b[j]; }
      }
    }
  }

  /** When the message at `k` was handed over, its confirmation removes it from the queue exactly when
      every message from the first one with the same UID up to `k` is that same message. */
  lemma ConfirmRemovesHanded(c: Core, s: Serial, k: nat)
    requires s in c.pools && k < |c.pools[s].messages| && c.pools[s].messages[k].serial == s
    ensures var m := c.pools[s].messages[k];
            var i := IndexOf(c.pools[s].messages, m.uid);
            && 0 <= i <= k
            && (Queue(StatusUpdate(c, m, Sent), s) == RemoveAt(Queue(c, s), k)
                <==> forall j :: i <= j <= k ==> Queue(c, s)[j] == Bare(m))
  {
    var m := c.pools[s].messages[k];
    StatusQueue(c, m, Sent, s);
    SameRemoval(Queue(c, s), IndexOf(c.pools[s].messages, m.uid), k);
  }

  // The message in flight ---------------------------------------------------------------------

  /** The message the transport works on, or whose report is on its way to the pools. */
  function InFlight(w: World): Option<Msg> {
    if Busy(w.xfer) then Some(w.xfer.msg)
    else if w.cb.Notified? then Some(w.cb.msg)
    else None
  }

  /** Its pool exists and is clean. */
  ghost predicate Flying(w: World) {
    InFlight(w).Some? ==>
      var m := InFlight(w).value;
      m.serial in w.core.pools && !w.core.pools[m.serial].dirty
  }

  /** The clean pool of `s` is still there and clean, and its messages are still in front. */
  ghost predicate Lasts(c: Core, d: Core, s: Serial) {
    s in c.pools && !c.pools[s].dirty ==>
      && s in d.pools && !d.pools[s].dirty && |c.pools[s].messages| <= |d.pools[s].messages|
      && forall i :: 0 <= i < |c.pools[s].messages| ==>
           Bare(d.pools[s].messages[i]) == Bare(c.pools[s].messages[i])
           && d.pools[s].messages[i].retries == c.pools[s].messages[i].retries
  }

  lemma ScanLasts(c: Core, s: Serial)
    requires RepInv(c)
    ensures Lasts(c, Scan(c).core, s)
  {
    ScanKeeps(c);
  }

  lemma AddLasts(c: Core, m: Msg, s: Serial)
    ensures Lasts(c, AddInternal(c, m), s)
  {}

  lemma OnlineLasts(c: Core, t: Serial, s: Serial)
    ensures Lasts(c, Online(c, t), s)
  {}

  lemma ResendLasts(c: Core, t: Serial, uid: int, s: Serial)
    requires CanResend(c, t, uid)
    ensures Lasts(c, Resend(c, t, uid), s)
  {}

  /** Only a completion makes a pool dirty, or takes a message away. */
  lemma CoreLasts(w: World, e: Event, s: Serial)
    requires RepInv(w.core) && Enabled(w, e) && !e.PoolUpdates?
    ensures Lasts(w.core, Next(w, e).core, s)
  {
    match e
    case Add(m) => AddLasts(w.core, m, s);
    case Sync(m) => AddLasts(w.core, m, s);
    case GoesOnline(t) => OnlineLasts(w.core, t, s);
    case Raise(t, uid) => if CanResend(w.core, t, uid) { ResendLasts(w.core, t, uid, s); }
    case StartScans => ScanLasts(w.core, s);
    case CallbackScans => ScanLasts(w.core, s);
    case _ =>
  }

  lemma FlyingStep(w: World, e: Event)
    requires Inv(w) && Flying(w) && Enabled(w, e)
    ensures Flying(Next(w, e))
  {
    if Scanning(e) { FlyingScan(w, e); } else { FlyingOther(w, e); }
  }

  lemma FlyingOther(w: World, e: Event)
    requires Inv(w) && Flying(w) && Enabled(w, e) && !Scanning(e)
    ensures Flying(Next(w, e))
  {
    FlightStays(w, e);
    if InFlight(Next(w, e)).Some? {
      assert Bare(InFlight(w).value).serial == Bare(InFlight(Next(w, e)).value).serial;
      CoreLasts(w, e, InFlight(w).value.serial);
    }
  }

  lemma FlyingScan(w: World, e: Event)
    requires Inv(w) && Flying(w) && Enabled(w, e) && (e.StartScans? || e.CallbackScans?)
    ensures Flying(Next(w, e))
  {
    if Scan(w.core).next.Some? { HandoverFrom(w.core); }
  }

  predicate FlightTo(w: World, s: Serial) {
    InFlight(w).Some? && InFlight(w).value.serial == s
  }

  // In order -------------------------------------------------------------------------------------

  /** The message in flight to `s` is the head of the queue of `s`. */
  ghost predicate HeadFlies(w: World, s: Serial) {
    FlightTo(w, s) && s in w.core.pools && w.core.pools[s].messages != [] ==>
      Bare(w.core.pools[s].messages[0]) == Bare(InFlight(w).value)
  }

  ghost predicate HeadInv(w: World, s: Serial) {
    Inv(w) && Flying(w) && HeadFlies(w, s)
  }

  predicate Scanning(e: Event) { e.StartScans? || e.CallbackScans? }

  /** When the event hands a message over to `s`, it is the head of the queue. */
  ghost predicate HandsHead(w: World, e: Event, s: Serial) {
    Scanning(e) && s in w.core.pools && Scan(w.core).next.Some? && Scan(w.core).next.value.serial == s ==>
      OfferIndex(w.core.pools[s].messages, w.core.auto) == 0
  }

  ghost predicate HandsHeads(w: World, es: seq<Event>, s: Serial)
    decreases |es|
  {
    es == [] || (Enabled(w, es[0]) && HandsHead(w, es[0], s) && HandsHeads(Next(w, es[0]), es[1..], s))
  }

  lemma HeadScan(w: World, byCallback: bool, s: Serial)
    requires RepInv(w.core) && HandsHead(w, if byCallback then CallbackScans else StartScans, s)
    ensures Scan(w.core).next.Some? ==> HeadFlies(Scans(w, byCallback), s)
  {
    if Scan(w.core).next.Some? { HandoverFrom(w.core); }
  }

  lemma HeadOther(w: World, e: Event, s: Serial)
    requires HeadInv(w, s) && Enabled(w, e) && !Scanning(e) && !e.PoolUpdates?
    ensures HeadFlies(Next(w, e), s)
  {
    CoreLasts(w, e, s);
    FlightStays(w, e);
  }

  /** Only a scan puts another message in flight, and only a report ends a flight. */
  lemma FlightStays(w: World, e: Event)
    requires Inv(w) && Enabled(w, e) && !Scanning(e)
    ensures InFlight(Next(w, e)).Some? ==>
              !e.PoolUpdates? && InFlight(w).Some? && Bare(InFlight(Next(w, e)).value) == Bare(InFlight(w).value)
              && (Busy(Next(w, e).xfer) ==> Busy(w.xfer) && InFlight(Next(w, e)).value == InFlight(w).value)
  {}

  lemma NoFlightAfterScan(w: World, e: Event)
    requires Inv(w) && Enabled(w, e) && Scanning(e) && Scan(w.core).next == None
    ensures InFlight(Next(w, e)) == None
  {}

  lemma HeadStep(w: World, e: Event, s: Serial)
    requires HeadInv(w, s) && Enabled(w, e) && HandsHead(w, e, s)
    ensures HeadInv(Next(w, e), s)
  {
    InvStep(w, e);
    FlyingStep(w, e);
    if Scanning(e) {
      HeadScan(w, e.CallbackScans?, s);
      if Scan(w.core).next == None { NoFlightAfterScan(w, e); }
    } else if e.PoolUpdates? {
      FlightStays(w, e);
    } else {
      HeadOther(w, e, s);
    }
  }

  /** What an event puts at the end of the queue of `s`. */
  function Gain(e: Event, s: Serial): seq<Msg> {
    if (e.Add? || e.Sync?) && e.m.serial == s then [Bare(e.m)] else []
  }

  /** The other internal steps leave the pools alone. */
  lemma CoreStays(w: World, e: Event)
    requires Internal(e) && Enabled(w, e) && !Scanning(e) && !e.PoolUpdates?
    ensures Next(w, e).core == w.core
  {}

  lemma ScansCore(w: World, e: Event)
    requires Enabled(w, e) && Scanning(e)
    ensures Next(w, e).core == Scan(w.core).core
  {}

  lemma QueueStep(w: World, e: Event, s: Serial)
    requires RepInv(w.core) && Enabled(w, e) && !e.PoolUpdates?
    ensures Queue(Next(w, e).core, s) == Queue(w.core, s) + Gain(e, s)
  {
    if Scanning(e) { ScansCore(w, e); ScanQueue(w.core, s); }
    else if Internal(e) { CoreStays(w, e); }
    else { QueueOutside(w, e, s); }
  }

  lemma QueueOutside(w: World, e: Event, s: Serial)
    requires Enabled(w, e) && !Internal(e)
    ensures Queue(Next(w, e).core, s) == Queue(w.core, s) + Gain(e, s)
  {
    if e.Add? || e.Sync? { AddQueue(w.core, e.m, s); }
    else if e.GoesOnline? { OnlineQueue(w.core, e.s, s); }
    else if e.Raise? { if CanResend(w.core, e.s, e.uid) { ResendQueue(w.core, e.s, e.uid, s); } }
  }

  lemma AddedStep(w: World, e: Event, s: Serial)
    requires Enabled(w, e)
    ensures Bares(Past(Next(w, e).added, s)) == Bares(Past(w.added, s)) + Gain(e, s)
  {
    if e.Add? || e.Sync? { BaresAppend(Past(w.added, s), [e.m]); }
  }

  /** What an event confirms for `s`. */
  function Confirmation(w: World, e: Event, s: Serial): seq<Msg> {
    if e.PoolUpdates? && w.cb.Notified? && w.cb.status == Sent && w.cb.msg.serial == s then [Bare(w.cb.msg)] else []
  }

  lemma ConfirmedStep(w: World, e: Event, s: Serial)
    requires Enabled(w, e)
    ensures Bares(Past(Next(w, e).confirmed, s)) == Bares(Past(w.confirmed, s)) + Confirmation(w, e, s)
  {
    if e.PoolUpdates? { BaresAppend(Past(w.confirmed, s), [w.cb.msg]); }
  }

  lemma HeadRemoved(ms: seq<Msg>, m: Msg)
    requires ms != [] && Bare(ms[0]) == Bare(m)
    ensures IndexOf(ms, m.uid) == 0 && Bares(ms) == [Bare(m)] + RemoveAt(Bares(ms), 0)
  {
    assert ms[0].uid == m.uid;
  }

  lemma QueueConfirm(w: World, s: Serial)
    requires HeadInv(w, s) && w.cb.Notified?
    ensures Queue(w.core, s) == Confirmation(w, PoolUpdates, s) + Queue(StatusUpdate(w.core, w.cb.msg, w.cb.status), s)
  {
    var q := Queue(w.core, s);
    StatusQueue(w.core, w.cb.msg, w.cb.status, s);
    if s == w.cb.msg.serial && w.cb.status == Sent {
      assert PoolInv(s, w.core.pools[s]);
      HeadRemoved(w.core.pools[s].messages, w.cb.msg);
      assert q == [Bare(w.cb.msg)] + RemoveAt(q, 0);
    } else {
      assert [] + q == q;
    }
  }

  // The ledger of one recipient ------------------------------------------------------------------

  function AddedTo(w: World, s: Serial): seq<Msg> { Bares(Past(w.added, s)) }

  function ConfirmedTo(w: World, s: Serial): seq<Msg> { Bares(Past(w.confirmed, s)) }

  /** Counted from a state with `a` added, `c` confirmed and `q` queued: what was queued and added since is
      what was confirmed since, followed by the queue. */
  ghost predicate Ledger(w: World, s: Serial, a: nat, c: nat, q: seq<Msg>) {
    && a <= |AddedTo(w, s)| && c <= |ConfirmedTo(w, s)|
    && q + AddedTo(w, s)[a..] == ConfirmedTo(w, s)[c..] + Queue(w.core, s)
  }

  lemma Rebalance(q: seq<Msg>, added: seq<Msg>, a: nat, done: seq<Msg>, c: nat, queue: seq<Msg>, gain: seq<Msg>,
                  more: seq<Msg>, rest: seq<Msg>)
    requires a <= |added| && c <= |done| && q + added[a..] == done[c..] + queue && queue + gain == more + rest
    ensures q + (added + gain)[a..] == (done + more)[c..] + rest
  {
    assert (added + gain)[a..] == added[a..] + gain && (done + more)[c..] == done[c..] + more;
    assert q + (added[a..] + gain) == (q + added[a..]) + gain;
    assert (done[c..] + queue) + gain == done[c..] + (queue + gain);
    assert done[c..] + (more + rest) == (done[c..] + more) + rest;
  }

  lemma EventBalance(w: World, e: Event, s: Serial)
    requires HeadInv(w, s) && Enabled(w, e)
    ensures Queue(w.core, s) + Gain(e, s) == Confirmation(w, e, s) + Queue(Next(w, e).core, s)
  {
    if e.PoolUpdates? {
      QueueConfirm(w, s);
      assert Queue(w.core, s) + [] == Queue(w.core, s);
    } else {
      QueueStep(w, e, s);
      assert [] + Queue(Next(w, e).core, s) == Queue(Next(w, e).core, s);
    }
  }

  lemma LedgerStep(w: World, e: Event, s: Serial, a: nat, c: nat, q: seq<Msg>)
    requires HeadInv(w, s) && Enabled(w, e) && Ledger(w, s, a, c, q)
    ensures Ledger(Next(w, e), s, a, c, q)
  {
    AddedStep(w, e, s);
    ConfirmedStep(w, e, s);
    EventBalance(w, e, s);
    Rebalance(q, AddedTo(w, s), a, ConfirmedTo(w, s), c, Queue(w.core, s), Gain(e, s), Confirmation(w, e, s),
        Queue(Next(w, e).core, s));
  }

  lemma {:induction false} LedgerRun(w: World, es: seq<Event>, v: World, s: Serial, a: nat, c: nat, q: seq<Msg>)
    requires HeadInv(w, s) && HandsHeads(w, es, s) && Ledger(w, s, a, c, q) && Runs(w, es, v)
    ensures HeadInv(v, s) && Ledger(v, s, a, c, q)
    decreases |es|
  {
    if es != [] {
      HeadStep(w, es[0], s);
      LedgerStep(w, es[0], s, a, c, q);
      LedgerRun(Next(w, es[0]), es[1..], v, s, a, c, q);
    }
  }

  /** In any mode, switched at will, and whatever the UIDs: as long as only heads are handed over to `s`,
      from a state where nothing but its head is in flight, what was queued and added since is what was
      confirmed since followed by the queue. */
  lemma NothingLostInOrder(w: World, es: seq<Event>, v: World, s: Serial)
    requires HeadInv(w, s) && HandsHeads(w, es, s) && Runs(w, es, v)
    ensures Ledger(v, s, |AddedTo(w, s)|, |ConfirmedTo(w, s)|, Queue(w.core, s))
  {
    var q := Queue(w.core, s);
    assert q + [] == [] + q;
    LedgerRun(w, es, v, s, |AddedTo(w, s)|, |ConfirmedTo(w, s)|, q);
  }

  lemma FromInitial(w: World, v: World, s: Serial)
    requires Initial(w) && Ledger(v, s, |AddedTo(w, s)|, |ConfirmedTo(w, s)|, Queue(w.core, s))
    ensures AddedTo(v, s) == ConfirmedTo(v, s) + Queue(v.core, s)
  {
    assert [] + AddedTo(v, s)[0..] == AddedTo(v, s) && ConfirmedTo(v, s)[0..] == ConfirmedTo(v, s);
  }

  lemma {:induction false} FlyingRun(w: World, es: seq<Event>, v: World)
    requires Inv(w) && Flying(w) && Runs(w, es, v)
    ensures Inv(v) && Flying(v)
    decreases |es|
  {
    if es != [] {
      InvStep(w, es[0]);
      FlyingStep(w, es[0]);
      FlyingRun(Next(w, es[0]), es[1..], v);
    }
  }

  // Auto mode ------------------------------------------------------------------------------------

  /** The option is on in every state of the run. */
  ghost predicate StaysAuto(w: World, es: seq<Event>)
    decreases |es|
  {
    w.core.auto && (es == [] || (Enabled(w, es[0]) && StaysAuto(Next(w, es[0]), es[1..])))
  }

  lemma {:induction false} AutoHandsHeads(w: World, es: seq<Event>, v: World, s: Serial)
    requires Inv(w) && StaysAuto(w, es) && Runs(w, es, v)
    ensures HandsHeads(w, es, s)
    decreases |es|
  {
    if es != [] {
      if s in w.core.pools { assert PoolInv(s, w.core.pools[s]); }
      InvStep(w, es[0]);
      AutoHandsHeads(Next(w, es[0]), es[1..], v, s);
    }
  }

  /** While auto-resend stays on, from any reachable state with nothing but its head in flight to `s`, and whatever UIDs
      the messages carry: nothing is lost, duplicated or reordered. */
  lemma NothingLostInAutoMode(w0: World, before: seq<Event>, w: World, es: seq<Event>, v: World, s: Serial)
    requires Initial(w0) && Runs(w0, before, w) && HeadFlies(w, s)
    requires StaysAuto(w, es) && Runs(w, es, v)
    ensures Ledger(v, s, |AddedTo(w, s)|, |ConfirmedTo(w, s)|, Queue(w.core, s))
  {
    FlyingRun(w0, before, w);
    AutoHandsHeads(w, es, v, s);
    NothingLostInOrder(w, es, v, s);
  }

  // Without refusals -----------------------------------------------------------------------------

  /** Messages for `s` are added unprocessed. */
  ghost predicate UnprocessedAdds(es: seq<Event>, s: Serial) {
    forall i :: 0 <= i < |es| && (es[i].Add? || es[i].Sync?) && es[i].m.serial == s ==> !es[i].m.processed
  }

  predicate Refuses(w: World, e: Event, s: Serial) {
    e.PoolUpdates? && w.cb.Notified? && w.cb.msg.serial == s && w.cb.status == NotSent
  }

  /** No report says that a message to `s` could not be sent. */
  ghost predicate NoRefusals(w: World, es: seq<Event>, s: Serial)
    decreases |es|
  {
    es == [] || (Enabled(w, es[0]) && !Refuses(w, es[0], s) && NoRefusals(Next(w, es[0]), es[1..], s))
  }

  ghost predicate Unprocessed(ms: seq<Msg>) {
    forall i :: 0 <= i < |ms| ==> !ms[i].processed
  }

  /** The pool of `s` is clean and none of its messages is marked. */
  ghost predicate Untouched(c: Core, s: Serial) {
    s in c.pools ==> !c.pools[s].dirty && Unprocessed(c.pools[s].messages)
  }

  lemma AddUntouched(c: Core, m: Msg, s: Serial)
    requires Untouched(c, s) && (m.serial == s ==> !m.processed)
    ensures Untouched(AddInternal(c, m), s)
  {}

  lemma OnlineUntouched(c: Core, t: Serial, s: Serial)
    requires Untouched(c, s)
    ensures Untouched(Online(c, t), s)
  {}

  lemma ResendUntouched(c: Core, t: Serial, uid: int, s: Serial)
    requires Untouched(c, s) && CanResend(c, t, uid)
    ensures Untouched(Resend(c, t, uid), s)
  {}

  lemma ScanUntouched(c: Core, s: Serial)
    requires RepInv(c) && Untouched(c, s)
    ensures Untouched(Scan(c).core, s)
  {
    ScanKeeps(c);
  }

  /** A confirmation takes one message out and leaves the others as they are. */
  lemma ConfirmedIsRemoval(ms: seq<Msg>, uid: int)
    ensures var i := IndexOf(ms, uid);
            Confirmed(ms, uid) == if i >= 0 then RemoveAt(ms, i) else ms
  {
    MarkUidIndex(ms, uid, true, uid);
  }

  /** A report that does not refuse `s` takes at most one message out of its pool, which stays as clean as
      it was. */
  lemma ReportRemoves(c: Core, m: Msg, status: Status, s: Serial)
    requires m.serial == s ==> status == Sent
    ensures var d := StatusUpdate(c, m, status);
            s in d.pools ==>
              && s in c.pools && d.pools[s].dirty == c.pools[s].dirty && d.auto == c.auto
              && (d.pools[s].messages == c.pools[s].messages
                  || exists k :: 0 <= k < |c.pools[s].messages|
                      && d.pools[s].messages == RemoveAt(c.pools[s].messages, k))
  {
    if s == m.serial && s in c.pools { ConfirmedIsRemoval(c.pools[s].messages, m.uid); }
  }

  lemma RemoveAtFrom<T>(q: seq<T>, k: nat, i: nat) returns (j: nat)
    requires k < |q| && i < |q| - 1
    ensures j < |q| && RemoveAt(q, k)[i] == q[j]
  {
    j := if i < k then i else i + 1;
  }

  lemma RemoveUnprocessed(ms: seq<Msg>, k: nat)
    requires k < |ms| && Unprocessed(ms)
    ensures Unprocessed(RemoveAt(ms, k))
  {
    forall i | 0 <= i < |ms| - 1 ensures !RemoveAt(ms, k)[i].processed { var j := RemoveAtFrom(ms, k, i); }
  }

  lemma StatusUntouched(c: Core, m: Msg, status: Status, s: Serial)
    requires Untouched(c, s) && (m.serial == s ==> status == Sent)
    ensures Untouched(StatusUpdate(c, m, status), s)
  {
    ReportRemoves(c, m, status, s);
    var d := StatusUpdate(c, m, status);
    if s in d.pools && d.pools[s].messages != c.pools[s].messages {
      var k :| 0 <= k < |c.pools[s].messages| && d.pools[s].messages == RemoveAt(c.pools[s].messages, k);
      RemoveUnprocessed(c.pools[s].messages, k);
    }
  }

  lemma UntouchedStep(w: World, e: Event, s: Serial)
    requires RepInv(w.core) && Untouched(w.core, s) && Enabled(w, e) && !Refuses(w, e, s)
    requires (e.Add? || e.Sync?) && e.m.serial == s ==> !e.m.processed
    ensures Untouched(Next(w, e).core, s)
  {
    match e
    case Add(m) => AddUntouched(w.core, m, s);
    case Sync(m) => AddUntouched(w.core, m, s);
    case GoesOnline(t) => OnlineUntouched(w.core, t, s);
    case Raise(t, uid) => if CanResend(w.core, t, uid) { ResendUntouched(w.core, t, uid, s); }
    case StartScans => ScanUntouched(w.core, s);
    case CallbackScans => ScanUntouched(w.core, s);
    case PoolUpdates => StatusUntouched(w.core, w.cb.msg, w.cb.status, s);
    case _ =>
  }

  lemma UntouchedOffersHead(c: Core, s: Serial)
    requires RepInv(c) && Untouched(c, s) && s in c.pools
    ensures OfferIndex(c.pools[s].messages, c.auto) == 0
  {
    assert PoolInv(s, c.pools[s]);
  }

  lemma {:induction false} UntouchedRun(w: World, es: seq<Event>, v: World, s: Serial)
    requires Inv(w) && Untouched(w.core, s) && UnprocessedAdds(es, s) && NoRefusals(w, es, s) && Runs(w, es, v)
    ensures HandsHeads(w, es, s) && Untouched(v.core, s)
    decreases |es|
  {
    if es != [] {
      if s in w.core.pools { UntouchedOffersHead(w.core, s); }
      InvStep(w, es[0]);
      UntouchedStep(w, es[0], s);
      UntouchedRun(Next(w, es[0]), es[1..], v, s);
    }
  }

  /** In any mode, switched at will, and whatever UIDs the messages carry, from any reachable state with an
      untouched pool for `s`, or none, and nothing but its head in flight: while its messages are added unprocessed
      and none is refused, nothing is lost, duplicated or reordered, whatever happens to other recipients. */
  lemma NothingLostWithoutRefusals(w0: World, before: seq<Event>, w: World, es: seq<Event>, v: World, s: Serial)
    requires Initial(w0) && Runs(w0, before, w) && Untouched(w.core, s) && HeadFlies(w, s)
    requires Runs(w, es, v) && UnprocessedAdds(es, s) && NoRefusals(w, es, s)
    ensures Ledger(v, s, |AddedTo(w, s)|, |ConfirmedTo(w, s)|, Queue(w.core, s))
  {
    FlyingRun(w0, before, w);
    UntouchedRun(w, es, v, s);
    NothingLostInOrder(w, es, v, s);
  }

  /** An emptied queue is such a state, whatever was refused before. */
  lemma EmptiedIsUntouched(w0: World, before: seq<Event>, w: World, s: Serial)
    requires Initial(w0) && Runs(w0, before, w) && s !in w.core.pools
    ensures Untouched(w.core, s) && !FlightTo(w, s) && Queue(w.core, s) == []
  {
    FlyingRun(w0, before, w);
  }

  /** From the start: a recipient that was never refused has lost nothing. */
  lemma NothingLostFromStart(w: World, es: seq<Event>, v: World, s: Serial)
    requires Initial(w) && Runs(w, es, v) && UnprocessedAdds(es, s) && NoRefusals(w, es, s)
    ensures AddedTo(v, s) == ConfirmedTo(v, s) + Queue(v.core, s)
  {
    NothingLostWithoutRefusals(w, [], w, es, v, s);
    FromInitial(w, v, s);
  }
}
