/** The engine, its transport and the SIP stack under concurrent callers: every region under one
    lock is one atomic step. */
module World {
  import opened Base
  import opened Payload
  import opened Transport
  import opened EngineSpec

  /** Who is inside `startedLock_`, and how far. `Clearing` is the gap in sendMessage between
      releasing the pool lock after a fruitless scan and clearing `started_`. */
  datatype Holder = Free | Starting | Rescanning | Clearing(byCallback: bool)

  /** The completion thread, which holds the transport's lock until it is Quiet again. */
  datatype Callback = Quiet | Notified(msg: Msg, status: Status) | Updated

  /** A setAutoResendEnabled call after its unlocked read: the value to write, and whether to start. */
  datatype OptionCall = OptionCall(enable: bool, start: bool)

  type History = map<Serial, seq<Msg>>

  datatype World = World(
    core: Core,
    started: bool,
    xfer: Xfer,
    outstanding: nat,                  // SIP sends whose completion is still to come
    lock: Holder,
    cb: Callback,
    pending: nat,                      // callers past their pool update and before startEngine
    options: multiset<OptionCall>,
    stackUp: bool,
    sends: nat,                        // SIP sends so far
    added: History, confirmed: History, handed: seq<Msg>,
    excused: set<Serial>)              // pools filled without a start, by sync or with the SIP stack down,
                                       // since a scan last found nothing

  datatype Event =
    | Add(m: Msg) | Sync(m: Msg) | GoesOnline(s: Serial) | Raise(s: Serial, uid: int)
    | StackChanges(up: bool) | ReadOption(enable: bool) | WriteOption(call: OptionCall)
    | StartDropped | StartEntered | StartScans | Cleared
    | Completes(status: Status) | PoolUpdates | CallbackLocks | CallbackScans

  /** The engine's own steps; the others come from outside. */
  predicate Internal(e: Event) {
    e.StartDropped? || e.StartEntered? || e.StartScans? || e.Cleared? ||
    e.Completes? || e.PoolUpdates? || e.CallbackLocks? || e.CallbackScans?
  }

  function Past(h: History, s: Serial): seq<Msg> { if s in h then h[s] else [] }

  function Log(h: History, m: Msg): History { h[m.serial := Past(h, m.serial) + [m]] }

  predicate Enabled(w: World, e: Event) {
    match e
    case StartDropped => w.pending > 0 && !w.stackUp
    case StartEntered => w.pending > 0 && w.lock == Free
    case StartScans => w.lock == Starting && (Scan(w.core).next.Some? ==> w.cb == Quiet)
    case Cleared => w.lock.Clearing?
    case Completes(_) => w.outstanding > 0 && w.cb == Quiet
    case PoolUpdates => w.cb.Notified?
    case CallbackLocks => w.cb == Updated && w.lock == Free
    case CallbackScans => w.lock == Rescanning
    case WriteOption(call) => call in w.options && w.lock == Free
    case _ => true
  }

  /** sendMessage up to the release of the pool lock: a handover, or the gap before clearing. */
  function Scans(w: World, byCallback: bool): World {
    var r := Scan(w.core);
    match r.next
    case Some(m) =>
      w.(core := r.core, xfer := Accept(m), outstanding := w.outstanding + 1, sends := w.sends + 1,
         handed := w.handed + [m], lock := Free, cb := if byCallback then Quiet else w.cb)
    case None => w.(core := r.core, lock := Clearing(byCallback), excused := {})
  }

  function DeliverableSerials(c: Core): set<Serial> {
    set s | s in c.pools && DeliverableIn(c.pools, s, c.auto)
  }

  function Completion(w: World, status: Status): World
    requires w.outstanding > 0
  {
    var (x, o) := Done(w.xfer, status);
    match o
    case Ignored => w.(outstanding := w.outstanding - 1)
    case Resent => w.(xfer := x, sends := w.sends + 1)
    case Reported(m, st) => w.(xfer := x, outstanding := w.outstanding - 1, cb := Notified(m, st))
  }

  function Next(w: World, e: Event): World
    requires Enabled(w, e)
  {
    match e
    case Add(m) => w.(core := AddInternal(w.core, m), added := Log(w.added, m), pending := w.pending + 1)
    case Sync(m) => w.(core := AddInternal(w.core, m), added := Log(w.added, m), excused := w.excused + {m.serial})
    case GoesOnline(s) => if s in w.core.pools then w.(core := Online(w.core, s), pending := w.pending + 1) else w
    case Raise(s, uid) =>
      if CanResend(w.core, s, uid) then w.(core := Resend(w.core, s, uid), pending := w.pending + 1) else w
    case StackChanges(up) => w.(stackUp := up)
    case ReadOption(v) => w.(options := w.options + multiset{OptionCall(v, v && !w.core.auto)})
    case WriteOption(call) =>
      w.(core := w.core.(auto := call.enable), options := w.options - multiset{call},
         pending := w.pending + if call.start then 1 else 0)
    case StartDropped =>
      w.(pending := w.pending - 1,
         excused := if w.started && !w.lock.Clearing? then w.excused else w.excused + DeliverableSerials(w.core))
    case StartEntered =>
      if w.started then w.(pending := w.pending - 1)
      else w.(pending := w.pending - 1, started := true, lock := Starting)
    case StartScans => Scans(w, false)
    case Cleared => w.(started := false, lock := Free, cb := if w.lock.byCallback then Quiet else w.cb)
    case Completes(status) => Completion(w, status)
    case PoolUpdates =>
      w.(core := StatusUpdate(w.core, w.cb.msg, w.cb.status), cb := Updated,
         confirmed := if w.cb.status == Sent then Log(w.confirmed, w.cb.msg) else w.confirmed)
    case CallbackLocks => w.(lock := Rescanning)
    case CallbackScans => Scans(w, true)
  }

  ghost predicate Runs(w: World, es: seq<Event>, v: World)
    decreases |es|
  {
    if es == [] then w == v
    else Enabled(w, es[0]) && Runs(Next(w, es[0]), es[1..], v)
  }

  lemma {:induction false} RunsJoin(w: World, a: seq<Event>, u: World, b: seq<Event>, v: World)
    requires Runs(w, a, u) && Runs(u, b, v)
    ensures Runs(w, a + b, v)
    decreases |a|
  {
    if a == [] {
      assert a + b == b;
    } else {
      RunsJoin(Next(w, a[0]), a[1..], u, b, v);
      assert (a + b)[1..] == a[1..] + b;
    }
  }

  ghost predicate Initial(w: World) {
    && w.core.pools == map[] && w.core.priority == []
    && !w.started && w.xfer.msg.retries == 0 && w.outstanding == 0
    && w.lock == Free && w.cb == Quiet && w.pending == 0 && w.options == multiset{}
    && w.added == map[] && w.confirmed == map[] && w.excused == {}
  }

  // Control ----------------------------------------------------------------------------------

  /** Where `started_`, the transport, the completion thread and the lock can stand together. */
  predicate Control(w: World) {
    && w.xfer.msg.retries >= 0
    && w.outstanding == (if Busy(w.xfer) then 1 else 0)
    && (Busy(w.xfer) ==> 1 <= w.xfer.counter <= w.xfer.msg.retries)
    && (w.cb != Quiet ==> !Busy(w.xfer))
    && match w.lock
       case Free => w.started <==> Busy(w.xfer) || w.cb != Quiet
       case Starting => w.started && !Busy(w.xfer) && w.cb == Quiet
       case Rescanning => w.started && w.cb == Updated
       case Clearing(cbk) => w.started && !Busy(w.xfer) && w.cb == if cbk then Updated else Quiet
  }

  ghost predicate Inv(w: World) { RepInv(w.core) && Control(w) }

  lemma CoreStep(w: World, e: Event)
    requires RepInv(w.core) && Enabled(w, e)
    ensures RepInv(Next(w, e).core)
  {
    match e
    case Add(m) => AddRepInv(w.core, m);
    case Sync(m) => AddRepInv(w.core, m);
    case GoesOnline(s) => OnlineRepInv(w.core, s);
    case Raise(s, uid) => if CanResend(w.core, s, uid) { ResendRepInv(w.core, s, uid); }
    case StartScans => ScanRepInv(w.core);
    case CallbackScans => ScanRepInv(w.core);
    case PoolUpdates => StatusRepInv(w.core, w.cb.msg, w.cb.status);
    case _ =>
  }

  lemma ControlStep(w: World, e: Event)
    requires Inv(w) && Enabled(w, e)
    ensures Control(Next(w, e))
  {
    if e.StartScans? || e.CallbackScans? { ScanPicks(w.core); }
  }

  lemma InvStep(w: World, e: Event)
    requires Inv(w) && Enabled(w, e)
    ensures Inv(Next(w, e))
  {
    CoreStep(w, e);
    ControlStep(w, e);
  }

  lemma {:induction false} InvRun(w: World, es: seq<Event>, v: World)
    requires Inv(w) && Runs(w, es, v)
    ensures Inv(v)
    decreases |es|
  {
    if es != [] {
      InvStep(w, es[0]);
      InvRun(Next(w, es[0]), es[1..], v);
    }
  }

  /** In every reachable state: the pool map and the priorities agree, at most one message is
      outstanding, and outside the completion callback `started_` says exactly whether one is. */
  lemma SingleOutstanding(w: World, es: seq<Event>, v: World)
    requires Initial(w) && Runs(w, es, v)
    ensures RepInv(v.core)
    ensures v.outstanding <= 1
    ensures v.lock == Free && v.cb == Quiet ==>
              (v.started <==> v.outstanding == 1) && (v.started <==> v.xfer.msg.retries != 0)
  {
    InvRun(w, es, v);
  }

  /** The next step of the engine itself, when it has work to do. */
  function Progress(w: World): Event {
    if w.lock == Starting then StartScans
    else if w.lock == Rescanning then CallbackScans
    else if w.lock.Clearing? then Cleared
    else if w.cb.Notified? then PoolUpdates
    else if w.cb == Updated then CallbackLocks
    else if w.outstanding > 0 then Completes(Sent)
    else StartEntered
  }

  /** No deadlock between the locks of the pools, of `started_` and of the transport: whenever something is
      going on, some step of the engine itself is enabled. In particular a starting thread never waits for the
      transport's lock. The lock over the connectors is the subject of `Locks`. */
  lemma ProgressGoes(w: World)
    requires Inv(w) && (w.started || w.pending > 0 || w.outstanding > 0 || w.lock != Free || w.cb != Quiet)
    ensures Enabled(w, Progress(w)) && Internal(Progress(w)) && !Progress(w).StartDropped?
    ensures Progress(w).StartEntered? ==> !w.started
  {}

  // No lost wakeup -----------------------------------------------------------------------------

  ghost predicate OnlyExcused(w: World) {
    forall s :: DeliverableIn(w.core.pools, s, w.core.auto) ==> s in w.excused
  }

  /** The engine has stopped and no caller is on its way to start it. */
  predicate Stopped(w: World) { !w.started && w.pending == 0 }

  ghost predicate Awake(w: World) {
    (!w.started || w.lock.Clearing?) && w.pending == 0 ==> OnlyExcused(w)
  }

  /** A write of the option that starts the engine, meets it running, or makes no pool deliverable that was
      not deliverable before. */
  ghost predicate Harmless(w: World, call: OptionCall) {
    !Stopped(w) || call.start ||
    forall s :: DeliverableIn(w.core.pools, s, call.enable) && !DeliverableIn(w.core.pools, s, w.core.auto) ==>
      s in w.excused
  }

  /** Exactly the harmless writes leave no pool waiting for nobody. */
  lemma WriteKeepsAwake(w: World, call: OptionCall)
    requires Control(w) && Awake(w) && Enabled(w, WriteOption(call))
    ensures Awake(Next(w, WriteOption(call))) <==> Harmless(w, call)
  {}

  lemma AwakeScan(w: World, byCallback: bool)
    requires RepInv(w.core) && w.started
    ensures Awake(Scans(w, byCallback))
  {
    ScanPicks(w.core);
    ScanKeeps(w.core);
  }

  lemma AwakeStep(w: World, e: Event)
    requires Inv(w) && Awake(w) && Enabled(w, e) && (e.WriteOption? ==> Harmless(w, e.call))
    ensures Awake(Next(w, e))
  {
    if e.StartScans? { AwakeScan(w, false); }
    else if e.CallbackScans? { AwakeScan(w, true); }
    else if e.WriteOption? { WriteKeepsAwake(w, e.call); }
    else if e.Sync? { AwakeSync(w, e.m); }
    else if e.PoolUpdates? { AwakeReport(w); }
    else if Internal(e) { AwakeInside(w, e); }
    else { AwakeOutside(w, e); }
  }

  lemma AwakeSync(w: World, m: Msg)
    requires Awake(w)
    ensures Awake(Next(w, Sync(m)))
  {
    forall s | s != m.serial
      ensures DeliverableIn(AddInternal(w.core, m).pools, s, w.core.auto) ==> DeliverableIn(w.core.pools, s,
          w.core.auto)
    {}
  }

  lemma AwakeReport(w: World)
    requires Control(w) && w.cb.Notified?
    ensures Awake(Next(w, PoolUpdates))
  {}

  lemma AwakeInside(w: World, e: Event)
    requires Inv(w) && Awake(w) && Enabled(w, e) && Internal(e) && !e.StartScans? && !e.CallbackScans?
        && !e.PoolUpdates?
    ensures Awake(Next(w, e))
  {}

  lemma AwakeOutside(w: World, e: Event)
    requires Inv(w) && Awake(w) && Enabled(w, e) && !Internal(e) && !e.Sync? && !e.WriteOption?
    ensures Awake(Next(w, e))
  {}

  ghost predicate HarmlessWrites(w: World, es: seq<Event>)
    decreases |es|
  {
    es == [] || (Enabled(w, es[0]) && (es[0].WriteOption? ==> Harmless(w, es[0].call))
        && HarmlessWrites(Next(w, es[0]), es[1..]))
  }

  /** Whenever the engine has stopped, every deliverable pool was filled or cleaned without a start. */
  ghost predicate NoneLost(w: World, es: seq<Event>)
    decreases |es|
  {
    (Stopped(w) ==> OnlyExcused(w)) && (es == [] || (Enabled(w, es[0]) && NoneLost(Next(w, es[0]), es[1..])))
  }

  lemma {:induction false} AwakeRun(w: World, es: seq<Event>, v: World)
    requires Inv(w) && Awake(w) && HarmlessWrites(w, es) && Runs(w, es, v)
    ensures Awake(v) && NoneLost(w, es)
    decreases |es|
  {
    if es != [] {
      InvStep(w, es[0]);
      AwakeStep(w, es[0]);
      AwakeRun(Next(w, es[0]), es[1..], v);
    }
  }

  /** Any other write loses a wakeup at once. */
  lemma HarmfulLoses(w: World, call: OptionCall)
    requires Control(w) && Awake(w) && Enabled(w, WriteOption(call)) && !Harmless(w, call)
    ensures Stopped(Next(w, WriteOption(call))) && !OnlyExcused(Next(w, WriteOption(call)))
  {
    WriteKeepsAwake(w, call);
  }

  lemma {:induction false} NoneLostRun(w: World, es: seq<Event>, v: World)
    requires Inv(w) && Awake(w) && NoneLost(w, es) && Runs(w, es, v)
    ensures HarmlessWrites(w, es)
    decreases |es|
  {
    if es != [] {
      if es[0].WriteOption? && !Harmless(w, es[0].call) { HarmfulLoses(w, es[0].call); }
      InvStep(w, es[0]);
      AwakeStep(w, es[0]);
      NoneLostRun(Next(w, es[0]), es[1..], v);
    }
  }

  /** No lost wakeup, exactly: under every interleaving, from any reachable state in which none is lost, and so
      from the start, a run loses none if and only if every write of the option in it is harmless. */
  lemma NoLostWakeup(w0: World, before: seq<Event>, w: World, es: seq<Event>, v: World)
    requires Initial(w0) && Runs(w0, before, w) && (before == [] || Awake(w)) && Runs(w, es, v)
    ensures NoneLost(w, es) <==> HarmlessWrites(w, es)
  {
    InvRun(w0, before, w);
    if HarmlessWrites(w, es) { AwakeRun(w, es, v); }
    if NoneLost(w, es) { NoneLostRun(w, es, v); }
  }

  /** Pools are excused only by sync and by a start that meets a stopped SIP stack. */
  lemma {:induction false} ExcusedOnlyBy(w: World, es: seq<Event>, v: World)
    requires Runs(w, es, v) && forall i :: 0 <= i < |es| ==> !es[i].Sync? && !es[i].StartDropped?
    ensures v.excused <= w.excused
    decreases |es|
  {
    if es != [] {
      assert !es[0].Sync? && !es[0].StartDropped?;
      ExcusedStep(w, es[0]);
      ExcusedOnlyBy(Next(w, es[0]), es[1..], v);
    }
  }

  lemma ExcusedStep(w: World, e: Event)
    requires Enabled(w, e) && !e.Sync? && !e.StartDropped?
    ensures Next(w, e).excused <= w.excused
  {}
}
