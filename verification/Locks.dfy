/** The fourth lock of the engine: the one over the database connectors. syncWithDBConnectors holds it while
    it takes the pool lock for every message; the regions that mark pools hold the pool lock while they take it
    to notify the connectors. Every run with this lock is a run of World; some of them get stuck for good. */
module Locks {
  import opened Base
  import opened Payload
  import opened Pool
  import opened Transport
  import opened EngineSpec
  import opened Sorting
  import opened World
  import opened Conservation
  import opened Witness

  /** A sync holds the connector lock from its first message to its last; `rest` are those still to add. */
  datatype Sync = NoSync | Syncing(rest: seq<Msg>)

  /** `told`: the completion thread has notified the connectors and is on its way to the pools.
      `waiting`: the region that holds the pool lock and waits for the connector lock. */
  datatype Locked = Locked(world: World, sync: Sync, told: bool, waiting: Option<Event>)

  datatype Act = Does(e: Event) | Tells | Waits(e: Event) | SyncBegins(ms: seq<Msg>) | SyncAdds | SyncEnds

  predicate Region(e: Event) { Scanning(e) || e.PoolUpdates? }

  predicate TakesPools(e: Event) { Region(e) || e.Add? || e.GoesOnline? || e.Raise? }

  // Marking ------------------------------------------------------------------------------------

  /** Whether the selection loop marks a pool before it hands over or ends. */
  predicate ScanMarksFrom(pools: map<Serial, Pool>, p: seq<Serial>, auto: bool, i: nat)
    requires i <= |p|
    decreases |p| - i
  {
    i < |p| &&
    var s := p[i];
    if s !in pools || pools[s].messages == [] then ScanMarksFrom(pools, p, auto, i + 1)
    else if pools[s].dirty then pools[s].weight != INT_MAX || ScanMarksFrom(pools, p, auto, i + 1)
    else Offer(pools[s].messages, auto).retries <= 0 && ScanMarksFrom(pools, p, auto, i + 1)
  }

  predicate ScanMarks(c: Core) { ScanMarksFrom(c.pools, StableSort(c.priority, WeightIn(c.pools)), c.auto, 0) }

  /** A scan notifies connectors exactly when it changes the pools. */
  lemma {:induction false} MarksChange(pools: map<Serial, Pool>, p: seq<Serial>, auto: bool, i: nat)
    requires i <= |p|
    ensures ScanMarksFrom(pools, p, auto, i) <==> ScanFrom(pools, p, auto, i).0 != pools
    decreases |p| - i
  {
    if i < |p| {
      var s := p[i];
      if s in pools && pools[s].messages != [] && pools[s].dirty {
        var marked := pools[s := MarkProcessed(pools[s])];
        if pools[s].weight == INT_MAX {
          assert marked == pools;
          MarksChange(pools, p, auto, i + 1);
        } else {
          var k := ScanFromFacts(marked, p, auto, i + 1);
          assert SweptFrom(ScanFrom(marked, p, auto, i + 1).0[s], marked[s]);
        }
      } else {
        MarksChange(pools, p, auto, i + 1);
      }
    }
  }

  /** A region about to mark: a dirty pool not at INT_MAX on the way of a scan, or a refused one. */
  predicate Marks(w: World, e: Event) {
    (Scanning(e) && ScanMarks(w.core)) ||
    (e.PoolUpdates? && w.cb.Notified? && w.cb.status == NotSent && w.cb.msg.serial in w.core.pools &&
     w.core.pools[w.cb.msg.serial].messages != [] && w.core.pools[w.cb.msg.serial].weight != INT_MAX)
  }

  /** A report notifies connectors exactly when it raises the weight of a refused pool. */
  lemma ReportMarks(w: World)
    requires Inv(w) && w.cb.Notified?
    ensures var s := w.cb.msg.serial;
            Marks(w, PoolUpdates) <==>
              w.cb.status == NotSent && s in w.core.pools &&
              Next(w, PoolUpdates).core.pools[s].weight != w.core.pools[s].weight
  {
    var s := w.cb.msg.serial;
    if s in w.core.pools { assert PoolInv(s, w.core.pools[s]); }
  }

  // Steps --------------------------------------------------------------------------------------

  predicate Can(l: Locked, a: Act) {
    match a
    case Does(e) =>
      && Enabled(l.world, e) && !e.Sync?
      && (e.PoolUpdates? ==> l.told)
      && (TakesPools(e) ==> l.waiting == None || l.waiting == Some(e))
      && (Marks(l.world, e) ==> l.sync == NoSync)
    case Tells => l.world.cb.Notified? && !l.told && l.sync == NoSync
    case Waits(e) =>
      Region(e) && Enabled(l.world, e) && Marks(l.world, e) && (e.PoolUpdates? ==> l.told)
      && l.waiting == None && l.sync != NoSync
    case SyncBegins(_) => l.sync == NoSync
    case SyncAdds => l.sync.Syncing? && l.sync.rest != [] && l.waiting == None
    case SyncEnds => l.sync == Syncing([])
  }

  function Do(l: Locked, a: Act): Locked
    requires Can(l, a)
  {
    match a
    case Does(e) => Locked(Next(l.world, e), l.sync, l.told && !e.PoolUpdates?, if Region(e) then None else l.waiting)
    case Tells => l.(told := true)
    case Waits(e) => l.(waiting := Some(e))
    case SyncBegins(ms) => l.(sync := Syncing(ms))
    case SyncAdds => l.(world := Next(l.world, Event.Sync(l.sync.rest[0])), sync := Syncing(l.sync.rest[1..]))
    case SyncEnds => l.(sync := NoSync)
  }

  ghost predicate Acts(l: Locked, acts: seq<Act>, m: Locked)
    decreases |acts|
  {
    if acts == [] then l == m else Can(l, acts[0]) && Acts(Do(l, acts[0]), acts[1..], m)
  }

  ghost predicate AtStart(l: Locked) {
    Initial(l.world) && l.sync == NoSync && !l.told && l.waiting == None
  }

  /** Nothing proved about World is lost: every run with the connector lock is one of its runs. */
  lemma {:induction false} RefinesWorld(l: Locked, acts: seq<Act>, m: Locked) returns (es: seq<Event>)
    requires Acts(l, acts, m)
    ensures Runs(l.world, es, m.world)
    decreases |acts|
  {
    if acts == [] {
      es := [];
    } else {
      es := RefinesWorld(Do(l, acts[0]), acts[1..], m);
      if acts[0].Does? {
        RunsCons(l.world, acts[0].e, Do(l, acts[0]).world, es, m.world);
        es := [acts[0].e] + es;
      } else if acts[0].SyncAdds? {
        var e := Event.Sync(l.sync.rest[0]);
        RunsCons(l.world, e, Do(l, acts[0]).world, es, m.world);
        es := [e] + es;
      }
    }
  }

  // Invariant ----------------------------------------------------------------------------------

  predicate WaitsFor(l: Locked, e: Event) {
    Region(e) && Enabled(l.world, e) && Marks(l.world, e) && (e.PoolUpdates? ==> l.told)
  }

  ghost predicate LockInv(l: Locked) {
    Inv(l.world) && (l.told ==> l.world.cb.Notified?) && (l.waiting.Some? ==> WaitsFor(l, l.waiting.value))
  }

  /** The steps that leave the pools and the report of the completion thread alone. */
  lemma Undisturbed(w: World, e: Event)
    requires Inv(w) && Enabled(w, e) && !TakesPools(e) && !e.Sync?
    ensures var v := Next(w, e);
            && v.core.pools == w.core.pools && v.core.priority == w.core.priority
            && (v.core.auto != w.core.auto ==> w.lock == Free)
            && (w.cb.Notified? ==> v.cb == w.cb)
            && (w.lock == Starting || w.lock == Rescanning ==> v.lock == w.lock && v.cb == w.cb)
  {
    if Internal(e) { UndisturbedInside(w, e); }
  }

  lemma UndisturbedInside(w: World, e: Event)
    requires Inv(w) && Enabled(w, e) && Internal(e) && !Region(e)
    ensures var v := Next(w, e);
            && v.core == w.core && (w.cb.Notified? ==> v.cb == w.cb)
            && (w.lock == Starting || w.lock == Rescanning ==> v.lock == w.lock && v.cb == w.cb)
  {}

  lemma WaitingStays(l: Locked, e: Event, x: Event)
    requires LockInv(l) && Can(l, Does(e)) && WaitsFor(l, x) && !TakesPools(e)
    ensures WaitsFor(Do(l, Does(e)), x)
  {
    Undisturbed(l.world, e);
    if Scanning(x) { assert Next(l.world, e).core == l.world.core; }
  }

  lemma NotifiedStays(w: World, e: Event)
    requires Inv(w) && Enabled(w, e) && w.cb.Notified? && !e.PoolUpdates?
    ensures Next(w, e).cb.Notified?
  {
    if Scanning(e) { ScanPicks(w.core); }
  }

  lemma LockStep(l: Locked, a: Act)
    requires LockInv(l) && Can(l, a)
    ensures LockInv(Do(l, a))
  {
    match a
    case Does(e) =>
      InvStep(l.world, e);
      if l.told && !e.PoolUpdates? { NotifiedStays(l.world, e); }
      if l.waiting.Some? && !TakesPools(e) { WaitingStays(l, e, l.waiting.value); }
    case SyncAdds =>
      InvStep(l.world, Event.Sync(l.sync.rest[0]));
      if l.told { NotifiedStays(l.world, Event.Sync(l.sync.rest[0])); }
    case _ =>
  }

  lemma {:induction false} LockRun(l: Locked, acts: seq<Act>, m: Locked)
    requires LockInv(l) && Acts(l, acts, m)
    ensures LockInv(m)
    decreases |acts|
  {
    if acts != [] {
      LockStep(l, acts[0]);
      LockRun(Do(l, acts[0]), acts[1..], m);
    }
  }

  // Deadlock -----------------------------------------------------------------------------------

  /** A sync waits for the pool lock, and the region that holds it waits for the sync. */
  predicate Deadlock(l: Locked) { l.waiting.Some? && l.sync.Syncing? && l.sync.rest != [] }

  /** Something is going on: a transfer, a scan, a report, a start or a sync. */
  predicate Working(l: Locked) {
    l.world.started || l.world.pending > 0 || l.world.outstanding > 0 || l.world.lock != Free || l.world.cb != Quiet
    || l.sync != NoSync
  }

  /** A step of whoever has work to do; a start that finds the engine running or the stack down is none. */
  predicate Advances(l: Locked, a: Act) {
    match a
    case Does(e) => Internal(e) && !e.StartDropped? && !(e.StartEntered? && l.world.started)
    case SyncBegins(_) => false
    case _ => true
  }

  /** What goes on next, when nothing is deadlocked. */
  function NextAct(l: Locked): Act {
    if l.sync == Syncing([]) then SyncEnds
    else if l.sync.Syncing? then SyncAdds
    else if l.waiting.Some? then Does(l.waiting.value)
    else if l.world.cb.Notified? && !l.told then Tells
    else Does(Progress(l.world))
  }

  lemma NotStuck(l: Locked)
    requires LockInv(l) && Working(l) && !Deadlock(l)
    ensures Advances(l, NextAct(l)) && Can(l, NextAct(l))
  {
    if NextAct(l) == Does(Progress(l.world)) { ProgressGoes(l.world); }
  }

  lemma Stuck(l: Locked, a: Act)
    requires LockInv(l) && Deadlock(l) && Advances(l, a)
    ensures !Can(l, a)
  {
    if a.Does? { WaitingOnly(l.world, l.waiting.value, a.e); }
  }

  /** While a region is enabled, so is no other step of the engine. */
  lemma WaitingOnly(w: World, x: Event, e: Event)
    requires Inv(w) && Region(x) && Enabled(w, x) && Internal(e) && !e.StartDropped? && !(e.StartEntered? && w.started)
    ensures Enabled(w, e) ==> TakesPools(e)
    ensures Enabled(w, e) && Marks(w, x) && x == e ==> Marks(w, e)
  {}

  /** Freedom from deadlock, exactly: in every reachable state in which something is going on, some step of
      whoever has work to do is possible, if and only if no sync with messages left waits for the pool lock
      against a region that is about to mark a pool. */
  lemma NeverStuckExactly(l: Locked, acts: seq<Act>, m: Locked)
    requires AtStart(l) && Acts(l, acts, m) && Working(m)
    ensures Deadlock(m) <==> forall a :: Advances(m, a) ==> !Can(m, a)
  {
    LockRun(l, acts, m);
    if Deadlock(m) {
      forall a | Advances(m, a) ensures !Can(m, a) { Stuck(m, a); }
    } else {
      NotStuck(m);
    }
  }

  /** How a run gets there: a marking region meets a sync that has messages left, or such a sync takes the
      lock before a region that waits for it. */
  lemma DeadlockEntered(l: Locked, a: Act)
    requires LockInv(l) && !Deadlock(l) && Can(l, a)
    ensures Deadlock(Do(l, a)) <==>
              (a.Waits? && l.sync.rest != []) || (a.SyncBegins? && a.ms != [] && l.waiting.Some?)
  {}

  lemma DeadlockStep(l: Locked, a: Act)
    requires LockInv(l) && Deadlock(l) && Can(l, a)
    ensures Deadlock(Do(l, a)) && Do(l, a).world.handed == l.world.handed && Do(l, a).world.sends == l.world.sends
    ensures Do(l, a).world.core.pools == l.world.core.pools
  {
    if a.Does? {
      if Internal(a.e) && !a.e.StartDropped? && !(a.e.StartEntered? && l.world.started) { Stuck(l, a); }
      else { DeadlockedRest(l.world, a.e); }
    }
  }

  lemma DeadlockedRest(w: World, e: Event)
    requires Enabled(w, e) && !TakesPools(e) && !e.Sync?
    requires !Internal(e) || e.StartDropped? || (e.StartEntered? && w.started)
    ensures Next(w, e).handed == w.handed && Next(w, e).sends == w.sends && Next(w, e).core.pools == w.core.pools
  {}

  /** And it lasts for good: no message is sent or handed over any more, and no pool changes. */
  lemma {:induction false} DeadlockLasts(l: Locked, acts: seq<Act>, m: Locked)
    requires LockInv(l) && Deadlock(l) && Acts(l, acts, m)
    ensures Deadlock(m) && m.world.handed == l.world.handed && m.world.sends == l.world.sends
    ensures m.world.core.pools == l.world.core.pools
    decreases |acts|
  {
    if acts != [] {
      LockStep(l, acts[0]);
      DeadlockStep(l, acts[0]);
      DeadlockLasts(Do(l, acts[0]), acts[1..], m);
    }
  }

  // A run that gets stuck ----------------------------------------------------------------------

  lemma ActsCons(l: Locked, a: Act, k: Locked, acts: seq<Act>, m: Locked)
    requires Can(l, a) && Do(l, a) == k && Acts(k, acts, m)
    ensures Acts(l, [a] + acts, m)
  {
    assert ([a] + acts)[1..] == acts;
  }

  function Unlocked(w: World): Locked { Locked(w, NoSync, false, None) }

  /** A message is added and handed over. */
  lemma TransferBegins(w: World, a: Msg) returns (acts: seq<Act>)
    requires w == Start(false, PLACEHOLDER) && a == Letter(1, 1, false)
    ensures Acts(Unlocked(w), acts, Unlocked(UnderWay(a)))
  {
    var w1 := w.(core := Only(Pool([a], 0, false), false), added := map["bob" := [a]], pending := 1);
    var w2 := w1.(pending := 0, started := true, lock := Starting);
    HandsOver(w2, StartScans, Pool([a], 0, false));
    assert [] + [a] == [a];
    ActsCons(Unlocked(w2), Does(StartScans), Unlocked(UnderWay(a)), [], Unlocked(UnderWay(a)));
    Enters(w1);
    ActsCons(Unlocked(w1), Does(StartEntered), Unlocked(w2), [Does(StartScans)] + [], Unlocked(UnderWay(a)));
    AddsFirst(w, a);
    acts := [Does(StartEntered)] + ([Does(StartScans)] + []);
    ActsCons(Unlocked(w), Does(Add(a)), Unlocked(w1), acts, Unlocked(UnderWay(a)));
    acts := [Does(Add(a))] + acts;
  }

  function UnderWay(a: Msg): World {
    Start(false, PLACEHOLDER).(core := Only(Pool([a], 0, false), false), added := map["bob" := [a]], started := true,
                               xfer := Accept(a), outstanding := 1, sends := 1, handed := [a])
  }

  function Failed(a: Msg): World {
    UnderWay(a).(outstanding := 0, xfer := Xfer(a.(retries := 0), 0), cb := Notified(a.(retries := 0), NotSent))
  }

  lemma {:induction false} ActsJoin(l: Locked, a: seq<Act>, k: Locked, b: seq<Act>, m: Locked)
    requires Acts(l, a, k) && Acts(k, b, m)
    ensures Acts(l, a + b, m)
    decreases |a|
  {
    if a == [] {
      assert a + b == b;
    } else {
      ActsJoin(Do(l, a[0]), a[1..], k, b, m);
      assert (a + b)[1..] == a[1..] + b;
    }
  }

  /** The transfer fails, and a sync begins before its report reaches the pools. */
  lemma SyncMeetsReport(a: Msg, b: Msg) returns (acts: seq<Act>, m: Locked)
    requires a == Letter(1, 1, false)
    ensures Acts(Unlocked(UnderWay(a)), acts, m) && Deadlock(m)
  {
    var l := Unlocked(Failed(a));
    var l1 := l.(told := true);
    var l2 := l1.(sync := Syncing([b]));
    m := l2.(waiting := Some(PoolUpdates));
    ActsCons(l2, Waits(PoolUpdates), m, [], m);
    acts := [Waits(PoolUpdates)] + [];
    ActsCons(l1, SyncBegins([b]), l2, acts, m);
    acts := [SyncBegins([b])] + acts;
    ActsCons(l, Tells, l1, acts, m);
    acts := [Tells] + acts;
    Reports(UnderWay(a), a, NotSent);
    ActsCons(Unlocked(UnderWay(a)), Does(Completes(NotSent)), l, acts, m);
    acts := [Does(Completes(NotSent))] + acts;
  }

  /** A sync of one message that begins while a failed transfer is on its way to the pools. */
  lemma SyncDeadlocks() returns (l: Locked, acts: seq<Act>, m: Locked)
    ensures AtStart(l) && Acts(l, acts, m) && Deadlock(m)
  {
    var w, a := Start(false, PLACEHOLDER), Letter(1, 1, false);
    l := Unlocked(w);
    var first := TransferBegins(w, a);
    var last;
    last, m := SyncMeetsReport(a, Letter(2, 2, false));
    ActsJoin(l, first, Unlocked(UnderWay(a)), last, m);
    acts := first + last;
  }
}
