/** Left to itself the engine stops: how long it can go on, how much it can send, and what is left. */
module Quiescence {
  import opened Base
  import opened Payload
  import opened Pool
  import opened Transport
  import opened Sorting
  import opened EngineSpec
  import opened World
  import opened Everywhere
  import opened Options
  import opened Conservation
  import opened DistinctUids

  // Sums over the messages in clean pools ---------------------------------------------------

  /** A quantity that does not depend on the processed mark. */
  ghost predicate Markless(f: Msg -> nat) {
    forall m: Msg, b: bool :: f(m.(processed := b)) == f(m)
  }

  function Total(ms: seq<Msg>, f: Msg -> nat): nat {
    if ms == [] then 0 else f(ms[0]) + Total(ms[1..], f)
  }

  function Share(pools: map<Serial, Pool>, s: Serial, f: Msg -> nat): nat {
    if s in pools && !pools[s].dirty then Total(pools[s].messages, f) else 0
  }

  function SumOver(p: seq<Serial>, pools: map<Serial, Pool>, f: Msg -> nat): nat {
    if p == [] then 0 else Share(pools, p[0], f) + SumOver(p[1..], pools, f)
  }

  function CleanSum(c: Core, f: Msg -> nat): nat { SumOver(c.priority, c.pools, f) }

  function One(m: Msg): nat { 1 }

  function Tries(m: Msg): nat { if m.retries > 0 then m.retries else 0 }

  lemma {:induction false} TotalSame(a: seq<Msg>, b: seq<Msg>, f: Msg -> nat)
    requires Markless(f) && |a| == |b| && forall i :: 0 <= i < |a| ==> b[i] == a[i].(processed := b[i].processed)
    ensures Total(a, f) == Total(b, f)
  {
    if a != [] {
      assert f(a[0].(processed := b[0].processed)) == f(a[0]);
      TotalSame(a[1..], b[1..], f);
    }
  }

  lemma {:induction false} TotalRemove(ms: seq<Msg>, k: nat, f: Msg -> nat)
    requires k < |ms|
    ensures Total(ms, f) == Total(RemoveAt(ms, k), f) + f(ms[k])
  {
    if k == 0 {
      assert RemoveAt(ms, 0) == ms[1..];
    } else {
      TotalRemove(ms[1..], k - 1, f);
      assert RemoveAt(ms, k)[0] == ms[0] && RemoveAt(ms, k)[1..] == RemoveAt(ms[1..], k - 1);
    }
  }

  lemma {:induction false} SumAgree(p: seq<Serial>, a: map<Serial, Pool>, b: map<Serial, Pool>, f: Msg -> nat)
    requires forall s :: s in p ==> Share(a, s, f) == Share(b, s, f)
    ensures SumOver(p, a, f) == SumOver(p, b, f)
  {
    if p != [] { SumAgree(p[1..], a, b, f); }
  }

  lemma {:induction false} SumInsert(s: Serial, p: seq<Serial>, w: Serial -> int, pools: map<Serial, Pool>,
                                     f: Msg -> nat)
    ensures SumOver(Insert(s, p, w), pools, f) == Share(pools, s, f) + SumOver(p, pools, f)
  {
    if p == [] || w(s) <= w(p[0]) {
      assert ([s] + p)[1..] == p;
    } else {
      SumInsert(s, p[1..], w, pools, f);
      assert ([p[0]] + Insert(s, p[1..], w))[1..] == Insert(s, p[1..], w);
    }
  }

  lemma {:induction false} SumSort(p: seq<Serial>, w: Serial -> int, pools: map<Serial, Pool>, f: Msg -> nat)
    ensures SumOver(StableSort(p, w), pools, f) == SumOver(p, pools, f)
  {
    if p != [] {
      SumSort(p[1..], w, pools, f);
      SumInsert(p[0], StableSort(p[1..], w), w, pools, f);
    }
  }

  /** Changing one pool changes the sum by the change of its share. */
  lemma {:induction false} SumPut(p: seq<Serial>, s: Serial, a: map<Serial, Pool>, b: map<Serial, Pool>, f: Msg -> nat)
    requires NoDup(p) && s in p && forall t :: t in p && t != s ==> Share(a, t, f) == Share(b, t, f)
    ensures SumOver(p, b, f) + Share(a, s, f) == SumOver(p, a, f) + Share(b, s, f)
  {
    if p[0] == s {
      assert p == [s] + p[1..];
      SumAgree(p[1..], a, b, f);
    } else {
      SumPut(p[1..], s, a, b, f);
    }
  }

  lemma {:induction false} SumErase(p: seq<Serial>, s: Serial, a: map<Serial, Pool>, f: Msg -> nat)
    requires s in p
    ensures SumOver(RemoveFirst(p, s), a, f) + Share(a, s, f) == SumOver(p, a, f)
  {
    if p[0] != s {
      SumErase(p[1..], s, a, f);
      assert ([p[0]] + RemoveFirst(p[1..], s))[1..] == RemoveFirst(p[1..], s);
    }
  }

  lemma ScanSum(c: Core, f: Msg -> nat)
    requires RepInv(c)
    ensures CleanSum(Scan(c).core, f) == CleanSum(c, f)
  {
    ScanKeeps(c);
    var d := Scan(c).core;
    SumSort(c.priority, WeightIn(c.pools), c.pools, f);
    forall s | s in d.priority ensures Share(c.pools, s, f) == Share(d.pools, s, f) {
      assert s in d.pools;
      assert SweptFrom(d.pools[s], c.pools[s]);
    }
    SumAgree(d.priority, c.pools, d.pools, f);
  }

  lemma ConfirmedTotal(ms: seq<Msg>, uid: int, f: Msg -> nat)
    requires Markless(f) && IndexOf(ms, uid) >= 0
    ensures Total(ms, f) == Total(Confirmed(ms, uid), f) + f(ms[IndexOf(ms, uid)])
  {
    var k := IndexOf(ms, uid);
    var marked := MarkUid(ms, uid, true);
    MarkUidIndex(ms, uid, true, uid);
    TotalSame(ms, marked, f);
    TotalRemove(marked, k, f);
    assert f(ms[k].(processed := true)) == f(ms[k]);
  }

  /** What happens to the sum when the pool of `s` is replaced, or erased with its priority. */
  lemma PutSum(c: Core, s: Serial, p: Pool, f: Msg -> nat)
    requires RepInv(c) && s in c.pools && !c.pools[s].dirty
    ensures CleanSum(c.(pools := c.pools[s := p]), f) ==
            CleanSum(c, f) - Total(c.pools[s].messages, f) + if p.dirty then 0 else Total(p.messages, f)
  {
    assert s in c.priority;
    SumPut(c.priority, s, c.pools, c.pools[s := p], f);
  }

  lemma EraseSum(c: Core, s: Serial, f: Msg -> nat)
    requires RepInv(c) && s in c.pools && !c.pools[s].dirty
    ensures CleanSum(c.(pools := c.pools - {s}, priority := RemoveFirst(c.priority, s)), f) ==
            CleanSum(c, f) - Total(c.pools[s].messages, f)
  {
    assert s in c.priority;
    var p := RemoveFirst(c.priority, s);
    SumErase(c.priority, s, c.pools, f);
    RemoveFirstFacts(c.priority, s);
    SumAgree(p, c.pools, c.pools - {s}, f);
  }

  /** What a report takes out of the sum: the confirmed message, or the whole pool. */
  lemma StatusSum(c: Core, m: Msg, status: Status, f: Msg -> nat)
    requires RepInv(c) && Markless(f)
    requires m.serial in c.pools && !c.pools[m.serial].dirty && IndexOf(c.pools[m.serial].messages, m.uid) >= 0
    ensures var ms := c.pools[m.serial].messages;
            CleanSum(StatusUpdate(c, m, status), f) ==
            CleanSum(c, f) - if status == Sent then f(ms[IndexOf(ms, m.uid)]) else Total(ms, f)
  {
    if status == NotSent { PutSum(c, m.serial, Refused(c.pools[m.serial], m.uid), f); } else { SentSum(c, m, f); }
  }

  lemma SentSum(c: Core, m: Msg, f: Msg -> nat)
    requires RepInv(c) && Markless(f)
    requires m.serial in c.pools && !c.pools[m.serial].dirty && IndexOf(c.pools[m.serial].messages, m.uid) >= 0
    ensures var ms := c.pools[m.serial].messages;
            CleanSum(StatusUpdate(c, m, Sent), f) == CleanSum(c, f) - f(ms[IndexOf(ms, m.uid)])
  {
    var s := m.serial;
    var p := c.pools[s];
    var rest := Confirmed(p.messages, m.uid);
    ConfirmedTotal(p.messages, m.uid, f);
    if rest == [] { EraseSum(c, s, f); }
    else { PutSum(c, s, p.(messages := rest, weight := ClampWeight(p.weight + 1)), f); }
  }

  /** The number of messages in clean pools: every report strictly lowers it and no other internal
      step changes it. */
  lemma CleanDrops(w: World, e: Event)
    requires FlightInv(w) && Internal(e) && Enabled(w, e)
    ensures var n := CleanSum(Next(w, e).core, One);
            if e.PoolUpdates? then n < CleanSum(w.core, One) else n == CleanSum(w.core, One)
  {
    if e.PoolUpdates? {
      FlightIndex(w);
      StatusSum(w.core, w.cb.msg, w.cb.status, One);
    } else if e.StartScans? || e.CallbackScans? {
      ScanSum(w.core, One);
    }
  }

  // Termination --------------------------------------------------------------------------------

  function AtMost(cap: nat): Msg -> bool { (m: Msg) => m.retries <= cap }

  /** No message has more than `cap` retries. */
  ghost predicate Capped(w: World, cap: nat) {
    Every(w.core, AtMost(cap)) && (Busy(w.xfer) ==> w.xfer.counter <= cap)
  }

  function Stage(w: World, cap: nat): int {
    match w.lock
    case Starting => cap + 6
    case Rescanning => cap + 7
    case Clearing(_) => 1
    case Free =>
      if Busy(w.xfer) then w.xfer.counter + 5
      else if w.cb.Notified? then 5
      else if w.cb == Updated then cap + 8
      else 0
  }

  /** A bound on the internal steps still to come. */
  function Rank(w: World, cap: nat): int {
    CleanSum(w.core, One) * (cap + 8) + w.pending * (cap + 7) + Stage(w, cap)
  }

  lemma CappedScan(c: Core, cap: nat)
    requires RepInv(c) && Every(c, AtMost(cap)) && Scan(c).next.Some?
    ensures Scan(c).next.value.retries <= cap
  {
    HandoverFrom(c);
    var m := Scan(c).next.value;
    assert All(c.pools[m.serial].messages, AtMost(cap));
  }

  lemma CappedStep(w: World, e: Event, cap: nat)
    requires Inv(w) && Capped(w, cap) && Internal(e) && Enabled(w, e)
    ensures Capped(Next(w, e), cap)
  {
    EveryStep(w, e, AtMost(cap));
    if Scanning(e) && Scan(w.core).next.Some? { CappedScan(w.core, cap); }
  }

  lemma {:induction false} Fewer(a: nat, b: nat, k: nat)
    requires a < b
    ensures a * k + k <= b * k
  {
    if a + 1 == b {
      assert b * k == a * k + k;
    } else {
      Fewer(a, b - 1, k);
      assert b * k == (b - 1) * k + k;
    }
  }

  lemma StageFalls(w: World, e: Event, cap: nat)
    requires Inv(w) && Capped(w, cap) && Internal(e) && Enabled(w, e)
    ensures var v := Next(w, e);
            if e.PoolUpdates? then v.pending == w.pending && Stage(v, cap) <= cap + 8 && Stage(w, cap) == 5
            else v.pending <= w.pending && Stage(v, cap) + v.pending * (cap + 7) < Stage(w, cap) + w.pending * (cap + 7)
  {
    if Scanning(e) && Scan(w.core).next.Some? {
      CappedScan(w.core, cap);
      HandoverFrom(w.core);
    }
    if e.StartDropped? || e.StartEntered? { Fewer(w.pending - 1, w.pending, cap + 7); }
  }

  lemma RankFalls(w: World, e: Event, cap: nat)
    requires FlightInv(w) && Capped(w, cap) && Internal(e) && Enabled(w, e)
    ensures Rank(Next(w, e), cap) < Rank(w, cap)
  {
    CleanDrops(w, e);
    StageFalls(w, e, cap);
    if e.PoolUpdates? { Fewer(CleanSum(Next(w, e).core, One), CleanSum(w.core, One), cap + 8); }
  }

  ghost predicate AllInternal(es: seq<Event>) {
    forall i :: 0 <= i < |es| ==> Internal(es[i])
  }

  lemma {:induction false} RankRun(w: World, es: seq<Event>, v: World, cap: nat)
    requires FlightInv(w) && Capped(w, cap) && AllInternal(es) && Runs(w, es, v)
    ensures FlightInv(v) && Capped(v, cap) && |es| + Rank(v, cap) <= Rank(w, cap)
    decreases |es|
  {
    if es != [] {
      var e := es[0];
      FlightStep(w, e);
      CappedStep(w, e, cap);
      RankFalls(w, e, cap);
      RankRun(Next(w, e), es[1..], v, cap);
    }
  }

  function Max(a: nat, b: nat): nat { if a < b then b else a }

  function MostTries(ms: seq<Msg>): nat {
    if ms == [] then 0 else Max(Tries(ms[0]), MostTries(ms[1..]))
  }

  function MostOver(p: seq<Serial>, pools: map<Serial, Pool>): nat {
    if p == [] then 0
    else Max(if p[0] in pools then MostTries(pools[p[0]].messages) else 0, MostOver(p[1..], pools))
  }

  /** The largest number of attempts any message may still take. */
  function Cap(w: World): nat {
    Max(MostOver(w.core.priority, w.core.pools), if w.xfer.counter > 0 then w.xfer.counter else 0)
  }

  lemma {:induction false} MostIsMost(ms: seq<Msg>, i: nat)
    requires i < |ms|
    ensures ms[i].retries <= MostTries(ms)
  {
    if i > 0 { MostIsMost(ms[1..], i - 1); }
  }

  lemma {:induction false} MostOverIsMost(p: seq<Serial>, pools: map<Serial, Pool>, s: Serial)
    requires s in p && s in pools
    ensures MostTries(pools[s].messages) <= MostOver(p, pools)
  {
    if p[0] != s { MostOverIsMost(p[1..], pools, s); }
  }

  lemma CapCaps(w: World)
    requires RepInv(w.core)
    ensures Capped(w, Cap(w))
  {
    forall s | s in w.core.pools ensures All(w.core.pools[s].messages, AtMost(Cap(w))) {
      MostOverIsMost(w.core.priority, w.core.pools, s);
      forall i | 0 <= i < |w.core.pools[s].messages| ensures w.core.pools[s].messages[i].retries <= Cap(w) {
        MostIsMost(w.core.pools[s].messages, i);
      }
    }
  }

  lemma RankNat(w: World, cap: nat)
    requires Control(w)
    ensures Rank(w, cap) >= 0
  {
    assert 0 <= CleanSum(w.core, One) * (cap + 8) && 0 <= w.pending * (cap + 7);
  }

  /** From any reachable state, in any mode and whatever the outcomes of the sends, the engine by itself
      makes at most Rank steps: it stops. */
  lemma Stops(w0: World, before: seq<Event>, w: World, es: seq<Event>, v: World)
    requires Initial(w0) && Runs(w0, before, w)
    requires AllInternal(es) && Runs(w, es, v)
    ensures |es| <= Rank(w, Cap(w))
  {
    FlightRun(w0, before, w);
    CapCaps(w);
    RankRun(w, es, v, Cap(w));
    RankNat(v, Cap(w));
  }

  // Sends --------------------------------------------------------------------------------------

  /** The attempts of the queued message that a confirmation of `m` would remove. */
  function FirstTries(c: Core, m: Msg): nat {
    if m.serial in c.pools && IndexOf(c.pools[m.serial].messages, m.uid) >= 0
    then Tries(c.pools[m.serial].messages[IndexOf(c.pools[m.serial].messages, m.uid)]) else 0
  }

  /** SIP sends that may still come from the messages in clean pools. */
  function Owed(w: World): int {
    CleanSum(w.core, Tries) - (if InFlight(w).Some? then FirstTries(w.core, InFlight(w).value) else 0)
    + if Busy(w.xfer) then w.xfer.counter - 1 else 0
  }

  /** The message handed over is backed by the first queued one with its UID. */
  predicate Backed(c: Core) {
    Scan(c).next.Some? ==> Scan(c).next.value.retries <= FirstTries(c, Scan(c).next.value)
  }

  lemma BeforeScan(w: World, e: Event)
    requires Control(w) && Enabled(w, e) && Scanning(e)
    ensures InFlight(w) == None
  {}

  lemma FirstTriesKept(c: Core)
    requires RepInv(c) && Scan(c).next.Some?
    ensures FirstTries(Scan(c).core, Scan(c).next.value) == FirstTries(c, Scan(c).next.value)
  {
    HandoverFrom(c);
  }

  lemma OwedAfterScan(w: World, byCallback: bool)
    requires RepInv(w.core)
    requires Scan(w.core).next == None ==> InFlight(Scans(w, byCallback)) == None
    ensures var v := Scans(w, byCallback);
            v.sends + Owed(v) == w.sends + CleanSum(w.core, Tries) +
              match Scan(w.core).next
              case Some(m) => m.retries - FirstTries(w.core, m)
              case None => 0
  {
    ScanSum(w.core, Tries);
    if Scan(w.core).next.Some? {
      FirstTriesKept(w.core);
      HandoverFrom(w.core);
    }
  }

  /** A scan keeps the account exactly when what it hands over is backed. */
  lemma OwedScan(w: World, e: Event)
    requires Inv(w) && Enabled(w, e) && Scanning(e)
    ensures Next(w, e).sends + Owed(Next(w, e)) <= w.sends + Owed(w) <==> Backed(w.core)
  {
    BeforeScan(w, e);
    if Scan(w.core).next == None { NoFlightAfterScan(w, e); }
    OwedAfterScan(w, e.CallbackScans?);
  }

  lemma {:induction false} TotalAtLeast(ms: seq<Msg>, k: nat, f: Msg -> nat)
    requires k < |ms|
    ensures f(ms[k]) <= Total(ms, f)
  {
    if k > 0 { TotalAtLeast(ms[1..], k - 1, f); }
  }

  lemma OwedReport(w: World)
    requires FlightInv(w) && w.cb.Notified?
    ensures Owed(Next(w, PoolUpdates)) <= Owed(w)
  {
    FlightIndex(w);
    ReportPays(w.core, w.cb.msg, w.cb.status);
    FlightStays(w, PoolUpdates);
  }

  /** A report takes at least the attempts of the first message with the UID out of the sum. */
  lemma ReportPays(c: Core, m: Msg, status: Status)
    requires RepInv(c) && m.serial in c.pools && !c.pools[m.serial].dirty
        && IndexOf(c.pools[m.serial].messages, m.uid) >= 0
    ensures CleanSum(StatusUpdate(c, m, status), Tries) <= CleanSum(c, Tries) - FirstTries(c, m)
  {
    var ms := c.pools[m.serial].messages;
    StatusSum(c, m, status, Tries);
    TotalAtLeast(ms, IndexOf(ms, m.uid), Tries);
  }

  function SendsAhead(w: World): int { w.sends + if Busy(w.xfer) then w.xfer.counter - 1 else 0 }

  /** The step neither touches the pools nor spends more sends than were ahead. */
  predicate Spends(w: World, v: World) {
    && v.core == w.core && InFlight(v).Some? == InFlight(w).Some? && SendsAhead(v) <= SendsAhead(w)
    && (InFlight(w).Some? ==> Bare(InFlight(v).value) == Bare(InFlight(w).value))
  }

  lemma OwedCompletes(w: World, status: Status)
    requires Control(w) && Enabled(w, Completes(status))
    ensures Spends(w, Next(w, Completes(status)))
  {}

  lemma OwedOther(w: World, e: Event)
    requires Control(w) && Internal(e) && Enabled(w, e) && !Scanning(e) && !e.PoolUpdates? && !e.Completes?
    ensures Spends(w, Next(w, e))
  {}

  lemma OwedKept(w: World, v: World)
    requires Spends(w, v)
    ensures v.sends + Owed(v) <= w.sends + Owed(w)
  {
    if InFlight(w).Some? {
      var m, n := InFlight(w).value, InFlight(v).value;
      assert m.serial == n.serial && m.uid == n.uid;
    }
  }

  lemma OwedStep(w: World, e: Event)
    requires FlightInv(w) && Internal(e) && Enabled(w, e) && (Scanning(e) ==> Backed(w.core))
    ensures Next(w, e).sends + Owed(Next(w, e)) <= w.sends + Owed(w)
  {
    if Scanning(e) { OwedScan(w, e); }
    else if e.PoolUpdates? { OwedReport(w); }
    else {
      if e.Completes? { OwedCompletes(w, e.status); } else { OwedOther(w, e); }
      OwedKept(w, Next(w, e));
    }
  }

  /** The message in flight is backed. */
  predicate FlightBacked(w: World) {
    Busy(w.xfer) ==> w.xfer.counter <= FirstTries(w.core, w.xfer.msg)
  }

  ghost predicate BackedInv(w: World) { FlightInv(w) && FlightBacked(w) }

  lemma FirstTriesLasts(c: Core, d: Core, m: Msg)
    requires Lasts(c, d, m.serial) && m.serial in c.pools && !c.pools[m.serial].dirty
    requires IndexOf(c.pools[m.serial].messages, m.uid) >= 0
    ensures FirstTries(d, m) == FirstTries(c, m)
  {
    var a, b := c.pools[m.serial].messages, d.pools[m.serial].messages;
    forall i | 0 <= i < |a| ensures a[i].uid == b[i].uid { assert Bare(a[i]).uid == Bare(b[i]).uid; }
    IndexOfStable(a, b, m.uid);
  }

  lemma CounterFalls(w: World, e: Event)
    requires Enabled(w, e) && !Scanning(e) && Busy(Next(w, e).xfer)
    ensures Next(w, e).xfer.msg == w.xfer.msg && Next(w, e).xfer.counter <= w.xfer.counter
  {}

  lemma BackedStep(w: World, e: Event)
    requires BackedInv(w) && Enabled(w, e) && (Scanning(e) ==> Backed(w.core))
    ensures BackedInv(Next(w, e))
  {
    FlightStep(w, e);
    if Scanning(e) {
      if Scan(w.core).next.Some? { FirstTriesKept(w.core); } else { NoFlightAfterScan(w, e); }
    } else if Busy(Next(w, e).xfer) {
      CounterFalls(w, e);
      FlightIndex(w);
      if !e.PoolUpdates? {
        CoreLasts(w, e, w.xfer.msg.serial);
        FirstTriesLasts(w.core, Next(w, e).core, w.xfer.msg);
      }
    }
  }

  /** Whatever is handed over in the run is backed. */
  ghost predicate AllBacked(w: World, es: seq<Event>)
    decreases |es|
  {
    es == [] || (Enabled(w, es[0]) && (Scanning(es[0]) ==> Backed(w.core)) && AllBacked(Next(w, es[0]), es[1..]))
  }

  lemma {:induction false} BackedRun(w: World, es: seq<Event>, v: World)
    requires BackedInv(w) && AllBacked(w, es) && Runs(w, es, v)
    ensures BackedInv(v)
    decreases |es|
  {
    if es != [] {
      BackedStep(w, es[0]);
      BackedRun(Next(w, es[0]), es[1..], v);
    }
  }

  lemma {:induction false} OwedRun(w: World, es: seq<Event>, v: World)
    requires BackedInv(w) && AllBacked(w, es) && AllInternal(es) && Runs(w, es, v)
    ensures v.sends + Owed(v) <= w.sends + Owed(w)
    decreases |es|
  {
    if es != [] {
      OwedStep(w, es[0]);
      BackedStep(w, es[0]);
      OwedRun(Next(w, es[0]), es[1..], v);
    }
  }

  lemma {:induction false} ShareInSum(p: seq<Serial>, pools: map<Serial, Pool>, s: Serial, f: Msg -> nat)
    requires s in p
    ensures Share(pools, s, f) <= SumOver(p, pools, f)
  {
    if p[0] != s { ShareInSum(p[1..], pools, s, f); }
  }

  lemma OwedBounds(w: World)
    requires BackedInv(w)
    ensures 0 <= Owed(w) <= CleanSum(w.core, Tries)
  {
    if InFlight(w).Some? {
      var m := InFlight(w).value;
      FlightIndex(w);
      var ms := w.core.pools[m.serial].messages;
      assert m.serial in w.core.priority;
      TotalAtLeast(ms, IndexOf(ms, m.uid), Tries);
      ShareInSum(w.core.priority, w.core.pools, m.serial, Tries);
    }
  }

  /** In any mode, from any reachable state whose message in flight, if any, is backed: as long as whatever is
      handed over is backed, the SIP sends the engine makes by itself are at most the retry counts of the
      messages in clean pools, summed. */
  lemma SendsBounded(w0: World, before: seq<Event>, w: World, es: seq<Event>, v: World)
    requires Initial(w0) && Runs(w0, before, w) && FlightBacked(w)
    requires AllInternal(es) && Runs(w, es, v) && AllBacked(w, es)
    ensures v.sends - w.sends <= CleanSum(w.core, Tries)
  {
    FlightRun(w0, before, w);
    OwedRun(w, es, v);
    OwedBounds(w);
    BackedRun(w, es, v);
    OwedBounds(v);
  }

  /** A head is always backed, so auto mode meets the condition. */
  lemma {:induction false} AutoBacked(w: World, es: seq<Event>, v: World)
    requires Inv(w) && StaysAuto(w, es) && Runs(w, es, v)
    ensures AllBacked(w, es)
    decreases |es|
  {
    if es != [] {
      if Scan(w.core).next.Some? { HandoverFrom(w.core); }
      InvStep(w, es[0]);
      AutoBacked(Next(w, es[0]), es[1..], v);
    }
  }

  /** The retries of a message follow from its recipient and UID, by `rate`. */
  function Rated(rate: (Serial, int) -> int): Msg -> bool { (m: Msg) => m.retries == rate(m.serial, m.uid) }

  lemma RatedBacked(c: Core, rate: (Serial, int) -> int)
    requires RepInv(c) && Every(c, Rated(rate))
    ensures Backed(c)
  {
    if Scan(c).next.Some? {
      HandoverFrom(c);
      var m := Scan(c).next.value;
      var ms := c.pools[m.serial].messages;
      var i := IndexOf(ms, m.uid);
      assert PoolInv(m.serial, c.pools[m.serial]);
      assert ms[OfferIndex(ms, c.auto)] == m;
      assert Rated(rate)(ms[i]) && Rated(rate)(m);
    }
  }

  lemma RatedFlight(w: World, rate: (Serial, int) -> int)
    requires FlightInv(w) && Every(w.core, Rated(rate))
    ensures FlightBacked(w)
  {
    if Busy(w.xfer) {
      var m := w.xfer.msg;
      var ms := w.core.pools[m.serial].messages;
      assert PoolInv(m.serial, w.core.pools[m.serial]) && All(ms, Rated(rate));
      var k :| 0 <= k < |ms| && QueuedAs(ms[k], m, true);
      assert ms[k].uid == Bare(ms[k]).uid == Bare(m).uid == m.uid;
      var i := IndexOf(ms, m.uid);
      assert Rated(rate)(ms[i]) && Rated(rate)(ms[k]) && ms[i].serial == ms[k].serial;
    }
  }

  lemma {:induction false} RatedRun(w: World, es: seq<Event>, v: World, rate: (Serial, int) -> int)
    requires Inv(w) && Every(w.core, Rated(rate)) && AllInternal(es) && Runs(w, es, v)
    ensures AllBacked(w, es)
    decreases |es|
  {
    if es != [] {
      RatedBacked(w.core, rate);
      InvStep(w, es[0]);
      EveryStep(w, es[0], Rated(rate));
      RatedRun(Next(w, es[0]), es[1..], v, rate);
    }
  }

  /** The bound without a condition on the run, from any reachable state: when recipient and UID determine the
      retries of the messages queued, as distinct UIDs do and as all of SMKEX does. */
  lemma SendsBoundedByUid(w0: World, before: seq<Event>, w: World, es: seq<Event>, v: World, rate: (Serial, int) -> int)
    requires Initial(w0) && Runs(w0, before, w) && Every(w.core, Rated(rate))
    requires AllInternal(es) && Runs(w, es, v)
    ensures v.sends - w.sends <= CleanSum(w.core, Tries)
  {
    FlightRun(w0, before, w);
    RatedFlight(w, rate);
    RatedRun(w, es, v, rate);
    SendsBounded(w0, before, w, es, v);
  }

  /** And when auto-resend is on and the message in flight, if any, is backed. */
  lemma SendsBoundedInAutoMode(w0: World, before: seq<Event>, w: World, es: seq<Event>, v: World)
    requires Initial(w0) && Runs(w0, before, w) && w.core.auto && FlightBacked(w)
    requires AllInternal(es) && Runs(w, es, v)
    ensures v.sends - w.sends <= CleanSum(w.core, Tries)
  {
    InvRun(w0, before, w);
    AutoStays(w, es, v);
    AutoBacked(w, es, v);
    SendsBounded(w0, before, w, es, v);
  }

  /** The engine by itself never touches the option. */
  lemma {:induction false} AutoStays(w: World, es: seq<Event>, v: World)
    requires w.core.auto && AllInternal(es) && Runs(w, es, v)
    ensures StaysAuto(w, es)
    decreases |es|
  {
    if es != [] {
      OptionKept(w, es[0]);
      AutoStays(Next(w, es[0]), es[1..], v);
    }
  }

  // What is left --------------------------------------------------------------------------------

  ghost predicate AtRest(w: World) {
    forall e :: Internal(e) ==> !Enabled(w, e)
  }

  /** A message that is offered in this mode and can be sent. */
  predicate Ready(m: Msg, auto: bool) {
    m.retries > 0 && (auto || m.kind != Message || !m.processed)
  }

  /** A pool that is gone, or still clean with nothing but such messages. */
  ghost predicate Sendable(c: Core, s: Serial) {
    s in c.pools ==>
      !c.pools[s].dirty && AllReady(c.pools[s].messages, c.auto)
  }

  ghost predicate AllReady(ms: seq<Msg>, auto: bool) {
    forall i :: 0 <= i < |ms| ==> Ready(ms[i], auto)
  }

  lemma ScanSendable(c: Core, s: Serial)
    requires RepInv(c) && Sendable(c, s)
    ensures Sendable(Scan(c).core, s)
  {
    ScanKeeps(c);
  }

  lemma ReportSendable(c: Core, m: Msg, status: Status, s: Serial)
    requires Sendable(c, s) && (m.serial == s ==> status == Sent)
    ensures Sendable(StatusUpdate(c, m, status), s)
  {
    ReportRemoves(c, m, status, s);
    var d := StatusUpdate(c, m, status);
    if s in d.pools && d.pools[s].messages != c.pools[s].messages {
      var k :| 0 <= k < |c.pools[s].messages| && d.pools[s].messages == RemoveAt(c.pools[s].messages, k);
      RemoveReady(c.pools[s].messages, k, c.auto);
    }
  }

  lemma RemoveReady(ms: seq<Msg>, k: nat, auto: bool)
    requires k < |ms| && AllReady(ms, auto)
    ensures AllReady(RemoveAt(ms, k), auto)
  {
    forall i | 0 <= i < |ms| - 1 ensures Ready(RemoveAt(ms, k)[i], auto) { var j := RemoveAtFrom(ms, k, i); }
  }

  lemma SendableStep(w: World, e: Event, s: Serial)
    requires Inv(w) && Sendable(w.core, s) && Internal(e) && Enabled(w, e) && !Refuses(w, e, s)
    ensures Sendable(Next(w, e).core, s)
  {
    if Scanning(e) { ScanSendable(w.core, s); }
    else if e.PoolUpdates? { ReportSendable(w.core, w.cb.msg, w.cb.status, s); }
    else { CoreStays(w, e); }
  }

  lemma {:induction false} SendableRun(w: World, es: seq<Event>, v: World, s: Serial)
    requires Inv(w) && Sendable(w.core, s) && AllInternal(es) && NoRefusals(w, es, s) && Runs(w, es, v)
    ensures Inv(v) && Sendable(v.core, s)
    decreases |es|
  {
    if es != [] {
      InvStep(w, es[0]);
      SendableStep(w, es[0], s);
      SendableRun(Next(w, es[0]), es[1..], v, s);
    }
  }

  lemma RestIsIdle(v: World)
    requires Inv(v) && AtRest(v)
    ensures Stopped(v)
  {
    assert !Enabled(v, StartScans) && !Enabled(v, CallbackScans) && !Enabled(v, Cleared);
    assert !Enabled(v, PoolUpdates) && !Enabled(v, CallbackLocks) && !Enabled(v, Completes(Sent))
        && !Enabled(v, StartEntered);
  }

  lemma {:induction false} HarmlessInside(w: World, es: seq<Event>, v: World)
    requires AllInternal(es) && Runs(w, es, v)
    ensures HarmlessWrites(w, es)
    decreases |es|
  {
    if es != [] { HarmlessInside(Next(w, es[0]), es[1..], v); }
  }

  lemma RestServed(v: World, s: Serial)
    requires Inv(v) && Awake(v) && Sendable(v.core, s) && Stopped(v)
    ensures s in v.core.pools ==> s in v.excused
  {
    if s in v.core.pools {
      assert PoolInv(s, v.core.pools[s]);
      assert Ready(v.core.pools[s].messages[0], v.core.auto);
      assert DeliverableIn(v.core.pools, s, v.core.auto);
    }
  }

  /** In any mode, whatever the UIDs and whatever happens to other recipients, from any reachable state in
      which no wakeup is lost: when no message to `s` is refused, the engine comes to rest only after emptying
      the pool of `s`, if it is clean and all its messages can be sent, unless it was filled without a start
      since a scan last found nothing. */
  lemma Drained(w0: World, before: seq<Event>, w: World, es: seq<Event>, v: World, s: Serial)
    requires Initial(w0) && Runs(w0, before, w) && Awake(w)
    requires AllInternal(es) && NoRefusals(w, es, s) && Runs(w, es, v) && AtRest(v)
    requires Sendable(w.core, s)
    ensures s in v.core.pools ==> s in v.excused
  {
    InvRun(w0, before, w);
    SendableRun(w, es, v, s);
    HarmlessInside(w, es, v);
    AwakeRun(w, es, v);
    RestIsIdle(v);
    RestServed(v, s);
  }

  /** The next scan without a find is still to come, or nothing is excused since the last one. */
  ghost predicate Waking(w: World) {
    w.pending > 0 || (w.started && !w.lock.Clearing?) || w.excused == {}
  }

  lemma WakingStep(w: World, e: Event)
    requires Control(w) && Waking(w) && w.stackUp && Internal(e) && Enabled(w, e)
    ensures Waking(Next(w, e)) && Next(w, e).stackUp
  {
    if Scanning(e) { WakingScan(w, e.CallbackScans?); }
  }

  lemma WakingScan(w: World, byCallback: bool)
    requires w.started
    ensures Waking(Scans(w, byCallback)) && Scans(w, byCallback).stackUp == w.stackUp
  {}

  lemma {:induction false} WakingRun(w: World, es: seq<Event>, v: World)
    requires Inv(w) && Waking(w) && w.stackUp && AllInternal(es) && Runs(w, es, v)
    ensures Inv(v) && Waking(v)
    decreases |es|
  {
    if es != [] {
      InvStep(w, es[0]);
      WakingStep(w, es[0]);
      WakingRun(Next(w, es[0]), es[1..], v);
    }
  }

  /** With the SIP stack up, an engine that is on its way to a scan comes to rest with no deliverable pool at
      all. */
  lemma RestsWithoutWork(w0: World, before: seq<Event>, w: World, es: seq<Event>, v: World)
    requires Initial(w0) && Runs(w0, before, w) && Awake(w) && Waking(w) && w.stackUp
    requires AllInternal(es) && Runs(w, es, v) && AtRest(v)
    ensures v.excused == {} && forall s :: !DeliverableIn(v.core.pools, s, v.core.auto)
  {
    InvRun(w0, before, w);
    WakingRun(w, es, v);
    HarmlessInside(w, es, v);
    AwakeRun(w, es, v);
    RestIsIdle(v);
  }
}
