/** Conservation in every mode, switched at will, when the messages of a recipient carry distinct
    UIDs; and what goes wrong when they do not. */
module DistinctUids {
  import opened Base
  import opened Payload
  import opened Pool
  import opened Transport
  import opened EngineSpec
  import opened World
  import opened Conservation

  ghost predicate NoDupUids(q: seq<Msg>) {
    forall i, j :: 0 <= i < j < |q| ==> q[i].uid != q[j].uid
  }

  function Uids(q: seq<Msg>): set<int> { set i | 0 <= i < |q| :: q[i].uid }

  /** The messages of `a`, in order, whose UID is not in `done`. */
  function Sift(a: seq<Msg>, done: set<int>): seq<Msg> {
    if a == [] then []
    else (if a[0].uid in done then [] else [a[0]]) + Sift(a[1..], done)
  }

  lemma {:induction false} SiftAppend(a: seq<Msg>, b: seq<Msg>, done: set<int>)
    ensures Sift(a + b, done) == Sift(a, done) + Sift(b, done)
  {
    if a == [] {
      assert a + b == b;
    } else {
      var h := if a[0].uid in done then [] else [a[0]];
      SiftAppend(a[1..], b, done);
      assert (a + b)[0] == a[0] && (a + b)[1..] == a[1..] + b;
      assert h + (Sift(a[1..], done) + Sift(b, done)) == h + Sift(a[1..], done) + Sift(b, done);
    }
  }

  lemma {:induction false} SiftMember(a: seq<Msg>, done: set<int>, m: Msg)
    ensures m in Sift(a, done) <==> m in a && m.uid !in done
  {
    if a != [] {
      SiftMember(a[1..], done, m);
      assert a == [a[0]] + a[1..];
    }
  }

  lemma {:induction false} SiftNoDup(a: seq<Msg>, done: set<int>)
    requires NoDupUids(a)
    ensures NoDupUids(Sift(a, done))
  {
    if a != [] {
      SiftNoDup(a[1..], done);
      var t := Sift(a[1..], done);
      forall j | 0 <= j < |t| ensures t[j].uid != a[0].uid {
        SiftMember(a[1..], done, t[j]);
        var k :| 0 <= k < |a[1..]| && a[1..][k] == t[j];
        assert a[k + 1].uid != a[0].uid;
      }
    }
  }

  lemma {:induction false} SiftTwice(a: seq<Msg>, done: set<int>, more: set<int>)
    ensures Sift(Sift(a, done), more) == Sift(a, done + more)
  {
    if a != [] {
      SiftTwice(a[1..], done, more);
      SiftAppend(if a[0].uid in done then [] else [a[0]], Sift(a[1..], done), more);
    }
  }

  lemma {:induction false} SiftNothing(a: seq<Msg>, done: set<int>)
    requires forall i :: 0 <= i < |a| ==> a[i].uid !in done
    ensures Sift(a, done) == a
  {
    if a != [] { SiftNothing(a[1..], done); }
  }

  lemma SiftOne(q: seq<Msg>, k: nat)
    requires k < |q| && NoDupUids(q)
    ensures Sift(q, {q[k].uid}) == RemoveAt(q, k)
  {
    var a, b, done := q[..k], q[k + 1..], {q[k].uid};
    AroundAt(q, k);
    SiftAround(a, q[k], b, done);
  }

  lemma AroundAt<T>(q: seq<T>, k: nat)
    requires k < |q|
    ensures q == q[..k] + ([q[k]] + q[k + 1..])
  {}

  lemma SiftAround(a: seq<Msg>, m: Msg, b: seq<Msg>, done: set<int>)
    requires m.uid in done
    requires forall i :: 0 <= i < |a| ==> a[i].uid !in done
    requires forall i :: 0 <= i < |b| ==> b[i].uid !in done
    ensures Sift(a + ([m] + b), done) == a + b
  {
    SiftAppend(a, [m] + b, done);
    SiftHead(m, b, done);
    SiftNothing(a, done);
    SiftNothing(b, done);
  }

  lemma SiftHead(m: Msg, rest: seq<Msg>, done: set<int>)
    requires m.uid in done
    ensures Sift([m] + rest, done) == Sift(rest, done)
  {
    assert ([m] + rest)[1..] == rest;
  }

  /** The books of one recipient: added, confirmed, queued. */
  ghost predicate Books(a: seq<Msg>, c: seq<Msg>, q: seq<Msg>) {
    && q == Sift(a, Uids(c))
    && NoDupUids(c)
    && forall m :: m in c ==> m in a
  }

  lemma BooksOpen(q: seq<Msg>)
    ensures Books(q, [], q)
  {
    SiftNothing(q, Uids([]));
  }

  lemma BooksGain(a: seq<Msg>, c: seq<Msg>, q: seq<Msg>, gain: seq<Msg>)
    requires Books(a, c, q) && |gain| <= 1 && NoDupUids(a + gain)
    ensures Books(a + gain, c, q + gain)
  {
    SiftAppend(a, gain, Uids(c));
    forall i | 0 <= i < |gain| ensures gain[i].uid !in Uids(c) {
      forall j | 0 <= j < |c| ensures c[j].uid != gain[i].uid {
        assert c[j] in a;
        var k :| 0 <= k < |a| && a[k] == c[j];
        assert (a + gain)[k] == c[j] && (a + gain)[|a| + i] == gain[i];
      }
    }
    SiftNothing(gain, Uids(c));
  }

  lemma BooksConfirm(a: seq<Msg>, c: seq<Msg>, q: seq<Msg>, m: Msg, k: nat)
    requires Books(a, c, q) && NoDupUids(a) && k < |q| && q[k] == m
    ensures Books(a, c + [m], RemoveAt(q, k))
  {
    SiftNoDup(a, Uids(c));
    SiftOne(q, k);
    SiftTwice(a, Uids(c), {m.uid});
    assert Uids(c + [m]) == Uids(c) + {m.uid} by {
      forall u ensures u in Uids(c + [m]) <==> u in Uids(c) + {m.uid} {
        if u in Uids(c) { var i :| 0 <= i < |c| && c[i].uid == u; assert (c + [m])[i].uid == u; }
        if u == m.uid { assert (c + [m])[|c|].uid == u; }
      }
    }
    SiftMember(a, Uids(c), m);
    assert m in q;
    forall i | 0 <= i < |c| ensures c[i].uid != m.uid { assert c[i].uid in Uids(c); }
  }

  /** What has passed since a state with `a` added, `c` confirmed and `q` queued. */
  function Entered(w: World, s: Serial, a: nat, q: seq<Msg>): seq<Msg>
    requires a <= |AddedTo(w, s)|
  {
    q + AddedTo(w, s)[a..]
  }

  function Left(w: World, s: Serial, c: nat): seq<Msg>
    requires c <= |ConfirmedTo(w, s)|
  {
    ConfirmedTo(w, s)[c..]
  }

  ghost predicate BooksOf(w: World, s: Serial, a: nat, c: nat, q: seq<Msg>) {
    && a <= |AddedTo(w, s)| && c <= |ConfirmedTo(w, s)|
    && Books(Entered(w, s, a, q), Left(w, s, c), Queue(w.core, s))
  }

  /** `m` is queued for its recipient, when `exact` with the retries it has. */
  ghost predicate Queued(c: Core, m: Msg, exact: bool) {
    m.serial in c.pools &&
    exists k :: 0 <= k < |c.pools[m.serial].messages| && QueuedAs(c.pools[m.serial].messages[k], m, exact)
  }

  predicate QueuedAs(q: Msg, m: Msg, exact: bool) {
    Bare(q) == Bare(m) && (exact ==> q.retries == m.retries)
  }

  /** The message in flight is somewhere in its queue, with the retries it was handed over with. */
  ghost predicate QueuedFlies(w: World) {
    InFlight(w).Some? ==> Queued(w.core, InFlight(w).value, Busy(w.xfer))
  }

  ghost predicate FlightInv(w: World) {
    Inv(w) && Flying(w) && QueuedFlies(w)
  }

  lemma FlightIndex(w: World)
    requires FlightInv(w) && InFlight(w).Some?
    ensures var m := InFlight(w).value;
            && m.serial in w.core.pools && !w.core.pools[m.serial].dirty
            && IndexOf(w.core.pools[m.serial].messages, m.uid) >= 0
  {
    var m := InFlight(w).value;
    var ms := w.core.pools[m.serial].messages;
    var k :| 0 <= k < |ms| && QueuedAs(ms[k], m, Busy(w.xfer));
    assert ms[k].uid == m.uid;
  }

  lemma LastsQueued(c: Core, d: Core, m: Msg, exact: bool, still: bool)
    requires Lasts(c, d, m.serial) && Queued(c, m, exact) && !c.pools[m.serial].dirty && (still ==> exact)
    ensures Queued(d, m, still)
  {
    var ms := c.pools[m.serial].messages;
    var k :| 0 <= k < |ms| && QueuedAs(ms[k], m, exact);
    assert QueuedAs(d.pools[m.serial].messages[k], m, still);
  }

  lemma QueuedScan(w: World, byCallback: bool)
    requires RepInv(w.core) && Scan(w.core).next.Some?
    ensures QueuedFlies(Scans(w, byCallback))
  {
    HandoverFrom(w.core);
    var m := Scan(w.core).next.value;
    var ms := Scan(w.core).core.pools[m.serial].messages;
    assert QueuedAs(ms[OfferIndex(ms, w.core.auto)], m, true);
  }

  lemma QueuedOther(w: World, e: Event)
    requires FlightInv(w) && Enabled(w, e) && !Scanning(e) && !e.PoolUpdates?
    ensures QueuedFlies(Next(w, e))
  {
    FlightStays(w, e);
    var v := Next(w, e);
    if InFlight(v).Some? {
      var m := InFlight(w).value;
      CoreLasts(w, e, m.serial);
      LastsQueued(w.core, v.core, m, Busy(w.xfer), Busy(v.xfer));
      QueuedSame(v.core, m, InFlight(v).value, Busy(v.xfer));
    }
  }

  lemma QueuedSame(c: Core, m: Msg, n: Msg, exact: bool)
    requires Queued(c, m, exact) && Bare(m) == Bare(n) && (exact ==> m == n)
    ensures Queued(c, n, exact)
  {
    var ms := c.pools[m.serial].messages;
    var k :| 0 <= k < |ms| && QueuedAs(ms[k], m, exact);
    assert QueuedAs(ms[k], n, exact);
  }

  lemma FlightStep(w: World, e: Event)
    requires FlightInv(w) && Enabled(w, e)
    ensures FlightInv(Next(w, e))
  {
    InvStep(w, e);
    FlyingStep(w, e);
    if Scanning(e) {
      if Scan(w.core).next.Some? { QueuedScan(w, e.CallbackScans?); } else { NoFlightAfterScan(w, e); }
    } else if e.PoolUpdates? {
      FlightStays(w, e);
    } else {
      QueuedOther(w, e);
    }
  }

  lemma {:induction false} FlightRun(w: World, es: seq<Event>, v: World)
    requires FlightInv(w) && Runs(w, es, v)
    ensures FlightInv(v)
    decreases |es|
  {
    if es != [] {
      FlightStep(w, es[0]);
      FlightRun(Next(w, es[0]), es[1..], v);
    }
  }

  lemma EnteredStep(w: World, e: Event, s: Serial, a: nat, q: seq<Msg>)
    requires Enabled(w, e) && a <= |AddedTo(w, s)|
    ensures a <= |AddedTo(Next(w, e), s)| && Entered(Next(w, e), s, a, q) == Entered(w, s, a, q) + Gain(e, s)
  {
    AddedStep(w, e, s);
    assert (AddedTo(w, s) + Gain(e, s))[a..] == AddedTo(w, s)[a..] + Gain(e, s);
  }

  lemma LeftStep(w: World, e: Event, s: Serial, c: nat)
    requires Enabled(w, e) && c <= |ConfirmedTo(w, s)|
    ensures c <= |ConfirmedTo(Next(w, e), s)| && Left(Next(w, e), s, c) == Left(w, s, c) + Confirmation(w, e, s)
  {
    ConfirmedStep(w, e, s);
    assert (ConfirmedTo(w, s) + Confirmation(w, e, s))[c..] == ConfirmedTo(w, s)[c..] + Confirmation(w, e, s);
  }

  lemma BooksStepConfirm(w: World, s: Serial, a: nat, c: nat, q: seq<Msg>)
    requires FlightInv(w) && w.cb.Notified? && BooksOf(w, s, a, c, q) && NoDupUids(Entered(w, s, a, q))
    ensures BooksOf(Next(w, PoolUpdates), s, a, c, q)
  {
    var m := w.cb.msg;
    EnteredStep(w, PoolUpdates, s, a, q);
    LeftStep(w, PoolUpdates, s, c);
    StatusQueue(w.core, m, w.cb.status, s);
    if w.cb.status == Sent && s == m.serial {
      var ms := w.core.pools[s].messages;
      var k :| 0 <= k < |ms| && QueuedAs(ms[k], m, Busy(w.xfer));
      SiftNoDup(Entered(w, s, a, q), Uids(Left(w, s, c)));
      FirstIsOnly(ms, k);
      BooksConfirm(Entered(w, s, a, q), Left(w, s, c), Queue(w.core, s), Bare(m), k);
    }
  }

  lemma FirstIsOnly(ms: seq<Msg>, k: nat)
    requires k < |ms| && NoDupUids(Bares(ms))
    ensures IndexOf(ms, ms[k].uid) == k
  {
    var i := IndexOf(ms, ms[k].uid);
    assert Bares(ms)[i].uid == Bares(ms)[k].uid;
  }

  lemma BooksOpenAt(w: World, s: Serial)
    ensures BooksOf(w, s, |AddedTo(w, s)|, |ConfirmedTo(w, s)|, Queue(w.core, s))
  {
    var q := Queue(w.core, s);
    BooksOpen(q);
    assert Entered(w, s, |AddedTo(w, s)|, q) == q && Left(w, s, |ConfirmedTo(w, s)|) == [];
  }

  lemma BooksStep(w: World, e: Event, s: Serial, a: nat, c: nat, q: seq<Msg>)
    requires FlightInv(w) && Enabled(w, e) && BooksOf(w, s, a, c, q)
    requires NoDupUids(Entered(w, s, a, q) + Gain(e, s))
    ensures BooksOf(Next(w, e), s, a, c, q)
  {
    if e.PoolUpdates? {
      assert Entered(w, s, a, q) + [] == Entered(w, s, a, q);
      BooksStepConfirm(w, s, a, c, q);
    } else {
      BooksStepGain(w, e, s, a, c, q);
    }
  }

  lemma BooksStepGain(w: World, e: Event, s: Serial, a: nat, c: nat, q: seq<Msg>)
    requires RepInv(w.core) && Enabled(w, e) && !e.PoolUpdates? && BooksOf(w, s, a, c, q)
    requires NoDupUids(Entered(w, s, a, q) + Gain(e, s))
    ensures BooksOf(Next(w, e), s, a, c, q)
  {
    EnteredStep(w, e, s, a, q);
    LeftStep(w, e, s, c);
    QueueStep(w, e, s);
    assert Confirmation(w, e, s) == [];
    BooksGain(Entered(w, s, a, q), Left(w, s, c), Queue(w.core, s), Gain(e, s));
  }

  lemma {:induction false} EnteredGrows(w: World, es: seq<Event>, v: World, s: Serial, a: nat, q: seq<Msg>)
    requires Runs(w, es, v) && a <= |AddedTo(w, s)|
    ensures a <= |AddedTo(v, s)| && Entered(w, s, a, q) <= Entered(v, s, a, q)
    decreases |es|
  {
    if es != [] {
      EnteredStep(w, es[0], s, a, q);
      EnteredGrows(Next(w, es[0]), es[1..], v, s, a, q);
    }
  }

  lemma {:induction false} BooksRun(w: World, es: seq<Event>, v: World, s: Serial, a: nat, c: nat, q: seq<Msg>)
    requires FlightInv(w) && BooksOf(w, s, a, c, q) && Runs(w, es, v)
    requires a <= |AddedTo(v, s)| ==> NoDupUids(Entered(v, s, a, q))
    ensures BooksOf(v, s, a, c, q)
    decreases |es|
  {
    if es != [] {
      var u := Next(w, es[0]);
      EnteredStep(w, es[0], s, a, q);
      EnteredGrows(u, es[1..], v, s, a, q);
      FlightStep(w, es[0]);
      BooksStep(w, es[0], s, a, c, q);
      BooksRun(u, es[1..], v, s, a, c, q);
    }
  }

  /** In every run from any reachable state, in manual or auto mode and however often the mode is switched: if
      the messages then queued for a recipient and added since have distinct UIDs, its queue is exactly those
      of them that are not confirmed since, in order; nothing is confirmed twice, and only what was queued or
      added. */
  lemma NothingLostWithDistinctUids(w0: World, before: seq<Event>, w: World, es: seq<Event>, v: World, s: Serial)
    requires Initial(w0) && Runs(w0, before, w) && Runs(w, es, v)
    requires var a := |AddedTo(w, s)|; a <= |AddedTo(v, s)| ==> NoDupUids(Entered(v, s, a, Queue(w.core, s)))
    ensures |AddedTo(w, s)| <= |AddedTo(v, s)| && |ConfirmedTo(w, s)| <= |ConfirmedTo(v, s)|
    ensures var entered := Entered(v, s, |AddedTo(w, s)|, Queue(w.core, s));
            var confirmed := Left(v, s, |ConfirmedTo(w, s)|);
            && Queue(v.core, s) == Sift(entered, Uids(confirmed))
            && NoDupUids(confirmed)
            && forall m :: m in confirmed ==> m in entered
  {
    var q := Queue(w.core, s);
    FlightRun(w0, before, w);
    BooksOpenAt(w, s);
    BooksRun(w, es, v, s, |AddedTo(w, s)|, |ConfirmedTo(w, s)|, q);
  }
}
