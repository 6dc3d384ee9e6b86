/** Exactly which runs lose, duplicate or reorder nothing, in any mode and whatever the UIDs. */
module Lossless {
  import opened Base
  import opened Payload
  import opened Pool
  import opened Transport
  import opened EngineSpec
  import opened World
  import opened Conservation
  import opened DistinctUids

  /** The confirmation of a message to `s`. */
  predicate Confirms(w: World, e: Event, s: Serial) {
    e.PoolUpdates? && w.cb.Notified? && w.cb.status == Sent && w.cb.msg.serial == s
  }

  /** The message it takes out of the queue. */
  function TakenOut(w: World, s: Serial): Option<Msg>
    requires w.cb.Notified?
  {
    if s in w.core.pools && IndexOf(w.core.pools[s].messages, w.cb.msg.uid) >= 0
    then Some(Queue(w.core, s)[IndexOf(w.core.pools[s].messages, w.cb.msg.uid)]) else None
  }

  /** A confirmation takes out the message it confirms. */
  predicate TakesOwn(w: World, e: Event, s: Serial) {
    Confirms(w, e, s) ==> TakenOut(w, s) == Some(Bare(w.cb.msg))
  }

  /** And that message is the head of the queue. */
  predicate TakesHead(w: World, e: Event, s: Serial) {
    Confirms(w, e, s) ==> Queue(w.core, s) != [] && Queue(w.core, s)[0] == Bare(w.cb.msg)
  }

  lemma ReportChanges(w: World, s: Serial)
    requires FlightInv(w) && Confirms(w, PoolUpdates, s)
    ensures var v := Next(w, PoolUpdates);
            var i := IndexOf(w.core.pools[s].messages, w.cb.msg.uid);
            && AddedTo(v, s) == AddedTo(w, s) && ConfirmedTo(v, s) == ConfirmedTo(w, s) + [Bare(w.cb.msg)]
            && 0 <= i < |Queue(w.core, s)| && Queue(v.core, s) == RemoveAt(Queue(w.core, s), i)
            && TakenOut(w, s) == Some(Queue(w.core, s)[i])
  {
    FlightIndex(w);
    AddedStep(w, PoolUpdates, s);
    ConfirmedStep(w, PoolUpdates, s);
    StatusQueue(w.core, w.cb.msg, w.cb.status, s);
  }

  /** Every other step only lets messages in, at the end. */
  lemma OtherChanges(w: World, e: Event, s: Serial)
    requires RepInv(w.core) && Enabled(w, e) && !Confirms(w, e, s)
    ensures var v := Next(w, e);
            && AddedTo(v, s) == AddedTo(w, s) + Gain(e, s) && ConfirmedTo(v, s) == ConfirmedTo(w, s)
            && Queue(v.core, s) == Queue(w.core, s) + Gain(e, s)
  {
    AddedStep(w, e, s);
    ConfirmedStep(w, e, s);
    if e.PoolUpdates? {
      StatusQueue(w.core, w.cb.msg, w.cb.status, s);
      assert Queue(w.core, s) + [] == Queue(w.core, s);
    } else {
      QueueStep(w, e, s);
    }
  }

  // In order -------------------------------------------------------------------------------------

  lemma {:induction false} FirstAtHead(ms: seq<Msg>, m: Msg)
    requires IndexOf(ms, m.uid) >= 0
    ensures [Bare(m)] + RemoveAt(Bares(ms), IndexOf(ms, m.uid)) == Bares(ms) <==> Bares(ms)[0] == Bare(m)
  {
    if Bares(ms)[0] == Bare(m) {
      assert ms[0].uid == Bare(ms[0]).uid == m.uid;
    } else {
      assert ([Bare(m)] + RemoveAt(Bares(ms), IndexOf(ms, m.uid)))[0] == Bare(m);
    }
  }

  lemma OrderedReport(q: seq<Msg>, added: seq<Msg>, done: seq<Msg>, c: nat, queue: seq<Msg>, m: Msg, rest: seq<Msg>)
    requires c <= |done| && q + added == done[c..] + queue
    ensures q + added == (done + [m])[c..] + rest <==> queue == [m] + rest
  {
    assert (done + [m])[c..] == done[c..] + [m];
    assert (done[c..] + [m]) + rest == done[c..] + ([m] + rest);
    if done[c..] + queue == done[c..] + ([m] + rest) {
      assert (done[c..] + queue)[|done[c..]|..] == queue;
      assert (done[c..] + ([m] + rest))[|done[c..]|..] == [m] + rest;
    }
  }

  lemma OrderReport(w: World, s: Serial, a: nat, c: nat, q: seq<Msg>)
    requires FlightInv(w) && Confirms(w, PoolUpdates, s) && Ledger(w, s, a, c, q)
    ensures Ledger(Next(w, PoolUpdates), s, a, c, q) <==> TakesHead(w, PoolUpdates, s)
  {
    ReportChanges(w, s);
    FirstAtHead(w.core.pools[s].messages, w.cb.msg);
    OrderedReport(q, AddedTo(w, s)[a..], ConfirmedTo(w, s), c, Queue(w.core, s), Bare(w.cb.msg),
                  Queue(Next(w, PoolUpdates).core, s));
  }

  lemma OrderOther(w: World, e: Event, s: Serial, a: nat, c: nat, q: seq<Msg>)
    requires RepInv(w.core) && Enabled(w, e) && !Confirms(w, e, s) && Ledger(w, s, a, c, q)
    ensures Ledger(Next(w, e), s, a, c, q)
  {
    var now := Queue(w.core, s) + Gain(e, s);
    OtherChanges(w, e, s);
    assert [] + now == now && ConfirmedTo(w, s) + [] == ConfirmedTo(w, s);
    Rebalance(q, AddedTo(w, s), a, ConfirmedTo(w, s), c, Queue(w.core, s), Gain(e, s), [], now);
  }

  /** A step keeps the ledger of `s` exactly when it takes out no message but the head it confirms. */
  lemma OrderStep(w: World, e: Event, s: Serial, a: nat, c: nat, q: seq<Msg>)
    requires FlightInv(w) && Enabled(w, e) && Ledger(w, s, a, c, q)
    ensures Ledger(Next(w, e), s, a, c, q) <==> TakesHead(w, e, s)
  {
    if Confirms(w, e, s) { OrderReport(w, s, a, c, q); } else { OrderOther(w, e, s, a, c, q); }
  }

  ghost predicate AlwaysInOrder(w: World, es: seq<Event>, s: Serial, a: nat, c: nat, q: seq<Msg>)
    decreases |es|
  {
    Ledger(w, s, a, c, q) && (es == [] || (Enabled(w, es[0]) && AlwaysInOrder(Next(w, es[0]), es[1..], s, a, c, q)))
  }

  ghost predicate AllTakeHeads(w: World, es: seq<Event>, s: Serial)
    decreases |es|
  {
    es == [] || (Enabled(w, es[0]) && TakesHead(w, es[0], s) && AllTakeHeads(Next(w, es[0]), es[1..], s))
  }

  lemma {:induction false} OrderRun(w: World, es: seq<Event>, v: World, s: Serial, a: nat, c: nat, q: seq<Msg>)
    requires FlightInv(w) && Ledger(w, s, a, c, q) && Runs(w, es, v)
    ensures AlwaysInOrder(w, es, s, a, c, q) <==> AllTakeHeads(w, es, s)
    decreases |es|
  {
    if es != [] {
      var u := Next(w, es[0]);
      OrderStep(w, es[0], s, a, c, q);
      FlightStep(w, es[0]);
      if Ledger(u, s, a, c, q) { OrderRun(u, es[1..], v, s, a, c, q); }
    }
  }

  /** From any reachable state, in any mode, switched at will, and whatever the UIDs: for a recipient nothing
      is lost, duplicated or reordered in any state of a run if and only if every confirmation finds the
      message it confirms at the head of the queue. */
  lemma InOrderExactly(w0: World, before: seq<Event>, w: World, es: seq<Event>, v: World, s: Serial)
    requires Initial(w0) && Runs(w0, before, w) && Runs(w, es, v)
    ensures AlwaysInOrder(w, es, s, |AddedTo(w, s)|, |ConfirmedTo(w, s)|, Queue(w.core, s)) <==> AllTakeHeads(w, es, s)
  {
    FlightRun(w0, before, w);
    assert Queue(w.core, s) + [] == [] + Queue(w.core, s);
    OrderRun(w, es, v, s, |AddedTo(w, s)|, |ConfirmedTo(w, s)|, Queue(w.core, s));
  }

  // In any order ---------------------------------------------------------------------------------

  /** The ledger without the order. */
  ghost predicate Accounts(w: World, s: Serial, a: nat, c: nat, q: seq<Msg>) {
    && a <= |AddedTo(w, s)| && c <= |ConfirmedTo(w, s)|
    && multiset(q) + multiset(AddedTo(w, s)[a..]) == multiset(ConfirmedTo(w, s)[c..]) + multiset(Queue(w.core, s))
  }

  lemma RemoveAtBag<T>(q: seq<T>, k: nat)
    requires k < |q|
    ensures multiset(q) == multiset(RemoveAt(q, k)) + multiset{q[k]}
  {
    assert q == q[..k] + ([q[k]] + q[k + 1..]);
  }

  lemma BagReport(bag: multiset<Msg>, done: seq<Msg>, c: nat, queue: seq<Msg>, m: Msg, k: nat)
    requires c <= |done| && k < |queue| && bag == multiset(done[c..]) + multiset(queue)
    ensures bag == multiset((done + [m])[c..]) + multiset(RemoveAt(queue, k)) <==> queue[k] == m
  {
    RemoveAtBag(queue, k);
    assert (done + [m])[c..] == done[c..] + [m];
    var b := multiset(done[c..]) + multiset(RemoveAt(queue, k));
    assert bag == b + multiset{queue[k]};
    assert multiset((done + [m])[c..]) + multiset(RemoveAt(queue, k)) == b + multiset{m};
    if queue[k] != m { assert (b + multiset{m})[m] == b[m] + 1 && (b + multiset{queue[k]})[m] == b[m]; }
  }

  lemma BagGain(q: seq<Msg>, added: seq<Msg>, a: nat, done: seq<Msg>, queue: seq<Msg>, gain: seq<Msg>)
    requires a <= |added| && multiset(q) + multiset(added[a..]) == multiset(done) + multiset(queue)
    ensures multiset(q) + multiset((added + gain)[a..]) == multiset(done) + multiset(queue + gain)
  {
    assert (added + gain)[a..] == added[a..] + gain;
    var x, y, g := multiset(q), multiset(added[a..]), multiset(gain);
    assert multiset(added[a..] + gain) == y + g && multiset(queue + gain) == multiset(queue) + g;
    assert x + (y + g) == (x + y) + g;
  }

  /** A step keeps the accounts of `s` exactly when it takes out no message but the one it confirms. */
  lemma AccountStep(w: World, e: Event, s: Serial, a: nat, c: nat, q: seq<Msg>)
    requires FlightInv(w) && Enabled(w, e) && Accounts(w, s, a, c, q)
    ensures Accounts(Next(w, e), s, a, c, q) <==> TakesOwn(w, e, s)
  {
    if Confirms(w, e, s) {
      ReportChanges(w, s);
      BagReport(multiset(q) + multiset(AddedTo(w, s)[a..]), ConfirmedTo(w, s), c, Queue(w.core, s), Bare(w.cb.msg),
                IndexOf(w.core.pools[s].messages, w.cb.msg.uid));
    } else {
      OtherChanges(w, e, s);
      BagGain(q, AddedTo(w, s), a, ConfirmedTo(w, s)[c..], Queue(w.core, s), Gain(e, s));
    }
  }

  ghost predicate AlwaysAccounts(w: World, es: seq<Event>, s: Serial, a: nat, c: nat, q: seq<Msg>)
    decreases |es|
  {
    Accounts(w, s, a, c, q) && (es == [] || (Enabled(w, es[0]) && AlwaysAccounts(Next(w, es[0]), es[1..], s, a, c, q)))
  }

  ghost predicate AllTakeOwn(w: World, es: seq<Event>, s: Serial)
    decreases |es|
  {
    es == [] || (Enabled(w, es[0]) && TakesOwn(w, es[0], s) && AllTakeOwn(Next(w, es[0]), es[1..], s))
  }

  lemma {:induction false} AccountRun(w: World, es: seq<Event>, v: World, s: Serial, a: nat, c: nat, q: seq<Msg>)
    requires FlightInv(w) && Accounts(w, s, a, c, q) && Runs(w, es, v)
    ensures AlwaysAccounts(w, es, s, a, c, q) <==> AllTakeOwn(w, es, s)
    decreases |es|
  {
    if es != [] {
      var u := Next(w, es[0]);
      AccountStep(w, es[0], s, a, c, q);
      FlightStep(w, es[0]);
      if Accounts(u, s, a, c, q) { AccountRun(u, es[1..], v, s, a, c, q); }
    }
  }

  /** And nothing is lost or duplicated, in whatever order, if and only if every confirmation finds a message
      equal to its own as the first with its UID. */
  lemma CompleteExactly(w0: World, before: seq<Event>, w: World, es: seq<Event>, v: World, s: Serial)
    requires Initial(w0) && Runs(w0, before, w) && Runs(w, es, v)
    ensures AlwaysAccounts(w, es, s, |AddedTo(w, s)|, |ConfirmedTo(w, s)|, Queue(w.core, s)) <==> AllTakeOwn(w, es, s)
  {
    FlightRun(w0, before, w);
    AccountRun(w, es, v, s, |AddedTo(w, s)|, |ConfirmedTo(w, s)|, Queue(w.core, s));
  }
}
