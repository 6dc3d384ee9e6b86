/** Who is served next, while no event comes from outside. */
module Fairness {
  import opened Base
  import opened Payload
  import opened Pool
  import opened Transport
  import opened EngineSpec
  import opened World
  import opened Conservation
  import opened Quarantine
  import opened Quiescence

  /** How many of the handovers went to `s`. */
  function Picks(handed: seq<Msg>, s: Serial): nat {
    if handed == [] then 0
    else Picks(handed[..|handed| - 1], s) + if handed[|handed| - 1].serial == s then 1 else 0
  }

  lemma PicksAppend(handed: seq<Msg>, m: Msg, s: Serial)
    ensures Picks(handed + [m], s) == Picks(handed, s) + if m.serial == s then 1 else 0
  {
    assert (handed + [m])[..|handed|] == handed;
  }

  // The three kinds of internal steps ---------------------------------------------------------

  /** A step that touches neither the pools nor the handovers. */
  predicate Silent(w: World, v: World) {
    && v.core == w.core && v.handed == w.handed && v.confirmed == w.confirmed
    && InFlight(v).Some? == InFlight(w).Some?
    && (InFlight(w).Some? ==> InFlight(v).value.serial == InFlight(w).value.serial)
  }

  function NewlyHanded(c: Core): seq<Msg> {
    match Scan(c).next case Some(m) => [m] case None => []
  }

  predicate ScanStep(w: World, v: World) {
    && v.core == Scan(w.core).core && v.handed == w.handed + NewlyHanded(w.core) && v.confirmed == w.confirmed
    && InFlight(w) == None && InFlight(v) == Scan(w.core).next
  }

  predicate ReportStep(w: World, v: World) {
    && w.cb.Notified?
    && v.core == StatusUpdate(w.core, w.cb.msg, w.cb.status) && v.handed == w.handed
    && v.confirmed == (if w.cb.status == Sent then Log(w.confirmed, w.cb.msg) else w.confirmed)
    && InFlight(w) == Some(w.cb.msg) && InFlight(v) == None
  }

  predicate OwnStep(w: World, v: World) { Silent(w, v) || ScanStep(w, v) || ReportStep(w, v) }

  lemma InternalIsOwn(w: World, e: Event)
    requires Inv(w) && Internal(e) && Enabled(w, e)
    ensures OwnStep(w, Next(w, e))
  {
    if e.StartScans? || e.CallbackScans? {
      ScanPicks(w.core);
      assert ScanStep(w, Next(w, e));
    } else if e.PoolUpdates? {
      assert ReportStep(w, Next(w, e));
    } else {
      assert Silent(w, Next(w, e));
    }
  }

  /** `a` is waiting: its pool is deliverable, weighs `weight`, and none of its messages is in flight. */
  ghost predicate Waits(w: World, a: Serial, weight: int) {
    DeliverableIn(w.core.pools, a, w.core.auto) && w.core.pools[a].weight == weight && !FlightTo(w, a)
  }

  /** Nothing happens to the pool of `s`, save that a dirty one may be marked. */
  predicate Kept(c: Core, d: Core, s: Serial) {
    && d.auto == c.auto
    && (s in c.pools <==> s in d.pools)
    && (s in c.pools ==> if c.pools[s].dirty then d.pools[s].dirty else d.pools[s] == c.pools[s])
  }

  /** Only a report for `s` changes the clean pool of `s`. */
  lemma PoolKept(w: World, v: World, s: Serial)
    requires RepInv(w.core) && OwnStep(w, v) && !(ReportStep(w, v) && w.cb.msg.serial == s)
    ensures Kept(w.core, v.core, s)
  {
    if ScanStep(w, v) { ScanKeeps(w.core); }
  }

  /** A report for `s` makes its clean pool one heavier, or dirty, or removes it. */
  lemma PoolReported(w: World, v: World)
    requires ReportStep(w, v)
    ensures var s := w.cb.msg.serial;
            s in w.core.pools && s in v.core.pools && !v.core.pools[s].dirty ==>
              w.cb.status == Sent && !w.core.pools[s].dirty
              && v.core.pools[s].weight == ClampWeight(w.core.pools[s].weight + 1)
    ensures v.core.auto == w.core.auto && (w.cb.msg.serial in v.core.pools ==> w.cb.msg.serial in w.core.pools)
  {}

  /** Whoever is picked while `a` waits is clean and weighs no more than `a`. */
  lemma PickedBefore(w: World, a: Serial)
    requires Inv(w) && DeliverableIn(w.core.pools, a, w.core.auto) && Scan(w.core).next.Some?
    ensures var s := Scan(w.core).next.value.serial;
            s in w.core.pools && !w.core.pools[s].dirty && w.core.pools[s].weight <= w.core.pools[a].weight
  {
    ScanPicks(w.core);
  }

  lemma PicksScan(w: World, v: World, s: Serial)
    requires ScanStep(w, v)
    ensures Picks(v.handed, s) == Picks(w.handed, s) + if FlightTo(v, s) then 1 else 0
  {
    if Scan(w.core).next.Some? {
      PicksAppend(w.handed, Scan(w.core).next.value, s);
    } else {
      assert w.handed + [] == w.handed;
    }
  }

  lemma WaitsStep(w: World, v: World, a: Serial, weight: int)
    requires Inv(w) && OwnStep(w, v) && Waits(w, a, weight)
    requires Picks(v.handed, a) == Picks(w.handed, a)
    ensures Waits(v, a, weight)
  {
    PoolKept(w, v, a);
    if ScanStep(w, v) { PicksScan(w, v, a); }
  }

  // Bounded bypass --------------------------------------------------------------------------

  /** How often `b` may still go before a waiting pool of weight `weight`: a message of `b` in flight
      already counts as one more on its weight. */
  function Allowance(w: World, weight: int, b: Serial): nat {
    if b in w.core.pools && !w.core.pools[b].dirty then
      var lead := weight - w.core.pools[b].weight + 1 - if FlightTo(w, b) then 1 else 0;
      if lead < 0 then 0 else lead
    else 0
  }

  /** No wrap-around is ahead for `b`. */
  predicate Light(w: World, b: Serial) {
    FlightTo(w, b) && b in w.core.pools ==> w.core.pools[b].weight < INT_MAX
  }

  lemma BypassStep(w: World, v: World, a: Serial, weight: int, b: Serial)
    requires Inv(w) && OwnStep(w, v) && Waits(w, a, weight) && weight < INT_MAX && Light(w, b)
    ensures Light(v, b) && Picks(v.handed, b) + Allowance(v, weight, b) <= Picks(w.handed, b) + Allowance(w, weight, b)
  {
    if ScanStep(w, v) {
      PoolKept(w, v, b);
      PicksScan(w, v, b);
      if Scan(w.core).next.Some? { PickedBefore(w, a); }
    } else if ReportStep(w, v) && w.cb.msg.serial == b {
      PoolReported(w, v);
    } else {
      PoolKept(w, v, b);
    }
  }

  lemma {:induction false} PicksGrow(w: World, es: seq<Event>, v: World, s: Serial)
    requires Runs(w, es, v)
    ensures Picks(w.handed, s) <= Picks(v.handed, s)
    decreases |es|
  {
    if es != [] {
      PicksOneStep(w, es[0], s);
      PicksGrow(Next(w, es[0]), es[1..], v, s);
    }
  }

  lemma PicksOneStep(w: World, e: Event, s: Serial)
    requires Enabled(w, e)
    ensures Picks(w.handed, s) <= Picks(Next(w, e).handed, s)
  {
    if (e.StartScans? || e.CallbackScans?) && Scan(w.core).next.Some? {
      PicksAppend(w.handed, Scan(w.core).next.value, s);
    }
  }

  lemma {:induction false} BypassRun(w: World, es: seq<Event>, v: World, a: Serial, weight: int, b: Serial)
    requires Inv(w) && Waits(w, a, weight) && weight < INT_MAX && Light(w, b)
    requires AllInternal(es) && Runs(w, es, v) && Picks(v.handed, a) == Picks(w.handed, a)
    ensures Picks(v.handed, b) - Picks(w.handed, b) <= Allowance(w, weight, b)
    decreases |es|
  {
    if es != [] {
      var u := Next(w, es[0]);
      PicksOneStep(w, es[0], a);
      PicksGrow(u, es[1..], v, a);
      InternalIsOwn(w, es[0]);
      WaitsStep(w, u, a, weight);
      BypassStep(w, u, a, weight, b);
      InvStep(w, es[0]);
      BypassRun(u, es[1..], v, a, weight, b);
    }
  }

  /** After fewer than INT_MAX steps no clean pool is near the wrap-around. */
  lemma WeightsLow(w0: World, before: seq<Event>, w: World, s: Serial)
    requires Initial(w0) && Runs(w0, before, w) && |before| < INT_MAX
    ensures s in w.core.pools && !w.core.pools[s].dirty ==> w.core.pools[s].weight <= |before|
    ensures Light(w, s)
  {
    CalmRun(w0, before, w, 0);
  }

  /** max(0, wa - wb + 1), and 0 when `b` has no clean pool. */
  function Lead(c: Core, a: Serial, b: Serial): nat
    requires a in c.pools
  {
    if b in c.pools && !c.pools[b].dirty && c.pools[b].weight <= c.pools[a].weight
    then c.pools[a].weight - c.pools[b].weight + 1 else 0
  }

  lemma AllowanceIsLead(w: World, a: Serial, b: Serial)
    requires a in w.core.pools
    ensures Allowance(w, w.core.pools[a].weight, b) <= Lead(w.core, a, b)
  {}

  /** While `a` waits with weight wa and nothing comes from outside, another recipient b of weight wb is
      served at most max(0, wa - wb + 1) times before `a`, and not at all when it has no clean pool. The
      wrap-around at INT_MAX must not be next for either. */
  lemma BoundedBypass(w0: World, before: seq<Event>, w: World, es: seq<Event>, v: World, a: Serial, b: Serial)
    requires Initial(w0) && Runs(w0, before, w)
    requires DeliverableIn(w.core.pools, a, w.core.auto) && !FlightTo(w, a)
    requires w.core.pools[a].weight < INT_MAX && Light(w, b)
    requires AllInternal(es) && Runs(w, es, v) && Picks(v.handed, a) == Picks(w.handed, a)
    ensures Picks(v.handed, b) - Picks(w.handed, b) <= Lead(w.core, a, b)
  {
    InvRun(w0, before, w);
    BypassRun(w, es, v, a, w.core.pools[a].weight, b);
    AllowanceIsLead(w, a, b);
  }

  // Equal shares ------------------------------------------------------------------------------

  function Weight(w: World, s: Serial): int
    requires s in w.core.pools
  {
    w.core.pools[s].weight
  }

  ghost predicate BothDeliverable(w: World, a: Serial, b: Serial) {
    DeliverableIn(w.core.pools, a, w.core.auto) && DeliverableIn(w.core.pools, b, w.core.auto)
  }

  /** Both pools are deliverable in every state of the run. */
  ghost predicate StayDeliverable(w: World, es: seq<Event>, a: Serial, b: Serial)
    decreases |es|
  {
    BothDeliverable(w, a, b) && (es == [] || (Enabled(w, es[0]) && StayDeliverable(Next(w, es[0]), es[1..], a, b)))
  }

  ghost predicate Level(w: World, a: Serial, b: Serial)
    requires BothDeliverable(w, a, b)
  {
    && -1 <= Weight(w, a) - Weight(w, b) <= 1
    && (FlightTo(w, a) ==> Weight(w, a) <= Weight(w, b))
    && (FlightTo(w, b) ==> Weight(w, b) <= Weight(w, a))
  }

  function Delivered(w: World, s: Serial): nat { |Past(w.confirmed, s)| }

  lemma DeliveredStep(w: World, v: World, a: Serial)
    requires Inv(w) && OwnStep(w, v)
    requires DeliverableIn(w.core.pools, a, w.core.auto) && DeliverableIn(v.core.pools, a, v.core.auto)
    requires Weight(w, a) < INT_MAX
    ensures Weight(v, a) - Weight(w, a) == Delivered(v, a) - Delivered(w, a)
    ensures Weight(v, a) == if ReportStep(w, v) && w.cb.msg.serial == a then Weight(w, a) + 1 else Weight(w, a)
  {
    if ReportStep(w, v) && w.cb.msg.serial == a { PoolReported(w, v); } else { PoolKept(w, v, a); }
  }

  lemma LevelStep(w: World, v: World, a: Serial, b: Serial)
    requires Inv(w) && OwnStep(w, v) && a != b
    requires BothDeliverable(w, a, b) && BothDeliverable(v, a, b) && Level(w, a, b)
    requires Weight(w, a) < INT_MAX && Weight(w, b) < INT_MAX
    ensures Level(v, a, b)
  {
    DeliveredStep(w, v, a);
    DeliveredStep(w, v, b);
    if ScanStep(w, v) && Scan(w.core).next.Some? {
      PickedBefore(w, a);
      PickedBefore(w, b);
    }
  }

  /** In no state of the run but the last are the two weights at INT_MAX. */
  ghost predicate StayLight(w: World, es: seq<Event>, a: Serial, b: Serial)
    requires StayDeliverable(w, es, a, b)
    decreases |es|
  {
    es == [] || (Weight(w, a) < INT_MAX && Weight(w, b) < INT_MAX && StayLight(Next(w, es[0]), es[1..], a, b))
  }

  lemma {:induction false} ShareRun(w: World, es: seq<Event>, v: World, a: Serial, b: Serial)
    requires Inv(w) && AllInternal(es) && Runs(w, es, v) && a != b && StayDeliverable(w, es, a, b) && Level(w, a, b)
    requires StayLight(w, es, a, b)
    ensures BothDeliverable(v, a, b) && Level(v, a, b)
    ensures Weight(v, a) - Weight(w, a) == Delivered(v, a) - Delivered(w, a)
    ensures Weight(v, b) - Weight(w, b) == Delivered(v, b) - Delivered(w, b)
    decreases |es|
  {
    if es != [] {
      var u := Next(w, es[0]);
      InternalIsOwn(w, es[0]);
      LevelStep(w, u, a, b);
      DeliveredStep(w, u, a);
      DeliveredStep(w, u, b);
      InvStep(w, es[0]);
      ShareRun(u, es[1..], v, a, b);
    }
  }

  /** From equal weights, two recipients that stay deliverable are served evenly: their delivered counts
      never differ by more than one, as long as the weights stay below the wrap-around. */
  lemma EqualShares(w0: World, before: seq<Event>, w: World, es: seq<Event>, v: World, a: Serial, b: Serial)
    requires Initial(w0) && Runs(w0, before, w)
    requires AllInternal(es) && Runs(w, es, v) && a != b && StayDeliverable(w, es, a, b)
    requires Weight(w, a) == Weight(w, b) && StayLight(w, es, a, b)
    ensures -1 <= (Delivered(v, a) - Delivered(w, a)) - (Delivered(v, b) - Delivered(w, b)) <= 1
  {
    InvRun(w0, before, w);
    ShareRun(w, es, v, a, b);
  }

  /** They do when the run is short enough. */
  lemma {:induction false} ShortRunsStayLight(w: World, es: seq<Event>, v: World, a: Serial, b: Serial)
    requires Inv(w) && AllInternal(es) && Runs(w, es, v) && StayDeliverable(w, es, a, b)
    requires Weight(w, a) + |es| <= INT_MAX && Weight(w, b) + |es| <= INT_MAX
    ensures StayLight(w, es, a, b)
    decreases |es|
  {
    if es != [] {
      var u := Next(w, es[0]);
      InternalIsOwn(w, es[0]);
      DeliveredStep(w, u, a);
      DeliveredStep(w, u, b);
      InvStep(w, es[0]);
      ShortRunsStayLight(u, es[1..], v, a, b);
    }
  }

  // Resend comes first --------------------------------------------------------------------------

  /** After a resend, `s` is the strictly lightest clean pool exactly when no other clean pool stood at
      INT_MAX, whatever the wrap-around does to dirty ones. */
  lemma ResendLightest(c: Core, s: Serial, uid: int)
    requires RepInv(c) && CanResend(c, s, uid)
    ensures var d := Resend(c, s, uid);
            && !d.pools[s].dirty
            && ((forall t :: t in d.pools && !d.pools[t].dirty && t != s ==> d.pools[s].weight < d.pools[t].weight)
                <==> forall t :: t in c.pools && !c.pools[t].dirty && t != s ==> c.pools[t].weight != INT_MAX)
  {
    var d := Resend(c, s, uid);
    forall t | t in c.pools && t != s
      ensures t in d.pools && d.pools[t].dirty == c.pools[t].dirty
              && (d.pools[s].weight < d.pools[t].weight <==> c.pools[t].weight != INT_MAX)
    {
      assert PoolInv(t, c.pools[t]);
    }
  }

  /** `s` is deliverable with weight 0 and every other clean pool is heavier. */
  ghost predicate Favoured(w: World, s: Serial) {
    && Waits(w, s, 0)
    && forall t :: t in w.core.pools && !w.core.pools[t].dirty && t != s ==>
         0 < w.core.pools[t].weight && (FlightTo(w, t) ==> w.core.pools[t].weight < INT_MAX)
  }

  lemma FavouredStep(w: World, v: World, s: Serial)
    requires Inv(w) && OwnStep(w, v) && Favoured(w, s)
    ensures if v.handed == w.handed then Favoured(v, s) && Kept(w.core, v.core, s)
            else v.handed == w.handed + [Offer(w.core.pools[s].messages, w.core.auto)]
  {
    if ScanStep(w, v) && Scan(w.core).next.Some? {
      PickedBefore(w, s);
      ScanPicks(w.core);
    } else {
      assert w.handed + [] == w.handed;
      WaitsStep(w, v, s, 0);
      PoolKept(w, v, s);
      FavouredOthers(w, v, s);
    }
  }

  lemma FavouredOthers(w: World, v: World, s: Serial)
    requires Inv(w) && OwnStep(w, v) && Favoured(w, s) && !(ScanStep(w, v) && Scan(w.core).next.Some?)
    ensures forall t :: t in v.core.pools && !v.core.pools[t].dirty && t != s ==>
              0 < v.core.pools[t].weight && (FlightTo(v, t) ==> v.core.pools[t].weight < INT_MAX)
  {
    forall t | t in v.core.pools && !v.core.pools[t].dirty && t != s
      ensures 0 < v.core.pools[t].weight && (FlightTo(v, t) ==> v.core.pools[t].weight < INT_MAX)
    {
      if ReportStep(w, v) && w.cb.msg.serial == t { PoolReported(w, v); } else { PoolKept(w, v, t); }
    }
  }

  lemma {:induction false} FavouredRun(w: World, es: seq<Event>, v: World, s: Serial)
    requires Inv(w) && Favoured(w, s) && AllInternal(es) && Runs(w, es, v)
    ensures if |v.handed| > |w.handed| then v.handed[|w.handed|] == Offer(w.core.pools[s].messages, w.core.auto)
            else Favoured(v, s)
    decreases |es|
  {
    if es != [] {
      var u := Next(w, es[0]);
      InternalIsOwn(w, es[0]);
      FavouredStep(w, u, s);
      InvStep(w, es[0]);
      HandedGrows(u, es[1..], v);
      if u.handed == w.handed {
        FavouredRun(u, es[1..], v, s);
      } else {
        assert v.handed[|w.handed|] == u.handed[|w.handed|];
      }
    }
  }

  /** No other clean pool wraps around, now or when its message in flight is confirmed. */
  ghost predicate OthersLight(w: World, s: Serial) {
    forall t :: t in w.core.pools && !w.core.pools[t].dirty && t != s ==>
      w.core.pools[t].weight < INT_MAX && (FlightTo(w, t) ==> w.core.pools[t].weight < INT_MAX - 1)
  }

  lemma RaiseFavours(w: World, s: Serial, uid: int)
    requires Inv(w) && OthersLight(w, s) && CanResend(w.core, s, uid) && !FlightTo(w, s)
    requires var u := Next(w, Raise(s, uid)); DeliverableIn(u.core.pools, s, u.core.auto)
    ensures var u := Next(w, Raise(s, uid)); Inv(u) && Favoured(u, s)
  {
    InvStep(w, Raise(s, uid));
    forall t | t in w.core.pools ensures PoolInv(t, w.core.pools[t]) {}
  }

  /** After a successful resendMessage for a recipient that is then deliverable and has nothing in flight, the
      next message handed over is the one its pool offers, as long as nothing else comes from outside; and with
      the SIP stack up the engine does not rest before that. */
  lemma DeliverableComesFirst(w0: World, before: seq<Event>, w: World, s: Serial, uid: int, es: seq<Event>, v: World)
    requires Initial(w0) && Runs(w0, before, w) && OthersLight(w, s)
    requires CanResend(w.core, s, uid) && !FlightTo(w, s)
    requires var u := Next(w, Raise(s, uid));
             DeliverableIn(u.core.pools, s, u.core.auto) && AllInternal(es) && Runs(u, es, v)
    ensures var u := Next(w, Raise(s, uid));
            |v.handed| > |u.handed| ==> v.handed[|u.handed|] == Offer(u.core.pools[s].messages, u.core.auto)
    ensures w.stackUp && AtRest(v) ==> |v.handed| > |Next(w, Raise(s, uid)).handed|
  {
    var u := Next(w, Raise(s, uid));
    InvRun(w0, before, w);
    RaiseFavours(w, s, uid);
    FavouredRun(u, es, v, s);
    if w.stackUp && AtRest(v) {
      assert Runs(w, [Raise(s, uid)], u) by { assert [Raise(s, uid)][1..] == []; }
      RunsJoin(w0, before, w, [Raise(s, uid)], u);
      RestsWithoutWork(w0, before + [Raise(s, uid)], u, es, v);
    }
  }

  /** After fewer than INT_MAX - 1 steps all others are light. */
  lemma ShortRunsAreLight(w0: World, before: seq<Event>, w: World, s: Serial)
    requires Initial(w0) && Runs(w0, before, w) && |before| < INT_MAX - 1
    ensures OthersLight(w, s)
  {
    CalmRun(w0, before, w, 0);
  }
}
