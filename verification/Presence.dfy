/** Who is served again, and when: what an addition and an online buddy do to a pool. */
module Presence {
  import opened Base
  import opened Payload
  import opened Pool
  import opened EngineSpec
  import opened World
  import opened Conservation
  import opened Quiescence

  /** A message that manual mode delivers: an invitation of some kind, or not processed yet. */
  predicate Offerable(m: Msg) { m.kind != Message || !m.processed }

  /** Manual mode offers the message at `k`. */
  ghost predicate OfferedAt(ms: seq<Msg>, k: nat) {
    k < |ms| && Offerable(ms[k]) && forall j :: 0 <= j < k ==> !Offerable(ms[j])
  }

  /** `p` holds the messages `ms`, reactivated: clean, weight 0, and in auto mode unprocessed again. */
  ghost predicate Reactivated(p: Pool, ms: seq<Msg>, auto: bool) {
    && !p.dirty && p.weight == 0 && |p.messages| == |ms|
    && forall i :: 0 <= i < |ms| ==> p.messages[i] == if auto then ms[i].(processed := false) else ms[i]
  }

  /** Outside the pool of `s` nothing changes. */
  ghost predicate OnlyPool(c: Core, d: Core, s: Serial) {
    && d.auto == c.auto
    && forall t :: t != s ==> (t in d.pools <==> t in c.pools) && (t in c.pools ==> d.pools[t] == c.pools[t])
  }

  /** A buddy with a pool comes online: its pool is reactivated with its messages, and a start follows. */
  lemma ComesOnline(w: World, s: Serial)
    requires s in w.core.pools
    ensures var v := Next(w, GoesOnline(s));
            && OnlyPool(w.core, v.core, s) && v.core.priority == w.core.priority && v.pending == w.pending + 1
            && s in v.core.pools && Reactivated(v.core.pools[s], w.core.pools[s].messages, w.core.auto)
            && Bares(v.core.pools[s].messages) == Bares(w.core.pools[s].messages)
  {
    MarksKeepBares(w.core.pools[s].messages, 0, false);
  }

  /** An addition does the same, with the message at the end; a new recipient comes last in the priorities. */
  lemma AddReactivates(w: World, m: Msg)
    ensures var s := m.serial;
            var v := Next(w, Add(m));
            var ms := if s in w.core.pools then w.core.pools[s].messages else [];
            && OnlyPool(w.core, v.core, s) && v.pending == w.pending + 1
            && v.core.priority == (if s in w.core.pools then w.core.priority else w.core.priority + [s])
            && s in v.core.pools && Reactivated(v.core.pools[s], ms + [m], w.core.auto)
  {}

  /** A reactivated pool is deliverable if and only if its head, in auto mode, or the first message that manual
      mode offers has retries. */
  lemma ReactivatedDelivers(p: Pool, ms: seq<Msg>, auto: bool)
    requires Reactivated(p, ms, auto) && ms != []
    ensures auto ==> (Deliverable(p, auto) <==> ms[0].retries > 0)
    ensures !auto ==> (Deliverable(p, auto) <==> exists k: nat :: OfferedAt(ms, k) && ms[k].retries > 0)
  {
    if !auto {
      assert p.messages == ms;
      var i := OfferIndex(ms, false);
      if i >= 0 { assert OfferedAt(ms, i); }
      forall k: nat | OfferedAt(ms, k) ensures k == i {}
    }
  }

  lemma ReactivatedSendable(p: Pool, ms: seq<Msg>, auto: bool)
    requires Reactivated(p, ms, auto) && AllReady(ms, auto)
    ensures AllReady(p.messages, auto)
  {}

  /** From any reachable state with the SIP stack up, whatever was refused before: a recipient comes online whose
      messages have retries, and in manual mode are offered; when the engine, left to itself, comes to rest
      without a refusal for it, its pool is empty. */
  lemma OnlineEmpties(w0: World, before: seq<Event>, w: World, s: Serial, es: seq<Event>, v: World)
    requires Initial(w0) && Runs(w0, before, w) && w.stackUp
    requires s in w.core.pools && AllReady(w.core.pools[s].messages, w.core.auto)
    requires var u := Next(w, GoesOnline(s)); AllInternal(es) && Runs(u, es, v) && NoRefusals(u, es, s) && AtRest(v)
    ensures s !in v.core.pools
  {
    var u := Next(w, GoesOnline(s));
    ComesOnline(w, s);
    ReactivatedSendable(u.core.pools[s], w.core.pools[s].messages, w.core.auto);
    Empties(w0, before, w, GoesOnline(s), u, es, v, s);
  }

  lemma Empties(w0: World, before: seq<Event>, w: World, e: Event, u: World, es: seq<Event>, v: World, s: Serial)
    requires Initial(w0) && Runs(w0, before, w) && Enabled(w, e) && u == Next(w, e)
    requires u.stackUp && u.pending > 0 && Sendable(u.core, s)
    requires AllInternal(es) && Runs(u, es, v) && NoRefusals(u, es, s) && AtRest(v)
    ensures s !in v.core.pools
  {
    assert Runs(w, [e], u) by { assert [e][1..] == []; }
    RunsJoin(w0, before, w, [e], u);
    Drained(w0, before + [e], u, es, v, s);
    RestsWithoutWork(w0, before + [e], u, es, v);
  }
}
