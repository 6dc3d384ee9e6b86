/** What a resend does to the message it names. */
module Resends {
  import opened Base
  import opened Payload
  import opened Pool
  import opened EngineSpec
  import opened World
  import opened Conservation
  import opened Quiescence
  import opened Fairness
  import opened Presence

  /** The first message with the UID stands at `i`. */
  ghost predicate FirstWith(ms: seq<Msg>, uid: int, i: nat) {
    i < |ms| && ms[i].uid == uid && forall j :: 0 <= j < i ==> ms[j].uid != uid
  }

  /** resendMessage finds its message exactly when one with the UID is queued. */
  lemma FoundExactly(c: Core, s: Serial, uid: int)
    ensures CanResend(c, s, uid) <==> s in c.pools && exists i :: FirstWith(c.pools[s].messages, uid, i)
  {
    if CanResend(c, s, uid) { assert FirstWith(c.pools[s].messages, uid, IndexOf(c.pools[s].messages, uid)); }
  }

  /** The pools after a resend: the first message with the UID is unprocessed and the queue else unchanged, its
      pool clean with weight 0, and every other weight one higher, where INT_MAX goes to 0. */
  lemma RaiseMarks(w: World, s: Serial, uid: int, i: nat)
    requires RepInv(w.core) && s in w.core.pools && FirstWith(w.core.pools[s].messages, uid, i)
    ensures var c, v := w.core, Next(w, Raise(s, uid));
            var ms := c.pools[s].messages;
            && v.pending == w.pending + 1 && v.core.priority == c.priority && v.core.auto == c.auto
            && v.core.pools.Keys == c.pools.Keys
            && v.core.pools[s] == Pool(ms[i := ms[i].(processed := false)], 0, false)
            && forall t :: t in c.pools && t != s ==>
                 v.core.pools[t] == c.pools[t].(weight := if c.pools[t].weight == INT_MAX then 0 else c.pools[t].weight + 1)
  {
    forall t | t in w.core.pools ensures PoolInv(t, w.core.pools[t]) {}
    assert IndexOf(w.core.pools[s].messages, uid) == i;
  }

  /** The message offered after a resend: in auto mode the head; in manual mode the one resent if and only if
      everything before it is plain and processed. */
  lemma RaiseOffers(w: World, s: Serial, uid: int, i: nat)
    requires RepInv(w.core) && s in w.core.pools && FirstWith(w.core.pools[s].messages, uid, i)
    ensures var ms, now := w.core.pools[s].messages, Next(w, Raise(s, uid)).core.pools[s].messages;
            && OfferIndex(now, true) == 0
            && (OfferIndex(now, false) == i <==> forall j :: 0 <= j < i ==> !Offerable(ms[j]))
            && now[i] == ms[i].(processed := false)
  {
    RaiseMarks(w, s, uid, i);
    var ms, now := w.core.pools[s].messages, Next(w, Raise(s, uid)).core.pools[s].messages;
    assert Offerable(now[i]) && forall j :: 0 <= j < i ==> now[j] == ms[j];
  }

  /** Nothing stands before the message that resendMessage names, and it can be sent. */
  ghost predicate InFront(c: Core, s: Serial, uid: int, i: nat) {
    && s in c.pools && FirstWith(c.pools[s].messages, uid, i) && c.pools[s].messages[i].retries > 0
    && if c.auto then i == 0 else forall j :: 0 <= j < i ==> !Offerable(c.pools[s].messages[j])
  }

  /** resendMessage of a message with nothing before it, for a recipient with nothing in flight, however its pool
      was marked or refused before: that message is the next one handed over, as long as nothing else comes from
      outside, and with the SIP stack up the engine does not rest before that. */
  lemma ResendComesFirst(w0: World, before: seq<Event>, w: World, s: Serial, uid: int, i: nat, es: seq<Event>, v: World)
    requires Initial(w0) && Runs(w0, before, w) && OthersLight(w, s) && !FlightTo(w, s) && InFront(w.core, s, uid, i)
    requires AllInternal(es) && Runs(Next(w, Raise(s, uid)), es, v)
    ensures |v.handed| > |w.handed| ==> v.handed[|w.handed|] == w.core.pools[s].messages[i].(processed := false)
    ensures w.stackUp && AtRest(v) ==> |v.handed| > |w.handed|
  {
    InvRun(w0, before, w);
    FoundExactly(w.core, s, uid);
    RaiseMarks(w, s, uid, i);
    RaiseOffers(w, s, uid, i);
    var u := Next(w, Raise(s, uid));
    assert u.handed == w.handed;
    assert OfferIndex(u.core.pools[s].messages, u.core.auto) == i;
    DeliverableComesFirst(w0, before, w, s, uid, es, v);
  }
}
