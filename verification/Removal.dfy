/** removeMessagesForSerial: exactly when it is harmless, and what it does otherwise. */
module Removal {
  import opened Base
  import opened Transport
  import opened EngineSpec
  import opened World

  /** Its first region, under the transport's lock. */
  function Cancel(w: World, s: Serial): World { w.(xfer := Forget(w.xfer, s)) }

  /** Its second region, under the pool lock. */
  function Erase(w: World, s: Serial): World { w.(core := RemoveSerial(w.core, s)) }

  /** Erasing keeps the engine's invariant exactly when there is nothing to erase: otherwise the serial stays
      among the priorities, where the next sort looks up its missing pool. */
  lemma RemovalExact(w: World, s: Serial)
    requires Inv(w)
    ensures Inv(Erase(w, s)) <==> s !in w.core.pools
  {
    if s in w.core.pools {
      assert s in Erase(w, s).core.priority && s !in Erase(w, s).core.pools;
    } else {
      assert w.core.pools - {s} == w.core.pools;
    }
  }

  /** `started_` keeps its meaning exactly when the message in flight is for someone else. */
  lemma RemovalControl(w: World, s: Serial)
    requires Inv(w)
    ensures Control(Cancel(w, s)) <==> !(Busy(w.xfer) && w.xfer.msg.serial == s)
  {}

  /** Started, but with nothing at the transport and nobody about to scan. */
  predicate Dead(w: World) {
    w.started && !Busy(w.xfer) && w.lock == Free && w.cb == Quiet
  }

  lemma DeadStep(w: World, e: Event)
    requires Dead(w) && Enabled(w, e)
    ensures var v := Next(w, e); Dead(v) && v.handed == w.handed && v.sends == w.sends
  {}

  lemma {:induction false} DeadRun(w: World, es: seq<Event>, v: World)
    requires Dead(w) && Runs(w, es, v)
    ensures Dead(v) && v.handed == w.handed && v.sends == w.sends
    decreases |es|
  {
    if es != [] {
      DeadStep(w, es[0]);
      DeadRun(Next(w, es[0]), es[1..], v);
    }
  }

  /** Removing the recipient whose message is in flight stops the engine for good: whatever happens between
      the two regions, and whatever is added, comes online, is raised or completes afterwards, for any
      recipient, no message is ever sent again. */
  lemma RemovalStopsEngine(w0: World, es: seq<Event>, w: World, between: seq<Event>, u: World, later: seq<Event>,
                           v: World)
    requires Initial(w0) && Runs(w0, es, w) && Busy(w.xfer)
    requires Runs(Cancel(w, w.xfer.msg.serial), between, u) && Runs(Erase(u, w.xfer.msg.serial), later, v)
    ensures v.sends == w.sends && v.handed == w.handed && v.started
  {
    InvRun(w0, es, w);
    DeadRun(Cancel(w, w.xfer.msg.serial), between, u);
    DeadRun(Erase(u, w.xfer.msg.serial), later, v);
  }
}
