/** Concrete runs in which the engine falls short of what it promises. */
module Witness {
  import opened Base
  import opened Payload
  import opened Pool
  import opened Transport
  import opened EngineSpec
  import opened Sorting
  import opened World
  import opened Conservation
  import opened Quiescence

  /** A scan of an engine with one recipient. */
  lemma ScanSingle(c: Core, s: Serial)
    requires c.priority == [s] && s in c.pools && c.pools[s].messages != []
    ensures var p := c.pools[s];
            Scan(c) ==
              if p.dirty then Scanned(c.(pools := c.pools[s := MarkProcessed(p)]), None)
              else if Offer(p.messages, c.auto).retries <= 0 then Scanned(c, None)
              else Scanned(c, Some(Offer(p.messages, c.auto)))
  {
    var w := WeightIn(c.pools);
    assert [s][1..] == [] && StableSort([s], w) == Insert(s, [], w) == [s];
    assert ScanFrom(c.pools, [s], c.auto, 1) == (c.pools, None);
    var swept := c.pools[s := MarkProcessed(c.pools[s])];
    assert ScanFrom(swept, [s], c.auto, 1) == (swept, None);
  }

  function Start(auto: bool, idle: Msg): World
    requires idle.retries == 0
  {
    World(Core(map[], [], auto), false, Xfer(idle, 0), 0, Free, Quiet, 0, multiset{}, true, 0, map[], map[], [], {})
  }

  ghost predicate Step(w: World, e: Event, v: World) { Enabled(w, e) && Next(w, e) == v }

  lemma RunsCons(w: World, e: Event, u: World, es: seq<Event>, v: World)
    requires Step(w, e, u) && Runs(u, es, v)
    ensures Runs(w, [e] + es, v)
  {
    assert ([e] + es)[1..] == es;
  }

  function Letter(uid: int, content: byte, processed: bool): Msg {
    MakeMsg("bob", [content], uid, 1, Message, processed)
  }

  function Only(p: Pool, auto: bool): Core { Core(map["bob" := p], ["bob"], auto) }

  // Single steps, each from any state of the right shape ---------------------------------------

  lemma AddsFirst(w: World, m: Msg)
    requires w.core == Core(map[], [], false) && w.added == map[] && m.serial == "bob"
    ensures Step(w, Add(m), w.(core := Only(Pool([m], 0, false), false), added := map["bob" := [m]],
        pending := w.pending + 1))
  {
    assert Log(map[], m) == map["bob" := [m]] by { assert [] + [m] == [m]; }
    assert AddInternal(w.core, m).priority == [] + ["bob"] == ["bob"];
  }

  lemma AddsAnother(w: World, p: Pool, a: Msg, m: Msg)
    requires w.core == Only(p, false) && w.added == map["bob" := [a]] && m.serial == "bob"
    ensures Step(w, Add(m), w.(core := Only(Pool(p.messages + [m], 0, false), false),
                               added := map["bob" := [a, m]], pending := w.pending + 1))
  {
    assert Log(map["bob" := [a]], m) == map["bob" := [a, m]] by { assert [a] + [m] == [a, m]; }
  }

  lemma Enters(w: World)
    requires w.pending > 0 && w.lock == Free && !w.started
    ensures Step(w, StartEntered, w.(pending := w.pending - 1, started := true, lock := Starting))
  {}

  lemma Reports(w: World, m: Msg, status: Status)
    requires w.xfer == Accept(m) && m.retries == 1 && w.outstanding == 1 && w.cb == Quiet
    ensures Step(w, Completes(status), w.(outstanding := 0, xfer := Xfer(m.(retries := 0), 0),
                                          cb := Notified(m.(retries := 0), status)))
  {}

  lemma HandsOver(w: World, e: Event, p: Pool)
    requires w.core == Only(p, false) && !p.dirty && p.messages != [] && Offer(p.messages, false).retries > 0
    requires (e == StartScans && w.lock == Starting && w.cb == Quiet) || (e == CallbackScans && w.lock == Rescanning)
    ensures var m := Offer(p.messages, false);
            Step(w, e, w.(lock := Free, cb := Quiet, xfer := Accept(m), outstanding := w.outstanding + 1,
                          sends := w.sends + 1, handed := w.handed + [m]))
  {
    ScanSingle(w.core, "bob");
  }

  lemma FindsNothing(w: World, p: Pool, auto: bool)
    requires w.core == Only(p, auto) && !p.dirty && p.messages != [] && Offer(p.messages, auto).retries <= 0
    requires w.lock == Starting
    ensures Step(w, StartScans, w.(lock := Clearing(false), excused := {}))
  {
    ScanSingle(w.core, "bob");
  }

  lemma Refuses(w: World, a: Msg)
    requires w.core == Only(Pool([a], 0, false), false) && w.cb == Notified(a.(retries := 0), NotSent)
        && a.serial == "bob"
    ensures Step(w, PoolUpdates, w.(core := Only(Pool([a.(processed := true)], INT_MAX, true), false), cb := Updated))
  {
    var done := a.(processed := true);
    assert MarkUid([a], a.uid, true) == [done] && MarkAll([done], true) == [done];
  }

  lemma RemovesFirst(w: World, done: Msg, b: Msg)
    requires w.core == Only(Pool([done, b], 0, false), false) && w.cb == Notified(b.(retries := 0), Sent)
    requires b.serial == "bob" && done.uid == b.uid && done.processed && w.confirmed == map[]
    ensures Step(w, PoolUpdates, w.(core := Only(Pool([b], 1, false), false), cb := Updated,
                                    confirmed := map["bob" := [b.(retries := 0)]]))
  {
    assert MarkUid([done, b], b.uid, true) == [done, b] && RemoveUid([done, b], b.uid) == [b];
    var c := b.(retries := 0);
    assert Log(map[], c) == map["bob" := [c]] by { assert [] + [c] == [c]; }
  }

  lemma SecondOffered(done: Msg, b: Msg)
    requires done.kind == Message && done.processed && !b.processed
    ensures [done] + [b] == [done, b] && Offer([done, b], false) == b
  {
    var q := [done, b];
    assert q[0] == done && q[1] == b;
  }

  // A wakeup lost between two option calls ---------------------------------------------------

  /** Auto-resend is on. One caller is about to switch it off; another has read it as on and will
      write it on without a start. The first one writes. */
  lemma RaceBegins(w: World) returns (es: seq<Event>, v: World)
    requires w == Start(true, PLACEHOLDER)
    ensures Runs(w, es, v)
    ensures v == Start(false, PLACEHOLDER).(options := multiset{OptionCall(true, false)})
  {
    var off, on := OptionCall(false, false), OptionCall(true, false);
    var w1 := w.(options := multiset{off});
    var w2 := w.(options := multiset{off, on});
    v := Start(false, PLACEHOLDER).(options := multiset{on});
    es := [ReadOption(false)] + ([ReadOption(true)] + ([WriteOption(off)] + []));
    assert w2.options - multiset{off} == multiset{on};
    RunsCons(w2, WriteOption(off), v, [], v);
    RunsCons(w1, ReadOption(true), w2, [WriteOption(off)] + [], v);
    RunsCons(w, ReadOption(false), w1, [ReadOption(true)] + ([WriteOption(off)] + []), v);
  }

  /** A processed message is added in manual mode: the engine starts, finds nothing to offer and stops. */
  lemma FruitlessStart(w: World, m: Msg) returns (es: seq<Event>, v: World)
    requires w == Start(false, PLACEHOLDER).(options := multiset{OptionCall(true, false)})
    requires m == Letter(7, 1, true)
    ensures Runs(w, es, v)
    ensures v == w.(core := Only(Pool([m], 0, false), false), added := map["bob" := [m]])
  {
    v := w.(core := Only(Pool([m], 0, false), false), added := map["bob" := [m]]);
    var w1 := v.(pending := 1);
    var w2 := v.(started := true, lock := Starting);
    var w3 := v.(started := true, lock := Clearing(false));
    es := [Add(m)] + ([StartEntered] + ([StartScans] + ([Cleared] + [])));
    RunsCons(w3, Cleared, v, [], v);
    FindsNothing(w2, Pool([m], 0, false), false);
    RunsCons(w2, StartScans, w3, [Cleared] + [], v);
    RunsCons(w1, StartEntered, w2, [StartScans] + ([Cleared] + []), v);
    AddsFirst(w, m);
    RunsCons(w, Add(m), w1, [StartEntered] + ([StartScans] + ([Cleared] + [])), v);
  }

  /** A read-then-write race on the option loses a wakeup: in the end the engine is at rest with the
      option on and the SIP stack up, while a deliverable clean pool waits for nobody. */
  lemma OptionRaceLosesWakeup() returns (w: World, es: seq<Event>, v: World)
    ensures Initial(w) && Runs(w, es, v)
    ensures !v.started && v.pending == 0 && v.options == multiset{} && v.stackUp && v.core.auto
    ensures v.excused == {} && DeliverableIn(v.core.pools, "bob", v.core.auto)
  {
    w := Start(true, PLACEHOLDER);
    var m, on := Letter(7, 1, true), OptionCall(true, false);
    var es1, w1 := RaceBegins(w);
    var es2, w2 := FruitlessStart(w1, m);
    v := w2.(core := Only(Pool([m], 0, false), true), options := multiset{});
    assert w2.options - multiset{on} == multiset{};
    RunsCons(w2, WriteOption(on), v, [], v);
    RunsJoin(w1, es2, w2, [WriteOption(on)] + [], v);
    RunsJoin(w, es1, w1, es2 + ([WriteOption(on)] + []), v);
    es := es1 + (es2 + ([WriteOption(on)] + []));
  }

  // A wakeup lost to a single switch -----------------------------------------------------------

  /** Switched off by a call that meets nobody else, between two messages of which only the second can be sent. */
  function Spent(): Msg { MakeMsg("bob", [1], 1, 0, Message, true) }

  lemma SyncsFirst(w: World, m: Msg)
    requires w.core == Core(map[], [], false) && w.added == map[] && w.excused == {} && m.serial == "bob"
    ensures Step(w, Event.Sync(m), w.(core := Only(Pool([m], 0, false), false), added := map["bob" := [m]],
        excused := {"bob"}))
  {
    assert Log(map[], m) == map["bob" := [m]] by { assert [] + [m] == [m]; }
    assert AddInternal(w.core, m).priority == [] + ["bob"] == ["bob"];
  }

  lemma SyncsAnother(w: World, p: Pool, a: Msg, m: Msg)
    requires w.core == Only(p, false) && w.added == map["bob" := [a]] && w.excused == {"bob"} && m.serial == "bob"
    ensures Step(w, Event.Sync(m), w.(core := Only(Pool(p.messages
        + [m], 0, false), false), added := map["bob" := [a, m]]))
  {
    assert Log(map["bob" := [a]], m) == map["bob" := [a, m]] by { assert [a] + [m] == [a, m]; }
  }

  /** One whole call of setAutoResendEnabled. */
  lemma Switches(w: World, enable: bool, es: seq<Event>, v: World)
    requires w.options == multiset{} && w.lock == Free
    requires var start := enable && !w.core.auto;
             Runs(w.(core := w.core.(auto := enable), pending := w.pending + if start then 1 else 0), es, v)
    ensures var call := OptionCall(enable, enable && !w.core.auto);
            Runs(w, [ReadOption(enable)] + ([WriteOption(call)] + es), v)
  {
    var call := OptionCall(enable, enable && !w.core.auto);
    var w1 := w.(options := multiset{call});
    var w2 := w.(core := w.core.(auto := enable), pending := w.pending + if call.start then 1 else 0);
    assert w.options + multiset{call} == multiset{call} && multiset{call} - multiset{call} == multiset{};
    RunsCons(w1, WriteOption(call), w2, es, v);
    RunsCons(w, ReadOption(enable), w1, [WriteOption(call)] + es, v);
  }

  lemma TwoSynced(w: World, a: Msg, b: Msg) returns (es: seq<Event>, v: World)
    requires w == Start(false, PLACEHOLDER) && a == Spent() && b == Letter(2, 2, false)
    ensures Runs(w, es, v) && forall e :: e in es ==> e.Sync?
    ensures v == w.(core := Only(Pool([a, b], 0, false), false), added := map["bob" := [a, b]], excused := {"bob"})
  {
    var w1 := w.(core := Only(Pool([a], 0, false), false), added := map["bob" := [a]], excused := {"bob"});
    v := w.(core := Only(Pool([a, b], 0, false), false), added := map["bob" := [a, b]], excused := {"bob"});
    SyncsFirst(w, a);
    SyncsAnother(w1, Pool([a], 0, false), a, b);
    assert [a] + [b] == [a, b];
    RunsCons(w1, Event.Sync(b), v, [], v);
    RunsCons(w, Event.Sync(a), w1, [Event.Sync(b)] + [], v);
    es := [Event.Sync(a)] + ([Event.Sync(b)] + []);
  }

  /** In auto mode the head has no retries, so the start that the first call makes finds nothing. */
  lemma HeadBlocks(w: World, a: Msg, b: Msg) returns (es: seq<Event>, v: World)
    requires a == Spent() && b == Letter(2, 2, false)
    requires w.core == Only(Pool([a, b], 0, false), true) && w.pending == 1 && w.lock == Free && !w.started
        && w.cb == Quiet
    ensures Runs(w, es, v) && v == w.(pending := 0, excused := {})
  {
    v := w.(pending := 0, excused := {});
    var w1 := w.(pending := 0, started := true, lock := Starting);
    var w2 := w1.(lock := Clearing(false), excused := {});
    FindsNothing(w1, Pool([a, b], 0, false), true);
    RunsCons(w2, Cleared, v, [], v);
    RunsCons(w1, StartScans, w2, [Cleared] + [], v);
    Enters(w);
    RunsCons(w, StartEntered, w1, [StartScans] + ([Cleared] + []), v);
    es := [StartEntered] + ([StartScans] + ([Cleared] + []));
  }

  /** Without any overlap: manual mode, a message without retries and one that can be sent; the option is
      switched on and, once the engine has stopped, off again. The second message is now deliverable, and
      nobody will start the engine. */
  lemma LoneSwitchOffLosesWakeup() returns (w: World, es: seq<Event>, v: World)
    ensures Initial(w) && Runs(w, es, v)
    ensures Stopped(v) && v.options == multiset{} && v.stackUp
    ensures v.excused == {} && DeliverableIn(v.core.pools, "bob", v.core.auto)
  {
    w := Start(false, PLACEHOLDER);
    var a, b := Spent(), Letter(2, 2, false);
    var es1, w1 := TwoSynced(w, a, b);
    var w2 := w1.(core := Only(Pool([a, b], 0, false), true), pending := 1);
    var es2, w3 := HeadBlocks(w2, a, b);
    v := w3.(core := Only(Pool([a, b], 0, false), false));
    Switches(w3, false, [], v);
    var off := [ReadOption(false)] + ([WriteOption(OptionCall(false, false))] + []);
    RunsJoin(w2, es2, w3, off, v);
    Switches(w1, true, es2 + off, v);
    var on := [ReadOption(true)] + ([WriteOption(OptionCall(true, true))] + (es2 + off));
    RunsJoin(w, es1, w1, on, v);
    es := es1 + on;
    SecondOffered(a, b);
  }

  // A message lost to a shared UID -----------------------------------------------------------

  /** The first message is handed over, refused, and its pool marked. */
  lemma FirstRefused(w: World, a: Msg) returns (es: seq<Event>, v: World)
    requires w == Start(false, PLACEHOLDER) && a == Letter(1, 1, false)
    ensures Runs(w, es, v)
    ensures v == AfterRefusal(a)
  {
    var done := a.(processed := true);
    var w1 := w.(core := Only(Pool([a], 0, false), false), added := map["bob" := [a]], pending := 1);
    var w2 := w1.(pending := 0, started := true, lock := Starting);
    var w3 := w2.(lock := Free, xfer := Accept(a), outstanding := 1, sends := 1, handed := [a]);
    var w4 := w3.(outstanding := 0, xfer := Xfer(a.(retries := 0), 0), cb := Notified(a.(retries := 0), NotSent));
    v := w4.(core := Only(Pool([done], INT_MAX, true), false), cb := Updated);
    var es5 := [PoolUpdates] + [];
    var es4 := [Completes(NotSent)] + es5;
    var es3 := [StartScans] + es4;
    var es2 := [StartEntered] + es3;
    Refuses(w4, a);
    RunsCons(w4, PoolUpdates, v, [], v);
    Reports(w3, a, NotSent);
    RunsCons(w3, Completes(NotSent), w4, es5, v);
    HandsOver(w2, StartScans, Pool([a], 0, false));
    assert [] + [a] == [a];
    RunsCons(w2, StartScans, w3, es4, v);
    Enters(w1);
    RunsCons(w1, StartEntered, w2, es3, v);
    AddsFirst(w, a);
    RunsCons(w, Add(a), w1, es2, v);
    es := [Add(a)] + es2;
  }

  function AfterRefusal(a: Msg): World {
    Start(false, PLACEHOLDER).(
      core := Only(Pool([a.(processed := true)], INT_MAX, true), false), started := true,
      xfer := Xfer(a.(retries := 0), 0), cb := Updated, sends := 1,
      added := map["bob" := [a]], handed := [a])
  }

  function SecondInFlight(a: Msg, b: Msg): World {
    AfterRefusal(a).(
      core := Only(Pool([a.(processed := true), b], 0, false), false), added := map["bob" := [a, b]], pending := 1,
      cb := Quiet, xfer := Accept(b), outstanding := 1, sends := 2, handed := [a, b])
  }

  /** The second message is added while the completion thread is on its way to the scan, and handed over. */
  lemma SecondHanded(a: Msg, b: Msg) returns (es: seq<Event>)
    requires a == Letter(1, 1, false) && b == Letter(1, 2, false)
    ensures Runs(AfterRefusal(a), es, SecondInFlight(a, b))
  {
    var done := a.(processed := true);
    var w, v := AfterRefusal(a), SecondInFlight(a, b);
    var w1 := w.(core := Only(Pool([done, b], 0, false), false), added := map["bob" := [a, b]], pending := 1);
    SecondOffered(done, b);
    assert [a] + [b] == [a, b];
    Rescans(w1, Pool([done, b], 0, false), b, [], v);
    AddsAnother(w, Pool([done], INT_MAX, true), a, b);
    es := [CallbackLocks] + ([CallbackScans] + []);
    RunsCons(w, Add(b), w1, es, v);
    es := [Add(b)] + es;
  }

  /** The second message is acknowledged. */
  lemma SecondConfirmed(a: Msg, b: Msg) returns (es: seq<Event>, v: World)
    requires a == Letter(1, 1, false) && b == Letter(1, 2, false)
    ensures Runs(SecondInFlight(a, b), es, v)
    ensures v.core == Only(Pool([b], 1, false), false)
    ensures v.added == map["bob" := [a, b]] && v.confirmed == map["bob" := [b.(retries := 0)]]
  {
    var w := SecondInFlight(a, b);
    var w1 := w.(outstanding := 0, xfer := Xfer(b.(retries := 0), 0), cb := Notified(b.(retries := 0), Sent));
    v := w1.(core := Only(Pool([b], 1, false), false), cb := Updated, confirmed := map["bob" := [b.(retries := 0)]]);
    RemovesFirst(w1, a.(processed := true), b);
    RunsCons(w1, PoolUpdates, v, [], v);
    Reports(w, b, Sent);
    es := [PoolUpdates] + [];
    RunsCons(w, Completes(Sent), w1, es, v);
    es := [Completes(Sent)] + es;
  }

  /** Manual mode with one UID for all messages, as SMKEX sends them: after one message was refused, the
      confirmation of the next one removes the refused message and keeps the confirmed one queued. */
  lemma SharedUidLosesMessage() returns (w: World, es: seq<Event>, v: World, a: Msg, b: Msg)
    ensures Initial(w) && !w.core.auto && Runs(w, es, v)
    ensures a.uid == b.uid && Bare(a) != Bare(b)
    ensures Bares(Past(v.added, "bob")) == [Bare(a), Bare(b)]
    ensures Bares(Past(v.confirmed, "bob")) == [Bare(b)]
    ensures Queue(v.core, "bob") == [Bare(b)]
  {
    a, b := Letter(1, 1, false), Letter(1, 2, false);
    assert a.payload[1] == 1 && b.payload[1] == 2;
    w := Start(false, PLACEHOLDER);
    es, v := SharedUidRun(w, a, b);
    assert [Bare(a), Bare(b)] == Bares([a, b]);
  }

  lemma SharedUidRun(w: World, a: Msg, b: Msg) returns (es: seq<Event>, v: World)
    requires w == Start(false, PLACEHOLDER) && a == Letter(1, 1, false) && b == Letter(1, 2, false)
    ensures Runs(w, es, v) && v.core == Only(Pool([b], 1, false), false)
    ensures v.added == map["bob" := [a, b]] && v.confirmed == map["bob" := [b.(retries := 0)]]
  {
    var es1, u := FirstRefused(w, a);
    var es2 := SecondHanded(a, b);
    var es3;
    es3, v := SecondConfirmed(a, b);
    RunsJoin(u, es2, SecondInFlight(a, b), es3, v);
    RunsJoin(w, es1, u, es2 + es3, v);
    es := es1 + (es2 + es3);
  }

  // Sends beyond the retries -------------------------------------------------------------------

  function Twice(): Msg { MakeMsg("bob", [2], 1, 2, Message, false) }

  /** Two messages with one UID, the first already processed and with fewer retries. */
  function TwoQueued(a: Msg, b: Msg): World {
    Start(false, PLACEHOLDER).(core := Only(Pool([a, b], 0, false), false), added := map["bob" := [a, b]], pending := 2)
  }

  lemma FailsOnce(w: World, b: Msg)
    requires w.xfer == Accept(b) && b.retries == 2 && w.outstanding == 1 && w.cb == Quiet
    ensures Step(w, Completes(NotSent), w.(xfer := Xfer(b, 1), sends := w.sends + 1))
  {}

  lemma SucceedsThen(w: World, b: Msg)
    requires w.xfer == Xfer(b, 1) && b.retries == 2 && w.outstanding == 1 && w.cb == Quiet
    ensures Step(w, Completes(Sent), w.(outstanding := 0, xfer := Xfer(b.(retries := 0), 0),
        cb := Notified(b.(retries := 0), Sent)))
  {}

  function SecondOut(a: Msg, b: Msg): World {
    TwoQueued(a, b).(pending := 1, started := true, xfer := Accept(b), outstanding := 1, sends := 1, handed := [b])
  }

  lemma SecondGoes(a: Msg, b: Msg) returns (es: seq<Event>)
    requires a == Letter(1, 1, true) && b == Twice()
    ensures Runs(TwoQueued(a, b), es, SecondOut(a, b)) && AllInternal(es)
  {
    var w, v := TwoQueued(a, b), SecondOut(a, b);
    var w1 := w.(pending := 1, started := true, lock := Starting);
    SecondOffered(a, b);
    HandsOver(w1, StartScans, Pool([a, b], 0, false));
    assert [] + [b] == [b];
    RunsCons(w1, StartScans, v, [], v);
    Enters(w);
    es := [StartEntered] + ([StartScans] + []);
    RunsCons(w, StartEntered, w1, [StartScans] + [], v);
  }

  /** The second message is sent twice, and its confirmation takes out the first one. */
  lemma TwoSendsWasted(a: Msg, b: Msg) returns (es: seq<Event>, v: World)
    requires a == Letter(1, 1, true) && b == Twice()
    ensures Runs(SecondOut(a, b), es, v) && AllInternal(es) && v.sends == 2
    ensures v.core == Only(Pool([b], 1, false), false) && v.cb == Updated && v.lock == Free && v.outstanding == 0
  {
    var w, done := SecondOut(a, b), b.(retries := 0);
    var w1 := w.(xfer := Xfer(b, 1), sends := 2);
    var w2 := w1.(outstanding := 0, xfer := Xfer(done, 0), cb := Notified(done, Sent));
    v := w2.(core := Only(Pool([b], 1, false), false), cb := Updated, confirmed := map["bob" := [done]]);
    RemovesFirst(w2, a, b);
    RunsCons(w2, PoolUpdates, v, [], v);
    SucceedsThen(w1, b);
    RunsCons(w1, Completes(Sent), w2, [PoolUpdates] + [], v);
    FailsOnce(w, b);
    es := [Completes(NotSent)] + ([Completes(Sent)] + ([PoolUpdates] + []));
    RunsCons(w, Completes(NotSent), w1, [Completes(Sent)] + ([PoolUpdates] + []), v);
  }

  /** The step of a completion thread from its update to the handover of the only message. */
  lemma Rescans(w: World, p: Pool, b: Msg, es: seq<Event>, v: World)
    requires w.core == Only(p, false) && w.cb == Updated && w.lock == Free && w.outstanding == 0
    requires !p.dirty && p.messages != [] && Offer(p.messages, false) == b && b.retries > 0
    requires var u := w.(cb := Quiet, xfer := Accept(b), outstanding := 1, sends := w.sends + 1, handed := w.handed + [b]);
             Runs(u, es, v)
    ensures Runs(w, [CallbackLocks] + ([CallbackScans] + es), v)
  {
    var w1 := w.(lock := Rescanning);
    var w2 := w.(cb := Quiet, xfer := Accept(b), outstanding := 1, sends := w.sends + 1, handed := w.handed + [b]);
    HandsOver(w1, CallbackScans, p);
    RunsCons(w1, CallbackScans, w2, es, v);
    RunsCons(w, CallbackLocks, w1, [CallbackScans] + es, v);
  }

  /** So it is sent twice more. */
  lemma TwoSendsMore(w: World, b: Msg) returns (es: seq<Event>, v: World)
    requires b == Twice() && w.core == Only(Pool([b], 1, false), false)
    requires w.cb == Updated && w.lock == Free && w.outstanding == 0
    ensures Runs(w, es, v) && v.sends == w.sends + 2 && AllInternal(es)
  {
    var w2 := w.(cb := Quiet, xfer := Accept(b), outstanding := 1, sends := w.sends + 1, handed := w.handed + [b]);
    v := w2.(xfer := Xfer(b, 1), sends := w.sends + 2);
    FailsOnce(w2, b);
    RunsCons(w2, Completes(NotSent), v, [], v);
    Rescans(w, Pool([b], 1, false), b, [Completes(NotSent)] + [], v);
    es := [CallbackLocks] + ([CallbackScans] + ([Completes(NotSent)] + []));
  }

  lemma ReachesTwoQueued(a: Msg, b: Msg) returns (w0: World, es: seq<Event>)
    requires a == Letter(1, 1, true) && b == Twice()
    ensures Initial(w0) && !w0.core.auto && Runs(w0, es, TwoQueued(a, b))
  {
    w0 := Start(false, PLACEHOLDER);
    AddsFirst(w0, a);
    var u1 := w0.(core := Only(Pool([a], 0, false), false), added := map["bob" := [a]], pending := 1);
    AddsAnother(u1, Pool([a], 0, false), a, b);
    assert [a] + [b] == [a, b];
    var u2 := TwoQueued(a, b);
    RunsCons(u1, Add(b), u2, [], u2);
    RunsCons(w0, Add(a), u1, [Add(b)] + [], u2);
    es := [Add(a)] + ([Add(b)] + []);
  }

  lemma FourSends(a: Msg, b: Msg) returns (es: seq<Event>, v: World)
    requires a == Letter(1, 1, true) && b == Twice()
    ensures Runs(TwoQueued(a, b), es, v) && AllInternal(es) && v.sends == 4
  {
    var es1 := SecondGoes(a, b);
    var es2, u := TwoSendsWasted(a, b);
    var es3;
    es3, v := TwoSendsMore(u, b);
    RunsJoin(SecondOut(a, b), es2, u, es3, v);
    RunsJoin(TwoQueued(a, b), es1, SecondOut(a, b), es2 + es3, v);
    es := es1 + (es2 + es3);
    AllInternalJoin(es2, es3);
    AllInternalJoin(es1, es2 + es3);
  }

  lemma AllInternalJoin(a: seq<Event>, b: seq<Event>)
    requires AllInternal(a) && AllInternal(b)
    ensures AllInternal(a + b)
  {}

  lemma TriesOfTwo(a: Msg, b: Msg)
    requires a.retries == 1 && b.retries == 2
    ensures CleanSum(TwoQueued(a, b).core, Tries) == 3
  {
    var pools := TwoQueued(a, b).core.pools;
    assert pools["bob"].messages == [a, b] && [a, b][1..] == [b] && [b][1..] == [];
    assert Tries(a) == 1 && Tries(b) == 2;
    assert Total([b], Tries) == Tries(b) + Total([], Tries);
    assert Total([a, b], Tries) == Tries(a) + Total([b], Tries);
    assert Share(pools, "bob", Tries) == 3;
    assert ["bob"][1..] == [] && SumOver([], pools, Tries) == 0;
    assert SumOver(["bob"], pools, Tries) == 3;
  }

  /** Manual mode, one UID, different retries: the engine by itself sends four times, where the queued
      messages have three retries between them. */
  lemma SharedUidExceedsRetries() returns (w0: World, before: seq<Event>, w: World, es: seq<Event>, v: World)
    ensures Initial(w0) && !w0.core.auto && Runs(w0, before, w) && AllInternal(es) && Runs(w, es, v)
    ensures v.sends - w.sends == 4 && CleanSum(w.core, Tries) == 3
  {
    var a, b := Letter(1, 1, true), Twice();
    w0, before := ReachesTwoQueued(a, b);
    w := TwoQueued(a, b);
    es, v := FourSends(a, b);
    TriesOfTwo(a, b);
  }
}
