/** Every method of the engine, called while no other call is in progress, is a run of the step relation. */
module Calls {
  import opened Base
  import opened Payload
  import opened Transport
  import opened EngineSpec
  import opened World
  import opened Wire

  /** No call is in progress; a transfer may be. */
  predicate Idle(w: World) { w.lock == Free && w.cb == Quiet && w.pending == 0 }

  /** The engine and transport of a world, with the packets sent so far. */
  function Of(w: World, wire: seq<Packet>): State { State(w.core, w.started, w.xfer, wire) }

  /** The run leads from `w` to `v` and sends `out` on the way. */
  ghost predicate Leads(w: World, es: seq<Event>, v: World, out: seq<Packet>) {
    Runs(w, es, v) && OnWire(w, es) == out
  }

  lemma LeadsCons(w: World, e: Event, u: World, es: seq<Event>, v: World, sent: seq<Packet>, out: seq<Packet>)
    requires Enabled(w, e) && Next(w, e) == u && Sends(w, e) == sent && Leads(u, es, v, out)
    ensures Leads(w, [e] + es, v, sent + out)
  {
    assert ([e] + es)[1..] == es;
  }

  lemma LeadsOne(w: World, e: Event, v: World, sent: seq<Packet>)
    requires Enabled(w, e) && Next(w, e) == v && Sends(w, e) == sent
    ensures Leads(w, [e], v, sent)
  {
    assert Leads(v, [], v, []);
    LeadsCons(w, e, v, [], v, sent, []);
    assert [e] + [] == [e] && sent + [] == sent;
  }

  /** A silent step in front. */
  lemma LeadsSilent(w: World, e: Event, u: World, es: seq<Event>, v: World, out: seq<Packet>)
    requires Enabled(w, e) && Next(w, e) == u && Sends(w, e) == [] && Leads(u, es, v, out)
    ensures Leads(w, [e] + es, v, out)
  {
    LeadsCons(w, e, u, es, v, [], out);
    assert [] + out == out;
  }

  /** sendMessage inside `startedLock_`. */
  lemma ScanIsRun(w: World, byCallback: bool, wire: seq<Packet>) returns (es: seq<Event>, v: World, out: seq<Packet>)
    requires Inv(w) && w.lock == (if byCallback then Rescanning else Starting)
    ensures Leads(w, es, v, out) && Of(v, wire + out) == SendNext(Of(w, wire))
    ensures v.lock == Free && v.cb == Quiet && v.pending == w.pending && v.options == w.options
    ensures v.added == w.added && v.confirmed == w.confirmed
  {
    ScanPicks(w.core);
    if Scan(w.core).next.Some? { es, v, out := FindingIsRun(w, byCallback, wire); }
    else { es, v, out := FruitlessIsRun(w, byCallback, wire); }
  }

  lemma FindingIsRun(w: World, byCallback: bool, wire: seq<Packet>) returns (es: seq<Event>, v: World, out: seq<Packet>)
    requires Control(w) && w.lock == (if byCallback then Rescanning else Starting) && Scan(w.core).next.Some?
    ensures Leads(w, es, v, out) && Of(v, wire + out) == SendNext(Of(w, wire))
    ensures v.lock == Free && v.cb == Quiet && v.pending == w.pending && v.options == w.options
    ensures v.added == w.added && v.confirmed == w.confirmed
  {
    var e := if byCallback then CallbackScans else StartScans;
    v, out := Scans(w, byCallback), SentOnAccept(Scan(w.core).next.value);
    es := [e];
    LeadsOne(w, e, v, out);
  }

  lemma FruitlessIsRun(w: World, byCallback: bool, wire: seq<Packet>) returns (es: seq<Event>, v: World, out: seq<Packet>)
    requires Control(w) && w.lock == (if byCallback then Rescanning else Starting) && Scan(w.core).next == None
    ensures Leads(w, es, v, out) && Of(v, wire + out) == SendNext(Of(w, wire))
    ensures v.lock == Free && v.cb == Quiet && v.pending == w.pending && v.options == w.options
    ensures v.added == w.added && v.confirmed == w.confirmed
  {
    var e := if byCallback then CallbackScans else StartScans;
    var u := Scans(w, byCallback);
    v, out := u.(started := false, lock := Free, cb := Quiet), [];
    LeadsOne(u, Cleared, v, []);
    LeadsSilent(w, e, u, [Cleared], v, []);
    es := [e] + [Cleared];
    assert wire + [] == wire;
  }

  /** startEngine, by a caller that has updated the pools. */
  lemma StartIsRun(w: World, wire: seq<Packet>) returns (es: seq<Event>, v: World, out: seq<Packet>)
    requires Inv(w) && w.lock == Free && w.cb == Quiet && w.pending == 1
    ensures Leads(w, es, v, out) && Idle(v) && v.options == w.options && v.added == w.added
    ensures Of(v, wire + out) == StartIf(Of(w, wire), w.stackUp)
  {
    if !w.stackUp {
      v, out, es := Next(w, StartDropped), [], [StartDropped];
      LeadsOne(w, StartDropped, v, []);
      assert wire + [] == wire;
    } else if w.started {
      v, out, es := Next(w, StartEntered), [], [StartEntered];
      LeadsOne(w, StartEntered, v, []);
      assert wire + [] == wire;
    } else {
      var u := Next(w, StartEntered);
      InvStep(w, StartEntered);
      es, v, out := ScanIsRun(u, false, wire);
      LeadsSilent(w, StartEntered, u, es, v, out);
      es := [StartEntered] + es;
    }
  }

  /** An update of the pools by event `e`, followed by a start. */
  lemma UpdateIsRun(w: World, e: Event, wire: seq<Packet>) returns (es: seq<Event>, v: World, out: seq<Packet>)
    requires Inv(w) && Idle(w) && (e.Add? || e.GoesOnline? || e.Raise?) && Next(w, e).pending == 1
    ensures Leads(w, es, v, out) && Idle(v) && v.options == w.options && v.added == Next(w, e).added
    ensures Of(v, wire + out) == StartIf(Of(w, wire).(core := Next(w, e).core), w.stackUp)
  {
    var u := Next(w, e);
    InvStep(w, e);
    es, v, out := StartIsRun(u, wire);
    LeadsSilent(w, e, u, es, v, out);
    es := [e] + es;
  }

  /** addMessage */
  lemma AddIsRun(w: World, m: Msg, wire: seq<Packet>) returns (es: seq<Event>, v: World, out: seq<Packet>)
    requires Inv(w) && Idle(w)
    ensures Leads(w, es, v, out) && Idle(v) && v.added == Log(w.added, m)
    ensures Of(v, wire + out) == StartIf(Of(w, wire).(core := AddInternal(w.core, m)), w.stackUp)
  {
    es, v, out := UpdateIsRun(w, Add(m), wire);
  }

  /** buddy_state2 of a buddy that is online and has a pool */
  lemma OnlineIsRun(w: World, s: Serial, wire: seq<Packet>) returns (es: seq<Event>, v: World, out: seq<Packet>)
    requires Inv(w) && Idle(w) && s in w.core.pools
    ensures Leads(w, es, v, out) && Idle(v)
    ensures Of(v, wire + out) == StartIf(Of(w, wire).(core := Online(w.core, s)), w.stackUp)
  {
    es, v, out := UpdateIsRun(w, GoesOnline(s), wire);
  }

  /** resendMessage that finds its message */
  lemma RaiseIsRun(w: World, s: Serial, uid: int, wire: seq<Packet>) returns (es: seq<Event>, v: World, out: seq<Packet>)
    requires Inv(w) && Idle(w) && CanResend(w.core, s, uid)
    ensures Leads(w, es, v, out) && Idle(v)
    ensures Of(v, wire + out) == StartIf(Of(w, wire).(core := Resend(w.core, s, uid)), w.stackUp)
  {
    es, v, out := UpdateIsRun(w, Raise(s, uid), wire);
  }

  /** setAutoResendEnabled */
  lemma SwitchIsRun(w: World, enabled: bool, wire: seq<Packet>) returns (es: seq<Event>, v: World, out: seq<Packet>)
    requires Inv(w) && Idle(w) && w.options == multiset{}
    ensures Leads(w, es, v, out) && Idle(v) && v.options == multiset{}
    ensures var st := Of(w, wire).(core := w.core.(auto := enabled));
            Of(v, wire + out) == if enabled && !w.core.auto then StartIf(st, w.stackUp) else st
  {
    var call := OptionCall(enabled, enabled && !w.core.auto);
    var w1 := w.(options := multiset{call});
    var w2 := w.(core := w.core.(auto := enabled), pending := if call.start then 1 else 0);
    assert w.options + multiset{call} == multiset{call} && multiset{call} - multiset{call} == multiset{};
    assert Next(w, ReadOption(enabled)) == w1 && Next(w1, WriteOption(call)) == w2;
    InvStep(w, ReadOption(enabled));
    InvStep(w1, WriteOption(call));
    if call.start {
      es, v, out := StartIsRun(w2, wire);
    } else {
      es, v, out := [], w2, [];
      assert wire + [] == wire;
    }
    LeadsSilent(w1, WriteOption(call), w2, es, v, out);
    LeadsSilent(w, ReadOption(enabled), w1, [WriteOption(call)] + es, v, out);
    es := [ReadOption(enabled)] + ([WriteOption(call)] + es);
  }

  /** A completion of the one outstanding send, with the report it may make. */
  lemma CompletionIsRun(w: World, status: Status, wire: seq<Packet>) returns (es: seq<Event>, v: World, out: seq<Packet>)
    requires Inv(w) && Idle(w) && w.outstanding > 0
    ensures Leads(w, es, v, out) && Idle(v) && Of(v, wire + out) == Complete(Of(w, wire), status)
  {
    var u := Next(w, Completes(status));
    InvStep(w, Completes(status));
    if u.cb == Quiet {
      v, out := u, [PacketOf(w.xfer.msg)];
      es := [Completes(status)];
      LeadsOne(w, Completes(status), v, out);
    } else {
      es, v, out := ReportIsRun(u, wire);
      LeadsSilent(w, Completes(status), u, es, v, out);
      es := [Completes(status)] + es;
    }
  }

  /** messageStatus, called by the transport. */
  lemma ReportIsRun(w: World, wire: seq<Packet>) returns (es: seq<Event>, v: World, out: seq<Packet>)
    requires Inv(w) && w.cb.Notified? && w.lock == Free && w.pending == 0
    ensures Leads(w, es, v, out) && Idle(v)
    ensures Of(v, wire + out) == SendNext(Of(w, wire).(core := StatusUpdate(w.core, w.cb.msg, w.cb.status)))
  {
    var u1 := Next(w, PoolUpdates);
    InvStep(w, PoolUpdates);
    var u2 := Next(u1, CallbackLocks);
    InvStep(u1, CallbackLocks);
    es, v, out := ScanIsRun(u2, true, wire);
    LeadsSilent(u1, CallbackLocks, u2, es, v, out);
    LeadsSilent(w, PoolUpdates, u1, [CallbackLocks] + es, v, out);
    es := [PoolUpdates] + ([CallbackLocks] + es);
  }
}
