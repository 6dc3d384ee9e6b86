/** What the engine puts on the wire, over a whole run. */
module Wire {
  import opened Base
  import opened Payload
  import opened Transport
  import opened EngineSpec
  import opened World
  import opened Conservation

  type Packet = (Serial, seq<byte>)

  /** A message on the wire: its recipient and its bytes. */
  function PacketOf(m: Msg): Packet { (m.serial, m.payload) }

  /** The packets a step gives to the SIP stack. */
  function Sends(w: World, e: Event): seq<Packet>
    requires Enabled(w, e)
  {
    match e
    case StartScans => OnHandover(Scan(w.core).next)
    case CallbackScans => OnHandover(Scan(w.core).next)
    case Completes(status) => if Done(w.xfer, status).1 == Resent then [PacketOf(w.xfer.msg)] else []
    case _ => []
  }

  function OnHandover(m: Option<Msg>): seq<Packet> { if m.Some? then SentOnAccept(m.value) else [] }

  /** All packets of a run, in order. */
  function OnWire(w: World, es: seq<Event>): seq<Packet>
    decreases |es|
  {
    if es == [] || !Enabled(w, es[0]) then [] else Sends(w, es[0]) + OnWire(Next(w, es[0]), es[1..])
  }

  /** `wire` is the packets of `handed`, each repeated on the spot any number of times. */
  ghost predicate Stutters(handed: seq<Msg>, wire: seq<Packet>)
    decreases |wire|
  {
    if wire == [] then handed == []
    else
      var m, rest := wire[|wire| - 1], wire[..|wire| - 1];
      && handed != [] && PacketOf(handed[|handed| - 1]) == m
      && (Stutters(handed, rest) || Stutters(handed[..|handed| - 1], rest))
  }

  lemma StutterNew(handed: seq<Msg>, wire: seq<Packet>, m: Msg)
    requires Stutters(handed, wire)
    ensures Stutters(handed + [m], wire + [PacketOf(m)])
  {
    assert (wire + [PacketOf(m)])[..|wire|] == wire && (handed + [m])[..|handed|] == handed;
  }

  lemma StutterAgain(handed: seq<Msg>, wire: seq<Packet>)
    requires Stutters(handed, wire) && handed != []
    ensures Stutters(handed, wire + [PacketOf(handed[|handed| - 1])])
  {
    assert (wire + [PacketOf(handed[|handed| - 1])])[..|wire|] == wire;
  }

  /** The message in flight is the last one handed over; `from` was handed over before the run. */
  ghost predicate LastFlies(w: World, from: seq<Msg>) {
    from <= w.handed && (Busy(w.xfer) ==> |from| < |w.handed| && w.handed[|w.handed| - 1] == w.xfer.msg)
  }

  lemma SendsOfScan(w: World, e: Event)
    requires Inv(w) && Enabled(w, e) && Scanning(e)
    ensures var v := Next(w, e);
            && v.sends == w.sends + |Sends(w, e)|
            && match Scan(w.core).next
               case Some(m) => v.handed == w.handed + [m] && Sends(w, e) == [PacketOf(m)] && v.xfer.msg == m
               case None => v.handed == w.handed && Sends(w, e) == [] && !Busy(v.xfer)
  {
    if Scan(w.core).next.Some? { HandoverFrom(w.core); }
  }

  lemma SendsOtherwise(w: World, e: Event)
    requires Control(w) && Enabled(w, e) && !Scanning(e)
    ensures var v := Next(w, e);
            v.handed == w.handed && v.sends == w.sends + |Sends(w, e)|
            && (Busy(v.xfer) ==> Busy(w.xfer) && v.xfer.msg == w.xfer.msg)
            && (Sends(w, e) != [] ==> Sends(w, e) == [PacketOf(w.xfer.msg)] && Busy(w.xfer))
  {
    if e.Completes? { SendsOfCompletion(w, e.status); }
    else if Internal(e) { SendsInside(w, e); }
    else { SendsOutside(w, e); }
  }

  lemma SendsOfCompletion(w: World, status: Status)
    requires Control(w) && Enabled(w, Completes(status))
    ensures var v := Next(w, Completes(status));
            v.handed == w.handed && v.sends == w.sends + |Sends(w, Completes(status))|
            && (Busy(v.xfer) ==> Busy(w.xfer) && v.xfer.msg == w.xfer.msg)
            && (Sends(w, Completes(status)) != [] ==> Sends(w, Completes(status)) == [PacketOf(w.xfer.msg)] && Busy(w.xfer))
  {}

  lemma SendsInside(w: World, e: Event)
    requires Enabled(w, e) && Internal(e) && !Scanning(e) && !e.Completes?
    ensures Next(w, e).handed == w.handed && Next(w, e).sends == w.sends && Next(w, e).xfer == w.xfer && Sends(w, e) == []
  {}

  lemma SendsOutside(w: World, e: Event)
    requires Enabled(w, e) && !Internal(e)
    ensures Next(w, e).handed == w.handed && Next(w, e).sends == w.sends && Next(w, e).xfer == w.xfer && Sends(w, e) == []
  {}

  /** The packets so far are those handed over since `from`, with repetitions. */
  ghost predicate WireInv(w: World, from: seq<Msg>, wire: seq<Packet>) {
    LastFlies(w, from) && Stutters(w.handed[|from|..], wire)
  }

  lemma WireStep(w: World, e: Event, from: seq<Msg>, wire: seq<Packet>)
    requires Inv(w) && Enabled(w, e) && WireInv(w, from, wire)
    ensures WireInv(Next(w, e), from, wire + Sends(w, e)) && Next(w, e).sends == w.sends + |Sends(w, e)|
  {
    if Scanning(e) {
      SendsOfScan(w, e);
      if Scan(w.core).next.Some? { WireNew(w.handed, from, wire, Scan(w.core).next.value); }
      else { assert wire + [] == wire; }
    } else {
      SendsOtherwise(w, e);
      WireAgain(w.handed, from, wire, Sends(w, e));
    }
  }

  lemma WireNew(handed: seq<Msg>, from: seq<Msg>, wire: seq<Packet>, m: Msg)
    requires from <= handed && Stutters(handed[|from|..], wire)
    ensures from <= handed + [m] && Stutters((handed + [m])[|from|..], wire + [PacketOf(m)])
  {
    assert (handed + [m])[|from|..] == handed[|from|..] + [m];
    StutterNew(handed[|from|..], wire, m);
  }

  lemma WireAgain(handed: seq<Msg>, from: seq<Msg>, wire: seq<Packet>, sent: seq<Packet>)
    requires from <= handed && Stutters(handed[|from|..], wire)
    requires sent == [] || (|from| < |handed| && sent == [PacketOf(handed[|handed| - 1])])
    ensures Stutters(handed[|from|..], wire + sent)
  {
    if sent == [] { assert wire + sent == wire; } else { StutterAgain(handed[|from|..], wire); }
  }

  lemma {:induction false} WireRun(w: World, es: seq<Event>, v: World, from: seq<Msg>, wire: seq<Packet>)
    requires Inv(w) && WireInv(w, from, wire) && Runs(w, es, v)
    ensures WireInv(v, from, wire + OnWire(w, es)) && v.sends == w.sends + |OnWire(w, es)|
    decreases |es|
  {
    if es == [] {
      assert wire + [] == wire;
    } else {
      var u := Next(w, es[0]);
      WireStep(w, es[0], from, wire);
      InvStep(w, es[0]);
      WireRun(u, es[1..], v, from, wire + Sends(w, es[0]));
      assert wire + (Sends(w, es[0]) + OnWire(u, es[1..])) == (wire + Sends(w, es[0])) + OnWire(u, es[1..]);
    }
  }

  /** In every run, from any reachable state with nothing at the transport: the packets on the wire are exactly
      the recipients and bytes of the messages handed over in the run, in that order, with nothing between them
      but immediate repetitions. */
  lemma WireIsHandovers(w0: World, before: seq<Event>, w: World, es: seq<Event>, v: World)
    requires Initial(w0) && Runs(w0, before, w) && !Busy(w.xfer) && Runs(w, es, v)
    ensures w.handed <= v.handed && Stutters(v.handed[|w.handed|..], OnWire(w, es))
    ensures v.sends - w.sends == |OnWire(w, es)|
  {
    InvRun(w0, before, w);
    assert w.handed[|w.handed|..] == [];
    WireRun(w, es, v, w.handed, []);
    assert [] + OnWire(w, es) == OnWire(w, es);
  }
}
