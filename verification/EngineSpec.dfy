/** What one locked region of MpAutoResendEngine does to the pools, as functions on values. */
module EngineSpec {
  import opened Base
  import opened Payload
  import opened Pool
  import opened Transport
  import opened Sorting

  datatype Core = Core(pools: map<Serial, Pool>, priority: seq<Serial>, auto: bool)

  function WeightIn(pools: map<Serial, Pool>): Serial -> int {
    s => if s in pools then pools[s].weight else 0
  }

  // Regions ------------------------------------------------------------------------------

  /** addMessageInternal */
  function AddInternal(c: Core, m: Msg): Core {
    var s := m.serial;
    if s in c.pools then
      var p := c.pools[s];
      c.(pools := c.pools[s := MarkClean(p.(messages := p.messages + [m]), c.auto)])
    else
      c.(pools := c.pools[s := MarkClean(Pool([m], 1, false), c.auto)], priority := c.priority + [s])
  }

  /** syncWithDBConnectors for the messages of its connectors in order */
  function AddEach(c: Core, ms: seq<Msg>): Core
    decreases |ms|
  {
    if ms == [] then c else AddEach(AddInternal(c, ms[0]), ms[1..])
  }

  function Flatten(mss: seq<seq<Msg>>): seq<Msg> {
    if mss == [] then [] else mss[0] + Flatten(mss[1..])
  }

  lemma {:induction false} AddEachAppend(c: Core, a: seq<Msg>, b: seq<Msg>)
    ensures AddEach(c, a + b) == AddEach(AddEach(c, a), b)
    decreases |a|
  {
    if a == [] {
      assert a + b == b;
    } else {
      AddEachAppend(AddInternal(c, a[0]), a[1..], b);
      assert (a + b)[1..] == a[1..] + b;
    }
  }

  /** Mark the first message with the UID as processed, then remove it. */
  function Confirmed(ms: seq<Msg>, uid: int): seq<Msg> {
    RemoveUid(MarkUid(ms, uid, true), uid)
  }

  /** A pool whose recipient is unreachable. */
  function Refused(p: Pool, uid: int): Pool {
    MarkProcessed(p.(messages := MarkUid(p.messages, uid, true), dirty := true))
  }

  /** The region of messageStatus under the pool lock. */
  function StatusUpdate(c: Core, m: Msg, status: Status): Core {
    var s := m.serial;
    if s !in c.pools then c
    else
      var p := c.pools[s];
      if status == Sent then
        var rest := Confirmed(p.messages, m.uid);
        if rest == [] then c.(pools := c.pools - {s}, priority := RemoveFirst(c.priority, s))
        else c.(pools := c.pools[s := p.(messages := rest, weight := ClampWeight(p.weight + 1))])
      else c.(pools := c.pools[s := Refused(p, m.uid)])
  }

  /** buddy_state2 for a buddy that is online. */
  function Online(c: Core, s: Serial): Core {
    if s in c.pools then c.(pools := c.pools[s := MarkClean(c.pools[s], c.auto)]) else c
  }

  /** Whether resendMessage finds the message. */
  predicate CanResend(c: Core, s: Serial, uid: int) {
    s in c.pools && IndexOf(c.pools[s].messages, uid) >= 0
  }

  /** The region of resendMessage once the message is found: every other weight grows by one. */
  function Resend(c: Core, s: Serial, uid: int): Core
    requires CanResend(c, s, uid)
  {
    var p := c.pools[s];
    var found := c.pools[s := p.(messages := MarkUid(p.messages, uid, false), dirty := false)];
    c.(pools := Shift(found, s))
  }

  function Shift(pools: map<Serial, Pool>, s: Serial): map<Serial, Pool> {
    map t | t in pools :: Shifted(t, s, pools[t])
  }

  function Shifted(t: Serial, s: Serial, p: Pool): Pool {
    p.(weight := if t == s then 0 else ClampWeight(p.weight + 1))
  }

  /** The pool region of removeMessagesForSerial: `priority` is left as it is. */
  function RemoveSerial(c: Core, s: Serial): Core {
    c.(pools := c.pools - {s})
  }

  datatype Scanned = Scanned(core: Core, next: Option<Msg>)

  /** The selection loop of sendMessage from position `i` of the sorted priorities. */
  function ScanFrom(pools: map<Serial, Pool>, p: seq<Serial>, auto: bool, i: nat): (map<Serial, Pool>, Option<Msg>)
    requires i <= |p|
    decreases |p| - i
  {
    if i == |p| then (pools, None)
    else
      var s := p[i];
      if s !in pools || pools[s].messages == [] then ScanFrom(pools, p, auto, i + 1)
      else if pools[s].dirty then ScanFrom(pools[s := MarkProcessed(pools[s])], p, auto, i + 1)
      else
        var m := Offer(pools[s].messages, auto);
        if m.retries <= 0 then ScanFrom(pools, p, auto, i + 1) else (pools, Some(m))
  }

  /** sendMessage: sort, then look for a message to hand over. */
  function Scan(c: Core): Scanned {
    var p := StableSort(c.priority, WeightIn(c.pools));
    var (pools, next) := ScanFrom(c.pools, p, c.auto, 0);
    Scanned(Core(pools, p, c.auto), next)
  }

  // Whole calls --------------------------------------------------------------------------------

  /** The engine with its transport; `wire` holds the packets given to the SIP stack so far. */
  datatype State = State(core: Core, started: bool, xfer: Xfer, wire: seq<(Serial, seq<byte>)>)

  /** sendMessage */
  function SendNext(st: State): State {
    var r := Scan(st.core);
    match r.next
    case Some(m) => State(r.core, st.started, Accept(m), st.wire + SentOnAccept(m))
    case None => State(r.core, false, st.xfer, st.wire)
  }

  /** startEngine */
  function StartIf(st: State, stackUp: bool): State {
    if stackUp && !st.started then SendNext(st.(started := true)) else st
  }

  /** onSendMsgDone of the transport, with the report that it makes. */
  function Complete(st: State, status: Status): State {
    var (x, o) := Done(st.xfer, status);
    match o
    case Ignored => st
    case Resent => st.(xfer := x, wire := st.wire + [(x.msg.serial, x.msg.payload)])
    case Reported(m, reported) => SendNext(st.(core := StatusUpdate(st.core, m, reported), xfer := x))
  }

  // The representation invariant ------------------------------------------------------------

  ghost predicate PoolInv(s: Serial, p: Pool) {
    && p.messages != []
    && 0 <= p.weight <= INT_MAX
    && AllFor(s, p.messages)
  }

  ghost predicate AllFor(s: Serial, ms: seq<Msg>) {
    forall i :: 0 <= i < |ms| ==> ms[i].serial == s
  }

  /** `priority` lists the keys of the pool map, each once, and every pool holds messages for its key. */
  ghost predicate RepInv(c: Core) {
    && NoDup(c.priority)
    && (forall s :: s in c.priority <==> s in c.pools)
    && (forall s :: s in c.pools ==> PoolInv(s, c.pools[s]))
  }

  lemma AddRepInv(c: Core, m: Msg)
    requires RepInv(c)
    ensures RepInv(AddInternal(c, m))
  {
    var s := m.serial;
    if s in c.pools {
      assert PoolInv(s, c.pools[s]);
      var p := c.pools[s];
      PutRepInv(c, s, MarkClean(p.(messages := p.messages + [m]), c.auto));
    } else {
      NewRepInv(c, s, MarkClean(Pool([m], 1, false), c.auto));
    }
  }

  lemma NewRepInv(c: Core, s: Serial, p: Pool)
    requires RepInv(c) && s !in c.pools && PoolInv(s, p)
    ensures RepInv(c.(pools := c.pools[s := p], priority := c.priority + [s]))
  {}

  lemma OnlineRepInv(c: Core, s: Serial)
    requires RepInv(c)
    ensures RepInv(Online(c, s))
  {}

  lemma ResendRepInv(c: Core, s: Serial, uid: int)
    requires RepInv(c) && CanResend(c, s, uid)
    ensures RepInv(Resend(c, s, uid))
  {}

  lemma PutRepInv(c: Core, s: Serial, p: Pool)
    requires RepInv(c) && s in c.pools && PoolInv(s, p)
    ensures RepInv(c.(pools := c.pools[s := p]))
  {}

  lemma EraseRepInv(c: Core, s: Serial)
    requires RepInv(c)
    ensures RepInv(c.(pools := c.pools - {s}, priority := RemoveFirst(c.priority, s)))
  {
    RemoveFirstFacts(c.priority, s);
  }

  lemma StatusRepInv(c: Core, m: Msg, status: Status)
    requires RepInv(c)
    ensures RepInv(StatusUpdate(c, m, status))
  {
    var s := m.serial;
    if s in c.pools {
      var p := c.pools[s];
      assert PoolInv(s, p);
      var marked := MarkUid(p.messages, m.uid, true);
      var rest := Confirmed(p.messages, m.uid);
      assert AllFor(s, marked) && AllFor(s, rest) && AllFor(s, MarkAll(marked, true));
      if status == NotSent {
        PutRepInv(c, s, Refused(p, m.uid));
      } else if rest == [] {
        EraseRepInv(c, s);
      } else {
        PutRepInv(c, s, p.(messages := rest, weight := ClampWeight(p.weight + 1)));
      }
    }
  }

  // What a scan finds -----------------------------------------------------------------------

  /** What a scan may leave of a pool: dirty ones may have been marked, clean ones are untouched. */
  predicate SweptFrom(after: Pool, before: Pool) {
    after == before || (before.dirty && after == MarkProcessed(before))
  }

  predicate DeliverableIn(pools: map<Serial, Pool>, s: Serial, auto: bool) {
    s in pools && Deliverable(pools[s], auto)
  }

  lemma {:induction false} ScanFromFacts(pools: map<Serial, Pool>, p: seq<Serial>, auto: bool, i: nat) returns (k: nat)
    requires i <= |p|
    ensures var (after, next) := ScanFrom(pools, p, auto, i);
            && after.Keys == pools.Keys
            && (forall s :: s in pools ==> SweptFrom(after[s], pools[s]))
            && i <= k <= |p|
            && (forall j :: i <= j < k ==> !DeliverableIn(pools, p[j], auto))
            && (if k == |p| then next == None
                else DeliverableIn(pools, p[k], auto) && next == Some(Offer(pools[p[k]].messages, auto)))
    decreases |p| - i
  {
    if i == |p| {
      k := i;
    } else {
      var s := p[i];
      if s !in pools || pools[s].messages == [] {
        k := ScanFromFacts(pools, p, auto, i + 1);
      } else if pools[s].dirty {
        var marked := pools[s := MarkProcessed(pools[s])];
        k := ScanFromFacts(marked, p, auto, i + 1);
        forall j | i <= j < k ensures !DeliverableIn(pools, p[j], auto) {
          assert j > i ==> !DeliverableIn(marked, p[j], auto);
        }
      } else if Offer(pools[s].messages, auto).retries <= 0 {
        k := ScanFromFacts(pools, p, auto, i + 1);
      } else {
        k := i;
      }
    }
  }

  /** `s` goes before `t`: smaller weight, or equal weight and earlier in the priorities. */
  ghost predicate Goes(c: Core, s: Serial, t: Serial)
    requires s in c.pools && t in c.pools
  {
    c.pools[s].weight < c.pools[t].weight || (c.pools[s].weight == c.pools[t].weight && Before(c.priority, s, t))
  }

  lemma ScanKeeps(c: Core)
    requires RepInv(c)
    ensures var r := Scan(c);
            && RepInv(r.core) && r.core.auto == c.auto && r.core.pools.Keys == c.pools.Keys
            && forall s :: s in c.pools ==> SweptFrom(r.core.pools[s], c.pools[s])
  {
    var p := StableSort(c.priority, WeightIn(c.pools));
    StableSortFacts(c.priority, WeightIn(c.pools));
    SortedNoDup(c.priority, p);
    var k := ScanFromFacts(c.pools, p, c.auto, 0);
    var after := ScanFrom(c.pools, p, c.auto, 0).0;
    forall s | s in after ensures PoolInv(s, after[s]) {
      assert PoolInv(s, c.pools[s]) && SweptFrom(after[s], c.pools[s]);
    }
  }

  /** After a scan the priorities are sorted by the weights they had, stably. */
  lemma ScanSorts(c: Core)
    ensures Ascending(Scan(c).core.priority, WeightIn(c.pools))
    ensures multiset(Scan(c).core.priority) == multiset(c.priority)
    ensures forall k :: Level(Scan(c).core.priority, WeightIn(c.pools), k) == Level(c.priority, WeightIn(c.pools), k)
  {
    StableSortFacts(c.priority, WeightIn(c.pools));
  }

  ghost predicate Listed(c: Core) {
    forall s :: s in c.priority ==> s in c.pools
  }

  lemma ScanRepInv(c: Core)
    requires RepInv(c)
    ensures Listed(c) && RepInv(Scan(c).core)
  {
    ScanKeeps(c);
  }

  lemma ReportRepInv(c: Core, m: Msg, status: Status)
    requires RepInv(c)
    ensures Listed(StatusUpdate(c, m, status)) && RepInv(Scan(StatusUpdate(c, m, status)).core)
  {
    StatusRepInv(c, m, status);
    ScanRepInv(StatusUpdate(c, m, status));
  }

  /** What sendMessage hands over: what the foremost deliverable pool offers, and nothing exactly
      when no pool is deliverable. */
  lemma ScanPicks(c: Core)
    requires RepInv(c)
    ensures var r := Scan(c);
            && (r.next == None <==> forall s :: s in c.pools ==> !Deliverable(c.pools[s], c.auto))
            && (r.next.Some? ==>
                  var s := r.next.value.serial;
                  && DeliverableIn(c.pools, s, c.auto)
                  && r.next.value == Offer(c.pools[s].messages, c.auto)
                  && r.next.value.retries > 0
                  && forall t :: DeliverableIn(c.pools, t, c.auto) && t != s ==> Goes(c, s, t))
  {
    var w := WeightIn(c.pools);
    var p := StableSort(c.priority, w);
    StableSortFacts(c.priority, w);
    SortedNoDup(c.priority, p);
    var k := ScanFromFacts(c.pools, p, c.auto, 0);
    if k < |p| {
      OfferFor(p[k], c.pools[p[k]], c.auto);
      forall t | DeliverableIn(c.pools, t, c.auto) && t != p[k] ensures Goes(c, p[k], t) {
        assert t in c.priority;
        var j :| 0 <= j < |p| && p[j] == t;
        SortedOrder(c.priority, w, k, j);
      }
    } else {
      forall s | s in c.pools ensures !Deliverable(c.pools[s], c.auto) {
        assert s in c.priority;
        var j :| 0 <= j < |p| && p[j] == s;
        assert !DeliverableIn(c.pools, p[j], c.auto);
      }
    }
  }

  /** The pool a message was handed over from is untouched by the scan. */
  lemma HandoverFrom(c: Core)
    requires RepInv(c) && Scan(c).next.Some?
    ensures var m := Scan(c).next.value;
            && m.retries > 0 && m.serial in c.pools && m.serial in Scan(c).core.pools
            && Scan(c).core.pools[m.serial] == c.pools[m.serial] && !c.pools[m.serial].dirty
            && OfferIndex(c.pools[m.serial].messages, c.auto) >= 0
            && m == c.pools[m.serial].messages[OfferIndex(c.pools[m.serial].messages, c.auto)]
  {
    ScanPicks(c);
    ScanKeeps(c);
  }

  lemma OfferFor(s: Serial, p: Pool, auto: bool)
    requires PoolInv(s, p) && Deliverable(p, auto)
    ensures Offer(p.messages, auto).serial == s
  {}

  lemma SortedNoDup(a: seq<Serial>, b: seq<Serial>)
    requires multiset(a) == multiset(b) && NoDup(a)
    ensures NoDup(b)
    ensures forall s :: s in a <==> s in b
  {
    forall s ensures s in a <==> s in b { assert s in multiset(a) <==> s in multiset(b); }
    forall i, j | 0 <= i < j < |b| ensures b[i] != b[j] {
      if b[i] == b[j] {
        CountTwice(b, i, j);
        NoDupCount(a, b[i]);
        assert false;
      }
    }
  }

  lemma CountTwice(b: seq<Serial>, i: nat, j: nat)
    requires i < j < |b| && b[i] == b[j]
    ensures multiset(b)[b[i]] >= 2
  {
    assert b == b[..i] + [b[i]] + b[i + 1..j] + [b[j]] + b[j + 1..];
  }

  lemma {:induction false} NoDupCount(a: seq<Serial>, s: Serial)
    requires NoDup(a)
    ensures multiset(a)[s] <= 1
  {
    if a != [] {
      NoDupCount(a[1..], s);
      assert a == [a[0]] + a[1..];
    }
  }
}
