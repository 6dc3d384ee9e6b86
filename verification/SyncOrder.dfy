/** What syncWithDBConnectors adds, and where. */
module SyncOrder {
  import opened Base
  import opened Payload
  import opened EngineSpec
  import opened World
  import opened Conservation

  /** A position among the stored messages: connector, then message. */
  datatype Place = Place(i: nat, j: nat)

  predicate Earlier(p: Place, q: Place) { p.i < q.i || (p.i == q.i && p.j < q.j) }

  predicate Stored(mss: seq<seq<Msg>>, p: Place) { p.i < |mss| && p.j < |mss[p.i]| }

  function MsgAt(mss: seq<seq<Msg>>, p: Place): Msg
    requires Stored(mss, p)
  {
    mss[p.i][p.j]
  }

  ghost predicate Rising(ps: seq<Place>) { forall k, l :: 0 <= k < l < |ps| ==> Earlier(ps[k], ps[l]) }

  /** `ps` lists the places, from those in front, in rising order. */
  ghost predicate Lists(mss: seq<seq<Msg>>, ps: seq<Place>) {
    && (forall k :: 0 <= k < |ps| ==> Stored(mss, ps[k]))
    && Rising(ps)
    && forall p :: Stored(mss, p) ==> p in ps
  }

  // The messages of all connectors ---------------------------------------------------------------

  lemma {:induction false} FlattenSnoc(mss: seq<seq<Msg>>, ms: seq<Msg>)
    ensures Flatten(mss + [ms]) == Flatten(mss) + ms
  {
    if mss == [] {
      assert mss + [ms] == [ms] && [ms][1..] == [] && [ms][0] == ms;
      assert Flatten([ms]) == ms + Flatten([]) == ms;
    } else {
      FlattenSnoc(mss[1..], ms);
      assert (mss + [ms])[0] == mss[0] && (mss + [ms])[1..] == mss[1..] + [ms];
      assert mss[0] + (Flatten(mss[1..]) + ms) == (mss[0] + Flatten(mss[1..])) + ms;
    }
  }

  function Row(i: nat, n: nat): (ps: seq<Place>)
    ensures |ps| == n && forall j :: 0 <= j < n ==> ps[j] == Place(i, j)
  {
    seq(n, j requires 0 <= j < n => Place(i, j))
  }

  lemma RowAppends(mss: seq<seq<Msg>>, ms: seq<Msg>, ps: seq<Place>)
    requires Lists(mss, ps)
    ensures Lists(mss + [ms], ps + Row(|mss|, |ms|))
  {
    var all, qs := mss + [ms], ps + Row(|mss|, |ms|);
    forall k, l | 0 <= k < l < |qs| ensures Earlier(qs[k], qs[l]) {
      if k < |ps| <= l { assert Stored(mss, ps[k]); }
    }
    forall p | Stored(all, p) ensures p in qs {
      if p.i < |mss| { assert Stored(mss, p) && p in ps; } else { assert qs[|ps| + p.j] == p; }
    }
  }

  /** All places in order, and the message at each of them. */
  lemma {:induction false} Places(mss: seq<seq<Msg>>) returns (ps: seq<Place>)
    ensures Lists(mss, ps) && |ps| == |Flatten(mss)|
    ensures forall k :: 0 <= k < |ps| ==> Flatten(mss)[k] == MsgAt(mss, ps[k])
  {
    if mss == [] {
      ps := [];
    } else {
      var front, last := mss[..|mss| - 1], mss[|mss| - 1];
      var qs := Places(front);
      assert mss == front + [last];
      FlattenSnoc(front, last);
      RowAppends(front, last, qs);
      ps := qs + Row(|front|, |last|);
      forall k | 0 <= k < |ps| ensures Flatten(mss)[k] == MsgAt(mss, ps[k]) {
        if k < |qs| { assert Stored(front, qs[k]); }
      }
    }
  }

  // What one recipient gets ----------------------------------------------------------------------

  /** The messages at the places `ps`, as identities. */
  function Fetch(mss: seq<seq<Msg>>, ps: seq<Place>): (r: seq<Msg>)
    requires forall k :: 0 <= k < |ps| ==> Stored(mss, ps[k])
    ensures |r| == |ps| && forall k :: 0 <= k < |ps| ==> r[k] == Bare(MsgAt(mss, ps[k]))
  {
    seq(|ps|, k requires 0 <= k < |ps| => Bare(MsgAt(mss, ps[k])))
  }

  /** The places of the messages for `s`, out of `ps`, in order. */
  ghost predicate PlacesFor(mss: seq<seq<Msg>>, ps: seq<Place>, s: Serial, mine: seq<Place>) {
    && (forall k :: 0 <= k < |mine| ==> Stored(mss, mine[k]) && MsgAt(mss, mine[k]).serial == s && mine[k] in ps)
    && Rising(mine)
    && forall k :: 0 <= k < |ps| && Stored(mss, ps[k]) && MsgAt(mss, ps[k]).serial == s ==> ps[k] in mine
  }

  lemma {:induction false} AddEachSnoc(c: Core, ms: seq<Msg>, m: Msg)
    ensures AddEach(c, ms + [m]) == AddInternal(AddEach(c, ms), m)
  {
    AddEachAppend(c, ms, [m]);
    assert [m][1..] == [];
  }

  lemma {:induction false} AddsPlaces(c: Core, mss: seq<seq<Msg>>, ms: seq<Msg>, ps: seq<Place>, s: Serial)
    returns (mine: seq<Place>)
    requires Holds(mss, ms, ps) && Rising(ps)
    ensures PlacesFor(mss, ps, s, mine)
    ensures Queue(AddEach(c, ms), s) == Queue(c, s) + Fetch(mss, mine)
    decreases |ms|
  {
    if ms == [] {
      mine := [];
      assert Queue(c, s) + [] == Queue(c, s);
    } else {
      var n := |ms| - 1;
      var before := AddsPlaces(c, mss, ms[..n], ps[..n], s);
      mine := AddsLast(c, mss, ms, ps, s, before);
    }
  }

  /** The messages `ms` stand at the places `ps`. */
  ghost predicate Holds(mss: seq<seq<Msg>>, ms: seq<Msg>, ps: seq<Place>) {
    |ms| == |ps| && forall k :: 0 <= k < |ps| ==> Stored(mss, ps[k]) && ms[k] == MsgAt(mss, ps[k])
  }

  lemma AddsLast(c: Core, mss: seq<seq<Msg>>, ms: seq<Msg>, ps: seq<Place>, s: Serial, before: seq<Place>)
    returns (mine: seq<Place>)
    requires ms != [] && Holds(mss, ms, ps) && Rising(ps)
    requires PlacesFor(mss, ps[..|ms| - 1], s, before)
    requires Queue(AddEach(c, ms[..|ms| - 1]), s) == Queue(c, s) + Fetch(mss, before)
    ensures PlacesFor(mss, ps, s, mine)
    ensures Queue(AddEach(c, ms), s) == Queue(c, s) + Fetch(mss, mine)
  {
    var n := |ms| - 1;
    QueueSnoc(c, ms, s);
    if ms[n].serial == s {
      mine := before + [ps[n]];
      PlacesSnoc(mss, ps, s, before);
      FetchSnoc(mss, before, ps[n]);
      assert (Queue(c, s) + Fetch(mss, before)) + [Bare(ms[n])] == Queue(c, s) + (Fetch(mss, before) + [Bare(ms[n])]);
    } else {
      mine := before;
      PlacesSkip(mss, ps, s, before);
    }
  }

  lemma QueueSnoc(c: Core, ms: seq<Msg>, s: Serial)
    requires ms != []
    ensures var n := |ms| - 1;
            Queue(AddEach(c, ms), s) == Queue(AddEach(c, ms[..n]), s) + if ms[n].serial == s then [Bare(ms[n])] else []
  {
    var n := |ms| - 1;
    assert ms == ms[..n] + [ms[n]];
    AddEachSnoc(c, ms[..n], ms[n]);
    AddQueue(AddEach(c, ms[..n]), ms[n], s);
  }

  lemma PlacesSkip(mss: seq<seq<Msg>>, ps: seq<Place>, s: Serial, mine: seq<Place>)
    requires ps != [] && PlacesFor(mss, ps[..|ps| - 1], s, mine)
    requires Stored(mss, ps[|ps| - 1]) && MsgAt(mss, ps[|ps| - 1]).serial != s
    ensures PlacesFor(mss, ps, s, mine)
  {
    var front := ps[..|ps| - 1];
    forall k | 0 <= k < |mine| ensures mine[k] in ps { assert mine[k] in front; }
    forall k | 0 <= k < |ps| && Stored(mss, ps[k]) && MsgAt(mss, ps[k]).serial == s ensures ps[k] in mine {
      assert front[k] == ps[k];
    }
  }

  lemma FetchSnoc(mss: seq<seq<Msg>>, ps: seq<Place>, p: Place)
    requires Stored(mss, p) && forall k :: 0 <= k < |ps| ==> Stored(mss, ps[k])
    ensures Fetch(mss, ps + [p]) == Fetch(mss, ps) + [Bare(MsgAt(mss, p))]
  {}

  lemma PlacesSnoc(mss: seq<seq<Msg>>, ps: seq<Place>, s: Serial, before: seq<Place>)
    requires ps != [] && Rising(ps) && PlacesFor(mss, ps[..|ps| - 1], s, before)
    requires Stored(mss, ps[|ps| - 1]) && MsgAt(mss, ps[|ps| - 1]).serial == s
    ensures PlacesFor(mss, ps, s, before + [ps[|ps| - 1]])
  {
    var n := |ps| - 1;
    var mine := before + [ps[n]];
    forall k | 0 <= k < |before| ensures Earlier(mine[k], ps[n]) && mine[k] in ps {
      assert before[k] in ps[..n];
      var l :| 0 <= l < n && ps[..n][l] == before[k];
      assert ps[l] == before[k];
    }
    forall k | 0 <= k < |ps| && Stored(mss, ps[k]) && MsgAt(mss, ps[k]).serial == s ensures ps[k] in mine {
      if k < n { assert ps[k] == ps[..n][k] && ps[k] in before; } else { assert mine[|before|] == ps[n]; }
    }
  }

  /** A sync puts at the end of the queue of each recipient exactly the messages stored for it, by connector and
      then by their order in it, and nothing else. */
  lemma SyncAppends(c: Core, mss: seq<seq<Msg>>, s: Serial) returns (mine: seq<Place>)
    ensures forall p :: p in mine <==> Stored(mss, p) && MsgAt(mss, p).serial == s
    ensures Rising(mine)
    ensures Queue(AddEach(c, Flatten(mss)), s) == Queue(c, s) + Fetch(mss, mine)
  {
    var ps := Places(mss);
    mine := AddsPlaces(c, mss, Flatten(mss), ps, s);
    forall p | Stored(mss, p) && MsgAt(mss, p).serial == s ensures p in mine {
      var k :| 0 <= k < |ps| && ps[k] == p;
    }
  }

  // How many ---------------------------------------------------------------------------------------

  function LengthSum(mss: seq<seq<Msg>>): nat { if mss == [] then 0 else |mss[0]| + LengthSum(mss[1..]) }

  function QueuedOver(p: seq<Serial>, c: Core): nat { if p == [] then 0 else |Queue(c, p[0])| + QueuedOver(p[1..], c) }

  /** All messages queued. */
  function QueuedIn(c: Core): nat { QueuedOver(c.priority, c) }

  lemma {:induction false} QueuedSame(p: seq<Serial>, c: Core, d: Core)
    requires forall s :: s in p ==> |Queue(c, s)| == |Queue(d, s)|
    ensures QueuedOver(p, c) == QueuedOver(p, d)
  {
    if p != [] { QueuedSame(p[1..], c, d); }
  }

  lemma {:induction false} QueuedOneMore(p: seq<Serial>, c: Core, d: Core, s: Serial)
    requires NoDup(p) && s in p && |Queue(d, s)| == |Queue(c, s)| + 1
    requires forall t :: t in p && t != s ==> |Queue(c, t)| == |Queue(d, t)|
    ensures QueuedOver(p, d) == QueuedOver(p, c) + 1
  {
    if p[0] == s {
      assert p == [s] + p[1..];
      QueuedSame(p[1..], c, d);
    } else {
      QueuedOneMore(p[1..], c, d, s);
    }
  }

  lemma {:induction false} QueuedSnoc(p: seq<Serial>, s: Serial, c: Core)
    ensures QueuedOver(p + [s], c) == QueuedOver(p, c) + |Queue(c, s)|
  {
    if p == [] {
      assert p + [s] == [s] && [s][1..] == [];
      assert QueuedOver([s], c) == |Queue(c, s)| + QueuedOver([], c);
    } else {
      QueuedSnoc(p[1..], s, c);
      assert (p + [s])[1..] == p[1..] + [s];
    }
  }

  lemma AddCounts(c: Core, m: Msg)
    requires RepInv(c)
    ensures QueuedIn(AddInternal(c, m)) == QueuedIn(c) + 1
  {
    var d := AddInternal(c, m);
    forall s ensures |Queue(d, s)| == |Queue(c, s)| + if s == m.serial then 1 else 0 { AddQueue(c, m, s); }
    if m.serial in c.pools {
      QueuedOneMore(c.priority, c, d, m.serial);
    } else {
      QueuedSnoc(c.priority, m.serial, d);
      QueuedSame(c.priority, c, d);
    }
  }

  lemma {:induction false} AddEachCounts(c: Core, ms: seq<Msg>)
    requires RepInv(c)
    ensures RepInv(AddEach(c, ms)) && QueuedIn(AddEach(c, ms)) == QueuedIn(c) + |ms|
    decreases |ms|
  {
    if ms != [] {
      AddRepInv(c, ms[0]);
      AddCounts(c, ms[0]);
      AddEachCounts(AddInternal(c, ms[0]), ms[1..]);
    }
  }

  lemma {:induction false} FlattenLength(mss: seq<seq<Msg>>)
    ensures |Flatten(mss)| == LengthSum(mss)
  {
    if mss != [] { FlattenLength(mss[1..]); }
  }

  /** The number of messages queued grows by what the connectors hold. */
  lemma SyncCounts(c: Core, mss: seq<seq<Msg>>)
    requires RepInv(c)
    ensures RepInv(AddEach(c, Flatten(mss))) && QueuedIn(AddEach(c, Flatten(mss))) == QueuedIn(c) + LengthSum(mss)
  {
    AddEachCounts(c, Flatten(mss));
    FlattenLength(mss);
  }

  // The step relation ------------------------------------------------------------------------------

  /** A sync is a run of single additions without a start, one for each stored message in order. */
  lemma {:induction false} SyncIsRun(w: World, ms: seq<Msg>) returns (es: seq<Event>, v: World)
    ensures Runs(w, es, v) && v.core == AddEach(w.core, ms)
    ensures |es| == |ms| && forall k :: 0 <= k < |ms| ==> es[k] == Event.Sync(ms[k])
    ensures v.started == w.started && v.xfer == w.xfer && v.pending == w.pending && v.handed == w.handed
    decreases |ms|
  {
    if ms == [] {
      es, v := [], w;
    } else {
      var e := Event.Sync(ms[0]);
      var rest;
      rest, v := SyncIsRun(Next(w, e), ms[1..]);
      es := [e] + rest;
      assert es[1..] == rest;
    }
  }
}
