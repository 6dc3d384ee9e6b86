/** The engine itself (MpAutoResendEngine): each method does in place what EngineSpec says. */
module Engine {
  import opened Base
  import opened Payload
  import opened Pool
  import opened Transport
  import opened Sorting
  import opened EngineSpec

  class AutoResendEngine {
    var userPool: map<Serial, MsgPool>
    var priority: seq<Serial>
    var started: bool
    var autoResend: bool
    const transport: MsgTransport

    ghost function Pools(): map<Serial, Pool>
      reads this`userPool, userPool.Values
    {
      map s | s in userPool :: userPool[s].Value()
    }

    ghost function View(): Core
      reads this`userPool, this`priority, this`autoResend, userPool.Values
    {
      Core(Pools(), priority, autoResend)
    }

    ghost function State(): State
      reads this, userPool.Values, transport
    {
      EngineSpec.State(View(), started, transport.Value(), transport.wire)
    }

    ghost predicate Separate()
      reads this`userPool
    {
      forall s, t :: s in userPool && t in userPool && s != t ==> userPool[s] != userPool[t]
    }

    ghost predicate Valid()
      reads this`userPool, this`priority, this`autoResend, userPool.Values
    {
      Separate() && RepInv(View())
    }

    constructor (transport: MsgTransport)
      ensures Valid() && View() == Core(map[], [], false) && !started
      ensures this.transport == transport
    {
      userPool, priority, started, autoResend := map[], [], false, false;
      this.transport := transport;
      new;
      assert Pools() == map[];
    }

    method MarkUserPoolProcessed(pool: MsgPool)
      modifies pool
      ensures pool.Value() == MarkProcessed(old(pool.Value()))
    {
      if |pool.messages| == 0 || pool.weight == INT_MAX { return; }
      pool.MarkEach(true);
      pool.SetWeight(INT_MAX);
    }

    method MarkUserPoolAsClean(pool: MsgPool)
      modifies pool
      ensures pool.Value() == MarkClean(old(pool.Value()), autoResend)
    {
      pool.SetWeight(0);
      pool.dirty := false;
      if !autoResend { return; }
      pool.MarkEach(false);
    }

    method AddMessageInternal(m: Msg)
      requires Separate()
      modifies this`userPool, this`priority, userPool.Values
      ensures Separate() && fresh(userPool.Values - old(userPool.Values))
      ensures View() == AddInternal(old(View()), m)
    {
      var s := m.serial;
      if s in userPool {
        userPool[s].AddMessage(m);
      } else {
        var pool := new MsgPool(m);
        userPool := userPool[s := pool];
        priority := priority + [s];
      }
      MarkUserPoolAsClean(userPool[s]);
      assert Pools() == AddInternal(old(View()), m).pools;
    }

    method AddMessage(m: Msg, stackUp: bool)
      requires Valid()
      modifies this, userPool.Values, transport
      ensures Valid() && fresh(userPool.Values - old(userPool.Values))
      ensures State() == StartIf(old(State()).(core := AddInternal(old(View()), m)), stackUp)
    {
      AddRepInv(View(), m);
      AddMessageInternal(m);
      StartEngine(stackUp);
    }

    /** Each connector's stored messages, in order; the engine is not started. The lock over the connectors that
        is held throughout is the subject of `Locks`. */
    method SyncWithDBConnectors(connectors: seq<seq<Msg>>)
      requires Separate()
      modifies this`userPool, this`priority, userPool.Values
      ensures Separate() && fresh(userPool.Values - old(userPool.Values))
      ensures View() == AddEach(old(View()), Flatten(connectors))
    {
      for i := 0 to |connectors|
        invariant Separate() && fresh(userPool.Values - old(userPool.Values))
        invariant AddEach(View(), Flatten(connectors[i..])) == AddEach(old(View()), Flatten(connectors))
      {
        assert connectors[i..][1..] == connectors[i + 1..];
        AddEachAppend(View(), connectors[i], Flatten(connectors[i + 1..]));
        SyncWithConnector(connectors[i]);
      }
    }

    method SyncWithConnector(messages: seq<Msg>)
      requires Separate()
      modifies this`userPool, this`priority, userPool.Values
      ensures Separate() && fresh(userPool.Values - old(userPool.Values))
      ensures View() == AddEach(old(View()), messages)
    {
      for i := 0 to |messages|
        invariant Separate() && fresh(userPool.Values - old(userPool.Values))
        invariant AddEach(View(), messages[i..]) == AddEach(old(View()), messages)
      {
        assert messages[i..] == [messages[i]] + messages[i + 1..];
        AddMessageInternal(messages[i]);
      }
    }

    /** What every step of the sort keeps: the same serials, equal weights in the same order. */
    ghost predicate Sorting(p0: seq<Serial>, w: Serial -> int)
      reads this`priority
    {
      |priority| == |p0| && (forall s :: s in priority ==> s in p0)
          && forall k :: Level(priority, w, k) == Level(p0, w, k)
    }

    /** One exchange of the bubble sort. */
    method SwapAt(i: nat, ghost p0: seq<Serial>, ghost w: Serial -> int)
      requires i + 1 < |priority| && Sorting(p0, w) && w(priority[i]) > w(priority[i + 1])
      modifies this`priority
      ensures priority == SwapNext(old(priority), i) && Sorting(p0, w)
      ensures Inversions(priority, w) == Inversions(old(priority), w) - 1
    {
      SwapInversions(priority, i, w);
      forall k ensures Level(SwapNext(priority, i), w, k) == Level(p0, w, k) {
        SwapLevel(priority, i, w, k);
      }
      var tmp := priority[i];
      priority := priority[i := priority[i + 1]];
      priority := priority[i + 1 := tmp];
    }

    ghost predicate AscendingTo(n: int, w: Serial -> int)
      reads this`priority
    {
      forall j :: 0 <= j < n && j + 1 < |priority| ==> w(priority[j]) <= w(priority[j + 1])
    }

    /** One pass of the bubble sort: it swaps nothing, or it lowers the inversion count. */
    method SortPass(ghost p0: seq<Serial>, ghost w: Serial -> int) returns (swapped: bool)
      requires priority != [] && Sorting(p0, w)
      requires forall s :: s in p0 ==> s in userPool && w(s) == userPool[s].weight
      modifies this`priority
      ensures Sorting(p0, w)
      ensures if swapped then Inversions(priority, w) < Inversions(old(priority), w) else AscendingTo(|priority|, w)
    {
      ghost var before := Inversions(priority, w);
      swapped := false;
      var i := 0;
      while i < |priority| - 1
        invariant 0 <= i < |priority| && Sorting(p0, w)
        invariant if swapped then Inversions(priority, w) < before
                  else Inversions(priority, w) == before && AscendingTo(i, w)
      {
        if userPool[priority[i]].weight > userPool[priority[i + 1]].weight {
          SwapAt(i, p0, w);
          swapped := true;
        }
        i := i + 1;
      }
    }

    /** Bubble sort of the priorities by weight. */
    method SortMessages()
      requires forall s :: s in priority ==> s in userPool
      modifies this`priority
      ensures priority == StableSort(old(priority), WeightIn(Pools()))
    {
      if priority == [] { return; }
      ghost var w := WeightIn(Pools());
      ghost var p0 := priority;
      var swapped := true;
      while swapped
        invariant Sorting(p0, w)
        invariant !swapped ==> AscendingTo(|priority|, w)
        decreases swapped, Inversions(priority, w)
      {
        swapped := SortPass(p0, w);
      }
      AdjacentAscending(priority, w);
      StableSortFacts(p0, w);
      SortUnique(priority, StableSort(p0, w), w);
    }

    /** The selection loop over the sorted priorities. */
    method HandOver() returns (handed: bool)
      requires Separate()
      modifies userPool.Values, transport
      ensures var (pools, next) := ScanFrom(old(Pools()), priority, autoResend, 0);
              && Pools() == pools && handed == next.Some?
              && match next
                 case Some(m) => transport.Value() == Accept(m)
                     && transport.wire == old(transport.wire) + SentOnAccept(m)
                 case None => transport.Value() == old(transport.Value()) && transport.wire == old(transport.wire)
    {
      for i := 0 to |priority|
        invariant ScanFrom(Pools(), priority, autoResend, i) == ScanFrom(old(Pools()), priority, autoResend, 0)
        invariant transport.Value() == old(transport.Value()) && transport.wire == old(transport.wire)
      {
        if priority[i] !in userPool { continue; }
        var pool := userPool[priority[i]];
        if |pool.messages| == 0 { continue; }
        if !pool.dirty {
          var message := pool.GetMessage(autoResend);
          if message.retries <= 0 { continue; }
          transport.SendMessage(message);
          return true;
        } else {
          MarkAt(priority[i]);
        }
      }
      handed := false;
    }

    method MarkAt(s: Serial)
      requires Separate() && s in userPool
      modifies userPool[s]
      ensures Pools() == old(Pools())[s := MarkProcessed(old(Pools())[s])]
    {
      MarkUserPoolProcessed(userPool[s]);
    }

    method SendMessage()
      requires Separate() && Listed(View())
      modifies this`priority, this`started, userPool.Values, transport
      ensures Separate() && State() == SendNext(old(State()))
    {
      ghost var c := View();
      SortMessages();
      assert Pools() == c.pools && autoResend == c.auto;
      var handed := HandOver();
      assert View() == Scan(c).core && handed == Scan(c).next.Some?;
      assert State() == SendNext(old(State())).(started := old(started));
      if !handed { started := false; }
    }

    method MessageStatus(m: Msg, status: Status)
      requires Valid()
      modifies this, userPool.Values, transport
      ensures Valid() && userPool.Values <= old(userPool.Values)
      ensures State() == SendNext(old(State()).(core := StatusUpdate(old(View()), m, status)))
    {
      ReportRepInv(View(), m, status);
      UpdatePool(m, status);
      SendMessage();
    }

    method ErasePriority(s: Serial)
      modifies this`priority
      ensures priority == RemoveFirst(old(priority), s)
    {
      var i := 0;
      while i < |priority| && priority[i] != s
        invariant 0 <= i <= |priority| && s !in priority[..i]
      {
        i := i + 1;
      }
      RemoveFirstAt(priority, s, i);
      if i < |priority| { priority := priority[..i] + priority[i + 1..]; }
    }

    method UpdatePool(m: Msg, status: Status)
      requires Separate()
      modifies this`userPool, this`priority, userPool.Values
      ensures Separate() && userPool.Values <= old(userPool.Values)
      ensures View() == StatusUpdate(old(View()), m, status)
    {
      var s := m.serial;
      if s in userPool {
        if status == Sent { ConfirmIn(s, m.uid); } else { RefuseIn(s, m.uid); }
      }
    }

    /** The branch of a message that was not sent. */
    method RefuseIn(s: Serial, uid: int)
      requires Separate() && s in userPool
      modifies userPool[s]
      ensures Pools() == old(Pools())[s := Refused(old(Pools()[s]), uid)]
    {
      var pool := userPool[s];
      pool.MarkMsg(uid, true);
      pool.dirty := true;
      MarkUserPoolProcessed(pool);
    }

    /** The branch of a message that was sent. */
    method ConfirmIn(s: Serial, uid: int)
      requires Separate() && s in userPool
      modifies this`userPool, this`priority, userPool.Values
      ensures Separate() && userPool.Values <= old(userPool.Values)
      ensures var p := old(Pools()[s]);
              var rest := Confirmed(p.messages, uid);
              if rest == [] then Pools() == old(Pools()) - {s} && priority == RemoveFirst(old(priority), s)
              else
                && Pools() == old(Pools())[s := p.(messages := rest, weight := ClampWeight(p.weight + 1))]
                && priority == old(priority)
    {
      var pool := userPool[s];
      pool.MarkMsg(uid, true);
      pool.RmMessage(uid);
      if |pool.messages| == 0 {
        ErasePriority(s);
        userPool := userPool - {s};
        assert Pools() == old(Pools()) - {s};
      } else {
        pool.SetWeight(pool.weight + 1);
        assert Pools() == old(Pools())[s := pool.Value()];
      }
    }

    method StartEngine(stackUp: bool)
      requires Valid()
      modifies this`priority, this`started, userPool.Values, transport
      ensures Valid() && State() == StartIf(old(State()), stackUp)
    {
      if !stackUp { return; }
      if !started {
        started := true;
        ScanRepInv(View());
        SendMessage();
      }
    }

    method BuddyState(s: Serial, online: bool, stackUp: bool)
      requires Valid()
      modifies this, userPool.Values, transport
      ensures Valid() && userPool.Values <= old(userPool.Values)
      ensures State() == if s in old(userPool) && online
                         then StartIf(old(State()).(core := Online(old(View()), s)), stackUp) else old(State())
    {
      if s !in userPool { return; }
      if online {
        OnlineRepInv(View(), s);
        MarkUserPoolAsClean(userPool[s]);
        assert Pools() == Online(old(View()), s).pools;
        StartEngine(stackUp);
      }
    }

    method SetAutoResendEnabled(enabled: bool, stackUp: bool)
      requires Valid()
      modifies this, userPool.Values, transport
      ensures Valid() && userPool.Values <= old(userPool.Values)
      ensures var st := old(State()).(core := old(View()).(auto := enabled));
              State() == if enabled && !old(autoResend) then StartIf(st, stackUp) else st
    {
      var startEng := !autoResend && enabled;
      autoResend := enabled;
      assert View() == old(View()).(auto := enabled);
      if startEng { StartEngine(stackUp); }
    }

    /** Weight 0 for `s`, one more for everyone else. */
    method Prioritize(s: Serial)
      requires Separate()
      modifies userPool.Values
      ensures Pools() == Shift(old(Pools()), s)
    {
      var rest := userPool.Keys;
      while rest != {}
        invariant rest <= userPool.Keys
        invariant forall t :: t in userPool ==>
                    userPool[t].Value() == if t in rest then old(userPool[t].Value())
                        else Shifted(t, s, old(userPool[t].Value()))
        decreases rest
      {
        var t :| t in rest;
        if t == s { userPool[t].SetWeight(0); } else { userPool[t].SetWeight(userPool[t].weight + 1); }
        rest := rest - {t};
      }
    }

    /** The locked region of resendMessage. */
    method RaiseMessage(s: Serial, uid: int) returns (found: bool)
      requires Separate()
      modifies userPool.Values
      ensures found == CanResend(old(View()), s, uid)
      ensures View() == if found then Resend(old(View()), s, uid) else old(View())
    {
      var index := -1;
      if s in userPool { index := userPool[s].GetIndexForUID(uid); }
      if index == -1 { return false; }
      userPool[s].MarkMsg(uid, false);
      userPool[s].dirty := false;
      assert Pools() == old(Pools())[s := userPool[s].Value()];
      Prioritize(s);
      found := true;
    }

    method ResendMessage(s: Serial, uid: int, stackUp: bool) returns (found: bool)
      requires Valid()
      modifies this, userPool.Values, transport
      ensures Valid() && userPool.Values <= old(userPool.Values)
      ensures found == CanResend(old(View()), s, uid)
      ensures State() == if found then StartIf(old(State()).(core := Resend(old(View()), s, uid)), stackUp) else old(State())
    {
      found := RaiseMessage(s, uid);
      if found {
        ResendRepInv(old(View()), s, uid);
        StartEngine(stackUp);
      }
    }

    /** Erases the pool and cancels the message in flight, but leaves `priority` and `started`. */
    method RemoveMessagesForSerial(s: Serial)
      requires Valid()
      modifies this`userPool, transport
      ensures Separate() && View() == RemoveSerial(old(View()), s)
      ensures transport.Value() == Forget(old(transport.Value()), s) && transport.wire == old(transport.wire)
    {
      transport.RemoveMessageForSerial(s);
      if s in userPool { userPool := userPool - {s}; }
      assert Pools() == old(Pools()) - {s};
    }

    /** A SIP completion: the transport's report, when there is one, reaches the engine. */
    method OnSendMsgDone(status: Status)
      requires Valid()
      modifies this, userPool.Values, transport
      ensures Valid() && userPool.Values <= old(userPool.Values)
      ensures State() == Complete(old(State()), status)
    {
      var outcome := transport.OnSendMsgDone(status);
      assert View() == old(View());
      if outcome.Reported? {
        assert transport.wire == old(transport.wire);
        MessageStatus(outcome.msg, status);
      }
    }
  }
}
