/** The queue of one recipient (MpMsgPool): its value, what each operation does to the value,
    and the class that does it in place. */
module Pool {
  import opened Base
  import opened Payload

  datatype Pool = Pool(messages: seq<Msg>, weight: int, dirty: bool)

  /** What getMessage returns when manual mode finds nothing to offer. */
  const PLACEHOLDER: Msg := MakeMsg("", [], 0, 0, Message, false)

  /** setWeight takes an `int`: a wider argument is narrowed first, then negatives are cut to 0.
      One more than INT_MAX therefore becomes 0. */
  function ClampWeight(w: int): (r: int)
    ensures 0 <= r <= INT_MAX
    ensures 0 <= w <= INT_MAX ==> r == w
    ensures w == INT_MAX + 1 ==> r == 0
  {
    var n := NarrowToInt(w);
    if n < 0 then 0 else n
  }

  /** Index of the first message with the UID, -1 when there is none. */
  function IndexOf(ms: seq<Msg>, uid: int): (r: int)
    ensures -1 <= r < |ms|
    ensures r >= 0 ==> ms[r].uid == uid
    ensures forall i :: 0 <= i < |ms| && (r == -1 || i < r) ==> ms[i].uid != uid
  {
    if ms == [] then -1
    else if ms[0].uid == uid then 0
    else var r := IndexOf(ms[1..], uid); if r == -1 then -1 else r + 1
  }

  function RemoveUid(ms: seq<Msg>, uid: int): seq<Msg> {
    var i := IndexOf(ms, uid);
    if i == -1 then ms else ms[..i] + ms[i + 1..]
  }

  function MarkUid(ms: seq<Msg>, uid: int, processed: bool): (r: seq<Msg>)
    ensures |r| == |ms|
  {
    var i := IndexOf(ms, uid);
    if i == -1 then ms else ms[i := ms[i].(processed := processed)]
  }

  function MarkAll(ms: seq<Msg>, processed: bool): (r: seq<Msg>)
    ensures |r| == |ms|
  {
    seq(|ms|, i requires 0 <= i < |ms| => ms[i].(processed := processed))
  }

  /** Which message is offered next: the head in auto mode; in manual mode the first that is an
      invitation of some kind or not processed yet; -1 when there is none. */
  function OfferIndex(ms: seq<Msg>, auto: bool): (r: int)
    ensures -1 <= r < |ms|
    ensures auto ==> (r == -1 <==> ms == []) && r <= 0
    ensures !auto && r >= 0 ==> ms[r].kind != Message || !ms[r].processed
    ensures !auto ==> forall i :: 0 <= i < |ms| && (r == -1 || i < r) ==> ms[i].kind == Message && ms[i].processed
  {
    if ms == [] then -1
    else if auto || ms[0].kind != Message || !ms[0].processed then 0
    else var r := OfferIndex(ms[1..], auto); if r == -1 then -1 else r + 1
  }

  function Offer(ms: seq<Msg>, auto: bool): Msg {
    var i := OfferIndex(ms, auto);
    if i == -1 then PLACEHOLDER else ms[i]
  }

  /** A pool the scan hands over from. */
  predicate Deliverable(p: Pool, auto: bool) {
    !p.dirty && p.messages != [] && Offer(p.messages, auto).retries > 0
  }

  /** markUserPoolProcessed: nothing happens at weight INT_MAX. */
  function MarkProcessed(p: Pool): Pool {
    if p.messages == [] || p.weight == INT_MAX then p
    else p.(messages := MarkAll(p.messages, true), weight := INT_MAX)
  }

  /** markUserPoolAsClean: the messages are offered again only in auto mode. */
  function MarkClean(p: Pool, auto: bool): Pool {
    p.(messages := if auto then MarkAll(p.messages, false) else p.messages, weight := 0, dirty := false)
  }

  // Identity of the queue ----------------------------------------------------------------

  /** The queue without the fields the engine changes. */
  function Bares(ms: seq<Msg>): (r: seq<Msg>)
    ensures |r| == |ms|
    ensures forall i :: 0 <= i < |ms| ==> r[i] == Bare(ms[i])
  {
    seq(|ms|, i requires 0 <= i < |ms| => Bare(ms[i]))
  }

  /** Marking never touches the identity or the order of messages. */
  lemma MarksKeepBares(ms: seq<Msg>, uid: int, processed: bool)
    ensures Bares(MarkUid(ms, uid, processed)) == Bares(ms)
    ensures Bares(MarkAll(ms, processed)) == Bares(ms)
  {}

  lemma BaresAppend(a: seq<Msg>, b: seq<Msg>)
    ensures Bares(a + b) == Bares(a) + Bares(b)
  {}

  lemma BaresRemove(ms: seq<Msg>, uid: int)
    requires IndexOf(ms, uid) >= 0
    ensures var i := IndexOf(ms, uid); Bares(RemoveUid(ms, uid)) == Bares(ms)[..i] + Bares(ms)[i + 1..]
  {}

  /** The index depends only on the UIDs, so it survives marking and appending. */
  lemma {:induction false} IndexOfStable(a: seq<Msg>, b: seq<Msg>, uid: int)
    requires |a| <= |b| && forall i :: 0 <= i < |a| ==> a[i].uid == b[i].uid
    requires IndexOf(a, uid) >= 0
    ensures IndexOf(b, uid) == IndexOf(a, uid)
  {
    var i := IndexOf(a, uid);
    assert b[i].uid == uid;
  }

  lemma MarkUidIndex(ms: seq<Msg>, uid: int, processed: bool, u: int)
    ensures IndexOf(MarkUid(ms, uid, processed), u) == IndexOf(ms, u)
  {
    var a := MarkUid(ms, uid, processed);
    if IndexOf(ms, u) >= 0 { IndexOfStable(ms, a, u); }
    else if IndexOf(a, u) >= 0 { IndexOfStable(a, ms, u); }
  }

  // The class --------------------------------------------------------------------------------

  class MsgPool {
    var messages: seq<Msg>
    var weight: int
    var dirty: bool

    function Value(): Pool
      reads this
    {
      Pool(messages, weight, dirty)
    }

    constructor (message: Msg)
      ensures Value() == Pool([message], 1, false)
    {
      messages, weight, dirty := [message], 1, false;
    }

    method SetWeight(w: int)
      modifies this
      ensures Value() == old(Value()).(weight := ClampWeight(w))
    {
      var narrow := NarrowToInt(w);
      weight := if narrow < 0 then 0 else narrow;
    }

    method AddMessage(message: Msg)
      modifies this
      ensures Value() == old(Value()).(messages := old(messages) + [message])
    {
      messages := messages + [message];
    }

    method GetMessage(auto: bool) returns (m: Msg)
      requires auto ==> messages != []
      ensures m == Offer(messages, auto)
    {
      if auto { return messages[0]; }
      for i := 0 to |messages|
        invariant OfferIndex(messages, false) == -1 || OfferIndex(messages, false) >= i
      {
        if messages[i].kind != Message || !messages[i].processed { return messages[i]; }
      }
      m := PLACEHOLDER;
    }

    method GetIndexForUID(uid: int) returns (index: int)
      ensures index == IndexOf(messages, uid)
    {
      for i := 0 to |messages|
        invariant forall j :: 0 <= j < i ==> messages[j].uid != uid
      {
        if messages[i].uid == uid { return i; }
      }
      index := -1;
    }

    method RmMessage(uid: int)
      modifies this
      ensures Value() == old(Value()).(messages := RemoveUid(old(messages), uid))
    {
      for i := 0 to |messages|
        invariant Value() == old(Value())
        invariant forall j :: 0 <= j < i ==> messages[j].uid != uid
      {
        if messages[i].uid == uid {
          assert IndexOf(messages, uid) == i;
          messages := messages[..i] + messages[i + 1..];
          return;
        }
      }
    }

    method MarkMsg(uid: int, processed: bool)
      modifies this
      ensures Value() == old(Value()).(messages := MarkUid(old(messages), uid, processed))
    {
      var index := GetIndexForUID(uid);
      if index == -1 { return; }
      messages := messages[index := messages[index].(processed := processed)];
    }

    /** The flag loops of markUserPoolProcessed and markUserPoolAsClean. */
    method MarkEach(processed: bool)
      modifies this
      ensures Value() == old(Value()).(messages := MarkAll(old(messages), processed))
    {
      for i := 0 to |messages|
        invariant weight == old(weight) && dirty == old(dirty) && |messages| == |old(messages)|
        invariant forall j :: 0 <= j < i ==> messages[j] == old(messages)[j].(processed := processed)
        invariant messages[i..] == old(messages)[i..]
      {
        messages := messages[i := messages[i].(processed := processed)];
      }
    }
  }
}
