/** Messages as the resend engine queues them (MpMsgPayload). */
module Payload {
  import opened Base

  datatype Kind = Message | Invitation | InvitationDelete | InvitationResponse

  /** The value of a MpMsgPayload; `payload` already carries the transport type byte. */
  datatype Msg = Msg(serial: Serial, payload: seq<byte>, uid: int, retries: int, kind: Kind, processed: bool)

  /** The type byte tells only plain messages from all the others. */
  function TypeByte(k: Kind): byte { if k == Message then 0 else 1 }

  function Frame(k: Kind, content: seq<byte>): seq<byte> { [TypeByte(k)] + content }

  /** A packet is its content behind one byte, 0 for a plain message and 1 for an invitation of any kind. */
  lemma FramedContent(k: Kind, content: seq<byte>)
    ensures Unframe(Frame(k, content)) == Some(content) && |Frame(k, content)| == |content| + 1
    ensures Frame(k, content)[0] == 0 <==> k == Message
    ensures Frame(k, content)[0] == 1 <==> k == Invitation || k == InvitationDelete || k == InvitationResponse
  {}

  /** What the receiver works on: the bytes after the type byte. */
  function Unframe(packet: seq<byte>): Option<seq<byte>> {
    if packet == [] then None else Some(packet[1..])
  }

  /** A message built by the constructor. */
  function MakeMsg(serial: Serial, content: seq<byte>, uid: int, retries: int, kind: Kind, processed: bool): Msg {
    Msg(serial, Frame(kind, content), uid, retries, kind, processed)
  }

  /** Identity of a message through the engine: the engine only ever changes the other two fields. */
  function Bare(m: Msg): Msg { m.(retries := 0, processed := false) }

  class MsgPayload {
    var userSerial: Serial
    var payload: array<byte>
    var uid: int
    var numberOfRetries: int
    var messageType: Kind
    var processed: bool
    var xferStatus: int
    var accID: int

    function Value(): Msg
      reads this, payload
    {
      Msg(userSerial, payload[..], uid, numberOfRetries, messageType, processed)
    }

    constructor (userSerial: Serial, content: array<byte>, uid: int, numberOfRetries: int, accID: int,
                 messageType: Kind, processed: bool)
      ensures fresh(payload) && Value() ==
          MakeMsg(userSerial, content[..], uid, numberOfRetries, messageType, processed)
      ensures this.accID == accID && xferStatus == 0
    {
      this.userSerial := userSerial;
      this.messageType := messageType;
      this.uid := uid;
      this.numberOfRetries := numberOfRetries;
      this.processed := processed;
      this.accID, xferStatus := accID, 0;
      new;
      SetPayload(content);
    }

    /** Prepends the type byte; it reads `messageType`, which must be set before. */
    method SetPayload(content: array<byte>)
      modifies this`payload
      ensures fresh(payload)
      ensures Value() == old(Value()).(payload := Frame(old(messageType), old(content[..])))
    {
      var packet := new byte[content.Length + 1];
      packet[0] := TypeByte(messageType);
      for i := 0 to content.Length
        invariant packet[0] == TypeByte(messageType)
        invariant packet[1..i + 1] == content[..i]
      {
        packet[i + 1] := content[i];
      }
      assert packet[..] == [packet[0]] + packet[1..];
      payload := packet;
    }

    /** A copy takes the framed bytes as they are and shares no memory. */
    method CopyMsgPayload(other: MsgPayload)
      modifies this
      ensures fresh(payload)
      ensures Value() == old(other.Value())
      ensures xferStatus == old(other.xferStatus) && accID == old(other.accID)
    {
      var copy := new byte[other.payload.Length](i requires 0 <= i < other.payload.Length reads other,
          other.payload => other.payload[i]);
      userSerial, messageType, payload := other.userSerial, other.messageType, copy;
      uid, numberOfRetries, processed := other.uid, other.numberOfRetries, other.processed;
      xferStatus, accID := other.xferStatus, other.accID;
      assert payload[..] == old(other.payload[..]);
    }
  }
}
