/**
 The connection of internal/app/server/ws/client.go: a channel of 256 frames drained by writeLoop.
 Nothing is claimed about sends after Close.
 */
module Client {
  import opened Common

  const CAPACITY := 256

  datatype Frame =
    | ChatMessage(conv: Uuid, sender: Uuid, seqNo: nat, text: string, createdAt: Time)
    | ServerReceived(clientMsgId: string)
    | Persisted(clientMsgId: string, seqNo: nat)

  function Smaller(m: nat, n: nat): (r: nat)
    ensures r <= m && r <= n && (r == m || r == n)
  {
    if m <= n then m else n
  }

  /** How many turns pass before the first one that stops. */
  function FirstStop(stop: seq<bool>): (k: nat)
    ensures k <= |stop| && (forall t | 0 <= t < k :: !stop[t]) && (k < |stop| ==> stop[k])
  {
    if stop == [] || stop[0] then 0 else FirstStop(stop[1..]) + 1
  }

  class RuntimeClient {
    const senderID: Uuid
    const convID: Uuid
    /** The buffered channel. */
    var out: seq<Frame>
    /** Frames handed to WebSocket.WriteMessage, in order. */
    var socket: seq<Frame>
    /** The context is done. */
    var done: bool
    /** Every frame Send has put on the channel. */
    ghost var accepted: seq<Frame>

    /** What reached the socket is a prefix of what was accepted, with at most 256 frames waiting. */
    ghost predicate Valid()
      reads this
    {
      |out| <= CAPACITY && accepted == socket + out
    }

    constructor (senderID: Uuid, convID: Uuid)
      ensures Valid() && accepted == [] && socket == [] && !done
      ensures this.senderID == senderID && this.convID == convID
    {
      this.senderID, this.convID := senderID, convID;
      out, socket, done, accepted := [], [], false, [];
    }

    /** One turn of writeLoop that finds a frame on the channel. */
    method WriteOne()
      requires Valid() && out != []
      modifies this`out, this`socket
      ensures Valid() && socket == old(socket) + [old(out)[0]] && out == old(out)[1..]
    {
      socket, out := socket + [out[0]], out[1..];
    }

    /**
     writeLoop given a number of turns. In each turn the select may see the context (when it is done)
     or the next frame; with both ready either may be taken, as stop says for that turn. Every turn that
     finds a frame writes it; a done client goes on until the first turn that stops.
     */
    method WriteLoop(turns: nat, stop: seq<bool>)
      requires Valid() && |stop| == turns
      modifies this`out, this`socket
      ensures Valid()
      ensures var k := Smaller(|old(out)|, if done then FirstStop(stop) else turns);
        socket == old(socket) + old(out)[..k] && out == old(out)[k..]
    {
      ghost var end := if done then FirstStop(stop) else turns;
      for t := 0 to turns
        invariant Valid() && t <= end
        invariant var k := Smaller(|old(out)|, t);
          socket == old(socket) + old(out)[..k] && out == old(out)[k..]
      {
        if done && (stop[t] || out == []) { return; }
        if out != [] { WriteOne(); }
      }
    }

    /**
     Send on an open connection waits while the channel is full, which lets writeLoop write one frame. On a
     done context the select takes either branch; a full channel then leaves only the error.
     */
    method Send(data: Frame, takeDone: bool) returns (ok: bool)
      requires Valid()
      modifies this`out, this`socket, this`accepted
      ensures Valid()
      ensures accepted == if ok then old(accepted) + [data] else old(accepted)
      ensures socket == if ok && |old(out)| == 256 then old(socket) + [old(out)[0]] else old(socket)
      ensures !done ==> ok
      ensures done ==> (ok <==> !takeDone && |old(out)| < 256)
    {
      if done && (takeDone || |out| == CAPACITY) { return false; }
      if |out| == CAPACITY { WriteOne(); }
      out := out + [data];
      accepted := accepted + [data];
      return true;
    }

    /** The context is cancelled; whatever is on the channel may never be written. */
    method Cancel()
      modifies this`done
      ensures done
    {
      done := true;
    }
  }
}
