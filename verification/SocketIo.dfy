/** Socket access as the relay sees it. The kernel's answers are a script fixed in advance but
    otherwise arbitrary, and once it runs out every call would block; so any finite behaviour of
    the environment is some script. */
module SocketIos {
  import opened Basics
  import opened DelayLines

  const ECONNRESET: int := 104
  const EPIPE: int := 32

  datatype RecvAnswer = Data(bytes: seq<byte>) | RecvWouldBlock | RecvClosed | RecvError(error: int)

  datatype SendAnswer = Accepts(count: nat) | SendWouldBlock | SendError(error: int)

  datatype IoResult = Transferred(bytes: nat) | WouldBlock | PeerClosed | Error(error: int)

  datatype Wire = Wire(receives: seq<RecvAnswer>, sends: seq<SendAnswer>, shutdowns: seq<bool>)

  function Rest<T>(s: seq<T>): seq<T> {
    if s == [] then s else s[1..]
  }

  /** Receiving into `len` bytes. A transfer of no bytes, as into an empty span, reads as the end
      of the stream. */
  function Receiving(answers: seq<RecvAnswer>, len: nat): (r: (IoResult, seq<byte>))
    ensures r.0.Transferred? ==> r.0.bytes == |r.1| && 0 < |r.1| <= len && answers != []
    ensures !r.0.Transferred? ==> r.1 == []
    ensures len == 0 ==> !r.0.Transferred?
  {
    if answers == [] then (WouldBlock, [])
    else
      match answers[0]
      case Data(bytes) =>
        var got := bytes[..Min(|bytes|, len)];
        if got == [] then (PeerClosed, []) else (Transferred(|got|), got)
      case RecvWouldBlock => (WouldBlock, [])
      case RecvClosed => (PeerClosed, [])
      case RecvError(error) => (Error(error), [])
  }

  /** Sending `len` bytes; accepting none of them reads as a broken pipe. */
  function Sending(answers: seq<SendAnswer>, len: nat): (r: IoResult)
    ensures r.Transferred? ==> 0 < r.bytes <= len && answers != []
    ensures !r.PeerClosed?
  {
    if answers == [] then WouldBlock
    else
      match answers[0]
      case Accepts(count) => if Min(count, len) == 0 then Error(EPIPE) else Transferred(Min(count, len))
      case SendWouldBlock => WouldBlock
      case SendError(error) => Error(error)
  }

  function ShuttingDown(answers: seq<bool>): bool {
    answers == [] || answers[0]
  }

  /** The two sockets of one connection, with a record of everything that crossed them. */
  class SocketIo {
    var wire: Wire
    var arrived: Pair<seq<byte>>
    var departed: Pair<seq<byte>>
    ghost var arrivedAt: Pair<seq<Time>>
    ghost var departedAt: Pair<seq<Time>>
    // Bytes each side had been sent at each successful shutdown of its write direction.
    ghost var shuts: Pair<seq<nat>>

    constructor (wire: Wire)
      ensures this.wire == wire
      ensures arrived == departed == Pair([], []) && arrivedAt == departedAt == Pair([], []) && shuts == Pair([], [])
    {
      this.wire := wire;
      arrived, departed := Pair([], []), Pair([], []);
      arrivedAt, departedAt, shuts := Pair([], []), Pair([], []), Pair([], []);
    }

    method Receive(side: Side, buffer: array<byte>, start: nat, len: nat, ghost now: Time) returns (result: IoResult)
      requires start + len <= buffer.Length
      modifies this, buffer
      ensures var (expected, data) := Receiving(old(wire.receives), len);
        && result == expected
        && |data| <= len
        && buffer[..][start..start + |data|] == data
        && arrived == old(arrived).Put(side, old(arrived).At(side) + data)
        && arrivedAt == old(arrivedAt).Put(side, old(arrivedAt).At(side) + Repeat(now, |data|))
      ensures forall k :: 0 <= k < buffer.Length && !(start <= k < start + len) ==> buffer[k] == old(buffer[k])
      ensures wire == old(wire).(receives := Rest(old(wire.receives)))
      ensures departed == old(departed) && departedAt == old(departedAt) && shuts == old(shuts)
    {
      var (expected, data) := Receiving(wire.receives, len);
      result := expected;
      for k := 0 to |data|
        invariant forall m :: 0 <= m < k ==> buffer[start + m] == data[m]
        invariant forall m :: 0 <= m < buffer.Length && !(start <= m < start + len) ==> buffer[m] == old(buffer[m])
        invariant wire == old(wire) && arrived == old(arrived) && arrivedAt == old(arrivedAt)
        invariant departed == old(departed) && departedAt == old(departedAt) && shuts == old(shuts)
      {
        buffer[start + k] := data[k];
      }
      wire := wire.(receives := Rest(wire.receives));
      arrived := arrived.Put(side, arrived.At(side) + data);
      arrivedAt := arrivedAt.Put(side, arrivedAt.At(side) + Repeat(now, |data|));
    }

    method Send(side: Side, buffer: array<byte>, start: nat, len: nat, ghost now: Time) returns (result: IoResult)
      requires start + len <= buffer.Length
      modifies this
      ensures result == Sending(old(wire.sends), len)
      ensures var n := if result.Transferred? then result.bytes else 0;
        && departed == old(departed).Put(side, old(departed).At(side) + buffer[start..start + n])
        && departedAt == old(departedAt).Put(side, old(departedAt).At(side) + Repeat(now, n))
      ensures wire == old(wire).(sends := Rest(old(wire.sends)))
      ensures arrived == old(arrived) && arrivedAt == old(arrivedAt) && shuts == old(shuts)
    {
      result := Sending(wire.sends, len);
      var n := if result.Transferred? then result.bytes else 0;
      wire := wire.(sends := Rest(wire.sends));
      departed := departed.Put(side, departed.At(side) + buffer[start..start + n]);
      departedAt := departedAt.Put(side, departedAt.At(side) + Repeat(now, n));
    }

    method ShutdownWrite(side: Side) returns (ok: bool)
      modifies this
      ensures ok == ShuttingDown(old(wire.shutdowns))
      ensures wire == old(wire).(shutdowns := Rest(old(wire.shutdowns)))
      ensures shuts == if ok then old(shuts).Put(side, old(shuts).At(side) + [|departed.At(side)|]) else old(shuts)
      ensures arrived == old(arrived) && arrivedAt == old(arrivedAt)
      ensures departed == old(departed) && departedAt == old(departedAt)
    {
      ok := ShuttingDown(wire.shutdowns);
      wire := wire.(shutdowns := Rest(wire.shutdowns));
      if ok {
        shuts := shuts.Put(side, shuts.At(side) + [|departed.At(side)|]);
      }
    }
  }
}
