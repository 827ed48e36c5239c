/** The socket object: it queues frames for one write at a time and cuts packets out of its buffer. */
module TcpSockets {
  import opened Geometry
  import opened Framing
  import opened Links

  class TcpSocket {
    const data: array<Byte>
    var dataLen: nat
    var outgoing: Bytes
    var writing: Bytes
    /** A write has been handed to the system and its end not been reported. */
    var busy: bool
    var closed: bool

    predicate Valid()
      reads this
    {
      data.Length == ROOM && dataLen <= ROOM
    }

    function Buffer(): Bytes
      reads this, data
      requires Valid()
    {
      data[..dataLen]
    }

    function Sending(): Output
      reads this
    {
      Output(outgoing, writing, busy)
    }

    constructor ()
      ensures Valid() && fresh(data) && Buffer() == [] && Sending() == SILENT && !closed
    {
      data := new Byte[ROOM];
      dataLen, outgoing, writing, busy, closed := 0, [], [], false, false;
    }

    /** Queue a packet behind its length, and write unless a write is under way. A packet that is too
        long is dropped. Bytes that a failed write has left waiting go out with the next packet. */
    method Send(packet: Bytes)
      requires busy <==> writing != []
      modifies this`outgoing, this`writing, this`busy
      ensures Sending() == old(Sending()).Sent(packet) && (busy <==> writing != [])
      ensures old(Sending()).Pumping() || |packet| <= MAX_PACKET ==> Sending().Pumping()
    {
      if |packet| > MAX_PACKET {
        return;
      }
      outgoing := outgoing + Header(|packet|);
      outgoing := outgoing + packet;
      assert outgoing == old(outgoing) + Frame(packet);
      if writing == [] {
        StartWrite();
      }
    }

    method StartWrite()
      requires !busy && writing == []
      modifies this`outgoing, this`writing, this`busy
      ensures Sending() == old(Sending()).Pumped()
    {
      writing := writing + outgoing;
      outgoing := [];
      if writing == [] {
        return;
      }
      busy := true;
    }

    /** The write under way has ended. After an error the connection is closed and what waits stays. */
    method HandleWrite(error: bool)
      requires busy
      modifies this`outgoing, this`writing, this`busy, this`closed
      ensures !error ==> Sending() == old(Sending()).WriteDone() && Sending().Pumping() && closed == old(closed)
      ensures error ==> Sending() == Output(old(outgoing), [], false) && closed
    {
      busy := false;
      writing := [];
      if error {
        closed := true;
      } else if outgoing != [] {
        StartWrite();
      }
    }

    /** The system has put some bytes behind those in the buffer: cut out all whole packets. Or the
        read failed: the connection has ended. */
    method HandleRead(error: bool, bytes: nat) returns (packets: seq<Bytes>, ended: bool)
      requires Valid() && dataLen + bytes <= ROOM
      modifies data, this`dataLen
      ensures Valid() && ended == error
      ensures error ==> packets == [] && Buffer() == old(Buffer())
      ensures !error ==>
        var parsed := Parse(old(data[..dataLen + bytes]));
        packets == parsed.packets && Buffer() == parsed.rest
    {
      packets, ended := [], error;
      if !error {
        dataLen := dataLen + bytes;
        packets := CutOut();
      }
    }

    method CutOut() returns (packets: seq<Bytes>)
      requires Valid()
      modifies data, this`dataLen
      ensures Valid() && Parsed(packets, Buffer()) == Parse(old(Buffer()))
    {
      hide Parse, Declared, Complete;
      packets := [];
      ghost var got := Buffer();
      while true
        invariant Valid()
        invariant Parse(got).packets == packets + Parse(Buffer()).packets
        invariant Parse(got).rest == Parse(Buffer()).rest
        decreases dataLen
      {
        ghost var before := Buffer();
        var packet := TakeFront();
        if packet.None? {
          NothingParsed(before);
          break;
        }
        FrontTaken(packets, before);
        packets := packets + [packet.value];
      }
    }

    /** Cut the packet at the front out of the buffer, if there is a whole one. */
    method TakeFront() returns (packet: Option<Bytes>)
      requires Valid()
      modifies data, this`dataLen
      ensures Valid() && (packet.Some? <==> Complete(old(Buffer())))
      ensures packet.None? ==> Buffer() == old(Buffer()) && dataLen == old(dataLen)
      ensures packet.Some? ==>
        var s := old(Buffer());
        && HEADER + Declared(s) <= |s| && dataLen < old(dataLen)
        && packet.value == s[HEADER..HEADER + Declared(s)] && Buffer() == s[HEADER + Declared(s)..]
    {
      hide Declared;
      if dataLen < HEADER {
        return None;
      }
      var packetLength := Declared(data[..HEADER]);
      SameLength(data[..HEADER], Buffer());
      if dataLen < HEADER + packetLength {
        return None;
      }
      packet := Some(data[HEADER..HEADER + packetLength]);
      assert packet.value == Buffer()[HEADER..HEADER + packetLength];
      ShiftDown(HEADER + packetLength);
    }

    /** The in-place move of what follows a packet to the front of the buffer. */
    method ShiftDown(shift: nat)
      requires Valid() && shift <= dataLen
      modifies data, this`dataLen
      ensures Valid() && Buffer() == old(Buffer())[shift..] && dataLen == old(dataLen) - shift
    {
      forall i | 0 <= i < dataLen - shift {
        data[i] := data[i + shift];
      }
      dataLen := dataLen - shift;
    }
  }

  lemma {:induction false} FrontTaken(packets: seq<Bytes>, s: Bytes)
    requires Complete(s)
    ensures
      var packet, later := s[HEADER..HEADER + Declared(s)], s[HEADER + Declared(s)..];
      && packets + Parse(s).packets == packets + [packet] + Parse(later).packets
      && Parse(s).rest == Parse(later).rest
  {
    hide Parse, Declared;
    FrontParsed(s);
  }

  lemma {:induction false} SameLength(s: Bytes, t: Bytes)
    requires |s| >= HEADER && s <= t
    ensures Declared(s) == Declared(t)
    ensures Complete(t) <==> |t| >= HEADER + Declared(s)
  {
  }
}
