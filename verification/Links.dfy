/** One direction of a connection: the sender's two output strings, the bytes on their way, and the
    receiver's buffer, as a state machine over sends, writes and reads of any size. */
module Links {
  import opened Framing

  /** The output side of a socket: bytes waiting, bytes being written, and whether a write has been
      handed to the system and not yet been reported done. */
  datatype Output = Output(outgoing: Bytes, writing: Bytes, busy: bool) {
    /** The next write starts with everything that waits. */
    function Pumped(): Output {
      Output([], writing + outgoing, writing + outgoing != [])
    }

    function Sent(packet: Bytes): Output {
      if |packet| > MAX_PACKET then this
      else
        var o := this.(outgoing := outgoing + Frame(packet));
        if writing == [] then o.Pumped() else o
    }

    function WriteDone(): Output {
      var o := this.(writing := [], busy := false);
      if outgoing != [] then o.Pumped() else o
    }

    /** A write is under way exactly if there is something being written, and nothing waits without one. */
    predicate Pumping() {
      (busy <==> writing != []) && (outgoing != [] ==> busy)
    }
  }

  const SILENT: Output := Output([], [], false)

  /** accepted and handed record the packets taken from the sender and the bytes put on the stream of
      the write under way; delivered are the packets the receiver has cut out. */
  datatype Link = Link(
    accepted: seq<Bytes>,
    output: Output,
    handed: nat,
    stream: Bytes,
    buffer: Bytes,
    delivered: seq<Bytes>)

  const UNUSED: Link := Link([], SILENT, 0, [], [], [])

  /** A packet is sent; some bytes of the current write go out; the write is reported done; some bytes
      are read. */
  datatype Step = Send(packet: Bytes) | Transmit(count: nat) | Done | Read(count: nat)

  predicate Possible(l: Link, s: Step) {
    match s
    case Send(_) => true
    case Transmit(n) => l.output.busy && 0 < n <= |l.output.writing| - l.handed
    case Done => l.output.busy && l.handed == |l.output.writing|
    case Read(n) => 0 < n <= |l.stream| && |l.buffer| + n <= ROOM
  }

  function Taken(l: Link, s: Step): Link
    requires Possible(l, s)
  {
    match s
    case Send(p) =>
      l.(output := l.output.Sent(p), accepted := if |p| > MAX_PACKET then l.accepted else l.accepted + [p])
    case Transmit(n) =>
      if l.handed + n <= |l.output.writing|
      then l.(handed := l.handed + n, stream := l.stream + l.output.writing[l.handed..l.handed + n]) else l
    case Done => l.(output := l.output.WriteDone(), handed := 0)
    case Read(n) =>
      var parsed := Parse(l.buffer + l.stream[..n]);
      l.(stream := l.stream[n..], buffer := parsed.rest, delivered := l.delivered + parsed.packets)
  }

  predicate Run(l: Link, steps: seq<Step>)
    decreases |steps|
  {
    steps == [] || (Possible(l, steps[0]) && Run(Taken(l, steps[0]), steps[1..]))
  }

  function AfterAll(l: Link, steps: seq<Step>): Link
    requires Run(l, steps)
    decreases |steps|
  {
    if steps == [] then l else AfterAll(Taken(l, steps[0]), steps[1..])
  }

  /** All packets are short enough to be sent. */
  predicate Short(packets: seq<Bytes>) {
    forall p :: p in packets ==> |p| <= MAX_PACKET
  }

  /** The bytes that are still on their way. */
  function Pending(l: Link): Bytes {
    l.buffer + l.stream
    + (if l.handed <= |l.output.writing| then l.output.writing[l.handed..] else [])
    + l.output.outgoing
  }

  /** What was accepted is what was delivered and what is on its way, byte for byte. */
  predicate Sound(l: Link) {
    && Short(l.accepted) && Short(l.delivered)
    && FrameAll(l.accepted) == FrameAll(l.delivered) + Pending(l)
    && !Complete(l.buffer)
    && l.output.Pumping() && l.handed <= |l.output.writing|
  }

  // ---------------------------------------------------------------- every step

  lemma {:induction false} OneFrame(packet: Bytes)
    requires |packet| <= MAX_LENGTH
    ensures FrameAll([packet]) == Frame(packet)
  {
  }

  lemma {:induction false} Regroup(a: Bytes, b: Bytes, c: Bytes)
    ensures a + b + c == a + (b + c)
  {
  }

  lemma {:induction false} SendIsPending(l: Link, packet: Bytes)
    requires l.output.Pumping() && l.handed <= |l.output.writing| && |packet| <= MAX_PACKET
    ensures
      var m := Taken(l, Send(packet));
      && m.output.Pumping() && m.handed <= |m.output.writing|
      && Pending(m) == Pending(l) + Frame(packet)
  {
  }

  lemma {:induction false} SendIsSound(l: Link, packet: Bytes)
    requires Sound(l)
    ensures Sound(Taken(l, Send(packet)))
  {
    hide FrameAll, Frame, Complete;
    if |packet| <= MAX_PACKET {
      FrameAllSplits(l.accepted, [packet]);
      OneFrame(packet);
      SendIsPending(l, packet);
      Regroup(FrameAll(l.delivered), Pending(l), Frame(packet));
      hide Pending, Output.Sent, Output.Pumping;
    }
  }

  lemma {:induction false} TransmitMovesBytes(l: Link, count: nat)
    requires l.handed <= |l.output.writing| && Possible(l, Transmit(count))
    ensures Pending(Taken(l, Transmit(count))) == Pending(l)
  {
    var w, n := l.output.writing, l.handed;
    assert w[n..] == w[n..n + count] + w[n + count..];
  }

  lemma {:induction false} DoneMovesBytes(l: Link)
    requires l.output.Pumping() && Possible(l, Done)
    ensures Pending(Taken(l, Done)) == Pending(l)
  {
  }

  lemma {:induction false} WriteIsSound(l: Link, s: Step)
    requires Sound(l) && Possible(l, s) && (s.Transmit? || s.Done?)
    ensures Sound(Taken(l, s))
  {
    match s {
      case Transmit(n) => TransmitMovesBytes(l, n);
      case Done => DoneMovesBytes(l);
    }
    hide FrameAll, Complete, Pending, Parse;
  }

  lemma {:induction false} ReadIsSound(l: Link, count: nat)
    requires Sound(l) && Possible(l, Read(count))
    ensures Sound(Taken(l, Read(count)))
  {
    hide FrameAll, Parse, Frame, Complete;
    var m := Taken(l, Read(count));
    var got := l.buffer + l.stream[..count];
    var parsed := Parse(got);
    var later := Pending(m)[|m.buffer|..];
    FramesRestoreTheStream(got);
    FrameAllSplits(l.delivered, parsed.packets);
    assert Pending(l) == got + later;
    assert FrameAll(m.delivered) + Pending(m) == FrameAll(l.delivered) + Pending(l);
    WhatIsPending(l);
    WhatIsPending(m);
    assert m.delivered <= l.accepted;
  }

  /** The packets still on their way are those that the pending bytes hold; so what has been delivered
      is a prefix of what was accepted, and no packet is changed, lost or overtaken. */
  lemma {:induction false} WhatIsPending(l: Link)
    requires Sendable(l.accepted) && Sendable(l.delivered)
    requires FrameAll(l.accepted) == FrameAll(l.delivered) + Pending(l)
    ensures l.accepted == l.delivered + Parse(Pending(l)).packets
    ensures Parse(Pending(l)).rest == []
  {
    ParseAfterFrames(l.accepted, []);
    ParseAfterFrames(l.delivered, Pending(l));
    assert FrameAll(l.accepted) + [] == FrameAll(l.accepted);
  }

  lemma {:induction false} StepIsSound(l: Link, s: Step)
    requires Sound(l) && Possible(l, s)
    ensures Sound(Taken(l, s))
  {
    match s {
      case Send(p) => SendIsSound(l, p);
      case Read(n) => ReadIsSound(l, n);
      case _ => WriteIsSound(l, s);
    }
  }

  /** The bytes of a write do not change, and no other write starts, before it is reported done. */
  lemma {:induction false} WritesAreLeftAlone(l: Link, s: Step)
    requires Sound(l) && Possible(l, s) && l.output.busy && s != Done
    ensures Taken(l, s).output.busy && Taken(l, s).output.writing == l.output.writing
  {
  }

  // ---------------------------------------------------------------- whole runs

  lemma {:induction false} RunIsSound(l: Link, steps: seq<Step>)
    requires Sound(l) && Run(l, steps)
    ensures Sound(AfterAll(l, steps))
    decreases |steps|
  {
    hide Sound, Possible, Taken;
    if steps != [] {
      StepIsSound(l, steps[0]);
      RunIsSound(Taken(l, steps[0]), steps[1..]);
    }
  }

  /** Whatever is sent, and however writes and reads are cut up: what has been delivered is a prefix
      of what was accepted, and what is missing is exactly what lies in the buffer, on the stream and
      in the two output strings. There is always room for another read. */
  lemma {:induction false} DeliveredInOrder(steps: seq<Step>)
    requires Run(UNUSED, steps)
    ensures
      var l := AfterAll(UNUSED, steps);
      && l.delivered <= l.accepted
      && Sendable(l.accepted[|l.delivered|..])
      && FrameAll(l.accepted[|l.delivered|..]) == Pending(l)
      && |l.buffer| < ROOM
      && l.output.Pumping()
  {
    hide Run, AfterAll;
    RunIsSound(UNUSED, steps);
    var l := AfterAll(UNUSED, steps);
    WhatIsPending(l);
    FramesRestoreTheStream(Pending(l));
    assert l.accepted[|l.delivered|..] == Parse(Pending(l)).packets;
    RoomToRead(l);
  }

  /** A buffer is a proper prefix of a frame short enough to fit. */
  lemma {:induction false} RoomToRead(l: Link)
    requires Sound(l)
    ensures |l.buffer| < ROOM
  {
    WhatIsPending(l);
    FramesRestoreTheStream(Pending(l));
    var next := Parse(Pending(l)).packets;
    if next == [] {
      assert Pending(l) == [];
      assert l.buffer == [];
    } else {
      assert next[0] in l.accepted;
      if |l.buffer| >= HEADER {
        assert Pending(l)[..HEADER] == l.buffer[..HEADER];
        assert Declared(Pending(l)) == Declared(l.buffer);
      }
    }
  }

  // ---------------------------------------------------------------- everything arrives

  /** How far all bytes together still have to go. */
  function Distance(l: Link): int {
    3 * |l.output.outgoing| + 2 * (|l.output.writing| - l.handed) + |l.stream| + if l.output.busy then 1 else 0
  }

  lemma {:induction false} EveryStepComesCloser(l: Link, s: Step)
    requires Sound(l) && Possible(l, s) && !s.Send?
    ensures 0 <= Distance(Taken(l, s)) < Distance(l)
  {
  }

  lemma {:induction false} NothingOnTheWay(l: Link)
    requires Sound(l) && Distance(l) == 0
    ensures l.delivered == l.accepted && l.buffer == []
  {
    WhatIsPending(l);
    assert Pending(l) == l.buffer;
  }

  /** Some step other than a send is possible as long as anything is on its way. */
  lemma {:induction false} NeverAtALoss(l: Link)
    requires Sound(l) && Distance(l) > 0
    ensures Possible(l, Transmit(1)) || Possible(l, Done) || Possible(l, Read(1))
  {
    RoomToRead(l);
  }

  /** When nothing more is sent, every order of writes and reads comes to an end, and only when
      everything has been delivered. */
  lemma {:induction false} EverythingArrives(l: Link, steps: seq<Step>)
    requires Sound(l) && Run(l, steps) && forall s :: s in steps ==> !s.Send?
    ensures |steps| <= Distance(l)
    ensures
      var m := AfterAll(l, steps);
      || (m.delivered == m.accepted == l.accepted && m.buffer == [])
      || Possible(m, Transmit(1)) || Possible(m, Done) || Possible(m, Read(1))
    decreases |steps|
  {
    hide Sound, Possible, Taken, Distance;
    if steps == [] {
      DistanceIsNatural(l);
      if Distance(l) == 0 {
        NothingOnTheWay(l);
      } else {
        NeverAtALoss(l);
      }
    } else {
      StepIsSound(l, steps[0]);
      EveryStepComesCloser(l, steps[0]);
      OnlySendsAreAccepted(l, steps[0]);
      EverythingArrives(Taken(l, steps[0]), steps[1..]);
    }
  }

  lemma {:induction false} OnlySendsAreAccepted(l: Link, s: Step)
    requires Possible(l, s) && !s.Send?
    ensures Taken(l, s).accepted == l.accepted
  {
  }

  lemma {:induction false} DistanceIsNatural(l: Link)
    requires Sound(l)
    ensures Distance(l) >= 0
  {
  }
}
