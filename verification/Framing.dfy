/** Packets on a byte stream. A packet travels behind its length; the receiver cuts the packets out of
    whatever pieces of the stream it reads. */
module Framing {
  newtype Byte = x: int | 0 <= x < 256 witness 0

  type Bytes = seq<Byte>

  /** A length is two bytes, the high one first. */
  const HEADER: nat := 2
  const MAX_LENGTH: nat := 0xFFFF

  /** The longest packet that is sent, and the room a receiver has. */
  const MAX_PACKET: nat := 32768
  const ROOM: nat := MAX_PACKET + HEADER

  function Header(n: nat): (h: Bytes)
    requires n <= MAX_LENGTH
    ensures |h| == HEADER
    ensures n == 256 * (h[0] as nat) + h[1] as nat
  {
    [(n / 256) as Byte, (n % 256) as Byte]
  }

  /** The length that the first bytes of a stream declare. */
  function Declared(s: Bytes): (n: nat)
    requires |s| >= HEADER
    ensures n <= MAX_LENGTH
  {
    s[0] as nat * 256 + s[1] as nat
  }

  lemma {:induction false} HeaderDeclares(n: nat, rest: Bytes)
    requires n <= MAX_LENGTH
    ensures Declared(Header(n) + rest) == n
  {
  }

  lemma {:induction false} DeclaredHeader(s: Bytes)
    requires |s| >= HEADER
    ensures Header(Declared(s)) == s[..HEADER]
  {
    var high, low := s[0] as nat, s[1] as nat;
    assert (high * 256 + low) / 256 == high && (high * 256 + low) % 256 == low;
  }

  function Frame(p: Bytes): (f: Bytes)
    requires |p| <= MAX_LENGTH
    ensures |f| == HEADER + |p|
  {
    Header(|p|) + p
  }

  /** A packet travels behind two bytes that are its length, the high one first. */
  lemma {:induction false} FrameBytes(p: Bytes)
    requires |p| <= 65535
    ensures |Frame(p)| == 2 + |p| && Frame(p)[2..] == p
    ensures |p| == 256 * (Frame(p)[0] as nat) + Frame(p)[1] as nat
  {
  }

  predicate Sendable(packets: seq<Bytes>) {
    forall p :: p in packets ==> |p| <= MAX_LENGTH
  }

  /** Everything a sender of these packets puts on the stream. */
  function FrameAll(packets: seq<Bytes>): Bytes
    requires Sendable(packets)
  {
    if packets == [] then [] else Frame(packets[0]) + FrameAll(packets[1..])
  }

  /** A whole packet lies at the front. */
  predicate Complete(s: Bytes) {
    |s| >= HEADER && |s| >= HEADER + Declared(s)
  }

  datatype Parsed = Parsed(packets: seq<Bytes>, rest: Bytes)

  /** The packets at the front of a stream, and the bytes after them. */
  function Parse(s: Bytes): (r: Parsed)
    ensures Sendable(r.packets) && !Complete(r.rest) && |r.rest| <= |s|
    decreases |s|
  {
    if !Complete(s) then Parsed([], s)
    else
      var n := Declared(s);
      var later := Parse(s[HEADER + n..]);
      Parsed([s[HEADER..HEADER + n]] + later.packets, later.rest)
  }

  // ---------------------------------------------------------------- round trips

  lemma {:induction false} FrameAllSplits(a: seq<Bytes>, b: seq<Bytes>)
    requires Sendable(a) && Sendable(b)
    ensures Sendable(a + b) && FrameAll(a + b) == FrameAll(a) + FrameAll(b)
  {
    if a == [] {
      assert a + b == b;
    } else {
      assert a + b == [a[0]] + (a[1..] + b);
      FrameAllSplits(a[1..], b);
    }
  }

  lemma {:induction false} FrameParsed(p: Bytes, s: Bytes)
    requires |p| <= MAX_LENGTH
    ensures Complete(Frame(p) + s)
    ensures Parse(Frame(p) + s) == Parsed([p] + Parse(s).packets, Parse(s).rest)
  {
    var t := Frame(p) + s;
    assert t == Header(|p|) + (p + s);
    HeaderDeclares(|p|, p + s);
    assert t[HEADER..HEADER + |p|] == p && t[HEADER + |p|..] == s;
  }

  /** Parsing framed packets gives back the packets, whatever follows them. */
  lemma {:induction false} ParseAfterFrames(packets: seq<Bytes>, s: Bytes)
    requires Sendable(packets)
    ensures Parse(FrameAll(packets) + s) == Parsed(packets + Parse(s).packets, Parse(s).rest)
  {
    hide FrameAll, Parse, Frame, Complete;
    if packets == [] {
      NothingFramed();
      assert [] + s == s;
    } else {
      var later := FrameAll(packets[1..]) + s;
      assert packets == [packets[0]] + packets[1..];
      FirstFrame(packets[0], packets[1..]);
      assert FrameAll(packets) + s == Frame(packets[0]) + later;
      FrameParsed(packets[0], later);
      ParseAfterFrames(packets[1..], s);
    }
  }

  /** Framing what was parsed gives back the stream, byte for byte. */
  lemma {:induction false} FramesRestoreTheStream(s: Bytes)
    ensures FrameAll(Parse(s).packets) + Parse(s).rest == s
    decreases |s|
  {
    hide FrameAll, Parse, Frame, Complete;
    if !Complete(s) {
      NothingParsed(s);
      NothingFramed();
    } else {
      FrontParsed(s);
      var packet, later := s[HEADER..HEADER + Declared(s)], s[HEADER + Declared(s)..];
      FramesRestoreTheStream(later);
      FirstFrame(packet, Parse(later).packets);
      assert Frame(packet) + FrameAll(Parse(later).packets) + Parse(later).rest == Frame(packet) + later;
    }
  }

  lemma {:induction false} NothingParsed(s: Bytes)
    requires !Complete(s)
    ensures Parse(s) == Parsed([], s)
  {
  }

  lemma {:induction false} FrontParsed(s: Bytes)
    requires Complete(s)
    ensures HEADER + Declared(s) <= |s|
    ensures
      var packet, later := s[HEADER..HEADER + Declared(s)], s[HEADER + Declared(s)..];
      && s == Frame(packet) + later
      && Parse(s) == Parsed([packet] + Parse(later).packets, Parse(later).rest)
  {
    DeclaredHeader(s);
  }

  lemma {:induction false} NothingFramed()
    ensures FrameAll([]) == []
  {
  }

  lemma {:induction false} FirstFrame(p: Bytes, packets: seq<Bytes>)
    requires |p| <= MAX_LENGTH && Sendable(packets)
    ensures Sendable([p] + packets) && FrameAll([p] + packets) == Frame(p) + FrameAll(packets)
  {
    assert ([p] + packets)[1..] == packets;
  }

  /** How the stream is cut into pieces makes no difference: parsing a piece, keeping its rest, and
      parsing on when the next piece has come gives the packets of the whole. */
  lemma {:induction false} PiecesDoNotMatter(a: Bytes, b: Bytes)
    ensures
      var first := Parse(a);
      var second := Parse(first.rest + b);
      Parse(a + b) == Parsed(first.packets + second.packets, second.rest)
  {
    hide FrameAll, Parse, Complete;
    var first := Parse(a);
    FramesRestoreTheStream(a);
    assert a + b == FrameAll(first.packets) + (first.rest + b);
    ParseAfterFrames(first.packets, first.rest + b);
  }

  /** A stream determines its packets: two ways of framing it agree. */
  lemma {:induction false} FramingIsUnambiguous(a: seq<Bytes>, b: seq<Bytes>)
    requires Sendable(a) && Sendable(b) && FrameAll(a) == FrameAll(b)
    ensures a == b
  {
    ParseAfterFrames(a, []);
    ParseAfterFrames(b, []);
    NothingParsed([]);
    assert FrameAll(a) + [] == FrameAll(b) + [];
    assert a + [] == a && b + [] == b;
  }

  // ---------------------------------------------------------------- the room of the receiver

  /** What parsing leaves is a proper prefix of one frame, and there is room for another byte behind it
      unless it declares a length that no sender would send. */
  lemma {:induction false} RoomAfterParsing(s: Bytes)
    requires |s| <= ROOM
    ensures
      var rest := Parse(s).rest;
      && (|rest| >= HEADER ==> |rest| < HEADER + Declared(rest))
      && (|rest| < HEADER || Declared(rest) <= MAX_PACKET ==> |rest| < ROOM)
  {
    hide Parse, Declared;
    assert !Complete(Parse(s).rest);
  }

  /** A buffer that holds a length and no whole packet is filled up. There is a packet in it then
      exactly if the length is one that a sender would send; otherwise nothing is ever cut out of the
      full buffer, and there is no room for another byte. */
  lemma {:induction false} FullBuffer(rest: Bytes, more: Bytes)
    requires !Complete(rest) && HEADER <= |rest| && |rest| + |more| == ROOM
    ensures Complete(rest + more) <==> Declared(rest) <= MAX_PACKET
    ensures Declared(rest) > MAX_PACKET ==> Parse(rest + more) == Parsed([], rest + more)
    ensures Declared(rest) <= MAX_PACKET ==> |rest| < ROOM && Parse(rest + more).packets != []
  {
    assert Declared(rest + more) == Declared(rest);
    if Declared(rest) <= MAX_PACKET {
      FrontParsed(rest + more);
    }
  }
}
