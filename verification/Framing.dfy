/** How messages travel between two hosts: a header of fixed size and then the message, one after the other. */
module Framing {
  import opened Streams
  import opened Routing

  type byte = x: int | 0 <= x < 256

  // Integers of fixed size -------------------------------------------------------------------------

  function Power(k: nat): (p: nat)
    ensures p > 0
  {
    if k == 0 then 1 else 256 * Power(k - 1)
  }

  function LittleEndian(n: nat, k: nat): (bs: seq<byte>)
    ensures |bs| == k
  {
    if k == 0 then [] else [n % 256] + LittleEndian(n / 256, k - 1)
  }

  function Value(bs: seq<byte>): nat {
    if bs == [] then 0 else bs[0] + 256 * Value(bs[1..])
  }

  lemma {:induction false} ValueOfBytes(n: nat, k: nat)
    requires n < Power(k)
    ensures Value(LittleEndian(n, k)) == n
  {
    if k > 0 {
      ValueOfBytes(n / 256, k - 1);
      assert LittleEndian(n, k)[1..] == LittleEndian(n / 256, k - 1);
    }
  }

  lemma {:induction false} BytesOfValue(bs: seq<byte>)
    ensures Value(bs) < Power(|bs|) && LittleEndian(Value(bs), |bs|) == bs
  {
    if bs != [] {
      BytesOfValue(bs[1..]);
      assert Value(bs) % 256 == bs[0] && Value(bs) / 256 == Value(bs[1..]);
    }
  }

  // Frames -----------------------------------------------------------------------------------------

  const HEADER_SIZE := 20

  datatype Header = Header(size: nat, replica: nat, sender: nat) {
    predicate Fits() { size < Power(4) && replica < Power(8) && sender < Power(8) }
  }

  function EncodeHeader(h: Header): (bs: seq<byte>)
    ensures |bs| == HEADER_SIZE
  {
    LittleEndian(h.size, 4) + LittleEndian(h.replica, 8) + LittleEndian(h.sender, 8)
  }

  function DecodeHeader(bs: seq<byte>): Header
    requires |bs| == HEADER_SIZE
  {
    Header(Value(bs[..4]), Value(bs[4..12]), Value(bs[12..]))
  }

  lemma {:induction false} ByteAt(n: nat, k: nat, i: nat)
    requires i < k
    ensures LittleEndian(n, k)[i] == n / Power(i) % 256
  {
    if i > 0 {
      ByteAt(n / 256, k - 1, i - 1);
      DivTwice(n, Power(i - 1));
    }
  }

  lemma DivTwice(n: nat, p: nat)
    requires p > 0
    ensures n / 256 / p == n / (256 * p)
  {
    var q := n / 256 / p;
    var a, b := n % 256, n / 256 % p;
    assert n == 256 * (p * q + b) + a;
    assert n == (256 * p) * q + (256 * b + a) && 256 * b + a < 256 * p;
    QuotientIs(n, 256 * p, q, 256 * b + a);
  }

  lemma QuotientIs(n: nat, d: nat, q: nat, r: nat)
    requires d > 0 && n == d * q + r && r < d
    ensures n / d == q
  {
    var x := q - n / d;
    assert n == d * (n / d) + n % d;
    assert d * x == n % d - r by { assert d * x == d * q - d * (n / d); }
    NoMultiple(d, x);
  }

  lemma NoMultiple(d: int, x: int)
    requires d > 0 && 0 - d < d * x < d
    ensures x == 0
  {
    AtLeast(d, x);
    AtLeast(d, 0 - x);
    assert d * (0 - x) == 0 - d * x;
  }

  lemma AtLeast(d: int, y: int)
    requires d > 0
    ensures y >= 1 ==> d * y >= d
  {
    if y >= 1 { assert d * y == d + d * (y - 1) && d * (y - 1) >= 0; }
  }

  /** The bytes of a header: the size, the replica and the sending block, each with its least byte first. */
  lemma HeaderBytes(h: Header)
    ensures forall i :: 0 <= i < 4 ==> EncodeHeader(h)[i] == h.size / Power(i) % 256
    ensures forall i :: 0 <= i < 8 ==> EncodeHeader(h)[4 + i] == h.replica / Power(i) % 256
    ensures forall i :: 0 <= i < 8 ==> EncodeHeader(h)[12 + i] == h.sender / Power(i) % 256
  {
    forall i | 0 <= i < 4 ensures EncodeHeader(h)[i] == h.size / Power(i) % 256 { ByteAt(h.size, 4, i); }
    forall i | 0 <= i < 8 ensures EncodeHeader(h)[4 + i] == h.replica / Power(i) % 256 { ByteAt(h.replica, 8, i); }
    forall i | 0 <= i < 8 ensures EncodeHeader(h)[12 + i] == h.sender / Power(i) % 256 { ByteAt(h.sender, 8, i); }
  }

  /** The header comes back from its twenty bytes, and every twenty bytes are those of a header. */
  lemma HeaderRoundTrip(h: Header, bs: seq<byte>)
    ensures h.Fits() ==> DecodeHeader(EncodeHeader(h)) == h
    ensures |bs| == HEADER_SIZE ==> DecodeHeader(bs).Fits() && EncodeHeader(DecodeHeader(bs)) == bs
  {
    if h.Fits() {
      ValueOfBytes(h.size, 4);
      ValueOfBytes(h.replica, 8);
      ValueOfBytes(h.sender, 8);
      var e := EncodeHeader(h);
      assert e[..4] == LittleEndian(h.size, 4) && e[4..12] == LittleEndian(h.replica, 8) &&
        e[12..] == LittleEndian(h.sender, 8);
    }
    if |bs| == HEADER_SIZE {
      BytesOfValue(bs[..4]);
      BytesOfValue(bs[4..12]);
      BytesOfValue(bs[12..]);
    }
  }

  /** The serializer of the messages. */
  datatype Codec<!M> = Codec(encode: M -> seq<byte>, decode: seq<byte> -> Option<M>)

  predicate DecodesTo<M(==)>(c: Codec<M>, m: M) { c.decode(c.encode(m)) == Some(m) }

  ghost predicate IsFaithful<M(!new)>(c: Codec<M>) { forall m {:trigger DecodesTo(c, m)} :: DecodesTo(c, m) }

  function HeaderOf<M>(c: Codec<M>, dest: Endpoint, m: M): Header {
    Header(|c.encode(m)|, dest.coord.replica, dest.prevBlock)
  }

  function Frame<M>(c: Codec<M>, dest: Endpoint, m: M): seq<byte> { EncodeHeader(HeaderOf(c, dest, m)) + c.encode(m) }

  /** The numbers fit into the header; otherwise the code panics, or they are of 64 bits anyway. */
  predicate IsSendable<M>(c: Codec<M>, demux: DemuxCoord, x: (Endpoint, M)) {
    DemuxOf(x.0) == demux && HeaderOf(c, x.0, x.1).Fits()
  }

  function Frames<M>(c: Codec<M>, xs: seq<(Endpoint, M)>): seq<byte> {
    if xs == [] then [] else Frame(c, xs[0].0, xs[0].1) + Frames(c, xs[1..])
  }

  // Reading ----------------------------------------------------------------------------------------

  /** Closed where a header would begin or within one, or broken within a message. */
  datatype Reading<+M> = Received(dest: Endpoint, message: M) | Closed | Broken

  function ReadOne<M>(c: Codec<M>, demux: DemuxCoord, bs: seq<byte>): Reading<M> {
    if |bs| < HEADER_SIZE then Closed
    else
      var h := DecodeHeader(bs[..HEADER_SIZE]);
      if |bs| - HEADER_SIZE < h.size then Broken
      else
        match c.decode(bs[HEADER_SIZE..][..h.size])
        case None => Broken
        case Some(m) => Received(Endpoint(Coord(demux.block, demux.host, h.replica), h.sender), m)
  }

  function SizeOf(bs: seq<byte>): (n: nat)
    requires |bs| >= HEADER_SIZE
    ensures n >= HEADER_SIZE
  {
    HEADER_SIZE + DecodeHeader(bs[..HEADER_SIZE]).size
  }

  /** All the messages, and how the connection ends. */
  function ReadAll<M>(c: Codec<M>, demux: DemuxCoord, bs: seq<byte>): (seq<(Endpoint, M)>, Reading<M>)
    decreases |bs|
  {
    match ReadOne(c, demux, bs)
    case Received(dest, m) =>
      var (xs, end) := ReadAll(c, demux, bs[SizeOf(bs)..]);
      ([(dest, m)] + xs, end)
    case end => ([], end)
  }

  lemma FrameIsRead<M(!new)>(c: Codec<M>, demux: DemuxCoord, x: (Endpoint, M), rest: seq<byte>)
    requires IsFaithful(c) && IsSendable(c, demux, x)
    ensures var bs := Frame(c, x.0, x.1) + rest;
            && ReadOne(c, demux, bs) == Received(x.0, x.1)
            && |bs| >= HEADER_SIZE && SizeOf(bs) == |Frame(c, x.0, x.1)| && bs[SizeOf(bs)..] == rest
  {
    var h, bs := HeaderOf(c, x.0, x.1), Frame(c, x.0, x.1) + rest;
    HeaderRoundTrip(h, []);
    assert bs[..HEADER_SIZE] == EncodeHeader(h);
    assert bs[HEADER_SIZE..][..h.size] == c.encode(x.1);
    assert DecodesTo(c, x.1);
    assert bs[HEADER_SIZE + h.size..] == rest;
  }

  /** The messages come back, in order, with the endpoints they are for. */
  lemma {:induction false} FramesAreRead<M(!new)>(c: Codec<M>, demux: DemuxCoord, xs: seq<(Endpoint, M)>,
      rest: seq<byte>)
    requires IsFaithful(c) && forall i :: 0 <= i < |xs| ==> IsSendable(c, demux, xs[i])
    ensures ReadAll(c, demux, Frames(c, xs) + rest) == (xs + ReadAll(c, demux, rest).0, ReadAll(c, demux, rest).1)
  {
    if xs == [] {
      assert Frames(c, xs) + rest == rest && xs + ReadAll(c, demux, rest).0 == ReadAll(c, demux, rest).0;
    } else {
      var bs := Frames(c, xs[1..]) + rest;
      assert Frames(c, xs) + rest == Frame(c, xs[0].0, xs[0].1) + bs;
      FirstIsRead(c, demux, xs[0], bs);
      FramesAreRead(c, demux, xs[1..], rest);
      FirstAndRest(xs, ReadAll(c, demux, rest).0);
    }
  }

  lemma FirstIsRead<M(!new)>(c: Codec<M>, demux: DemuxCoord, x: (Endpoint, M), rest: seq<byte>)
    requires IsFaithful(c) && IsSendable(c, demux, x)
    ensures ReadAll(c, demux, Frame(c, x.0, x.1) + rest) == ([x] + ReadAll(c, demux, rest).0, ReadAll(c, demux, rest).1)
  {
    FrameIsRead(c, demux, x, rest);
  }

  lemma FirstAndRest<T>(xs: seq<T>, later: seq<T>)
    requires xs != []
    ensures [xs[0]] + (xs[1..] + later) == xs + later
  {
  }

  lemma {:induction false} FramesConcat<M>(c: Codec<M>, xs: seq<(Endpoint, M)>, ys: seq<(Endpoint, M)>)
    ensures Frames(c, xs + ys) == Frames(c, xs) + Frames(c, ys)
  {
    if xs == [] {
      assert xs + ys == ys;
    } else {
      assert (xs + ys)[1..] == xs[1..] + ys;
      FramesConcat(c, xs[1..], ys);
    }
  }

  /**
    If the connection is cut after any number of bytes, exactly the messages that are complete by then are
    received, and it breaks if and only if the cut is within a message, after its header.
   */
  lemma CutIsPrefix<M(!new)>(c: Codec<M>, demux: DemuxCoord, xs: seq<(Endpoint, M)>, k: nat, more: seq<byte>)
    requires IsFaithful(c) && k < |xs| && forall i :: 0 <= i < |xs| ==> IsSendable(c, demux, xs[i])
    requires more < Frame(c, xs[k].0, xs[k].1)
    ensures Frames(c, xs[..k]) + more <= Frames(c, xs)
    ensures ReadAll(c, demux, Frames(c, xs[..k]) + more) == (xs[..k], if |more| < HEADER_SIZE then Closed else Broken)
  {
    FramesAreRead(c, demux, xs[..k], more);
    assert xs[..k] + [] == xs[..k];
    CutFrame(c, demux, xs[k], more);
    assert ReadAll(c, demux, more) == ([], if |more| < HEADER_SIZE then Closed else Broken);
    assert xs == xs[..k] + xs[k..];
    FramesConcat(c, xs[..k], xs[k..]);
    PrefixConcat(Frames(c, xs[..k]), more, Frame(c, xs[k].0, xs[k].1), Frames(c, xs[k..][1..]));
  }

  lemma PrefixConcat<T>(a: seq<T>, more: seq<T>, b: seq<T>, rest: seq<T>)
    requires more < b
    ensures a + more <= a + (b + rest)
  {
    assert (a + (b + rest))[..|a + more|] == a + more;
  }

  lemma CutFrame<M>(c: Codec<M>, demux: DemuxCoord, x: (Endpoint, M), more: seq<byte>)
    requires IsSendable(c, demux, x) && more < Frame(c, x.0, x.1)
    ensures ReadOne(c, demux, more) == if |more| < HEADER_SIZE then Closed else Broken
  {
    if |more| >= HEADER_SIZE {
      var h := HeaderOf(c, x.0, x.1);
      assert more[..HEADER_SIZE] == EncodeHeader(h);
      HeaderRoundTrip(h, []);
    }
  }

  // The two ends of a connection -------------------------------------------------------------------

  /** The buffer cut or filled up to a length. */
  function Resized(s: seq<byte>, n: nat): (r: seq<byte>)
    ensures |r| == n
  {
    if n <= |s| then s[..n] else s + seq(n - |s|, i => 0)
  }

  class Sender<M> {
    const codec: Codec<M>
    var scratch: seq<byte>
    var written: seq<byte>     // what has gone to the socket

    constructor (codec: Codec<M>)
      ensures this.codec == codec && written == []
    {
      this.codec, scratch, written := codec, [], [];
    }

    /** The message is put behind the place of its header, whatever the buffer held before. */
    method Send(dest: Endpoint, m: M)
      requires HeaderOf(codec, dest, m).Fits()
      modifies this
      ensures written == old(written) + Frame(codec, dest, m)
    {
      scratch := Resized(scratch, HEADER_SIZE);
      var bytes := codec.encode(m);
      scratch := scratch + bytes;
      var header := EncodeHeader(Header(|bytes|, dest.coord.replica, dest.prevBlock));
      scratch := header + scratch[HEADER_SIZE..];
      assert scratch == Frame(codec, dest, m);
      written := written + scratch;
    }
  }

  class Receiver<M> {
    const codec: Codec<M>
    const demux: DemuxCoord
    const socket: seq<byte>    // what the other side has written
    var read: nat

    constructor (codec: Codec<M>, demux: DemuxCoord, socket: seq<byte>)
      ensures this.codec == codec && this.demux == demux && this.socket == socket && read == 0
    {
      this.codec, this.demux, this.socket, read := codec, demux, socket, 0;
    }

    method Receive() returns (r: Reading<M>)
      requires read <= |socket|
      modifies this`read
      ensures r == ReadOne(codec, demux, old(socket[read..]))
      ensures r.Received? ==> read == old(read) + SizeOf(socket[old(read)..]) && read <= |socket|
    {
      if |socket| - read < HEADER_SIZE { return Closed; }
      ghost var bs := socket[read..];
      var header := DecodeHeader(socket[read..read + HEADER_SIZE]);
      assert socket[read..read + HEADER_SIZE] == bs[..HEADER_SIZE];
      read := read + HEADER_SIZE;
      if |socket| - read < header.size { return Broken; }
      var scratch := socket[read..read + header.size];
      assert scratch == bs[HEADER_SIZE..][..header.size];
      read := read + header.size;
      match codec.decode(scratch)
      case None => r := Broken;
      case Some(m) => r := Received(Endpoint(Coord(demux.block, demux.host, header.replica), header.sender), m);
    }
  }

  /** Messages for one demultiplexer, from the one end to the other. */
  method RunConnection<M(!new)>(codec: Codec<M>, demux: DemuxCoord,
      xs: seq<(Endpoint, M)>)
    returns (ys: seq<(Endpoint, M)>)
    requires IsFaithful(codec) && forall i :: 0 <= i < |xs| ==> IsSendable(codec, demux, xs[i])
    ensures ys == xs
  {
    var sender := new Sender(codec);
    for i := 0 to |xs|
      invariant fresh(sender) && sender.codec == codec && sender.written == Frames(codec, xs[..i])
    {
      sender.Send(xs[i].0, xs[i].1);
      assert xs[..i + 1] == xs[..i] + [xs[i]];
      FramesConcat(codec, xs[..i], [xs[i]]);
      assert Frames(codec, [xs[i]]) == Frame(codec, xs[i].0, xs[i].1);
    }
    assert xs[..|xs|] == xs;
    FramesAreRead(codec, demux, xs, []);
    assert sender.written + [] == sender.written && xs + [] == xs;
    var socket := sender.written;
    ys := ReceiveAll(codec, demux, socket);
  }

  method ReceiveAll<M>(codec: Codec<M>, demux: DemuxCoord, socket: seq<byte>) returns (ys: seq<(Endpoint, M)>)
    ensures ys == ReadAll(codec, demux, socket).0
  {
    var receiver := new Receiver(codec, demux, socket);
    ys := [];
    while true
      invariant fresh(receiver) && receiver.codec == codec && receiver.demux == demux && receiver.socket == socket &&
        receiver.read <= |socket|
      invariant ReadAll(codec, demux, socket).0 == ys + ReadAll(codec, demux, socket[receiver.read..]).0
      decreases |socket| - receiver.read
    {
      ghost var before := receiver.read;
      var r := receiver.Receive();
      match r
      case Received(dest, m) =>
        assert socket[before..][SizeOf(socket[before..])..] == socket[receiver.read..];
        ys := ys + [(dest, m)];
      case _ => return;
    }
  }
}
