/** How buffers go over the wire: the packet that Transmission builds in a buffer it uses
    again and again, the loop that writes it to the socket piece by piece, and the reader
    that gets the buffers back. */
module Framing {
  import opened Bits

  type Byte = b: nat | b < 256

  const CHUNK: nat := 512
  const UINT: nat := 0x1_0000_0000   // values of unsigned int
  const MAX_INT: nat := 0x7fff_ffff

  // ---- The format --------------------------------------------------------------

  /** Network byte order. */
  function BigEndian(n: nat): (s: seq<Byte>)
    requires n < UINT
    ensures |s| == 4
  {
    [n / 0x100_0000, n / 0x1_0000 % 256, n / 256 % 256, n % 256]
  }

  function FromBigEndian(s: seq<Byte>): nat
    requires |s| == 4
  {
    s[0] as int * 0x100_0000 + s[1] as int * 0x1_0000 + s[2] as int * 256 + s[3] as int
  }

  lemma BigEndianRoundTrip(n: nat)
    requires n < UINT
    ensures FromBigEndian(BigEndian(n)) == n
  {
    ThreeQuotients(n);
    var s := BigEndian(n);
    assert s[0] as int == n / 0x100_0000 && s[1] as int == n / 0x1_0000 % 256;
    assert s[2] as int == n / 256 % 256 && s[3] as int == n % 256;
  }

  lemma ThreeQuotients(n: nat)
    ensures n == n / 256 * 256 + n % 256
    ensures n / 256 == n / 0x1_0000 * 256 + n / 256 % 256
    ensures n / 0x1_0000 == n / 0x100_0000 * 256 + n / 0x1_0000 % 256
  {
  }

  function PaddedSize(n: nat): nat {
    (n + 3) / 4 * 4
  }

  /** The header: the length, and in the PSD pipeline the number of bins. */
  function Header(psd: bool, bins: nat, n: nat): (s: seq<Byte>)
    requires bins < UINT && n < UINT
    ensures |s| == HeaderSize(psd)
  {
    if psd then BigEndian(n) + BigEndian(bins) else BigEndian(n)
  }

  function HeaderSize(psd: bool): nat {
    if psd then 8 else 4
  }

  /** Buffers whose packet size is computed without overflow. */
  predicate Sendable(d: seq<Byte>) {
    HeaderSize(true) + PaddedSize(|d|) < UINT
  }

  function Packet(psd: bool, bins: nat, d: seq<Byte>): (s: seq<Byte>)
    requires bins < UINT && Sendable(d)
    ensures |s| == HeaderSize(psd) + PaddedSize(|d|)
  {
    Header(psd, bins, |d|) + d + seq(PaddedSize(|d|) - |d|, _ => 0)
  }

  function Packets(psd: bool, bins: nat, ds: seq<seq<Byte>>): seq<Byte>
    requires bins < UINT && forall i :: 0 <= i < |ds| ==> Sendable(ds[i])
  {
    if ds == [] then [] else Packet(psd, bins, ds[0]) + Packets(psd, bins, ds[1..])
  }

  lemma {:induction false} PacketsConcat(psd: bool, bins: nat, ds: seq<seq<Byte>>, es: seq<seq<Byte>>)
    requires bins < UINT && forall i :: 0 <= i < |ds| ==> Sendable(ds[i])
    requires forall i :: 0 <= i < |es| ==> Sendable(es[i])
    ensures Packets(psd, bins, ds + es) == Packets(psd, bins, ds) + Packets(psd, bins, es)
  {
    hide Packet;
    if ds == [] {
      assert ds + es == es;
    } else {
      assert (ds + es)[1..] == ds[1..] + es;
      PacketsConcat(psd, bins, ds[1..], es);
    }
  }

  // ---- The reader --------------------------------------------------------------

  /** What the other side gets: a buffer, in the PSD pipeline with its number of bins. */
  datatype Frame = PsdFrame(data: seq<Byte>, bins: nat) | IqFrame(data: seq<Byte>)

  /** What it should get for each buffer. */
  function Frames(psd: bool, bins: nat, ds: seq<seq<Byte>>): (fs: seq<Frame>)
    ensures |fs| == |ds|
  {
    seq(|ds|, i requires 0 <= i < |ds| => if psd then PsdFrame(ds[i], bins) else IqFrame(ds[i]))
  }

  /** The frames in the complete packets at the start of `s`. */
  function Decode(psd: bool, s: seq<Byte>): seq<Frame>
    decreases |s|
  {
    var h := if psd then 8 else 4;
    if |s| < h then []
    else
      var n := FromBigEndian(s[..4]);
      if |s| < h + PaddedSize(n) then []
      else
        var d := s[h..h + n];
        [if psd then PsdFrame(d, FromBigEndian(s[4..8])) else IqFrame(d)] + Decode(psd, s[h + PaddedSize(n)..])
  }

  lemma DecodeOne(psd: bool, bins: nat, d: seq<Byte>, rest: seq<Byte>)
    requires bins < UINT && Sendable(d)
    ensures Decode(psd, Packet(psd, bins, d) + rest) == Frames(psd, bins, [d]) + Decode(psd, rest)
  {
    hide FromBigEndian, BigEndian;
    var p, h := Packet(psd, bins, d), HeaderSize(psd);
    var s := p + rest;
    BigEndianRoundTrip(|d|);
    BigEndianRoundTrip(bins);
    assert s[..4] == BigEndian(|d|);
    assert psd ==> s[4..8] == BigEndian(bins);
    assert s[h..h + |d|] == d;
    assert s[h + PaddedSize(|d|)..] == rest;
  }

  lemma DecodePart(psd: bool, bins: nat, d: seq<Byte>, n: nat)
    requires bins < UINT && Sendable(d) && n < |Packet(psd, bins, d)|
    ensures Decode(psd, Packet(psd, bins, d)[..n]) == []
  {
    hide FromBigEndian, BigEndian;
    var s := Packet(psd, bins, d)[..n];
    if |s| >= HeaderSize(psd) {
      BigEndianRoundTrip(|d|);
      assert s[..4] == BigEndian(|d|);
    }
  }

  /** From any number of bytes of the stream the reader gets the buffers whose packets are
      complete, each with the number of bins: from all of them, exactly what was sent. */
  lemma {:induction false} DecodeCut(psd: bool, bins: nat, ds: seq<seq<Byte>>, n: nat)
    requires bins < UINT && (forall i :: 0 <= i < |ds| ==> Sendable(ds[i])) && n <= |Packets(psd, bins, ds)|
    ensures Decode(psd, Packets(psd, bins, ds)[..n]) <= Frames(psd, bins, ds)
    ensures n == |Packets(psd, bins, ds)| ==> Decode(psd, Packets(psd, bins, ds)[..n]) == Frames(psd, bins, ds)
  {
    hide Packet, Decode, Frames;
    var s := Packets(psd, bins, ds);
    if ds == [] {
      NothingToDecode(psd, bins, s[..n], ds);
    } else {
      var p, rest := Packet(psd, bins, ds[0]), Packets(psd, bins, ds[1..]);
      FramesConcat(psd, bins, [ds[0]], ds[1..]);
      assert ds == [ds[0]] + ds[1..];
      if n < |p| {
        assert s[..n] == p[..n];
        DecodePart(psd, bins, ds[0], n);
      } else {
        assert s[..n] == p + rest[..n - |p|];
        DecodeOne(psd, bins, ds[0], rest[..n - |p|]);
        DecodeCut(psd, bins, ds[1..], n - |p|);
      }
    }
  }

  lemma FramesConcat(psd: bool, bins: nat, ds: seq<seq<Byte>>, es: seq<seq<Byte>>)
    ensures Frames(psd, bins, ds + es) == Frames(psd, bins, ds) + Frames(psd, bins, es)
  {
  }

  lemma {:induction false} DecodeMany(psd: bool, bins: nat, ds: seq<seq<Byte>>, rest: seq<Byte>)
    requires bins < UINT && forall i :: 0 <= i < |ds| ==> Sendable(ds[i])
    ensures Decode(psd, Packets(psd, bins, ds) + rest) == Frames(psd, bins, ds) + Decode(psd, rest)
  {
    hide Packet, Decode, Frames;
    if ds == [] {
      assert Packets(psd, bins, ds) + rest == rest;
      NothingToDecode(psd, bins, [], ds);
    } else {
      DecodeMany(psd, bins, ds[1..], rest);
      var more := Packets(psd, bins, ds[1..]) + rest;
      assert Packets(psd, bins, ds) + rest == Packet(psd, bins, ds[0]) + more;
      DecodeOne(psd, bins, ds[0], more);
      FramesConcat(psd, bins, [ds[0]], ds[1..]);
      assert ds == [ds[0]] + ds[1..];
    }
  }

  /** When the sender fails in the packet after the first `k`, the reader has got the first
      `k` buffers, or one more. */
  lemma ReaderGets(psd: bool, bins: nat, ds: seq<seq<Byte>>, k: nat, s: seq<Byte>)
    requires bins < UINT && k < |ds| && forall i :: 0 <= i < |ds| ==> Sendable(ds[i])
    requires Packets(psd, bins, ds[..k]) <= s <= Packets(psd, bins, ds[..k + 1])
    ensures Frames(psd, bins, ds[..k]) <= Decode(psd, s) <= Frames(psd, bins, ds[..k + 1])
  {
    hide Packets, Decode, Frames;
    var p := Packets(psd, bins, ds[..k]);
    assert s == p + s[|p|..];
    DecodeMany(psd, bins, ds[..k], s[|p|..]);
    assert s == Packets(psd, bins, ds[..k + 1])[..|s|];
    DecodeCut(psd, bins, ds[..k + 1], |s|);
  }

  lemma NothingToDecode(psd: bool, bins: nat, s: seq<Byte>, ds: seq<seq<Byte>>)
    requires s == [] && ds == []
    ensures Decode(psd, s) == [] && Frames(psd, bins, ds) == []
  {
  }

  // ---- The bytes on the wire ---------------------------------------------------

  /** Network byte order has the most significant byte first: words compare as their bytes
      do, from the first one on that differs. */
  lemma NetworkOrder(m: nat, n: nat)
    requires m < UINT && n < UINT
    ensures var a, b := BigEndian(m), BigEndian(n);
            m < n <==> exists k :: 0 <= k < 4 && a[..k] == b[..k] && a[k] < b[k]
  {
    hide BigEndian;
    BytesOf(m);
    BytesOf(n);
    var a, b := BigEndian(m), BigEndian(n);
    if m < n {
      var k := FirstDifference(a, b);
    } else if k :| 0 <= k < 4 && a[..k] == b[..k] && a[k] < b[k] {
      forall i | 0 <= i < k
        ensures a[i] == b[i]
      {
        assert a[..k][i] == b[..k][i];
      }
    }
  }

  lemma BytesOf(n: nat)
    requires n < UINT
    ensures var s := BigEndian(n);
            n == s[0] as int * 0x100_0000 + s[1] as int * 0x1_0000 + s[2] as int * 256 + s[3] as int
  {
    hide BigEndian;
    BigEndianRoundTrip(n);
  }

  lemma FirstDifference(a: seq<Byte>, b: seq<Byte>) returns (k: nat)
    requires |a| == |b| == 4
    requires a[0] as int * 0x100_0000 + a[1] as int * 0x1_0000 + a[2] as int * 256 + a[3] as int
             < b[0] as int * 0x100_0000 + b[1] as int * 0x1_0000 + b[2] as int * 256 + b[3] as int
    ensures k < 4 && a[..k] == b[..k] && a[k] < b[k]
  {
    k := if a[0] != b[0] then 0 else if a[1] != b[1] then 1 else if a[2] != b[2] then 2 else 3;
  }

  /** Packets are as short as a multiple of 4 allows, and what follows the data is zeros. */
  lemma PacketIsPadded(psd: bool, bins: nat, d: seq<Byte>, size: nat)
    requires bins < UINT && Sendable(d)
    ensures var p, used := Packet(psd, bins, d), HeaderSize(psd) + |d|;
            && |p| % 4 == 0 && used <= |p| && (size % 4 == 0 && size >= used ==> size >= |p|)
            && forall i :: used <= i < |p| ==> p[i] == 0
  {
    hide BigEndian;
  }

  // ---- The socket --------------------------------------------------------------

  /** Whatever the kernel has said, it will some time answer with an error or take
      something. */
  ghost predicate Progresses(answers: nat -> int) {
    forall n: nat :: GoesOnAfter(answers, n)
  }

  ghost predicate GoesOnAfter(answers: nat -> int, n: nat) {
    exists m: nat :: n <= m && answers(m) != 0
  }

  lemma NextAnswer(answers: nat -> int, n: nat) returns (m: nat)
    requires Progresses(answers)
    ensures n <= m && answers(m) != 0
  {
    assert GoesOnAfter(answers, n);
    m :| n <= m && answers(m) != 0;
  }

  /** A stream socket. `answers` stands for what the kernel says to each call of write: an
      error, or how many bytes it is ready to take. */
  class Socket {
    var sent: seq<Byte>
    var requests: seq<nat>       // how much each call of write asked to send
    const answers: nat -> int

    constructor (answers: nat -> int)
      ensures sent == [] && requests == [] && this.answers == answers
    {
      sent, requests, this.answers := [], [], answers;
    }

    method Write(data: seq<Byte>) returns (b: int)
      modifies this
      ensures requests == old(requests) + [|data|]
      ensures -1 <= b <= |data| && sent == old(sent) + data[..if b < 0 then 0 else b]
      ensures data != [] && b == 0 ==> answers(|old(requests)|) == 0
    {
      var answer := answers(|requests|);
      requests := requests + [|data|];
      if answer < 0 {
        b := -1;
      } else {
        b := if answer < |data| then answer else |data|;
        sent := sent + data[..b];
      }
    }
  }

  /** Writes the first `len` bytes of `msg` in chunks. */
  method TcpWrite(c: Socket, msg: array<Byte>, len: nat) returns (r: int)
    requires len <= msg.Length && len <= MAX_INT && Progresses(c.answers)
    modifies c
    ensures r == 0 || r == -1
    ensures r == 0 ==> c.sent == old(c.sent) + msg[..len]
    ensures r == -1 ==> old(c.sent) <= c.sent <= old(c.sent) + msg[..len]
    ensures old(c.requests) <= c.requests
    ensures forall i :: |old(c.requests)| <= i < |c.requests| ==> c.requests[i] <= CHUNK
  {
    var bytes_written := 0;
    ghost var next := NextAnswer(c.answers, |c.requests|);
    hide Progresses;
    while true
      invariant 0 <= bytes_written <= len && (len > 0 ==> bytes_written < len)
      invariant c.sent == old(c.sent) + msg[..bytes_written]
      invariant old(c.requests) <= c.requests && |c.requests| <= next && c.answers(next) != 0
      invariant forall i :: |old(c.requests)| <= i < |c.requests| ==> c.requests[i] <= CHUNK
      decreases len - bytes_written, next - |c.requests|
    {
      var n := if len - bytes_written < CHUNK then len - bytes_written else CHUNK;
      var b := c.Write(msg[bytes_written..bytes_written + n]);
      if b < 0 {
        assert msg[..len][..bytes_written] == msg[..bytes_written];
        return -1;
      }
      assert msg[..bytes_written] + msg[bytes_written..bytes_written + n][..b] == msg[..bytes_written + b];
      bytes_written := bytes_written + b;
      if bytes_written == len {
        return 0;
      }
      if b > 0 {
        next := NextAnswer(c.answers, |c.requests|);
      }
    }
  }

  // ---- The sender --------------------------------------------------------------

  const ALIGNED: nat := 0xffff_fffc   // ~0x03

  /** Masking off the two lowest bits rounds down to a multiple of 4. */
  lemma MaskAligns(x: nat)
    requires x < UINT
    ensures BitAnd(x, ALIGNED) == x / 4 * 4
  {
    hide BitAnd, Pow2;
    AndEven(x, ALIGNED);
    AndEven(x / 2, ALIGNED / 2);
    ThirtyBits();
    MaskIsMod(x / 4, 30);
    ModIs(x / 4, Pow2(30), 0, x / 4);
    Quarter(x);
  }

  lemma Quarter(x: nat)
    ensures x / 2 / 2 == x / 4
  {
  }

  lemma ThirtyBits()
    ensures Pow2(30) == 0x4000_0000
  {
    hide Pow2;
    PowFour();
    Doubled(4);
    Pow2Sum(5, 5);
    Pow2Sum(10, 10);
    Pow2Sum(20, 10);
  }

  lemma AndEven(a: nat, b: nat)
    requires b % 2 == 0
    ensures BitAnd(a, b) == 2 * BitAnd(a / 2, b / 2)
  {
  }

  /** The size of the data before, initially 0. */
  function PrevSize(sizes: seq<nat>): nat {
    if sizes == [] then 0 else sizes[|sizes| - 1]
  }

  /** Whether a packet buffer exists once it has been sized for data of each of the sizes:
      it is made when a size differs from the one before. */
  predicate HasBuffer(sizes: seq<nat>) {
    sizes != [] &&
    var before := sizes[..|sizes| - 1];
    HasBuffer(before) || sizes[|sizes| - 1] != PrevSize(before)
  }

  /** There is a buffer to write every packet to if and only if the first data is not
      empty. */
  lemma {:induction false} BufferExistsExactlyWhen(sizes: seq<nat>)
    ensures (forall k :: 0 < k <= |sizes| ==> HasBuffer(sizes[..k])) <==> (sizes == [] || sizes[0] != 0)
  {
    if sizes != [] {
      FirstBuffer(sizes[0]);
      assert sizes[..1] == [sizes[0]];
      if sizes[0] != 0 {
        forall k | 0 < k <= |sizes|
          ensures HasBuffer(sizes[..k])
        {
          BufferStays(sizes, k);
        }
      }
    }
  }

  lemma FirstBuffer(n: nat)
    ensures HasBuffer([n]) <==> n != 0
  {
    assert [n][..0] == [];
  }

  lemma {:induction false} BufferStays(sizes: seq<nat>, k: nat)
    requires 0 < k <= |sizes| && sizes[0] != 0
    ensures HasBuffer(sizes[..k])
    decreases k
  {
    if k == 1 {
      assert sizes[..1] == [sizes[0]];
      FirstBuffer(sizes[0]);
    } else {
      BufferStays(sizes, k - 1);
      assert sizes[..k][..k - 1] == sizes[..k - 1];
    }
  }

  /** There is none for an empty first buffer. */
  lemma NoBufferAtFirst()
    ensures !HasBuffer([0])
  {
    FirstBuffer(0);
  }

  class Transmission {
    const psd: bool
    const reduced_fft_size: nat
    var prev_data_size: nat
    var packet_size: nat
    var buf: array?<Byte>
    ghost var sizes: seq<nat>   // the data sizes so far

    ghost predicate Valid()
      reads this
    {
      && reduced_fft_size < UINT
      && prev_data_size == PrevSize(sizes) && (buf != null <==> HasBuffer(sizes))
      && (buf != null ==> packet_size == buf.Length == HeaderSize(psd) + PaddedSize(prev_data_size))
    }

    constructor (psd: bool, reduced_fft_size: nat)
      requires reduced_fft_size < UINT
      ensures Valid() && sizes == [] && this.psd == psd && this.reduced_fft_size == reduced_fft_size
    {
      this.psd, this.reduced_fft_size := psd, reduced_fft_size;
      prev_data_size, packet_size, buf, sizes := 0, 0, null, [];
    }

    /** Stores `n` in network byte order. */
    method StoreWord(at: nat, n: nat)
      requires buf != null && at + 4 <= buf.Length && n < UINT
      modifies buf
      ensures buf[..] == old(buf[..at]) + BigEndian(n) + old(buf[at + 4..])
    {
      buf[at] := n / 0x100_0000;
      buf[at + 1] := n / 0x1_0000 % 256;
      buf[at + 2] := n / 256 % 256;
      buf[at + 3] := n % 256;
    }

    /** Builds the packet in the buffer, which is made anew when the size is not that of
        the packet before. `built` tells whether there is a buffer to write to; the source
        goes on without one. */
    method Build(data: seq<Byte>) returns (built: bool)
      requires Valid() && Sendable(data)
      modifies this, buf
      ensures Valid() && sizes == old(sizes) + [|data|] && (buf == old(buf) || fresh(buf))
      ensures built == (buf != null) == HasBuffer(sizes)
      ensures built ==> packet_size == buf.Length && buf[..] == Packet(psd, reduced_fft_size, data)
    {
      var data_size := |data|;
      sizes := sizes + [data_size];
      assert sizes[..|sizes| - 1] == old(sizes);
      if data_size != prev_data_size {
        MaskAligns(data_size + 3);
        var payload_size := BitAnd(data_size + 3, ALIGNED);
        packet_size := (if psd then 8 else 4) + payload_size;
        buf := new Byte[packet_size];
        prev_data_size := data_size;
      }
      built := buf != null;
      if built {
        Fill(data);
      }
    }

    /** The part of Build that writes the packet into the buffer. */
    method Fill(data: seq<Byte>)
      requires reduced_fft_size < UINT && Sendable(data) && buf != null
      requires buf.Length == HeaderSize(psd) + PaddedSize(|data|)
      modifies buf
      ensures buf[..] == Packet(psd, reduced_fft_size, data)
    {
      hide BigEndian;
      ghost var zeros: seq<Byte> := seq(buf.Length, _ => 0);
      forall i | 0 <= i < buf.Length {
        buf[i] := 0;
      }
      assert buf[..] == zeros;
      StoreWord(0, |data|);
      assert buf[..] == BigEndian(|data|) + zeros[4..];
      if psd {
        StoreWord(4, reduced_fft_size);
        assert buf[..] == Header(psd, reduced_fft_size, |data|) + zeros[8..];
        CopyData(8, data);
      } else {
        CopyData(4, data);
      }
      assert buf[..] == Header(psd, reduced_fft_size, |data|) + data + zeros[HeaderSize(psd) + |data|..];
    }

    method CopyData(at: nat, data: seq<Byte>)
      requires buf != null && at + |data| <= buf.Length
      modifies buf
      ensures buf[..] == old(buf[..at]) + data + old(buf[at + |data|..])
    {
      forall i | 0 <= i < |data| {
        buf[at + i] := data[i];
      }
    }

    /** The packet has a length that tcp_write can take. */
    predicate Fits(data: seq<Byte>) {
      HeaderSize(psd) + PaddedSize(|data|) <= MAX_INT
    }

    /** The body of the loop: builds the packet and writes it. */
    method SendOne(data: seq<Byte>, c: Socket) returns (outcome: Outcome)
      requires Valid() && Sendable(data) && Fits(data)
      requires c as object != this && Progresses(c.answers)
      modifies this, buf, c
      ensures Valid() && (buf == old(buf) || fresh(buf))
      ensures outcome.NoBuffer? <==> old(buf) == null && data == []
      ensures outcome.NoBuffer? ==> c.sent == old(c.sent)
      ensures !outcome.NoBuffer? ==> buf != null
      ensures outcome.Sent? ==> c.sent == old(c.sent) + Packet(psd, reduced_fft_size, data)
      ensures outcome.SocketFailed? ==> old(c.sent) <= c.sent <= old(c.sent) + Packet(psd, reduced_fft_size, data)
    {
      hide Packet, HasBuffer, Progresses;
      BufferAfter(sizes, |data|);
      NothingBefore(sizes);
      var built := Build(data);
      if !built {
        return NoBuffer;
      }
      var r := TcpWrite(c, buf, packet_size);
      assert buf[..packet_size] == buf[..];
      outcome := if r == 0 then Sent else SocketFailed;
    }

    /** `base` and then the packets of the first `k` buffers. */
    ghost function Upto(base: seq<Byte>, segments: seq<seq<Byte>>, k: nat): seq<Byte>
      requires reduced_fft_size < UINT && k <= |segments| && forall i :: 0 <= i < |segments| ==> Sendable(segments[i])
    {
      base + Packets(psd, reduced_fft_size, segments[..k])
    }

    lemma UptoStep(base: seq<Byte>, segments: seq<seq<Byte>>, k: nat)
      requires reduced_fft_size < UINT && k < |segments| && forall i :: 0 <= i < |segments| ==> Sendable(segments[i])
      ensures Upto(base, segments, k + 1) == Upto(base, segments, k) + Packet(psd, reduced_fft_size, segments[k])
    {
      hide Packet;
      OneMorePacket(psd, reduced_fft_size, segments, k);
    }

    lemma UptoEnds(base: seq<Byte>, segments: seq<seq<Byte>>)
      requires reduced_fft_size < UINT && forall i :: 0 <= i < |segments| ==> Sendable(segments[i])
      ensures Upto(base, segments, 0) == base
      ensures Upto(base, segments, |segments|) == base + Packets(psd, reduced_fft_size, segments)
    {
      hide Packet;
      assert segments[..|segments|] == segments;
      NoPackets(psd, reduced_fft_size, segments[..0]);
    }

    /** Sends the buffers in order until something fails. What has been sent is all their
        packets, or those of the first `k` of them and part of the next. */
    method Send(segments: seq<seq<Byte>>, c: Socket) returns (outcome: Outcome, k: nat)
      requires Valid() && forall i :: 0 <= i < |segments| ==> Sendable(segments[i])
      requires forall i :: 0 <= i < |segments| ==> Fits(segments[i])
      requires c as object != this && Progresses(c.answers)
      modifies this, buf, c
      ensures Valid() && k <= |segments| && (outcome.Sent? <==> k == |segments|)
      ensures outcome.Sent? ==> c.sent == old(c.sent) + Packets(psd, reduced_fft_size, segments)
      ensures !outcome.Sent? ==> Upto(old(c.sent), segments, k) <= c.sent <= Upto(old(c.sent), segments, k + 1)
      ensures outcome.NoBuffer? <==> old(buf) == null && segments != [] && segments[0] == []
    {
      assert reduced_fft_size < UINT;
      hide *;
      ghost var base := c.sent;
      k := 0;
      UptoEnds(base, segments);
      outcome := Sent;
      while k < |segments| && outcome == Sent
        invariant Valid() && 0 <= k <= |segments| && (buf == old(buf) || fresh(buf))
        invariant outcome == Sent && k == 0 ==> buf == old(buf)
        invariant outcome == Sent && k > 0 ==> buf != null && (old(buf) == null ==> segments[0] != [])
        invariant outcome != Sent ==> k < |segments|
        invariant outcome == SocketFailed && old(buf) == null ==> segments[0] != []
        invariant outcome == NoBuffer ==> old(buf) == null && segments[0] == []
        invariant outcome == Sent ==> c.sent == Upto(base, segments, k)
        invariant outcome != Sent ==> Upto(base, segments, k) <= c.sent <= Upto(base, segments, k + 1)
        decreases |segments| - k, outcome == Sent
      {
        UptoStep(base, segments, k);
        outcome := SendOne(segments[k], c);
        if outcome == Sent {
          k := k + 1;
        }
      }
    }
  }

  datatype Outcome = Sent | SocketFailed | NoBuffer

  /** As long as there is no buffer, all sizes have been 0. */
  lemma {:induction false} NothingBefore(sizes: seq<nat>)
    ensures !HasBuffer(sizes) ==> PrevSize(sizes) == 0
  {
    if sizes != [] {
      NothingBefore(sizes[..|sizes| - 1]);
    }
  }

  lemma BufferAfter(sizes: seq<nat>, n: nat)
    ensures HasBuffer(sizes + [n]) <==> HasBuffer(sizes) || n != PrevSize(sizes)
  {
    assert (sizes + [n])[..|sizes|] == sizes;
  }

  lemma NoPackets(psd: bool, bins: nat, ds: seq<seq<Byte>>)
    requires bins < UINT && ds == []
    ensures Packets(psd, bins, ds) == []
  {
  }

  lemma OneMorePacket(psd: bool, bins: nat, ds: seq<seq<Byte>>, k: nat)
    requires bins < UINT && k < |ds| && forall i :: 0 <= i < |ds| ==> Sendable(ds[i])
    ensures Packets(psd, bins, ds[..k + 1]) == Packets(psd, bins, ds[..k]) + Packet(psd, bins, ds[k])
  {
    hide Packet;
    assert ds[..k + 1] == ds[..k] + [ds[k]];
    PacketsConcat(psd, bins, ds[..k], [ds[k]]);
    var one: seq<seq<Byte>> := [ds[k]];
    assert one[1..] == [];
  }
}
