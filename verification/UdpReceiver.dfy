/** Receiving sample packets over UDP, byte by byte (receiveIq), and the packets a controller sends. */
module UdpReceiver {

  type byte = b: int | 0 <= b < 256

  /** The 32-bit pattern of one float; its numeric value plays no part here. */
  type Word = nat

  /** Two floats that follow each other in the vector; a packet only ever adds whole samples. */
  datatype Sample = Sample(inPhase: Word, quadrature: Word)

  const BUFFER: nat := 65536
  const HEADER: nat := 32
  const MAGIC: nat := 0x49515030
  /** Bytes of one complex sample: two floats. */
  const SAMPLE: nat := 8
  /** The most samples one receive can yield. */
  const MOST: nat := 8188

  // ----- little-endian numbers

  function Get(b: seq<byte>): nat {
    if b == [] then 0 else b[0] + 256 * Get(b[1..])
  }

  function Put(v: nat, width: nat): (b: seq<byte>)
    ensures |b| == width
  {
    if width == 0 then [] else [v % 256] + Put(v / 256, width - 1)
  }

  function Limit(width: nat): nat {
    if width == 0 then 1 else 256 * Limit(width - 1)
  }

  lemma {:induction false} GetPut(v: nat, width: nat)
    requires v < Limit(width)
    ensures Get(Put(v, width)) == v
  {
    if width == 0 {
    } else {
      GetPut(v / 256, width - 1);
      assert Put(v, width)[1..] == Put(v / 256, width - 1);
    }
  }

  // ----- one datagram

  function NumberAt(d: seq<byte>, at: nat, width: nat): nat
    requires at + width <= |d|
  {
    Get(d[at..at + width])
  }

  /** A datagram counts when it holds a whole header that starts with the magic number. */
  predicate Genuine(d: seq<byte>) {
    |d| >= HEADER && NumberAt(d, 0, 4) == MAGIC
  }

  /** How many samples are read: what the header announces, but no more than arrived whole. */
  function SamplesIn(d: seq<byte>): (n: nat)
    requires |d| >= HEADER
    ensures HEADER + SAMPLE * n <= |d|
  {
    var announced, whole := NumberAt(d, 28, 2), (|d| - HEADER) / SAMPLE;
    if announced < whole then announced else whole
  }

  function WordAt(d: seq<byte>, at: nat): Word
    requires at + 4 <= |d|
  {
    NumberAt(d, at, 4)
  }

  function SampleAt(d: seq<byte>, k: nat): Sample
    requires HEADER + SAMPLE * k + SAMPLE <= |d|
  {
    Sample(WordAt(d, HEADER + SAMPLE * k), WordAt(d, HEADER + SAMPLE * k + 4))
  }

  function Payload(d: seq<byte>): (w: seq<Sample>)
    ensures Genuine(d) ==> |w| == SamplesIn(d) && forall k :: 0 <= k < |w| ==> w[k] == SampleAt(d, k)
    ensures !Genuine(d) ==> w == []
  {
    if Genuine(d) then seq(SamplesIn(d), k requires 0 <= k < SamplesIn(d) => SampleAt(d, k)) else []
  }

  /** Only datagrams of 32 bytes or more that start with these four bytes yield samples. */
  lemma ForeignDatagram(d: seq<byte>)
    ensures |d| < 32 || d[0] != 0x30 || d[1] != 0x50 || d[2] != 0x51 || d[3] != 0x49 ==> Payload(d) == []
    ensures |d| >= 40 && d[..4] == [0x30, 0x50, 0x51, 0x49] && NumberAt(d, 28, 2) > 0 ==> Payload(d) != []
  {
    if |d| >= 32 {
      FourBytes(d[0..4], d[0] as int, d[1] as int, d[2] as int, d[3] as int);
    }
  }

  lemma FourBytes(m: seq<byte>, a: int, b: int, c: int, e: int)
    requires |m| == 4 && a == m[0] as int && b == m[1] as int && c == m[2] as int && e == m[3] as int
    ensures Get(m) == a + 256 * (b + 256 * (c + 256 * e))
  {
    assert m[1..][1..] == m[2..] && m[2..][1..] == m[3..] && m[3..][1..] == [];
    assert Get(m[3..]) == e;
    assert Get(m[2..]) == c + 256 * e;
    assert Get(m[1..]) == b + 256 * (c + 256 * e);
  }

  // ----- what the socket does, and the receive loop

  /** What one turn of the loop meets. A datagram is what recv can return: at most a buffer full. */
  datatype Arrival = DeadlinePassed | SelectEnded | ReceiveFailed | Datagram(bytes: seq<byte>)

  predicate Ends(a: Arrival) {
    a.DeadlinePassed? || a.SelectEnded?
  }

  ghost predicate Fits(arrivals: seq<Arrival>) {
    forall i :: 0 <= i < |arrivals| ==> arrivals[i].Datagram? ==> |arrivals[i].bytes| <= BUFFER
  }

  function Yield(a: Arrival): seq<Sample> {
    if a.Datagram? then Payload(a.bytes) else []
  }

  /** The samples of a stretch of arrivals, in order. */
  function YieldOf(arrivals: seq<Arrival>): seq<Sample> {
    if arrivals == [] then [] else YieldOf(arrivals[..|arrivals| - 1]) + Yield(arrivals[|arrivals| - 1])
  }

  function SampleCount(arrivals: seq<Arrival>): nat {
    |YieldOf(arrivals)|
  }

  /**
   The loop takes exactly the first n arrivals: none of them ends it, no shorter stretch reaches the
   target, and it stops because the target is reached or the next arrival ends it. Running out of
   arrivals is running out of time.
   */
  ghost predicate Takes(arrivals: seq<Arrival>, target: int, n: nat) {
    && n <= |arrivals|
    && (forall i :: 0 <= i < n ==> !Ends(arrivals[i]))
    && (forall i :: 0 <= i < n ==> SampleCount(arrivals[..i]) < target)
    && (SampleCount(arrivals[..n]) >= target || n == |arrivals| || Ends(arrivals[n]))
  }

  /** iq is what the loop collects from the arrivals it takes. */
  ghost predicate Receives(arrivals: seq<Arrival>, target: int, iq: seq<Sample>) {
    exists n: nat :: Takes(arrivals, target, n) && iq == YieldOf(arrivals[..n])
  }

  /** recv into the reused buffer: bytes beyond the datagram keep what an earlier one left there. */
  method Receive(buf: array<byte>, d: seq<byte>) returns (n: nat)
    requires buf.Length == BUFFER && |d| <= BUFFER
    modifies buf
    ensures n == |d| && buf[..n] == d
  {
    n := |d|;
    for i := 0 to n
      invariant buf[..i] == d[..i]
    {
      buf[i] := d[i];
    }
    assert d[..n] == d;
  }

  method ReadNumber(buf: array<byte>, at: nat, width: nat) returns (v: nat)
    requires at + width <= buf.Length
    ensures v == NumberAt(buf[..], at, width)
  {
    v := 0;
    ghost var b := buf[..];
    var i := width;
    while i > 0
      invariant 0 <= i <= width && v == Get(b[at + i..at + width])
    {
      i := i - 1;
      assert b[at + i..at + width][1..] == b[at + i + 1..at + width];
      v := buf[at + i] + 256 * v;
    }
  }

  lemma SameBytes(b: seq<byte>, d: seq<byte>, at: nat, width: nat)
    requires |d| <= |b| && b[..|d|] == d && at + width <= |d|
    ensures NumberAt(b, at, width) == NumberAt(d, at, width)
  {
    var x, y := b[at..at + width], d[at..at + width];
    forall k | 0 <= k < width
      ensures x[k] == y[k]
    {
      assert b[at + k] == b[..|d|][at + k];
    }
    assert x == y;
  }

  /** Nothing but the n received bytes reaches the samples, whatever the rest of the buffer holds. */
  method Unpack(buf: array<byte>, n: nat, ghost d: seq<byte>) returns (w: seq<Sample>)
    requires n <= buf.Length && buf[..n] == d
    ensures w == Payload(d)
  {
    hide NumberAt;
    assert buf[..][..|d|] == d;
    if n < HEADER {
      return [];
    }
    SameBytes(buf[..], d, 0, 4);
    SameBytes(buf[..], d, 28, 2);
    var magic := ReadNumber(buf, 0, 4);
    if magic != MAGIC {
      return [];
    }
    var announced := ReadNumber(buf, 28, 2);
    var whole := (n - HEADER) / 4 / 2;
    assert whole == (n - HEADER) / SAMPLE;
    var count := if announced < whole then announced else whole;
    w := [];
    for k := 0 to count
      invariant w == Payload(d)[..k]
    {
      var at := HEADER + SAMPLE * k;
      SameBytes(buf[..], d, at, 4);
      SameBytes(buf[..], d, at + 4, 4);
      var i := ReadNumber(buf, at, 4);
      var q := ReadNumber(buf, at + 4, 4);
      w := w + [Sample(i, q)];
    }
  }

  method ReceiveIq(target: int, arrivals: seq<Arrival>) returns (iq: seq<Sample>)
    requires Fits(arrivals)
    ensures Receives(arrivals, target, iq)
  {
    hide Payload, Get;
    iq := [];
    var buf := new byte[BUFFER](_ => 0);
    var i := 0;
    assert YieldOf(arrivals[..0]) == [];
    while |iq| < target && i < |arrivals| && !Ends(arrivals[i])
      invariant i <= |arrivals| && iq == YieldOf(arrivals[..i])
      invariant forall j :: 0 <= j < i ==> !Ends(arrivals[j])
      invariant forall j :: 0 <= j < i ==> SampleCount(arrivals[..j]) < target
      decreases |arrivals| - i
    {
      assert arrivals[..i + 1][..i] == arrivals[..i];
      if arrivals[i].Datagram? {
        var d := arrivals[i].bytes;
        var count := Receive(buf, d);
        var samples := Unpack(buf, count, d);
        iq := iq + samples;
      }
      i := i + 1;
    }
    assert Takes(arrivals, target, i);
  }

  // ----- what is received

  lemma {:induction false} PayloadBound(d: seq<byte>)
    requires |d| <= BUFFER
    ensures |Payload(d)| <= MOST
  {
    if Genuine(d) {
      assert HEADER + SAMPLE * SamplesIn(d) <= BUFFER;
    }
  }

  lemma YieldStep(arrivals: seq<Arrival>, n: nat)
    requires n < |arrivals|
    ensures YieldOf(arrivals[..n + 1]) == YieldOf(arrivals[..n]) + Yield(arrivals[n])
  {
    assert arrivals[..n + 1][..n] == arrivals[..n];
  }

  /** The receiver overshoots a positive target by fewer samples than one packet can hold. */
  lemma Overshoot(arrivals: seq<Arrival>, target: int, iq: seq<Sample>)
    requires Fits(arrivals) && Receives(arrivals, target, iq) && target > 0
    ensures |iq| < target + MOST
  {
    var n: nat :| Takes(arrivals, target, n) && iq == YieldOf(arrivals[..n]);
    if n > 0 {
      YieldStep(arrivals, n - 1);
      if arrivals[n - 1].Datagram? {
        PayloadBound(arrivals[n - 1].bytes);
      }
    } else {
      NothingYielded(arrivals[..0]);
    }
  }

  /** What the loop collects is determined by what arrives. */
  lemma ReceivesIsDetermined(arrivals: seq<Arrival>, target: int, iq: seq<Sample>, iq': seq<Sample>)
    requires Receives(arrivals, target, iq) && Receives(arrivals, target, iq')
    ensures iq == iq'
  {
    hide YieldOf;
    var m: nat :| Takes(arrivals, target, m) && iq == YieldOf(arrivals[..m]);
    var n: nat :| Takes(arrivals, target, n) && iq' == YieldOf(arrivals[..n]);
    TakesIsDetermined(arrivals, target, m, n);
  }

  /** The stop condition fixes how many arrivals are consumed. */
  lemma TakesIsDetermined(arrivals: seq<Arrival>, target: int, m: nat, n: nat)
    requires Takes(arrivals, target, m) && Takes(arrivals, target, n)
    ensures m == n
  {
  }

  // ----- the sending side, and the round trip

  /** The header fields the receiver does not look at. */
  datatype Header = Header(sequence: nat, time: nat, centerFreq: nat, sampleRate: nat, kind: byte, flags: byte)

  /** One packet: the 32-byte header, then the samples. */
  function Packet(h: Header, w: seq<Sample>): (d: seq<byte>)
    ensures |d| == HEADER + SAMPLE * |w|
  {
    HeaderBytes(h, |w|) + SampleBytes(w)
  }

  function HeaderBytes(h: Header, n: nat): (d: seq<byte>)
    ensures |d| == HEADER
  {
    Put(MAGIC, 4) + Put(h.sequence, 4) + Put(h.time, 8) + Put(h.centerFreq, 8) + Put(h.sampleRate, 4)
    + Put(n, 2) + [h.kind, h.flags]
  }

  function BytesOf(v: Sample): (d: seq<byte>)
    ensures |d| == SAMPLE && d[..4] == Put(v.inPhase, 4) && d[4..] == Put(v.quadrature, 4)
  {
    Put(v.inPhase, 4) + Put(v.quadrature, 4)
  }

  function SampleBytes(w: seq<Sample>): (d: seq<byte>)
    ensures |d| == SAMPLE * |w|
  {
    if w == [] then [] else SampleBytes(w[..|w| - 1]) + BytesOf(w[|w| - 1])
  }

  /** Every word of the signal is a 32-bit pattern. */
  ghost predicate Floats(w: seq<Sample>) {
    forall k :: 0 <= k < |w| ==> w[k].inPhase < Limit(4) && w[k].quadrature < Limit(4)
  }

  lemma {:induction false} SampleBytesAt(w: seq<Sample>, k: nat)
    requires k < |w|
    ensures SampleBytes(w)[SAMPLE * k..SAMPLE * k + SAMPLE] == BytesOf(w[k])
  {
    var n := |w| - 1;
    if k == n {
    } else {
      SampleBytesAt(w[..n], k);
      assert SampleBytes(w)[SAMPLE * k..SAMPLE * k + SAMPLE] == SampleBytes(w[..n])[SAMPLE * k..SAMPLE * k + SAMPLE];
    }
  }

  lemma HeaderFields(h: Header, n: nat)
    requires n <= MOST
    ensures Get(HeaderBytes(h, n)[0..4]) == MAGIC && Get(HeaderBytes(h, n)[28..30]) == n
  {
    var d := HeaderBytes(h, n);
    assert d[0..4] == Put(MAGIC, 4) && d[28..30] == Put(n, 2);
    assert Limit(4) == 0x1_0000_0000 && Limit(2) == 65536;
    GetPut(MAGIC, 4);
    GetPut(n, 2);
  }

  /** Receiving a packet yields exactly the samples it was built from. */
  lemma PacketRoundTrip(h: Header, w: seq<Sample>)
    requires |w| <= MOST && Floats(w)
    ensures Payload(Packet(h, w)) == w
  {
    hide Get, Put, HeaderBytes, SampleBytes, Floats;
    var d := Packet(h, w);
    HeaderFields(h, |w|);
    assert d[0..4] == HeaderBytes(h, |w|)[0..4] && d[28..30] == HeaderBytes(h, |w|)[28..30];
    assert Genuine(d) && SamplesIn(d) == |w|;
    forall k | 0 <= k < |w|
      ensures SampleAt(d, k) == w[k]
    {
      PacketSample(h, w, k);
    }
  }

  lemma PacketSample(h: Header, w: seq<Sample>, k: nat)
    requires k < |w| && Floats(w)
    ensures SampleAt(Packet(h, w), k) == w[k]
  {
    hide Get, Put, HeaderBytes, SampleBytes, BytesOf, Limit;
    var d, at, bytes := Packet(h, w), HEADER + SAMPLE * k, BytesOf(w[k]);
    SampleBytesAt(w, k);
    assert d[at..at + SAMPLE] == bytes;
    assert d[at..at + 4] == bytes[..4] && d[at + 4..at + 8] == bytes[4..];
    GetPut(w[k].inPhase, 4);
    GetPut(w[k].quadrature, 4);
  }

  /** A signal cut into packets of pkt samples, the last one holding what is left. */
  function Packets(headers: nat -> Header, signal: seq<Sample>, pkt: nat, sequence: nat): seq<Arrival>
    requires pkt > 0
    decreases |signal|
  {
    if signal == [] then []
    else
      var cut := if |signal| < pkt then |signal| else pkt;
      [Datagram(Packet(headers(sequence), signal[..cut]))] + Packets(headers, signal[cut..], pkt, sequence + 1)
  }

  lemma {:induction false} YieldAppend(a: seq<Arrival>, b: seq<Arrival>)
    ensures YieldOf(a + b) == YieldOf(a) + YieldOf(b)
  {
    hide Yield;
    if b == [] {
      assert a + b == a;
    } else {
      var n := |b| - 1;
      YieldAppend(a, b[..n]);
      hide YieldOf;
      assert (a + b)[..|a| + n] == a + b[..n] && b[..n + 1] == b && (a + b)[..|a| + n + 1] == a + b;
      YieldStep(b, n);
      YieldStep(a + b, |a| + n);
    }
  }

  /** The first n packets yield a prefix of the signal, and all of them the whole of it. */
  lemma {:induction false} PacketsYieldPrefix(headers: nat -> Header, signal: seq<Sample>, pkt: nat, sequence: nat,
                                              n: nat)
    requires 0 < pkt <= MOST && Floats(signal) && n <= |Packets(headers, signal, pkt, sequence)|
    ensures var w := YieldOf(Packets(headers, signal, pkt, sequence)[..n]);
            w <= signal && (n == |Packets(headers, signal, pkt, sequence)| ==> w == signal)
    decreases |signal|
  {
    hide Payload, Packet, Yield, YieldOf, Floats;
    if signal != [] && n > 0 {
      var cut := if |signal| < pkt then |signal| else pkt;
      var rest := Packets(headers, signal[cut..], pkt, sequence + 1);
      FloatsSplit(signal, cut);
      PacketsYieldPrefix(headers, signal[cut..], pkt, sequence + 1, n - 1);
      FirstPacketYields(headers(sequence), signal[..cut], rest[..n - 1]);
      assert Packets(headers, signal, pkt, sequence)[..n]
          == [Datagram(Packet(headers(sequence), signal[..cut]))] + rest[..n - 1];
      assert signal == signal[..cut] + signal[cut..];
    } else {
      NothingYielded(Packets(headers, signal, pkt, sequence)[..n]);
    }
  }

  lemma NothingYielded(arrivals: seq<Arrival>)
    requires arrivals == []
    ensures YieldOf(arrivals) == []
  {
  }

  lemma FloatsSplit(signal: seq<Sample>, cut: nat)
    requires Floats(signal) && cut <= |signal|
    ensures Floats(signal[..cut]) && Floats(signal[cut..])
  {
  }

  lemma FirstPacketYields(h: Header, w: seq<Sample>, rest: seq<Arrival>)
    requires |w| <= MOST && Floats(w)
    ensures YieldOf([Datagram(Packet(h, w))] + rest) == w + YieldOf(rest)
  {
    hide Payload, Packet;
    var first := [Datagram(Packet(h, w))];
    PacketRoundTrip(h, w);
    assert first[..0] == [];
    assert YieldOf(first) == w;
    YieldAppend(first, rest);
  }

  /**
   Nothing lost and enough time: receiving the packets of a signal gives back a prefix of it that
   covers the target, or the whole signal when it is shorter than that.
   */
  lemma SignalRoundTrip(headers: nat -> Header, signal: seq<Sample>, pkt: nat, target: int, iq: seq<Sample>)
    requires 0 < pkt <= MOST && Floats(signal) && Receives(Packets(headers, signal, pkt, 0), target, iq)
    ensures iq <= signal && (iq == signal || |iq| >= target)
  {
    hide YieldOf, Floats, Packets, Packet, Payload;
    var arrivals := Packets(headers, signal, pkt, 0);
    var n: nat :| Takes(arrivals, target, n) && iq == YieldOf(arrivals[..n]);
    PacketsYieldPrefix(headers, signal, pkt, 0, n);
    PacketsAreDatagrams(headers, signal, pkt, 0);
  }

  lemma {:induction false} PacketsAreDatagrams(headers: nat -> Header, signal: seq<Sample>, pkt: nat, sequence: nat)
    requires 0 < pkt <= MOST
    ensures forall i :: 0 <= i < |Packets(headers, signal, pkt, sequence)| ==>
              Packets(headers, signal, pkt, sequence)[i].Datagram?
    ensures Fits(Packets(headers, signal, pkt, sequence))
    decreases |signal|
  {
    if signal == [] {
    } else {
      var cut := if |signal| < pkt then |signal| else pkt;
      PacketsAreDatagrams(headers, signal[cut..], pkt, sequence + 1);
    }
  }
}
