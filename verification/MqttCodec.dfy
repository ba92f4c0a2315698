/** Packet framing of the device simulator's MQTT 3.1.1 client: fixed header, remaining length, UTF-8
    strings with a two-byte length, and PUBLISH bodies. */
module MqttCodec {
  import opened Basics

  type Byte = b: int | 0 <= b < 256

  const MAX_PACKET := 4 * 1024 * 1024
  const PUBLISH: Byte := 3

  datatype Packet = Packet(typ: Byte, flags: Byte, body: seq<Byte>)

  datatype Message = Message(topic: seq<Byte>, payload: seq<Byte>, qos: Byte, pid: nat)

  datatype ReadError = Eof | Malformed | TooLarge

  datatype Parsed<T> = Got(value: T) | Bad(error: ReadError)

  // ---- encoding

  /** Section 2.2.3: seven bits a byte, least significant first, the top bit says that more follow. */
  function RemainingLength(n: nat): seq<Byte> {
    if n < 128 then [n] else [n % 128 + 128] + RemainingLength(n / 128)
  }

  method EncodeRemainingLength(n: nat) returns (out: seq<Byte>)
    ensures out == RemainingLength(n)
  {
    out := [];
    var m := n;
    while true
      invariant out + RemainingLength(m) == RemainingLength(n)
      decreases m
    {
      var b := m % 128;
      var more := m / 128;
      if more > 0 {
        b := b + 128;
      }
      assert RemainingLength(m) == if more == 0 then [b] else [b] + RemainingLength(more);
      assert out + ([b] + RemainingLength(more)) == (out + [b]) + RemainingLength(more);
      out, m := out + [b], more;
      if m == 0 {
        return out;
      }
    }
  }

  function Uint16(n: nat): (b: seq<Byte>)
    ensures |b| == 2
  {
    [n / 256 % 256, n % 256]
  }

  /** Section 1.5.3; the length is truncated to 16 bits. */
  function EncodeString(s: seq<Byte>): seq<Byte> {
    Uint16(|s|) + s
  }

  function Frame(typ: Byte, flags: Byte, body: seq<Byte>): seq<Byte> {
    [typ * 16 % 256 + flags % 16] + RemainingLength(|body|) + body
  }

  function PublishBody(topic: seq<Byte>, qos: Byte, pid: nat, payload: seq<Byte>): seq<Byte> {
    EncodeString(topic) + (if qos > 0 then Uint16(pid) else []) + payload
  }

  function PublishPacket(topic: seq<Byte>, qos: Byte, pid: nat, payload: seq<Byte>): seq<Byte> {
    Frame(PUBLISH, qos * 2 % 256, PublishBody(topic, qos, pid, payload))
  }

  // ---- decoding

  /** The length at the start of s in at most k bytes, and the bytes used. */
  function DecodeLength(s: seq<Byte>, k: nat): (r: (Parsed<nat>, nat))
    ensures r.1 <= |s| && r.1 <= k
    ensures r.0.Got? ==> r.1 > 0
  {
    if k == 0 then (Bad(Malformed), 0)
    else if s == [] then (Bad(Eof), 0)
    else if s[0] < 128 then (Got(s[0]), 1)
    else
      var tail := DecodeLength(s[1..], k - 1);
      match tail.0
      case Got(n) => (Got(s[0] - 128 + 128 * n), tail.1 + 1)
      case Bad(e) => (Bad(e), tail.1 + 1)
  }

  /** What a length found later in the stream is worth, with n and the multiplier read so far. */
  function Scaled(n: nat, mult: nat, t: Parsed<nat>): Parsed<nat> {
    match t
    case Got(m) => Got(n + m * mult)
    case Bad(e) => Bad(e)
  }

  lemma DecodeStep(s: seq<Byte>, k: nat, n: nat, mult: nat)
    requires s != [] && k > 0
    ensures s[0] < 128 ==> DecodeLength(s, k).1 == 1 && Scaled(n, mult, DecodeLength(s, k).0) == Got(n + s[0] as int * mult)
    ensures s[0] >= 128 ==>
              && DecodeLength(s, k).1 == 1 + DecodeLength(s[1..], k - 1).1
              && Scaled(n, mult, DecodeLength(s, k).0)
              == Scaled(n + (s[0] as int - 128) * mult, mult * 128, DecodeLength(s[1..], k - 1).0)
  {
    if s[0] >= 128 && DecodeLength(s[1..], k - 1).0.Got? {
      var low, m := s[0] as int - 128, DecodeLength(s[1..], k - 1).0.value;
      assert (low + 128 * m) * mult == low * mult + m * (mult * 128);
    }
  }

  /** After i bytes worth n, with multiplier mult, the rest of the stream decides the whole. */
  predicate Progress(whole: (Parsed<nat>, nat), i: nat, n: nat, mult: nat, rest: seq<Byte>) {
    && i <= 4
    && whole.1 == i + DecodeLength(rest, 4 - i).1
    && whole.0 == Scaled(n, mult, DecodeLength(rest, 4 - i).0)
  }

  lemma ProgressStep(whole: (Parsed<nat>, nat), i: nat, n: nat, mult: nat, rest: seq<Byte>, b: int)
    requires Progress(whole, i, n, mult, rest) && i < 4 && rest != [] && rest[0] == b
    ensures b < 128 ==> whole.0 == Got(n + b * mult) && whole.1 == i + 1
    ensures b >= 128 ==> Progress(whole, i + 1, n + (b - 128) * mult, mult * 128, rest[1..])
  {
    DecodeStep(rest, 4 - i, n, mult);
  }

  /** The packet at the start of s, and the bytes used. */
  function ReadPacket(s: seq<Byte>): (r: (Parsed<Packet>, nat))
    ensures r.1 <= |s|
  {
    if s == [] then (Bad(Eof), 0)
    else
      var head := DecodeLength(s[1..], 4);
      match head.0
      case Bad(e) => (Bad(e), head.1 + 1)
      case Got(n) =>
        var start := head.1 + 1;
        if n > MAX_PACKET then (Bad(TooLarge), start)
        else if |s| - start < n then (Bad(Eof), |s|)
        else (Got(Packet(s[0] / 16, s[0] % 16, s[start..start + n])), start + n)
  }

  function ReadString(b: seq<Byte>): Parsed<(seq<Byte>, seq<Byte>)> {
    if |b| < 2 then Bad(Malformed)
    else
      var n := b[0] as int * 256 + b[1] as int;
      if |b| < 2 + n then Bad(Malformed) else Got((b[2..2 + n], b[2 + n..]))
  }

  function ParsePublish(p: Packet): Parsed<Message> {
    match ReadString(p.body)
    case Bad(e) => Bad(e)
    case Got((topic, rest)) =>
      var qos := p.flags / 2 % 4;
      if qos == 0 then Got(Message(topic, rest, 0, 0))
      else if |rest| < 2 then Bad(Malformed)
      else Got(Message(topic, rest[2..], qos, rest[0] as int * 256 + rest[1] as int))
  }

  /** A buffered connection: data is all that will ever arrive, pos what has been consumed. */
  class Reader {
    const data: seq<Byte>
    var pos: nat

    ghost predicate Valid()
      reads this
    {
      pos <= |data|
    }

    constructor (data: seq<Byte>)
      ensures Valid() && this.data == data && pos == 0
    {
      this.data := data;
      pos := 0;
    }

    method ReadByte() returns (r: Parsed<Byte>)
      requires Valid()
      modifies this
      ensures Valid()
      ensures old(pos) < |data| ==> r == Got(data[old(pos)]) && pos == old(pos) + 1
      ensures old(pos) == |data| ==> r == Bad(Eof) && pos == old(pos)
    {
      if pos == |data| {
        return Bad(Eof);
      }
      r := Got(data[pos]);
      pos := pos + 1;
    }

    method ReadFull(n: nat) returns (r: Parsed<seq<Byte>>)
      requires Valid()
      modifies this
      ensures Valid()
      ensures old(pos) + n <= |data| ==> r == Got(data[old(pos)..old(pos) + n]) && pos == old(pos) + n
      ensures old(pos) + n > |data| ==> r == Bad(Eof) && pos == |data|
    {
      if pos + n > |data| {
        pos := |data|;
        return Bad(Eof);
      }
      r := Got(data[pos..pos + n]);
      pos := pos + n;
    }

    method ReadLength() returns (r: Parsed<nat>)
      requires Valid()
      modifies this
      ensures Valid()
      ensures r == DecodeLength(data[old(pos)..], 4).0
      ensures pos == old(pos) + DecodeLength(data[old(pos)..], 4).1
    {
      var n, mult, i := 0, 1, 0;
      ghost var whole := DecodeLength(data[pos..], 4);
      while i < 4
        invariant 0 <= i <= 4 && 0 <= n && 0 <= mult && Valid() && old(pos) + i == pos
        invariant Progress(whole, i, n, mult, data[pos..])
      {
        ghost var here := data[pos..];
        var r := ReadByte();
        if r.Bad? {
          return Bad(r.error);
        }
        var b: int := r.value;
        assert here[1..] == data[pos..] && here[0] == b;
        ProgressStep(whole, i, n, mult, here, b);
        if b < 128 {
          return Got(n + b * mult);
        }
        n, mult := n + (b - 128) * mult, mult * 128;
        i := i + 1;
      }
      return Bad(Malformed);
    }

    method Read() returns (r: Parsed<Packet>)
      requires Valid()
      modifies this
      ensures Valid()
      ensures r == ReadPacket(data[old(pos)..]).0
      ensures pos == old(pos) + ReadPacket(data[old(pos)..]).1
    {
      ghost var here := data[pos..];
      var h := ReadByte();
      if h.Bad? {
        return Bad(h.error);
      }
      assert here[1..] == data[pos..];
      var n := ReadLength();
      if n.Bad? {
        return Bad(n.error);
      }
      if n.value > MAX_PACKET {
        return Bad(TooLarge);
      }
      ghost var start := DecodeLength(here[1..], 4).1 + 1;
      assert pos == old(pos) + start;
      ghost var from := pos;
      var body := ReadFull(n.value);
      if body.Bad? {
        return Bad(body.error);
      }
      assert data[from..from + n.value] == here[start..start + n.value];
      return Got(Packet(h.value / 16, h.value % 16, body.value));
    }
  }

  // ---- framing

  function Pow128(k: nat): nat {
    if k == 0 then 1 else 128 * Pow128(k - 1)
  }

  lemma {:induction false} PowAtLeast(k: nat)
    requires k > 0
    ensures Pow128(k) >= 128
  {
    if k > 1 {
      PowAtLeast(k - 1);
    }
  }

  /** Decoding in at most k bytes inverts the encoding exactly for the lengths below 128^k. */
  lemma {:induction false} LengthRoundTrip(n: nat, k: nat, rest: seq<Byte>)
    requires k > 0
    ensures n < Pow128(k) ==> DecodeLength(RemainingLength(n) + rest, k) == (Got(n), |RemainingLength(n)|)
    ensures n >= Pow128(k) ==> DecodeLength(RemainingLength(n) + rest, k).0 == Bad(Malformed)
  {
    PowAtLeast(k);
    if n >= 128 {
      assert (RemainingLength(n) + rest)[1..] == RemainingLength(n / 128) + rest;
      if k == 1 {
        assert Pow128(1) == 128;
      } else {
        LengthRoundTrip(n / 128, k - 1, rest);
      }
    }
  }

  lemma FourBytes()
    ensures Pow128(4) == 0x1000_0000
  {
    assert Pow128(2) == 16384;
  }

  lemma HeaderByte(typ: Byte, flags: Byte)
    ensures var h := typ * 16 % 256 + flags % 16;
            h / 16 == typ % 16 && h % 16 == flags % 16
  {
    assert typ * 16 % 256 == 16 * (typ % 16);
  }

  lemma FrameParts(typ: Byte, flags: Byte, body: seq<Byte>, rest: seq<Byte>)
    ensures var s := Frame(typ, flags, body) + rest;
            var used := |RemainingLength(|body|)|;
            && |Frame(typ, flags, body)| == 1 + used + |body| <= |s|
            && s[0] == typ * 16 % 256 + flags % 16
            && s[1..] == RemainingLength(|body|) + (body + rest)
            && s[1 + used..1 + used + |body|] == body
  {
  }

  lemma ReadPacketOf(s: seq<Byte>, n: nat, used: nat)
    requires s != [] && DecodeLength(s[1..], 4) == (Got(n), used)
    ensures n > MAX_PACKET ==> ReadPacket(s).0.Bad?
    ensures n <= MAX_PACKET && 1 + used + n <= |s| ==>
              ReadPacket(s) == (Got(Packet(s[0] / 16, s[0] % 16, s[1 + used..1 + used + n])), 1 + used + n)
  {
  }

  /** A framed packet is read back, and nothing after it is consumed, exactly when its body fits. */
  lemma FrameRead(typ: Byte, flags: Byte, body: seq<Byte>, rest: seq<Byte>)
    ensures |body| <= MAX_PACKET ==>
              ReadPacket(Frame(typ, flags, body) + rest) == (Got(Packet(typ % 16, flags % 16, body)), |Frame(typ, flags, body)|)
    ensures ReadPacket(Frame(typ, flags, body) + rest).0.Got? <==> |body| <= MAX_PACKET
  {
    FrameParts(typ, flags, body, rest);
    LengthRoundTrip(|body|, 4, body + rest);
    FourBytes();
    if |body| < 0x1000_0000 {
      ReadPacketOf(Frame(typ, flags, body) + rest, |body|, |RemainingLength(|body|)|);
      HeaderByte(typ, flags);
    }
  }

  predicate Framable(p: Packet) {
    p.typ < 16 && p.flags < 16 && |p.body| <= MAX_PACKET
  }

  predicate AllFramable(ps: seq<Packet>) {
    forall i :: 0 <= i < |ps| ==> Framable(ps[i])
  }

  function FrameOf(p: Packet): seq<Byte> {
    Frame(p.typ, p.flags, p.body)
  }

  function Stream(ps: seq<Packet>): seq<Byte> {
    if ps == [] then [] else FrameOf(ps[0]) + Stream(ps[1..])
  }

  /** Up to k packets from the start of s, and the bytes used. */
  function ReadMany(s: seq<Byte>, k: nat): (r: (seq<Packet>, nat))
    ensures r.1 <= |s|
  {
    if k == 0 then ([], 0)
    else
      var one := ReadPacket(s);
      match one.0
      case Bad(_) => ([], one.1)
      case Got(p) =>
        var more := ReadMany(s[one.1..], k - 1);
        ([p] + more.0, one.1 + more.1)
  }

  lemma ReadOneMore(p: Packet, tail: seq<Byte>, k: nat)
    requires Framable(p) && k > 0
    ensures ReadMany(FrameOf(p) + tail, k)
         == ([p] + ReadMany(tail, k - 1).0, |FrameOf(p)| + ReadMany(tail, k - 1).1)
  {
    FrameRead(p.typ, p.flags, p.body, tail);
    assert (FrameOf(p) + tail)[|FrameOf(p)|..] == tail;
  }

  lemma Regroup<T>(a: seq<T>, b: seq<T>, c: seq<T>)
    ensures a + b + c == a + (b + c)
  {
  }

  lemma Recons<T>(s: seq<T>, t: seq<T>)
    requires s != []
    ensures [s[0]] + (s[1..] + t) == s + t
  {
    Regroup([s[0]], s[1..], t);
    assert [s[0]] + s[1..] == s;
  }

  predicate ReadsAs(wire: seq<Byte>, k: nat, ps: seq<Packet>, used: int) {
    ReadMany(wire, k).0 == ps && ReadMany(wire, k).1 == used
  }

  /** more is what follows the packets ps in the stream wire, which ends with rest. */
  lemma {:induction false} ReadThrough(ps: seq<Packet>, rest: seq<Byte>, wire: seq<Byte>, k: nat, more: (seq<Packet>, nat))
    requires AllFramable(ps)
    requires k >= |ps| && wire == Stream(ps) + rest && more == ReadMany(rest, k - |ps|)
    ensures ReadsAs(wire, k, ps + more.0, |wire| - |rest| + more.1)
  {
    if ps == [] {
      ReadNone(rest, wire, k, more);
    } else {
      var later := Stream(ps[1..]) + rest;
      ReadThrough(ps[1..], rest, later, k - 1, more);
      ReadFirst(ps, rest, wire, later, k, more);
    }
  }

  lemma ReadNone(rest: seq<Byte>, wire: seq<Byte>, k: nat, more: (seq<Packet>, nat))
    requires wire == [] + rest && more == ReadMany(rest, k)
    ensures ReadsAs(wire, k, [] + more.0, |wire| - |rest| + more.1)
  {
    assert wire == rest && [] + more.0 == more.0;
  }

  lemma ReadFirst(ps: seq<Packet>, rest: seq<Byte>, wire: seq<Byte>, later: seq<Byte>, k: nat, more: (seq<Packet>, nat))
    requires ps != [] && Framable(ps[0]) && k > 0 && wire == Stream(ps) + rest && later == Stream(ps[1..]) + rest
    requires ReadsAs(later, k - 1, ps[1..] + more.0, |later| - |rest| + more.1)
    ensures ReadsAs(wire, k, ps + more.0, |wire| - |rest| + more.1)
  {
    StreamSplit(ps, rest);
    ReadStep(ps[0], wire, later, k, ps[1..] + more.0, |later| - |rest| + more.1);
    Recons(ps, more.0);
  }

  lemma ReadStep(p: Packet, wire: seq<Byte>, later: seq<Byte>, k: nat, ps: seq<Packet>, used: int)
    requires Framable(p) && k > 0 && wire == FrameOf(p) + later && ReadsAs(later, k - 1, ps, used)
    ensures ReadsAs(wire, k, [p] + ps, |wire| - |later| + used)
  {
    ReadOneMore(p, later, k);
  }

  lemma StreamSplit(ps: seq<Packet>, rest: seq<Byte>)
    requires ps != []
    ensures Stream(ps) + rest == FrameOf(ps[0]) + (Stream(ps[1..]) + rest)
  {
    Regroup(FrameOf(ps[0]), Stream(ps[1..]), rest);
  }

  /** Reading a concatenation of framed packets returns exactly those packets, and leaves the rest. */
  lemma StreamRoundTrip(ps: seq<Packet>, rest: seq<Byte>)
    requires AllFramable(ps)
    ensures ReadMany(Stream(ps) + rest, |ps|) == (ps, |Stream(ps)|)
  {
    ReadThrough(ps, rest, Stream(ps) + rest, |ps|, ([], 0));
    assert ps + [] == ps;
  }

  /** Two different packet sequences never have the same bytes on the wire. */
  lemma StreamInjective(ps: seq<Packet>, qs: seq<Packet>)
    requires AllFramable(ps)
    requires AllFramable(qs)
    requires Stream(ps) == Stream(qs)
    ensures ps == qs
  {
    var k := |ps| + |qs|;
    var wire := Stream(ps) + [];
    ReadThrough(ps, [], wire, k, ReadMany([], k - |ps|));
    ReadThrough(qs, [], wire, k, ReadMany([], k - |qs|));
    assert ReadMany([], k - |ps|).0 == [] && ReadMany([], k - |qs|).0 == [];
    assert ps + [] == ps && qs + [] == qs;
  }

  /** Whatever was read can be framed and read again. */
  lemma ReadIsFramable(s: seq<Byte>, rest: seq<Byte>)
    requires ReadPacket(s).0.Got?
    ensures Framable(ReadPacket(s).0.value)
    ensures ReadPacket(FrameOf(ReadPacket(s).0.value) + rest).0 == ReadPacket(s).0
  {
    var p := ReadPacket(s).0.value;
    FrameRead(p.typ, p.flags, p.body, rest);
  }

  // ---- PUBLISH

  lemma Uint16RoundTrip(n: nat)
    ensures Uint16(n)[0] as int * 256 + Uint16(n)[1] as int == n % 65536
  {
  }

  /** The string comes back truncated to its 16-bit length. */
  lemma StringRead(s: seq<Byte>, rest: seq<Byte>)
    ensures ReadString(EncodeString(s) + rest) == Got((s[..|s| % 65536], s[|s| % 65536..] + rest))
  {
    var b := EncodeString(s) + rest;
    var n := |s| % 65536;
    Uint16RoundTrip(|s|);
    assert b[0] == Uint16(|s|)[0] && b[1] == Uint16(|s|)[1];
    assert b[2..2 + n] == s[..n];
    assert b[2 + n..] == s[n..] + rest;
  }

  lemma PublishParsed(p: Packet, topic: seq<Byte>, rest: seq<Byte>)
    requires ReadString(p.body) == Got((topic, rest))
    ensures p.flags / 2 % 4 == 0 ==> ParsePublish(p) == Got(Message(topic, rest, 0, 0))
    ensures ParsePublish(p).Got? ==> ParsePublish(p).value.topic == topic && ParsePublish(p).value.qos == p.flags / 2 % 4
  {
  }

  lemma PublishParsedWithPid(p: Packet, topic: seq<Byte>, pid: nat, payload: seq<Byte>)
    requires ReadString(p.body) == Got((topic, Uint16(pid) + payload)) && pid < 65536 && p.flags / 2 % 4 != 0
    ensures ParsePublish(p) == Got(Message(topic, payload, p.flags / 2 % 4, pid))
  {
    var rest := Uint16(pid) + payload;
    Uint16RoundTrip(pid);
    assert rest[0] == Uint16(pid)[0] && rest[1] == Uint16(pid)[1] && rest[2..] == payload;
  }

  lemma BodyString(topic: seq<Byte>, qos: Byte, pid: nat, payload: seq<Byte>)
    ensures ReadString(PublishBody(topic, qos, pid, payload))
         == Got((topic[..|topic| % 65536], topic[|topic| % 65536..] + ((if qos > 0 then Uint16(pid) else []) + payload)))
  {
    var tail := (if qos > 0 then Uint16(pid) else []) + payload;
    assert PublishBody(topic, qos, pid, payload) == EncodeString(topic) + tail;
    StringRead(topic, tail);
  }

  function Sent(topic: seq<Byte>, qos: Byte, pid: nat, payload: seq<Byte>): Message {
    Message(topic, payload, qos, if qos == 0 then 0 else pid)
  }

  lemma QosBits(qos: Byte)
    ensures qos * 2 % 256 % 16 == qos * 2 % 16
    ensures qos * 2 % 16 / 2 % 4 == qos % 4
  {
    var high, low := qos / 8, qos % 8;
    assert qos * 2 == 16 * high + 2 * low;
    assert qos * 2 % 16 == 2 * low;
  }

  lemma BodyReadExact(topic: seq<Byte>, qos: Byte, pid: nat, payload: seq<Byte>)
    requires pid < 65536 && |topic| < 65536 && qos < 4
    ensures ParsePublish(Packet(PUBLISH, qos * 2 % 16, PublishBody(topic, qos, pid, payload)))
         == Got(Sent(topic, qos, pid, payload))
  {
    var p := Packet(PUBLISH, qos * 2 % 16, PublishBody(topic, qos, pid, payload));
    var rest := (if qos > 0 then Uint16(pid) else []) + payload;
    BodyString(topic, qos, pid, payload);
    assert topic[..|topic|] == topic && topic[|topic|..] + rest == rest;
    QosBits(qos);
    if qos == 0 {
      assert rest == payload;
      PublishParsed(p, topic, rest);
    } else {
      PublishParsedWithPid(p, topic, pid, payload);
    }
  }

  lemma BodyReadWrong(topic: seq<Byte>, qos: Byte, pid: nat, payload: seq<Byte>)
    requires |topic| >= 65536 || qos >= 4
    ensures ParsePublish(Packet(PUBLISH, qos * 2 % 16, PublishBody(topic, qos, pid, payload)))
         != Got(Sent(topic, qos, pid, payload))
  {
    var p := Packet(PUBLISH, qos * 2 % 16, PublishBody(topic, qos, pid, payload));
    var cut := |topic| % 65536;
    var rest := topic[cut..] + ((if qos > 0 then Uint16(pid) else []) + payload);
    BodyString(topic, qos, pid, payload);
    QosBits(qos);
    PublishParsed(p, topic[..cut], rest);
    assert |topic| >= 65536 ==> |topic[..cut]| != |topic|;
  }

  /** What a peer makes of the bytes: one packet read, then parsed as PUBLISH. */
  function Receive(s: seq<Byte>): (Parsed<Message>, nat) {
    var r := ReadPacket(s);
    match r.0
    case Bad(e) => (Bad(e), r.1)
    case Got(p) => (ParsePublish(p), r.1)
  }

  lemma ReceiveOf(s: seq<Byte>)
    ensures Receive(s).1 == ReadPacket(s).1
    ensures Receive(s).0 == if ReadPacket(s).0.Got? then ParsePublish(ReadPacket(s).0.value) else Bad(ReadPacket(s).0.error)
  {
  }

  lemma PublishReceived(topic: seq<Byte>, qos: Byte, pid: nat, payload: seq<Byte>, rest: seq<Byte>)
    ensures var wire := PublishPacket(topic, qos, pid, payload);
            var body := PublishBody(topic, qos, pid, payload);
            if |body| <= MAX_PACKET
            then Receive(wire + rest) == (ParsePublish(Packet(PUBLISH, qos * 2 % 16, body)), |wire|)
            else Receive(wire + rest).0.Bad?
  {
    var body := PublishBody(topic, qos, pid, payload);
    QosBits(qos);
    FrameRead(PUBLISH, qos * 2 % 256, body, rest);
    ReceiveOf(PublishPacket(topic, qos, pid, payload) + rest);
  }

  /** Section 3.3: the topic, the payload, the QoS and, above QoS 0, the packet identifier survive
      exactly when the topic has at most 65535 bytes, the QoS fits two bits and the body fits. */
  lemma PublishRoundTrip(topic: seq<Byte>, qos: Byte, pid: nat, payload: seq<Byte>, rest: seq<Byte>)
    requires pid < 65536
    ensures Receive(PublishPacket(topic, qos, pid, payload) + rest)
         == (Got(Sent(topic, qos, pid, payload)), |PublishPacket(topic, qos, pid, payload)|)
         <==> |topic| < 65536 && qos < 4 && |PublishBody(topic, qos, pid, payload)| <= MAX_PACKET
  {
    PublishReceived(topic, qos, pid, payload, rest);
    if |topic| < 65536 && qos < 4 {
      BodyReadExact(topic, qos, pid, payload);
    } else {
      BodyReadWrong(topic, qos, pid, payload);
    }
  }

  // ---- the bytes on the wire

  /** Section 2.2.3: byte i holds the i-th group of seven bits, the least significant first, with the
      top bit on all but the last; and there are no more bytes than the number needs. */
  lemma {:induction false} LengthBytes(n: nat, i: nat)
    requires i < |RemainingLength(n)|
    ensures Pow128(i) > 0
    ensures RemainingLength(n)[i] as int
         == n / Pow128(i) % 128 + if i < |RemainingLength(n)| - 1 then 0x80 else 0
    ensures n < Pow128(|RemainingLength(n)|)
    ensures |RemainingLength(n)| > 1 ==> Pow128(|RemainingLength(n)| - 1) <= n
  {
    PowPositive(i);
    if n >= 128 {
      LengthBytes(n / 128, if i == 0 then 0 else i - 1);
      if i > 0 {
        PowPositive(i - 1);
        DivideTwice(n, 128, Pow128(i - 1), Pow128(i), n / 128, n % 128);
      }
    }
  }

  lemma {:induction false} PowPositive(k: nat)
    ensures Pow128(k) > 0
  {
    if k > 0 {
      PowPositive(k - 1);
    }
  }

  /** The number that the bytes up to the first one without the top bit stand for. */
  function LengthValue(s: seq<Byte>): nat {
    if s == [] then 0 else s[0] as int % 128 + 128 * LengthValue(s[1..])
  }

  predicate EndsAt(s: seq<Byte>, j: nat) {
    j < |s| && s[j] < 128 && forall i :: 0 <= i < j ==> s[i] >= 128
  }

  /** A length is read up to its first byte below 128, which must be among the first k. */
  lemma {:induction false} DecodeMeans(s: seq<Byte>, k: nat, j: nat)
    requires EndsAt(s, j)
    ensures j < k ==> DecodeLength(s, k) == (Got(LengthValue(s[..j + 1])), j + 1)
    ensures k <= j ==> DecodeLength(s, k) == (Bad(Malformed), k)
  {
    if j == 0 {
      assert s[..1][1..] == [];
    } else if k > 0 {
      assert EndsAt(s[1..], j - 1) by {
        assert forall i :: 0 <= i < j - 1 ==> s[1..][i] == s[i + 1];
      }
      DecodeMeans(s[1..], k - 1, j - 1);
      assert s[..j + 1][1..] == s[1..][..j];
    }
  }

  /** With no such byte there is no length: too many bytes, or too few have arrived. */
  lemma {:induction false} DecodeFails(s: seq<Byte>, k: nat)
    requires forall i :: 0 <= i < |s| ==> s[i] >= 128
    ensures DecodeLength(s, k) == if k <= |s| then (Bad(Malformed), k) else (Bad(Eof), |s|)
  {
    if k > 0 && s != [] {
      DecodeFails(s[1..], k - 1);
    }
  }

  /** A frame is at least two bytes: the type in the upper and the flags in the lower half of the first,
      then the length, then the body; only the limit of 4 MiB, a length of more than four bytes or a
      missing byte keeps a reader from it. */
  lemma ReadMeans(s: seq<Byte>, j: nat)
    requires s != [] && EndsAt(s[1..], j)
    ensures var n := LengthValue(s[1..j + 2]);
            && (j >= 4 ==> ReadPacket(s).0 == Bad(Malformed))
            && (j < 4 && n > 4_194_304 ==> ReadPacket(s).0 == Bad(TooLarge))
            && (j < 4 && n <= 4_194_304 && |s| < j + 2 + n ==> ReadPacket(s) == (Bad(Eof), |s|))
            && (j < 4 && n <= 4_194_304 && |s| >= j + 2 + n ==>
                  && ReadPacket(s).0.Got?
                  && 16 * ReadPacket(s).0.value.typ as int + ReadPacket(s).0.value.flags as int == s[0] as int
                  && ReadPacket(s).0.value.flags < 16
                  && ReadPacket(s).0.value.body == s[j + 2..j + 2 + n]
                  && ReadPacket(s).1 == j + 2 + n)
  {
    DecodeMeans(s[1..], 4, j);
    assert s[1..][..j + 1] == s[1..j + 2];
  }

  /** Sections 3.3.1 and 3.3.2: type 3 with the QoS in bits 1 and 2, the topic behind its big-endian
      length, the packet identifier only above QoS 0, then the payload. */
  lemma PublishWire(topic: seq<Byte>, qos: Byte, pid: nat, payload: seq<Byte>)
    requires |topic| < 0x1_0000 && qos < 4 && pid < 0x1_0000
    ensures PublishPacket(topic, qos, pid, payload)[0] as int == 0x30 + 2 * qos as int
    ensures var b := PublishBody(topic, qos, pid, payload);
            var t := |topic| + 2;
            && |b| == t + (if qos > 0 then 2 else 0) + |payload|
            && b[0] as int * 0x100 + b[1] as int == |topic| && b[2..t] == topic
            && (qos > 0 ==> b[t] as int * 0x100 + b[t + 1] as int == pid)
            && b[if qos > 0 then t + 2 else t..] == payload
  {
    Uint16RoundTrip(|topic|);
    Uint16RoundTrip(pid);
    PublishBytes(topic, if qos > 0 then Uint16(pid) else [], payload);
  }

  lemma PublishBytes(topic: seq<Byte>, id: seq<Byte>, payload: seq<Byte>)
    ensures var b := EncodeString(topic) + id + payload;
            var t := |topic| + 2;
            && |b| == t + |id| + |payload| && b[..2] == Uint16(|topic|) && b[0] == Uint16(|topic|)[0] && b[1] == Uint16(|topic|)[1]
            && b[2..t] == topic && b[t..t + |id|] == id && b[t + |id|..] == payload
            && (|id| == 2 ==> b[t] == id[0] && b[t + 1] == id[1])
  {
    var head := Uint16(|topic|);
    var b := EncodeString(topic) + id + payload;
    var t := |topic| + 2;
    assert b == head + (topic + (id + payload));
    assert b == (head + topic) + (id + payload);
    assert b[t..t + |id|] == id;
    assert b[2..t] == topic;
  }
}
