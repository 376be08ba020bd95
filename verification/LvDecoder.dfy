/** Length-value framing: four big-endian length bytes, counted in the length, then the body. */
module LvDecoder {
  import opened Common

  // ---------- the length field ----------

  function BigEndian(b: Bytes): nat
    requires |b| == 4
  {
    (b[0] as int * 256 + b[1] as int) * 65536 + (b[2] as int * 256 + b[3] as int)
  }

  function ToBigEndian(n: nat): (b: Bytes)
    requires n < 0x1_0000_0000
    ensures |b| == 4
  {
    [(n / 0x100_0000) as Byte, (n / 0x1_0000 % 256) as Byte, (n / 256 % 256) as Byte, (n % 256) as Byte]
  }

  lemma Shift8(n: nat)
    ensures n / 256 / 256 == n / 0x1_0000
  {
  }

  lemma Shift16(n: nat)
    ensures n / 0x1_0000 / 256 == n / 0x100_0000
  {
  }

  lemma BigEndianRoundTrip(n: nat)
    requires n < 0x1_0000_0000
    ensures BigEndian(ToBigEndian(n)) == n
    ensures ToBigEndian(n)[0] as int == n / 0x100_0000 && ToBigEndian(n)[3] as int == n % 256
  {
    var h, m := n / 0x1_0000, n / 256;
    assert h == n / 0x100_0000 * 256 + h % 256 by { Shift16(n); }
    assert m == h * 256 + m % 256 by { Shift8(n); }
  }

  // ---------- the whole-stream parse ----------

  datatype Parsed = Parsed(packets: seq<Bytes>, rest: Bytes)

  /** Lengths the decoder can serve: a body of at least one byte, and a block the pool can give. */
  predicate Servable(n: nat, max: nat) { 4 < n <= max }

  /** The packets of a stream, and what is left: an incomplete packet, or a length it cannot get past. */
  function Parse(s: Bytes, max: nat): (r: Parsed)
    ensures |r.rest| <= |s|
    decreases |s|
  {
    if |s| < 4 then Parsed([], s)
    else
      var n := BigEndian(s[..4]);
      if !Servable(n, max) || |s| < n then Parsed([], s)
      else
        var r := Parse(s[n..], max);
        Parsed([s[..n]] + r.packets, r.rest)
  }

  /** The stream starts with a whole packet of `n` bytes. */
  predicate Starts(s: Bytes, n: nat, max: nat) {
    |s| >= 4 && BigEndian(s[..4]) == n && Servable(n, max) && |s| >= n
  }

  lemma ParseCons(s: Bytes, t: Bytes, n: nat, max: nat)
    requires Starts(s, n, max)
    ensures var r := Parse(s[n..] + t, max); Parse(s + t, max) == Parsed([s[..n]] + r.packets, r.rest)
  {
    var u := s + t;
    assert u[..4] == s[..4] && u[..n] == s[..n] && u[n..] == s[n..] + t;
  }

  /** Parsing on from what is left of a prefix. */
  lemma {:induction false} ParseExtends(s: Bytes, t: Bytes, max: nat)
    ensures var r := Parse(s, max); var r' := Parse(r.rest + t, max);
      Parse(s + t, max) == Parsed(r.packets + r'.packets, r'.rest)
    decreases |s|
  {
    if |s| >= 4 && Starts(s, BigEndian(s[..4]), max) {
      var n := BigEndian(s[..4]);
      ParseCons(s, t, n, max);
      ParseExtends(s[n..], t, max);
      Regroup([s[..n]], Parse(s[n..], max).packets, Parse(Parse(s, max).rest + t, max).packets);
    } else {
      assert [] + Parse(s + t, max).packets == Parse(s + t, max).packets;
    }
  }

  /** What is left yields no packet. */
  lemma {:induction false} RestIsStuck(s: Bytes, max: nat)
    ensures var r := Parse(s, max).rest; Parse(r, max) == Parsed([], r)
    decreases |s|
  {
    if |s| >= 4 && Servable(BigEndian(s[..4]), max) && |s| >= BigEndian(s[..4]) {
      RestIsStuck(s[BigEndian(s[..4])..], max);
    }
  }

  // ---------- encoding ----------

  function Frame(body: Bytes): Bytes
    requires |body| + 4 < 0x1_0000_0000
  {
    ToBigEndian(|body| + 4) + body
  }

  predicate Encodable(bodies: seq<Bytes>) {
    forall i :: 0 <= i < |bodies| ==> |bodies[i]| + 4 < 0x1_0000_0000
  }

  function Frames(bodies: seq<Bytes>): (fs: seq<Bytes>)
    requires Encodable(bodies)
    ensures |fs| == |bodies|
  {
    if bodies == [] then [] else [Frame(bodies[0])] + Frames(bodies[1..])
  }

  function Encode(bodies: seq<Bytes>): Bytes
    requires Encodable(bodies)
  {
    Flatten(Frames(bodies))
  }

  /** How many bodies come before the first one that is empty or too large. */
  function Served(bodies: seq<Bytes>, max: nat): (k: nat)
    ensures k <= |bodies|
    ensures forall i :: 0 <= i < k ==> 0 < |bodies[i]| && |bodies[i]| + 4 <= max
    ensures k < |bodies| ==> bodies[k] == [] || |bodies[k]| + 4 > max
  {
    if bodies == [] || !Servable(|bodies[0]| + 4, max) then 0 else 1 + Served(bodies[1..], max)
  }

  lemma FramesTake(bodies: seq<Bytes>, k: nat)
    requires Encodable(bodies) && bodies != [] && k < |bodies|
    ensures Frames(bodies)[..k + 1] == [Frame(bodies[0])] + Frames(bodies[1..])[..k]
  {
    TakeCons(Frame(bodies[0]), Frames(bodies[1..]), k);
  }

  /** The first frame of an encoded sequence. */
  lemma FirstFrame(bodies: seq<Bytes>)
    requires Encodable(bodies) && bodies != []
    ensures var s, n := Encode(bodies), |bodies[0]| + 4;
      n <= |s| && BigEndian(s[..4]) == n && s[..n] == Frame(bodies[0]) && s[n..] == Encode(bodies[1..])
  {
    var f, rest, n := Frame(bodies[0]), Encode(bodies[1..]), |bodies[0]| + 4;
    var s := f + rest;
    assert s == Encode(bodies);
    BigEndianRoundTrip(n);
    assert s[..4] == ToBigEndian(n) && s[..n] == f && s[n..] == rest;
  }

  /** Decoding an encoded sequence returns its packets up to the first one that cannot be served. */
  lemma {:induction false} DecodeEncode(bodies: seq<Bytes>, max: nat)
    requires Encodable(bodies)
    ensures var k := Served(bodies, max);
      Parse(Encode(bodies), max) == Parsed(Frames(bodies)[..k], Encode(bodies[k..]))
  {
    if bodies != [] {
      FirstFrame(bodies);
      if Servable(|bodies[0]| + 4, max) {
        DecodeEncode(bodies[1..], max);
        var k := Served(bodies[1..], max);
        FramesTake(bodies, k);
        assert bodies[1..][k..] == bodies[k + 1..];
      } else {
        assert bodies[0..] == bodies;
      }
    }
  }

  /** All packets come back exactly when every body is non-empty and fits the largest block. */
  lemma RoundTripIff(bodies: seq<Bytes>, max: nat)
    requires Encodable(bodies)
    ensures Parse(Encode(bodies), max) == Parsed(Frames(bodies), [])
       <==> forall i :: 0 <= i < |bodies| ==> 0 < |bodies[i]| && |bodies[i]| + 4 <= max
  {
    DecodeEncode(bodies, max);
    var k := Served(bodies, max);
    if k == |bodies| {
      assert Frames(bodies)[..k] == Frames(bodies) && Encode(bodies[k..]) == [];
    } else {
      assert |Frames(bodies)[..k]| < |Frames(bodies)|;
    }
  }

  lemma JoinReads(a: Bytes, avail: Bytes, n: nat, m: nat)
    requires n <= |avail| && m <= |avail| - n
    ensures (a + avail[..n]) + avail[n..][..m] == a + avail[..n + m]
  {
    assert avail[..n] + avail[n..][..m] == avail[..n + m];
  }

  // ---------- the decoder ----------

  class BinTcpSocket {
    const max: nat
    var lenField: Bytes
    var recv: Option<Bytes>
    /** A length that is no packet's was read: the source goes on through null or past its block. */
    var broken: bool
    ghost var consumed: Bytes
    ghost var emitted: seq<Bytes>

    /** Bytes read for the packet under construction. */
    function Partial(): Bytes
      reads this
    {
      if recv.Some? then recv.value else lenField
    }

    predicate Complete()
      reads this
    {
      recv.Some? && |recv.value| >= 4 && 4 < BigEndian(recv.value[..4]) == |recv.value|
    }

    /** At every moment the packets handed out are those of the bytes read so far. */
    ghost predicate Valid()
      reads this
    {
      && |lenField| <= 4 && (recv.Some? || broken <==> |lenField| == 4) && !(recv.Some? && broken)
      && (recv.Some? ==> 4 <= |recv.value| <= BigEndian(recv.value[..4]) <= max)
      && (broken ==> BigEndian(lenField) < 4 || BigEndian(lenField) > max)
      && Parse(consumed, max) == if Complete() then Parsed(emitted + [recv.value], []) else Parsed(emitted, Partial())
    }

    constructor (max: nat)
      ensures Valid() && !Complete() && !broken && this.max == max && consumed == [] && emitted == []
    {
      this.max, lenField, recv, broken, consumed, emitted := max, [], None, false, [], [];
    }

    /** Bytes read at the end of an incomplete packet. */
    lemma Extend(t: Bytes)
      requires Valid() && !Complete()
      ensures var r := Parse(Partial() + t, max);
        Parse(consumed + t, max) == Parsed(emitted + r.packets, r.rest)
    {
      ParseExtends(consumed, t, max);
    }

    /** Reads length bytes; tells whether the length is known now. */
    method ReadLength(got: Bytes) returns (known: bool)
      requires Valid() && !Complete() && !broken && recv.None? && 0 < |got| <= 4 - |lenField|
      modifies this
      ensures Valid() && !Complete() && consumed == old(consumed) + got && emitted == old(emitted)
      ensures known <==> recv.Some?
    {
      Extend(got);
      consumed := consumed + got;
      lenField := lenField + got;
      known := false;
      if |lenField| == 4 {
        assert lenField[..4] == lenField;
        var realLen := BigEndian(lenField);
        if realLen < 4 || realLen > max {
          broken := true;
        } else {
          recv := Some(lenField);
          known := true;
        }
      }
    }

    /** Reads body bytes; returns 1 when the packet is complete. */
    method ReadBody(got: Bytes) returns (code: int)
      requires Valid() && !Complete() && recv.Some? && 0 < |got| <= BigEndian(recv.value[..4]) - |recv.value|
      modifies this
      ensures Valid() && consumed == old(consumed) + got && emitted == old(emitted)
      ensures code == (if Complete() then 1 else 0) && recv.Some? && !broken
    {
      Extend(got);
      var b := recv.value + got;
      var n := BigEndian(recv.value[..4]);
      assert b[..4] == recv.value[..4];
      if |b| == n {
        assert b[..n] == b && b[n..] == [];
        assert [b] + [] == [b];
      } else {
        assert emitted + [] == emitted;
      }
      consumed := consumed + got;
      recv := Some(b);
      return if |b| == n then 1 else 0;
    }

    /** One call: `avail` is what the kernel holds, `k1` and `k2` bound the two reads; `n` bytes are taken. */
    method ReadHandler(avail: Bytes, k1: nat, k2: nat) returns (code: int, n: nat)
      requires Valid() && !Complete()
      modifies this
      ensures Valid() && n <= |avail| && consumed == old(consumed) + avail[..n] && emitted == old(emitted)
      ensures code == if Complete() then 1 else 0
      ensures avail != [] && 0 < k1 && 0 < k2 && !old(Dead()) ==> 0 < n
      ensures old(Dead()) ==> Dead()
    {
      n := 0;
      assert consumed + avail[..0] == consumed;
      if broken { return 0, 0; }
      if |lenField| < 4 {
        n := Min(4 - |lenField|, Min(k1, |avail|));
        if n == 0 { return 0, 0; }
        var known := ReadLength(avail[..n]);
        if !known { return 0, n; }
      }
      var m;
      code, m := ReadMore(avail[n..], k2);
      JoinReads(old(consumed), avail, n, m);
      n := n + m;
    }

    /** The second read of a call. */
    method ReadMore(avail: Bytes, k: nat) returns (code: int, m: nat)
      requires Valid() && !Complete() && recv.Some?
      modifies this
      ensures Valid() && m <= |avail| && consumed == old(consumed) + avail[..m] && emitted == old(emitted)
      ensures code == (if Complete() then 1 else 0)
      ensures avail != [] && 0 < k && !old(Dead()) ==> 0 < m
      ensures old(Dead()) ==> Dead()
    {
      var left := BigEndian(recv.value[..4]) - |recv.value|;
      m := Min(left, Min(k, |avail|));
      if m == 0 {
        assert consumed + avail[..0] == consumed;
        assert |recv.value| == 4 ==> recv.value[..4] == recv.value;
        return 0, 0;
      }
      code := ReadBody(avail[..m]);
    }

    /** A length the decoder never gets past: 4 itself stalls it, with any other bad one nothing sound follows. */
    predicate Dead()
      reads this
    {
      broken || (recv.Some? && |recv.value| == 4 && BigEndian(recv.value) == 4)
    }

    /** SocketCallback takes the packet and clears the receive state. */
    method TakePacket() returns (packet: Bytes)
      requires Valid() && Complete()
      modifies this
      ensures Valid() && !Complete() && !broken && consumed == old(consumed)
      ensures packet == old(Partial()) && emitted == old(emitted) + [packet] && Partial() == []
    {
      packet := recv.value;
      recv, lenField := None, [];
      emitted := emitted + [packet];
    }
  }

  /** Behind a length that cannot be served nothing is ever parsed. */
  lemma StuckParse(s: Bytes, t: Bytes, max: nat)
    requires var r := Parse(s, max).rest; |r| == 4 && !Servable(BigEndian(r), max)
    ensures Parse(s + t, max).packets == Parse(s, max).packets
  {
    ParseExtends(s, t, max);
    var r := Parse(s, max).rest;
    assert (r + t)[..4] == r;
    assert Parse(s, max).packets + [] == Parse(s, max).packets;
  }

  /** Every read may return at least one byte, and there are enough of them. */
  predicate EnoughReads(stream: Bytes, caps: seq<(nat, nat)>) {
    |stream| <= |caps| && forall i :: 0 <= i < |caps| ==> 0 < caps[i].0 && 0 < caps[i].1
  }

  /** However the reads chop the stream, the packets are those of the bytes read; with enough reads, those of the stream. */
  method Receive(stream: Bytes, max: nat, caps: seq<(nat, nat)>) returns (packets: seq<Bytes>, pos: nat)
    ensures pos <= |stream| && packets == Parse(stream[..pos], max).packets
    ensures EnoughReads(stream, caps) ==> packets == Parse(stream, max).packets
  {
    var d := new BinTcpSocket(max);
    packets, pos := [], 0;
    var i := 0;
    while i < |caps|
      invariant 0 <= i <= |caps| && pos <= |stream|
      invariant d.Valid() && !d.Complete() && fresh(d) && d.max == max
      invariant d.consumed == stream[..pos] && d.emitted == packets
      invariant EnoughReads(stream, caps) ==> d.Dead() || pos >= Min(i, |stream|)
    {
      ghost var dead := d.Dead();
      var code, n := d.ReadHandler(stream[pos..], caps[i].0, caps[i].1);
      TakeMore(stream, pos, n);
      pos := pos + n;
      if code == 1 {
        var p := d.TakePacket();
        packets := packets + [p];
      }
      i := i + 1;
    }
    assert stream == stream[..pos] + stream[pos..];
    if d.Dead() { StuckParse(stream[..pos], stream[pos..], max); }
    else if pos == |stream| { assert stream[..pos] == stream; }
  }
}
