/** The five send queues next to one sequence of messages `s`: a queue that agrees with `s`
before an event agrees with what `s` becomes, and holds the same pending bytes. Hence
any two of them simulate each other. */
module SideBySide {
  import opened Common
  import opened SendQueue
  import Offset = OffsetQueue
  import Node = NodeQueue
  import Chain = ChainQueue

  /** The same unsent parts, up to empty ones. */
  ghost predicate Agree(q: seq<Bytes>, r: seq<Bytes>) { Strip(q) == Strip(r) }

  ghost predicate InStep(q: seq<Bytes>, s: seq<Bytes>) { Agree(q, s) && Flatten(q) == Flatten(s) }

  /** A step of a queue that follows the specification keeps it in step with any queue it agreed with. */
  lemma StaysInStep(s: seq<Bytes>, q: seq<Bytes>, q': seq<Bytes>, e: Event)
    requires Agree(q, s) && Follows(q, e, q')
    ensures InStep(q', Next(s, e))
  {
    FollowersSimulate(q, q', s, Next(s, e), e);
  }

  // ---------- one write count, accounted for by each queue ----------

  method WriteNf(nf: Offset.NfSocket, n: nat, ghost s: seq<Bytes>)
    requires nf.Valid() && Agree(nf.Unsent(), s) && n <= |Flatten(s)|
    modifies nf
    ensures nf.Valid() && InStep(nf.Unsent(), Next(s, Wrote(n)))
  {
    FlattenStrip(nf.Unsent());
    FlattenStrip(s);
    ghost var q := nf.Unsent();
    nf.Advance(n);
    StaysInStep(s, q, nf.Unsent(), Wrote(n));
  }

  method WriteEv(ev: Offset.TcpSocket, n: nat, ghost s: seq<Bytes>)
    requires ev.Valid() && Agree(ev.Unsent(), s) && 0 < n <= |Flatten(Offset.Offered(ev.list, ev.front))|
    modifies ev
    ensures ev.Valid() && InStep(ev.Unsent(), Next(s, Wrote(n)))
  {
    ghost var q := ev.Unsent();
    var _, _ := ev.WriteHandler(n, false);
    StaysInStep(s, q, ev.Unsent(), Wrote(n));
  }

  method WriteC(c: Node.SocketInfo, n: nat, ghost s: seq<Bytes>)
    requires c.Valid() && Agree(c.Unsent(), s) && 0 < n <= |Flatten(s)|
    modifies c, c.nodes
    ensures c.Valid() && InStep(c.Unsent(), Next(s, Wrote(n)))
  {
    FlattenStrip(c.Unsent());
    FlattenStrip(s);
    ghost var q := c.Unsent();
    var _, _ := c.ProcessTcpSend(n, false);
    StaysInStep(s, q, c.Unsent(), Wrote(n));
  }

  method WriteCpp(cpp: Node.AsyncTCPDataSocket, n: nat, ghost s: seq<Bytes>)
    requires cpp.Valid() && Agree(cpp.Unsent(), s) && 0 < n <= |Flatten(s)|
    modifies cpp, cpp.list
    ensures cpp.Valid() && InStep(cpp.Unsent(), Next(s, Wrote(n)))
  {
    FlattenStrip(cpp.Unsent());
    FlattenStrip(s);
    ghost var q := cpp.Unsent();
    assert q != [];
    var _, _ := cpp.OnWritable(n);
    StaysInStep(s, q, cpp.Unsent(), Wrote(n));
  }

  method WriteZxb(zxb: Chain.TCPConnection, n: nat, ghost s: seq<Bytes>)
    requires zxb.Valid() && Agree(zxb.Unsent(), s)
    modifies zxb, zxb.msgs, Chain.Feet(zxb.msgs)
    ensures zxb.Valid() && InStep(zxb.Unsent(), Next(s, Wrote(n)))
  {
    ghost var q := zxb.Unsent();
    var _ := zxb.ShrinkSendMsgList(n);
    StaysInStep(s, q, zxb.Unsent(), Wrote(n));
  }

  // ---------- one message, queued by each that has such a function ----------

  method QueueNf(nf: Offset.NfSocket, m: Bytes, ghost s: seq<Bytes>)
    requires nf.Valid() && Agree(nf.Unsent(), s) && m != [] && |nf.list| <= nf.maxSendList
    modifies nf
    ensures nf.Valid() && InStep(nf.Unsent(), Next(s, Queue(m)))
  {
    ghost var q := nf.Unsent();
    var _ := nf.AsyncSend(m);
    StaysInStep(s, q, nf.Unsent(), Queue(m));
  }

  method QueueEv(ev: Offset.TcpSocket, m: Bytes, ghost s: seq<Bytes>)
    requires ev.Valid() && Agree(ev.Unsent(), s)
    modifies ev
    ensures ev.Valid() && InStep(ev.Unsent(), Next(s, Queue(m)))
  {
    ghost var q := ev.Unsent();
    ev.PushDataToSend(m);
    StaysInStep(s, q, ev.Unsent(), Queue(m));
  }

  method QueueCpp(cpp: Node.AsyncTCPDataSocket, m: Bytes, ghost s: seq<Bytes>)
    requires cpp.Valid() && Agree(cpp.Unsent(), s) && |cpp.list| < Node.MaxSendBufferNum
    modifies cpp
    ensures cpp.Valid() && InStep(cpp.Unsent(), Next(s, Queue(m)))
  {
    ghost var q := cpp.Unsent();
    var b := new Node.Buffer(m);
    assert b.start[b.head..b.tail] == m;
    var _ := cpp.SendMessage(b);
    StaysInStep(s, q, cpp.Unsent(), Queue(m));
  }

  /** Here a message is a chain of buffers. */
  method QueueZxb(zxb: Chain.TCPConnection, data: Chain.Buffer, ghost chain: seq<Chain.Buffer>, ghost s: seq<Bytes>)
    requires zxb.Valid() && Agree(zxb.Unsent(), s)
    requires Chain.Linked(data, chain) && Chain.SentUpTo(chain, 0) && data in chain
    requires Chain.Feet(zxb.msgs) !! (set b | b in chain)
    modifies zxb
    ensures zxb.Valid() && InStep(zxb.Unsent(), Next(s, Queue(Flatten(Chain.Slices(chain)))))
  {
    ghost var q, m := zxb.Unsent(), Flatten(Chain.Slices(chain));
    zxb.PushMessageToSend(data, chain);
    StaysInStep(s, q, zxb.Unsent(), Queue(m));
  }
}
