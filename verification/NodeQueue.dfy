/** Send queues whose nodes carry their own progress: c_nf's linked nodes and cppnf's head/tail buffers. */
module NodeQueue {
  import opened Common
  import opened SendQueue

  // ---------- c_nf: a linked list of nodes with `bufSent` ----------

  class SendBuf {
    const buf: Bytes
    var bufSent: nat
    var next: SendBuf?

    constructor (buf: Bytes)
      ensures this.buf == buf && bufSent == 0 && next == null
    {
      this.buf, bufSent, next := buf, 0, null;
    }
  }

  function NodeAt(nodes: seq<SendBuf>, i: nat): SendBuf? {
    if i < |nodes| then nodes[i] else null
  }

  /** `nodes` is the chain that starts at `first`. */
  ghost predicate Linked(first: SendBuf?, nodes: seq<SendBuf>)
    reads nodes
  {
    && first == NodeAt(nodes, 0)
    && (forall i {:trigger nodes[i].next} :: 0 <= i < |nodes| ==> nodes[i].next == NodeAt(nodes, i + 1))
    && (forall i, j :: 0 <= i < j < |nodes| ==> nodes[i] != nodes[j])
    && (forall i :: 0 <= i < |nodes| ==> nodes[i].bufSent <= |nodes[i].buf|)
  }

  function NodeParts(nodes: seq<SendBuf>): seq<Bytes>
    reads nodes
    requires forall i :: 0 <= i < |nodes| ==> nodes[i].bufSent <= |nodes[i].buf|
  {
    seq(|nodes|, i requires 0 <= i < |nodes| && nodes[i].bufSent <= |nodes[i].buf| reads nodes =>
      nodes[i].buf[nodes[i].bufSent..])
  }

  class SocketInfo {
    var sendBuf: SendBuf?
    var sendBufNum: nat
    ghost var nodes: seq<SendBuf>

    ghost predicate Valid()
      reads this, nodes
    {
      Linked(sendBuf, nodes) && sendBufNum == |nodes|
    }

    ghost function Unsent(): seq<Bytes>
      reads this, nodes
      requires Valid()
    {
      NodeParts(nodes)
    }

    constructor (nodes: seq<SendBuf>)
      requires Linked(if nodes == [] then null else nodes[0], nodes)
      ensures Valid() && this.nodes == nodes
    {
      sendBuf := if nodes == [] then null else nodes[0];
      sendBufNum, this.nodes := |nodes|, nodes;
    }

    /** The iovec array of process_tcp_send. */
    method Gather() returns (vecs: seq<Bytes>)
      requires Valid()
      ensures vecs == Unsent()
    {
      vecs := [];
      var iter := sendBuf;
      var i := 0;
      while i < sendBufNum
        invariant 0 <= i <= |nodes| && iter == NodeAt(nodes, i)
        invariant vecs == NodeParts(nodes)[..i]
      {
        assert NodeParts(nodes)[..i + 1] == NodeParts(nodes)[..i] + [NodeParts(nodes)[i]];
        assert iter == nodes[i];
        vecs := vecs + [iter.buf[iter.bufSent..]];
        iter := iter.next;
        i := i + 1;
      }
    }

    /** Unlinks the first node. */
    method FreeFront()
      requires Valid() && nodes != []
      modifies this
      ensures Valid() && nodes == old(nodes)[1..] && Unsent() == old(Unsent())[1..]
    {
      assert sendBuf == nodes[0];
      sendBuf := sendBuf.next;
      sendBufNum := sendBufNum - 1;
      nodes := nodes[1..];
      assert forall i :: 0 <= i < |nodes| ==> nodes[i] == old(nodes)[i + 1];
    }

    method MarkFront(k: nat)
      requires Valid() && nodes != [] && k <= |Unsent()[0]|
      modifies nodes[0]
      ensures Valid() && Unsent() == [old(Unsent())[0][k..]] + old(Unsent())[1..]
    {
      ghost var before := Unsent();
      assert sendBuf == nodes[0];
      sendBuf.bufSent := sendBuf.bufSent + k;
      assert nodes[0].buf[nodes[0].bufSent..] == before[0][k..];
      assert Unsent() == [before[0][k..]] + before[1..];
    }

    /** Frees the nodes that `cnt` bytes cover and marks the node they end in. */
    method Advance(cnt: nat) returns (ret: int)
      requires Valid() && 0 < cnt <= |Flatten(Unsent())|
      modifies this, nodes
      ensures Valid() && Follows(old(Unsent()), Wrote(cnt), Unsent()) && ret == if nodes == [] then 0 else 1
    {
      ghost var q := Unsent();
      var left := cnt;
      ret := 1;
      while sendBuf != null
        invariant Valid() && forall n :: n in nodes ==> n in old(nodes)
        invariant 0 <= left <= |Flatten(Unsent())|
        invariant Strip(Consume(Unsent(), left)) == Strip(Consume(q, cnt))
        invariant nodes == [] ==> left == 0 && ret == 0
        decreases |nodes|
      {
        var len := |sendBuf.buf| - sendBuf.bufSent;
        assert |Unsent()[0]| == len;
        if left >= len {
          DropPart(Unsent(), left);
          FreeFront();
          left := left - len;
          ret := 0;
        } else {
          KeepPart(Unsent(), left);
          assert nodes[0] in nodes;
          MarkFront(left);
          left := 0;
          ret := 1;
          break;
        }
      }
      assert Consume(Unsent(), 0) == Unsent();
    }

    /** `cnt` is what writev returned: 0 when the queue is empty, 1 when bytes remain, -1 on an error, -2 when the
    peer closed; `wire` is what it took of the entries. */
    method ProcessTcpSend(cnt: int, again: bool) returns (ret: int, wire: Bytes)
      requires Valid() && cnt <= |Flatten(Unsent())|
      modifies this, nodes
      ensures Valid()
      ensures cnt <= 0 ==> Unsent() == old(Unsent()) && ret == if cnt == 0 then -2 else if again then 1 else -1
      ensures 0 < cnt ==> Follows(old(Unsent()), Wrote(cnt), Unsent()) && ret == if nodes == [] then 0 else 1
      ensures |wire| == (if 0 < cnt then cnt else 0) && wire + Flatten(Unsent()) == old(Flatten(Unsent()))
    {
      var vecs := Gather();
      if cnt <= 0 {
        assert [] + Flatten(Unsent()) == Flatten(Unsent());
        return if cnt == 0 then -2 else if again then 1 else -1, [];
      }
      wire := Flatten(vecs)[..cnt];
      ghost var q := Unsent();
      ret := Advance(cnt);
      WireThenPending(q, vecs, cnt, Unsent());
    }
  }

  // ---------- c_nf as written ----------

  /** One round of c_nf/process.c:132-148 on the unsent parts. After a node was freed the length
  subtracted is that of the next one; None stands for reading it through null. Nothing ends the loop
  when no byte is left to account for. */
  function RoundAsWritten(q: seq<Bytes>, left: nat): (r: Option<(seq<Bytes>, nat)>)
    requires q != []
    ensures r.Some? ==> r.value.0 != []
  {
    if left < |q[0]| then Some(([q[0][left..]] + q[1..], 0))
    else if |q| == 1 then None
    else Some((q[1..], (left - |q[1]|) % 0x1_0000_0000))
  }

  function RoundsAsWritten(q: seq<Bytes>, left: nat, k: nat): (r: Option<(seq<Bytes>, nat)>)
    requires q != []
    ensures r.Some? ==> r.value.0 != []
    decreases k
  {
    if k == 0 then Some((q, left))
    else
      match RoundAsWritten(q, left)
      case None => None
      case Some(r) => RoundsAsWritten(r.0, r.1, k - 1)
  }

  /** What the loop still subtracts from when it comes to node `i`, having freed those before. */
  function LeftAt(q: seq<Bytes>, left: nat, i: nat): (r: int)
    requires i < |q|
    ensures 0 <= r < 0x1_0000_0000
  {
    (left - |Flatten(q[1..i + 1])|) % 0x1_0000_0000
  }

  /** The count is enough for every node in turn, with the length of the next one subtracted each time. */
  ghost predicate EnoughForAll(q: seq<Bytes>, left: nat) {
    forall i :: 0 <= i < |q| ==> |q[i]| <= LeftAt(q, left, i)
  }

  lemma LeftAtNext(q: seq<Bytes>, left: nat, i: nat)
    requires i + 1 < |q|
    ensures LeftAt(q, left, i + 1) == LeftAt(q[1..], (left - |q[1]|) % 0x1_0000_0000, i)
  {
    assert q[1..i + 2] == [q[1]] + q[1..][1..i + 1];
    assert Flatten(q[1..i + 2]) == q[1] + Flatten(q[1..][1..i + 1]);
  }

  lemma EnoughNext(q: seq<Bytes>, left: nat)
    requires 1 < |q| && |q[0]| <= left < 0x1_0000_0000
    ensures EnoughForAll(q, left) <==> EnoughForAll(q[1..], (left - |q[1]|) % 0x1_0000_0000)
  {
    var l := (left - |q[1]|) % 0x1_0000_0000;
    assert q[1..1] == [] && LeftAt(q, left, 0) == left;
    forall i | 0 <= i < |q| - 1
      ensures |q[i + 1]| <= LeftAt(q, left, i + 1) <==> |q[1..][i]| <= LeftAt(q[1..], l, i)
    {
      LeftAtNext(q, left, i);
    }
    if EnoughForAll(q[1..], l) {
      forall i | 0 <= i < |q| ensures |q[i]| <= LeftAt(q, left, i) {
        if i > 0 { assert |q[1..][i - 1]| <= LeftAt(q[1..], l, i - 1); }
      }
    }
  }

  /** Once a byte of the front node is unsent, no later round changes anything. */
  lemma {:induction false} SpinsAsWritten(q: seq<Bytes>, left: nat, k: nat)
    requires q != [] && left < |q[0]| && 0 < k
    ensures RoundsAsWritten(q, left, k) == Some(([q[0][left..]] + q[1..], 0))
    decreases k
  {
    if 1 < k {
      var r := [q[0][left..]] + q[1..];
      SpinsAsWritten(r, 0, k - 1);
      assert [r[0][0..]] + r[1..] == r;
    }
  }

  /** The loop as written never ends well. It ends by reading through null, after as many rounds as there are nodes,
  exactly when the count is enough for every node in turn; otherwise it spins from then on
  with a byte of its front node unsent. */
  lemma {:induction false} NeverReturnsAsWritten(q: seq<Bytes>, left: nat, k: nat)
    requires q != [] && left < 0x1_0000_0000 && |q| <= k
    ensures RoundsAsWritten(q, left, k) == None <==> EnoughForAll(q, left)
    ensures !EnoughForAll(q, left) ==>
      var r := RoundsAsWritten(q, left, |q|);
      RoundsAsWritten(q, left, k) == r && r.Some? && r.value.0 != [] && r.value.0[0] != [] && r.value.1 == 0
    decreases |q|
  {
    assert q[1..1] == [] && LeftAt(q, left, 0) == left;
    if left < |q[0]| {
      SpinsAsWritten(q, left, k);
      SpinsAsWritten(q, left, |q|);
    } else if |q| > 1 {
      EnoughNext(q, left);
      NeverReturnsAsWritten(q[1..], (left - |q[1]|) % 0x1_0000_0000, k - 1);
    }
  }

  lemma KeepPart(q: seq<Bytes>, left: nat)
    requires q != [] && left < |q[0]|
    ensures Consume(q, left) == [q[0][left..]] + q[1..]
  {
    if left == 0 { assert q == [q[0]] + q[1..]; }
  }

  /** A part taken whole disappears, up to empty parts. */
  lemma DropPart(q: seq<Bytes>, left: nat)
    requires q != [] && |q[0]| <= left
    ensures Strip(Consume(q, left)) == Strip(Consume(q[1..], left - |q[0]|))
    ensures |Flatten(q)| == |q[0]| + |Flatten(q[1..])|
  {
    if left == 0 { assert Consume(q, left) == q && Consume(q[1..], 0) == q[1..]; }
  }

  // ---------- cppnf: buffers with head and tail ----------

  class Buffer {
    const start: Bytes
    var head: nat
    var tail: nat

    constructor (data: Bytes)
      ensures start == data && head == 0 && tail == |data|
    {
      start, head, tail := data, 0, |data|;
    }

    predicate Ok()
      reads this
    {
      head <= tail <= |start|
    }
  }

  ghost predicate Owned(bufs: seq<Buffer>)
    reads bufs
  {
    && (forall i, j :: 0 <= i < j < |bufs| ==> bufs[i] != bufs[j])
    && (forall i :: 0 <= i < |bufs| ==> bufs[i].Ok())
  }

  function BufferParts(bufs: seq<Buffer>): seq<Bytes>
    reads bufs
    requires forall i :: 0 <= i < |bufs| ==> bufs[i].Ok()
  {
    seq(|bufs|, i requires 0 <= i < |bufs| && bufs[i].Ok() reads bufs => bufs[i].start[bufs[i].head..bufs[i].tail])
  }

  const MaxSendBufferNum := 1000

  class AsyncTCPDataSocket {
    var list: seq<Buffer>
    var closing: bool
    var curId: nat

    ghost predicate Valid()
      reads this, list
    {
      Owned(list)
    }

    ghost function Unsent(): seq<Bytes>
      reads this, list
      requires Valid()
    {
      BufferParts(list)
    }

    constructor ()
      ensures Valid() && list == [] && !closing
    {
      list, closing, curId := [], false, 1;
    }

    /** Returns 0 when the list is full, else the message's id. */
    method SendMessage(buf: Buffer) returns (id: nat)
      requires Valid() && buf.Ok() && buf !in list
      modifies this
      ensures Valid() && closing == old(closing)
      ensures |old(list)| == MaxSendBufferNum ==> id == 0 && Unsent() == old(Unsent())
      ensures |old(list)| != MaxSendBufferNum ==>
        id == old(curId) && curId == id + 1 && Unsent() == old(Unsent()) + [buf.start[buf.head..buf.tail]]
    {
      if |list| == MaxSendBufferNum { return 0; }
      list := list + [buf];
      id, curId := curId, curId + 1;
    }

    method EraseFront()
      requires Valid() && list != []
      modifies this
      ensures Valid() && list == old(list)[1..] && Unsent() == old(Unsent())[1..] && closing == old(closing)
    {
      list := list[1..];
      assert forall i :: 0 <= i < |list| ==> list[i] == old(list)[i + 1];
    }

    method MoveHead(k: nat)
      requires Valid() && list != [] && k <= |Unsent()[0]|
      modifies list[0]
      ensures Valid() && Unsent() == [old(Unsent())[0][k..]] + old(Unsent())[1..]
    {
      ghost var before := Unsent();
      list[0].head := list[0].head + k;
      assert list[0].start[list[0].head..list[0].tail] == before[0][k..];
      assert Unsent() == [before[0][k..]] + before[1..];
    }

    method Advance(n: nat)
      requires Valid() && n <= |Flatten(Unsent())|
      modifies this, list
      ensures Valid() && Unsent() == Consume(old(Unsent()), n) && closing == old(closing)
    {
      ghost var q := Unsent();
      var left := n;
      while left > 0
        invariant Valid() && (forall b :: b in list ==> b in old(list)) && closing == old(closing)
        invariant 0 <= left <= |Flatten(Unsent())|
        invariant Consume(Unsent(), left) == Consume(q, n)
        decreases left, |list|
      {
        var len := list[0].tail - list[0].head;
        assert |Unsent()[0]| == len;
        if len <= left {
          EraseFront();
          left := left - len;
        } else {
          assert list[0] in list;
          MoveHead(left);
          left := 0;
        }
      }
    }

    /** The iovec array. */
    method Gather() returns (v: seq<Bytes>)
      requires Valid()
      ensures v == Unsent()
    {
      v := [];
      var i := 0;
      while i < |list|
        invariant 0 <= i <= |list| && v == BufferParts(list)[..i]
      {
        assert BufferParts(list)[..i + 1] == BufferParts(list)[..i] + [BufferParts(list)[i]];
        v := v + [list[i].start[list[i].head..list[i].tail]];
        i := i + 1;
      }
    }

    /** `ret` is what writev returned: -1 for an empty list or an error, -2 when nothing was written, 2 when the
    socket is to close, else 0; `wire` is what it took of the entries. */
    method OnWritable(ret: int) returns (code: int, wire: Bytes)
      requires Valid() && ret <= |Flatten(Unsent())|
      modifies this, list
      ensures Valid()
      ensures ret <= 0 || old(list) == [] ==>
        Unsent() == old(Unsent()) && code == if old(list) == [] || ret < 0 then -1 else -2
      ensures 0 < ret && old(list) != [] ==>
        Unsent() == Consume(old(Unsent()), ret) && code == if closing then 2 else 0
      ensures |wire| == (if 0 < ret && old(list) != [] then ret else 0)
      ensures wire + Flatten(Unsent()) == old(Flatten(Unsent()))
    {
      assert [] + Flatten(Unsent()) == Flatten(Unsent());
      if |list| == 0 { return -1, []; }
      var v := Gather();
      if ret < 0 { return -1, []; }
      if ret == 0 { return -2, []; }
      wire := Flatten(v)[..ret];
      ghost var q := Unsent();
      Advance(ret);
      WireThenPending(q, v, ret, Unsent());
      code := if closing then 2 else 0;
    }
  }
}
