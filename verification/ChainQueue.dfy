/** zxbnf's send queue: messages are chains of buffers, each message has a cursor into its chain. */
module ChainQueue {
  import opened Common
  import opened SendQueue

  /** A buffer holds bytes between its head and its tail. Chains are linked before they are queued, and
  their links stay as they are; `behind` counts the buffers that follow. */
  class Buffer {
    const start: Bytes
    const tail: nat
    const next: Buffer?
    ghost const behind: nat
    var head: nat

    constructor (data: Bytes, next: Buffer?, ghost behind: nat)
      ensures start == data && head == 0 && tail == |data| && this.next == next && this.behind == behind
    {
      start, head, tail, this.next, this.behind := data, 0, |data|, next, behind;
    }

    predicate Ok()
      reads this
    {
      head <= tail <= |start|
    }

    function Slice(): Bytes
      reads this
      requires Ok()
    {
      start[head..tail]
    }
  }

  function At(chain: seq<Buffer>, i: nat): Buffer? {
    if i < |chain| then chain[i] else null
  }

  /** Linked to the next one each, down to the last. */
  ghost predicate Linked(first: Buffer?, chain: seq<Buffer>) {
    && first == At(chain, 0)
    && (forall i {:trigger chain[i].next} :: 0 <= i < |chain| ==> chain[i].next == At(chain, i + 1))
    && (forall i {:trigger chain[i].behind} :: 0 <= i < |chain| ==> chain[i].behind == |chain| - 1 - i)
  }

  /** Well formed, and the first `n` sent. */
  ghost predicate SentUpTo(chain: seq<Buffer>, n: nat)
    reads chain
  {
    n <= |chain| && forall i :: 0 <= i < |chain| ==> chain[i].Ok() && (i < n ==> chain[i].head == chain[i].tail)
  }

  function Slices(bs: seq<Buffer>): seq<Bytes>
    reads bs
    requires forall i :: 0 <= i < |bs| ==> bs[i].Ok()
  {
    seq(|bs|, i requires 0 <= i < |bs| && bs[i].Ok() reads bs => bs[i].Slice())
  }

  // ---------- parts with a sent beginning ----------

  predicate EmptyUpTo(p: seq<Bytes>, n: nat) { n <= |p| && forall i :: 0 <= i < n ==> p[i] == [] }

  /** Bytes cut from the first part that has any are the first bytes of all. */
  lemma {:induction false} CutAt(p: seq<Bytes>, pos: nat, n: nat)
    requires pos < |p| && EmptyUpTo(p, pos) && n <= |p[pos]|
    ensures n <= |Flatten(p)| && Flatten(p[pos := p[pos][n..]]) == Flatten(p)[n..]
  {
    var q := p[pos := p[pos][n..]];
    if pos == 0 {
      assert q[1..] == p[1..];
      assert (p[0] + Flatten(p[1..]))[n..] == p[0][n..] + Flatten(p[1..]);
    } else {
      assert q[1..] == p[1..][pos - 1 := p[1..][pos - 1][n..]];
      CutAt(p[1..], pos - 1, n);
      assert Flatten(q) == [] + Flatten(q[1..]) && Flatten(p) == [] + Flatten(p[1..]);
    }
  }

  lemma {:induction false} AllEmpty(p: seq<Bytes>)
    requires EmptyUpTo(p, |p|)
    ensures Flatten(p) == []
  {
    if p != [] { AllEmpty(p[1..]); }
  }

  lemma CutTwice(f: Bytes, a: nat, b: nat)
    requires a + b <= |f|
    ensures f[a..][b..] == f[a + b..]
  {
  }

  class TCPMessageToSend {
    var first: Buffer?
    var cur: Buffer?
    /** The buffers of the message, and how many are before the cursor. */
    ghost const bufs: seq<Buffer>
    ghost const foot: set<Buffer>
    ghost var pos: nat

    ghost predicate Valid()
      reads this, foot
    {
      && (forall i :: 0 <= i < |bufs| ==> bufs[i] in foot)
      && Linked(first, bufs) && SentUpTo(bufs, pos) && cur == At(bufs, pos)
    }

    /** What the buffers still hold. */
    ghost function Parts(): seq<Bytes>
      reads this, foot
      requires Valid()
    {
      Slices(bufs)
    }

    ghost function Unsent(): Bytes
      reads this, foot
      requires Valid()
    {
      Flatten(Parts())
    }

    constructor (buffers: Buffer?, ghost chain: seq<Buffer>)
      requires Linked(buffers, chain) && SentUpTo(chain, 0)
      ensures Valid() && bufs == chain && pos == 0 && foot == set b | b in chain
    {
      first, cur := buffers, buffers;
      bufs, foot, pos := chain, set b | b in chain, 0;
    }

    predicate AllSent()
      reads this
    {
      cur == null
    }

    /** The parts before the cursor are empty. */
    lemma SentPartsEmpty()
      requires Valid()
      ensures EmptyUpTo(Parts(), pos)
      ensures pos < |bufs| ==> Parts()[pos] == bufs[pos].Slice()
    {
    }

    /** Moves the head of the current buffer. */
    method MoveHead(n: nat)
      requires Valid() && pos < |bufs| && n <= |bufs[pos].Slice()|
      modifies bufs[pos]
      ensures Valid() && Parts() == old(Parts())[pos := old(bufs[pos].Slice())[n..]]
      ensures bufs[pos].Slice() == old(bufs[pos].Slice())[n..]
    {
      ghost var before := Parts();
      cur.head := cur.head + n;
      forall i | 0 <= i < |bufs| && i != pos ensures bufs[i].Slice() == before[i] {
        assert bufs[i].behind != bufs[pos].behind;
      }
      SlicesCut(bufs, before, pos, n);
    }

    /** Moves the cursor over a buffer with nothing left. */
    method NextBuffer()
      requires Valid() && pos < |bufs| && bufs[pos].head == bufs[pos].tail
      modifies this
      ensures Valid() && pos == old(pos) + 1 && first == old(first)
    {
      cur := cur.next;
      pos := pos + 1;
    }

    /** One round of SeekForward's loop. */
    method Round(left: nat) returns (left': nat)
      requires Valid() && pos < |bufs| && 0 < left
      modifies this, bufs[pos]
      ensures Valid() && old(pos) <= pos <= |bufs| && (pos == old(pos) ==> left' == 0)
      ensures left' <= left && left - left' <= |old(Unsent())| && Unsent() == old(Unsent())[left - left'..]
    {
      SentPartsEmpty();
      var len := cur.tail - cur.head;
      if len <= left {
        CutAt(Parts(), pos, len);
        MoveHead(len);
        NextBuffer();
        left' := left - len;
      } else {
        CutAt(Parts(), pos, left);
        MoveHead(left);
        left' := 0;
      }
    }

    /** Marks up to `num` bytes as sent; returns how many. */
    method SeekForward(num: nat) returns (sent: nat)
      requires Valid() && !AllSent()
      modifies this, foot
      ensures Valid()
      ensures sent == Min(num, |old(Unsent())|) && Unsent() == old(Unsent())[sent..]
      ensures sent < num ==> AllSent()
      ensures AllSent() ==> Unsent() == []
    {
      var left: nat := num;
      ghost var f, cut: nat := Unsent(), 0;
      assert f[0..] == f;
      while cur != null && left > 0
        invariant Valid() && left + cut == num && cut <= |f| && Unsent() == f[cut..]
        decreases |bufs| - pos, left
      {
        ghost var l := left;
        left := Round(left);
        CutTwice(f, cut, l - left);
        cut := cut + (l - left);
      }
      NothingBehind();
      return num - left;
    }

    /** A message that is all sent holds no bytes. */
    lemma NothingBehind()
      requires Valid()
      ensures AllSent() ==> Unsent() == []
    {
      SentPartsEmpty();
      if AllSent() { AllEmpty(Parts()); }
    }
  }

  /** The slices before and after buffer `k` lost `n` bytes. */
  lemma SlicesCut(bs: seq<Buffer>, before: seq<Bytes>, k: nat, n: nat)
    requires (forall i :: 0 <= i < |bs| ==> bs[i].Ok()) && k < |bs| == |before| && n <= |before[k]|
    requires forall i :: 0 <= i < |bs| ==> bs[i].Slice() == if i == k then before[k][n..] else before[i]
    ensures Slices(bs) == before[k := before[k][n..]]
  {
  }

  // ---------- the connection ----------

  /** All buffers of the messages. */
  ghost function Feet(msgs: seq<TCPMessageToSend>): (r: set<Buffer>)
    ensures forall m :: m in msgs ==> m.foot <= r
  {
    set m, b | m in msgs && b in m.foot :: b
  }

  /** Queued messages are well formed, not yet all sent, and share no buffer. */
  ghost predicate AllOk(msgs: seq<TCPMessageToSend>)
    reads msgs, Feet(msgs)
  {
    msgs == [] || (msgs[0].Valid() && !msgs[0].AllSent() && Apart(msgs[0], msgs[1..]) && AllOk(msgs[1..]))
  }

  /** A message that shares nothing with the others. */
  ghost predicate Apart(m: TCPMessageToSend, others: seq<TCPMessageToSend>) {
    m !in others && m.foot !! Feet(others)
  }

  ghost function Messages(msgs: seq<TCPMessageToSend>): (r: seq<Bytes>)
    reads msgs, Feet(msgs)
    requires AllOk(msgs)
    ensures |r| == |msgs|
  {
    if msgs == [] then [] else [msgs[0].Unsent()] + Messages(msgs[1..])
  }

  lemma FeetSnoc(ms: seq<TCPMessageToSend>, m: TCPMessageToSend)
    ensures Feet(ms + [m]) == Feet(ms) + m.foot
  {
  }

  lemma ApartSnoc(a: TCPMessageToSend, ms: seq<TCPMessageToSend>, m: TCPMessageToSend)
    requires Apart(a, ms) && a != m && a.foot !! m.foot
    ensures Apart(a, ms + [m])
  {
    FeetSnoc(ms, m);
  }

  ghost predicate Within(ms: seq<TCPMessageToSend>, all: seq<TCPMessageToSend>) {
    forall i :: 0 <= i < |ms| ==> ms[i] in all
  }

  lemma ConsOk(m: TCPMessageToSend, ms: seq<TCPMessageToSend>)
    requires m.Valid() && !m.AllSent() && Apart(m, ms) && AllOk(ms)
    ensures AllOk([m] + ms)
  {
    assert ([m] + ms)[1..] == ms;
  }

  lemma {:induction false} AppendOk(ms: seq<TCPMessageToSend>, m: TCPMessageToSend)
    requires AllOk(ms) && m.Valid() && !m.AllSent() && Apart(m, ms)
    ensures AllOk(ms + [m])
  {
    if ms == [] {
      ConsOk(m, []);
      assert ms + [m] == [m] + [];
    } else {
      var first, rest := ms[0], ms[1..];
      assert ms + [m] == [first] + (rest + [m]);
      AppendOk(rest, m);
      ApartSnoc(first, rest, m);
      ConsOk(first, rest + [m]);
    }
  }

  lemma {:induction false} AppendMessages(ms: seq<TCPMessageToSend>, m: TCPMessageToSend)
    requires AllOk(ms) && AllOk(ms + [m]) && m.Valid()
    ensures Messages(ms + [m]) == Messages(ms) + [m.Unsent()]
  {
    if ms == [] {
      assert ms + [m] == [m] && [m][1..] == [];
    } else {
      assert (ms + [m])[1..] == ms[1..] + [m] && (ms + [m])[0] == ms[0];
      AppendMessages(ms[1..], m);
    }
  }

  lemma PrependOk(ms: seq<TCPMessageToSend>, m: TCPMessageToSend)
    requires ms != [] && m == ms[0] && m.Valid() && !m.AllSent() && Apart(m, ms[1..]) && AllOk(ms[1..])
    ensures AllOk(ms) && Messages(ms) == [m.Unsent()] + Messages(ms[1..])
  {
  }

  /** Seeking in one message leaves the messages that share nothing with it. */
  method SeekApart(m: TCPMessageToSend, left: nat, ghost others: seq<TCPMessageToSend>) returns (sent: nat)
    requires m.Valid() && !m.AllSent() && AllOk(others) && Apart(m, others)
    modifies m, m.foot
    ensures m.Valid() && AllOk(others) && Messages(others) == old(Messages(others))
    ensures sent == Min(left, |old(m.Unsent())|) && m.Unsent() == old(m.Unsent())[sent..]
    ensures sent < left ==> m.AllSent()
    ensures m.AllSent() ==> m.Unsent() == []
  {
    sent := m.SeekForward(left);
  }

  /** A new message of a chain that the others do not use. */
  method Wrap(data: Buffer, ghost chain: seq<Buffer>, ghost others: seq<TCPMessageToSend>) returns (m: TCPMessageToSend)
    requires Linked(data, chain) && SentUpTo(chain, 0) && data in chain && AllOk(others) && Feet(others) !! (set b | b in chain)
    ensures fresh(m) && m.Valid() && !m.AllSent() && m.bufs == chain && m.foot == (set b | b in chain) && Apart(m, others)
    ensures m.Unsent() == Flatten(old(Slices(chain))) && AllOk(others) && Messages(others) == old(Messages(others))
  {
    m := new TCPMessageToSend(data, chain);
  }

  class TCPConnection {
    var msgs: seq<TCPMessageToSend>

    ghost predicate Valid()
      reads this, msgs, Feet(msgs)
    {
      AllOk(msgs)
    }

    ghost function Unsent(): seq<Bytes>
      reads this, msgs, Feet(msgs)
      requires Valid()
    {
      Messages(msgs)
    }

    constructor ()
      ensures Valid() && msgs == []
    {
      msgs := [];
    }

    /** Queues a chain of buffers nobody else uses. */
    method PushMessageToSend(data: Buffer, ghost chain: seq<Buffer>)
      requires Valid() && Linked(data, chain) && SentUpTo(chain, 0)
      requires data in chain && Feet(msgs) !! (set b | b in chain)
      modifies this
      ensures Valid() && Unsent() == old(Unsent()) + [Flatten(old(Slices(chain)))]
      ensures |msgs| == |old(msgs)| + 1 && msgs[..|old(msgs)|] == old(msgs)
      ensures fresh(msgs[|old(msgs)|]) && msgs[|old(msgs)|].foot == (set b | b in chain)
    {
      var m := Wrap(data, chain, msgs);
      Add(m);
    }

    method Add(m: TCPMessageToSend)
      requires Valid() && m.Valid() && !m.AllSent() && Apart(m, msgs)
      modifies this
      ensures msgs == old(msgs) + [m] && m.Valid() && m.Unsent() == old(m.Unsent())
      ensures Valid() && Unsent() == old(Unsent()) + [m.Unsent()]
    {
      ghost var ms, u := msgs, Unsent();
      msgs := msgs + [m];
      assert AllOk(ms) && Messages(ms) == u;
      AppendOk(ms, m);
      AppendMessages(ms, m);
    }

    /** One round of ShrinkSendMsgList's loop. */
    method ShrinkFront(left: nat) returns (left': nat)
      requires Valid() && msgs != []
      modifies this, msgs[0], msgs[0].foot
      ensures Valid() && left' <= left
      ensures msgs == old(msgs)[1..] || (msgs == old(msgs) && left' == 0)
      ensures Rounded(old(Unsent()), left, Unsent(), left')
    {
      var reduced := SeekApart(msgs[0], left, msgs[1..]);
      if msgs[0].AllSent() {
        DropFront();
      } else {
        PrependOk(msgs, msgs[0]);
      }
      return left - reduced;
    }

    method DropFront()
      requires msgs != [] && AllOk(msgs[1..])
      modifies this
      ensures msgs == old(msgs)[1..] && Valid() && Unsent() == old(Messages(msgs[1..]))
    {
      msgs := msgs[1..];
    }

    /** The same, on the level of unsent bytes. */
    method ShrinkRound(left: nat) returns (left': nat)
      requires Valid() && msgs != []
      modifies this, msgs[0], msgs[0].foot
      ensures Valid() && left' <= left
      ensures Within(msgs, old(msgs)) && (left' > 0 ==> |msgs| < |old(msgs)|)
      ensures Shrunk(old(Unsent()), left, Unsent(), left')
    {
      ghost var u := Unsent();
      left' := ShrinkFront(left);
      RoundParts(u, left, Unsent(), left');
    }

    /** Accounts for `num` written bytes; returns how many found nothing to account for. */
    method ShrinkSendMsgList(num: nat) returns (left: nat)
      requires Valid()
      modifies this, msgs, Feet(msgs)
      ensures Valid() && Follows(old(Unsent()), Wrote(num), Unsent())
      ensures Within(msgs, old(msgs))
      ensures left == num - Min(num, |Flatten(old(Unsent()))|)
      ensures left == 0 <==> num <= |Flatten(old(Unsent()))|
    {
      left := num;
      ghost var q := Unsent();
      while |msgs| > 0
        invariant Valid() && Shrunk(q, num, Unsent(), left)
        invariant Within(msgs, old(msgs))
        decreases |msgs|
      {
        assert msgs[0] in old(msgs);
        left := ShrinkRound(left);
        if left == 0 { break; }
      }
      assert msgs == [] ==> Unsent() == [];
      ShrunkWhole(q, num, Unsent(), left);
    }

    /** The inner loop: the non-empty buffers of one message behind the entries there are. */
    method GatherMessage(m: TCPMessageToSend, iovNum: nat, v: seq<Bytes>, ghost p: seq<Bytes>) returns (vec: seq<Bytes>, ghost j: nat)
      requires m.Valid() && |v| < iovNum && p == m.Parts()
      ensures j <= |p| && vec == v + Strip(p[..j]) && |vec| <= iovNum && (|vec| == iovNum || j == |p|)
    {
      vec := v;
      var it := m.first;
      j := 0;
      assert v + Strip(p[..0]) == v;
      while it != null && |vec| < iovNum
        invariant j <= |m.bufs| == |p| && it == At(m.bufs, j)
        invariant |vec| <= iovNum && vec == v + Strip(p[..j])
        decreases |m.bufs| - j
      {
        AppendSlice(v, p, j);
        if it.tail != it.head { vec := vec + [it.start[it.head..it.tail]]; }
        it := it.next;
        j := j + 1;
      }
    }

    /** One round of the outer loop. */
    method GatherNext(k: nat, iovNum: nat, v: seq<Bytes>, ghost ss: seq<seq<Bytes>>) returns (vec: seq<Bytes>)
      requires Valid() && ss == Strips(msgs) && k < |msgs| && v == Take(Flatten(ss[..k]), iovNum) && |v| < iovNum
      ensures vec == Take(Flatten(ss[..k + 1]), iovNum)
    {
      StripsAt(msgs, k);
      ghost var p := msgs[k].Parts();
      ghost var j;
      vec, j := GatherMessage(msgs[k], iovNum, v, p);
      StoppedAt(ss, k, iovNum, v, p, j, vec);
    }

    /** The outer loop; `ss` names the non-empty buffers of each message. */
    method GatherAll(iovNum: nat, ghost ss: seq<seq<Bytes>>) returns (vec: seq<Bytes>)
      requires Valid() && 0 < iovNum && ss == Strips(msgs)
      ensures Valid() && ss == Strips(msgs) && vec == Take(Flatten(ss), iovNum)
    {
      vec := [];
      var k := 0;
      while k < |msgs| && |vec| < iovNum
        invariant 0 <= k <= |msgs| && Valid() && ss == Strips(msgs) && vec == Take(Flatten(ss[..k]), iovNum)
      {
        vec := GatherNext(k, iovNum, vec, ss);
        k := k + 1;
      }
      TakeAll(ss, k, iovNum);
    }

    /** Fills at most `iovNum` entries with the non-empty buffers, in order, from each message's first buffer on. */
    method GetIOVectorToSend(iovNum: nat) returns (vec: seq<Bytes>)
      requires Valid() && 0 < iovNum
      ensures vec == Take(Flatten(Strips(msgs)), iovNum)
      ensures Flatten(vec) <= Flatten(Unsent()) && (|vec| < iovNum ==> Flatten(vec) == Flatten(Unsent()))
      ensures Valid() && Unsent() == old(Unsent())
    {
      ghost var ss := Strips(msgs);
      StripsJoin(msgs);
      vec := GatherAll(iovNum, ss);
      StripsJoin(msgs);
      GatheredBytes(ss, Joined(ss), iovNum);
    }
  }

  /** What is still to be accounted for in `u` stands for `num` written bytes of `q`. */
  predicate Shrunk(q: seq<Bytes>, num: nat, u: seq<Bytes>, left: nat) {
    && left <= num && num - left + |Flatten(u)| == |Flatten(q)|
    && Strip(Consume(u, left)) == Strip(Consume(q, num))
  }

  lemma ShrunkWhole(q: seq<Bytes>, num: nat, u: seq<Bytes>, left: nat)
    requires Shrunk(q, num, u, left) && (u == [] || left == 0)
    ensures Follows(q, Wrote(num), u) && left == num - Min(num, |Flatten(q)|)
  {
    assert Consume(u, 0) == u;
  }

  lemma AppendSlice(v: seq<Bytes>, p: seq<Bytes>, i: nat)
    requires i < |p|
    ensures v + Strip(p[..i + 1]) == if p[i] == [] then v + Strip(p[..i]) else (v + Strip(p[..i])) + [p[i]]
  {
    assert p[..i + 1] == p[..i] + [p[i]];
    StripAppend(p[..i], [p[i]]);
    assert [p[i]][1..] == [];
  }

  /** A message is through, or the entries are full. */
  lemma StoppedAt(ss: seq<seq<Bytes>>, k: nat, n: nat, v: seq<Bytes>, p: seq<Bytes>, i: nat, vec: seq<Bytes>)
    requires k < |ss| && ss[k] == Strip(p) && v == Take(Flatten(ss[..k]), n) && |v| < n
    requires i <= |p| && vec == v + Strip(p[..i]) && |vec| <= n && (|vec| == n || i == |p|)
    ensures vec == Take(Flatten(ss[..k + 1]), n)
  {
    TakeStep(ss, k, n);
    assert p == p[..i] + p[i..];
    StripAppend(p[..i], p[i..]);
    if i == |p| { assert p[..i] == p; }
    assert Flatten(ss[..k + 1]) == v + Strip(p);
  }

  function Take(s: seq<Bytes>, n: nat): seq<Bytes> { s[..Min(n, |s|)] }

  /** The non-empty unsent buffers of each message. */
  ghost function Strips(msgs: seq<TCPMessageToSend>): (r: seq<seq<Bytes>>)
    reads msgs, Feet(msgs)
    requires AllOk(msgs)
    ensures |r| == |msgs|
  {
    if msgs == [] then [] else [Strip(msgs[0].Parts())] + Strips(msgs[1..])
  }

  lemma {:induction false} StripsAt(msgs: seq<TCPMessageToSend>, i: nat)
    requires AllOk(msgs) && i < |msgs|
    ensures msgs[i].Valid() && Strips(msgs)[i] == Strip(msgs[i].Parts())
  {
    if i > 0 { StripsAt(msgs[1..], i - 1); }
  }

  function Joined(ss: seq<seq<Bytes>>): (r: seq<Bytes>)
    ensures |r| == |ss| && forall i :: 0 <= i < |r| ==> r[i] == Flatten(ss[i])
  {
    if ss == [] then [] else [Flatten(ss[0])] + Joined(ss[1..])
  }

  lemma {:induction false} StripsJoin(msgs: seq<TCPMessageToSend>)
    requires AllOk(msgs)
    ensures Messages(msgs) == Joined(Strips(msgs))
  {
    if msgs != [] {
      StripsJoin(msgs[1..]);
      FlattenStrip(msgs[0].Parts());
    }
  }

  lemma TakeStep(ss: seq<seq<Bytes>>, i: nat, n: nat)
    requires i < |ss|
    ensures Flatten(ss[..i + 1]) == Flatten(ss[..i]) + ss[i]
  {
    assert ss[..i + 1] == ss[..i] + [ss[i]];
    FlattenAppend(ss[..i], [ss[i]]);
    assert [ss[i]][1..] == [];
    assert Flatten([ss[i]]) == ss[i];
  }

  /** Stopping early is harmless: the entries are full. */
  lemma TakeAll(ss: seq<seq<Bytes>>, i: nat, n: nat)
    requires i <= |ss| && (i == |ss| || |Flatten(ss[..i])| >= n)
    ensures Take(Flatten(ss[..i]), n) == Take(Flatten(ss), n)
  {
    assert ss == ss[..i] + ss[i..];
    FlattenAppend(ss[..i], ss[i..]);
    if i == |ss| { assert ss[..i] == ss; }
  }

  /** Entry bytes are the first pending bytes. */
  lemma GatheredBytes(ss: seq<seq<Bytes>>, us: seq<Bytes>, n: nat)
    requires |ss| == |us| && forall i :: 0 <= i < |ss| ==> Flatten(ss[i]) == us[i]
    ensures var v := Take(Flatten(ss), n);
      Flatten(v) <= Flatten(us) && (|v| < n ==> Flatten(v) == Flatten(us))
  {
    FlattenTwice(ss, us);
    TakenBytes(Flatten(ss), n);
  }

  lemma TakenBytes(all: seq<Bytes>, n: nat)
    ensures Flatten(Take(all, n)) <= Flatten(all) && (|Take(all, n)| < n ==> Take(all, n) == all)
  {
    var v := Take(all, n);
    assert all == v + all[|v|..];
    FlattenAppend(v, all[|v|..]);
  }

  lemma {:induction false} FlattenTwice(ss: seq<seq<Bytes>>, us: seq<Bytes>)
    requires |ss| == |us| && forall i :: 0 <= i < |ss| ==> Flatten(ss[i]) == us[i]
    ensures Flatten(Flatten(ss)) == Flatten(us)
  {
    if ss != [] {
      FlattenTwice(ss[1..], us[1..]);
      FlattenAppend(ss[0], Flatten(ss[1..]));
    }
  }

  /** The front message goes, or it absorbs all that is left. */
  predicate Rounded(u: seq<Bytes>, left: nat, u': seq<Bytes>, left': nat)
    requires u != []
  {
    (|u[0]| <= left && u' == u[1..] && left' == left - |u[0]|)
    || (left <= |u[0]| && u' == [u[0][left..]] + u[1..] && left' == 0)
  }

  /** One round on the level of messages. */
  lemma RoundParts(u: seq<Bytes>, left: nat, u': seq<Bytes>, left': nat)
    requires u != [] && Rounded(u, left, u', left')
    ensures left - left' + |Flatten(u')| == |Flatten(u)|
    ensures Strip(Consume(u', left')) == Strip(Consume(u, left))
  {
    if left == 0 { assert u[0][0..] == u[0] && u == [u[0]] + u[1..]; }
    if u' != u[1..] { assert u'[1..] == u[1..]; }
  }
}
