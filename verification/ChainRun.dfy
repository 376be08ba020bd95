/** Whole runs of the zxbnf connection in memory. */
module ChainRun {
  import opened Common
  import opened SendQueue
  import opened ChainQueue

  /** A buffer in front of a chain. */
  lemma PrependLinked(b: Buffer, rest: seq<Buffer>)
    requires Linked(if rest == [] then null else rest[0], rest) && SentUpTo(rest, 0)
    requires b.next == (if rest == [] then null else rest[0]) && b.behind == |rest| && b.Ok()
    ensures Linked(b, [b] + rest) && SentUpTo([b] + rest, 0)
    ensures Slices([b] + rest) == [b.Slice()] + Slices(rest)
  {
    var c := [b] + rest;
    assert c[0] == b && forall i :: 0 < i < |c| ==> c[i] == rest[i - 1];
    assert At(c, 1) == b.next;
    forall i | 0 <= i < |c| ensures c[i].next == At(c, i + 1) && c[i].behind == |c| - 1 - i {
      if i > 0 { assert c[i] == rest[i - 1] && At(c, i + 1) == At(rest, i); }
    }
  }

  /** A message in buffers of at most `size` bytes. */
  method Chained(m: Bytes, size: nat) returns (first: Buffer, ghost chain: seq<Buffer>)
    requires 0 < size
    ensures Linked(first, chain) && SentUpTo(chain, 0) && Flatten(Slices(chain)) == m
    ensures first in chain && forall b :: b in chain ==> fresh(b)
    decreases |m|
  {
    if |m| <= size {
      first, chain := InFront(m, null, []);
      assert Slices(chain) == [m] + [];
      FlattenCons(m, []);
      assert m + [] == m;
    } else {
      var next;
      ghost var rest;
      next, rest := Chained(m[size..], size);
      first, chain := InFront(m[..size], next, rest);
      FlattenCons(m[..size], Slices(rest));
      assert m[..size] + m[size..] == m;
    }
  }

  /** A new buffer in front of a chain. */
  method InFront(data: Bytes, next: Buffer?, ghost rest: seq<Buffer>) returns (first: Buffer, ghost chain: seq<Buffer>)
    requires Linked(next, rest) && SentUpTo(rest, 0) && (rest != [] || next == null)
    ensures fresh(first) && chain == [first] + rest && Linked(first, chain) && SentUpTo(chain, 0)
    ensures SentUpTo(rest, 0) && Slices(chain) == [data] + Slices(rest) && Slices(rest) == old(Slices(rest))
  {
    first := new Buffer(data, next, |rest|);
    chain := [first] + rest;
    PrependLinked(first, rest);
    assert first.Slice() == data;
  }

  predicate NoneEmpty(q: seq<Bytes>) { forall i :: 0 <= i < |q| ==> q[i] != [] }

  lemma {:induction false} StripNoneEmpty(q: seq<Bytes>)
    ensures NoneEmpty(Strip(q))
  {
    if q != [] { StripNoneEmpty(q[1..]); }
  }

  lemma {:induction false} EntriesNoneEmpty(msgs: seq<TCPMessageToSend>)
    requires AllOk(msgs)
    ensures NoneEmpty(Flatten(Strips(msgs)))
  {
    if msgs != [] {
      EntriesNoneEmpty(msgs[1..]);
      StripNoneEmpty(msgs[0].Parts());
      FlattenCons(Strip(msgs[0].Parts()), Strips(msgs[1..]));
    }
  }

  /** Entries without bytes are no entries. */
  lemma NoBytesNoEntries(msgs: seq<TCPMessageToSend>, n: nat)
    requires AllOk(msgs)
    ensures Flatten(Take(Flatten(Strips(msgs)), n)) == [] ==> |Take(Flatten(Strips(msgs)), n)| == 0
  {
    EntriesNoneEmpty(msgs);
    var v := Take(Flatten(Strips(msgs)), n);
    if v != [] { assert v[0] == Flatten(Strips(msgs))[0] != []; }
  }

  /** What the kernel takes of the entries, if it takes up to `n` bytes. */
  method Offer(c: TCPConnection, n: nat, iovNum: nat) returns (sent: Bytes)
    requires c.Valid() && 0 < iovNum
    ensures c.Valid() && c.Unsent() == old(c.Unsent())
    ensures sent <= Flatten(c.Unsent()) && |sent| <= n
    ensures sent == [] ==> n == 0 || Flatten(c.Unsent()) == []
  {
    var vec := c.GetIOVectorToSend(iovNum);
    NoBytesNoEntries(c.msgs, iovNum);
    var offered := Flatten(vec);
    sent := offered[..Min(n, |offered|)];
  }

  /** One round of the event loop: gather, let the kernel take up to `n` bytes, account for them. */
  method WriteOnce(c: TCPConnection, n: nat, iovNum: nat) returns (sent: Bytes)
    requires c.Valid() && 0 < iovNum
    modifies c, c.msgs, Feet(c.msgs)
    ensures c.Valid() && Follows(old(c.Unsent()), Wrote(|sent|), c.Unsent())
    ensures sent <= Flatten(old(c.Unsent())) && |sent| <= n
    ensures sent == [] ==> n == 0 || Flatten(old(c.Unsent())) == []
    ensures forall i :: 0 <= i < |c.msgs| ==> c.msgs[i] in old(c.msgs)
  {
    sent := Offer(c, n, iovNum);
    var _ := c.ShrinkSendMsgList(|sent|);
  }

  lemma {:induction false} RunSnoc(q: seq<Bytes>, es: seq<Event>, e: Event)
    ensures Run(q, es + [e]) == Next(Run(q, es), e)
    ensures RunSent(q, es + [e]) == RunSent(q, es) + Sent(Run(q, es), e)
    decreases |es|
  {
    if es == [] {
      assert es + [e] == [e] && [e][1..] == [];
      assert Sent(q, e) + [] == [] + Sent(q, e);
    } else {
      assert (es + [e])[1..] == es[1..] + [e];
      RunSnoc(Next(q, es[0]), es[1..], e);
      Regroup(Sent(q, es[0]), RunSent(Next(q, es[0]), es[1..]), Sent(Run(q, es), e));
    }
  }

  lemma {:induction false} QueuedSnoc(es: seq<Event>, e: Event)
    ensures Queued(es + [e]) == Queued(es) + SendQueue.Own(e)
  {
    if es == [] {
      assert es + [e] == [e] && [e][1..] == [];
    } else {
      assert (es + [e])[1..] == es[1..] + [e];
      QueuedSnoc(es[1..], e);
      Regroup(SendQueue.Own(es[0]), Queued(es[1..]), SendQueue.Own(e));
    }
  }

  /** The connection is at the end of a run of the specification, with its bytes on the wire. */
  ghost predicate InStepWith(c: TCPConnection, ran: seq<Event>, wire: Bytes)
    reads c, c.msgs, Feet(c.msgs)
  {
    c.Valid() && Strip(c.Unsent()) == Strip(Run([], ran)) && wire == RunSent([], ran)
  }

  /** The buffers of the connection are those it had, or new. */
  twostate predicate Newer(c: TCPConnection, was: seq<TCPMessageToSend>)
    reads c
  {
    forall i :: 0 <= i < |c.msgs| ==> c.msgs[i] in was || (fresh(c.msgs[i]) && fresh(c.msgs[i].foot))
  }

  method PushNew(c: TCPConnection, first: Buffer, ghost chain: seq<Buffer>)
    requires c.Valid() && Linked(first, chain) && SentUpTo(chain, 0) && first in chain
    requires Feet(c.msgs) !! (set b | b in chain)
    modifies c
    ensures c.Valid() && c.Unsent() == old(c.Unsent()) + [Flatten(old(Slices(chain)))]
    ensures forall i :: 0 <= i < |c.msgs| ==>
      c.msgs[i] in old(c.msgs) || (fresh(c.msgs[i]) && c.msgs[i].foot == set b | b in chain)
  {
    ghost var ms := c.msgs;
    c.PushMessageToSend(first, chain);
    assert forall i :: 0 <= i < |ms| ==> c.msgs[i] == c.msgs[..|ms|][i];
  }

  method QueueChained(c: TCPConnection, m: Bytes, size: nat)
    requires c.Valid() && 0 < size
    modifies c
    ensures c.Valid() && c.Unsent() == old(c.Unsent()) + [m] && Newer(c, old(c.msgs))
  {
    var first, chain := Chained(m, size);
    PushNew(c, first, chain);
  }

  method HappenQueue(c: TCPConnection, m: Bytes, size: nat, ghost ran: seq<Event>, wire: Bytes)
    requires InStepWith(c, ran, wire) && 0 < size
    modifies c
    ensures InStepWith(c, ran + [Queue(m)], wire) && Newer(c, old(c.msgs))
  {
    ghost var q := c.Unsent();
    QueueChained(c, m, size);
    FollowsOn(q, c.Unsent(), ran, wire, Queue(m), []);
  }

  method HappenWrite(c: TCPConnection, n: nat, iovNum: nat, ghost ran: seq<Event>, wire: Bytes) returns (sent: Bytes)
    requires InStepWith(c, ran, wire) && 0 < iovNum
    modifies c, c.msgs, Feet(c.msgs)
    ensures InStepWith(c, ran + [Wrote(|sent|)], wire + sent) && Newer(c, old(c.msgs)) && |sent| <= n
    ensures sent == [] ==> n == 0 || Flatten(Run([], ran)) == []
  {
    ghost var q := c.Unsent();
    sent := WriteOnce(c, n, iovNum);
    FollowsOn(q, c.Unsent(), ran, wire, Wrote(|sent|), sent);
  }

  lemma FollowsOn(q: seq<Bytes>, q': seq<Bytes>, ran: seq<Event>, wire: Bytes, e: Event, sent: Bytes)
    requires Strip(q) == Strip(Run([], ran)) && wire == RunSent([], ran) && Follows(q, e, q')
    requires if e.Queue? then sent == [] else sent <= Flatten(q) && |sent| == e.n
    ensures Strip(q') == Strip(Run([], ran + [e])) && wire + sent == RunSent([], ran + [e])
    ensures Flatten(q) == Flatten(Run([], ran))
  {
    RunSnoc([], ran, e);
    Simulates(q, Run([], ran), e);
    FlattenStrip(q);
    FlattenStrip(Run([], ran));
    assert wire + [] == wire;
  }

  /** An event, as the kernel let it happen, and the bytes it put on the wire. */
  method Happen(c: TCPConnection, e: Event, size: nat, iovNum: nat, ghost ran: seq<Event>, wire: Bytes)
    returns (done: Event, sent: Bytes)
    requires InStepWith(c, ran, wire) && 0 < size && 0 < iovNum
    modifies c, c.msgs, Feet(c.msgs)
    ensures InStepWith(c, ran + [done], wire + sent) && Newer(c, old(c.msgs))
    ensures OneAnswer(e, done, Run([], ran))
  {
    match e
    case Queue(m) =>
      HappenQueue(c, m, size, ran, wire);
      done, sent := e, [];
      assert wire + [] == wire;
    case Wrote(n) =>
      sent := HappenWrite(c, n, iovNum, ran, wire);
      done := Wrote(|sent|);
  }

  /** What the kernel may have made of an event with `q` queued: a write of no more than asked, and of 0 bytes only
  if none was asked or pending. */
  predicate OneAnswer(e: Event, done: Event, q: seq<Bytes>) {
    if e.Queue? then done == e
    else done.Wrote? && done.n <= e.n && (done.n == 0 ==> e.n == 0 || Flatten(q) == [])
  }

  predicate Answers(es: seq<Event>, ran: seq<Event>) {
    |ran| == |es| &&
    (es == [] ||
     var n := |es| - 1;
     Answers(es[..n], ran[..n]) && OneAnswer(es[n], ran[n], Run([], ran[..n])))
  }

  /** A connection is driven through any messages, in buffers of `size` bytes, and any partial writes of at most
  `iovNum` entries: the wire carries what the specification sends for the counts the kernel gave; and
  after a flush in bursts, all bytes queued, in order. */
  method Transmit(es: seq<Event>, size: nat, iovNum: nat, burst: nat) returns (ran: seq<Event>, sent: Bytes, wire: Bytes)
    requires 0 < size && 0 < iovNum && 0 < burst
    ensures Answers(es, ran) && sent == RunSent([], ran)
    ensures sent <= wire == Queued(es)
  {
    var c := new TCPConnection();
    ran, sent := HappenAll(c, es, size, iovNum);
    wire := Flush(c, iovNum, burst, ran, sent);
  }

  /** The events one after the other, on an empty connection. */
  method HappenAll(c: TCPConnection, es: seq<Event>, size: nat, iovNum: nat) returns (ran: seq<Event>, sent: Bytes)
    requires c.Valid() && c.msgs == [] && 0 < size && 0 < iovNum
    modifies c, c.msgs, Feet(c.msgs)
    ensures InStepWith(c, ran, sent) && Newer(c, old(c.msgs))
    ensures Answers(es, ran) && Queued(ran) == Queued(es)
  {
    if es == [] {
      ran, sent := [], [];
    } else {
      var n := |es| - 1;
      ran, sent := HappenAll(c, es[..n], size, iovNum);
      var done, b := Happen(c, es[n], size, iovNum, ran, sent);
      Answered(es, ran, done);
      ran, sent := ran + [done], sent + b;
    }
  }

  lemma Answered(es: seq<Event>, ran: seq<Event>, done: Event)
    requires es != [] && Answers(es[..|es| - 1], ran) && Queued(ran) == Queued(es[..|es| - 1])
    requires OneAnswer(es[|es| - 1], done, Run([], ran))
    ensures Answers(es, ran + [done]) && Queued(ran + [done]) == Queued(es)
  {
    assert (ran + [done])[..|ran|] == ran;
    SameQueued(es, ran, done);
  }

  lemma SameQueued(es: seq<Event>, ran: seq<Event>, done: Event)
    requires es != [] && Queued(ran) == Queued(es[..|es| - 1])
    requires if done.Queue? then done == es[|es| - 1] else es[|es| - 1].Wrote?
    ensures Queued(ran + [done]) == Queued(es)
  {
    var front, e := es[..|es| - 1], es[|es| - 1];
    assert es == front + [e];
    QueuedSnoc(front, e);
    QueuedSnoc(ran, done);
  }

  /** Writes until nothing is pending. */
  method Flush(c: TCPConnection, iovNum: nat, burst: nat, ghost ran: seq<Event>, sent: Bytes) returns (wire: Bytes)
    requires InStepWith(c, ran, sent) && 0 < iovNum && 0 < burst
    modifies c, c.msgs, Feet(c.msgs)
    ensures sent <= wire == Queued(ran)
  {
    ghost var more := ran;
    wire := sent;
    while true
      invariant InStepWith(c, more, wire) && sent <= wire && Queued(more) == Queued(ran)
      invariant Newer(c, old(c.msgs))
      decreases |Flatten(Run([], more))|
    {
      var b := HappenWrite(c, burst, iovNum, more, wire);
      Balance(more, wire, b);
      if b == [] { break; }
      more, wire := more + [Wrote(|b|)], wire + b;
    }
  }

  lemma Balance(ran: seq<Event>, wire: Bytes, b: Bytes)
    requires wire == RunSent([], ran) && wire + b == RunSent([], ran + [Wrote(|b|)])
    ensures b == [] && Flatten(Run([], ran)) == [] ==> wire == Queued(ran)
    ensures |Flatten(Run([], ran + [Wrote(|b|)]))| + |b| == |Flatten(Run([], ran))|
    ensures Queued(ran + [Wrote(|b|)]) == Queued(ran)
  {
    NothingLostOrReordered([], ran);
    NothingLostOrReordered([], ran + [Wrote(|b|)]);
    QueuedSnoc(ran, Wrote(|b|));
    assert Queued(ran) + [] == Queued(ran) && wire + [] == wire && [] + Queued(ran) == Queued(ran);
  }
}
