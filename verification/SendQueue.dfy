/** What every send queue of the repository does: bytes leave in the order in which messages were queued.

A queue is the sequence of the unsent parts of its messages.  The five concrete
queues keep these parts differently; each is proved to follow `Consume` below.
*/
module SendQueue {
  import opened Common

  /** The parts that still hold bytes. */
  function Strip(q: seq<Bytes>): seq<Bytes> {
    if q == [] then [] else if q[0] == [] then Strip(q[1..]) else [q[0]] + Strip(q[1..])
  }

  /** The queue after the kernel took `n` bytes. */
  function Consume(q: seq<Bytes>, n: nat): seq<Bytes>
    decreases |q|
  {
    if q == [] || n == 0 then q
    else if |q[0]| <= n then Consume(q[1..], n - |q[0]|)
    else [q[0][n..]] + q[1..]
  }

  lemma {:induction false} FlattenStrip(q: seq<Bytes>)
    ensures Flatten(Strip(q)) == Flatten(q)
  {
    if q != [] {
      var rest := q[1..];
      FlattenStrip(rest);
      assert Flatten(q) == q[0] + Flatten(rest);
      if q[0] == [] { assert q[0] + Flatten(rest) == Flatten(rest); }
      else { FlattenCons(q[0], Strip(rest)); }
    }
  }

  lemma {:induction false} StripAppend(a: seq<Bytes>, b: seq<Bytes>)
    ensures Strip(a + b) == Strip(a) + Strip(b)
  {
    if a == [] {
      assert a + b == b;
    } else {
      assert (a + b)[1..] == a[1..] + b;
      StripAppend(a[1..], b);
    }
  }

  /** Exactly the first `n` bytes go. */
  lemma {:induction false} FlattenConsume(q: seq<Bytes>, n: nat)
    ensures Flatten(Consume(q, n)) == Flatten(q)[Min(n, |Flatten(q)|)..]
    decreases |q|
  {
    if q != [] && n != 0 {
      var rest := Flatten(q[1..]);
      if |q[0]| <= n {
        FlattenConsume(q[1..], n - |q[0]|);
        assert (q[0] + rest)[Min(n, |q[0] + rest|)..] == rest[Min(n - |q[0]|, |rest|)..];
      } else {
        assert ([q[0][n..]] + q[1..])[1..] == q[1..];
        assert (q[0] + rest)[n..] == q[0][n..] + rest;
      }
    }
  }

  /** Empty parts make no difference. */
  lemma {:induction false} StripConsume(q: seq<Bytes>, n: nat)
    ensures Strip(Consume(q, n)) == Consume(Strip(q), n)
    decreases |q|
  {
    if q != [] && n != 0 {
      StripConsume(q[1..], if |q[0]| <= n then n - |q[0]| else 0);
      if q[0] != [] {
        assert ([q[0]] + Strip(q[1..]))[1..] == Strip(q[1..]);
        if |q[0]| > n {
          assert ([q[0][n..]] + q[1..])[1..] == q[1..];
          assert Consume(q[1..], 0) == q[1..];
        }
      }
    }
  }

  /** Taking `m` then `n` bytes is taking `m + n`. */
  lemma {:induction false} ConsumeTwice(q: seq<Bytes>, m: nat, n: nat)
    ensures Consume(Consume(q, m), n) == Consume(q, m + n)
    decreases |q|
  {
    if q != [] && m != 0 {
      if |q[0]| <= m {
        ConsumeTwice(q[1..], m - |q[0]|, n);
      } else {
        assert ([q[0][m..]] + q[1..])[1..] == q[1..];
        if n != 0 && |q[0]| > m + n { assert q[0][m..][n..] == q[0][m + n..]; }
      }
    }
  }

  // ---------- runs ----------

  datatype Event = Queue(msg: Bytes) | Wrote(n: nat)

  function Next(q: seq<Bytes>, e: Event): seq<Bytes> {
    match e
    case Queue(m) => q + [m]
    case Wrote(n) => Consume(q, n)
  }

  /** The bytes an event puts on the wire. */
  function Sent(q: seq<Bytes>, e: Event): Bytes {
    match e
    case Queue(m) => []
    case Wrote(n) => Flatten(q)[..Min(n, |Flatten(q)|)]
  }

  function Run(q: seq<Bytes>, es: seq<Event>): seq<Bytes>
    decreases |es|
  {
    if es == [] then q else Run(Next(q, es[0]), es[1..])
  }

  function RunSent(q: seq<Bytes>, es: seq<Event>): Bytes
    decreases |es|
  {
    if es == [] then [] else Sent(q, es[0]) + RunSent(Next(q, es[0]), es[1..])
  }

  function Queued(es: seq<Event>): Bytes {
    if es == [] then [] else Own(es[0]) + Queued(es[1..])
  }

  function Own(e: Event): Bytes { if e.Queue? then e.msg else [] }

  lemma StepBalance(q: seq<Bytes>, e: Event)
    ensures Sent(q, e) + Flatten(Next(q, e)) == Flatten(q) + Own(e)
  {
    match e
    case Queue(m) =>
      FlattenSnoc(q, m);
    case Wrote(n) => FlattenConsume(q, n);
  }

  /** Bytes written, then bytes pending, are the bytes queued, in every interleaving. */
  lemma {:induction false} NothingLostOrReordered(q: seq<Bytes>, es: seq<Event>)
    ensures RunSent(q, es) + Flatten(Run(q, es)) == Flatten(q) + Queued(es)
    decreases |es|
  {
    if es != [] {
      var q', s := Next(q, es[0]), Sent(q, es[0]);
      NothingLostOrReordered(q', es[1..]);
      StepBalance(q, es[0]);
      Glue(s, Flatten(q'), Flatten(q), Own(es[0]), RunSent(q', es[1..]), Flatten(Run(q', es[1..])), Queued(es[1..]));
    } else {
      assert [] + Flatten(q) == Flatten(q) + [];
    }
  }

  lemma Glue(s: Bytes, f': Bytes, f: Bytes, own: Bytes, sent: Bytes, left: Bytes, queued: Bytes)
    requires s + f' == f + own && sent + left == f' + queued
    ensures (s + sent) + left == f + (own + queued)
  {
    assert (s + sent) + left == s + (sent + left);
    assert s + (f' + queued) == (s + f') + queued;
    assert (f + own) + queued == f + (own + queued);
  }

  /** Two queues whose unsent parts agree up to empty ones still agree after the same event. */
  lemma Simulates(q: seq<Bytes>, r: seq<Bytes>, e: Event)
    requires Strip(q) == Strip(r)
    ensures Strip(Next(q, e)) == Strip(Next(r, e))
    ensures Flatten(Next(q, e)) == Flatten(Next(r, e)) && Sent(q, e) == Sent(r, e)
  {
    FlattenStrip(q);
    FlattenStrip(r);
    match e {
      case Queue(m) => StripAppend(q, [m]); StripAppend(r, [m]);
      case Wrote(n) => StripConsume(q, n); StripConsume(r, n);
    }
    FlattenStrip(Next(q, e));
    FlattenStrip(Next(r, e));
  }

  /** What the concrete queues are proved to do: follow `Next` up to empty parts. */
  predicate Follows(q: seq<Bytes>, e: Event, q': seq<Bytes>) { Strip(q') == Strip(Next(q, e)) }

  /** Hence any two of them simulate one another. */
  lemma FollowersSimulate(q: seq<Bytes>, q': seq<Bytes>, r: seq<Bytes>, r': seq<Bytes>, e: Event)
    requires Strip(q) == Strip(r) && Follows(q, e, q') && Follows(r, e, r')
    ensures Strip(q') == Strip(r') && Flatten(q') == Flatten(r') && Flatten(q') == Flatten(Next(q, e))
  {
    Simulates(q, r, e);
    FlattenStrip(q');
    FlattenStrip(r');
    FlattenStrip(Next(q, e));
  }

  /** The states a concrete queue goes through. */
  ghost predicate Trace(qs: seq<seq<Bytes>>, es: seq<Event>) {
    |qs| == |es| + 1 && forall i :: 0 <= i < |es| ==> Follows(qs[i], es[i], qs[i + 1])
  }

  /** Over a whole run a concrete queue keeps the unsent parts, and so the byte stream, of the specification. */
  lemma {:induction false} TraceFollowsRun(qs: seq<seq<Bytes>>, es: seq<Event>, r: seq<Bytes>)
    requires Trace(qs, es) && Strip(qs[0]) == Strip(r)
    ensures Strip(qs[|es|]) == Strip(Run(r, es))
    ensures RunSent(r, es) + Flatten(qs[|es|]) == Flatten(qs[0]) + Queued(es)
    decreases |es|
  {
    FlattenStrip(qs[0]);
    FlattenStrip(r);
    if es != [] {
      assert Follows(qs[0], es[0], qs[1]);
      Simulates(qs[0], r, es[0]);
      assert Trace(qs[1..], es[1..]) by {
        forall i | 0 <= i < |es[1..]| ensures Follows(qs[1..][i], es[1..][i], qs[1..][i + 1]) {
          assert Follows(qs[i + 1], es[i + 1], qs[i + 2]);
        }
      }
      TraceFollowsRun(qs[1..], es[1..], Next(r, es[0]));
    }
    NothingLostOrReordered(r, es);
    FlattenStrip(qs[|es|]);
    FlattenStrip(Run(r, es));
  }

  /** What a write of entries that hold the first pending bytes puts on the wire, then what is pending: nothing
  is lost, sent twice or reordered. */
  lemma WireThenPending(q: seq<Bytes>, vec: seq<Bytes>, n: nat, q': seq<Bytes>)
    requires Flatten(vec) <= Flatten(q) && n <= |Flatten(vec)| && Follows(q, Wrote(n), q')
    ensures Flatten(vec)[..n] + Flatten(q') == Flatten(q)
  {
    PendingAfter(q, n, q');
    TakeFirst(Flatten(vec), Flatten(q), n);
  }

  lemma PendingAfter(q: seq<Bytes>, n: nat, q': seq<Bytes>)
    requires n <= |Flatten(q)| && Follows(q, Wrote(n), q')
    ensures Flatten(q') == Flatten(q)[n..]
  {
    FlattenStrip(q');
    FlattenStrip(Consume(q, n));
    FlattenConsume(q, n);
  }
}
