/** The two send queues with one front offset, gather and accounting exactly as their source has them.

An entry may reach past the data of a message; what the kernel finds there is a
parameter, and the code is right only if it is right for every content.
*/
module OffsetAsWritten {
  import opened Common
  import opened SendQueue
  import opened OffsetQueue

  /** The bytes a queue still has to send; an offset past the front message leaves none of it. */
  function Pending(list: seq<Bytes>, sent: nat): Bytes {
    if list == [] then [] else list[0][Min(sent, |list[0]|)..] + Flatten(list[1..])
  }

  lemma PendingSplits(list: seq<Bytes>, sent: nat, n: nat)
    requires list != [] && sent + n <= |list[0]|
    ensures list[0][sent..][..n] + Pending(list, sent + n) == Pending(list, sent)
  {
    assert list[0][sent..][..n] + list[0][sent + n..] == list[0][sent..];
    Regroup(list[0][sent..][..n], list[0][sent + n..], Flatten(list[1..]));
  }

  lemma PendingOfAll(list: seq<Bytes>)
    ensures Pending(list, 0) == Flatten(list)
  {
    if list != [] { assert list[0][0..] == list[0]; }
  }

  /** What lies behind the data of a message when the kernel reads it: time, then distance. */
  type Memory = (nat, nat) -> Byte

  function Behind(mem: Memory, t: nat, n: nat): (b: Bytes)
    ensures |b| == n && forall i :: 0 <= i < n ==> b[i] == mem(t, i)
  {
    seq(n, i requires 0 <= i => mem(t, i))
  }

  // ---------- nf ----------

  /** nf/socket.hpp:119-126: the front entry starts at `sent_` but keeps the length of the whole message. */
  function Entries(list: seq<Bytes>, sent: nat, mem: Memory, t: nat): (e: Bytes)
    requires list != []
    ensures |e| == |Flatten(list)|
  {
    (list[0] + Behind(mem, t, sent))[sent..] + Flatten(list[1..])
  }

  datatype Nf = Nf(list: seq<Bytes>, sent: nat)

  /** nf/socket.hpp:145-159: the front length is not reduced by `sent_`, and `sent_` is overwritten. */
  function AdvanceAsWritten(list: seq<Bytes>, sent: nat, left: nat): (r: Nf)
    decreases |list|
  {
    if left == 0 || list == [] then Nf(list, sent)
    else if |list[0]| <= left then AdvanceAsWritten(list[1..], sent, left - |list[0]|)
    else Nf(list, left)
  }

  /** Written bytes, then pending bytes, are the pending bytes there were, whatever lies behind the messages. */
  ghost predicate WriteRight(list: seq<Bytes>, sent: nat, n: nat)
    requires list != []  && n <= |Flatten(list)|
  {
    var r := AdvanceAsWritten(list, sent, n);
    forall mem: Memory :: Entries(list, sent, mem, 0)[..n] + Pending(r.list, r.sent) == Pending(list, sent)
  }

  /** A front offset inside the front message. */
  ghost predicate Sound(list: seq<Bytes>, sent: nat) {
    NonEmptyParts(list) && if list == [] then sent == 0 else sent < |list[0]|
  }

  /** A write within the front message. */
  lemma WithinFront(list: seq<Bytes>, n: nat)
    requires list != [] && n <= |list[0]|
    ensures Flatten(list)[..n] + Pending(list, n) == Flatten(list)
  {
    TakeSum(list[0], Flatten(list[1..]), n);
    assert list[0][0..] == list[0];
    PendingSplits(list, 0, n);
    PendingOfAll(list);
  }

  /** A write past the front message, whose rest is accounted for. */
  lemma PastFront(list: seq<Bytes>, n: nat, pending: Bytes)
    requires list != [] && |list[0]| <= n <= |Flatten(list)|
    requires Flatten(list[1..])[..n - |list[0]|] + pending == Flatten(list[1..])
    ensures Flatten(list)[..n] + pending == Flatten(list)
  {
    var a, f := list[0], Flatten(list[1..]);
    TakeSum(a, f, n);
    assert a[..|a|] == a && f[..0] == [] && a + f[..0] == a;
    Regroup(a, f[..n - |a|], pending);
  }

  lemma {:induction false} AdvanceSound(list: seq<Bytes>, n: nat)
    requires NonEmptyParts(list) && n <= |Flatten(list)|
    ensures Sound(AdvanceAsWritten(list, 0, n).list, AdvanceAsWritten(list, 0, n).sent)
    decreases |list|
  {
    if list != [] && n != 0 && |list[0]| <= n { AdvanceSound(list[1..], n - |list[0]|); }
  }

  lemma {:induction false} AdvanceStream(list: seq<Bytes>, n: nat)
    requires n <= |Flatten(list)|
    ensures var r := AdvanceAsWritten(list, 0, n); Flatten(list)[..n] + Pending(r.list, r.sent) == Flatten(list)
    decreases |list|
  {
    if list == [] {
    } else if n == 0 || n < |list[0]| {
      WithinFront(list, n);
    } else {
      var rest, m := list[1..], n - |list[0]|;
      AdvanceStream(rest, m);
      var r := AdvanceAsWritten(rest, 0, m);
      assert AdvanceAsWritten(list, 0, n) == r;
      PastFront(list, n, Pending(r.list, r.sent));
    }
  }

  /** From the start of a message the code is right, and the offset stays inside. */
  lemma WriteFromStart(list: seq<Bytes>, n: nat)
    requires NonEmptyParts(list) && n <= |Flatten(list)|
    ensures var r := AdvanceAsWritten(list, 0, n);
      Sound(r.list, r.sent) && Flatten(list)[..n] + Pending(r.list, r.sent) == Flatten(list)
  {
    AdvanceSound(list, n);
    AdvanceStream(list, n);
  }

  lemma EntriesFromStart(list: seq<Bytes>, mem: Memory, t: nat)
    requires list != []
    ensures Entries(list, 0, mem, t) == Flatten(list)
  {
    assert (list[0] + Behind(mem, t, 0))[0..] == list[0];
  }

  /** A write within the front entry's good part: its bytes are right, but what it leaves is too long. */
  lemma ShortWrite(list: seq<Bytes>, sent: nat, n: nat)
    requires list != [] && 0 < sent < |list[0]| && 0 < n <= |list[0]| - sent
    ensures AdvanceAsWritten(list, sent, n) == Nf(list, n)
    ensures |Pending(list, n)| + n == |Pending(list, sent)| + sent
  {
  }

  /** A longer write takes a byte that is not the message's. */
  lemma LongWrite(list: seq<Bytes>, sent: nat, n: nat, mem: Memory, t: nat)
    requires list != [] && 0 < sent < |list[0]| && |list[0]| - sent < n <= |Flatten(list)|
    ensures Entries(list, sent, mem, t)[..n][|list[0]| - sent] == mem(t, 0)
  {
    assert (list[0] + Behind(mem, t, sent))[sent..][|list[0]| - sent] == Behind(mem, t, sent)[0];
  }

  function OtherThan(b: Byte): (c: Byte)
    ensures c != b
  {
    if b == 0 then 1 else 0
  }

  lemma FromStartRight(list: seq<Bytes>, n: nat)
    requires NonEmptyParts(list) && list != [] && 0 < n <= |Flatten(list)|
    ensures WriteRight(list, 0, n)
  {
    var r := AdvanceAsWritten(list, 0, n);
    WriteFromStart(list, n);
    PendingOfAll(list);
    forall mem: Memory ensures Entries(list, 0, mem, 0)[..n] + Pending(r.list, r.sent) == Pending(list, 0) {
      EntriesFromStart(list, mem, 0);
    }
  }

  lemma ShortWrong(list: seq<Bytes>, sent: nat, n: nat)
    requires list != [] && 0 < sent < |list[0]| && 0 < n <= |list[0]| - sent && n <= |Flatten(list)|
    ensures !WriteRight(list, sent, n)
  {
    ShortWrite(list, sent, n);
    var mem: Memory := (_, _) => 0;
    var e, p := Entries(list, sent, mem, 0)[..n], Pending(list, n);
    assert |e + p| == n + |p|;
    assert e + p != Pending(list, sent);
  }

  lemma LongWrong(list: seq<Bytes>, sent: nat, n: nat)
    requires list != [] && 0 < sent < |list[0]| && |list[0]| - sent < n <= |Flatten(list)|
    ensures !WriteRight(list, sent, n)
  {
    var r := AdvanceAsWritten(list, sent, n);
    var p, was := |list[0]| - sent, Pending(list, sent);
    var c := if p < |was| then OtherThan(was[p]) else 0;
    var mem: Memory := (_, _) => c;
    LongWrite(list, sent, n, mem, 0);
    var e := Entries(list, sent, mem, 0)[..n];
    assert (e + Pending(r.list, r.sent))[p] == e[p] == c;
  }

  /** The code as written is right exactly when nothing of the front message had been sent before. */
  lemma AsWrittenIff(list: seq<Bytes>, sent: nat, n: nat)
    requires Sound(list, sent) && list != [] && 0 < n <= |Flatten(list)|
    ensures WriteRight(list, sent, n) <==> sent == 0
  {
    if sent == 0 { FromStartRight(list, n); }
    else if n <= |list[0]| - sent { ShortWrong(list, sent, n); }
    else { LongWrong(list, sent, n); }
  }

  /** Two one-byte writes of a two-byte message: the second byte is never accounted for, and goes out again. */
  lemma AsWrittenFails()
    ensures var list := [[1, 2]];
      && AdvanceAsWritten(list, 0, 1) == Nf(list, 1) == AdvanceAsWritten(list, 1, 1)
      && forall mem: Memory :: Entries(list, 1, mem, 0)[..1] == [2]
  {
    var list := [[1 as Byte, 2]];
    assert |list[0]| == 2 && list[1..] == [];
    forall mem: Memory ensures Entries(list, 1, mem, 0)[..1] == [2] {
      assert ([1 as Byte, 2] + Behind(mem, 0, 1))[1] == 2;
    }
  }

  // ---------- nf: whole runs ----------

  /** Messages are not empty, and the kernel takes at least one byte and no more than it is offered. */
  predicate Feasible(list: seq<Bytes>, sent: nat, es: seq<Event>)
    decreases |es|
  {
    es == [] ||
    match es[0]
    case Queue(m) => m != [] && Feasible(list + [m], sent, es[1..])
    case Wrote(n) =>
      0 < n <= |Flatten(list)| &&
      var r := AdvanceAsWritten(list, sent, n);
      Feasible(r.list, r.sent, es[1..])
  }

  /** The bytes on the wire. */
  function WireOf(list: seq<Bytes>, sent: nat, es: seq<Event>, mem: Memory): Bytes
    requires Feasible(list, sent, es)
    decreases |es|
  {
    if es == [] then []
    else
      match es[0]
      case Queue(m) => WireOf(list + [m], sent, es[1..], mem)
      case Wrote(n) =>
        var r := AdvanceAsWritten(list, sent, n);
        Entries(list, sent, mem, |es|)[..n] + WireOf(r.list, r.sent, es[1..], mem)
  }

  function EndOf(list: seq<Bytes>, sent: nat, es: seq<Event>): Nf
    decreases |es|
  {
    if es == [] then Nf(list, sent)
    else
      match es[0]
      case Queue(m) => EndOf(list + [m], sent, es[1..])
      case Wrote(n) => var r := AdvanceAsWritten(list, sent, n); EndOf(r.list, r.sent, es[1..])
  }

  function Stream(list: seq<Bytes>, sent: nat, es: seq<Event>, mem: Memory): Bytes
    requires Feasible(list, sent, es)
  {
    WireOf(list, sent, es, mem) + Pending(EndOf(list, sent, es).list, EndOf(list, sent, es).sent)
  }

  /** Written bytes, then pending bytes, are those pending first and those queued. */
  ghost predicate RunRight(list: seq<Bytes>, sent: nat, es: seq<Event>)
    requires Feasible(list, sent, es)
  {
    forall mem: Memory :: Stream(list, sent, es, mem) == Pending(list, sent) + Queued(es)
  }

  /** Each write starts where a message starts: no write before it ended inside one. */
  predicate StartsClean(list: seq<Bytes>, sent: nat, es: seq<Event>)
    decreases |es|
  {
    es == [] ||
    match es[0]
    case Queue(m) => StartsClean(list + [m], sent, es[1..])
    case Wrote(n) =>
      sent == 0 &&
      var r := AdvanceAsWritten(list, sent, n);
      StartsClean(r.list, r.sent, es[1..])
  }

  lemma QueuedPending(list: seq<Bytes>, sent: nat, m: Bytes)
    requires Sound(list, sent) && m != []
    ensures Sound(list + [m], sent) && Pending(list + [m], sent) == Pending(list, sent) + m
  {
    if list == [] {
      assert [m][1..] == [] && m[0..] == m && Flatten([m][1..]) == [];
    } else {
      assert (list + [m])[1..] == list[1..] + [m];
      FlattenSnoc(list[1..], m);
      Regroup(list[0][sent..], Flatten(list[1..]), m);
    }
  }

  predicate HasWrite(es: seq<Event>) { exists i :: 0 <= i < |es| && es[i].Wrote? }

  /** Byte `p` of the wire is one that lay behind a message. */
  ghost predicate StrayAt(list: seq<Bytes>, sent: nat, es: seq<Event>, p: nat, t: nat)
    requires Feasible(list, sent, es)
  {
    forall mem: Memory :: p < |WireOf(list, sent, es, mem)| && WireOf(list, sent, es, mem)[p] == mem(t, 0)
  }

  function Taken(es: seq<Event>): nat {
    if es == [] then 0 else (if es[0].Wrote? then es[0].n else 0) + Taken(es[1..])
  }

  lemma {:induction false} WireLength(list: seq<Bytes>, sent: nat, es: seq<Event>, mem: Memory)
    requires Feasible(list, sent, es)
    ensures |WireOf(list, sent, es, mem)| == Taken(es)
    decreases |es|
  {
    if es != [] {
      match es[0]
      case Queue(m) => WireLength(list + [m], sent, es[1..], mem);
      case Wrote(n) =>
        var r := AdvanceAsWritten(list, sent, n);
        WireLength(r.list, r.sent, es[1..], mem);
        WriteStep(list, sent, es, mem, r);
    }
  }

  /** Wire and pending bytes are at least as many as there are, and more after a write. */
  predicate TooLong(list: seq<Bytes>, sent: nat, es: seq<Event>) {
    var r := EndOf(list, sent, es);
    Taken(es) + |Pending(r.list, r.sent)| >= |Pending(list, sent)| + |Queued(es)| + if HasWrite(es) then 1 else 0
  }

  lemma HasWriteTail(es: seq<Event>)
    requires es != []
    ensures HasWrite(es) <==> es[0].Wrote? || HasWrite(es[1..])
  {
    if i :| 0 < i < |es| && es[i].Wrote? { assert es[1..][i - 1].Wrote?; }
    if i :| 0 <= i < |es[1..]| && es[1..][i].Wrote? { assert es[i + 1].Wrote?; }
  }

  /** From inside a message, a run sends a stray byte or leaves too much. */
  lemma {:induction false} FromInside(list: seq<Bytes>, sent: nat, es: seq<Event>) returns (stray: bool, p: nat, t: nat)
    requires Sound(list, sent) && 0 < sent && list != [] && Feasible(list, sent, es)
    ensures if stray then StrayAt(list, sent, es, p, t) else TooLong(list, sent, es)
    decreases |es|
  {
    stray, p, t := false, 0, 0;
    if es != [] {
      HasWriteTail(es);
      match es[0] {
        case Queue(m) =>
          QueuedPending(list, sent, m);
          stray, p, t := FromInside(list + [m], sent, es[1..]);
          InsideQueue(list, sent, es, stray, p, t);
        case Wrote(n) =>
          if n <= |list[0]| - sent {
            ShortWrite(list, sent, n);
            stray, p, t := FromInside(list, n, es[1..]);
            if stray { ShortStray(list, sent, es, p, t); } else { ShortTooLong(list, sent, es); }
            p := p + n;
          } else {
            stray, p, t := true, |list[0]| - sent, |es|;
            InsideLong(list, sent, es);
          }
      }
    }
  }

  lemma InsideQueue(list: seq<Bytes>, sent: nat, es: seq<Event>, stray: bool, p: nat, t: nat)
    requires Sound(list, sent) && es != [] && es[0].Queue? && Feasible(list, sent, es)
    requires var l := list + [es[0].msg]; if stray then StrayAt(l, sent, es[1..], p, t) else TooLong(l, sent, es[1..])
    ensures if stray then StrayAt(list, sent, es, p, t) else TooLong(list, sent, es)
  {
    var l := list + [es[0].msg];
    QueuedPending(list, sent, es[0].msg);
    HasWriteTail(es);
    forall mem: Memory
      ensures WireOf(list, sent, es, mem) == WireOf(l, sent, es[1..], mem)
      ensures Stream(list, sent, es, mem) == Stream(l, sent, es[1..], mem)
    {
    }
  }

  lemma ShortWire(list: seq<Bytes>, sent: nat, es: seq<Event>, p: nat, mem: Memory)
    requires list != [] && 0 < sent < |list[0]| && es != [] && es[0].Wrote? && Feasible(list, sent, es)
    requires es[0].n <= |list[0]| - sent && Feasible(list, es[0].n, es[1..])
    ensures p < |WireOf(list, es[0].n, es[1..], mem)| ==>
      p + es[0].n < |WireOf(list, sent, es, mem)|
      && WireOf(list, sent, es, mem)[p + es[0].n] == WireOf(list, es[0].n, es[1..], mem)[p]
  {
    var n := es[0].n;
    ShortWrite(list, sent, n);
    WriteStep(list, sent, es, mem, Nf(list, n));
    var e, w := Entries(list, sent, mem, |es|)[..n], WireOf(list, n, es[1..], mem);
    Shifted(e, w, p);
  }

  lemma Shifted(e: Bytes, w: Bytes, p: nat)
    ensures p < |w| ==> p + |e| < |e + w| && (e + w)[p + |e|] == w[p]
  {
  }

  lemma ShortStray(list: seq<Bytes>, sent: nat, es: seq<Event>, p: nat, t: nat)
    requires list != [] && 0 < sent < |list[0]| && es != [] && es[0].Wrote? && Feasible(list, sent, es)
    requires es[0].n <= |list[0]| - sent && Feasible(list, es[0].n, es[1..]) && StrayAt(list, es[0].n, es[1..], p, t)
    ensures StrayAt(list, sent, es, p + es[0].n, t)
  {
    var n := es[0].n;
    forall mem: Memory
      ensures p + n < |WireOf(list, sent, es, mem)| && WireOf(list, sent, es, mem)[p + n] == mem(t, 0)
    {
      ShortWire(list, sent, es, p, mem);
    }
  }

  lemma ShortTooLong(list: seq<Bytes>, sent: nat, es: seq<Event>)
    requires list != [] && 0 < sent < |list[0]| && es != [] && es[0].Wrote? && 0 < es[0].n <= |list[0]| - sent
    requires TooLong(list, es[0].n, es[1..])
    ensures TooLong(list, sent, es)
  {
    ShortWrite(list, sent, es[0].n);
  }

  /** The first write of a run, and the run after it. */
  lemma WriteStep(list: seq<Bytes>, sent: nat, es: seq<Event>, mem: Memory, r: Nf)
    requires list != [] && es != [] && es[0].Wrote? && Feasible(list, sent, es) && r == AdvanceAsWritten(list, sent, es[0].n)
    ensures es[0].n <= |Flatten(list)| && Feasible(r.list, r.sent, es[1..])
    ensures WireOf(list, sent, es, mem) == Entries(list, sent, mem, |es|)[..es[0].n] + WireOf(r.list, r.sent, es[1..], mem)
    ensures EndOf(list, sent, es) == EndOf(r.list, r.sent, es[1..])
  {
  }

  lemma InsideLong(list: seq<Bytes>, sent: nat, es: seq<Event>)
    requires Sound(list, sent) && 0 < sent && list != [] && es != [] && es[0].Wrote? && Feasible(list, sent, es)
    requires es[0].n > |list[0]| - sent
    ensures StrayAt(list, sent, es, |list[0]| - sent, |es|)
  {
    forall mem: Memory
      ensures |list[0]| - sent < |WireOf(list, sent, es, mem)| && WireOf(list, sent, es, mem)[|list[0]| - sent] == mem(|es|, 0)
    {
      LongWrite(list, sent, es[0].n, mem, |es|);
    }
  }

  lemma InsideFails(list: seq<Bytes>, sent: nat, es: seq<Event>)
    requires Sound(list, sent) && 0 < sent && list != [] && HasWrite(es) && Feasible(list, sent, es)
    ensures !RunRight(list, sent, es)
  {
    var stray, p, t := FromInside(list, sent, es);
    if stray { StrayFails(list, sent, es, p, t); } else { TooLongFails(list, sent, es); }
  }

  lemma StrayFails(list: seq<Bytes>, sent: nat, es: seq<Event>, p: nat, t: nat)
    requires Feasible(list, sent, es) && StrayAt(list, sent, es, p, t)
    ensures !RunRight(list, sent, es)
  {
    var due := Pending(list, sent) + Queued(es);
    var c := if p < |due| then OtherThan(due[p]) else 0;
    var mem: Memory := (_, _) => c;
    var w := WireOf(list, sent, es, mem);
    assert p < |w| && w[p] == c;
    assert Stream(list, sent, es, mem)[p] == c;
  }

  lemma WrongLength(list: seq<Bytes>, sent: nat, es: seq<Event>, mem: Memory)
    requires Feasible(list, sent, es) && |Stream(list, sent, es, mem)| != |Pending(list, sent)| + |Queued(es)|
    ensures !RunRight(list, sent, es)
  {
    assert Stream(list, sent, es, mem) != Pending(list, sent) + Queued(es);
  }

  lemma TooLongFails(list: seq<Bytes>, sent: nat, es: seq<Event>)
    requires Feasible(list, sent, es) && TooLong(list, sent, es) && HasWrite(es)
    ensures !RunRight(list, sent, es)
  {
    var mem: Memory := (_, _) => 0;
    StreamLength(list, sent, es, mem);
    WrongLength(list, sent, es, mem);
  }

  lemma StreamLength(list: seq<Bytes>, sent: nat, es: seq<Event>, mem: Memory)
    requires Feasible(list, sent, es)
    ensures |Stream(list, sent, es, mem)| == Taken(es) + |Pending(EndOf(list, sent, es).list, EndOf(list, sent, es).sent)|
  {
    WireLength(list, sent, es, mem);
  }

  lemma QueueStep(list: seq<Bytes>, sent: nat, es: seq<Event>)
    requires Sound(list, sent) && es != [] && es[0].Queue? && Feasible(list, sent, es)
    ensures RunRight(list, sent, es) <==> RunRight(list + [es[0].msg], sent, es[1..])
  {
    var m := es[0].msg;
    QueuedPending(list, sent, m);
    Regroup(Pending(list, sent), m, Queued(es[1..]));
    assert Queued(es) == m + Queued(es[1..]);
    forall mem: Memory ensures Stream(list, sent, es, mem) == Stream(list + [m], sent, es[1..], mem) {
    }
  }

  /** From any sound state. */
  lemma {:induction false} RunFromAsWrittenIff(list: seq<Bytes>, sent: nat, es: seq<Event>)
    requires Sound(list, sent) && Feasible(list, sent, es)
    ensures RunRight(list, sent, es) <==> StartsClean(list, sent, es)
    decreases |es|
  {
    if es == [] {
      assert Pending(list, sent) + Queued(es) == Pending(list, sent);
    } else {
      match es[0]
      case Queue(m) =>
        QueuedPending(list, sent, m);
        RunFromAsWrittenIff(list + [m], sent, es[1..]);
        QueueStep(list, sent, es);
      case Wrote(n) =>
        if sent == 0 {
          WriteFromStart(list, n);
          var r := AdvanceAsWritten(list, 0, n);
          RunFromAsWrittenIff(r.list, r.sent, es[1..]);
          CleanStep(list, es, r);
        } else {
          assert es[0].Wrote?;
          InsideFails(list, sent, es);
        }
    }
  }

  lemma CleanStep(list: seq<Bytes>, es: seq<Event>, r: Nf)
    requires NonEmptyParts(list) && es != [] && es[0].Wrote? && Feasible(list, 0, es)
    requires r == AdvanceAsWritten(list, 0, es[0].n)
    ensures RunRight(list, 0, es) <==> RunRight(r.list, r.sent, es[1..])
  {
    var w, f, p, q := Flatten(list)[..es[0].n], Flatten(list), Pending(r.list, r.sent), Queued(es[1..]);
    WriteFromStart(list, es[0].n);
    PendingOfAll(list);
    Regroup(w, p, q);
    assert Queued(es) == q;
    forall mem: Memory
      ensures Stream(list, 0, es, mem) == w + Stream(r.list, r.sent, es[1..], mem)
    {
      EntriesFromStart(list, mem, |es|);
      Regroup(w, WireOf(r.list, r.sent, es[1..], mem), Pending(EndOf(r.list, r.sent, es[1..]).list, EndOf(r.list, r.sent, es[1..]).sent));
    }
    if RunRight(list, 0, es) {
      forall mem: Memory ensures Stream(r.list, r.sent, es[1..], mem) == p + q {
        assert Stream(list, 0, es, mem) == f + q;
        CancelFront(w, Stream(r.list, r.sent, es[1..], mem), p + q);
      }
    }
  }

  lemma CancelFront(w: Bytes, a: Bytes, b: Bytes)
    requires w + a == w + b
    ensures a == b
  {
    assert (w + a)[|w|..] == a && (w + b)[|w|..] == b;
  }

  /** Over a whole run the code as written is right exactly when every write starts at a message's
  first byte, that is, when no write but the last ends inside a message. */
  lemma RunAsWrittenIff(es: seq<Event>)
    requires Feasible([], 0, es)
    ensures (forall mem: Memory :: Stream([], 0, es, mem) == Queued(es)) <==> StartsClean([], 0, es)
  {
    RunFromAsWrittenIff([], 0, es);
    assert Pending([], 0) + Queued(es) == Queued(es);
    assert RunRight([], 0, es) <==> forall mem: Memory :: Stream([], 0, es, mem) == Queued(es);
  }

  // ---------- libevent ----------

  /** tcp_socket.cc:235-244: the front offset is not used. */
  function Full(list: seq<Bytes>): seq<Bytes> { list[..Min(|list|, MaxIovecNum - 1)] }

  /** tcp_socket.cc:261-274, from entry `i` on: the loop goes one entry too far, where it finds the length
  `past`. None stands for pop_front on an empty list. */
  function AccountAsWritten(vec: seq<Bytes>, list: seq<Bytes>, font: nat, tmp: nat, past: nat): Option<Nf>
    decreases |vec|
  {
    if vec == [] then
      if tmp < past then Some(Nf(list, tmp))
      else if list == [] then None
      else Some(Nf(list[1..], font))
    else if tmp >= |vec[0]| then
      if list == [] then None else AccountAsWritten(vec[1..], list[1..], font, tmp - |vec[0]|, past)
    else Some(Nf(list, tmp))
  }

  /** The accounting of one write is right for the length `past`. */
  predicate RightFor(q: Nf, k: nat, past: nat)
    requires k <= |Flatten(Full(q.list))|
  {
    var r := AccountAsWritten(Full(q.list), q.list, q.sent, k, past);
    r.Some? && Flatten(Full(q.list))[..k] + Pending(r.value.list, r.value.sent) == Pending(q.list, q.sent)
  }

  /** Written bytes, then pending bytes, are the pending bytes there were, whatever is found past the entries. */
  ghost predicate EvRight(list: seq<Bytes>, font: nat, n: nat)
    requires n <= |Flatten(Full(list))|
  {
    forall past: nat :: RightFor(Nf(list, font), n, past)
  }

  /** The accounting of a write that leaves something of the entries. */
  lemma {:induction false} AccountPartial(vec: seq<Bytes>, rest: seq<Bytes>, font: nat, n: nat, past: nat)
    requires n < |Flatten(vec)|
    ensures var r := AccountAsWritten(vec, vec + rest, font, n, past);
      r.Some? && Flatten(vec)[..n] + Pending(r.value.list, r.value.sent) == Flatten(vec + rest)
    decreases |vec|
  {
    FlattenAppend(vec, rest);
    var list := vec + rest;
    assert list[0] == vec[0] && list[1..] == vec[1..] + rest;
    if n >= |vec[0]| {
      AccountPartial(vec[1..], rest, font, n - |vec[0]|, past);
      var r := AccountAsWritten(vec, list, font, n, past);
      assert Flatten(vec)[..n] == vec[0] + Flatten(vec[1..])[..n - |vec[0]|];
      Regroup(vec[0], Flatten(vec[1..])[..n - |vec[0]|], Pending(r.value.list, r.value.sent));
    } else {
      assert Flatten(vec)[..n] == list[0][0..][..n];
      PendingSplits(list, 0, n);
      PendingOfAll(list);
    }
  }

  /** The accounting of a write that took all entries goes on with the length it finds behind them. */
  lemma {:induction false} AccountAll(vec: seq<Bytes>, rest: seq<Bytes>, font: nat, past: nat)
    ensures AccountAsWritten(vec, vec + rest, font, |Flatten(vec)|, past) == AccountAsWritten([], rest, font, 0, past)
    decreases |vec|
  {
    if vec == [] {
      assert vec + rest == rest;
    } else {
      assert (vec + rest)[1..] == vec[1..] + rest;
      AccountAll(vec[1..], rest, font, past);
    }
  }

  /** As written the libevent queue is right exactly when nothing of the front block had been sent
  before and the write leaves something of the entries, or the next block has no byte anyway. */
  lemma EvAsWrittenIff(list: seq<Bytes>, font: nat, n: nat)
    requires list != [] && font <= |list[0]| && 0 < n <= |Flatten(Full(list))|
    ensures EvRight(list, font, n) <==>
      font == 0 && (n < |Flatten(Full(list))| || (|list| >= MaxIovecNum && list[MaxIovecNum - 1] == []))
  {
    var vec := Full(list);
    var rest := list[|vec|..];
    assert vec + rest == list;
    PendingOfAll(list);
    FlattenAppend(vec, rest);
    if n < |Flatten(vec)| {
      forall past: nat
        ensures var r := AccountAsWritten(vec, list, font, n, past);
          r.Some? && Flatten(vec)[..n] + Pending(r.value.list, r.value.sent) == Flatten(list)
      {
        AccountPartial(vec, rest, font, n, past);
      }
      EvOffset(list, font, n);
    } else {
      EvWhole(list, font, vec, rest);
    }
  }

  lemma EvOffset(list: seq<Bytes>, font: nat, n: nat)
    requires list != [] && font <= |list[0]| && n <= |Flatten(Full(list))|
    requires forall past: nat ::
      var r := AccountAsWritten(Full(list), list, font, n, past);
      r.Some? && Flatten(Full(list))[..n] + Pending(r.value.list, r.value.sent) == Flatten(list)
    ensures EvRight(list, font, n) <==> font == 0
  {
    PendingOfAll(list);
    if font > 0 {
      assert |Pending(list, font)| < |Flatten(list)|;
      var r := AccountAsWritten(Full(list), list, font, n, 0);
      assert Flatten(Full(list))[..n] + Pending(r.value.list, r.value.sent) == Flatten(list);
      assert !RightFor(Nf(list, font), n, 0);
    }
  }

  /** All entries taken: with a length of 0 behind them one block too many is popped, or none is left to pop;
  with another length the sent part of the front block was sent again. */
  lemma EvWhole(list: seq<Bytes>, font: nat, vec: seq<Bytes>, rest: seq<Bytes>)
    requires list != [] && font <= |list[0]| && vec == Full(list) && vec + rest == list && 0 < |Flatten(vec)|
    ensures EvRight(list, font, |Flatten(vec)|) <==> font == 0 && rest != [] && rest[0] == []
  {
    var n, f := |Flatten(vec)|, Flatten(vec);
    assert f[..n] == f;
    FlattenAppend(vec, rest);
    PendingOfAll(list);
    PendingOfAll(rest);
    forall past: nat ensures AccountAsWritten(vec, list, font, n, past) == AccountAsWritten([], rest, font, 0, past) {
      AccountAll(vec, rest, font, past);
    }
    if font > 0 {
      assert |Pending(list, font)| < |Flatten(list)|;
      assert AccountAsWritten(vec, list, font, n, 1) == Some(Nf(rest, 0));
      assert !RightFor(Nf(list, font), n, 1);
    } else if rest != [] {
      PendingOfAll(rest[1..]);
      assert AccountAsWritten(vec, list, 0, n, 0) == Some(Nf(rest[1..], 0));
      assert RightFor(Nf(list, 0), n, 0) <==> rest[0] == [];
    } else {
      assert AccountAsWritten(vec, list, 0, n, 0) == None;
      assert !RightFor(Nf(list, 0), n, 0);
    }
  }

  /** A single block that one write takes whole already shows it. */
  lemma WholeBlockFails()
    ensures |Flatten(Full([[1]]))| == 1 && !EvRight([[1]], 0, 1)
  {
    var list: seq<Bytes> := [[1]];
    assert Full(list) == list && list[1..] == [] && Flatten(list) == [1];
    EvAsWrittenIff(list, 0, 1);
  }

  // ---------- libevent: whole runs ----------

  /** How many bytes the kernel takes, if it takes up to `n`. */
  function TakenOf(list: seq<Bytes>, n: nat): nat { Min(n, |Flatten(Full(list))|) }

  /** Bytes on the wire, then the queue; `past(t)` is the length found behind the entries in event `t`. None stands for
  pop_front on an empty list. A write that takes nothing accounts for nothing. */
  function EvRun(es: seq<Event>, past: nat -> nat): Option<(Bytes, Nf)> {
    if es == [] then Some(([], Nf([], 0)))
    else
      var t := |es| - 1;
      match EvRun(es[..t], past)
      case None => None
      case Some(st) =>
        match es[t]
        case Queue(m) => Some((st.0, Nf(st.1.list + [m], st.1.sent)))
        case Wrote(n) =>
          var k := TakenOf(st.1.list, n);
          if k == 0 then Some(st)
          else
            match AccountAsWritten(Full(st.1.list), st.1.list, st.1.sent, k, past(t))
            case None => None
            case Some(r) => Some((st.0 + Flatten(Full(st.1.list))[..k], r))
  }

  /** Written bytes, then pending bytes, are the bytes queued. */
  ghost predicate EvStreamRight(es: seq<Event>, past: nat -> nat) {
    var r := EvRun(es, past);
    r.Some? && r.value.0 + Pending(r.value.1.list, r.value.1.sent) == Queued(es)
  }

  /** At every point of the run, whatever is found behind the entries. */
  ghost predicate EvRunRight(es: seq<Event>) {
    (forall past: nat -> nat :: EvStreamRight(es, past)) && (es == [] || EvRunRight(es[..|es| - 1]))
  }

  const Ones: nat -> nat := _ => 1

  /** Every write that takes something starts at a block's first byte and leaves something of the entries. */
  ghost predicate EvClean(es: seq<Event>) {
    es == [] ||
    var t := |es| - 1;
    && EvClean(es[..t])
    && (es[t].Wrote? ==>
          var st := EvRun(es[..t], Ones);
          st.Some? ==> CleanWrite(st.value.1, es[t].n))
  }

  predicate CleanWrite(q: Nf, n: nat) {
    TakenOf(q.list, n) == 0 || (q.sent == 0 && TakenOf(q.list, n) < |Flatten(Full(q.list))|)
  }

  predicate MessagesNotEmpty(es: seq<Event>) {
    forall i :: 0 <= i < |es| && es[i].Queue? ==> es[i].msg != []
  }

  /** After a write that leaves something of the entries the offset is inside the front block. */
  lemma {:induction false} AccountSound(vec: seq<Bytes>, rest: seq<Bytes>, font: nat, n: nat, past: nat)
    requires NonEmptyParts(vec + rest) && n < |Flatten(vec)|
    ensures AccountAsWritten(vec, vec + rest, font, n, past) == AccountAsWritten(vec, vec + rest, font, n, 1)
    ensures var r := AccountAsWritten(vec, vec + rest, font, n, past);
      r.Some? && Sound(r.value.list, r.value.sent)
    decreases |vec|
  {
    assert (vec + rest)[1..] == vec[1..] + rest && (vec + rest)[0] == vec[0];
    if n >= |vec[0]| { AccountSound(vec[1..], rest, font, n - |vec[0]|, past); }
  }

  /** One clean write. */
  lemma CleanWriteRight(q: Nf, n: nat, past: nat)
    requires Sound(q.list, q.sent) && q.sent == 0 && 0 < TakenOf(q.list, n) < |Flatten(Full(q.list))|
    ensures var k := TakenOf(q.list, n);
      var r := AccountAsWritten(Full(q.list), q.list, q.sent, k, past);
      && r == AccountAsWritten(Full(q.list), q.list, q.sent, k, 1) && r.Some? && Sound(r.value.list, r.value.sent)
      && Flatten(Full(q.list))[..k] + Pending(r.value.list, r.value.sent) == Pending(q.list, q.sent)
  {
    var vec := Full(q.list);
    var rest := q.list[|vec|..];
    assert vec + rest == q.list;
    AccountSound(vec, rest, 0, TakenOf(q.list, n), past);
    AccountPartial(vec, rest, 0, TakenOf(q.list, n), past);
    PendingOfAll(q.list);
  }

  /** A clean run goes the same way whatever is found behind the entries, and is right. */
  lemma {:induction false} CleanRun(es: seq<Event>, past: nat -> nat)
    requires MessagesNotEmpty(es) && EvClean(es)
    ensures EvRun(es, past) == EvRun(es, Ones) && EvStreamRight(es, past)
    ensures Sound(EvRun(es, past).value.1.list, EvRun(es, past).value.1.sent)
  {
    if es != [] {
      var t := |es| - 1;
      var before := es[..t];
      assert es == before + [es[t]];
      CleanRun(before, past);
      var st := EvRun(before, past).value;
      QueuedLast(before, es[t]);
      match es[t]
      case Queue(m) =>
        QueuedPending(st.1.list, st.1.sent, m);
        Regroup(st.0, Pending(st.1.list, st.1.sent), m);
      case Wrote(n) =>
        if TakenOf(st.1.list, n) > 0 {
          var k := TakenOf(st.1.list, n);
          CleanWriteRight(st.1, n, past(t));
          var r := AccountAsWritten(Full(st.1.list), st.1.list, st.1.sent, k, past(t)).value;
          Regroup(st.0, Flatten(Full(st.1.list))[..k], Pending(r.list, r.sent));
        }
    }
  }

  lemma {:induction false} QueuedLast(es: seq<Event>, e: Event)
    ensures Queued(es + [e]) == Queued(es) + Own(e)
  {
    if es == [] {
      assert es + [e] == [e] && [e][1..] == [];
    } else {
      assert (es + [e])[1..] == es[1..] + [e];
      QueuedLast(es[1..], e);
      Regroup(Own(es[0]), Queued(es[1..]), Own(e));
    }
  }

  lemma BadPast(q: Nf, n: nat) returns (p: nat)
    requires Sound(q.list, q.sent) && !CleanWrite(q, n)
    ensures 0 < TakenOf(q.list, n) && !RightFor(q, TakenOf(q.list, n), p)
  {
    var k := TakenOf(q.list, n);
    assert q.list != [];
    NextBlockHolds(q.list);
    EvAsWrittenIff(q.list, q.sent, k);
    assert !EvRight(q.list, q.sent, k) && Nf(q.list, q.sent) == q;
    p :| !RightFor(q, k, p);
  }

  /** A write that is not clean, after a clean run, goes wrong for something behind the entries. */
  lemma UncleanFails(es: seq<Event>, before: seq<Event>, n: nat)
    requires es == before + [Wrote(n)] && MessagesNotEmpty(before) && EvClean(before)
    requires EvRun(before, Ones).Some? && !CleanWrite(EvRun(before, Ones).value.1, n)
    ensures exists past: nat -> nat :: !EvStreamRight(es, past)
  {
    CleanRun(before, Ones);
    var st := EvRun(before, Ones).value;
    var p := BadPast(st.1, n);
    var past: nat -> nat := _ => p;
    CleanRun(before, past);
    QueuedLast(before, Wrote(n));
    assert Queued(before) + [] == Queued(before);
    assert es[..|es| - 1] == before;
    UncleanStream(es, past, st, TakenOf(st.1.list, n));
  }

  lemma NextBlockHolds(list: seq<Bytes>)
    requires NonEmptyParts(list)
    ensures |list| >= MaxIovecNum ==> list[MaxIovecNum - 1] != []
  {
  }

  lemma UncleanStream(es: seq<Event>, past: nat -> nat, st: (Bytes, Nf), k: nat)
    requires es != [] && es[|es| - 1].Wrote? && EvRun(es[..|es| - 1], past) == Some(st)
    requires k == TakenOf(st.1.list, es[|es| - 1].n) > 0 && !RightFor(st.1, k, past(|es| - 1))
    requires st.0 + Pending(st.1.list, st.1.sent) == Queued(es)
    ensures !EvStreamRight(es, past)
  {
    var r := AccountAsWritten(Full(st.1.list), st.1.list, st.1.sent, k, past(|es| - 1));
    if r.Some? {
      var w, p := Flatten(Full(st.1.list))[..k], Pending(r.value.list, r.value.sent);
      Regroup(st.0, w, p);
      if (st.0 + w) + p == Queued(es) { CancelFront(st.0, w + p, Pending(st.1.list, st.1.sent)); }
    }
  }

  /** As written the libevent queue keeps the stream right throughout a run exactly when every write that takes
  something starts at a block's first byte and leaves something of the entries. */
  lemma {:induction false} EvRunAsWrittenIff(es: seq<Event>)
    requires MessagesNotEmpty(es)
    ensures EvRunRight(es) <==> EvClean(es)
  {
    if es == [] {
      forall past: nat -> nat ensures EvStreamRight(es, past) { }
    } else {
      var before := es[..|es| - 1];
      EvRunAsWrittenIff(before);
      if EvClean(es) {
        forall past: nat -> nat ensures EvStreamRight(es, past) { CleanRun(es, past); }
      } else if EvClean(before) {
        assert es == before + [es[|es| - 1]];
        UncleanFails(es, before, es[|es| - 1].n);
      }
    }
  }
}
