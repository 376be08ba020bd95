/** Send queues that keep whole messages and one offset into the front message (nf and libevent). */
module OffsetQueue {
  import opened Common
  import opened SendQueue

  /** The unsent parts: the front message from `sent` on, the others whole. */
  function Parts(list: seq<Bytes>, sent: nat): seq<Bytes>
    requires list != [] ==> sent <= |list[0]|
  {
    if list == [] then [] else [list[0][sent..]] + list[1..]
  }

  lemma PartsWhole(list: seq<Bytes>)
    ensures Parts(list, 0) == list
  {
    if list != [] { assert list[0][0..] == list[0]; }
  }

  /** Dropping a front part that was taken whole. */
  lemma DropFront(list: seq<Bytes>, sent: nat, left: nat)
    requires list != [] && sent <= |list[0]| && |list[0]| - sent <= left && 0 < left
    ensures Consume(Parts(list, sent), left) == Consume(Parts(list[1..], 0), left - (|list[0]| - sent))
  {
    PartsWhole(list[1..]);
    assert Parts(list, sent)[1..] == list[1..];
  }

  lemma CutFront(list: seq<Bytes>, sent: nat, left: nat)
    requires list != [] && sent <= |list[0]| && left < |list[0]| - sent
    ensures Consume(Parts(list, sent), left) == Parts(list, sent + left)
  {
    assert Parts(list, sent)[1..] == list[1..];
    assert list[0][sent..][left..] == list[0][sent + left..];
  }

  lemma ConsumeZero(q: seq<Bytes>)
    ensures Consume(q, 0) == q
  {
  }

  // ---------- nf ----------

  datatype WriteResult = Took(n: nat) | Interrupted | WouldBlock | Failed

  /** What the kernel's answers to one call of OnWritable do to a queue, and the code returned: 0 when the
  kernel would block, -1 on an error, 1 when the queue is empty. An interrupted write is tried again. */
  function After(q: seq<Bytes>, results: seq<WriteResult>): (seq<Bytes>, int)
    decreases |results|
  {
    if results == [] then (q, 0)
    else
      match results[0]
      case WouldBlock => (q, 0)
      case Failed => (q, -1)
      case Interrupted => After(q, results[1..])
      case Took(n) =>
        var q' := Consume(q, Min(n, |Flatten(q)|));
        if q' == [] then (q', 1) else After(q', results[1..])
  }

  /** The position of the first answer that ends the call: one that would block, or a failure. */
  function FirstStop(results: seq<WriteResult>): (k: nat)
    ensures k <= |results| && (k < |results| ==> results[k].WouldBlock? || results[k].Failed?)
    ensures forall i :: 0 <= i < k ==> results[i].Took? || results[i].Interrupted?
  {
    if results == [] || results[0].WouldBlock? || results[0].Failed? then 0 else 1 + FirstStop(results[1..])
  }

  /** With bytes still queued, a failure gives -1; one that would block, or the end of the answers, gives 0. */
  lemma {:induction false} CodeOfStop(q: seq<Bytes>, results: seq<WriteResult>)
    requires q != []
    ensures var r, k := After(q, results), FirstStop(results);
      && (r.0 == [] <==> r.1 == 1)
      && (r.0 != [] ==> r.1 == if k < |results| && results[k].Failed? then -1 else 0)
    decreases |results|
  {
    if results != [] {
      match results[0]
      case WouldBlock =>
      case Failed =>
      case Interrupted => CodeOfStop(q, results[1..]);
      case Took(n) =>
        var q' := Consume(q, Min(n, |Flatten(q)|));
        if q' != [] { CodeOfStop(q', results[1..]); }
    }
  }

  /** How many bytes the kernel took in that call. */
  function TakenBy(q: seq<Bytes>, results: seq<WriteResult>): nat
    decreases |results|
  {
    if results == [] || results[0].WouldBlock? || results[0].Failed? then 0
    else if results[0].Interrupted? then TakenBy(q, results[1..])
    else
      var k := Min(results[0].n, |Flatten(q)|);
      var q' := Consume(q, k);
      k + if q' == [] then 0 else TakenBy(q', results[1..])
  }

  lemma ConsumePart(q: seq<Bytes>, k: nat, more: nat)
    requires k <= |Flatten(q)| && more <= |Flatten(Consume(q, k))|
    ensures Consume(Consume(q, k), more) == Consume(q, k + more) && k + more <= |Flatten(q)|
  {
    ConsumeTwice(q, k, more);
    FlattenConsume(q, k);
  }

  lemma {:induction false} AfterConsumes(q: seq<Bytes>, results: seq<WriteResult>)
    ensures After(q, results).0 == Consume(q, TakenBy(q, results)) && TakenBy(q, results) <= |Flatten(q)|
    decreases |results|
  {
    ConsumeZero(q);
    if results != [] {
      match results[0]
      case WouldBlock =>
      case Failed =>
      case Interrupted => AfterConsumes(q, results[1..]);
      case Took(n) =>
        var k := Min(n, |Flatten(q)|);
        AfterConsumes(Consume(q, k), results[1..]);
        ConsumePart(q, k, TakenBy(Consume(q, k), results[1..]));
    }
  }

  /** The call loses exactly the bytes taken, from the front. */
  lemma AfterLosesTaken(q: seq<Bytes>, results: seq<WriteResult>)
    ensures TakenBy(q, results) <= |Flatten(q)|
    ensures Flatten(After(q, results).0) == Flatten(q)[TakenBy(q, results)..]
  {
    AfterConsumes(q, results);
    FlattenConsume(q, TakenBy(q, results));
  }

  ghost predicate NonEmptyParts(list: seq<Bytes>) {
    forall i :: 0 <= i < |list| ==> list[i] != []
  }

  class NfSocket {
    var list: seq<Bytes>
    var sent: nat
    const maxSendList: nat

    /** Messages are not empty: `writev` of nothing would trip the assertion in OnWritable. */
    ghost predicate Valid()
      reads this
    {
      NonEmptyParts(list) && if list == [] then sent == 0 else sent < |list[0]|
    }

    function Unsent(): seq<Bytes>
      reads this
      requires Valid()
    {
      Parts(list, sent)
    }

    constructor (maxSendList: nat)
      ensures Valid() && list == []
    {
      this.maxSendList, list, sent := maxSendList, [], 0;
    }

    method AsyncSend(msg: Bytes) returns (ok: bool)
      requires Valid() && msg != []
      modifies this
      ensures Valid() && (ok <==> |old(list)| <= maxSendList)
      ensures Unsent() == if ok then old(Unsent()) + [msg] else old(Unsent())
    {
      if |list| > maxSendList { return false; }
      if list == [] { assert msg[0..] == msg; }
      else { assert (list + [msg])[1..] == list[1..] + [msg]; }
      list := list + [msg];
      return true;
    }

    /** The accounting after one writev that took `n` bytes. */
    method Advance(n: nat)
      requires Valid() && n <= |Flatten(Unsent())|
      modifies this
      ensures Valid() && Unsent() == Consume(old(Unsent()), n)
      ensures (list, sent) == AdvanceIntended(old(list), old(sent), n)
    {
      ghost var q := Unsent();
      var left := n;
      while left > 0
        invariant Valid() && 0 <= left <= |Flatten(Unsent())|
        invariant AdvanceIntended(list, sent, left) == AdvanceIntended(old(list), old(sent), n)
        invariant Consume(Unsent(), left) == Consume(q, n)
      {
        var len := |list[0]| - sent;
        if len <= left {
          DropFront(list, sent, left);
          FrontLength(list, sent);
          PartsWhole(list[1..]);
          list := list[1..];
          sent := 0;
          left := left - len;
        } else {
          CutFront(list, sent, left);
          sent := sent + left;
          left := 0;
        }
      }
    }

    /** The entries of one round: the front message without its sent part, and the others. */
    method Gather() returns (vec: seq<Bytes>)
      requires Valid()
      ensures |vec| == |list| && Flatten(vec) == Flatten(Unsent())
    {
      vec := [];
      ghost var parts := Parts(list, sent);
      var i := 0;
      while i < |list|
        invariant 0 <= i <= |list| == |parts| && vec == parts[..i]
      {
        assert parts[..i + 1] == parts[..i] + [parts[i]];
        vec := vec + [if i > 0 then list[i] else list[i][sent..]];
        i := i + 1;
      }
      assert parts[..|parts|] == parts;
    }

    /** Writes until the kernel would block, fails, or the list is empty; `results` are the kernel's answers,
    and `wire` is what it took. */
    method OnWritable(results: seq<WriteResult>) returns (code: int, wire: Bytes)
      requires Valid() && list != []
      requires forall i :: 0 <= i < |results| && results[i].Took? ==> 0 < results[i].n
      modifies this
      ensures Valid() && (Unsent(), code) == After(old(Unsent()), results)
      ensures code == 1 <==> list == []
      ensures list != [] ==>
        code == if FirstStop(results) < |results| && results[FirstStop(results)].Failed? then -1 else 0
      ensures wire + Flatten(Unsent()) == old(Flatten(Unsent()))
    {
      CodeOfStop(Unsent(), results);
      wire := [];
      var i := 0;
      while true
        invariant 0 <= i <= |results| && Valid() && list != []
        invariant After(Unsent(), results[i..]) == After(old(Unsent()), results)
        invariant wire + Flatten(Unsent()) == old(Flatten(Unsent()))
        decreases |results| - i
      {
        if i == |results| || results[i].WouldBlock? { return 0, wire; }
        if results[i].Failed? { return -1, wire; }
        assert results[i..][1..] == results[i + 1..];
        if results[i].Took? {
          var took := Take(results[i].n, wire);
          wire := wire + took;
          if |list| == 0 { return 1, wire; }
        }
        i := i + 1;
      }
    }

    /** One write: the kernel takes at most `n` bytes of the entries. */
    method Take(n: nat, ghost wire: Bytes) returns (took: Bytes)
      requires Valid()
      modifies this
      ensures Valid() && Unsent() == Consume(old(Unsent()), Min(n, |Flatten(old(Unsent()))|))
      ensures (wire + took) + Flatten(Unsent()) == wire + old(Flatten(Unsent()))
    {
      var vec := Gather();
      var k := Min(n, |Flatten(vec)|);
      took := Flatten(vec)[..k];
      ghost var q := Unsent();
      Advance(k);
      WireThenPending(q, vec, k, Unsent());
      Regroup(wire, took, Flatten(Unsent()));
    }
  }

  lemma FrontLength(list: seq<Bytes>, sent: nat)
    requires list != [] && sent <= |list[0]|
    ensures |Flatten(Parts(list, sent))| == |list[0]| - sent + |Flatten(Parts(list[1..], 0))|
  {
    PartsWhole(list[1..]);
    assert Parts(list, sent)[1..] == list[1..];
  }

  /** The accounting that Advance performs. */
  function AdvanceIntended(list: seq<Bytes>, sent: nat, left: nat): (seq<Bytes>, nat)
    requires list != [] ==> sent <= |list[0]|
    decreases |list|
  {
    if left == 0 || list == [] then (list, sent)
    else if |list[0]| - sent <= left then AdvanceIntended(list[1..], 0, left - (|list[0]| - sent))
    else (list, sent + left)
  }

  /** The method's accounting is that of the specification. */
  lemma {:induction false} IntendedConsumes(list: seq<Bytes>, sent: nat, left: nat)
    requires NonEmptyParts(list) && (if list == [] then sent == 0 else sent < |list[0]|)
    ensures var r := AdvanceIntended(list, sent, left);
      (r.0 != [] ==> r.1 <= |r.0[0]|) && Parts(r.0, r.1) == Consume(Parts(list, sent), left)
    decreases |list|
  {
    if left != 0 && list != [] {
      if |list[0]| - sent <= left {
        DropFront(list, sent, left);
        IntendedConsumes(list[1..], 0, left - (|list[0]| - sent));
      } else {
        CutFront(list, sent, left);
      }
    }
  }

  // ---------- libevent ----------

  const MaxIovecNum := 1000

  /** At most 999 blocks are offered to one writev. */
  function Offered(list: seq<Bytes>, front: nat): seq<Bytes>
    requires list != [] ==> front <= |list[0]|
  {
    Parts(list, front)[..Min(|list|, MaxIovecNum - 1)]
  }

  /** The entries hold the first pending bytes, and all of them if fewer than 1000 blocks wait. */
  lemma OfferedFirst(list: seq<Bytes>, front: nat)
    requires list != [] ==> front <= |list[0]|
    ensures Flatten(Offered(list, front)) <= Flatten(Parts(list, front))
    ensures |list| < 1000 ==> Flatten(Offered(list, front)) == Flatten(Parts(list, front))
  {
    var parts := Parts(list, front);
    var n := Min(|list|, MaxIovecNum - 1);
    assert parts == parts[..n] + parts[n..];
    FlattenAppend(parts[..n], parts[n..]);
  }

  class TcpSocket {
    var list: seq<Bytes>
    var front: nat

    ghost predicate Valid()
      reads this
    {
      if list == [] then front == 0 else front <= |list[0]|
    }

    function Unsent(): seq<Bytes>
      reads this
      requires Valid()
    {
      Parts(list, front)
    }

    constructor ()
      ensures Valid() && list == []
    {
      list, front := [], 0;
    }

    method PushDataToSend(mb: Bytes)
      requires Valid()
      modifies this
      ensures Valid() && Unsent() == old(Unsent()) + [mb]
    {
      if list == [] { assert mb[0..] == mb; }
      else { assert (list + [mb])[1..] == list[1..] + [mb]; }
      list := list + [mb];
    }

    /** The entries of the iovec array. */
    method Gather() returns (vec: seq<Bytes>)
      requires Valid()
      ensures vec == Offered(list, front) && |vec| == Min(|list|, 999)
      ensures Flatten(vec) <= Flatten(Unsent()) && (|list| < 1000 ==> Flatten(vec) == Flatten(Unsent()))
    {
      OfferedFirst(list, front);
      vec := [];
      var i := 0;
      ghost var parts := Parts(list, front);
      while i < |list|
        invariant 0 <= i <= |list| == |parts| && i < MaxIovecNum - 1 && vec == parts[..i]
      {
        assert parts[..i + 1] == parts[..i] + [parts[i]];
        vec := vec + [if i == 0 then list[0][front..] else list[i]];
        i := i + 1;
        if i == MaxIovecNum - 1 { break; }
      }
    }

    /** Accounts for `tmp` written bytes at the front block: it goes, or keeps its rest. */
    method Account(tmp: nat) returns (left: nat, stop: bool)
      requires Valid() && list != []
      modifies this
      ensures Valid() && Strip(Consume(Unsent(), left)) == Strip(Consume(old(Unsent()), tmp))
      ensures stop ==> left == 0
      ensures !stop ==> list == old(list)[1..] && front == 0 && tmp >= |old(Unsent())[0]| && left == tmp - |old(Unsent())[0]|
    {
      var size := |list[0]| - front;
      if tmp >= size {
        DropBlock(list, front, tmp);
        list := list[1..];
        front := 0;
        return tmp - size, false;
      }
      CutFront(list, front, tmp);
      front := front + tmp;
      ConsumeZero(Unsent());
      return 0, true;
    }

    /** `wrote` is what writev returned, `again` whether errno asks to retry; `wire` is what it took of the entries. */
    method WriteHandler(wrote: int, again: bool) returns (code: int, wire: Bytes)
      requires Valid() && wrote <= |Flatten(Offered(list, front))|
      modifies this
      ensures Valid()
      ensures wrote <= 0 ==> Unsent() == old(Unsent()) && code == if again then 0 else -2
      ensures 0 < wrote ==> Follows(old(Unsent()), Wrote(wrote), Unsent()) && code == if list == [] then 1 else 0
      ensures |wire| == (if 0 < wrote then wrote else 0) && wire + Flatten(Unsent()) == old(Flatten(Unsent()))
    {
      var vec := Gather();
      if wrote <= 0 {
        assert [] + Flatten(Unsent()) == Flatten(Unsent());
        return if again then 0 else -2, [];
      }
      wire := Flatten(vec)[..wrote];
      ghost var q := Unsent();
      var tmp := wrote;
      var i := 0;
      while i < |vec|
        invariant 0 <= i <= |vec| && Valid() && vec[i..] <= Unsent()
        invariant 0 <= tmp <= |Flatten(vec[i..])|
        invariant Strip(Consume(Unsent(), tmp)) == Strip(Consume(q, wrote))
      {
        ghost var u := Unsent();
        NextEntry(vec, i, u);
        var left, stop := Account(tmp);
        tmp := left;
        if stop { break; }
        assert Unsent() == u[1..];
        i := i + 1;
      }
      ConsumeZero(Unsent());
      WireThenPending(q, vec, wrote, Unsent());
      code := if |list| == 0 then 1 else 0;
    }
  }

  lemma NextEntry(vec: seq<Bytes>, i: nat, u: seq<Bytes>)
    requires i < |vec| && vec[i..] <= u
    ensures u != [] && u[0] == vec[i] && vec[i + 1..] <= u[1..]
    ensures |Flatten(vec[i..])| == |vec[i]| + |Flatten(vec[i + 1..])|
  {
    assert vec[i..][1..] == vec[i + 1..];
  }

  /** Dropping a block taken whole, even an empty one after the last byte. */
  lemma DropBlock(list: seq<Bytes>, sent: nat, left: nat)
    requires list != [] && sent <= |list[0]| && |list[0]| - sent <= left
    ensures Strip(Consume(Parts(list, sent), left)) == Strip(Consume(Parts(list[1..], 0), left - (|list[0]| - sent)))
  {
    PartsWhole(list[1..]);
    assert Parts(list, sent)[1..] == list[1..];
    if left > 0 { DropFront(list, sent, left); }
    else { assert Parts(list, sent)[0] == []; ConsumeZero(list[1..]); }
  }
}
