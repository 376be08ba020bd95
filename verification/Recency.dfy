/** The recency list of server sockets, as a sequence: the latest used comes first. */
module RecencySpec {
  import opened Common

  /** gettimeofday. */
  datatype Time = Time(sec: nat, usec: nat)

  datatype Seen = Seen(id: nat, atime: Time)

  const Wrap := 0x1_0000_0000_0000_0000

  function Micros(t: Time): nat { t.sec * 1_000_000 + t.usec }

  /** The difference the code takes, in unsigned 64-bit arithmetic. */
  function Elapsed(now: Time, t: Time): nat {
    ((now.sec - t.sec) * 1_000_000 + now.usec - t.usec) % 0x1_0000_0000_0000_0000
  }

  lemma ElapsedIsDifference(now: Time, t: Time)
    requires Micros(t) <= Micros(now) < Wrap
    ensures Elapsed(now, t) == Micros(now) - Micros(t)
  {
    assert (now.sec - t.sec) * 1_000_000 + now.usec - t.usec == Micros(now) - Micros(t);
  }

  predicate Idle(e: Seen, now: Time, timeout: nat) { Elapsed(now, e.atime) >= timeout }

  /** What a filter over the whole list would keep. */
  function Kept(l: seq<Seen>, now: Time, timeout: nat): seq<Seen> {
    if l == [] then []
    else
      var rest, e := Kept(l[..|l| - 1], now, timeout), l[|l| - 1];
      if Idle(e, now, timeout) then rest else rest + [e]
  }

  /** Where the sweep ends: it goes from the tail and stops at the first socket that is not idle. */
  function SweepEnd(l: seq<Seen>, n: nat, now: Time, timeout: nat): (k: nat)
    requires n <= |l|
    ensures k <= n && (k > 0 ==> !Idle(l[k - 1], now, timeout))
    ensures forall j :: k <= j < n ==> Idle(l[j], now, timeout)
  {
    if n == 0 || !Idle(l[n - 1], now, timeout) then n else SweepEnd(l, n - 1, now, timeout)
  }

  /** What the sweep keeps. */
  function SweepTail(l: seq<Seen>, now: Time, timeout: nat): seq<Seen> {
    l[..SweepEnd(l, |l|, now, timeout)]
  }

  /** The idle sockets are together at the end. */
  ghost predicate IdleAtEnd(l: seq<Seen>, now: Time, timeout: nat) {
    forall i, j :: 0 <= i <= j < |l| && Idle(l[i], now, timeout) ==> Idle(l[j], now, timeout)
  }

  lemma IdleGoesOn(l: seq<Seen>, i: nat, j: nat, now: Time, timeout: nat)
    requires IdleAtEnd(l, now, timeout) && i <= j < |l|
    ensures Idle(l[i], now, timeout) ==> Idle(l[j], now, timeout)
  {
  }

  lemma {:induction false} KeptAll(l: seq<Seen>, now: Time, timeout: nat)
    ensures |Kept(l, now, timeout)| <= |l|
    ensures Kept(l, now, timeout) == l <==> forall i :: 0 <= i < |l| ==> !Idle(l[i], now, timeout)
  {
    if l != [] {
      var n := |l| - 1;
      var front := l[..n];
      KeptAll(front, now, timeout);
      assert l == front + [l[n]];
      assert forall i :: 0 <= i < n ==> front[i] == l[i];
      if !Idle(l[n], now, timeout) && Kept(l, now, timeout) == l {
        assert Kept(front, now, timeout) == (Kept(front, now, timeout) + [l[n]])[..n] == l[..n];
      }
    }
  }

  lemma {:induction false} KeptBefore(l: seq<Seen>, k: nat, now: Time, timeout: nat)
    requires k <= |l| && forall j :: k <= j < |l| ==> Idle(l[j], now, timeout)
    ensures Kept(l, now, timeout) == Kept(l[..k], now, timeout)
  {
    if k < |l| {
      var front := l[..|l| - 1];
      KeptBefore(front, k, now, timeout);
      assert front[..k] == l[..k];
    } else {
      assert l[..k] == l;
    }
  }

  /** Stopping early is right exactly when the idle sockets are together at the end. */
  lemma SweepIsFilterIff(l: seq<Seen>, now: Time, timeout: nat)
    ensures SweepTail(l, now, timeout) == Kept(l, now, timeout) <==> IdleAtEnd(l, now, timeout)
  {
    var k := SweepEnd(l, |l|, now, timeout);
    KeptBefore(l, k, now, timeout);
    KeptAll(l[..k], now, timeout);
    IdleAtEndIff(l, k, now, timeout);
  }

  lemma IdleAtEndIff(l: seq<Seen>, k: nat, now: Time, timeout: nat)
    requires k <= |l| && (k > 0 ==> !Idle(l[k - 1], now, timeout))
    requires forall j :: k <= j < |l| ==> Idle(l[j], now, timeout)
    ensures IdleAtEnd(l, now, timeout) <==> forall i :: 0 <= i < k ==> !Idle(l[..k][i], now, timeout)
  {
    if IdleAtEnd(l, now, timeout) {
      forall i | 0 <= i < k ensures !Idle(l[..k][i], now, timeout) {
        IdleGoesOn(l, i, k - 1, now, timeout);
      }
    } else {
      var i, j :| 0 <= i <= j < |l| && Idle(l[i], now, timeout) && !Idle(l[j], now, timeout);
      assert l[..k][i] == l[i];
    }
  }

  // ---------- order by access time ----------

  ghost predicate Sorted(l: seq<Seen>) {
    forall i, j :: 0 <= i <= j < |l| ==> Micros(l[j].atime) <= Micros(l[i].atime)
  }

  ghost predicate NoneAfter(l: seq<Seen>, now: Time) {
    forall i :: 0 <= i < |l| ==> Micros(l[i].atime) <= Micros(now)
  }

  lemma SortedIdleAtEnd(l: seq<Seen>, now: Time, timeout: nat)
    requires Sorted(l) && NoneAfter(l, now) && Micros(now) < Wrap
    ensures IdleAtEnd(l, now, timeout)
  {
    forall i, j | 0 <= i <= j < |l| && Idle(l[i], now, timeout) ensures Idle(l[j], now, timeout) {
      ElapsedIsDifference(now, l[i].atime);
      ElapsedIsDifference(now, l[j].atime);
    }
  }

  function Drop(l: seq<Seen>, i: nat): (d: seq<Seen>)
    requires i < |l|
    ensures |d| == |l| - 1 && forall j {:trigger d[j]} :: 0 <= j < |d| ==> d[j] == l[if j < i then j else j + 1]
  {
    l[..i] + l[i + 1..]
  }

  /** Using a socket moves it to the front with a new time. */
  function Mark(l: seq<Seen>, i: nat, now: Time): seq<Seen>
    requires i < |l|
  {
    [l[i].(atime := now)] + Drop(l, i)
  }

  lemma DropSorted(l: seq<Seen>, i: nat)
    requires Sorted(l) && i < |l|
    ensures Sorted(Drop(l, i))
  {
    var d := Drop(l, i);
    forall a, b | 0 <= a <= b < |d| ensures Micros(d[b].atime) <= Micros(d[a].atime) {
      var x, y := if a < i then a else a + 1, if b < i then b else b + 1;
      assert d[a] == l[x] && d[b] == l[y];
    }
  }

  lemma FirstSorted(e: Seen, d: seq<Seen>)
    requires Sorted(d)
    ensures Sorted([e] + d) <==> NoneAfter(d, e.atime)
  {
    var m := [e] + d;
    assert forall j :: 0 <= j < |d| ==> m[j + 1] == d[j];
    if Sorted(m) {
      forall j | 0 <= j < |d| ensures Micros(d[j].atime) <= Micros(e.atime) {
        assert Micros(m[j + 1].atime) <= Micros(m[0].atime);
      }
    }
  }

  /** The order is kept exactly when the clock is not behind the other sockets' times. */
  lemma MarkKeepsOrderIff(l: seq<Seen>, i: nat, now: Time)
    requires Sorted(l) && i < |l|
    ensures Sorted(Mark(l, i, now)) <==> NoneAfter(Drop(l, i), now)
  {
    DropSorted(l, i);
    FirstSorted(l[i].(atime := now), Drop(l, i));
  }

  lemma FrontSorted(l: seq<Seen>, n: nat, now: Time)
    requires Sorted(l) && NoneAfter(l, now) && n <= |l|
    ensures Sorted(l[..n]) && NoneAfter(l[..n], now)
  {
  }

  // ---------- runs ----------

  datatype Event = Use(id: nat, now: Time) | Sweep(now: Time)

  function Position(l: seq<Seen>, id: nat): (i: nat)
    ensures i <= |l| && (i < |l| ==> l[i].id == id)
    ensures forall j :: 0 <= j < i ==> l[j].id != id
  {
    if l == [] || l[0].id == id then 0 else 1 + Position(l[1..], id)
  }

  function Step(l: seq<Seen>, e: Event, timeout: nat): seq<Seen> {
    match e
    case Use(id, now) => var i := Position(l, id); if i < |l| then Mark(l, i, now) else l
    case Sweep(now) => SweepTail(l, now, timeout)
  }

  function Run(l: seq<Seen>, es: seq<Event>, timeout: nat): seq<Seen>
    decreases |es|
  {
    if es == [] then l else Run(Step(l, es[0], timeout), es[1..], timeout)
  }

  /** The reference: last use times by socket, in no order, and a filter over all of them. */
  type Times = map<nat, Time>

  function StepRef(m: Times, e: Event, timeout: nat): Times {
    match e
    case Use(id, now) => if id in m then m[id := now] else m
    case Sweep(now) => map id | id in m && Micros(now) - Micros(m[id]) < timeout :: m[id]
  }

  function RunRef(m: Times, es: seq<Event>, timeout: nat): Times
    decreases |es|
  {
    if es == [] then m else RunRef(StepRef(m, es[0], timeout), es[1..], timeout)
  }

  ghost predicate DistinctIds(l: seq<Seen>) {
    forall i, j :: 0 <= i < j < |l| ==> l[i].id != l[j].id
  }

  ghost predicate TimesIn(l: seq<Seen>, m: Times) {
    forall i :: 0 <= i < |l| ==> l[i].id in m && m[l[i].id] == l[i].atime
  }

  ghost predicate Covers(l: seq<Seen>, m: Times) {
    forall id :: id in m ==> Position(l, id) < |l|
  }

  /** The list holds each socket of the map once, with its time. */
  ghost predicate Holds(l: seq<Seen>, m: Times) {
    DistinctIds(l) && TimesIn(l, m) && Covers(l, m)
  }

  /** The clock does not go back, from `clock` on. */
  ghost predicate ClockRuns(clock: Time, es: seq<Event>)
    decreases |es|
  {
    es == [] || (Micros(clock) <= Micros(es[0].now) < Wrap && ClockRuns(es[0].now, es[1..]))
  }

  lemma PositionInside(l: seq<Seen>, i: nat, id: nat)
    requires i < |l| && l[i].id == id
    ensures Position(l, id) < |l|
  {
  }

  /** Where the sockets are after one moved to the front. */
  lemma MarkAt(l: seq<Seen>, i: nat, now: Time, p: nat)
    requires i < |l| && p < |l|
    ensures var k := Mark(l, i, now);
      && |k| == |l| && k[0] == l[i].(atime := now)
      && (p != i ==> k[if p < i then p + 1 else p] == l[p])
      && (p > 0 ==> k[p] == l[if p <= i then p - 1 else p])
  {
    var k, d := Mark(l, i, now), Drop(l, i);
    assert forall j :: 0 <= j < |d| ==> k[j + 1] == d[j];
    if p != i { assert d[if p < i then p else p - 1] == l[p]; }
  }

  lemma MarkDistinct(l: seq<Seen>, i: nat, now: Time)
    requires DistinctIds(l) && i < |l|
    ensures DistinctIds(Mark(l, i, now))
  {
    var k := Mark(l, i, now);
    forall a, b | 0 <= a < b < |k| ensures k[a].id != k[b].id {
      MarkAt(l, i, now, a);
      MarkAt(l, i, now, b);
    }
  }

  lemma MarkTimes(l: seq<Seen>, m: Times, i: nat, now: Time)
    requires DistinctIds(l) && TimesIn(l, m) && i < |l|
    ensures TimesIn(Mark(l, i, now), m[l[i].id := now])
  {
    var k, n := Mark(l, i, now), m[l[i].id := now];
    forall a | 0 <= a < |k| ensures k[a].id in n && n[k[a].id] == k[a].atime {
      MarkAt(l, i, now, a);
    }
  }

  lemma MarkCovers(l: seq<Seen>, m: Times, i: nat, now: Time)
    requires Covers(l, m) && i < |l|
    ensures Covers(Mark(l, i, now), m[l[i].id := now])
  {
    var k := Mark(l, i, now);
    forall x | x in m[l[i].id := now] ensures Position(k, x) < |k| {
      var p := if x == l[i].id then i else Position(l, x);
      MarkAt(l, i, now, p);
      PositionInside(k, if p == i then 0 else if p < i then p + 1 else p, x);
    }
  }

  lemma UseHolds(l: seq<Seen>, m: Times, i: nat, now: Time)
    requires Holds(l, m) && i < |l|
    ensures Holds(Mark(l, i, now), m[l[i].id := now])
  {
    MarkDistinct(l, i, now);
    MarkTimes(l, m, i, now);
    MarkCovers(l, m, i, now);
  }

  lemma KeptIsRecent(l: seq<Seen>, m: Times, now: Time, timeout: nat, i: nat)
    requires TimesIn(l, m) && Sorted(l) && NoneAfter(l, now) && Micros(now) < Wrap && i < |l|
    ensures l[i].id in StepRef(m, Sweep(now), timeout) <==> i < |SweepTail(l, now, timeout)|
  {
    SweepKeeps(l, now, timeout, i);
    ElapsedIsDifference(now, l[i].atime);
  }

  lemma SweepHolds(l: seq<Seen>, m: Times, now: Time, timeout: nat)
    requires Holds(l, m) && Sorted(l) && NoneAfter(l, now) && Micros(now) < Wrap
    ensures Holds(SweepTail(l, now, timeout), StepRef(m, Sweep(now), timeout))
  {
    FrontDistinct(l, SweepEnd(l, |l|, now, timeout));
    KeptTimes(l, m, now, timeout);
    forall x | x in StepRef(m, Sweep(now), timeout) ensures Position(SweepTail(l, now, timeout), x) < |SweepTail(l, now, timeout)| {
      KeptPosition(l, m, now, timeout, x);
    }
  }

  lemma FrontDistinct(l: seq<Seen>, n: nat)
    requires DistinctIds(l) && n <= |l|
    ensures DistinctIds(l[..n])
  {
  }

  lemma KeptTimes(l: seq<Seen>, m: Times, now: Time, timeout: nat)
    requires TimesIn(l, m) && Sorted(l) && NoneAfter(l, now) && Micros(now) < Wrap
    ensures TimesIn(SweepTail(l, now, timeout), StepRef(m, Sweep(now), timeout))
  {
    var k, n := SweepTail(l, now, timeout), StepRef(m, Sweep(now), timeout);
    forall i | 0 <= i < |k| ensures k[i].id in n && n[k[i].id] == k[i].atime {
      assert k[i] == l[i];
      KeptIsRecent(l, m, now, timeout, i);
    }
  }

  lemma KeptPosition(l: seq<Seen>, m: Times, now: Time, timeout: nat, x: nat)
    requires Holds(l, m) && Sorted(l) && NoneAfter(l, now) && Micros(now) < Wrap && x in StepRef(m, Sweep(now), timeout)
    ensures Position(SweepTail(l, now, timeout), x) < |SweepTail(l, now, timeout)|
  {
    var p := Position(l, x);
    assert x in m;
    KeptIsRecent(l, m, now, timeout, p);
    PositionInside(SweepTail(l, now, timeout), p, x);
  }

  /** Socket `i` survives the sweep of a sorted list exactly when it is not idle. */
  lemma SweepKeeps(l: seq<Seen>, now: Time, timeout: nat, i: nat)
    requires Sorted(l) && NoneAfter(l, now) && Micros(now) < Wrap && i < |l|
    ensures i < |SweepTail(l, now, timeout)| <==> !Idle(l[i], now, timeout)
  {
    var k := SweepEnd(l, |l|, now, timeout);
    SortedIdleAtEnd(l, now, timeout);
    if i < k { IdleGoesOn(l, i, k - 1, now, timeout); }
  }

  lemma UseKeepsOrder(l: seq<Seen>, i: nat, now: Time)
    requires Sorted(l) && NoneAfter(l, now) && i < |l|
    ensures Sorted(Mark(l, i, now)) && NoneAfter(Mark(l, i, now), now)
  {
    MarkKeepsOrderIff(l, i, now);
    assert Mark(l, i, now)[0] == l[i].(atime := now);
    forall k | 0 <= k < |l| ensures Micros(Mark(l, i, now)[k].atime) <= Micros(now) {
      MarkAt(l, i, now, k);
    }
  }

  lemma SweepKeepsOrder(l: seq<Seen>, now: Time, timeout: nat)
    requires Sorted(l) && NoneAfter(l, now)
    ensures Sorted(SweepTail(l, now, timeout)) && NoneAfter(SweepTail(l, now, timeout), now)
  {
    FrontSorted(l, SweepEnd(l, |l|, now, timeout), now);
  }

  lemma StepHolds(l: seq<Seen>, m: Times, e: Event, timeout: nat)
    requires Holds(l, m) && Sorted(l) && NoneAfter(l, e.now) && Micros(e.now) < Wrap
    ensures var k := Step(l, e, timeout); Holds(k, StepRef(m, e, timeout)) && Sorted(k) && NoneAfter(k, e.now)
  {
    match e
    case Use(id, now) =>
      var i := Position(l, id);
      if i < |l| {
        UseHolds(l, m, i, now);
        UseKeepsOrder(l, i, now);
      }
    case Sweep(now) =>
      SweepHolds(l, m, now, timeout);
      SweepKeepsOrder(l, now, timeout);
  }

  /** Over every run with a clock that does not go back, the list with its early stop
  keeps exactly the sockets a full filter keeps, in the order of their last use. */
  lemma {:induction false} RunIsFullFilter(l: seq<Seen>, m: Times, clock: Time, es: seq<Event>, timeout: nat)
    requires Holds(l, m) && Sorted(l) && NoneAfter(l, clock) && ClockRuns(clock, es)
    ensures Holds(Run(l, es, timeout), RunRef(m, es, timeout)) && Sorted(Run(l, es, timeout))
    decreases |es|
  {
    if es != [] {
      StepHolds(l, m, es[0], timeout);
      RunIsFullFilter(Step(l, es[0], timeout), StepRef(m, es[0], timeout), es[0].now, es[1..], timeout);
    }
  }
}

/** The list in memory. */
module Recency {
  import opened RecencySpec
  import opened Links

  class SocketInfo {
    const id: nat
    var atime: Time

    constructor (id: nat, atime: Time)
      ensures this.id == id && this.atime == atime
    {
      this.id := id;
      this.atime := atime;
    }
  }

  type Entry = Node<SocketInfo>

  /** The sockets of a list with their times, in order. */
  ghost function TimesOf(l: seq<Entry>): (r: seq<Seen>)
    reads set i | 0 <= i < |l| :: l[i].data
    ensures |r| == |l| && forall i :: 0 <= i < |l| ==> r[i] == Seen(l[i].data.id, l[i].data.atime)
  {
    if l == [] then [] else TimesOf(l[..|l| - 1]) + [Seen(l[|l| - 1].data.id, l[|l| - 1].data.atime)]
  }

  lemma TimesOfPrefix(c: seq<Entry>, n: nat, was: seq<Seen>, l: seq<Entry>)
    requires n <= |c| && l == c[..n] && |was| == |c|
    requires forall i :: 0 <= i < |c| ==> was[i] == Seen(c[i].data.id, c[i].data.atime)
    ensures TimesOf(l) == was[..n]
  {
  }

  lemma TimesOfMarked(c: seq<Entry>, i: nat, was: seq<Seen>, now: Time, l: seq<Entry>)
    requires i < |c| == |was| && l == [c[i]] + Without(c, i)
    requires forall k :: 0 <= k < |c| ==> Seen(c[k].data.id, c[k].data.atime) == if k == i then was[i].(atime := now) else was[k]
    ensures TimesOf(l) == Mark(was, i, now)
  {
    forall k | 0 <= k < |l| ensures TimesOf(l)[k] == Mark(was, i, now)[k] {
      MarkAt(was, i, now, k);
      if k > 0 { assert l[k] == Without(c, i)[k - 1]; }
    }
  }

  predicate OtherData(l: seq<Entry>, i: nat, j: nat)
    requires i < |l| && j < |l|
  {
    l[i].data != l[j].data
  }

  ghost predicate DistinctData(l: seq<Entry>) {
    forall i, j :: 0 <= i < j < |l| ==> OtherData(l, i, j)
  }

  lemma DataApart(l: seq<Entry>, i: nat, j: nat)
    requires DistinctData(l) && i < |l| && j < |l| && i != j
    ensures l[i].data != l[j].data
  {
    assert OtherData(l, if i < j then i else j, if i < j then j else i);
  }

  lemma DataMoved(l: seq<Entry>, i: nat)
    requires DistinctData(l) && i < |l|
    ensures DistinctData([l[i]] + Without(l, i))
  {
    var d := [l[i]] + Without(l, i);
    forall a, b | 0 <= a < b < |d| ensures OtherData(d, a, b) {
      DataApart(l, if a == 0 then i else if a <= i then a - 1 else a, if b <= i then b - 1 else b);
    }
  }

  lemma DataFirst(l: seq<Entry>, n: nat)
    requires DistinctData(l) && n <= |l|
    ensures DistinctData(l[..n])
  {
    var d := l[..n];
    forall a, b | 0 <= a < b < |d| ensures OtherData(d, a, b) {
      DataApart(l, a, b);
    }
  }

  class IoService {
    var head: Node?<SocketInfo>
    var tail: Node?<SocketInfo>
    const idleTimeout: nat
    ghost var list: seq<Entry>

    ghost function Nodes(): set<Entry>
      reads this`list
    {
      set i | 0 <= i < |list| :: list[i]
    }

    ghost predicate Valid()
      reads this, Nodes()
    {
      && Linked(list) && head == At(list, 0) && tail == At(list, |list| - 1)
      && DistinctData(list)
    }

    constructor (idleTimeout: nat)
      ensures Valid() && list == [] && this.idleTimeout == idleTimeout
    {
      this.idleTimeout := idleTimeout;
      head := null;
      tail := null;
      list := [];
    }

    /** A socket that was used gets the current time and moves to the front. */
    method MarkServerSocketInfo(info: Entry, now: Time, ghost i: nat)
      requires Valid() && i < |list| && list[i] == info
      modifies this`head, this`tail, this`list, Nodes(), info.data
      ensures Valid() && list == [info] + Without(old(list), i)
      ensures TimesOf(list) == Mark(old(TimesOf(list)), i, now)
    {
      ghost var c := list;
      forall k | 0 <= k < |c| && k != i ensures c[k].data != info.data {
        DataApart(c, i, k);
      }
      info.data.atime := now;
      MoveToFront(info, i);
      TimesOfMarked(old(list), i, old(TimesOf(list)), now, list);
    }

    method MoveToFront(info: Entry, ghost i: nat)
      requires Valid() && i < |list| && list[i] == info
      modifies this`head, this`tail, this`list, Nodes()
      ensures Valid() && list == [info] + Without(old(list), i)
    {
      ghost var c := list;
      assert LinkedAt(c, i);
      if info.prev == null {
        assert head == info;
        assert [c[0]] + Without(c, 0) == c;
      } else {
        if tail == info { tail := info.prev; }
        var rest := Unlink(c, i, head, info);
        ghost var d := Without(c, i);
        DataMoved(c, i);
        forall k | 0 <= k < |d| ensures d[k] != info {
          Links.Apart(c, i, if k < i then k else k + 1);
        }
        LinkFront(d, rest, info);
        head := info;
        list := [info] + d;
      }
    }

    /** The last socket of the list that is not idle, and how many are idle behind it. */
    method LastInUse(now: Time) returns (iter: Node?<SocketInfo>, ret: nat)
      requires Valid()
      ensures ret <= |list| && iter == At(list, |list| - ret - 1)
      ensures SweepTail(TimesOf(list), now, idleTimeout) == TimesOf(list)[..|list| - ret]
    {
      iter := tail;
      ret := 0;
      ghost var was, n: nat := TimesOf(list), |list|;
      while iter != null
        invariant n == |list| - ret && iter == At(list, n - 1)
        invariant SweepEnd(was, n, now, idleTimeout) == SweepEnd(was, |was|, now, idleTimeout)
        decreases n
      {
        assert was[n - 1] == Seen(iter.data.id, iter.data.atime);
        if Elapsed(now, iter.data.atime) < idleTimeout { break; }
        assert LinkedAt(list, n - 1);
        iter := iter.prev;
        ret := ret + 1;
        n := n - 1;
      }
    }

    /** Sockets are destroyed from the tail until one is found that is not idle. */
    method DestroyIdleServerSocketInfo(now: Time) returns (ret: nat)
      requires Valid()
      modifies this`head, this`tail, this`list, Nodes()
      ensures Valid() && ret <= |old(list)| && list == old(list)[..|old(list)| - ret]
      ensures TimesOf(list) == SweepTail(old(TimesOf(list)), now, idleTimeout)
    {
      var iter, count := LastInUse(now);
      ret := count;
      CutBehind(iter, |list| - ret);
    }

    /** The list ends at its first `n` sockets, the last of which is `iter`. */
    method CutBehind(iter: Node?<SocketInfo>, ghost n: nat)
      requires Valid() && n <= |list| && iter == At(list, n - 1)
      modifies this`head, this`tail, this`list, Nodes()
      ensures Valid() && list == old(list)[..n] && TimesOf(list) == old(TimesOf(list))[..n]
    {
      ghost var c := list;
      tail := iter;
      if iter != null { iter.next := null; } else { head := null; }
      list := c[..n];
      DataFirst(c, n);
      DistinctFirst(c, n);
      forall i | 0 <= i < n ensures LinkedAt(list, i) {
        assert old(LinkedAt(c, i));
        if i + 1 < n { Links.Apart(c, i, n - 1); }
      }
      TimesOfPrefix(c, n, old(TimesOf(list)), list);
    }
  }
}
