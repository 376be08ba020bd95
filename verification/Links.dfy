/** Lists linked both ways, as the C code builds them in place. */
module Links {

  class Node<T> {
    const data: T
    var next: Node?<T>
    var prev: Node?<T>

    constructor (data: T)
      ensures this.data == data && next == null && prev == null
    {
      this.data := data;
      next := null;
      prev := null;
    }
  }

  function At<T>(chain: seq<Node<T>>, i: int): Node?<T> {
    if 0 <= i < |chain| then chain[i] else null
  }

  ghost predicate LinkedAt<T>(chain: seq<Node<T>>, i: nat)
    requires i < |chain|
    reads chain[i]
  {
    chain[i].next == At(chain, i + 1) && chain[i].prev == At(chain, i - 1)
  }

  predicate Differ<T>(chain: seq<Node<T>>, i: nat, j: nat)
    requires i < |chain| && j < |chain|
  {
    chain[i] != chain[j]
  }

  ghost predicate Distinct<T>(chain: seq<Node<T>>) {
    forall i, j :: 0 <= i < j < |chain| ==> Differ(chain, i, j)
  }

  lemma Apart<T>(chain: seq<Node<T>>, i: nat, j: nat)
    requires Distinct(chain) && i < |chain| && j < |chain| && i != j
    ensures chain[i] != chain[j]
  {
    assert Differ(chain, if i < j then i else j, if i < j then j else i);
  }

  /** A chain is linked both ways, from null to null. */
  ghost predicate Linked<T>(chain: seq<Node<T>>)
    reads set i | 0 <= i < |chain| :: chain[i]
  {
    Distinct(chain) && forall i :: 0 <= i < |chain| ==> LinkedAt(chain, i)
  }

  /** An item goes in front of a chain. */
  method LinkFront<T>(ghost c: seq<Node<T>>, head: Node?<T>, item: Node<T>)
    requires Linked(c) && head == At(c, 0) && item !in c
    modifies item, set i | 0 <= i < |c| && i == 0 :: c[i]
    ensures Linked([item] + c)
  {
    item.prev := null;
    item.next := head;
    if head != null { head.prev := item; }
    ghost var d := [item] + c;
    DistinctFront(item, c);
    forall i | 0 <= i < |d| ensures LinkedAt(d, i) {
      if i > 0 {
        assert old(LinkedAt(c, i - 1));
        assert d[i] == c[i - 1] && At(d, i + 1) == At(c, i);
        if i > 1 { Apart(c, 0, i - 1); }
      }
    }
  }

  lemma DistinctFront<T>(item: Node<T>, c: seq<Node<T>>)
    requires Distinct(c) && item !in c
    ensures Distinct([item] + c)
  {
    var d := [item] + c;
    forall i, j | 0 <= i < j < |d| ensures Differ(d, i, j) {
      if i > 0 { Apart(c, i - 1, j - 1); }
    }
  }

  lemma DistinctWithout<T>(c: seq<Node<T>>, i: nat)
    requires Distinct(c) && i < |c|
    ensures Distinct(Without(c, i))
  {
    var d := Without(c, i);
    forall a, b | 0 <= a < b < |d| ensures Differ(d, a, b) {
      Apart(c, if a < i then a else a + 1, if b < i then b else b + 1);
    }
  }

  lemma DistinctFirst<T>(c: seq<Node<T>>, n: nat)
    requires Distinct(c) && n <= |c|
    ensures Distinct(c[..n])
  {
    forall i, j | 0 <= i < j < n ensures Differ(c[..n], i, j) {
      Apart(c, i, j);
    }
  }

  function Without<T>(c: seq<Node<T>>, i: nat): (d: seq<Node<T>>)
    requires i < |c|
    ensures |d| == |c| - 1
    ensures forall j {:trigger d[j]} :: 0 <= j < |d| ==> d[j] == c[if j < i then j else j + 1]
  {
    c[..i] + c[i + 1..]
  }

  /** Item `i` leaves its chain; its neighbours close up. */
  method Unlink<T>(ghost c: seq<Node<T>>, ghost i: nat, head: Node?<T>, cur: Node<T>) returns (newHead: Node?<T>)
    requires Linked(c) && i < |c| && cur == c[i] && head == At(c, 0)
    modifies set j | 0 <= j < |c| && (j == i - 1 || j == i + 1) :: c[j]
    ensures Linked(Without(c, i)) && newHead == At(Without(c, i), 0)
  {
    newHead := head;
    assert LinkedAt(c, i);
    if cur.prev != null {
      cur.prev.next := cur.next;
    } else {
      newHead := cur.next;
    }
    if cur.next != null {
      cur.next.prev := cur.prev;
    }
    ghost var d := Without(c, i);
    DistinctWithout(c, i);
    forall j | 0 <= j < |d| ensures LinkedAt(d, j) {
      ghost var k := if j < i then j else j + 1;
      assert old(LinkedAt(c, k));
      if i > 0 && k != i - 1 { Apart(c, k, i - 1); }
      if i + 1 < |c| && k != i + 1 { Apart(c, k, i + 1); }
    }
  }
}
