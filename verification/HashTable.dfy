/** The chained hash table: what a bucket means as a list, and as a map from key to a
stack of values. */
module HashSpec {
  import opened Common

  type Key = seq<Byte>

  /** Values are opaque pointers. */
  type Value = nat

  datatype Entry = Entry(key: Key, value: Value)

  type Bucket = seq<Entry>

  /** memcmp over the length of the key that is looked for: the stored key may be longer. */
  predicate Matches(query: Key, stored: Key) { query <= stored }

  /** The position of the first entry that matches, or the length of the bucket. */
  function FirstAt(b: Bucket, query: Key): (i: nat)
    ensures i <= |b| && (i < |b| ==> Matches(query, b[i].key))
    ensures forall j :: 0 <= j < i ==> !Matches(query, b[j].key)
  {
    if b == [] || Matches(query, b[0].key) then 0 else 1 + FirstAt(b[1..], query)
  }

  function Get(b: Bucket, query: Key): Option<Value> {
    var i := FirstAt(b, query);
    if i < |b| then Some(b[i].value) else None
  }

  function Put(b: Bucket, key: Key, value: Value): Bucket { [Entry(key, value)] + b }

  function Delete(b: Bucket, query: Key): Bucket {
    var i := FirstAt(b, query);
    if i < |b| then b[..i] + b[i + 1..] else b
  }

  /** The values of `key` in a bucket, the latest put first. */
  function Stack(b: Bucket, key: Key): seq<Value> {
    if b == [] then []
    else (if b[0].key == key then [b[0].value] else []) + Stack(b[1..], key)
  }

  function Top(s: seq<Value>): Option<Value> { if s == [] then None else Some(s[0]) }

  function Rest(s: seq<Value>): seq<Value> { if s == [] then [] else s[1..] }

  /** No key of the bucket goes on where `query` ends. */
  ghost predicate Apart(b: Bucket, query: Key) {
    forall i :: 0 <= i < |b| ==> Matches(query, b[i].key) ==> b[i].key == query
  }

  lemma PutPushes(b: Bucket, key: Key, value: Value, other: Key)
    ensures Stack(Put(b, key, value), other) == (if other == key then [value] else []) + Stack(b, other)
  {
    assert Put(b, key, value)[1..] == b;
  }

  lemma ApartTail(b: Bucket, query: Key)
    requires Apart(b, query) && b != []
    ensures Apart(b[1..], query)
  {
    forall i | 0 <= i < |b| - 1 ensures Matches(query, b[1..][i].key) ==> b[1..][i].key == query {
      assert b[1..][i] == b[i + 1];
    }
  }

  lemma {:induction false} GetIsTop(b: Bucket, key: Key)
    requires Apart(b, key)
    ensures Get(b, key) == Top(Stack(b, key))
  {
    if b != [] {
      assert Matches(key, b[0].key) ==> b[0].key == key;
      ApartTail(b, key);
      GetIsTop(b[1..], key);
    }
  }

  /** Deleting takes the top of one stack and leaves the others alone. */
  lemma {:induction false} DeletePops(b: Bucket, key: Key, other: Key)
    requires Apart(b, key)
    ensures Stack(Delete(b, key), other) == if other == key then Rest(Stack(b, other)) else Stack(b, other)
  {
    if b == [] {
    } else if Matches(key, b[0].key) {
      assert b[0].key == key;
      assert Delete(b, key) == b[1..];
    } else {
      ApartTail(b, key);
      DeletePops(b[1..], key, other);
      DeleteBehind(b, key);
      StackBehind(b, Delete(b, key), key, other);
    }
  }

  /** A first entry of another key does not come between a stack and its top. */
  lemma StackBehind(b: Bucket, d: Bucket, key: Key, other: Key)
    requires b != [] && d != [] && d[0] == b[0] && b[0].key != key
    requires Stack(d[1..], other) == if other == key then Rest(Stack(b[1..], other)) else Stack(b[1..], other)
    ensures Stack(d, other) == if other == key then Rest(Stack(b, other)) else Stack(b, other)
  {
  }

  lemma DeleteBehind(b: Bucket, key: Key)
    requires b != [] && !Matches(key, b[0].key)
    ensures Delete(b, key) == [b[0]] + Delete(b[1..], key)
    ensures Delete(b, key)[0] == b[0] && Delete(b, key)[1..] == Delete(b[1..], key)
  {
    var i := FirstAt(b[1..], key);
    assert FirstAt(b, key) == i + 1;
    if i < |b[1..]| { CutBehind(b, i); }
    assert b == [b[0]] + b[1..];
  }

  lemma CutBehind(b: Bucket, i: nat)
    requires i + 1 < |b|
    ensures b[..i + 1] + b[i + 2..] == [b[0]] + (b[1..][..i] + b[1..][i + 1..])
  {
  }

  // ---------- whole tables ----------

  type Table = seq<Bucket>

  datatype Op = PutOp(key: Key, value: Value) | GetOp(key: Key) | DeleteOp(key: Key)

  function Apply(t: Table, hash: Key -> nat, op: Op): (Table, Option<Value>)
    requires hash(op.key) < |t|
  {
    var h := hash(op.key);
    match op
    case PutOp(k, v) => (t[h := Put(t[h], k, v)], None)
    case GetOp(k) => (t, Get(t[h], k))
    case DeleteOp(k) => (t[h := Delete(t[h], k)], Get(t[h], k))
  }

  /** The answers a table gives to a sequence of calls. */
  function Answers(t: Table, hash: Key -> nat, ops: seq<Op>): seq<Option<Value>>
    requires forall i :: 0 <= i < |ops| ==> hash(ops[i].key) < |t|
    decreases |ops|
  {
    if ops == [] then []
    else
      var (u, a) := Apply(t, hash, ops[0]);
      [a] + Answers(u, hash, ops[1..])
  }

  /** The reference: one stack of values for each key, and no hash at all. */
  type Stacks = map<Key, seq<Value>>

  function Of(m: Stacks, k: Key): seq<Value> { if k in m then m[k] else [] }

  function ApplyRef(m: Stacks, op: Op): (Stacks, Option<Value>) {
    var s := Of(m, op.key);
    match op
    case PutOp(k, v) => (m[k := [v] + s], None)
    case GetOp(k) => (m, Top(s))
    case DeleteOp(k) => (m[k := Rest(s)], Top(s))
  }

  function AnswersRef(m: Stacks, ops: seq<Op>): seq<Option<Value>>
    decreases |ops|
  {
    if ops == [] then []
    else
      var (n, a) := ApplyRef(m, ops[0]);
      [a] + AnswersRef(n, ops[1..])
  }

  /** No key of the set is a proper prefix of another one in the same bucket: so it is
  with keys of one length. */
  ghost predicate PrefixFree(keys: set<Key>, hash: Key -> nat) {
    forall a, b :: a in keys && b in keys && hash(a) == hash(b) && Matches(a, b) ==> a == b
  }

  /** Every entry has a key of the set and is in the bucket of its key. */
  ghost predicate KeysAtHome(t: Table, hash: Key -> nat, keys: set<Key>) {
    forall h, i :: 0 <= h < |t| && 0 <= i < |t[h]| ==> t[h][i].key in keys && hash(t[h][i].key) == h
  }

  ghost predicate Related(t: Table, hash: Key -> nat, m: Stacks) {
    forall k {:trigger Of(m, k)} :: hash(k) < |t| ==> Stack(t[hash(k)], k) == Of(m, k)
  }

  lemma ApplyKeepsKeys(t: Table, hash: Key -> nat, op: Op, keys: set<Key>)
    requires hash(op.key) < |t| && op.key in keys && KeysAtHome(t, hash, keys)
    ensures KeysAtHome(Apply(t, hash, op).0, hash, keys)
  {
  }

  lemma ApplyRelates(t: Table, hash: Key -> nat, op: Op, keys: set<Key>, m: Stacks)
    requires hash(op.key) < |t| && op.key in keys && KeysAtHome(t, hash, keys) && PrefixFree(keys, hash) && Related(t, hash, m)
    ensures Apply(t, hash, op).1 == ApplyRef(m, op).1
    ensures Related(Apply(t, hash, op).0, hash, ApplyRef(m, op).0)
  {
    var h := hash(op.key);
    var b := t[h];
    var u, n := Apply(t, hash, op).0, ApplyRef(m, op).0;
    assert Apart(b, op.key);
    GetIsTop(b, op.key);
    assert Stack(b, op.key) == Of(m, op.key);
    forall k | hash(k) < |u| ensures Stack(u[hash(k)], k) == Of(n, k) {
      assert Stack(t[hash(k)], k) == Of(m, k);
      if op.PutOp? { PutPushes(b, op.key, op.value, k); }
      if op.DeleteOp? { DeletePops(b, op.key, k); }
    }
  }

  /** For any hash into the table and any calls over such keys, the table answers as a map
  from keys to stacks does. */
  lemma {:induction false} TableIsMapOfStacks(t: Table, hash: Key -> nat, ops: seq<Op>, keys: set<Key>, m: Stacks)
    requires forall i :: 0 <= i < |ops| ==> hash(ops[i].key) < |t| && ops[i].key in keys
    requires KeysAtHome(t, hash, keys) && PrefixFree(keys, hash) && Related(t, hash, m)
    ensures Answers(t, hash, ops) == AnswersRef(m, ops)
    decreases |ops|
  {
    if ops != [] {
      ApplyRelates(t, hash, ops[0], keys, m);
      ApplyKeepsKeys(t, hash, ops[0], keys);
      TableIsMapOfStacks(Apply(t, hash, ops[0]).0, hash, ops[1..], keys, ApplyRef(m, ops[0]).0);
    }
  }

  function Empty(keySpace: nat): Table { seq(keySpace, _ => []) }

  ghost predicate CallsOver(ops: seq<Op>, keys: set<Key>) {
    forall i :: 0 <= i < |ops| ==> ops[i].key in keys
  }

  ghost predicate InTable(hash: Key -> nat, keySpace: nat) {
    forall k :: hash(k) < keySpace
  }

  ghost predicate AnswersLikeStacks(hash: Key -> nat, keySpace: nat, keys: set<Key>)
    requires InTable(hash, keySpace)
  {
    forall ops: seq<Op> :: CallsOver(ops, keys) ==> Answers(Empty(keySpace), hash, ops) == AnswersRef(map[], ops)
  }

  lemma ShortKeyFindsLongOne(hash: Key -> nat, keySpace: nat, a: Key, b: Key)
    requires InTable(hash, keySpace) && hash(a) == hash(b) && Matches(a, b) && a != b
    ensures Answers(Empty(keySpace), hash, [PutOp(b, 1), GetOp(a)]) == [None, Some(1)]
    ensures AnswersRef(map[], [PutOp(b, 1), GetOp(a)]) == [None, None]
  {
    var ops := [PutOp(b, 1), GetOp(a)];
    assert ops[1..] == [GetOp(a)] && ops[1..][1..] == [];
    var t := Apply(Empty(keySpace), hash, ops[0]).0;
    assert t[hash(a)] == [Entry(b, 1)];
    assert Answers(t, hash, ops[1..]) == [Get(t[hash(a)], a)] + Answers(t, hash, []);
    var m := ApplyRef(map[], ops[0]).0;
    assert AnswersRef(m, ops[1..]) == [Top(Of(m, a))] + AnswersRef(m, []);
  }

  /** Comparing only the length of the key looked for is right exactly when no key of a
  bucket is a proper prefix of another. */
  lemma MapOfStacksIff(hash: Key -> nat, keySpace: nat, keys: set<Key>)
    requires InTable(hash, keySpace)
    ensures AnswersLikeStacks(hash, keySpace, keys) <==> PrefixFree(keys, hash)
  {
    if PrefixFree(keys, hash) {
      forall ops | CallsOver(ops, keys) ensures Answers(Empty(keySpace), hash, ops) == AnswersRef(map[], ops) {
        TableIsMapOfStacks(Empty(keySpace), hash, ops, keys, map[]);
      }
    } else {
      var a, b :| a in keys && b in keys && hash(a) == hash(b) && Matches(a, b) && a != b;
      ShortKeyFindsLongOne(hash, keySpace, a, b);
      assert CallsOver([PutOp(b, 1), GetOp(a)], keys);
    }
  }
}

/** The table in memory: arrays of heads, items linked both ways. */
module HashTable {
  import opened Common
  import opened HashSpec
  import opened Links

  type Item = Node<Entry>

  ghost function Nodes(chains: seq<seq<Item>>): set<Item> {
    set h, i | 0 <= h < |chains| && 0 <= i < |chains[h]| :: chains[h][i]
  }

  function Entries(chain: seq<Item>): (b: Bucket)
    ensures |b| == |chain|
  {
    seq(|chain|, i requires 0 <= i < |chain| => chain[i].data)
  }

  function Tables(chains: seq<seq<Item>>): (t: Table)
    ensures |t| == |chains|
  {
    seq(|chains|, h requires 0 <= h < |chains| => Entries(chains[h]))
  }

  class HashTable {
    const keySpace: nat
    const hash: Key -> nat
    const heads: array<Node?<Entry>>
    var keyUsed: nat
    ghost var chains: seq<seq<Item>>

    ghost predicate ChainOk(h: nat)
      requires h < heads.Length && h < |chains|
      reads this`chains, heads, Nodes(chains)
    {
      && heads[h] == At(chains[h], 0)
      && Linked(chains[h])
      && (forall i :: 0 <= i < |chains[h]| ==> hash(chains[h][i].data.key) == h)
    }

    ghost predicate Valid()
      reads this`chains, heads, Nodes(chains)
    {
      && InTable(hash, keySpace) && heads.Length == keySpace == |chains|
      && forall h :: 0 <= h < |chains| ==> ChainOk(h)
    }

    /** What the table holds. */
    ghost function Contents(): Table
      reads this`chains
    {
      Tables(chains)
    }

    constructor (keySpace: nat, hash: Key -> nat)
      requires InTable(hash, keySpace)
      ensures Valid() && Contents() == Empty(keySpace) && this.hash == hash && keyUsed == 0 && Nodes(chains) == {}
      ensures fresh(heads) && this.keySpace == keySpace
    {
      this.keySpace := keySpace;
      this.hash := hash;
      heads := new Node?<Entry>[keySpace](_ => null);
      keyUsed := 0;
      chains := seq(keySpace, _ => []);
    }

    /** The walk that both lookups share: the first item of the chain that matches. */
    method Walk(h: nat, key: Key) returns (cur: Node?<Entry>, ghost i: nat)
      requires Valid() && h < keySpace
      ensures i == FirstAt(Entries(chains[h]), key)
      ensures cur == At(chains[h], i)
    {
      cur := heads[h];
      i := 0;
      ghost var b := Entries(chains[h]);
      assert ChainOk(h);
      while cur != null
        invariant i <= |b| && cur == At(chains[h], i)
        invariant forall j :: 0 <= j < i ==> !Matches(key, b[j].key)
        decreases |b| - i
      {
        if Matches(key, cur.data.key) { break; }
        assert LinkedAt(chains[h], i);
        cur := cur.next;
        i := i + 1;
      }
      FirstAtIs(b, key, i);
    }

    method HashGet(key: Key) returns (value: Option<Value>)
      requires Valid()
      ensures value == Get(Contents()[hash(key)], key)
    {
      var cur, i := Walk(hash(key), key);
      value := if cur == null then None else Some(cur.data.value);
    }

    /** Chains of different buckets share no item. */
    lemma ChainsApart(h: nat, k: nat)
      requires Valid() && h < keySpace && k < keySpace && h != k
      ensures forall i, j :: 0 <= i < |chains[h]| && 0 <= j < |chains[k]| ==> chains[h][i] != chains[k][j]
    {
      assert ChainOk(h) && ChainOk(k);
    }

    lemma Others(h: nat)
      requires Valid() && h < keySpace
      ensures ChainOk(h)
      ensures forall k :: 0 <= k < keySpace && k != h ==> ChainOk(k) && forall i :: 0 <= i < |chains[k]| ==> chains[k][i] !in chains[h]
    {
      forall k | 0 <= k < keySpace && k != h ensures ChainOk(k) && forall i :: 0 <= i < |chains[k]| ==> chains[k][i] !in chains[h] {
        ChainsApart(h, k);
      }
    }

    method Insert(h: nat, item: Item)
      requires Valid() && h < keySpace && hash(item.data.key) == h && item !in Nodes(chains)
      modifies this`chains, heads, Nodes(chains), item
      ensures Valid() && chains == old(chains)[h := [item] + old(chains)[h]]
    {
      ghost var c := chains[h];
      Others(h);
      LinkFront(c, heads[h], item);
      heads[h] := item;
      chains := chains[h := [item] + c];
      assert ChainOk(h);
    }

    /** The new item becomes the head of its chain. */
    method HashPut(key: Key, value: Value) returns (ret: int)
      requires Valid()
      modifies this, heads, Nodes(chains)
      ensures Valid() && Contents() == Apply(old(Contents()), hash, PutOp(key, value)).0
      ensures fresh(Nodes(chains) - old(Nodes(chains)))
      ensures keyUsed == old(keyUsed) + 1 && ret == (if keySpace >= keyUsed then -1 else 0)
    {
      var h := hash(key);
      var item := new Node<Entry>(Entry(key, value));
      EntriesPut(chains[h], item);
      Insert(h, item);
      TablesPut(old(chains), h, [item] + old(chains)[h]);
      label Linked:
      keyUsed := keyUsed + 1;
      forall k | 0 <= k < keySpace ensures ChainOk(k) {
        assert old@Linked(ChainOk(k));
      }
      ret := if keySpace >= keyUsed then -1 else 0;
    }

    /** Item `i` leaves the chain of bucket `h`. */
    method Remove(h: nat, ghost i: nat, cur: Item)
      requires Valid() && h < keySpace && i < |chains[h]| && cur == chains[h][i]
      modifies this`chains, heads, Nodes(chains)
      ensures Valid() && chains == old(chains)[h := Without(old(chains)[h], i)]
    {
      ghost var c := chains[h];
      Others(h);
      var head := Unlink(c, i, heads[h], cur);
      heads[h] := head;
      chains := chains[h := Without(c, i)];
      assert ChainOk(h);
    }

    /** The first item that matches is unlinked, and its value returned. */
    method HashDelete(key: Key) returns (value: Option<Value>)
      requires Valid()
      modifies this`chains, heads, Nodes(chains)
      ensures Valid() && Nodes(chains) <= old(Nodes(chains))
      ensures Contents() == Apply(old(Contents()), hash, DeleteOp(key)).0
      ensures value == Apply(old(Contents()), hash, DeleteOp(key)).1
    {
      var h := hash(key);
      var cur, i := Walk(h, key);
      if cur == null {
        assert Contents()[h := Contents()[h]] == Contents();
        return None;
      }
      value := Some(cur.data.value);
      EntriesDelete(chains[h], i);
      Remove(h, i, cur);
      TablesPut(old(chains), h, Without(old(chains)[h], i));
    }
  }

  lemma AnswersNext(t: Table, hash: Key -> nat, ops: seq<Op>, i: nat, sofar: seq<Option<Value>>)
    requires i < |ops| && InTable(hash, |t|)
    ensures var (u, a) := Apply(t, hash, ops[i]);
      sofar + Answers(t, hash, ops[i..]) == (sofar + [a]) + Answers(u, hash, ops[i + 1..])
  {
    assert ops[i..][1..] == ops[i + 1..];
  }

  method Call(t: HashTable, op: Op) returns (answer: Option<Value>)
    requires t.Valid()
    modifies t, t.heads, Nodes(t.chains)
    ensures t.Valid() && fresh(Nodes(t.chains) - old(Nodes(t.chains)))
    ensures t.Contents() == Apply(old(t.Contents()), t.hash, op).0
    ensures answer == Apply(old(t.Contents()), t.hash, op).1
  {
    match op
    case PutOp(k, v) =>
      var _ := t.HashPut(k, v);
      answer := None;
    case GetOp(k) => answer := t.HashGet(k);
    case DeleteOp(k) => answer := t.HashDelete(k);
  }

  /** A new table, with any hash function into it, answers any calls as stacks do. */
  method RunCalls(keySpace: nat, hash: Key -> nat, keys: set<Key>, ops: seq<Op>) returns (answers: seq<Option<Value>>)
    requires InTable(hash, keySpace) && PrefixFree(keys, hash) && CallsOver(ops, keys)
    ensures answers == AnswersRef(map[], ops)
  {
    var t := new HashTable(keySpace, hash);
    answers := [];
    var i := 0;
    assert ops[0..] == ops;
    while i < |ops|
      invariant 0 <= i <= |ops| && t.Valid() && t.hash == hash && fresh(t) && fresh(t.heads) && fresh(Nodes(t.chains))
      invariant |t.Contents()| == keySpace
      invariant answers + Answers(t.Contents(), hash, ops[i..]) == Answers(Empty(keySpace), hash, ops)
    {
      ghost var was := t.Contents();
      var answer := Call(t, ops[i]);
      AnswersNext(was, hash, ops, i, answers);
      answers := answers + [answer];
      i := i + 1;
    }
    AllAnswered(keySpace, hash, keys, ops, t.Contents(), answers);
  }

  lemma AllAnswered(keySpace: nat, hash: Key -> nat, keys: set<Key>, ops: seq<Op>, t: Table, answers: seq<Option<Value>>)
    requires InTable(hash, keySpace) && PrefixFree(keys, hash) && CallsOver(ops, keys) && |t| == keySpace
    requires answers + Answers(t, hash, ops[|ops|..]) == Answers(Empty(keySpace), hash, ops)
    ensures answers == AnswersRef(map[], ops)
  {
    assert answers + [] == answers;
    TableIsMapOfStacks(Empty(keySpace), hash, ops, keys, map[]);
  }

  lemma FirstAtIs(b: Bucket, query: Key, i: nat)
    requires i <= |b| && (i < |b| ==> Matches(query, b[i].key)) && forall j :: 0 <= j < i ==> !Matches(query, b[j].key)
    ensures FirstAt(b, query) == i
  {
  }

  lemma TablesPut(chains: seq<seq<Item>>, h: nat, c: seq<Item>)
    requires h < |chains|
    ensures Tables(chains[h := c]) == Tables(chains)[h := Entries(c)]
  {
  }

  lemma EntriesPut(c: seq<Item>, item: Item)
    ensures Entries([item] + c) == Put(Entries(c), item.data.key, item.data.value)
  {
  }

  lemma EntriesDelete(c: seq<Item>, i: nat)
    requires i < |c|
    ensures Entries(Without(c, i)) == Entries(c)[..i] + Entries(c)[i + 1..]
  {
  }
}
