/** Line framing: whole lines are handed out in blocks, the unfinished line stays at the front of the buffer. */
module LineDecoder {
  import opened Common

  const Newline: Byte := 10

  // ---------- lines of a stream ----------

  /** The position just after the last newline among the first `k` bytes, or 0. */
  function EndBefore(s: Bytes, k: nat): (n: nat)
    requires k <= |s|
    ensures n <= k && (n == 0 || s[n - 1] == Newline)
    ensures forall i :: n <= i < k ==> s[i] != Newline
  {
    if k == 0 || s[k - 1] == Newline then k else EndBefore(s, k - 1)
  }

  /** The position just after the last newline, or 0. */
  function LineEnd(s: Bytes): nat { EndBefore(s, |s|) }

  /** The first newline's position plus one; the whole length if there is none. */
  function FirstEnd(s: Bytes): (n: nat)
    requires s != []
    ensures 0 < n <= |s|
    ensures forall i :: 0 <= i < n - 1 ==> s[i] != Newline
    ensures s[n - 1] == Newline || (n == |s| && Newline !in s)
  {
    if s[0] == Newline || |s| == 1 then 1 else 1 + FirstEnd(s[1..])
  }

  /** The lines of a text, each with its newline; an unfinished last line counts as one. */
  function Lines(s: Bytes): seq<Bytes>
    decreases |s|
  {
    if s == [] then [] else [s[..FirstEnd(s)]] + Lines(s[FirstEnd(s)..])
  }

  predicate WholeLines(s: Bytes) { s == [] || s[|s| - 1] == Newline }

  lemma {:induction false} FirstEndAppend(s: Bytes, t: Bytes)
    requires s != [] && WholeLines(s)
    ensures FirstEnd(s + t) == FirstEnd(s)
  {
    if s[0] != Newline {
      assert (s + t)[1..] == s[1..] + t;
      FirstEndAppend(s[1..], t);
    }
  }

  /** Cutting between whole lines does not change the lines. */
  lemma {:induction false} LinesAppend(s: Bytes, t: Bytes)
    requires WholeLines(s)
    ensures Lines(s + t) == Lines(s) + Lines(t)
    decreases |s|
  {
    if s == [] {
      assert s + t == t;
    } else {
      FirstEndAppend(s, t);
      var n := FirstEnd(s);
      assert (s + t)[..n] == s[..n] && (s + t)[n..] == s[n..] + t;
      LinesAppend(s[n..], t);
      Regroup([s[..n]], Lines(s[n..]), Lines(t));
    }
  }

  /** The split at the last newline is the only one into whole lines and an unfinished one. */
  lemma SplitIsUnique(s: Bytes, whole: Bytes, residue: Bytes)
    requires s == whole + residue && WholeLines(whole) && Newline !in residue
    ensures whole == s[..LineEnd(s)] && residue == s[LineEnd(s)..]
  {
    var n := LineEnd(s);
    assert whole != [] ==> s[|whole| - 1] == Newline;
    assert forall i :: |whole| <= i < |s| ==> s[i] == residue[i - |whole|];
  }

  // ---------- the decoder ----------

  class LineTcpSocket {
    const buf: array<Byte>
    var used: nat
    var recv: Option<Bytes>
    ghost var consumed: Bytes
    /** All bytes handed out. */
    ghost var emitted: Bytes

    /** What was handed out is everything up to the last newline, and `residue` is the rest. */
    ghost predicate InStep(residue: Bytes)
      reads this`consumed, this`emitted
    {
      emitted == consumed[..LineEnd(consumed)] && residue == consumed[LineEnd(consumed)..]
    }

    ghost predicate Valid()
      reads this, buf
    {
      used <= buf.Length && InStep(buf[..used])
    }

    constructor (capacity: nat)
      ensures Valid() && recv == None && consumed == [] && fresh(buf) && buf.Length == capacity
    {
      buf := new Byte[capacity](_ => 0);
      used, recv, consumed, emitted := 0, None, [], [];
    }

    /** What read stores at the end of the buffer. */
    method Store(data: Bytes)
      requires used + |data| <= buf.Length
      modifies buf
      ensures buf[..used + |data|] == old(buf[..used]) + data
    {
      var i := 0;
      while i < |data|
        invariant 0 <= i <= |data| && buf[..used + i] == old(buf[..used]) + data[..i]
      {
        buf[used + i] := data[i];
        assert buf[..used + i + 1] == buf[..used + i] + [data[i]];
        i := i + 1;
      }
      assert data[..|data|] == data;
    }

    /** Looks for a newline backwards, in the bytes just read only; returns one past it, or 0. */
    method ScanBack(pos1: nat) returns (end: nat)
      requires pos1 <= used <= buf.Length && forall i :: 0 <= i < pos1 ==> buf[i] != Newline
      ensures end == LineEnd(buf[..used])
      ensures end == 0 || pos1 < end
    {
      ghost var text := buf[..used];
      end := used;
      while end > pos1
        invariant pos1 <= end <= used && LineEnd(text) == EndBefore(text, end)
      {
        if buf[end - 1] == Newline { return end; }
        end := end - 1;
      }
      assert forall i :: 0 <= i < pos1 ==> text[i] == buf[i];
      end := 0;
    }

    /** memmove of the residue to the front. */
    method MoveDown(from: nat, ghost text: Bytes)
      requires from <= used <= buf.Length && buf[..used] == text
      modifies this`used, buf
      ensures used == old(used) - from && buf[..used] == text[from..]
    {
      var count := used - from;
      var i := 0;
      while i < count
        invariant 0 <= i <= count && used == old(used)
        invariant forall k :: 0 <= k < i ==> buf[k] == text[from + k]
        invariant forall k :: from + i <= k < used ==> buf[k] == text[k]
      {
        buf[i] := buf[from + i];
        i := i + 1;
      }
      used := count;
    }

    /** The new bytes hold no newline. */
    ghost method KeepReading(data: Bytes, text: Bytes)
      requires Unseen(data, text) && LineEnd(text) == 0
      modifies this`consumed
      ensures Valid() && consumed == old(consumed) + data && Newline !in data
    {
      AppendText(consumed, data, text);
      NewlineInText(consumed[LineEnd(consumed)..], data);
      consumed := consumed + data;
    }

    /** `text` is in the buffer, but its last bytes have not been looked at. */
    ghost predicate Unseen(data: Bytes, text: Bytes)
      reads this, buf
    {
      used <= buf.Length && buf[..used] == text && Behind(data, text)
    }

    /** The bookkeeping is behind by the bytes `data`. */
    ghost predicate Behind(data: Bytes, text: Bytes)
      reads this`consumed, this`emitted
    {
      text == consumed[LineEnd(consumed)..] + data && emitted == consumed[..LineEnd(consumed)]
    }

    /** Copies the whole lines out and moves the residue down. */
    method HandOut(end: nat, ghost data: Bytes, ghost text: Bytes)
      requires Unseen(data, text) && 0 < end == LineEnd(text)
      modifies this, buf
      ensures Valid() && consumed == old(consumed) + data && recv.Some? && recv.value == text[..end]
      ensures WholeLines(recv.value) && recv.value != [] && emitted == old(emitted) + recv.value
    {
      var block := CopyOut(end, text);
      Record(data, text, block);
      MoveDown(end, text);
      recv := Some(block);
    }

    method CopyOut(end: nat, ghost text: Bytes) returns (block: Bytes)
      requires used <= buf.Length && buf[..used] == text && 0 < end == LineEnd(text)
      ensures block == text[..end] && WholeLines(block) && block != []
    {
      block := buf[..end];
    }

    /** The whole lines of `text` count as handed out. */
    ghost method Record(data: Bytes, text: Bytes, block: Bytes)
      requires Behind(data, text) && block == text[..LineEnd(text)]
      modifies this`consumed, this`emitted
      ensures consumed == old(consumed) + data && emitted == old(emitted) + block
      ensures InStep(text[LineEnd(text)..])
    {
      AppendText(consumed, data, text);
      consumed := consumed + data;
      emitted := emitted + block;
    }

    /** One call: `n` bytes of `avail` are read; 1 when whole lines were handed out. */
    method ReadHandler(avail: Bytes, k: nat) returns (code: int, n: nat)
      requires Valid() && recv == None
      modifies this, buf
      ensures Valid() && n == Min(k, Min(buf.Length - old(used), |avail|))
      ensures consumed == old(consumed) + avail[..n]
      ensures code == if recv.Some? then 1 else 0
      ensures recv.Some? <==> Newline in avail[..n]
      ensures recv.Some? ==> WholeLines(recv.value) && recv.value != [] && emitted == old(emitted) + recv.value
      ensures recv.Some? ==> Lines(emitted) == old(Lines(emitted)) + Lines(recv.value)
      ensures recv.None? ==> emitted == old(emitted)
    {
      n := Min(k, Min(buf.Length - used, |avail|));
      if n == 0 {
        assert consumed + avail[..0] == consumed;
        return 0, 0;
      }
      var pos1 := used;
      Store(avail[..n]);
      used := used + n;
      code := Look(pos1, avail[..n]);
    }

    /** Whole lines go out if there is a newline among the bytes just read. */
    method Look(pos1: nat, ghost data: Bytes) returns (code: int)
      requires pos1 + |data| == used <= buf.Length && InStep(buf[..pos1]) && buf[..used] == buf[..pos1] + data && recv == None
      modifies this, buf
      ensures Valid() && consumed == old(consumed) + data
      ensures code == (if recv.Some? then 1 else 0) && (recv.Some? <==> Newline in data)
      ensures recv.Some? ==> WholeLines(recv.value) && recv.value != [] && emitted == old(emitted) + recv.value
      ensures recv.Some? ==> Lines(emitted) == old(Lines(emitted)) + Lines(recv.value)
      ensures recv.None? ==> emitted == old(emitted)
    {
      ghost var text := buf[..used];
      assert forall i :: 0 <= i < pos1 ==> buf[i] == buf[..pos1][i];
      var end := ScanBack(pos1);
      if end == 0 {
        KeepReading(data, text);
        return 0;
      }
      assert data[end - 1 - pos1] == text[end - 1];
      HandOut(end, data, text);
      LinesAppend(old(emitted), recv.value);
      code := 1;
    }

    method TakeLines() returns (block: Bytes)
      requires Valid() && recv.Some?
      modifies this
      ensures Valid() && recv == None && block == old(recv).value
      ensures (used, consumed, emitted) == old((used, consumed, emitted))
    {
      block, recv := recv.value, None;
    }
  }

  lemma JoinLines(a: Bytes, b: Bytes, c: Bytes)
    requires WholeLines(a) && WholeLines(b) && Newline !in c
    ensures LineEnd((a + b) + c) == |a + b|
    ensures ((a + b) + c)[..|a + b|] == a + b && ((a + b) + c)[|a + b|..] == c
  {
    if b == [] { assert a + b == a; }
    SplitIsUnique((a + b) + c, a + b, c);
  }

  /** Appending to the residue moves the last newline accordingly. */
  lemma AppendText(consumed: Bytes, data: Bytes, text: Bytes)
    requires text == consumed[LineEnd(consumed)..] + data
    ensures var n := LineEnd(consumed); var e := LineEnd(text); var all := consumed + data;
      && LineEnd(all) == n + e
      && all[..n + e] == consumed[..n] + text[..e] && all[n + e..] == text[e..]
  {
    var n, e := LineEnd(consumed), LineEnd(text);
    var a, r, b, c := consumed[..n], consumed[n..], text[..e], text[e..];
    assert a + r == consumed && b + c == text;
    Reassociate(a, r, data, b, c);
    JoinLines(a, b, c);
  }

  lemma Reassociate(a: Bytes, r: Bytes, data: Bytes, b: Bytes, c: Bytes)
    requires r + data == b + c
    ensures (a + b) + c == (a + r) + data
  {
    assert (a + b) + c == a + (b + c);
    assert (a + r) + data == a + (r + data);
  }

  lemma NewlineInText(residue: Bytes, data: Bytes)
    requires LineEnd(residue + data) == 0
    ensures Newline !in data
  {
    forall i | 0 <= i < |data| ensures data[i] != Newline { assert (residue + data)[|residue| + i] == data[i]; }
  }

  // ---------- whole streams ----------

  /** How much of the first `q` bytes belongs to an unfinished line. */
  function Unfinished(stream: Bytes, q: nat): nat
    requires q <= |stream|
  {
    q - LineEnd(stream[..q])
  }

  /** No unfinished line fills the buffer before the stream ends. */
  predicate NoLineFills(stream: Bytes, capacity: nat) {
    forall q :: 0 <= q < |stream| ==> Unfinished(stream, q) < capacity
  }

  /** Every read may return at least one byte, and there are enough of them. */
  predicate EnoughReads(stream: Bytes, caps: seq<nat>) {
    |stream| <= |caps| && forall i :: 0 <= i < |caps| ==> 0 < caps[i]
  }

  /** The last newline does not move back. */
  lemma UnfinishedGrows(stream: Bytes, p: nat, q: nat)
    requires p <= q <= |stream|
    ensures Unfinished(stream, q) <= Unfinished(stream, p) + (q - p)
  {
    var a, b := stream[..p], stream[..q];
    assert forall i :: 0 <= i < p ==> a[i] == b[i];
    assert LineEnd(a) == 0 || b[LineEnd(a) - 1] == Newline;
  }

  /** A read that fits the buffer passes no position at which a line fills it. */
  lemma NoneFilled(stream: Bytes, p: nat, n: nat, capacity: nat)
    requires p + n <= |stream| && Unfinished(stream, p) + n <= capacity
    requires NoneFills(stream, p, capacity)
    ensures NoneFills(stream, p + n, capacity)
  {
    forall q | p <= q < p + n ensures Unfinished(stream, q) < capacity {
      UnfinishedGrows(stream, p, q);
    }
  }

  ghost predicate NoneFills(stream: Bytes, pos: nat, capacity: nat)
    requires pos <= |stream|
  {
    forall q :: 0 <= q < pos ==> Unfinished(stream, q) < capacity
  }

  predicate AllWhole(blocks: seq<Bytes>) {
    forall j :: 0 <= j < |blocks| ==> blocks[j] != [] && WholeLines(blocks[j])
  }

  /** One call, and the block it may hand out. */
  method ReceiveOnce(d: LineTcpSocket, stream: Bytes, pos: nat, k: nat) returns (n: nat, block: Option<Bytes>)
    requires d.Valid() && d.recv == None && pos <= |stream| && d.consumed == stream[..pos]
    modifies d, d.buf
    ensures d.Valid() && d.recv == None && pos + n <= |stream| && d.consumed == stream[..pos + n]
    ensures Unfinished(stream, pos) <= d.buf.Length && n == Min(k, Min(d.buf.Length - Unfinished(stream, pos), |stream| - pos))
    ensures block.Some? ==> block.value != [] && WholeLines(block.value)
    ensures d.emitted == old(d.emitted) + (if block.Some? then block.value else [])
  {
    Residue(d, stream, pos);
    var code;
    code, n := d.ReadHandler(stream[pos..], k);
    TakeMore(stream, pos, n);
    block := None;
    if code == 1 {
      var b := d.TakeLines();
      block := Some(b);
    }
  }

  /** After `i` reads of at least one byte, the buffer is full or so many bytes have been read. */
  predicate Moved(stream: Bytes, pos: nat, capacity: nat, i: nat)
    requires pos <= |stream|
  {
    Unfinished(stream, pos) == capacity || pos >= Min(i, |stream|)
  }

  lemma MovesOn(stream: Bytes, pos: nat, capacity: nat, i: nat, k: nat, n: nat)
    requires pos + n <= |stream| && Moved(stream, pos, capacity, i) && k > 0
    requires Unfinished(stream, pos) <= capacity && n == Min(k, Min(capacity - Unfinished(stream, pos), |stream| - pos))
    ensures Moved(stream, pos + n, capacity, i + 1)
  {
  }

  /** Enough reads take all of the stream, unless a line fills the buffer. */
  lemma AllRead(stream: Bytes, pos: nat, capacity: nat, i: nat)
    requires pos <= |stream| <= i && Moved(stream, pos, capacity, i) && NoneFills(stream, pos, capacity)
    ensures pos == |stream| <==> NoLineFills(stream, capacity)
    ensures pos < |stream| ==> Unfinished(stream, pos) == capacity
  {
  }

  /** Whatever the chopping, the lines handed out are those of the bytes read, up to the last newline.
  With enough reads that is the whole stream exactly when no unfinished line fills the buffer first. */
  method Receive(stream: Bytes, capacity: nat, caps: seq<nat>) returns (blocks: seq<Bytes>, pos: nat)
    ensures pos <= |stream| && Flatten(blocks) == stream[..LineEnd(stream[..pos])]
    ensures AllWhole(blocks)
    ensures EnoughReads(stream, caps) ==> (pos == |stream| <==> NoLineFills(stream, capacity))
    ensures EnoughReads(stream, caps) && pos < |stream| ==> Unfinished(stream, pos) == capacity
  {
    var d := new LineTcpSocket(capacity);
    blocks, pos := [], 0;
    var i := 0;
    while i < |caps|
      invariant 0 <= i <= |caps| && pos <= |stream| && fresh(d) && fresh(d.buf) && d.buf.Length == capacity
      invariant d.Valid() && d.recv == None && d.consumed == stream[..pos] && d.emitted == Flatten(blocks)
      invariant AllWhole(blocks) && NoneFills(stream, pos, capacity)
      invariant EnoughReads(stream, caps) ==> Moved(stream, pos, capacity, i)
    {
      var n, block := ReceiveOnce(d, stream, pos, caps[i]);
      NoneFilled(stream, pos, n, capacity);
      if EnoughReads(stream, caps) { MovesOn(stream, pos, capacity, i, caps[i], n); }
      pos := pos + n;
      if block.Some? {
        FlattenSnoc(blocks, block.value);
        blocks := blocks + [block.value];
      }
      i := i + 1;
    }
    if EnoughReads(stream, caps) { AllRead(stream, pos, capacity, |caps|); }
    assert stream[..pos][..LineEnd(stream[..pos])] == stream[..LineEnd(stream[..pos])];
  }

  lemma Residue(d: LineTcpSocket, stream: Bytes, pos: nat)
    requires d.Valid() && pos <= |stream| && d.consumed == stream[..pos]
    ensures d.used == Unfinished(stream, pos) <= d.buf.Length
  {
    assert |d.buf[..d.used]| == |d.consumed[LineEnd(d.consumed)..]|;
  }
}
