/** The block allocator of the libevent framework.

Large chunks are carved on demand into blocks whose size is a multiple of a
step; returned blocks wait in recycle lists indexed by that multiple.  The
model keeps addresses (chunk, offset) and lengths; the bytes stored in a block
are the client's business.
*/
module MemPool {
  import opened Common

  type Step = n: int | 0 < n witness 1

  /** A block: `len` bytes of chunk `chunk` from offset `start`. */
  datatype Block = Block(chunk: nat, start: nat, len: nat)

  /** The allocator's fields; `chunks` holds the sizes of the large chunks. */
  datatype Pool = Pool(
    step: Step, maxSize: nat,
    chunks: seq<nat>,
    recycled: seq<seq<Block>>,
    hist: seq<nat>,
    item: nat, pos: nat,
    unorganized: int)

  // ---------- rounding ----------

  /** The rounding of memblock.cc: up to the next multiple, exact sizes unchanged. */
  function RoundUp(n: nat, step: Step): nat {
    var r := n / step * step + step;
    if r == n + step then r - step else r
  }

  lemma {:induction false} MulMonotone(a: int, b: int, step: Step)
    ensures a <= b ==> a * step <= b * step
    ensures a < b ==> a * step + step <= b * step
    decreases b - a
  {
    if a < b {
      MulMonotone(a, b - 1, step);
      assert b * step == (b - 1) * step + step;
    }
  }

  lemma MulDivMod(k: nat, step: Step)
    ensures k * step % step == 0 && k * step / step == k
  {
    DivUnique(k * step, k, step);
  }

  /** A remainder in range pins the quotient. */
  lemma DivUnique(n: nat, q: nat, step: Step)
    requires q * step <= n < q * step + step
    ensures n / step == q && n % step == n - q * step
  {
    assert n == n / step * step + n % step;
    MulMonotone(q, n / step, step);
    MulMonotone(n / step, q, step);
  }

  lemma ExactMultiple(n: nat, step: Step)
    requires n % step == 0
    ensures n == n / step * step
  {
    assert n == n / step * step + n % step;
  }

  /** Multiples of the step are closed under difference. */
  lemma ModSub(a: nat, b: nat, step: Step)
    requires a % step == 0 && b % step == 0 && b <= a
    ensures (a - b) % step == 0 && (a - b) / step == a / step - b / step
  {
    ExactMultiple(a, step);
    ExactMultiple(b, step);
    MulMonotone(a / step, b / step, step);
    assert a - b == (a / step - b / step) * step;
    MulDivMod(a / step - b / step, step);
  }

  /** The number of steps a size is rounded up to. */
  lemma RoundUpSteps(n: nat, step: Step) returns (k: nat)
    ensures RoundUp(n, step) == k * step && n <= k * step < n + step
  {
    var q := n / step;
    assert n == q * step + n % step;
    assert (q + 1) * step == q * step + step;
    k := if n % step == 0 then q else q + 1;
  }

  /** The rounded size is the smallest step multiple covering the request. */
  lemma RoundUpIsLeast(n: nat, step: Step, m: nat)
    ensures RoundUp(n, step) % step == 0
    ensures n <= RoundUp(n, step) < n + step
    ensures RoundUp(n, step) == RoundUp(n, step) / step * step
    ensures n <= m * step ==> RoundUp(n, step) <= m * step && RoundUp(n, step) / step <= m
  {
    var k := RoundUpSteps(n, step);
    MulDivMod(k, step);
    MulMonotone(k, m, step);
    MulMonotone(m, k, step);
  }

  function Multiple(p: Pool, size: nat): nat {
    RoundUp(size, p.step) / p.step
  }

  /** A request for `size` bytes is in range and needs `k` steps. */
  predicate Needs(step: Step, maxSize: nat, size: int, k: int) {
    0 < size <= maxSize && (k - 1) * step < size <= k * step
  }

  lemma NeedsMultiple(p: Pool, size: nat, k: int)
    requires 0 < size <= p.maxSize
    ensures Needs(p.step, p.maxSize, size, k) <==> k == Multiple(p, size)
  {
    var m := RoundUpSteps(size, p.step);
    MulDivMod(m, p.step);
    assert (m - 1) * p.step == m * p.step - p.step && (k - 1) * p.step == k * p.step - p.step;
    MulMonotone(k, m, p.step);
    MulMonotone(m, k, p.step);
  }

  /** Index of the last recycle list. */
  function Top(p: Pool): nat { Multiple(p, p.maxSize) }

  // ---------- the most-requested size ----------

  /** First index of the largest entry among the first `n`. */
  function ArgMax(h: seq<nat>, n: nat): (r: nat)
    requires 0 < n <= |h|
    ensures r < n
    ensures forall i :: 0 <= i < n ==> h[i] <= h[r]
    ensures forall i :: 0 <= i < r ==> h[i] < h[r]
  {
    if n == 1 then 0
    else var r := ArgMax(h, n - 1); if h[n - 1] > h[r] then n - 1 else r
  }

  // ---------- carving the tail of a chunk ----------

  function Remainder(left: nat, size: nat): (r: nat)
    requires 0 < size
    ensures r <= size && r <= left
    ensures 0 < left ==> 0 < r
  {
    if left > size then Remainder(left - size, size) else left
  }

  function Carve(c: nat, pos: nat, left: nat, size: nat): (bs: seq<Block>)
    requires 0 < size
    ensures forall i :: 0 <= i < |bs| ==> bs[i].len == size
    decreases left
  {
    if left > size then [Block(c, pos, size)] + Carve(c, pos + size, left - size, size) else []
  }

  lemma CarveOne(pieces: seq<Block>, c: nat, pos: nat, left: nat, size: nat)
    requires 0 < size < left
    ensures pieces + Carve(c, pos, left, size) == (pieces + [Block(c, pos, size)]) + Carve(c, pos + size, left - size, size)
  {
  }

  lemma {:induction false} RemainderModStep(left: nat, size: nat, step: Step)
    requires 0 < size && left % step == 0 && size % step == 0
    ensures Remainder(left, size) % step == 0
    ensures Remainder(left, size) / step <= size / step
    decreases left
  {
    if left > size {
      ModSub(left, size, step);
      RemainderModStep(left - size, size, step);
    } else {
      ModSub(size, left, step);
    }
  }

  /** The most-requested size, in bytes. */
  function CarveSize(p: Pool): nat
    requires 0 < |p.hist|
  {
    ArgMax(p.hist, |p.hist|) * p.step
  }

  /** Something has been requested, and never the multiple 0. */
  ghost predicate Requested(p: Pool) {
    0 < |p.hist| && p.hist[0] == 0 && exists k :: 0 <= k < |p.hist| && 0 < p.hist[k]
  }

  /** The remainder of the tail has a recycle list: it is no larger than the carving size. */
  lemma CarveSizes(p: Pool)
    requires Inv(p) && p.item < |p.chunks| && Requested(p)
    ensures 0 < ArgMax(p.hist, |p.hist|)
    ensures 0 < CarveSize(p) && CarveSize(p) % p.step == 0 && CarveSize(p) / p.step == ArgMax(p.hist, |p.hist|)
    ensures var rest := Remainder(p.chunks[p.item] - p.pos, CarveSize(p));
      && rest % p.step == 0 && rest / p.step <= ArgMax(p.hist, |p.hist|) && rest == rest / p.step * p.step
      && (rest == 0 <==> p.chunks[p.item] == p.pos)
  {
    var which := ArgMax(p.hist, |p.hist|);
    MulDivMod(which, p.step);
    MulMonotone(1, which, p.step);
    ModSub(p.chunks[p.item], p.pos, p.step);
    RemainderModStep(p.chunks[p.item] - p.pos, CarveSize(p), p.step);
    ExactMultiple(Remainder(p.chunks[p.item] - p.pos, CarveSize(p)), p.step);
  }

  /** Appends blocks to recycle list `k`. */
  function File(ls: seq<seq<Block>>, k: nat, bs: seq<Block>): seq<seq<Block>>
    requires k < |ls|
  {
    ls[k := ls[k] + bs]
  }

  /** Cuts the current chunk's tail into `size`-byte blocks for list `which`; the remainder goes to its own list. */
  function CutTail(p: Pool, which: nat, size: nat): Pool
    requires p.item < |p.chunks| && p.pos <= p.chunks[p.item] && 0 < size && which < |p.recycled|
    requires Remainder(p.chunks[p.item] - p.pos, size) / p.step < |p.recycled|
  {
    var left := p.chunks[p.item] - p.pos;
    var rest := Remainder(left, size);
    var rec := File(p.recycled, which, Carve(p.item, p.pos, left, size));
    p.(recycled := if rest == 0 then rec else File(rec, rest / p.step, [Block(p.item, p.chunks[p.item] - rest, rest)]),
       item := p.item + 1, pos := 0, unorganized := p.unorganized - left)
  }

  lemma CutTailIs(p: Pool, which: nat, size: nat, left: nat, own: nat)
    requires p.item < |p.chunks| && p.pos <= p.chunks[p.item] && 0 < size && which < |p.recycled|
    requires left == Remainder(p.chunks[p.item] - p.pos, size) && own == left / p.step < |p.recycled|
    ensures var rec := File(p.recycled, which, Carve(p.item, p.pos, p.chunks[p.item] - p.pos, size));
      CutTail(p, which, size) == p.(
        recycled := if left == 0 then rec else File(rec, own, [Block(p.item, p.chunks[p.item] - left, left)]),
        item := p.item + 1, pos := 0, unorganized := p.unorganized - (p.chunks[p.item] - p.pos))
  {
  }

  function CarveTail(p: Pool): Pool
    requires Inv(p) && p.item + 1 < |p.chunks| && Requested(p)
  {
    CarveSizes(p);
    CutTail(p, ArgMax(p.hist, |p.hist|), CarveSize(p))
  }

  // ---------- the operations ----------

  datatype GetResult = GetResult(code: int, block: Option<Block>, pool: Pool)

  function TakeFresh(p: Pool, need: nat): GetResult {
    GetResult(0, Some(Block(p.item, p.pos, need)), p.(pos := p.pos + need, unorganized := p.unorganized - need))
  }

  function Counted(p: Pool, m: nat): Pool
    requires m < |p.hist|
  {
    p.(hist := p.hist[m := p.hist[m] + 1])
  }

  /** 0 with a block, -1 for a bad size, -2 when the pool must be enlarged first. */
  function Get(p: Pool, size: int): GetResult
    requires Inv(p) && 0 < |p.chunks|
  {
    if size <= 0 || size > p.maxSize then GetResult(-1, None, p)
    else
      var need := RoundUp(size, p.step);
      var m := Multiple(p, size);
      assert m <= Top(p) by { MultipleMonotone(p, size); }
      var p1 := Counted(p, m);
      if p.recycled[m] != [] then
        GetResult(0, Some(p.recycled[m][0]), p1.(recycled := p1.recycled[m := p.recycled[m][1..]]))
      else
        assert Inv(p1) && Requested(p1) by { CountedKeepsInv(p, size); }
        FromChunks(p1, need)
  }

  /** Cuts a block off the chunks, moving to the next chunk when the current one is too short. */
  function FromChunks(p: Pool, need: nat): GetResult
    requires Inv(p) && 0 < |p.chunks| && Requested(p)
  {
    if p.chunks[p.item] - p.pos >= need then TakeFresh(p, need)
    else if p.item == |p.chunks| - 1 then GetResult(-2, None, p)
    else TakeFresh(CarveTail(p), need)
  }

  function Return(p: Pool, b: Block): Pool
    requires b.len / p.step < |p.recycled|
  {
    var m := b.len / p.step;
    p.(recycled := p.recycled[m := p.recycled[m] + [b]])
  }

  /** 0 with a new chunk, -1 for a bad size. */
  function Enlarge(p: Pool, n: int): (int, Pool) {
    if n <= 0 then (-1, p)
    else
      var added := RoundUp(n, p.step);
      (0, p.(chunks := p.chunks + [added], unorganized := p.unorganized + added))
  }

  function Create(step: Step, maxSize: nat): (p: Pool) {
    var top := RoundUp(maxSize, step) / step;
    Pool(step, maxSize, [], seq(top + 1, _ => []), seq(top + 1, _ => 0), 0, 0, 0)
  }

  // ---------- the invariant ----------

  /** A block of `k` steps. */
  predicate OfSteps(b: Block, k: nat, step: Step) { 0 < k && b.len == k * step }

  /** Every recycle list holds blocks of exactly its own size. */
  ghost predicate BySize(ls: seq<seq<Block>>, step: Step) {
    forall k, i :: 0 <= k < |ls| && 0 <= i < |ls[k]| ==> OfSteps(ls[k][i], k, step)
  }

  ghost predicate Inv(p: Pool) {
    && |p.recycled| == |p.hist| == Top(p) + 1
    && BySize(p.recycled, p.step)
    && p.hist[0] == 0
    && (forall j :: 0 <= j < |p.chunks| ==> p.chunks[j] % p.step == 0)
    && (if p.chunks == [] then p.item == 0 && p.pos == 0
        else p.item < |p.chunks| && p.pos <= p.chunks[p.item] && p.pos % p.step == 0)
    && p.unorganized == Unorganized(One, p)
  }

  /** Chunks are at least one block of the largest size. */
  ghost predicate Roomy(p: Pool) {
    forall j :: 0 <= j < |p.chunks| ==> RoundUp(p.maxSize, p.step) <= p.chunks[j]
  }

  // ---------- measures ----------

  /** A weight for every byte (chunk, offset); the laws below hold for all of them. */
  type Weight = (nat, nat) -> int

  /** Number of bytes. */
  const One: Weight := (c: nat, x: nat) => 1

  /** Counts how often the byte (c, x) is covered. */
  function At(c: nat, x: nat): Weight {
    (c': nat, x': nat) => if c' == c && x' == x then 1 else 0
  }

  /** The weight of bytes `lo` to `hi` of chunk `c`. */
  function Weigh(f: Weight, c: nat, lo: nat, hi: nat): int
    decreases hi - lo
  {
    if lo < hi then f(c, lo) + Weigh(f, c, lo + 1, hi) else 0
  }

  lemma {:induction false} WeighSplit(f: Weight, c: nat, lo: nat, mid: nat, hi: nat)
    requires lo <= mid <= hi
    ensures Weigh(f, c, lo, hi) == Weigh(f, c, lo, mid) + Weigh(f, c, mid, hi)
    decreases mid - lo
  {
    if lo < mid { WeighSplit(f, c, lo + 1, mid, hi); }
  }

  lemma {:induction false} WeighOne(c: nat, lo: nat, hi: nat)
    requires lo <= hi
    ensures Weigh(One, c, lo, hi) == hi - lo
    decreases hi - lo
  {
    if lo < hi { WeighOne(c, lo + 1, hi); }
  }

  lemma {:induction false} WeighAt(c: nat, x: nat, c': nat, lo: nat, hi: nat)
    ensures Weigh(At(c, x), c', lo, hi) == if c' == c && lo <= x < hi then 1 else 0
    decreases hi - lo
  {
    if lo < hi { WeighAt(c, x, c', lo + 1, hi); }
  }

  function Of(f: Weight, b: Block): int { Weigh(f, b.chunk, b.start, b.start + b.len) }

  function Total(f: Weight, bs: seq<Block>): int {
    if bs == [] then 0 else Of(f, bs[0]) + Total(f, bs[1..])
  }

  function TotalAll(f: Weight, ls: seq<seq<Block>>): int {
    if ls == [] then 0 else Total(f, ls[0]) + TotalAll(f, ls[1..])
  }

  function ChunksFrom(f: Weight, chunks: seq<nat>, j: nat): int
    requires j <= |chunks|
    decreases |chunks| - j
  {
    if j == |chunks| then 0 else Weigh(f, j, 0, chunks[j]) + ChunksFrom(f, chunks, j + 1)
  }

  /** What has never been organized into blocks: the current tail and all later chunks. */
  function Unorganized(f: Weight, p: Pool): int
    requires p.item < |p.chunks| ==> p.pos <= p.chunks[p.item]
  {
    if p.item < |p.chunks| then Weigh(f, p.item, p.pos, p.chunks[p.item]) + ChunksFrom(f, p.chunks, p.item + 1)
    else 0
  }

  // ---------- sums ----------

  lemma {:induction false} TotalAppend(f: Weight, a: seq<Block>, b: seq<Block>)
    ensures Total(f, a + b) == Total(f, a) + Total(f, b)
  {
    if a == [] {
      assert a + b == b;
    } else {
      assert (a + b)[1..] == a[1..] + b;
      TotalAppend(f, a[1..], b);
    }
  }

  lemma {:induction false} TotalRemove(f: Weight, bs: seq<Block>, i: nat)
    requires i < |bs|
    ensures Total(f, bs[..i] + bs[i + 1..]) == Total(f, bs) - Of(f, bs[i])
  {
    assert bs == bs[..i] + ([bs[i]] + bs[i + 1..]);
    TotalAppend(f, bs[..i], [bs[i]] + bs[i + 1..]);
    TotalAppend(f, bs[..i], bs[i + 1..]);
  }

  lemma {:induction false} TotalAllUpdate(f: Weight, ls: seq<seq<Block>>, k: nat, l: seq<Block>)
    requires k < |ls|
    ensures TotalAll(f, ls[k := l]) == TotalAll(f, ls) - Total(f, ls[k]) + Total(f, l)
  {
    if k == 0 {
      assert ls[k := l][1..] == ls[1..];
    } else {
      assert ls[k := l][1..] == ls[1..][k - 1 := l];
      TotalAllUpdate(f, ls[1..], k - 1, l);
    }
  }

  lemma {:induction false} ChunksFromAppend(f: Weight, chunks: seq<nat>, n: nat, j: nat)
    requires j <= |chunks|
    ensures ChunksFrom(f, chunks + [n], j) == ChunksFrom(f, chunks, j) + Weigh(f, |chunks|, 0, n)
    decreases |chunks| - j
  {
    if j < |chunks| { ChunksFromAppend(f, chunks, n, j + 1); }
    else { assert ChunksFrom(f, chunks + [n], j + 1) == 0; }
  }

  // ---------- the invariant is kept ----------

  lemma MultipleMonotone(p: Pool, size: nat)
    requires size <= p.maxSize
    ensures Multiple(p, size) <= Top(p)
    ensures 0 < size ==> 0 < Multiple(p, size)
    ensures RoundUp(size, p.step) == Multiple(p, size) * p.step <= RoundUp(p.maxSize, p.step)
  {
    RoundUpIsLeast(p.maxSize, p.step, 0);
    RoundUpIsLeast(size, p.step, Top(p));
  }

  lemma CountedKeepsInv(p: Pool, size: nat)
    requires Inv(p) && 0 < size <= p.maxSize
    ensures Multiple(p, size) < |p.hist|
    ensures Inv(Counted(p, Multiple(p, size)))
    ensures Requested(Counted(p, Multiple(p, size)))
  {
    MultipleMonotone(p, size);
    assert 0 < Counted(p, Multiple(p, size)).hist[Multiple(p, size)];
  }

  /** The tail is cut without losing a byte: any weight of it moves to the recycle lists. */
  lemma {:induction false} CarveConserves(f: Weight, c: nat, pos: nat, left: nat, size: nat)
    requires 0 < size
    ensures Total(f, Carve(c, pos, left, size)) + Weigh(f, c, pos + left - Remainder(left, size), pos + left)
         == Weigh(f, c, pos, pos + left)
    decreases left
  {
    if left > size {
      CarveConserves(f, c, pos + size, left - size, size);
      var rest := Carve(c, pos + size, left - size, size);
      assert ([Block(c, pos, size)] + rest)[1..] == rest;
      WeighSplit(f, c, pos, pos + size, pos + left);
    }
  }

  lemma TotalAllFile(f: Weight, ls: seq<seq<Block>>, k: nat, bs: seq<Block>)
    requires k < |ls|
    ensures TotalAll(f, File(ls, k, bs)) == TotalAll(f, ls) + Total(f, bs)
  {
    TotalAppend(f, ls[k], bs);
    TotalAllUpdate(f, ls, k, ls[k] + bs);
  }

  /** The bytes of the tail are now in the recycle lists. */
  lemma CutTailFiles(f: Weight, p: Pool, which: nat, size: nat)
    requires p.item < |p.chunks| && p.pos <= p.chunks[p.item] && 0 < size && which < |p.recycled|
    requires Remainder(p.chunks[p.item] - p.pos, size) / p.step < |p.recycled|
    ensures TotalAll(f, CutTail(p, which, size).recycled)
         == TotalAll(f, p.recycled) + Weigh(f, p.item, p.pos, p.chunks[p.item])
  {
    var left := p.chunks[p.item] - p.pos;
    var rest := Remainder(left, size);
    CarveConserves(f, p.item, p.pos, left, size);
    FileTail(f, p.recycled, which, Carve(p.item, p.pos, left, size), rest / p.step,
             Block(p.item, p.chunks[p.item] - rest, rest));
    CutTailIs(p, which, size, rest, rest / p.step);
  }

  lemma CutTailLeaves(f: Weight, p: Pool, which: nat, size: nat)
    requires p.item < |p.chunks| && p.pos <= p.chunks[p.item] && 0 < size && which < |p.recycled|
    requires Remainder(p.chunks[p.item] - p.pos, size) / p.step < |p.recycled|
    ensures Unorganized(f, CutTail(p, which, size)) == Unorganized(f, p) - Weigh(f, p.item, p.pos, p.chunks[p.item])
  {
  }

  lemma CutTailConserves(f: Weight, p: Pool, which: nat, size: nat)
    requires p.item < |p.chunks| && p.pos <= p.chunks[p.item] && 0 < size && which < |p.recycled|
    requires Remainder(p.chunks[p.item] - p.pos, size) / p.step < |p.recycled|
    ensures TotalAll(f, CutTail(p, which, size).recycled) + Unorganized(f, CutTail(p, which, size))
         == TotalAll(f, p.recycled) + Unorganized(f, p)
  {
    CutTailFiles(f, p, which, size);
    CutTailLeaves(f, p, which, size);
  }

  /** Filing the pieces and, unless it is empty, the remainder `b`. */
  lemma FileTail(f: Weight, ls: seq<seq<Block>>, which: nat, pieces: seq<Block>, k: nat, b: Block)
    requires which < |ls| && k < |ls|
    ensures TotalAll(f, File(ls, which, pieces)) == TotalAll(f, ls) + Total(f, pieces)
    ensures TotalAll(f, File(File(ls, which, pieces), k, [b])) == TotalAll(f, ls) + Total(f, pieces) + Of(f, b)
  {
    TotalAllFile(f, ls, which, pieces);
    assert [b][1..] == [];
    TotalAllFile(f, File(ls, which, pieces), k, [b]);
  }

  lemma FileBySize(ls: seq<seq<Block>>, k: nat, bs: seq<Block>, step: Step)
    requires BySize(ls, step) && k < |ls| && forall i :: 0 <= i < |bs| ==> OfSteps(bs[i], k, step)
    ensures BySize(File(ls, k, bs), step)
  {
    var r := File(ls, k, bs);
    forall j, i | 0 <= j < |r| && 0 <= i < |r[j]| ensures OfSteps(r[j][i], j, step) {
      if j != k { assert r[j][i] == ls[j][i]; }
      else if i < |ls[k]| { assert r[j][i] == ls[k][i]; }
      else { assert r[j][i] == bs[i - |ls[k]|]; }
    }
  }

  lemma CutTailBySize(p: Pool, which: nat, size: nat)
    requires p.item < |p.chunks| && p.pos <= p.chunks[p.item] && BySize(p.recycled, p.step)
    requires 0 < size == which * p.step && 0 < which < |p.recycled|
    requires var rest := Remainder(p.chunks[p.item] - p.pos, size);
      rest / p.step < |p.recycled| && rest == rest / p.step * p.step
    ensures BySize(CutTail(p, which, size).recycled, p.step)
  {
    var rest := Remainder(p.chunks[p.item] - p.pos, size);
    var pieces := Carve(p.item, p.pos, p.chunks[p.item] - p.pos, size);
    FileBySize(p.recycled, which, pieces, p.step);
    if rest != 0 {
      FileBySize(File(p.recycled, which, pieces), rest / p.step, [Block(p.item, p.chunks[p.item] - rest, rest)], p.step);
    }
  }

  lemma CarveTailKeepsInv(p: Pool)
    requires Inv(p) && p.item + 1 < |p.chunks| && Requested(p)
    ensures Inv(CarveTail(p))
  {
    CarveSizes(p);
    CutTailBySize(p, ArgMax(p.hist, |p.hist|), CarveSize(p));
    CutTailLeaves(One, p, ArgMax(p.hist, |p.hist|), CarveSize(p));
    WeighOne(p.item, p.pos, p.chunks[p.item]);
  }

  // ---------- one operation ----------

  /** The guard memblock.cc omits: the next chunk is not tested before a block is taken from it. */
  predicate Fits(p: Pool, size: nat)
    requires Inv(p) && 0 < |p.chunks| && 0 < size <= p.maxSize
  {
    MultipleMonotone(p, size);
    var need := RoundUp(size, p.step);
    || p.recycled[Multiple(p, size)] != []
    || p.chunks[p.item] - p.pos >= need
    || p.item == |p.chunks| - 1
    || p.chunks[p.item + 1] >= need
  }

  predicate Inside(p: Pool, b: Block) {
    b.chunk < |p.chunks| && b.start + b.len <= p.chunks[b.chunk]
  }

  /** No recycled block of the size, and no room for one behind the last chunk's position. */
  predicate NothingLeft(p: Pool, size: nat)
    requires Inv(p) && 0 < |p.chunks| && 0 < size <= p.maxSize
  {
    MultipleMonotone(p, size);
    && p.recycled[Multiple(p, size)] == []
    && p.item == |p.chunks| - 1 && p.chunks[p.item] - p.pos < RoundUp(size, p.step)
  }

  /** What the return codes promise, and exactly when the block handed out lies in its chunk. */
  lemma GetResults(p: Pool, size: int)
    requires Inv(p) && 0 < |p.chunks|
    ensures var g := Get(p, size);
      && (g.code == -1 <==> size <= 0 || size > p.maxSize)
      && (g.code == 0 <==> g.block.Some?)
      && g.code in {0, -1, -2}
      && (g.code == 0 ==> g.block.value.len == RoundUp(size, p.step))
      && (g.code == -2 <==> 0 < size <= p.maxSize && NothingLeft(p, size))
      && g.pool.chunks == p.chunks && g.pool.step == p.step && g.pool.maxSize == p.maxSize
  {
    if 0 < size <= p.maxSize {
      MultipleMonotone(p, size);
      CountedKeepsInv(p, size);
    }
  }

  /** Where a block that is not recycled comes from. */
  lemma FreshPosition(p: Pool, size: nat)
    requires Inv(p) && 0 < |p.chunks| && 0 < size <= p.maxSize
    requires Multiple(p, size) < |p.recycled| && p.recycled[Multiple(p, size)] == [] && Get(p, size).code == 0
    ensures Get(p, size).block == Some(
      if p.chunks[p.item] - p.pos >= RoundUp(size, p.step) then Block(p.item, p.pos, RoundUp(size, p.step))
      else Block(p.item + 1, 0, RoundUp(size, p.step)))
  {
    CountedKeepsInv(p, size);
    var p1 := Counted(p, Multiple(p, size));
    if p.chunks[p.item] - p.pos < RoundUp(size, p.step) { CarveSizes(p1); }
  }

  /** Without the size rule for chunks a fresh block may stick out of its chunk: exactly when `Fits` fails. */
  lemma FreshInsideIff(p: Pool, size: nat)
    requires Inv(p) && 0 < |p.chunks| && 0 < size <= p.maxSize
    requires Multiple(p, size) < |p.recycled| && p.recycled[Multiple(p, size)] == [] && Get(p, size).code == 0
    ensures Inside(p, Get(p, size).block.value) <==> Fits(p, size)
  {
    FreshPosition(p, size);
    GetResults(p, size);
  }

  lemma RoomyFits(p: Pool, size: nat)
    requires Inv(p) && Roomy(p) && 0 < |p.chunks| && 0 < size <= p.maxSize
    ensures Fits(p, size)
  {
    MultipleMonotone(p, size);
  }

  /** A recycled block of the size comes first, the oldest of its list, and the chunks stay as they are. */
  lemma RecycledFirst(p: Pool, size: nat, k: nat)
    requires Inv(p) && 0 < |p.chunks| && Needs(p.step, p.maxSize, size, k)
    requires k < |p.recycled| && p.recycled[k] != []
    ensures var g := Get(p, size);
      && g.code == 0 && g.block == Some(p.recycled[k][0])
      && g.pool == p.(hist := g.pool.hist, recycled := p.recycled[k := p.recycled[k][1..]])
  {
    NeedsMultiple(p, size, k);
    GetIs(p, size);
  }

  function OfOption(f: Weight, b: Option<Block>): int {
    if b.Some? then Of(f, b.value) else 0
  }

  /** The pool's share of weight `f`: recycled blocks and unorganized bytes. */
  function Stock(f: Weight, p: Pool): int
    requires p.item < |p.chunks| ==> p.pos <= p.chunks[p.item]
  {
    TotalAll(f, p.recycled) + Unorganized(f, p)
  }

  lemma UnorganizedTaken(f: Weight, p: Pool, need: nat)
    requires 0 < |p.chunks| && p.item < |p.chunks| && p.pos + need <= p.chunks[p.item]
    ensures Unorganized(f, p) == Weigh(f, p.item, p.pos, p.pos + need) + Unorganized(f, TakeFresh(p, need).pool)
  {
    WeighSplit(f, p.item, p.pos, p.pos + need, p.chunks[p.item]);
  }

  lemma SumSteps(a: nat, b: nat, step: Step)
    requires a % step == 0 && b % step == 0
    ensures (a + b) % step == 0
  {
    ExactMultiple(a, step);
    ExactMultiple(b, step);
    assert a + b == (a / step + b / step) * step;
    MulDivMod(a / step + b / step, step);
  }

  lemma TakeFreshConserves(f: Weight, p: Pool, need: nat)
    requires Inv(p) && 0 < |p.chunks| && p.chunks[p.item] - p.pos >= need && need % p.step == 0
    ensures var g := TakeFresh(p, need);
      && Inv(g.pool)
      && Stock(f, g.pool) + OfOption(f, g.block) == Stock(f, p)
  {
    UnorganizedTaken(f, p, need);
    UnorganizedTaken(One, p, need);
    WeighOne(p.item, p.pos, p.pos + need);
    SumSteps(p.pos, need, p.step);
  }

  lemma RecycledTakeConserves(f: Weight, p: Pool, m: nat)
    requires Inv(p) && m < |p.recycled| && p.recycled[m] != []
    ensures var q := p.(recycled := p.recycled[m := p.recycled[m][1..]]);
      && Inv(q)
      && Stock(f, q) + Of(f, p.recycled[m][0]) == Stock(f, p)
  {
    TotalAllUpdate(f, p.recycled, m, p.recycled[m][1..]);
    var ls: seq<seq<Block>> := p.recycled[m := p.recycled[m][1..]];
    forall k, i | 0 <= k < |ls| && 0 <= i < |ls[k]|
      ensures OfSteps(ls[k][i], k, p.step)
    {
      if k == m { assert ls[k][i] == p.recycled[m][i + 1]; }
    }
  }

  lemma CarveTailConserves(f: Weight, p: Pool)
    requires Inv(p) && p.item + 1 < |p.chunks| && Requested(p)
    ensures var q := CarveTail(p);
      q.item == p.item + 1 && q.pos == 0 && q.chunks == p.chunks && q.step == p.step && Stock(f, q) == Stock(f, p)
  {
    CarveSizes(p);
    CutTailConserves(f, p, ArgMax(p.hist, |p.hist|), CarveSize(p));
  }

  lemma FromChunksConserves(f: Weight, p: Pool, need: nat)
    requires Inv(p) && 0 < |p.chunks| && Requested(p) && need % p.step == 0
    requires p.chunks[p.item] - p.pos < need && p.item + 1 < |p.chunks| ==> need <= p.chunks[p.item + 1]
    ensures var g := FromChunks(p, need);
      Inv(g.pool) && Stock(f, g.pool) + OfOption(f, g.block) == Stock(f, p)
  {
    if p.chunks[p.item] - p.pos >= need {
      TakeFreshConserves(f, p, need);
    } else if p.item < |p.chunks| - 1 {
      CarveTailKeepsInv(p);
      CarveTailConserves(f, p);
      TakeFreshConserves(f, CarveTail(p), need);
    }
  }

  /** A request moves weight from the pool to the block handed out, and loses none. */
  lemma GetConserves(f: Weight, p: Pool, size: int)
    requires Inv(p) && 0 < |p.chunks| && (0 < size <= p.maxSize ==> Fits(p, size))
    ensures var g := Get(p, size);
      && Inv(g.pool)
      && Stock(f, g.pool) + OfOption(f, g.block) == Stock(f, p)
  {
    if 0 < size <= p.maxSize {
      GetIs(p, size);
      if p.recycled[Multiple(p, size)] == [] { FromListsConserves(f, p, size); }
      else { RecycledTakeConserves(f, Counted(p, Multiple(p, size)), Multiple(p, size)); }
    }
  }

  lemma FromListsConserves(f: Weight, p: Pool, size: nat)
    requires Inv(p) && 0 < |p.chunks| && 0 < size <= p.maxSize && Fits(p, size)
    requires Multiple(p, size) < |p.recycled| && p.recycled[Multiple(p, size)] == []
    requires Inv(Counted(p, Multiple(p, size))) && Requested(Counted(p, Multiple(p, size)))
    ensures var g := FromChunks(Counted(p, Multiple(p, size)), RoundUp(size, p.step));
      && Inv(g.pool)
      && Stock(f, g.pool) + OfOption(f, g.block) == Stock(f, p)
  {
    RoundUpIsLeast(size, p.step, 0);
    CountedStock(f, p, Multiple(p, size));
    FromChunksConserves(f, Counted(p, Multiple(p, size)), RoundUp(size, p.step));
  }

  lemma CountedStock(f: Weight, p: Pool, m: nat)
    requires m < |p.hist| && (p.item < |p.chunks| ==> p.pos <= p.chunks[p.item])
    ensures Stock(f, Counted(p, m)) == Stock(f, p)
  {
  }

  /** A length that has a recycle list. */
  predicate Sized(p: Pool, b: Block) {
    b.len % p.step == 0 && 0 < b.len / p.step <= Top(p)
  }

  lemma GetSized(p: Pool, size: int)
    requires Inv(p) && 0 < |p.chunks| && Get(p, size).code == 0
    ensures Sized(p, Get(p, size).block.value)
  {
    GetResults(p, size);
    MultipleMonotone(p, size);
    RoundUpIsLeast(size, p.step, 0);
  }

  lemma ReturnConserves(f: Weight, p: Pool, b: Block)
    requires Inv(p) && Sized(p, b)
    ensures Inv(Return(p, b))
    ensures Stock(f, Return(p, b)) == Stock(f, p) + Of(f, b)
  {
    ExactMultiple(b.len, p.step);
    FileBySize(p.recycled, b.len / p.step, [b], p.step);
    assert [b][1..] == [];
    TotalAllFile(f, p.recycled, b.len / p.step, [b]);
  }

  lemma EnlargeConserves(f: Weight, p: Pool, n: int)
    requires Inv(p)
    ensures var q := Enlarge(p, n).1;
      && Inv(q)
      && Stock(f, q) - ChunksFrom(f, q.chunks, 0) == Stock(f, p) - ChunksFrom(f, p.chunks, 0)
  {
    if n > 0 {
      RoundUpIsLeast(n, p.step, 0);
      var added := RoundUp(n, p.step);
      ChunksFromAppend(f, p.chunks, added, 0);
      ChunksFromAppend(One, p.chunks, added, 0);
      WeighOne(|p.chunks|, 0, added);
      if p.chunks != [] {
        ChunksFromAppend(f, p.chunks, added, p.item + 1);
        ChunksFromAppend(One, p.chunks, added, p.item + 1);
      } else {
        assert ChunksFrom(f, p.chunks + [added], 1) == 0;
        assert ChunksFrom(One, p.chunks + [added], 1) == 0;
      }
    }
  }

  // ---------- runs ----------

  /** The pool and the blocks its clients hold. */
  datatype World = World(pool: Pool, held: seq<Block>)

  datatype Op = GetOp(size: int) | ReturnOp(i: nat) | EnlargeOp(n: int)

  /** One call.  A pool without a first chunk serves no request; only a held block can be returned. */
  function Step1(w: World, op: Op): World
    requires WorldOk(w)
  {
    match op
    case GetOp(size) =>
      if w.pool.chunks == [] then w
      else
        var g := Get(w.pool, size);
        World(g.pool, if g.block.Some? then w.held + [g.block.value] else w.held)
    case ReturnOp(i) =>
      if i >= |w.held| then w
      else World(Return(w.pool, w.held[i]), w.held[..i] + w.held[i + 1..])
    case EnlargeOp(n) => World(Enlarge(w.pool, n).1, w.held)
  }

  ghost predicate WorldOk(w: World) {
    Inv(w.pool) && Roomy(w.pool) && forall i :: 0 <= i < |w.held| ==> Sized(w.pool, w.held[i])
  }

  /** New chunks hold at least one block of the largest size. */
  predicate LargeEnough(p: Pool, op: Op) {
    op.EnlargeOp? && 0 < op.n ==> RoundUp(p.maxSize, p.step) <= RoundUp(op.n, p.step)
  }

  function Measured(f: Weight, w: World): int
    requires w.pool.item < |w.pool.chunks| ==> w.pool.pos <= w.pool.chunks[w.pool.item]
  {
    Total(f, w.held) + Stock(f, w.pool)
  }

  /** What each call keeps: the invariant, the parameters, and the balance of any weight. */
  ghost predicate Safe(f: Weight, w: World, w': World)
    requires WorldOk(w)
  {
    && WorldOk(w') && w'.pool.step == w.pool.step && w'.pool.maxSize == w.pool.maxSize
    && Measured(f, w') - ChunksFrom(f, w'.pool.chunks, 0) == Measured(f, w) - ChunksFrom(f, w.pool.chunks, 0)
  }

  lemma GetSafe(f: Weight, w: World, size: int)
    requires WorldOk(w) && w.pool.chunks != []
    ensures Safe(f, w, Step1(w, GetOp(size)))
  {
    if 0 < size <= w.pool.maxSize { RoomyFits(w.pool, size); }
    GetResults(w.pool, size);
    GetConserves(f, w.pool, size);
    var g := Get(w.pool, size);
    if g.block.Some? {
      GetSized(w.pool, size);
      assert [g.block.value][1..] == [];
      TotalAppend(f, w.held, [g.block.value]);
    }
  }

  lemma ReturnSafe(f: Weight, w: World, i: nat)
    requires WorldOk(w) && i < |w.held|
    ensures Safe(f, w, Step1(w, ReturnOp(i)))
  {
    ReturnConserves(f, w.pool, w.held[i]);
    TotalRemove(f, w.held, i);
  }

  lemma EnlargeSafe(f: Weight, w: World, n: int)
    requires WorldOk(w) && LargeEnough(w.pool, EnlargeOp(n))
    ensures Safe(f, w, Step1(w, EnlargeOp(n)))
  {
    EnlargeConserves(f, w.pool, n);
  }

  lemma StepSafe(f: Weight, w: World, op: Op)
    requires WorldOk(w) && LargeEnough(w.pool, op)
    ensures Safe(f, w, Step1(w, op))
  {
    match op
    case GetOp(size) => if w.pool.chunks != [] { GetSafe(f, w, size); }
    case ReturnOp(i) => if i < |w.held| { ReturnSafe(f, w, i); }
    case EnlargeOp(n) => EnlargeSafe(f, w, n);
  }

  ghost predicate GoodRun(p: Pool, ops: seq<Op>) {
    forall i :: 0 <= i < |ops| ==> LargeEnough(p, ops[i])
  }

  lemma GoodTail(w: World, ops: seq<Op>)
    requires WorldOk(w) && GoodRun(w.pool, ops) && ops != []
    ensures WorldOk(Step1(w, ops[0])) && GoodRun(Step1(w, ops[0]).pool, ops[1..])
  {
    assert LargeEnough(w.pool, ops[0]);
    StepSafe(One, w, ops[0]);
    forall i | 0 <= i < |ops[1..]| ensures LargeEnough(Step1(w, ops[0]).pool, ops[1..][i]) {
      assert LargeEnough(w.pool, ops[i + 1]);
    }
  }

  /** The state after a run; no call in it can break the invariant. */
  ghost function Run(w: World, ops: seq<Op>): (w': World)
    requires WorldOk(w) && GoodRun(w.pool, ops)
    ensures WorldOk(w')
    decreases |ops|
  {
    if ops == [] then w
    else
      GoodTail(w, ops);
      Run(Step1(w, ops[0]), ops[1..])
  }

  /** Over any run, every weight of held, recycled and unorganized bytes stays that of the chunks. */
  lemma {:induction false} RunConserves(f: Weight, w: World, ops: seq<Op>)
    requires WorldOk(w) && GoodRun(w.pool, ops)
    requires Measured(f, w) == ChunksFrom(f, w.pool.chunks, 0)
    ensures Measured(f, Run(w, ops)) == ChunksFrom(f, Run(w, ops).pool.chunks, 0)
    decreases |ops|
  {
    if ops != [] {
      assert LargeEnough(w.pool, ops[0]);
      StepSafe(f, w, ops[0]);
      GoodTail(w, ops);
      RunConserves(f, Step1(w, ops[0]), ops[1..]);
    }
  }

  /** The state some run reaches from a new pool. */
  ghost function From(step: Step, maxSize: nat, ops: seq<Op>): (w: World)
    requires GoodRun(Create(step, maxSize), ops)
    ensures WorldOk(w)
  {
    CreateOk(step, maxSize);
    Run(World(Create(step, maxSize), []), ops)
  }

  lemma CreateOk(step: Step, maxSize: nat)
    ensures WorldOk(World(Create(step, maxSize), []))
  {
  }

  lemma CreateMeasures(f: Weight, step: Step, maxSize: nat)
    ensures Measured(f, World(Create(step, maxSize), [])) == 0
  {
    EmptyLists(f, RoundUp(maxSize, step) / step + 1);
  }

  lemma {:induction false} EmptyLists(f: Weight, n: nat)
    ensures TotalAll(f, seq(n, _ => [])) == 0
  {
    if n > 0 {
      var ls: seq<seq<Block>> := seq(n, _ => []);
      assert ls[1..] == seq(n - 1, _ => []);
      EmptyLists(f, n - 1);
    }
  }

  lemma FromConserves(f: Weight, step: Step, maxSize: nat, ops: seq<Op>)
    requires GoodRun(Create(step, maxSize), ops)
    ensures var w := From(step, maxSize, ops); Measured(f, w) == ChunksFrom(f, w.pool.chunks, 0)
  {
    CreateOk(step, maxSize);
    CreateMeasures(f, step, maxSize);
    RunConserves(f, World(Create(step, maxSize), []), ops);
  }

  // ---------- the three conservation theorems ----------

  /** How many held, recycled or unorganized pieces contain byte `x` of chunk `c`. */
  function Owners(w: World, c: nat, x: nat): int
    requires w.pool.item < |w.pool.chunks| ==> w.pool.pos <= w.pool.chunks[w.pool.item]
  {
    Measured(At(c, x), w)
  }

  lemma {:induction false} ChunkBytes(c: nat, x: nat, chunks: seq<nat>, j: nat)
    requires j <= |chunks|
    ensures ChunksFrom(At(c, x), chunks, j) == if j <= c < |chunks| && x < chunks[c] then 1 else 0
    decreases |chunks| - j
  {
    if j < |chunks| {
      WeighAt(c, x, j, 0, chunks[j]);
      ChunkBytes(c, x, chunks, j + 1);
    }
  }

  /** Exact cover: each byte of each chunk has one owner, and nothing lies outside the chunks. */
  lemma EachByteHasOneOwner(step: Step, maxSize: nat, ops: seq<Op>, c: nat, x: nat)
    requires GoodRun(Create(step, maxSize), ops)
    ensures var w := From(step, maxSize, ops);
      Owners(w, c, x) == if c < |w.pool.chunks| && x < w.pool.chunks[c] then 1 else 0
  {
    FromConserves(At(c, x), step, maxSize, ops);
    ChunkBytes(c, x, From(step, maxSize, ops).pool.chunks, 0);
  }

  function Sum(ns: seq<nat>, j: nat): nat
    requires j <= |ns|
    decreases |ns| - j
  {
    if j == |ns| then 0 else ns[j] + Sum(ns, j + 1)
  }

  function Lengths(bs: seq<Block>): nat {
    if bs == [] then 0 else bs[0].len + Lengths(bs[1..])
  }

  function LengthsAll(ls: seq<seq<Block>>): nat {
    if ls == [] then 0 else Lengths(ls[0]) + LengthsAll(ls[1..])
  }

  lemma {:induction false} TotalOne(bs: seq<Block>)
    ensures Total(One, bs) == Lengths(bs)
  {
    if bs != [] {
      WeighOne(bs[0].chunk, bs[0].start, bs[0].start + bs[0].len);
      TotalOne(bs[1..]);
    }
  }

  lemma {:induction false} TotalAllOne(ls: seq<seq<Block>>)
    ensures TotalAll(One, ls) == LengthsAll(ls)
  {
    if ls != [] { TotalOne(ls[0]); TotalAllOne(ls[1..]); }
  }

  lemma {:induction false} ChunksOne(chunks: seq<nat>, j: nat)
    requires j <= |chunks|
    ensures ChunksFrom(One, chunks, j) == Sum(chunks, j)
    decreases |chunks| - j
  {
    if j < |chunks| { WeighOne(j, 0, chunks[j]); ChunksOne(chunks, j + 1); }
  }

  /** Byte accounting: chunk bytes = unorganized + recycled + held. */
  lemma BytesBalance(step: Step, maxSize: nat, ops: seq<Op>)
    requires GoodRun(Create(step, maxSize), ops)
    ensures var w := From(step, maxSize, ops);
      Sum(w.pool.chunks, 0) == w.pool.unorganized + LengthsAll(w.pool.recycled) + Lengths(w.held)
  {
    var w := From(step, maxSize, ops);
    FromConserves(One, step, maxSize, ops);
    TotalOne(w.held);
    TotalAllOne(w.pool.recycled);
    ChunksOne(w.pool.chunks, 0);
  }

  // ---------- disjointness ----------

  predicate Contains(b: Block, c: nat, x: nat) { b.chunk == c && b.start <= x < b.start + b.len }

  lemma {:induction false} OwnersNonNegative(c: nat, x: nat, bs: seq<Block>)
    ensures Total(At(c, x), bs) >= 0
  {
    if bs != [] {
      WeighAt(c, x, bs[0].chunk, bs[0].start, bs[0].start + bs[0].len);
      OwnersNonNegative(c, x, bs[1..]);
    }
  }

  lemma {:induction false} OwnersAllNonNegative(c: nat, x: nat, ls: seq<seq<Block>>)
    ensures TotalAll(At(c, x), ls) >= 0
  {
    if ls != [] { OwnersNonNegative(c, x, ls[0]); OwnersAllNonNegative(c, x, ls[1..]); }
  }

  lemma OwnersWithout(c: nat, x: nat, bs: seq<Block>, i: nat)
    requires i < |bs| && Contains(bs[i], c, x)
    ensures Total(At(c, x), bs) == 1 + Total(At(c, x), bs[..i] + bs[i + 1..])
    ensures Total(At(c, x), bs) >= 1
  {
    var rest := bs[..i] + bs[i + 1..];
    TotalRemove(At(c, x), bs, i);
    assert Of(At(c, x), bs[i]) == 1 by {
      WeighAt(c, x, bs[i].chunk, bs[i].start, bs[i].start + bs[i].len);
    }
    OwnersNonNegative(c, x, rest);
  }

  lemma RecycledOwns(c: nat, x: nat, ls: seq<seq<Block>>, k: nat, i: nat)
    requires k < |ls| && i < |ls[k]| && Contains(ls[k][i], c, x)
    ensures TotalAll(At(c, x), ls) >= 1
  {
    TotalAllUpdate(At(c, x), ls, k, []);
    OwnersAllNonNegative(c, x, ls[k := []]);
    OwnersWithout(c, x, ls[k], i);
  }

  /** A byte nobody has organized yet: in the current tail or in a later chunk. */
  predicate Fresh(p: Pool, c: nat, x: nat) {
    c < |p.chunks| && x < p.chunks[c] && (c > p.item || (c == p.item && x >= p.pos))
  }

  lemma UnorganizedOwns(p: Pool, c: nat, x: nat)
    requires p.item < |p.chunks| ==> p.pos <= p.chunks[p.item]
    ensures Unorganized(At(c, x), p) == if p.item < |p.chunks| && Fresh(p, c, x) then 1 else 0
  {
    if p.item < |p.chunks| {
      WeighAt(c, x, p.item, p.pos, p.chunks[p.item]);
      ChunkBytes(c, x, p.chunks, p.item + 1);
    }
  }

  /** A held block lies in its chunk and shares no byte with another held block, a recycled one, or the tails. */
  lemma HeldBlocksAreExclusive(step: Step, maxSize: nat, ops: seq<Op>, i: nat, c: nat, x: nat)
    requires GoodRun(Create(step, maxSize), ops)
    requires i < |From(step, maxSize, ops).held| && Contains(From(step, maxSize, ops).held[i], c, x)
    ensures var w := From(step, maxSize, ops);
      && c < |w.pool.chunks| && x < w.pool.chunks[c] && !Fresh(w.pool, c, x)
      && (forall j :: 0 <= j < |w.held| && j != i ==> !Contains(w.held[j], c, x))
      && (forall k, j :: 0 <= k < |w.pool.recycled| && 0 <= j < |w.pool.recycled[k]| ==>
            !Contains(w.pool.recycled[k][j], c, x))
  {
    var w := From(step, maxSize, ops);
    EachByteHasOneOwner(step, maxSize, ops, c, x);
    OwnersWithout(c, x, w.held, i);
    OwnersAllNonNegative(c, x, w.pool.recycled);
    UnorganizedOwns(w.pool, c, x);
    forall j | 0 <= j < |w.held| && j != i ensures !Contains(w.held[j], c, x) {
      if Contains(w.held[j], c, x) {
        var rest := w.held[..i] + w.held[i + 1..];
        OwnersWithout(c, x, rest, if j < i then j else j - 1);
      }
    }
    forall k, j | 0 <= k < |w.pool.recycled| && 0 <= j < |w.pool.recycled[k]|
      ensures !Contains(w.pool.recycled[k][j], c, x)
    {
      if Contains(w.pool.recycled[k][j], c, x) { RecycledOwns(c, x, w.pool.recycled, k, j); }
    }
  }

  // ---------- serving a request ----------

  /** A served request gets the smallest step multiple that covers it, from nobody's block. */
  lemma ServedBlock(step: Step, maxSize: nat, ops: seq<Op>, size: int, m: nat)
    requires GoodRun(Create(step, maxSize), ops) && From(step, maxSize, ops).pool.chunks != []
    requires Get(From(step, maxSize, ops).pool, size).code == 0
    ensures var w := From(step, maxSize, ops);
      var b := Get(w.pool, size).block.value;
      && size <= b.len && b.len % w.pool.step == 0
      && (size <= m * w.pool.step ==> b.len <= m * w.pool.step)
      && Inside(w.pool, b)
      && forall i, x :: 0 <= i < |w.held| && Contains(b, b.chunk, x) ==> !Contains(w.held[i], b.chunk, x)
  {
    var w := From(step, maxSize, ops);
    var b := Get(w.pool, size).block.value;
    GetResults(w.pool, size);
    RoundUpIsLeast(size, w.pool.step, m);
    var ops' := ops + [GetOp(size)];
    RunSnoc(World(Create(step, maxSize), []), ops, GetOp(size));
    var w' := From(step, maxSize, ops');
    assert w'.held == w.held + [b] && w'.pool.chunks == w.pool.chunks;
    GetSized(w.pool, size);
    assert Contains(b, b.chunk, b.start + b.len - 1);
    HeldBlocksAreExclusive(step, maxSize, ops', |w.held|, b.chunk, b.start + b.len - 1);
    forall i, x | 0 <= i < |w.held| && Contains(b, b.chunk, x) ensures !Contains(w.held[i], b.chunk, x) {
      HeldBlocksAreExclusive(step, maxSize, ops', |w.held|, b.chunk, x);
      assert w'.held[i] == w.held[i];
    }
  }

  lemma {:induction false} RunSnoc(w: World, ops: seq<Op>, op: Op)
    requires WorldOk(w) && GoodRun(w.pool, ops) && LargeEnough(w.pool, op)
    ensures GoodRun(w.pool, ops + [op])
    ensures Run(w, ops + [op]) == Step1(Run(w, ops), op)
    decreases |ops|
  {
    forall i | 0 <= i < |ops + [op]| ensures LargeEnough(w.pool, (ops + [op])[i]) {
      if i < |ops| { assert LargeEnough(w.pool, ops[i]); }
    }
    if ops == [] {
      assert ops + [op] == [op] && [op][1..] == [];
      GoodTail(w, [op]);
    } else {
      GoodTail(w, ops);
      GoodTail(w, ops + [op]);
      assert LargeEnough(w.pool, ops[0]);
      StepSafe(One, w, ops[0]);
      assert (ops + [op])[1..] == ops[1..] + [op];
      RunSnoc(Step1(w, ops[0]), ops[1..], op);
    }
  }

  /** After -2, enlarging by at least one block of the largest size makes the same request succeed. */
  lemma RetryAfterEnlarge(p: Pool, size: int, n: int)
    requires Inv(p) && 0 < |p.chunks| && Get(p, size).code == -2
    requires 0 < n && LargeEnough(p, EnlargeOp(n))
    ensures var q := Enlarge(Get(p, size).pool, n).1;
      Inv(q) && Get(q, size).code == 0 && Inside(q, Get(q, size).block.value)
  {
    MultipleMonotone(p, size);
    CountedKeepsInv(p, size);
    var p1 := Get(p, size).pool;
    EnlargeConserves(One, p1, n);
    var q := Enlarge(p1, n).1;
    CountedKeepsInv(q, size);
    FreshInsideIff(q, size);
  }

  /** The same request `n` times. */
  function Again(size: int, n: nat): (ops: seq<Op>)
    ensures |ops| == n && forall i :: 0 <= i < n ==> ops[i] == GetOp(size)
  {
    if n == 0 then [] else [GetOp(size)] + Again(size, n - 1)
  }

  lemma OldestServed(w: World, size: int, k: nat)
    requires WorldOk(w) && w.pool.chunks != [] && Needs(w.pool.step, w.pool.maxSize, size, k)
    requires k < |w.pool.recycled| && w.pool.recycled[k] != []
    ensures var w', l := Step1(w, GetOp(size)), w.pool.recycled[k];
      && WorldOk(w') && w'.held == w.held + [l[0]] && w'.pool.recycled == w.pool.recycled[k := l[1..]]
      && (w'.pool.chunks, w'.pool.step, w'.pool.maxSize) == (w.pool.chunks, w.pool.step, w.pool.maxSize)
  {
    RecycledFirst(w.pool, size, k);
    StepSafe(One, w, GetOp(size));
  }

  lemma TakeHead(held: seq<Block>, l: seq<Block>, n: nat)
    requires 0 < n <= |l|
    ensures (held + [l[0]]) + l[1..][..n - 1] == held + l[..n]
  {
  }

  /** Requests for one size are served from its list, in the order of the list: the block returned first goes
  out first. */
  lemma {:induction false} ServedInTurn(w: World, size: int, k: nat, n: nat)
    requires WorldOk(w) && w.pool.chunks != [] && Needs(w.pool.step, w.pool.maxSize, size, k)
    requires k < |w.pool.recycled| && n <= |w.pool.recycled[k]|
    ensures GoodRun(w.pool, Again(size, n))
    ensures Run(w, Again(size, n)).held == w.held + w.pool.recycled[k][..n]
    decreases n
  {
    if n > 0 {
      OldestServed(w, size, k);
      var w' := Step1(w, GetOp(size));
      assert Again(size, n)[1..] == Again(size, n - 1);
      ServedInTurn(w', size, k, n - 1);
      TakeHead(w.held, w.pool.recycled[k], n);
    }
  }

  // ---------- the histogram and the size carved ----------

  /** The pool was enlarged at least once. */
  predicate HasChunk(ops: seq<Op>) {
    exists i :: 0 <= i < |ops| && ops[i].EnlargeOp? && 0 < ops[i].n
  }

  /** How many of the requests made of a pool with a chunk needed `k` steps. */
  function Requests(step: Step, maxSize: nat, ops: seq<Op>, k: nat): nat {
    if ops == [] then 0
    else
      var before, op := ops[..|ops| - 1], ops[|ops| - 1];
      Requests(step, maxSize, before, k)
        + if op.GetOp? && Needs(step, maxSize, op.size, k) && HasChunk(before) then 1 else 0
  }

  lemma GetCounts(p: Pool, size: int, k: nat)
    requires Inv(p) && 0 < |p.chunks| && k < |p.hist|
    ensures |Get(p, size).pool.hist| == |p.hist|
    ensures Get(p, size).pool.hist[k] == p.hist[k] + if Needs(p.step, p.maxSize, size, k) then 1 else 0
  {
    if 0 < size <= p.maxSize {
      NeedsMultiple(p, size, k);
      GetIs(p, size);
    }
  }

  lemma StepCounts(w: World, op: Op, k: nat)
    requires WorldOk(w) && k < |w.pool.hist|
    ensures var p, p' := w.pool, Step1(w, op).pool;
      && |p'.hist| == |p.hist| && (p'.chunks != [] <==> p.chunks != [] || (op.EnlargeOp? && 0 < op.n))
      && p'.hist[k] == p.hist[k] + if op.GetOp? && Needs(p.step, p.maxSize, op.size, k) && p.chunks != [] then 1 else 0
  {
    if op.GetOp? && w.pool.chunks != [] {
      GetCounts(w.pool, op.size, k);
      GetResults(w.pool, op.size);
    }
  }

  lemma HasChunkMore(ops: seq<Op>, op: Op)
    ensures HasChunk(ops + [op]) <==> HasChunk(ops) || (op.EnlargeOp? && 0 < op.n)
  {
    var more := ops + [op];
    assert more[|ops|] == op;
    if HasChunk(ops) {
      var i :| 0 <= i < |ops| && ops[i].EnlargeOp? && 0 < ops[i].n;
      assert more[i] == ops[i];
    }
  }

  /** In every reachable state the histogram counts the requests made. */
  lemma {:induction false} HistogramCounts(step: Step, maxSize: nat, ops: seq<Op>, k: nat)
    requires GoodRun(Create(step, maxSize), ops) && k <= Top(Create(step, maxSize))
    ensures var p := From(step, maxSize, ops).pool;
      && p.step == step && p.maxSize == maxSize && |p.hist| == Top(Create(step, maxSize)) + 1
      && p.hist[k] == Requests(step, maxSize, ops, k) && (p.chunks != [] <==> HasChunk(ops))
    decreases |ops|
  {
    var c := Create(step, maxSize);
    CreateOk(step, maxSize);
    if ops != [] {
      var before, op := ops[..|ops| - 1], ops[|ops| - 1];
      assert ops == before + [op] && LargeEnough(c, op);
      forall i | 0 <= i < |before| ensures LargeEnough(c, before[i]) { assert LargeEnough(c, ops[i]); }
      HistogramCounts(step, maxSize, before, k);
      RunSnoc(World(c, []), before, op);
      var w := From(step, maxSize, before);
      StepCounts(w, op, k);
      StepSafe(One, w, op);
      HasChunkMore(before, op);
    }
  }

  /** `n` blocks of `size` bytes, one after the other from offset `pos`. */
  function Pieces(c: nat, pos: nat, size: nat, n: nat): (bs: seq<Block>)
    ensures |bs| == n && forall j :: 0 <= j < n ==> bs[j] == Block(c, pos + j * size, size)
  {
    seq(n, j requires 0 <= j < n => Block(c, pos + j * size, size))
  }

  lemma PiecesCons(c: nat, pos: nat, size: nat, n: nat)
    ensures Pieces(c, pos, size, n + 1) == [Block(c, pos, size)] + Pieces(c, pos + size, size, n)
  {
    var all, rest := Pieces(c, pos, size, n + 1), Pieces(c, pos + size, size, n);
    forall j | 0 < j < n + 1 ensures all[j] == rest[j - 1] {
      assert j * size == size + (j - 1) * size;
    }
  }

  /** The pieces of a tail, and how much is left of it. */
  lemma {:induction false} CarveIs(c: nat, pos: nat, left: nat, size: nat) returns (n: nat)
    requires 0 < size
    ensures Carve(c, pos, left, size) == Pieces(c, pos, size, n)
    ensures left == n * size + Remainder(left, size)
    decreases left
  {
    if left > size {
      var more := CarveIs(c, pos + size, left - size, size);
      n := more + 1;
      PiecesCons(c, pos, size, more);
      assert n * size == more * size + size;
    } else {
      n := 0;
    }
  }

  /** The tail of `p`'s current chunk went to the lists: `n` blocks of `which` steps, and one for the rest. */
  ghost predicate CutInto(p: Pool, p': Pool, which: nat, n: nat, rest: nat)
    requires p.item < |p.chunks| && p.pos <= p.chunks[p.item] && which < |p.recycled|
  {
    var size := which * p.step;
    var rec := p.recycled[which := p.recycled[which] + Pieces(p.item, p.pos, size, n)];
    && p.chunks[p.item] - p.pos == n * size + rest && rest <= size && (rest == 0 ==> n == 0)
    && rest / p.step < |p.recycled|
    && p'.recycled == if rest == 0 then rec
                      else rec[rest / p.step := rec[rest / p.step] + [Block(p.item, p.chunks[p.item] - rest, rest)]]
  }

  lemma CarveTailCuts(p: Pool) returns (n: nat, rest: nat)
    requires Inv(p) && p.item + 1 < |p.chunks| && Requested(p)
    ensures CutInto(p, CarveTail(p), ArgMax(p.hist, |p.hist|), n, rest)
  {
    CarveSizes(p);
    var which, size, left := ArgMax(p.hist, |p.hist|), CarveSize(p), p.chunks[p.item] - p.pos;
    rest := Remainder(left, size);
    n := CarveIs(p.item, p.pos, left, size);
    CutTailIs(p, which, size, rest, rest / p.step);
  }

  lemma GetCuts(p: Pool, size: int) returns (which: nat, n: nat, rest: nat)
    requires Inv(p) && 0 < |p.chunks| && Get(p, size).pool.item != p.item
    ensures var p' := Get(p, size).pool;
      && 0 < |p'.hist| && which == ArgMax(p'.hist, |p'.hist|) < |p.recycled| && CutInto(p, p', which, n, rest)
  {
    GetIs(p, size);
    var q := Counted(p, Multiple(p, size));
    which := ArgMax(q.hist, |q.hist|);
    n, rest := CarveTailCuts(q);
  }

  lemma CountsAfter(step: Step, maxSize: nat, ops: seq<Op>, size: int, k: nat)
    requires GoodRun(Create(step, maxSize), ops) && k <= Top(Create(step, maxSize))
    requires From(step, maxSize, ops).pool.chunks != []
    ensures var h := Get(From(step, maxSize, ops).pool, size).pool.hist;
      |h| == Top(Create(step, maxSize)) + 1 && h[k] == Requests(step, maxSize, ops + [GetOp(size)], k)
  {
    CreateOk(step, maxSize);
    RunSnoc(World(Create(step, maxSize), []), ops, GetOp(size));
    HistogramCounts(step, maxSize, ops + [GetOp(size)], k);
  }

  /** A request that gives up the current chunk cuts its tail into blocks of a size that, counting this
  request, was asked for at least as often as any other. */
  lemma TailGoesToMostRequested(step: Step, maxSize: nat, ops: seq<Op>, size: int) returns (which: nat, n: nat, rest: nat)
    requires GoodRun(Create(step, maxSize), ops) && From(step, maxSize, ops).pool.chunks != []
    requires var p := From(step, maxSize, ops).pool; Get(p, size).pool.item != p.item
    ensures var p := From(step, maxSize, ops).pool;
      which < |p.recycled| && CutInto(p, Get(p, size).pool, which, n, rest)
    ensures var all := ops + [GetOp(size)];
      forall k :: 0 <= k <= Top(Create(step, maxSize)) ==>
        Requests(step, maxSize, all, k) <= Requests(step, maxSize, all, which)
  {
    which, n, rest := GetCuts(From(step, maxSize, ops).pool, size);
    CountsAfter(step, maxSize, ops, size, 0);
    CountsAfter(step, maxSize, ops, size, which);
    forall k | 0 <= k <= Top(Create(step, maxSize))
      ensures Requests(step, maxSize, ops + [GetOp(size)], k) <= Requests(step, maxSize, ops + [GetOp(size)], which)
    {
      CountsAfter(step, maxSize, ops, size, k);
    }
  }

  // ---------- the guard of EnlargeMemPool as written ----------

  /** memblock.cc:96-101: refuses, with -2, while any byte is unorganized. */
  function EnlargeAsWritten(p: Pool, n: int): (int, Pool) {
    if n <= 0 then (-1, p) else if p.unorganized > 0 then (-2, p) else Enlarge(p, n)
  }

  /** With the guard, the advice of the return-code table works exactly when the last tail is empty. */
  lemma RetryAsWrittenIff(p: Pool, size: int, n: int)
    requires Inv(p) && 0 < |p.chunks| && Get(p, size).code == -2
    requires 0 < n && LargeEnough(p, EnlargeOp(n))
    ensures Inv(EnlargeAsWritten(Get(p, size).pool, n).1)
    ensures Get(EnlargeAsWritten(Get(p, size).pool, n).1, size).code == 0 <==> p.pos == p.chunks[p.item]
  {
    GetResults(p, size);
    CountedKeepsInv(p, size);
    MultipleMonotone(p, size);
    WeighOne(p.item, p.pos, p.chunks[p.item]);
    if p.pos == p.chunks[p.item] { RetryAfterEnlarge(p, size, n); }
    else { CountedKeepsInv(Get(p, size).pool, size); }
  }

  /** A pool stuck by the guard: two steps of room, one taken, two more asked for. */
  lemma GuardSticks()
    ensures var p := Enlarge(Create(8, 16), 16).1;
      && Inv(p) && Inv(Get(p, 8).pool)
      && Get(Get(p, 8).pool, 16).code == -2
      && EnlargeAsWritten(Get(Get(p, 8).pool, 16).pool, 16).0 == -2
  {
    var c := Create(8, 16);
    CreateOk(8, 16);
    EnlargeConserves(One, c, 16);
    var p := Enlarge(c, 16).1;
    GetConserves(One, p, 8);
  }

  /** Two enlargements of a new pool by whole steps. */
  lemma TwoEnlargements(step: Step, maxSize: nat, n: nat) returns (p: Pool)
    requires 0 < n && n % step == 0
    ensures p == Enlarge(Enlarge(Create(step, maxSize), n).1, n).1 && Inv(p)
    ensures p.step == step && p.maxSize == maxSize && p.chunks == [n, n] && p.item == p.pos == 0
    ensures p.recycled == Create(step, maxSize).recycled && p.hist == Create(step, maxSize).hist
  {
    var c := Create(step, maxSize);
    CreateOk(step, maxSize);
    ExactMultiple(n, step);
    EnlargeConserves(One, c, n);
    var d := Enlarge(c, n).1;
    assert d.chunks == [n];
    EnlargeConserves(One, d, n);
    p := Enlarge(d, n).1;
  }

  lemma TwoSmallChunks() returns (p: Pool)
    ensures p == Enlarge(Enlarge(Create(8, 16), 8).1, 8).1 && Inv(p)
    ensures p.step == 8 && p.maxSize == 16 && p.chunks == [8, 8] && p.item == p.pos == 0
    ensures |p.recycled| == 3 && p.recycled[2] == []
  {
    p := TwoEnlargements(8, 16, 8);
  }

  /** Two chunks of one step serve a request for two steps with a block that does not fit its chunk:
  the size rule for chunks is needed on pools that calls alone lead to. */
  lemma FreshOutside()
    ensures var p := Enlarge(Enlarge(Create(8, 16), 8).1, 8).1;
      && Inv(p) && Get(p, 16).code == 0 && !Inside(p, Get(p, 16).block.value)
  {
    var p := TwoSmallChunks();
    SecondTooSmall(p);
  }

  lemma SecondTooSmall(p: Pool)
    requires Inv(p) && p.step == 8 && p.maxSize == 16 && p.chunks == [8, 8] && p.item == p.pos == 0
    requires |p.recycled| == 3 && p.recycled[2] == []
    ensures Get(p, 16).code == 0 && !Inside(p, Get(p, 16).block.value)
  {
    assert RoundUp(16, 8) == 16 && Multiple(p, 16) == 2;
    GetResults(p, 16);
    FreshInsideIff(p, 16);
  }

  // ---------- the filing of carved pieces as written ----------

  lemma FileNothing(ls: seq<seq<Block>>, k: nat)
    requires k < |ls|
    ensures File(ls, k, []) == ls
  {
    assert ls[k] + [] == ls[k];
  }

  /** A piece filed under another size than its own breaks the rule of the lists, whatever is filed after it. */
  lemma Misfiled(ls: seq<seq<Block>>, k: nat, pieces: seq<Block>, which: nat, own: nat, more: seq<Block>, step: Step)
    requires k < |ls| && own < |ls| && k != which && pieces != [] && pieces[0].len == which * step
    ensures !BySize(File(ls, k, pieces), step) && !BySize(File(File(ls, k, pieces), own, more), step)
  {
    var a := File(ls, k, pieces);
    var b := File(a, own, more);
    var i := |ls[k]|;
    assert a[k][i] == pieces[0] && b[k][i] == pieces[0];
    if k < which { MulMonotone(k + 1, which, step); } else { MulMonotone(which + 1, k, step); }
    assert !OfSteps(a[k][i], k, step);
    assert !OfSteps(b[k][i], k, step);
  }

  /** memblock.cc:180 files the pieces under the requested multiple. They are in the list of their
  size exactly when that is the most requested one, or when nothing is carved. */
  lemma MisfiledIff(p: Pool, multiple: nat)
    requires Inv(p) && p.item + 1 < |p.chunks| && Requested(p) && multiple < |p.recycled|
    ensures 0 < CarveSize(p) && Remainder(p.chunks[p.item] - p.pos, CarveSize(p)) / p.step < |p.recycled|
    ensures BySize(CutTail(p, multiple, CarveSize(p)).recycled, p.step)
       <==> multiple == ArgMax(p.hist, |p.hist|) || p.chunks[p.item] - p.pos <= CarveSize(p)
  {
    CarveSizes(p);
    var which, size, left := ArgMax(p.hist, |p.hist|), CarveSize(p), p.chunks[p.item] - p.pos;
    var rest := Remainder(left, size);
    var pieces := Carve(p.item, p.pos, left, size);
    CutTailIs(p, multiple, size, rest, rest / p.step);
    if multiple == which || left <= size {
      CutTailBySize(p, which, size);
      CutTailIs(p, which, size, rest, rest / p.step);
      if left <= size {
        FileNothing(p.recycled, multiple);
        FileNothing(p.recycled, which);
      }
    } else {
      Misfiled(p.recycled, multiple, pieces, which, rest / p.step,
               [Block(p.item, p.chunks[p.item] - rest, rest)], p.step);
    }
  }

  lemma TwoChunks() returns (p: Pool)
    ensures p == Enlarge(Enlarge(Create(8, 24), 24).1, 24).1 && Inv(p)
    ensures p.step == 8 && p.maxSize == 24 && p.chunks == [24, 24] && p.item == p.pos == 0
    ensures p.recycled == [[], [], [], []] && p.hist == [0, 0, 0, 0]
  {
    p := TwoEnlargements(8, 24, 24);
    assert RoundUp(24, 8) / 8 == 3;
  }

  /** After one request for a step, the request for three steps of the same pool carves a tail of two. */
  lemma MisfiledAt(p: Pool)
    requires Inv(p) && p.step == 8 && p.maxSize == 24 && p.chunks == [24, 24] && p.item == 0 && p.pos == 8
    requires |p.recycled| == 4 && p.hist == [0, 1, 0, 1]
    ensures MisfiledBy(p, 3)
  {
    assert ArgMax(p.hist, 2) == 1 && ArgMax(p.hist, 3) == 1 && ArgMax(p.hist, 4) == 1;
    assert p.hist[1] > 0;
    MisfiledIff(p, 3);
  }

  /** On two such chunks. */
  lemma MisfiledFrom(p0: Pool) returns (p: Pool, q: Pool)
    requires Inv(p0) && p0.step == 8 && p0.maxSize == 24 && p0.chunks == [24, 24] && p0.item == p0.pos == 0
    requires p0.recycled == [[], [], [], []] && p0.hist == [0, 0, 0, 0]
    ensures p == Get(p0, 8).pool && |p.hist| == |p.recycled| == 4 && q == Counted(p, 3)
    ensures MisfiledBy(q, 3)
  {
    p := FirstStepTaken(p0);
    q := ThirdCounted(p);
    MisfiledAt(q);
  }

  /** A counted request for `multiple` carves the tail and leaves a list with a block of another size. */
  ghost predicate MisfiledBy(q: Pool, multiple: nat) {
    && Inv(q) && q.item + 1 < |q.chunks| && q.chunks[q.item] - q.pos < multiple * q.step && multiple < |q.recycled|
    && 0 < CarveSize(q) && Remainder(q.chunks[q.item] - q.pos, CarveSize(q)) / q.step < |q.recycled|
    && !BySize(CutTail(q, multiple, CarveSize(q)).recycled, q.step)
  }

  /** A pool that calls lead to and on which the filing as written goes wrong: one block of the smallest
  size was requested, and a request for the largest one cuts a tail of two steps into such blocks. */
  lemma MisfiledOccurs() returns (p0: Pool, p: Pool, q: Pool)
    ensures p0 == Enlarge(Enlarge(Create(8, 24), 24).1, 24).1 && Inv(p0) && p0.chunks != []
    ensures p == Get(p0, 8).pool && |p.hist| == |p.recycled| == 4 && q == Counted(p, 3)
    ensures MisfiledBy(q, 3)
  {
    p0 := TwoChunks();
    p, q := MisfiledFrom(p0);
  }

  lemma FirstStepTaken(p0: Pool) returns (p: Pool)
    requires Inv(p0) && p0.step == 8 && p0.maxSize == 24 && p0.chunks == [24, 24] && p0.item == p0.pos == 0
    requires p0.recycled == [[], [], [], []] && p0.hist == [0, 0, 0, 0]
    ensures p == Get(p0, 8).pool && Inv(p)
    ensures p.step == 8 && p.maxSize == 24 && p.chunks == [24, 24] && p.item == 0 && p.pos == 8
    ensures |p.recycled| == |p.hist| == 4 && p.hist[0] == 0 && p.hist[1] == 1 && p.hist[2] == 0 && p.hist[3] == 0
  {
    GetConserves(One, p0, 8);
    p := StepTaken(p0);
  }

  lemma StepTaken(p0: Pool) returns (p: Pool)
    requires Inv(p0) && p0.step == 8 && p0.maxSize == 24 && p0.chunks == [24, 24] && p0.item == p0.pos == 0
    requires p0.recycled == [[], [], [], []] && p0.hist == [0, 0, 0, 0]
    ensures p == Get(p0, 8).pool && p.recycled == p0.recycled && p.hist == p0.hist[1 := 1]
    ensures p == p0.(hist := p.hist, pos := 8, unorganized := p.unorganized)
  {
    assert RoundUp(8, 8) == 8 && Multiple(p0, 8) == 1;
    p := Get(p0, 8).pool;
  }

  lemma ThirdCounted(p: Pool) returns (q: Pool)
    requires Inv(p) && p.step == 8 && p.maxSize == 24 && |p.recycled| == |p.hist| == 4
    requires p.hist[0] == 0 && p.hist[1] == 1 && p.hist[2] == 0 && p.hist[3] == 0
    ensures q == Counted(p, 3) && Inv(q) && q == p.(hist := q.hist) && q.hist == [0, 1, 0, 1]
  {
    assert RoundUp(24, 8) == 24 && Multiple(p, 24) == 3;
    CountedKeepsInv(p, 24);
    q := Counted(p, 3);
  }

  // ---------- the allocator object ----------

  lemma EnlargeOk(p: Pool, held: seq<Block>, n: int)
    requires WorldOk(World(p, held)) && LargeEnough(p, EnlargeOp(n))
    ensures WorldOk(World(Enlarge(p, n).1, held))
  {
    StepSafe(One, World(p, held), EnlargeOp(n));
  }

  /** A request in range, cut at the look into the recycle list. */
  lemma GetIs(p: Pool, size: nat)
    requires Inv(p) && 0 < |p.chunks| && 0 < size <= p.maxSize
    ensures Multiple(p, size) < |p.hist| && Inv(Counted(p, Multiple(p, size))) && Requested(Counted(p, Multiple(p, size)))
    ensures var m := Multiple(p, size);
      var p1 := Counted(p, m);
      Get(p, size) == if p1.recycled[m] == [] then FromChunks(p1, RoundUp(size, p.step))
                      else GetResult(0, Some(p1.recycled[m][0]), p1.(recycled := p1.recycled[m := p1.recycled[m][1..]]))
  {
    CountedKeepsInv(p, size);
  }

  class Allocator {
    const step: Step
    const maxSize: nat
    var chunks: seq<nat>
    var recycled: seq<seq<Block>>
    var hist: seq<nat>
    var item: nat
    var pos: nat
    var unorganized: int
    ghost var held: seq<Block>

    ghost function Model(): Pool
      reads this
    {
      Pool(step, maxSize, chunks, recycled, hist, item, pos, unorganized)
    }

    ghost predicate Valid()
      reads this
    {
      WorldOk(World(Model(), held))
    }

    constructor (step: Step, maxSize: nat)
      ensures Valid() && Model() == Create(step, maxSize) && held == []
    {
      this.step, this.maxSize := step, maxSize;
      var top := RoundUp(maxSize, step) / step;
      chunks, recycled, hist := [], seq(top + 1, _ => []), seq(top + 1, _ => 0);
      item, pos, unorganized, held := 0, 0, 0, [];
      CreateOk(step, maxSize);
    }

    /** The rounding of memblock.cc:85-88 and 128-132. */
    method Rounded(n: nat) returns (r: nat)
      ensures r == RoundUp(n, step)
    {
      r := n / step * step + step;
      if r == n + step { r := r - step; }
    }

    method EnlargeMemPool(n: int) returns (code: int)
      requires Valid() && LargeEnough(Model(), EnlargeOp(n))
      modifies this
      ensures Valid() && (code, Model()) == Enlarge(old(Model()), n) && held == old(held)
      ensures n <= 0 ==> code == -1 && Model() == old(Model())
      ensures 0 < n ==> code == 0 && |chunks| == |old(chunks)| + 1 && Model() == old(Model()).(chunks := chunks, unorganized := unorganized)
      ensures 0 < n ==> chunks[..|old(chunks)|] == old(chunks) && n <= chunks[|old(chunks)|] < n + step && chunks[|old(chunks)|] % step == 0
    {
      EnlargeOk(Model(), held, n);
      if n > 0 { RoundUpIsLeast(n, step, 0); }
      if n <= 0 { return -1; }
      var added := Rounded(n);
      chunks := chunks + [added];
      unorganized := unorganized + added;
      return 0;
    }

    /** The most-requested multiple (memblock.cc:157-164). */
    method MostRequested() returns (which: nat)
      requires 0 < |hist|
      ensures which == ArgMax(hist, |hist|)
    {
      which := 0;
      var i := 1;
      while i < |hist|
        invariant 1 <= i <= |hist| && which == ArgMax(hist, i)
      {
        if hist[which] < hist[i] { which := i; }
        i := i + 1;
      }
    }

    /** Cuts `size`-byte blocks while more than one block is left. */
    method CutPieces(size: nat) returns (pieces: seq<Block>, left: nat)
      requires item < |chunks| && pos <= chunks[item] && 0 < size
      modifies this`pos, this`unorganized
      ensures pieces == Carve(item, old(pos), chunks[item] - old(pos), size)
      ensures left == Remainder(chunks[item] - old(pos), size) && pos == chunks[item] - left
      ensures unorganized == old(unorganized) - (pos - old(pos))
    {
      left, pieces := chunks[item] - pos, [];
      ghost var all, rest := Carve(item, pos, left, size), Remainder(left, size);
      while left > size
        invariant pos + left == chunks[item] && old(pos) <= pos
        invariant Remainder(left, size) == rest && pieces + Carve(item, pos, left, size) == all
        invariant unorganized == old(unorganized) - (pos - old(pos))
      {
        CarveOne(pieces, item, pos, left, size);
        left := left - size;
        pieces := pieces + [Block(item, pos, size)];
        pos := pos + size;
        unorganized := unorganized - size;
      }
      assert pieces + [] == pieces;
    }

    /** Appends blocks to recycle list `k`. */
    method PushBack(k: nat, bs: seq<Block>)
      requires k < |recycled|
      modifies this`recycled
      ensures recycled == File(old(recycled), k, bs)
    {
      recycled := recycled[k := recycled[k] + bs];
    }

    /** The remainder of a tail goes to the list of its own size. */
    method FileRest(left: nat, own: nat)
      requires own < |recycled|
      modifies this`recycled, this`pos, this`unorganized
      ensures recycled == if left == 0 then old(recycled) else File(old(recycled), own, [Block(item, old(pos), left)])
      ensures pos == old(pos) + left && unorganized == old(unorganized) - left
    {
      if left != 0 {
        PushBack(own, [Block(item, pos, left)]);
        pos := pos + left;
        unorganized := unorganized - left;
      }
    }

    method InSteps(n: nat) returns (k: nat)
      ensures k == n / step
    {
      k := n / step;
    }

    /** Files the pieces and the remainder of a tail, and goes to the next chunk. */
    method FileAll(which: nat, pieces: seq<Block>, left: nat, own: nat)
      requires which < |recycled| && own < |recycled|
      modifies this`recycled, this`item, this`pos, this`unorganized
      ensures var rec := File(old(recycled), which, pieces);
        recycled == if left == 0 then rec else File(rec, own, [Block(old(item), old(pos), left)])
      ensures item == old(item) + 1 && pos == 0 && unorganized == old(unorganized) - left
    {
      PushBack(which, pieces);
      FileRest(left, own);
      item := item + 1;
      pos := 0;
    }

    /** Hands the tail of the current chunk to the recycle lists and moves to the next chunk. */
    method CutRest(which: nat, size: nat)
      requires item < |chunks| && pos <= chunks[item] && 0 < size && which < |recycled|
      requires Remainder(chunks[item] - pos, size) / step < |recycled|
      modifies this
      ensures Model() == CutTail(old(Model()), which, size) && held == old(held)
    {
      ghost var p := Model();
      var pieces, left := CutPieces(size);
      var own := InSteps(left);
      CutTailIs(p, which, size, left, own);
      FileAll(which, pieces, left, own);
    }

    /** The rest of the current chunk is organized, and the next one becomes current. */
    method NextChunk()
      requires Inv(Model()) && item + 1 < |chunks| && Requested(Model())
      modifies this
      ensures Model() == CarveTail(old(Model())) && held == old(held)
    {
      CarveSizes(Model());
      var which := MostRequested();
      CutRest(which, which * step);
    }

    method TakeFromChunks(need: nat) returns (code: int, mb: Option<Block>)
      requires Inv(Model()) && 0 < |chunks| && Requested(Model())
      modifies this
      ensures GetResult(code, mb, Model()) == FromChunks(old(Model()), need) && held == old(held)
    {
      var left := chunks[item] - pos;
      if left < need {
        if item == |chunks| - 1 { return -2, None; }
        NextChunk();
      }
      mb := Some(Block(item, pos, need));
      pos := pos + need;
      unorganized := unorganized - need;
      return 0, mb;
    }

    method TakeBlock(size: nat) returns (code: int, mb: Option<Block>)
      requires Inv(Model()) && 0 < |chunks| && 0 < size <= maxSize
      modifies this
      ensures GetResult(code, mb, Model()) == Get(old(Model()), size) && held == old(held)
    {
      GetIs(Model(), size);
      var need := Rounded(size);
      var multiple := need / step;
      hist := hist[multiple := hist[multiple] + 1];
      if |recycled[multiple]| == 0 {
        code, mb := TakeFromChunks(need);
      } else {
        code, mb := 0, Some(recycled[multiple][0]);
        recycled := recycled[multiple := recycled[multiple][1..]];
      }
    }

    method GetMemBlock(size: int) returns (code: int, mb: Option<Block>)
      requires Valid() && 0 < |chunks|
      modifies this
      ensures GetResult(code, mb, Model()) == Get(old(Model()), size)
      ensures code in {0, -1, -2} && (code == -1 <==> size <= 0 || size > maxSize) && (code == 0 <==> mb.Some?)
      ensures held == if mb.Some? then old(held) + [mb.value] else old(held)
      ensures Valid()
    {
      ghost var w := World(Model(), held);
      GetSafe(One, w, size);
      GetResults(Model(), size);
      if size <= 0 || size > maxSize { return -1, None; }
      code, mb := TakeBlock(size);
      if mb.Some? { held := held + [mb.value]; }
      assert World(Model(), held) == Step1(w, GetOp(size));
    }

    method ReturnMemBlock(mb: Block, ghost i: nat) returns (code: int)
      requires Valid() && i < |held| && held[i] == mb
      modifies this
      ensures Valid() && Model() == Return(old(Model()), mb) && code == 0
      ensures Model() == old(Model()).(recycled := old(recycled)[mb.len / step := old(recycled)[mb.len / step] + [mb]])
      ensures held == old(held)[..i] + old(held)[i + 1..]
    {
      StepSafe(One, World(Model(), held), ReturnOp(i));
      ExactMultiple(mb.len, step);
      var multiple := mb.len / step;
      recycled := recycled[multiple := recycled[multiple] + [mb]];
      held := held[..i] + held[i + 1..];
      return 0;
    }
  }
}
