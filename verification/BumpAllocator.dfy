/** The heap of an Arch program (arch/program/src/entrypoint.rs): memory is handed
    out from the top of the heap downwards and never given back; where the last
    block begins is kept in a word at the bottom. */
module BumpAllocation {
  import opened Wrappers

  /** The size of the position word. */
  const WORD: nat := 8

  // ---------------------------------------------------------------------------
  // Rounding down with a mask
  // ---------------------------------------------------------------------------

  function Pow2(k: nat): (p: nat)
    ensures p > 0
  {
    if k == 0 then 1 else 2 * Pow2(k - 1)
  }

  /** Bitwise and of two n-bit words. */
  function And(a: nat, b: nat, n: nat): nat {
    if n == 0 then 0 else (a % 2) * (b % 2) + 2 * And(a / 2, b / 2, n - 1)
  }

  /** Bitwise complement of an n-bit word. */
  function Not(a: nat, n: nat): int {
    Pow2(n) - 1 - a
  }

  lemma {:induction false} Pow2Splits(k: nat, n: nat)
    requires k <= n
    ensures exists m: nat :: Pow2(n) == m * Pow2(k)
  {
    if k == n {
      assert Pow2(n) == 1 * Pow2(k);
    } else {
      Pow2Splits(k, n - 1);
      var m: nat :| Pow2(n - 1) == m * Pow2(k);
      assert Pow2(n) == (2 * m) * Pow2(k);
    }
  }

  lemma {:induction false} AndOnes(a: nat, n: nat)
    requires a < Pow2(n)
    ensures And(a, Pow2(n) - 1, n) == a
  {
    if n > 0 {
      AndOnes(a / 2, n - 1);
      assert (Pow2(n) - 1) / 2 == Pow2(n - 1) - 1 && (Pow2(n) - 1) % 2 == 1;
    }
  }

  lemma HalfRemainder(a: nat, m: nat)
    requires m > 0
    ensures a % (2 * m) == 2 * (a / 2 % m) + a % 2
  {
    var q, r := a / 2 / m, a / 2 % m;
    Divided(a / 2, m);
    Distribute(q, q, m);
    assert q * (2 * m) == (q + q) * m;
    RemainderIs(a, 2 * m, q, 2 * r + a % 2);
  }

  lemma Distribute(a: int, b: int, m: int)
    ensures (a + b) * m == a * m + b * m
  {
  }

  lemma AtLeastOnce(x: int, m: nat)
    requires x >= 1
    ensures x * m >= m
  {
    Distribute(x - 1, 1, m);
    NotNegative(x - 1, m);
  }

  lemma NotNegative(x: nat, m: nat)
    ensures x * m >= 0
  {
  }

  lemma Divided(a: int, m: int)
    requires m > 0
    ensures a == a / m * m + a % m && 0 <= a % m < m
  {
  }

  lemma RemainderIs(a: int, m: int, q: int, r: int)
    requires m > 0 && a == q * m + r && 0 <= r < m
    ensures a % m == r
  {
    Divided(a, m);
    var q' := a / m;
    Distribute(q - q', q', m);
    Distribute(q' - q, q, m);
    if q > q' {
      AtLeastOnce(q - q', m);
    } else if q < q' {
      AtLeastOnce(q' - q, m);
    }
  }

  /** Masking with the complement of 2^k - 1 rounds down to a multiple of 2^k. */
  lemma {:induction false} MaskRoundsDown(a: nat, k: nat, n: nat)
    requires a < Pow2(n) && k <= n
    ensures 0 <= Not(Pow2(k) - 1, n)
    ensures And(a, Not(Pow2(k) - 1, n), n) == a - a % Pow2(k)
    decreases k
  {
    Pow2Splits(k, n);
    var m: nat :| Pow2(n) == m * Pow2(k);
    assert m >= 1;
    assert m * Pow2(k) >= Pow2(k);
    if k == 0 {
      AndOnes(a, n);
    } else {
      MaskRoundsDown(a / 2, k - 1, n - 1);
      var mask := Not(Pow2(k) - 1, n);
      assert mask == 2 * Not(Pow2(k - 1) - 1, n - 1);
      assert mask % 2 == 0 && mask / 2 == Not(Pow2(k - 1) - 1, n - 1);
      HalfRemainder(a, Pow2(k - 1));
    }
  }

  // ---------------------------------------------------------------------------
  // One request
  // ---------------------------------------------------------------------------

  /** A request for `size` bytes at a multiple of 2^log. */
  datatype Request = Request(size: nat, log: nat)

  /** A heap of `len` bytes from `start` on, with addresses of `bits` bits. */
  datatype Region = Region(start: nat, len: nat, bits: nat) {
    predicate Fits() {
      start + len < Pow2(bits)
    }
  }

  lemma RoundedDown(a: nat, log: nat)
    ensures 0 <= a - a % Pow2(log) <= a && (a - a % Pow2(log)) % Pow2(log) == 0
  {
    RoundedDownTo(a, Pow2(log));
  }

  lemma RoundedDownTo(a: nat, m: nat)
    requires m > 0
    ensures 0 <= a - a % m <= a && (a - a % m) % m == 0
  {
    Divided(a, m);
    var q := a / m;
    assert q >= 0;
    NotNegative(q, m);
    RemainderIs(a - a % m, m, q, 0);
  }

  /** Where a block for this request would begin: below the last one, aligned. */
  function Place(h: Region, pos: nat, q: Request): nat {
    var top := if pos == 0 then h.start + h.len else pos;
    var p := if q.size > top then 0 else top - q.size;
    RoundedDown(p, q.log);
    p - p % Pow2(q.log)
  }

  function Allocate(h: Region, pos: nat, q: Request): Option<nat> {
    var p := Place(h, pos, q);
    if p < h.start + WORD then None else Some(p)
  }

  class BumpAllocator {
    const heap: Region
    /** The word at the bottom of the heap; 0 before the first block. */
    var pos: nat

    constructor (heap: Region)
      requires heap.Fits()
      ensures this.heap == heap && pos == 0
    {
      this.heap := heap;
      pos := 0;
    }

    /** The address of a new block, or null. */
    method Alloc(size: nat, log: nat) returns (p: nat)
      requires heap.Fits() && pos < Pow2(heap.bits) && log <= heap.bits
      modifies this
      ensures pos < Pow2(heap.bits)
      ensures match Allocate(heap, old(pos), Request(size, log))
              case Some(at) => p == at && p != 0 && pos == at
              case None => p == 0 && pos == old(pos)
    {
      p := pos;
      if p == 0 {
        p := heap.start + heap.len;
      }
      p := if size > p then 0 else p - size;
      MaskRoundsDown(p, log, heap.bits);
      p := And(p, Not(Pow2(log) - 1, heap.bits), heap.bits);
      if p < heap.start + WORD {
        return 0;
      }
      pos := p;
    }
  }

  // ---------------------------------------------------------------------------
  // Any sequence of requests
  // ---------------------------------------------------------------------------

  datatype Block = Block(at: nat, request: Request)
  datatype Heap = Heap(pos: nat, blocks: seq<Block>)

  /** The position and the blocks handed out, after these requests to a zeroed heap. */
  function After(h: Region, qs: seq<Request>): Heap {
    if qs == [] then Heap(0, []) else
    var before, q := After(h, qs[..|qs| - 1]), qs[|qs| - 1];
    match Allocate(h, before.pos, q)
    case None => before
    case Some(p) => Heap(p, before.blocks + [Block(p, q)])
  }

  predicate Aligned(b: Block) {
    b.at % Pow2(b.request.log) == 0
  }

  /** Inside the heap, and above the position word. */
  predicate Inside(h: Region, b: Block) {
    h.start + WORD <= b.at && b.at + b.request.size <= h.start + h.len
  }

  predicate Disjoint(a: Block, b: Block) {
    a.at + a.request.size <= b.at || b.at + b.request.size <= a.at
  }

  /** A new block lies between the position word and everything handed out before. */
  lemma PlacedBelow(h: Region, pos: nat, q: Request)
    requires Allocate(h, pos, q).Some?
    ensures var p := Allocate(h, pos, q).value;
            h.start + WORD <= p && p + q.size <= (if pos == 0 then h.start + h.len else pos) && p % Pow2(q.log) == 0
  {
    var top := if pos == 0 then h.start + h.len else pos;
    RoundedDown(if q.size > top then 0 else top - q.size, q.log);
  }

  /** Every block reaches from the position or above to the top of the heap or below. */
  lemma {:induction false} BlocksAbove(h: Region, qs: seq<Request>)
    ensures var x := After(h, qs);
            && (x.pos == 0 ==> x.blocks == [])
            && (x.pos != 0 ==> h.start + WORD <= x.pos <= h.start + h.len)
            && forall b | b in x.blocks :: x.pos <= b.at && Inside(h, b) && Aligned(b)
  {
    if qs != [] {
      var before, q := After(h, qs[..|qs| - 1]), qs[|qs| - 1];
      BlocksAbove(h, qs[..|qs| - 1]);
      if Allocate(h, before.pos, q).Some? {
        PlacedBelow(h, before.pos, q);
      }
    }
  }

  /** Whatever is requested: blocks are aligned, inside the heap, apart from the
      position word, and pairwise disjoint; and a failed request changes nothing. */
  lemma {:induction false} AllBlocksGood(h: Region, qs: seq<Request>)
    ensures var blocks := After(h, qs).blocks;
            && (forall b | b in blocks :: Aligned(b) && Inside(h, b))
            && forall i, j | 0 <= i < j < |blocks| :: Disjoint(blocks[i], blocks[j])
    ensures qs != [] && Allocate(h, After(h, qs[..|qs| - 1]).pos, qs[|qs| - 1]).None?
        ==> After(h, qs) == After(h, qs[..|qs| - 1])
  {
    BlocksAbove(h, qs);
    if qs != [] {
      var before, q := After(h, qs[..|qs| - 1]), qs[|qs| - 1];
      AllBlocksGood(h, qs[..|qs| - 1]);
      BlocksAbove(h, qs[..|qs| - 1]);
      if Allocate(h, before.pos, q).Some? {
        PlacedBelow(h, before.pos, q);
      }
    }
  }

  /** A request is refused only when the heap below the last block is too small
      for it even without padding, or padding takes up the rest. */
  lemma RefusedIff(h: Region, pos: nat, q: Request)
    ensures var top := if pos == 0 then h.start + h.len else pos;
            Allocate(h, pos, q).None?
            <==> forall p: nat | h.start + WORD <= p && p + q.size <= top :: p % Pow2(q.log) != 0
  {
    var top := if pos == 0 then h.start + h.len else pos;
    var m := Pow2(q.log);
    if Allocate(h, pos, q).Some? {
      PlacedBelow(h, pos, q);
      var p := Allocate(h, pos, q).value;
      assert h.start + WORD <= p && p + q.size <= top && p % m == 0;
    } else {
      forall p: nat | h.start + WORD <= p && p + q.size <= top ensures p % m != 0 {
        if p % m == 0 {
          LargestMultiple(top - q.size, p, m);
        }
      }
    }
  }

  /** The block that is handed out is the highest aligned one that fits below the last
      block, and above the position word. */
  lemma HighestFits(h: Region, pos: nat, q: Request, p: nat)
    requires Allocate(h, pos, q).Some?
    requires p + q.size <= (if pos == 0 then h.start + h.len else pos) && p % Pow2(q.log) == 0
    ensures p <= Allocate(h, pos, q).value
  {
    LargestMultiple((if pos == 0 then h.start + h.len else pos) - q.size, p, Pow2(q.log));
  }

  lemma LargestMultiple(a: nat, p: nat, m: nat)
    requires m > 0 && p <= a && p % m == 0
    ensures p <= a - a % m
  {
    var q, q' := a / m, p / m;
    Divided(a, m);
    Divided(p, m);
    if q' > q {
      Distribute(q' - q, q, m);
      AtLeastOnce(q' - q, m);
    } else {
      Distribute(q - q', q', m);
      NotNegative(q - q', m);
    }
  }
}
