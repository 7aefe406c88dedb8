// The partitioners, in 32 bits.
module Partitioners {
  // base_partitioner, simple_partitioner and atomic_partitioner: every sum, product and quotient below is
  // checked to stay within int32.

  import Counting

  newtype int32 = x: int | -0x8000_0000 <= x <= 0x7fff_ffff

  const INT32_MAX: int := 0x7fff_ffff

  predicate Fits(x: int) {
    -0x8000_0000 <= x <= INT32_MAX
  }

  /** Integer division as the source's language does it: towards zero. */
  function Quotient(a: int, b: int): int
    requires b != 0
  {
    if (a < 0) == (b < 0) then Abs(a) / Abs(b) else -(Abs(a) / Abs(b))
  }

  /** The remainder that goes with it: it has the sign of the dividend. */
  function Remainder(a: int, b: int): int
    requires b != 0
  {
    if a < 0 then -(Abs(a) % Abs(b)) else Abs(a) % Abs(b)
  }

  function Abs(x: int): nat {
    if x < 0 then -x else x
  }

  // ------------------------------------------------------------------ base_partitioner

  datatype Base = Base(firstIndex: int32, lastIndex: int32, elementCount: int32, batchCount: int32)

  /** The difference of the bounds has to fit, as in the source. */
  function MakeBase(firstIndex: int32, lastIndex: int32, maxBatches: int32): (b: Base)
    requires Fits(lastIndex as int - firstIndex as int)
    ensures b.firstIndex == firstIndex && b.lastIndex == lastIndex
    ensures b.firstIndex as int + b.elementCount as int == b.lastIndex as int
    ensures b.batchCount <= b.elementCount && b.batchCount <= maxBatches
    ensures b.batchCount == b.elementCount || b.batchCount == maxBatches
    ensures b.elementCount > 0 && maxBatches > 0 ==> b.batchCount > 0
  {
    var elementCount := (lastIndex as int - firstIndex as int) as int32;
    Base(firstIndex, lastIndex, elementCount, if elementCount < maxBatches then elementCount else maxBatches)
  }

  // ------------------------------------------------------------------ simple_partitioner

  class SimplePartitioner {
    const base: Base
    const nbElementsPerBatch: int32
    const remainder: int32
    var batchIndex: int32

    constructor (firstIndex: int32, lastIndex: int32, maxBatches: int32)
      requires Fits(lastIndex as int - firstIndex as int)
      requires maxBatches == 0 ==> lastIndex < firstIndex
      ensures base == MakeBase(firstIndex, lastIndex, maxBatches)
      ensures batchIndex == 0
      ensures firstIndex < lastIndex && maxBatches >= 1 ==> Divides()
      ensures base.elementCount < maxBatches ==> nbElementsPerBatch == 1 && remainder == 0
      ensures base.elementCount >= maxBatches ==>
                && nbElementsPerBatch as int * base.batchCount as int + remainder as int == base.elementCount as int
                && Abs(remainder as int) < Abs(base.batchCount as int)
                && (remainder == 0 || (remainder < 0 <==> base.elementCount < 0))
    {
      var b := MakeBase(firstIndex, lastIndex, maxBatches);
      base := b;
      if b.elementCount >= maxBatches {
        QuotientFits(b.elementCount, b.batchCount);
        TruncatedDivision(b.elementCount as int, b.batchCount as int);
        nbElementsPerBatch := Quotient(b.elementCount as int, b.batchCount as int) as int32;
        remainder := Remainder(b.elementCount as int, b.batchCount as int) as int32;
      } else {
        nbElementsPerBatch := 1;
        remainder := 0;
      }
      batchIndex := 0;
    }

    /** The batch count divides the elements: so many each, and one more for the first few. */
    predicate Divides() {
      && base.firstIndex as int + base.elementCount as int == base.lastIndex as int
      && base.batchCount >= 1 && nbElementsPerBatch >= 1 && 0 <= remainder < base.batchCount
      && base.batchCount as int * nbElementsPerBatch as int + remainder as int == base.elementCount as int
    }

    /** Where batch `n` begins and batch `n - 1` ends, in unbounded arithmetic: `n` shares of
        nbElementsPerBatch, the first `remainder` of them one larger. */
    function FirstOf(n: int): int {
      base.firstIndex as int + n * nbElementsPerBatch as int + (if n < remainder as int then n else remainder as int)
    }

    /** The index arithmetic of a batch stays within 32 bits: it always does until the counter has wrapped to
        a negative number; from then on an overflow, which the source's language leaves undefined, is possible. */
    predicate InBounds(batch: int) {
      batch < 0 ==>
        && Fits((batch + 1) * nbElementsPerBatch as int)
        && Fits(base.firstIndex as int + (batch + 1) * nbElementsPerBatch as int) && Fits(FirstOf(batch + 1))
    }

    /** No intermediate value of the index arithmetic overflows, unless the batch is negative; then the sum is
        taken to wrap around. */
    function LastIndexOfBatch(batch: int32): (last: int32)
      requires Divides() && batch < base.batchCount
      ensures last as int == Wrapped(FirstOf(batch as int + 1))
      ensures InBounds(batch as int) ==> last as int == FirstOf(batch as int + 1)
      ensures batch >= 0 ==> base.firstIndex < last <= base.lastIndex
      ensures batch < 0 && InBounds(batch as int) ==> last <= base.firstIndex
    {
      WrappedFits(FirstOf(batch as int + 1));
      if InBounds(batch as int) then
        Cut(this, batch as int + 1);
        var offset := if batch < remainder then batch + 1 else remainder;
        base.firstIndex + (batch + 1) * nbElementsPerBatch + offset
      else
        Wrapped(FirstOf(batch as int + 1)) as int32
    }

    function FirstIndexOfBatch(batch: int32): (first: int32)
      requires Divides() && batch < base.batchCount
      ensures first as int == if batch < 0 then base.firstIndex as int else FirstOf(batch as int)
    {
      if batch > 0 then LastIndexOfBatch(batch - 1) else base.firstIndex
    }

    /** One call. The atomic post-increment wraps after 2^31 calls; from then on every call returns true with a range
        that begins at the first index and ends somewhere, at or before its beginning if nothing overflows, until
        the counter comes to 0 and the batches are handed out anew. */
    method GetNextValidRange() returns (ok: bool, fromIndex: int32, toIndex: int32)
      requires Divides()
      modifies this`batchIndex
      ensures batchIndex as int == Wrapped(old(batchIndex) as int + 1)
      ensures ok <==> old(batchIndex) < base.batchCount
      ensures ok && old(batchIndex) >= 0 ==>
                fromIndex as int == FirstOf(old(batchIndex) as int) &&
                    toIndex as int == FirstOf(old(batchIndex) as int + 1)
      ensures ok ==> toIndex as int == Wrapped(FirstOf(old(batchIndex) as int + 1))
      ensures old(batchIndex) < 0 ==>
                fromIndex == base.firstIndex && (InBounds(old(batchIndex) as int) ==> toIndex <= fromIndex)
    {
      hide Wrapped;
      var batch := batchIndex;
      WrappedNext(batch);
      batchIndex := if batch as int == INT32_MAX then -0x8000_0000 else batch + 1;
      fromIndex, toIndex := 0, 0;
      if batch >= base.batchCount {
        return false, fromIndex, toIndex;
      }
      fromIndex := FirstIndexOfBatch(batch);
      toIndex := LastIndexOfBatch(batch);
      ok := true;
    }
  }

  /** The value of a 32-bit counter that has been incremented to `n`. */
  function Wrapped(n: int): int {
    (n + 0x8000_0000) % 0x1_0000_0000 - 0x8000_0000
  }

  /** Call `n`, counting from 0, is for batch `b` exactly when n is b modulo 2^32: each batch is handed out once in
      every 2^32 calls, by the first half of them. */
  lemma HandedOutOnce(n: nat, b: nat)
    requires b <= INT32_MAX
    ensures Wrapped(n) == b <==> n % 0x1_0000_0000 == b
    ensures Wrapped(n) < 0 <==> n % 0x1_0000_0000 > INT32_MAX
    ensures Wrapped(Wrapped(n) + 1) == Wrapped(n + 1)
  {
    var r := n % 0x1_0000_0000;
    if r < 0x8000_0000 {
      WrappedIs(n, n / 0x1_0000_0000, r);
    } else {
      WrappedIs(n, n / 0x1_0000_0000 + 1, r - 0x1_0000_0000);
    }
    WrapsOn(n);
  }

  lemma WrappedFits(n: int)
    ensures Fits(Wrapped(n)) && (Fits(n) ==> Wrapped(n) == n)
  {
    if Fits(n) {
      WrappedIs(n, 0, n);
    }
  }

  /** With more than 2^30 batches the first call after the wrap overflows, and where the sum wraps around it
      hands out the first two indices once more. */
  lemma FirstBadCall(p: SimplePartitioner)
    requires p.Divides() && p.base.batchCount as int > 0x4000_0000
    ensures Wrapped(0x8000_0000) == -0x8000_0000 && !p.InBounds(-0x8000_0000)
    ensures Wrapped(p.FirstOf(-0x8000_0000 + 1)) == p.base.firstIndex as int + 2
  {
    var n := -0x8000_0000 + 1;
    if p.nbElementsPerBatch >= 2 {
      ProductGrows(2, p.nbElementsPerBatch as int, p.base.batchCount as int);
    }
    assert p.nbElementsPerBatch == 1;
    assert n * p.nbElementsPerBatch as int == n;
    WrappedIs(p.FirstOf(n), -1, p.base.firstIndex as int + 2);
    WrappedIs(0x8000_0000, 1, -0x8000_0000);
  }

  lemma WrappedIs(n: int, turns: int, r: int)
    requires n == turns * 0x1_0000_0000 + r && -0x8000_0000 <= r < 0x8000_0000
    ensures Wrapped(n) == r
  {
  }

  lemma WrappedNext(batch: int32)
    ensures Wrapped(batch as int + 1) == if batch as int == INT32_MAX then -0x8000_0000 else batch as int + 1
  {
    if batch as int == INT32_MAX {
      WrappedIs(batch as int + 1, 1, -0x8000_0000);
    } else {
      WrappedIs(batch as int + 1, 0, batch as int + 1);
    }
  }

  lemma WrapsOn(n: nat)
    ensures Wrapped(Wrapped(n) + 1) == Wrapped(n + 1)
  {
  }

  lemma QuotientBounds(x: nat, y: nat, q: int, r: int)
    requires y > 0 && x == q * y + r && 0 <= r < y
    ensures 0 <= q <= x && (x >= y ==> q >= 1) && (y > 1 && x > 0 ==> q < x)
  {
    assert q < 0 ==> q * y <= -1 * y;
    assert q > 0 ==> q * y >= q && (y > 1 ==> q * y >= q * 2);
  }

  lemma NaturalDivision(x: nat, y: nat)
    requires y > 0
    ensures x == (x / y) * y + x % y && 0 <= x % y < y
    ensures 0 <= x / y <= x && (x >= y ==> x / y >= 1) && (y > 1 && x > 0 ==> x / y < x)
  {
    QuotientBounds(x, y, x / y, x % y);
  }

  /** Together they are the division of the source's language: the quotient is rounded towards zero, and the remainder
      has the sign of the dividend. */
  lemma TruncatedDivision(a: int, b: int)
    requires b != 0
    ensures Quotient(a, b) * b + Remainder(a, b) == a && Abs(Remainder(a, b)) < Abs(b)
    ensures Remainder(a, b) == 0 || (Remainder(a, b) < 0 <==> a < 0)
  {
    NaturalDivision(Abs(a), Abs(b));
    Signs(Abs(a) / Abs(b), Abs(b));
  }

  lemma Signs(q: int, b: int)
    ensures (-q) * b == -(q * b) && q * (-b) == -(q * b) && (-q) * (-b) == q * b
  {
  }

  lemma QuotientFits(a: int32, b: int32)
    requires b != 0 && !(a as int == -0x8000_0000 && b == -1)
    ensures Fits(Quotient(a as int, b as int)) && Fits(Remainder(a as int, b as int))
    ensures b > 0 && a >= b ==> Quotient(a as int, b as int) >= 1 && 0 <= Remainder(a as int, b as int) < b as int
    ensures b > 0 && a >= b ==> b as int * Quotient(a as int, b as int) + Remainder(a as int, b as int) == a as int
  {
    NaturalDivision(Abs(a as int), Abs(b as int));
  }

  lemma Distribute(a: int, b: int, c: int)
    ensures (a + b) * c == a * c + b * c
  {
  }

  lemma {:induction false} ProductGrows(a: nat, b: nat, c: nat)
    requires a <= b
    ensures a * c <= b * c
  {
    Distribute(a, b - a, c);
  }

  lemma CutInRange(p: SimplePartitioner, n: int)
    requires p.Divides() && 0 <= n <= p.base.batchCount as int
    ensures 0 <= n * p.nbElementsPerBatch as int <= p.base.elementCount as int
    ensures p.base.firstIndex as int <= p.FirstOf(n) <= p.base.lastIndex as int
    ensures n > 0 ==> p.base.firstIndex as int < p.FirstOf(n)
  {
    ProductGrows(n, p.base.batchCount as int, p.nbElementsPerBatch as int);
    if n > 0 {
      ProductGrows(1, n, p.nbElementsPerBatch as int);
    }
  }

  lemma Cut(p: SimplePartitioner, n: int)
    requires p.Divides() && n <= p.base.batchCount as int && p.InBounds(n - 1)
    ensures Fits(n * p.nbElementsPerBatch as int) && Fits(p.base.firstIndex as int + n * p.nbElementsPerBatch as int)
    ensures Fits(p.FirstOf(n))
    ensures n > 0 ==> p.base.firstIndex as int < p.FirstOf(n) <= p.base.lastIndex as int
    ensures n <= 0 ==> p.FirstOf(n) <= p.base.firstIndex as int
  {
    if n >= 0 {
      CutInRange(p, n);
    } else {
      ProductGrows(0, -n, p.nbElementsPerBatch as int);
      Distribute(n, -n, p.nbElementsPerBatch as int);
    }
  }

  /** The batches tile [firstIndex, lastIndex): adjacent, none empty, sizes differ by at most one,
      the larger ones first. */
  lemma BatchesTile(p: SimplePartitioner, n: int)
    requires p.Divides() && 0 <= n < p.base.batchCount as int
    ensures p.FirstOf(0) == p.base.firstIndex as int
    ensures p.FirstOf(p.base.batchCount as int) == p.base.lastIndex as int
    ensures var size := p.FirstOf(n + 1) - p.FirstOf(n);
            size == p.nbElementsPerBatch as int + (if n < p.remainder as int then 1 else 0) && size >= 1
  {
    Distribute(n, 1, p.nbElementsPerBatch as int);
  }

  /** Every index of the range lies in exactly one batch. */
  lemma IndexInOneBatch(p: SimplePartitioner, x: int) returns (n: int)
    requires p.Divides() && p.base.firstIndex as int <= x < p.base.lastIndex as int
    ensures 0 <= n < p.base.batchCount as int && p.FirstOf(n) <= x < p.FirstOf(n + 1)
    ensures forall m :: 0 <= m < p.base.batchCount as int && p.FirstOf(m) <= x < p.FirstOf(m + 1) ==> m == n
  {
    BatchesTile(p, 0);
    n := FindBatch(p, x, p.base.batchCount as int);
    forall m | 0 <= m < p.base.batchCount as int && p.FirstOf(m) <= x < p.FirstOf(m + 1) ensures m == n {
      if m < n {
        CutsGrow(p, m + 1, n);
      } else if n < m {
        CutsGrow(p, n + 1, m);
      }
    }
  }

  lemma {:induction false} FindBatch(p: SimplePartitioner, x: int, upTo: int) returns (n: int)
    requires p.Divides() && 0 < upTo <= p.base.batchCount as int && p.FirstOf(0) <= x < p.FirstOf(upTo)
    ensures 0 <= n < upTo && p.FirstOf(n) <= x < p.FirstOf(n + 1)
    decreases upTo
  {
    if p.FirstOf(upTo - 1) <= x {
      n := upTo - 1;
    } else {
      n := FindBatch(p, x, upTo - 1);
    }
  }

  lemma {:induction false} CutsGrow(p: SimplePartitioner, m: int, n: int)
    requires p.Divides() && 0 <= m <= n <= p.base.batchCount as int
    ensures p.FirstOf(m) <= p.FirstOf(n)
    decreases n - m
  {
    if m < n {
      BatchesTile(p, m);
      CutsGrow(p, m + 1, n);
    }
  }

  // ------------------------------------------------------------------ atomic_partitioner

  class AtomicPartitioner {
    const base: Base
    const indicesToGrab: int32
    var sharedIndex: int32

    constructor (firstIndex: int32, lastIndex: int32, indicesToGrab: int32, maxBatches: int32)
      requires Fits(lastIndex as int - firstIndex as int)
      ensures base == MakeBase(firstIndex, lastIndex, maxBatches)
      ensures this.indicesToGrab == indicesToGrab && sharedIndex == firstIndex
    {
      base := MakeBase(firstIndex, lastIndex, maxBatches);
      this.indicesToGrab := indicesToGrab;
      sharedIndex := firstIndex;
    }

    /** compare_exchange_strong on the shared index. */
    method CompareExchange(expected: int32, desired: int32) returns (won: bool)
      modifies this`sharedIndex
      ensures won <==> old(sharedIndex) == expected
      ensures sharedIndex == if won then desired else old(sharedIndex)
    {
      won := sharedIndex == expected;
      if won {
        sharedIndex := desired;
      }
    }

    /** Another thread takes up to `n` of the indices that are left. */
    method Rival(n: nat) returns (ghost taken: nat)
      requires Fits(base.elementCount as int - sharedIndex as int)
      modifies this`sharedIndex
      ensures sharedIndex as int == old(sharedIndex) as int + taken && taken <= n
      ensures taken > 0 ==> sharedIndex <= base.elementCount
    {
      var left := base.elementCount - sharedIndex;
      taken := 0;
      if 0 < left {
        taken := if n < left as int then n else left as int;
        sharedIndex := sharedIndex + if n < left as int then n as int32 else left;
      }
    }

    /** How many indices are left, as the source computes it: in 32 bits, a difference that is too large taken to
        wrap around. */
    function LeftOver(index: int32): (left: int32)
      requires base.elementCount as int - index as int >= -0x8000_0000
      ensures Fits(base.elementCount as int - index as int) ==> left as int == base.elementCount as int - index as int
      ensures !Fits(base.elementCount as int - index as int) ==> left <= 0
    {
      var difference := base.elementCount as int - index as int;
      WrappedFits(difference);
      if !Fits(difference) then
        WrappedIs(difference, 1, difference - 0x1_0000_0000);
        Wrapped(difference) as int32
      else
        base.elementCount - index
    }

    /** One call, with the other threads taking others[r] indices between the load and the
        compare-exchange of round `r`, and nothing once `others` is used up; `taken` is what they took. The call itself
        takes just the range it returns. If more indices seem to be left than 32 bits can count, it returns false and
        nothing is ever handed out. */
    method GetNextValidRange(others: seq<nat>)
      returns (ok: bool, firstIndex: int32, lastIndex: int32, failures: nat, ghost taken: nat)
      requires base.elementCount as int - sharedIndex as int >= -0x8000_0000
      modifies this`sharedIndex
      ensures sharedIndex as int == old(sharedIndex) as int + taken + (if ok then lastIndex as int - firstIndex as int
                                                                       else 0)
      ensures taken <= Counting.Sum(others) && (failures == 0 ==> taken == 0)
      ensures ok ==>
                && firstIndex as int == old(sharedIndex) as int + taken
                && firstIndex < lastIndex == sharedIndex <= base.elementCount
                && (lastIndex as int - firstIndex as int == indicesToGrab as int
                    || (lastIndex == base.elementCount && lastIndex as int - firstIndex as int < indicesToGrab as int))
      ensures !ok ==> sharedIndex >= base.elementCount || indicesToGrab <= 0
                      || base.elementCount as int - old(sharedIndex) as int > INT32_MAX
      ensures base.elementCount as int - old(sharedIndex) as int > INT32_MAX ==> !ok && failures == 0
      ensures !ok && failures == 0 ==> sharedIndex == old(sharedIndex)
      ensures failures <= |others| && failures as int <= sharedIndex as int - old(sharedIndex) as int
      ensures (forall r :: 0 <= r < |others| ==> others[r] == 0) ==>
                failures == 0 && (ok ==> firstIndex == old(sharedIndex))
    {
      firstIndex, lastIndex, failures, taken := 0, 0, 0, 0;
      var round := 0;
      while true
        invariant sharedIndex as int == old(sharedIndex) as int + taken
        invariant round <= |others| && taken + Counting.Sum(others[round..]) <= Counting.Sum(others)
        invariant base.elementCount as int - sharedIndex as int >= -0x8000_0000
        invariant failures == round <= |others|
        invariant failures as int <= sharedIndex as int - old(sharedIndex) as int
        invariant failures > 0 ==> Fits(base.elementCount as int - old(sharedIndex) as int)
        invariant failures > 0 ==> exists r :: 0 <= r < round && others[r] > 0
        invariant failures == 0 ==> sharedIndex == old(sharedIndex)
        decreases |others| - round
      {
        var expectedIndex := sharedIndex;
        var left := LeftOver(expectedIndex);
        var count := if left < indicesToGrab then left else indicesToGrab;
        if count > 0 {
          ghost var took := 0;
          if round < |others| {
            took := Rival(others[round]);
            assert others[round..][1..] == others[round + 1..];
          }
          var won := CompareExchange(expectedIndex, expectedIndex + count);
          if won {
            firstIndex := expectedIndex;
            lastIndex := firstIndex + count;
            return true, firstIndex, lastIndex, failures, taken;
          }
          taken := taken + took;
          failures := failures + 1;
          round := round + 1;
        } else {
          return false, firstIndex, lastIndex, failures, taken;
        }
      }
    }
  }
}
