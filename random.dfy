/**
 * The 31-bit linear congruential generator of src/random.ts (after OpenBSD's
 * `rand`), with its module-level state held by a `Generator` object.
 */
module Random {

  const RAND_MAX: int := 0x7fff_ffff
  const TWO31: int := 0x8000_0000
  const TWO32: int := 0x1_0000_0000

  /** ECMAScript ToUint32 of an integer. */
  function ToUint32(x: int): (r: int)
    ensures 0 <= r < TWO32 && (x - r) % TWO32 == 0
  {
    x % TWO32
  }

  /** ECMAScript ToInt32 of an integer (what `x | 0` yields). */
  function ToInt32(x: int): (r: int)
    ensures -TWO31 <= r < TWO31 && (x - r) % TWO32 == 0
  {
    var u := ToUint32(x);
    if u >= TWO31 then u - TWO32 else u
  }

  /** `Math.imul(a, b)`: the low 32 bits of the product, read as a signed 32-bit value. */
  function Imul(a: int, b: int): int {
    ToInt32(ToUint32(a) * ToUint32(b))
  }

  /**
   * `x & RAND_MAX`: the operands are taken as 32-bit two's-complement words and
   * the mask 2^31 - 1 keeps the low 31 bits of the word of `x`.
   */
  function AndRandMax(x: int): int {
    ToUint32(x) % TWO31
  }

  /** One step of `random()`: `(Math.imul(next, 1103515245) + 12345) & RAND_MAX`. */
  function Lcg(next: int): int {
    AndRandMax(Imul(next, 1103515245) + 12345)
  }

  /** The state `srandom(seed)` installs: `(seed | 0) & RAND_MAX`, for an integral seed. */
  function Seed(seed: int): int {
    AndRandMax(ToInt32(seed))
  }

  /** Masking with RAND_MAX reduces modulo 2^31. */
  lemma AndRandMaxIsMod(x: int)
    ensures AndRandMax(x) == x % TWO31
  {
    ModOfMultiple(x, ToUint32(x));
  }

  lemma ModOfMultiple(x: int, u: int)
    requires (x - u) % TWO32 == 0
    ensures x % TWO31 == u % TWO31
  {
    var k := (x - u) / TWO32;
    assert x == u + (2 * k) * TWO31;
  }

  lemma MultipleOfWord(k: int)
    ensures (k * TWO32) % TWO32 == 0
  {
  }

  /** Congruence modulo 2^32 is transitive. */
  lemma CongruentTrans(a: int, b: int, c: int)
    requires (a - b) % TWO32 == 0 && (b - c) % TWO32 == 0
    ensures (a - c) % TWO32 == 0
  {
    var q1 := (a - b) / TWO32;
    var q2 := (b - c) / TWO32;
    assert a - c == (q1 + q2) * TWO32;
    MultipleOfWord(q1 + q2);
  }

  /** Congruence modulo 2^32 survives multiplication by a constant. */
  lemma CongruentMul(x: int, y: int, m: int)
    requires (x - y) % TWO32 == 0
    ensures (x * m - y * m) % TWO32 == 0
  {
    var q := (x - y) / TWO32;
    assert x - y == q * TWO32;
    calc {
      x * m - y * m;
      (x - y) * m;
      (q * TWO32) * m;
      (q * m) * TWO32;
    }
    MultipleOfWord(q * m);
  }

  /** The generator step is `next * 1103515245 + 12345` modulo 2^31. */
  lemma LcgIsAffineMod(next: int)
    ensures Lcg(next) == (next * 1103515245 + 12345) % TWO31
  {
    var u := ToUint32(next);
    assert ToUint32(1103515245) == 1103515245;
    var p := u * 1103515245;
    var m := Imul(next, 1103515245);
    assert m == ToInt32(p);
    CongruentMul(next, u, 1103515245);
    CongruentTrans(next * 1103515245, p, m);
    assert (next * 1103515245 + 12345) - (m + 12345) == next * 1103515245 - m;
    AndRandMaxIsMod(m + 12345);
    ModOfMultiple(next * 1103515245 + 12345, m + 12345);
  }

  /** `random()` always yields a value in [0, RAND_MAX]. */
  lemma LcgInRange(next: int)
    ensures 0 <= Lcg(next) <= RAND_MAX
  {
    LcgIsAffineMod(next);
  }

  /** `srandom(seed)` keeps the low 31 bits of the seed. */
  lemma SeedIsMod(seed: int)
    ensures Seed(seed) == seed % TWO31
  {
    AndRandMaxIsMod(ToInt32(seed));
    ModOfMultiple(seed, ToInt32(seed));
  }

  /** Two seeds install the same state exactly when they agree modulo 2^31. */
  lemma SeedsAgree(a: int, b: int)
    ensures Seed(a) == Seed(b) <==> a % TWO31 == b % TWO31
  {
    SeedIsMod(a);
    SeedIsMod(b);
  }

  /** The next `n` values `random()` returns from state `next`. */
  function Outputs(next: int, n: nat): (r: seq<int>)
    ensures |r| == n
    ensures forall k :: 0 <= k < n ==> 0 <= r[k] <= RAND_MAX
    decreases n
  {
    if n == 0 then []
    else
      var v := Lcg(next);
      var rest := Outputs(v, n - 1);
      LcgInRange(next);
      [v] + rest
  }

  /** Equal seeds (modulo 2^31) produce equal sequences. */
  lemma SameSeedSameOutputs(a: int, b: int, n: nat)
    requires a % TWO31 == b % TWO31
    ensures Outputs(Seed(a), n) == Outputs(Seed(b), n)
  {
    SeedsAgree(a, b);
  }

  /** The generator state, module-level in the source. */
  class Generator {
    var next: int

    /** The initial state is 1. */
    constructor ()
      ensures next == 1
    {
      next := 1;
    }

    /** `random()`: advance the state and return it. */
    method Random() returns (r: int)
      modifies this
      ensures next == Lcg(old(next)) && r == next
      ensures 0 <= r <= RAND_MAX
    {
      LcgInRange(next);
      next := AndRandMax(Imul(next, 1103515245) + 12345);
      r := next;
    }

    /** `srandom(seed)`: install the low 31 bits of the seed. */
    method Srandom(seed: int)
      modifies this
      ensures next == Seed(seed) && next == seed % TWO31
    {
      SeedIsMod(seed);
      next := AndRandMax(ToInt32(seed));
    }
  }
}
