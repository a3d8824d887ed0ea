/** The generator of the synthetic dataset: a Lehmer generator with modulus 2^31 - 1 and
    multiplier 16807 (`minstd_rand0`, section 26.5.5 [rand.predef] of ISO/IEC
    14882:2011). Its step permutes 1 .. 2^31 - 2 in one single cycle. */
module Lehmer {

  const M := 2147483647
  const N := 2147483646
  const A := 16807
  const A_INVERSE := 1407677000

  predicate IsState(s: int) {
    1 <= s < M
  }

  function Step(s: int): int {
    (s * A) % M
  }

  /** JavaScript's `%` by M: the sign of the result is the sign of the operand. */
  function JsMod(x: int): int {
    if x >= 0 then x % M else -((-x) % M)
  }

  function Seeded(seed: int): int {
    var s := JsMod(seed);
    if s <= 0 then s + (M - 1) else s
  }

  /** Exactly the seeds that give a state: all that are not negative, and the negative
      ones except those 2^31 - 2 below a multiple of the modulus, which stick at 0. */
  lemma SeededIff(seed: int)
    ensures IsState(Seeded(seed)) <==> seed >= 0 || (-seed) % M != M - 1
    ensures !IsState(Seeded(seed)) ==> Seeded(seed) == 0 == Step(Seeded(seed))
  {
  }

  /** A seed that is a state is taken as it is, one of 0 or any multiple of the modulus becomes
      the last state, and every other seed that is not negative is its own remainder. */
  lemma SeedIsState(seed: int)
    requires seed >= 0
    ensures 1 <= seed <= 2147483646 ==> Seeded(seed) == seed
    ensures seed % 2147483647 == 0 ==> Seeded(seed) == 2147483646
    ensures seed % 2147483647 != 0 ==> Seeded(seed) == seed % 2147483647
    ensures Seeded(seed + 2147483647) == Seeded(seed)
  {
  }

  /** The dataset's seed, and the state behind its first output. */
  lemma DatasetSeed()
    ensures Seeded(42) == 42 && Step(Seeded(42)) == 705894
  {
  }

  class Generator {
    var s: int

    constructor (seed: int)
      ensures s == Seeded(seed) && 0 <= s < M
    {
      var x := JsMod(seed);
      if x <= 0 { x := x + 2147483646; }
      s := x;
    }

    /** From a state, the output is in [0, 1) and the generator stays in a state; from 0
        it stays at 0 for ever, with a negative output. The product always fits a
        double's 53 bits. */
    method Next() returns (r: real)
      requires 0 <= s < M
      modifies this
      ensures s == Step(old(s)) && (IsState(s) <==> old(IsState(s)))
      ensures r * 2147483646.0 == (s - 1) as real
      ensures (0.0 <= r < 1.0) <==> IsState(s)
      ensures old(s) * A < 0x20_0000_0000_0000
    {
      if s != 0 { StepIsPermutation(s); }
      s := (s * 16807) % 2147483647;
      r := (s - 1) as real / 2147483646.0;
    }
  }

  // ----- modular arithmetic -----

  lemma ModUnique(x: int, q: int, r: int)
    requires x == q * M + r && 0 <= r < M
    ensures x % M == r
  {
  }

  lemma ModMul(x: int, y: int)
    ensures ((x % M) * y) % M == (x * y) % M
  {
    var q, r := x / M, x % M;
    var p := (r * y) / M;
    assert x * y == (q * y + p) * M + (r * y) % M by {
      assert x * y == (q * M + r) * y == q * y * M + r * y;
    }
    ModUnique(x * y, q * y + p, (r * y) % M);
  }

  lemma ModScaled(t: int, x: int, q: int, z: int)
    requires x == q * M + z
    ensures (t * x) % M == (t * z) % M
  {
    assert t * x == (t * q) * M + t * z by { assert t * (q * M) == (t * q) * M; }
    ModUnique(t * x, t * q + (t * z) / M, (t * z) % M);
  }

  /** The step and multiplication by the inverse undo each other. */
  lemma StepIsPermutation(s: int)
    requires IsState(s)
    ensures IsState(Step(s))
    ensures (Step(s) * A_INVERSE) % M == s && Step((s * A_INVERSE) % M) == s
  {
    assert A * A_INVERSE == 11017 * M + 1;
    ModMul(s * A, A_INVERSE);
    ModMul(s * A_INVERSE, A);
    assert s * A * A_INVERSE == (s * 11017) * M + s;
    assert s * A_INVERSE * A == (s * 11017) * M + s;
    ModUnique(s * A * A_INVERSE, s * 11017, s);
  }

  // ----- iteration is multiplication by a power -----

  function Iterate(s: int, n: nat): int {
    if n == 0 then s else Step(Iterate(s, n - 1))
  }

  /** After n steps every state has been multiplied by x. */
  ghost predicate ActsAs(n: nat, x: nat) {
    forall t :: 0 <= t < M ==> Iterate(t, n) == (t * x) % M
  }

  /** After n steps every state is back. */
  ghost predicate Returns(n: nat) {
    forall t :: IsState(t) ==> Iterate(t, n) == t
  }

  lemma {:induction false} IterateAdds(s: int, m: nat, n: nat)
    ensures Iterate(s, m + n) == Iterate(Iterate(s, m), n)
  {
    if n > 0 { IterateAdds(s, m, n - 1); }
  }

  lemma {:induction false} IterateStays(s: int, n: nat)
    requires IsState(s)
    ensures IsState(Iterate(s, n))
  {
    if n > 0 {
      IterateStays(s, n - 1);
      StepIsPermutation(Iterate(s, n - 1));
    }
  }

  lemma {:induction false} IterateIsInjective(s: int, t: int, n: nat)
    requires IsState(s) && IsState(t) && Iterate(s, n) == Iterate(t, n)
    ensures s == t
  {
    if n > 0 {
      IterateStays(s, n - 1);
      IterateStays(t, n - 1);
      StepIsPermutation(Iterate(s, n - 1));
      StepIsPermutation(Iterate(t, n - 1));
      IterateIsInjective(s, t, n - 1);
    }
  }

  lemma ProductOfMultipliers(t: int, x: int, y: int, q: int, z: int)
    requires x * y == q * M + z
    ensures ((t * x) % M * y) % M == (t * z) % M
  {
    ModMul(t * x, y);
    ModScaled(t, x * y, q, z);
    assert t * x * y == t * (x * y);
  }

  lemma ActionsCompose(m: nat, x: nat, n: nat, y: nat, q: nat, z: nat)
    requires ActsAs(m, x) && ActsAs(n, y) && x * y == q * M + z && z < M
    ensures ActsAs(m + n, z)
  {
    forall t | 0 <= t < M ensures Iterate(t, m + n) == (t * z) % M {
      IterateAdds(t, m, n);
      ProductOfMultipliers(t, x, y, q, z);
    }
  }

  lemma OneStep()
    ensures ActsAs(1, A)
  {
    forall t | 0 <= t < M ensures Iterate(t, 1) == (t * A) % M {
      assert Iterate(t, 0) == t;
    }
  }

  lemma {:induction false} EveryCountActs(n: nat) returns (x: nat)
    ensures ActsAs(n, x) && x < M
  {
    if n == 0 {
      x := 1;
    } else {
      var y := EveryCountActs(n - 1);
      OneStep();
      x := (y * A) % M;
      ActionsCompose(n - 1, y, 1, A, (y * A) / M, x);
    }
  }

  /** One state that is back tells that all are, when that state is 1. */
  lemma OneDecides(n: nat)
    requires Iterate(1, n) == 1
    ensures Returns(n)
  {
    var x := EveryCountActs(n);
    assert Iterate(1, n) == (1 * x) % M == x;
  }

  lemma ActsAsOneIff(n: nat, x: nat)
    requires ActsAs(n, x) && 1 <= x < M
    ensures Returns(n) <==> x == 1
  {
    assert Iterate(1, n) == (1 * x) % M == x;
  }

  // ----- periods are closed under greatest common divisors -----

  lemma {:induction false} Multiples(g: nat, k: nat)
    requires Returns(g)
    ensures Returns(g * k)
  {
    if k > 0 {
      Multiples(g, k - 1);
      assert g * k == g * (k - 1) + g;
      forall t | IsState(t) ensures Iterate(t, g * k) == t {
        IterateAdds(t, g * (k - 1), g);
      }
    }
  }

  lemma ReturnsBefore(a: nat, b: nat)
    requires b <= a && Returns(a) && Returns(b)
    ensures Returns(a - b)
  {
    forall t | IsState(t) ensures Iterate(t, a - b) == t {
      IterateAdds(t, b, a - b);
    }
  }

  lemma Remainder(a: nat, b: nat)
    requires b > 0 && Returns(a) && Returns(b)
    ensures Returns(a % b)
  {
    var q := a / b;
    assert a == b * q + a % b;
    Multiples(b, q);
    ReturnsBefore(a, b * q);
  }

  lemma {:induction false} CommonPeriod(a: nat, b: nat) returns (g: nat)
    requires a > 0 && Returns(a) && Returns(b)
    ensures 0 < g <= a && Returns(g) && a % g == 0 && b % g == 0
    decreases a
  {
    Remainder(b, a);
    if b % a == 0 {
      g := a;
    } else {
      g := CommonPeriod(b % a, a);
      assert b == (b / a) * a + b % a;
      DividesSum(b / a, a, b % a, g);
    }
  }

  lemma DividesSum(k: nat, x: nat, y: nat, g: nat)
    requires g > 0 && x % g == 0 && y % g == 0
    ensures (k * x + y) % g == 0
  {
    var i, j := x / g, y / g;
    assert x == g * i && y == g * j;
    assert k * x + y == g * (k * i + j) by {
      assert k * (g * i) == g * (k * i);
    }
    IsMultiple(g, k * i + j);
  }

  lemma IsMultiple(g: int, i: int)
    requires g > 0
    ensures (g * i) % g == 0 && (g * i) / g == i
  {
    DivisionUnique(g, g * i, i, 0);
  }

  lemma DivisionUnique(g: int, x: int, q: int, r: int)
    requires g > 0 && x == g * q + r && 0 <= r < g
    ensures x / g == q && x % g == r
  {
    var d := x / g - q;
    assert x == g * (x / g) + x % g;
    assert g * d == r - x % g by { assert g * d == g * (x / g) - g * q; }
    assert d >= 1 ==> g * d >= g;
    assert d <= -1 ==> g * d <= -g;
  }

  // ----- the primes of 2^31 - 2 -----

  ghost predicate Prime(p: int) {
    p > 1 && forall d :: 1 < d < p ==> p % d != 0
  }

  lemma TrialDivision(p: int)
    requires 1 < p < 361 && forall d :: 1 < d < p && d < 19 ==> p % d != 0
    ensures Prime(p)
  {
    forall d | 1 < d < p ensures p % d != 0 {
      if d >= 19 && p % d == 0 {
        var e := p / d;
        assert p == d * e;
        assert 1 < e < 19;
        IsMultiple(e, d);
      }
    }
  }

  lemma {:induction false} EuclidBelow(p: int, r: int, g: int)
    requires Prime(p) && 0 < r < p && (r * g) % p == 0
    ensures g % p == 0
    decreases r
  {
    if r > 1 {
      var q, rest := p / r, p % r;
      assert rest != 0 && p == q * r + rest;
      var i := (r * g) / p;
      assert r * g == p * i;
      assert rest * g == p * (g - q * i) by {
        assert rest * g == p * g - q * r * g;
        assert q * r * g == q * (r * g) == q * (p * i) == p * (q * i);
        assert p * (g - q * i) == p * g - p * (q * i);
      }
      IsMultiple(p, g - q * i);
      EuclidBelow(p, rest, g);
    }
  }

  lemma Euclid(p: int, k: nat, g: nat)
    requires Prime(p) && (k * g) % p == 0 && k % p != 0
    ensures g % p == 0
  {
    var q, r := k / p, k % p;
    var i := (k * g) / p;
    assert k == p * q + r && k * g == p * i;
    assert r * g == p * (i - q * g) by {
      assert (p * q + r) * g == p * (q * g) + r * g;
      assert p * (i - q * g) == p * i - p * (q * g);
    }
    IsMultiple(p, i - q * g);
    EuclidBelow(p, r, g);
  }

  function Product(ps: seq<nat>): nat {
    if ps == [] then 1 else ps[0] * Product(ps[1..])
  }

  lemma {:induction false} DivisorHasPrime(ps: seq<nat>, k: nat, g: nat)
    requires k * g == Product(ps) && forall p :: p in ps ==> Prime(p)
    ensures k == 1 || exists p :: p in ps && p > 0 && k % p == 0
    decreases ps
  {
    if ps == [] {
      assert g > 0 ==> k * g >= k;
    } else if ps[0] > 0 && k % ps[0] == 0 {
      assert ps[0] in ps;
    } else {
      var p, rest := ps[0], Product(ps[1..]);
      assert Prime(p);
      IsMultiple(p, rest);
      Euclid(p, k, g);
      var h := g / p;
      assert g == p * h;
      assert p * (k * h) == p * rest by { assert k * (p * h) == p * (k * h); }
      assert k * h == rest by {
        IsMultiple(p, k * h);
      }
      DivisorHasPrime(ps[1..], k, h);
      if k != 1 {
        var d :| d in ps[1..] && d > 0 && k % d == 0;
        assert d in ps;
      }
    }
  }

  // ----- one cycle -----

  /** The powers of the multiplier that decide its order, by an addition chain. */
  lemma DecisivePowers()
    ensures ActsAs(2147483646, 1)
    ensures ActsAs(1073741823, 2147483646)
    ensures ActsAs(715827882, 634005911)
    ensures ActsAs(306783378, 1600955193)
    ensures ActsAs(195225786, 298192073)
    ensures ActsAs(69273666, 16384)
    ensures ActsAs(14221746, 1013763951)
    ensures ActsAs(6487866, 759513457)
  {
    OneStep();
    ActionsCompose(1, 16807, 1, 16807, 0, 282475249);
    ActionsCompose(2, 282475249, 2, 282475249, 37156169, 984943658);
    ActionsCompose(4, 984943658, 4, 984943658, 451744538, 1457850878);
    ActionsCompose(8, 1457850878, 1, 16807, 11409, 1458777923);
    ActionsCompose(9, 1458777923, 9, 1458777923, 990942600, 16531729);
    ActionsCompose(18, 16531729, 18, 16531729, 127264, 704877633);
    ActionsCompose(36, 704877633, 36, 704877633, 231364964, 824938981);
    ActionsCompose(72, 824938981, 1, 16807, 6456, 595028635);
    ActionsCompose(73, 595028635, 73, 595028635, 164871605, 877819790);
    ActionsCompose(146, 877819790, 73, 595028635, 243227887, 1592822761);
    ActionsCompose(219, 1592822761, 73, 595028635, 441342198, 338725129);
    ActionsCompose(292, 338725129, 219, 1592822761, 251237813, 268317158);
    ActionsCompose(511, 268317158, 511, 268317158, 33524864, 69297956);
    ActionsCompose(1022, 69297956, 1, 16807, 542, 754609818);
    ActionsCompose(1023, 754609818, 1023, 754609818, 265164290, 878627494);
    ActionsCompose(2046, 878627494, 2046, 878627494, 359484121, 2009050749);
    ActionsCompose(4092, 2009050749, 2046, 878627494, 821988669, 215897163);
    ActionsCompose(6138, 215897163, 4092, 2009050749, 201979818, 853088841);
    ActionsCompose(10230, 853088841, 2046, 878627494, 349035165, 1461747699);
    ActionsCompose(12276, 1461747699, 12276, 1461747699, 994981423, 570504920);
    ActionsCompose(24552, 570504920, 24552, 570504920, 151561509, 1652063077);
    ActionsCompose(49104, 1652063077, 2046, 878627494, 675929729, 1725797375);
    ActionsCompose(49104, 1652063077, 10230, 853088841, 656282797, 1251903098);
    ActionsCompose(59334, 1251903098, 9, 1458777923, 850413274, 1990975176);
    ActionsCompose(51150, 1725797375, 51150, 1725797375, 1386914672, 1652521841);
    ActionsCompose(102300, 1652521841, 51150, 1725797375, 1328027740, 915599595);
    ActionsCompose(153450, 915599595, 153450, 915599595, 390374389, 1779047342);
    ActionsCompose(306900, 1779047342, 2046, 878627494, 727884428, 1772872032);
    ActionsCompose(308946, 1772872032, 308946, 1772872032, 1463608463, 1944504463);
    ActionsCompose(617892, 1944504463, 617892, 1944504463, 1760710779, 1627787356);
    ActionsCompose(1235784, 1627787356, 308946, 1772872032, 1343832667, 808730843);
    ActionsCompose(1544730, 808730843, 1544730, 808730843, 304563705, 462258514);
    ActionsCompose(3089460, 462258514, 3089460, 462258514, 99503870, 127274306);
    ActionsCompose(6178920, 127274306, 59343, 1990975176, 117998562, 1524112242);
    ActionsCompose(6238263, 1524112242, 59343, 1990975176, 1413035039, 369197359);
    ActionsCompose(6178920, 127274306, 308946, 1772872032, 105072305, 759513457);
    ActionsCompose(6178920, 127274306, 6178920, 127274306, 7543130, 645586526);
    ActionsCompose(6297606, 369197359, 6297606, 369197359, 63472748, 1532422925);
    ActionsCompose(12357840, 645586526, 308946, 1772872032, 532969039, 571635599);
    ActionsCompose(12666786, 571635599, 1544730, 808730843, 215274905, 1771101422);
    ActionsCompose(14211516, 1771101422, 10230, 853088841, 703570833, 1013763951);
    ActionsCompose(12595212, 1532422925, 12595212, 1532422925, 1093521724, 1136308197);
    ActionsCompose(12666786, 571635599, 12666786, 571635599, 152162862, 218371087);
    ActionsCompose(25190424, 1136308197, 3089460, 462258514, 244597037, 1529085319);
    ActionsCompose(28279884, 1529085319, 59343, 1990975176, 1417645678, 1369813478);
    ActionsCompose(25190424, 1136308197, 6297606, 369197359, 195355147, 1802670614);
    ActionsCompose(25333572, 218371087, 25333572, 218371087, 22205492, 693972245);
    ActionsCompose(50667144, 693972245, 308946, 1772872032, 572914250, 1136482090);
    ActionsCompose(31488030, 1802670614, 31488030, 1802670614, 1513222858, 757533870);
    ActionsCompose(62976060, 757533870, 6297606, 369197359, 130235918, 16384);
    ActionsCompose(69273666, 16384, 28339227, 1369813478, 10450, 1819912402);
    ActionsCompose(50976090, 1136482090, 50976090, 1136482090, 601444179, 1904927287);
    ActionsCompose(101952180, 1904927287, 308946, 1772872032, 1572627719, 744525991);
    ActionsCompose(97612893, 1819912402, 97612893, 1819912402, 1542307973, 298192073);
    ActionsCompose(102261126, 744525991, 102261126, 744525991, 258124876, 1180629309);
    ActionsCompose(204522252, 1180629309, 102261126, 744525991, 409320558, 1600955193);
    ActionsCompose(195225786, 298192073, 195225786, 298192073, 41405908, 2080850853);
    ActionsCompose(306783378, 1600955193, 102261126, 744525991, 555046252, 2116280219);
    ActionsCompose(390451572, 2080850853, 97612893, 1819912402, 1763443591, 7522529);
    ActionsCompose(409044504, 2116280219, 306783378, 1600955193, 1577692948, 634005911);
    ActionsCompose(488064465, 7522529, 488064465, 7522529, 26351, 100973744);
    ActionsCompose(976128930, 100973744, 97612893, 1819912402, 85571486, 2147483646);
    ActionsCompose(1073741823, 2147483646, 1073741823, 2147483646, 2147483645, 1);
  }

  const PRIMES: seq<nat> := [2, 3, 3, 7, 11, 31, 151, 331]

  lemma PrimesOfN()
    ensures Product(PRIMES) == N && forall p :: p in PRIMES ==> Prime(p)
  {
    TrialDivision(2);
    TrialDivision(3);
    TrialDivision(7);
    TrialDivision(11);
    TrialDivision(31);
    TrialDivision(151);
    TrialDivision(331);
    assert forall p :: p in PRIMES ==> p in {2, 3, 7, 11, 31, 151, 331};
  }

  lemma NoShorterPeriod()
    ensures Returns(2147483646)
    ensures !Returns(1073741823)
    ensures !Returns(715827882)
    ensures !Returns(306783378)
    ensures !Returns(195225786)
    ensures !Returns(69273666)
    ensures !Returns(14221746)
    ensures !Returns(6487866)
  {
    DecisivePowers();
    ActsAsOneIff(2147483646, 1);
    ActsAsOneIff(1073741823, 2147483646);
    ActsAsOneIff(715827882, 634005911);
    ActsAsOneIff(306783378, 1600955193);
    ActsAsOneIff(195225786, 298192073);
    ActsAsOneIff(69273666, 16384);
    ActsAsOneIff(14221746, 1013763951);
    ActsAsOneIff(6487866, 759513457);
  }

  lemma NotAtPrimes()
    ensures Returns(N)
    ensures forall p :: p in PRIMES ==> p > 0 && !Returns(N / p)
  {
    NoShorterPeriod();
    assert N / 2 == 1073741823;
    assert N / 3 == 715827882;
    assert N / 7 == 306783378;
    assert N / 11 == 195225786;
    assert N / 31 == 69273666;
    assert N / 151 == 14221746;
    assert N / 331 == 6487866;
    forall p | p in PRIMES ensures p > 0 && !Returns(N / p) {
      assert p in {2, 3, 7, 11, 31, 151, 331};
    }
  }

  /** A count that returns, and does not when divided by any of its primes, is the
      least that does. */
  lemma PeriodByPrimes(period: nat, ps: seq<nat>, n: nat)
    requires period > 0 && Product(ps) == period && Returns(period)
    requires forall p :: p in ps ==> Prime(p) && !Returns(period / p)
    ensures Returns(n) <==> n % period == 0
  {
    if n % period == 0 {
      Multiples(period, n / period);
      assert n == period * (n / period);
    }
    if Returns(n) {
      var g := CommonPeriod(period, n);
      var k := period / g;
      assert k * g == period;
      DivisorHasPrime(ps, k, g);
      if k != 1 {
        var p :| p in ps && p > 0 && k % p == 0;
        PrimeQuotient(period, g, k, p);
      }
    }
  }

  lemma PrimeQuotient(period: nat, g: nat, k: nat, p: nat)
    requires p > 0 && k % p == 0 && k * g == period && Returns(g)
    ensures Returns(period / p)
  {
    var h := k / p;
    assert k == p * h;
    assert period == p * (g * h) by { assert p * h * g == p * (g * h); }
    IsMultiple(p, g * h);
    Multiples(g, h);
  }

  lemma ReturnsIff(n: nat)
    ensures Returns(n) <==> n % N == 0
  {
    PrimesOfN();
    NotAtPrimes();
    PeriodByPrimes(N, PRIMES, n);
  }

  function Visited(n: nat): set<int> {
    if n == 0 then {} else Visited(n - 1) + {Iterate(1, n - 1)}
  }

  function UpTo(n: nat): set<int> {
    if n == 0 then {} else UpTo(n - 1) + {n}
  }

  lemma {:induction false} UpToMembers(n: nat)
    ensures |UpTo(n)| == n && forall x :: x in UpTo(n) <==> 1 <= x <= n
  {
    if n > 0 { UpToMembers(n - 1); }
  }

  lemma BackToStart(s: int, i: nat, d: nat)
    requires IsState(s) && Iterate(s, d + i) == Iterate(s, i)
    ensures Iterate(s, d) == s
  {
    IterateAdds(s, d, i);
    IterateStays(s, d);
    IterateIsInjective(s, Iterate(s, d), i);
  }

  lemma NotBefore(i: nat, j: nat)
    requires i < j && !Returns(j - i)
    ensures Iterate(1, i) != Iterate(1, j)
  {
    if Iterate(1, i) == Iterate(1, j) {
      BackToStart(1, i, j - i);
      OneDecides(j - i);
    }
  }

  lemma {:induction false} VisitedAt(n: nat, x: int) returns (i: nat)
    requires x in Visited(n)
    ensures i < n && Iterate(1, i) == x
  {
    if x in Visited(n - 1) {
      i := VisitedAt(n - 1, x);
    } else {
      i := n - 1;
    }
  }

  lemma {:induction false} VisitedCount(n: nat)
    requires forall d: nat :: 0 < d < n ==> !Returns(d)
    ensures |Visited(n)| == n
  {
    if n > 0 {
      VisitedCount(n - 1);
      if Iterate(1, n - 1) in Visited(n - 1) {
        var i := VisitedAt(n - 1, Iterate(1, n - 1));
        NotBefore(i, n - 1);
        assert false;
      }
    }
  }

  /** As many different states as there are states: each is visited. */
  lemma VisitsAllUpTo(n: nat, t: int) returns (i: nat)
    requires forall d: nat :: 0 < d < n ==> !Returns(d)
    requires forall i: nat :: i < n ==> 1 <= Iterate(1, i) <= n
    requires 1 <= t <= n
    ensures i < n && Iterate(1, i) == t
  {
    VisitedCount(n);
    UpToMembers(n);
    forall x | x in Visited(n) ensures x in UpTo(n) {
      var i := VisitedAt(n, x);
    }
    SubsetEqual(Visited(n), UpTo(n));
    i := VisitedAt(n, t);
  }

  lemma VisitsAll(t: int) returns (i: nat)
    requires IsState(t)
    ensures i < N && Iterate(1, i) == t
  {
    forall d: nat | 0 < d < N ensures !Returns(d) {
      ReturnsIff(d);
    }
    forall i: nat | i < N ensures 1 <= Iterate(1, i) <= N {
      IterateStays(1, i);
    }
    i := VisitsAllUpTo(N, t);
  }

  lemma SubsetEqual(a: set<int>, b: set<int>)
    requires a <= b && |a| == |b|
    ensures a == b
  {
    var rest := b - a;
    assert b == a + rest && |b| == |a| + |rest|;
  }

  /** From any seed's state the generator is back exactly at the multiples of 2^31 - 2
      draws, so no shorter cycle exists, and it comes by every other state. */
  lemma FullPeriod(s: int, n: nat, t: int)
    requires IsState(s) && IsState(t)
    ensures Iterate(s, n) == s <==> n % N == 0
    ensures exists m: nat :: Iterate(s, m) == t
  {
    ReturnsIff(n);
    var k := VisitsAll(s);
    if Iterate(s, n) == s {
      IterateAdds(1, k, n);
      BackToStart(1, k, n);
      OneDecides(n);
    }
    var j := VisitsAll(t);
    NotAtPrimes();
    IterateAdds(1, k, N - k);
    assert Iterate(1, N) == 1;
    IterateAdds(s, N - k, j);
  }
}
