/**
 * The additive constants of MD5 are what section 3.4 of RFC 1321 says: the integer parts of 2^32 * |sin(i + 1)|, i + 1
 * in radians. Sine and cosine of one radian are given by their alternating series, those of further integers by
 * de Moivre's formula; enclosures by integers, scaled by 10^36, decide the integer parts.
 */
module SineTable {
  import opened Md5Compress

  const SCALE: int := 1_000000_000000_000000_000000_000000_000000

  // ---------- the series ----------

  function Factorial(n: nat): (f: nat)
    ensures f >= 1
  {
    if n == 0 then 1 else n * Factorial(n - 1)
  }

  /** The first k terms of x^first/first! - x^(first+2)/(first+2)! + ..., at x = 1: cosine for first 0, sine for 1. */
  function Partial(first: nat, k: nat): real {
    if k == 0 then 0.0
    else Partial(first, k - 1) + Sign(k) as real / Factorial(first + 2 * (k - 1)) as real
  }

  /** Between two neighbouring partial sums, as the limit is (see PartialsEnclosed). */
  predicate Encloses(first: nat, x: real) {
    Partial(first, 18) <= x <= Partial(first, 17)
  }

  /** Real and imaginary part of (x + y * i) * (c + s * i). */
  function RealPart(x: real, y: real, c: real, s: real): real {
    x * c - y * s
  }

  function ImaginaryPart(x: real, y: real, c: real, s: real): real {
    x * s + y * c
  }

  /** Cosine and sine of n, from cosine c and sine s of 1: the powers of c + s * i, by de Moivre's formula. */
  function CosineOf(c: real, s: real, n: nat): real {
    if n == 0 then 1.0 else RealPart(CosineOf(c, s, n - 1), SineOf(c, s, n - 1), c, s)
  }

  function SineOf(c: real, s: real, n: nat): real {
    if n == 0 then 0.0 else ImaginaryPart(CosineOf(c, s, n - 1), SineOf(c, s, n - 1), c, s)
  }

  function Abs(x: real): real {
    if x < 0.0 then -x else x
  }

  function Term(first: nat, k: nat): real
    requires k >= 1
  {
    1.0 / Factorial(first + 2 * (k - 1)) as real
  }

  lemma AddsTerm(first: nat, k: nat)
    requires k >= 1
    ensures Partial(first, k) == Partial(first, k - 1) + (if k % 2 == 1 then Term(first, k) else -Term(first, k))
  {
    hide Factorial;
  }

  lemma TermsShrink(first: nat, k: nat)
    requires k >= 2
    ensures 0.0 < Term(first, k) <= Term(first, k - 1)
  {
    var n := first + 2 * (k - 1);
    FactorialStep(n);
    hide Factorial;
    Smaller(Factorial(n - 2), Factorial(n), (n - 1) * n);
  }

  lemma Smaller(f: nat, g: nat, m: nat)
    requires f >= 1 && m >= 1 && g == f * m
    ensures 0.0 < 1.0 / g as real <= 1.0 / f as real
  {
    assert f * m >= f;
  }

  /** Terms shrink, so every later partial sum, and with them the limit, lies between the 17th and the 18th. */
  lemma {:induction false} PartialsEnclosed(first: nat, k: nat)
    requires k >= 17
    ensures Encloses(first, Partial(first, k))
    decreases k
  {
    hide Term, Partial;
    if k <= 18 {
      TermsShrink(first, 18);
      AddsTerm(first, 18);
    } else {
      PartialsEnclosed(first, k - 1);
      PartialsEnclosed(first, k - 2);
      TermsShrink(first, k);
      AddsTerm(first, k);
      AddsTerm(first, k - 1);
    }
  }

  // ---------- enclosures of cosine and sine of 1 ----------

  function Numerator(first: nat, k: nat): int
    requires k >= 1
  {
    if k == 1 then 1
    else Numerator(first, k - 1) * ((first + 2 * k - 3) * (first + 2 * k - 2)) + Sign(k)
  }

  lemma FactorialStep(n: nat)
    requires n >= 2
    ensures Factorial(n) == Factorial(n - 2) * ((n - 1) * n)
  {
    var f := Factorial(n - 2);
    assert Factorial(n) == n * ((n - 1) * f);
    hide Factorial;
    assert n * ((n - 1) * f) == f * ((n - 1) * n);
  }

  /** p times f is the integer numerator. */
  predicate IsFraction(p: real, numerator: int, f: nat) {
    p * f as real == numerator as real
  }

  lemma AddTerm(p: real, f: nat, g: nat, m: nat, numerator: int, sign: int)
    requires f >= 1 && g == f * m && g >= 1 && IsFraction(p, numerator, f)
    ensures IsFraction(p + sign as real / g as real, numerator * m + sign, g)
  {
    assert p * g as real == p * f as real * m as real;
    assert sign as real / g as real * g as real == sign as real;
  }

  function Sign(k: nat): int {
    if k % 2 == 1 then 1 else -1
  }

  lemma {:induction false} PartialFraction(first: nat, k: nat)
    requires first <= 1 && k >= 1
    ensures IsFraction(Partial(first, k), Numerator(first, k), Factorial(first + 2 * (k - 1)))
  {
    hide IsFraction, Sign;
    if k == 1 {
      FirstFraction(first);
    } else {
      PartialFraction(first, k - 1);
      var n := first + 2 * (k - 1);
      FactorialStep(n);
      NextTerm(first, k);
      hide Factorial, Partial, Numerator;
      AddTerm(Partial(first, k - 1), Factorial(n - 2), Factorial(n), (n - 1) * n, Numerator(first, k - 1), Sign(k));
    }
  }

  lemma NextTerm(first: nat, k: nat)
    requires k >= 2
    ensures var n := first + 2 * (k - 1);
      && Partial(first, k) == Partial(first, k - 1) + Sign(k) as real / Factorial(n) as real
      && Numerator(first, k) == Numerator(first, k - 1) * ((n - 1) * n) + Sign(k)
  {
    hide Factorial, Sign;
  }

  lemma FirstFraction(first: nat)
    requires first <= 1
    ensures IsFraction(Partial(first, 1), Numerator(first, 1), Factorial(first))
  {
    assert Factorial(0) == 1 && Factorial(1) == 1;
    assert Partial(first, 0) == 0.0;
  }

  lemma Divided(p: real, f: nat, numerator: int, low: int, high: int)
    requires f >= 1 && IsFraction(p, numerator, f)
    requires low * f <= SCALE * numerator <= high * f
    ensures low as real <= p * SCALE as real <= high as real
  {
    var q := p * SCALE as real;
    assert q * f as real == (SCALE * numerator) as real;
    Cancelled(low as real, q, f as real);
    Cancelled(q, high as real, f as real);
  }

  lemma Cancelled(a: real, b: real, f: real)
    requires f > 0.0 && a * f <= b * f
    ensures a <= b
  {
  }

  /** x is within e of n, both scaled. */
  predicate Near(x: real, n: int, e: int) {
    (n - e) as real <= x * 1_000000_000000_000000_000000_000000_000000.0 <= (n + e) as real
  }

  const COSINE: int := 540302_305868_139717_400936_607442_976604
  const SINE: int := 841470_984807_896506_652502_321630_299000

  lemma Factorials()
    ensures Factorial(32) == 263130836933693530167218012160000000
    ensures Factorial(33) == 8683317618811886495518194401280000000
    ensures Factorial(34) == 295232799039604140847618609643520000000
    ensures Factorial(35) == 10333147966386144929666651337523200000000
  {
    assert Factorial(8) == 40320;
    assert Factorial(16) == 20922789888000;
    assert Factorial(24) == 620448401733239439360000;
    assert Factorial(32) == 263130836933693530167218012160000000;
  }

  lemma CosineNumerators()
    ensures Numerator(0, 17) == 142170197940288076928023561525491809
    ensures Numerator(0, 18) == 159514962089003222313242436031601809697
  {
    assert Numerator(0, 6) == 1960649;
    assert Numerator(0, 12) == 607300185015708631061;
  }

  lemma SineNumerators()
    ensures Numerator(1, 17) == 7306759828101397010672254509474141985
    ensures Numerator(1, 18) == 8695044195440662442699982866274228962149
  {
    assert Numerator(1, 6) == 33588829;
    assert Numerator(1, 12) == 21753721984539766369345;
  }

  lemma PartialNear(first: nat, k: nat, f: nat, numerator: int, n: int)
    requires first <= 1 && k >= 1 && f == Factorial(first + 2 * (k - 1)) && numerator == Numerator(first, k)
    requires (n - 2) * f <= SCALE * numerator <= (n + 2) * f
    ensures Near(Partial(first, k), n, 2)
  {
    hide Factorial, Numerator, Partial, IsFraction;
    PartialFraction(first, k);
    Divided(Partial(first, k), f, numerator, n - 2, n + 2);
  }

  lemma CosineOfOne(c: real)
    requires Encloses(0, c)
    ensures Near(c, COSINE, 2)
  {
    Factorials();
    CosineNumerators();
    hide Factorial, Numerator, Partial;
    PartialNear(0, 18, Factorial(34), Numerator(0, 18), COSINE);
    PartialNear(0, 17, Factorial(32), Numerator(0, 17), COSINE);
  }

  lemma SineOfOne(s: real)
    requires Encloses(1, s)
    ensures Near(s, SINE, 2)
  {
    Factorials();
    SineNumerators();
    hide Factorial, Numerator, Partial;
    PartialNear(1, 18, Factorial(35), Numerator(1, 18), SINE);
    PartialNear(1, 17, Factorial(33), Numerator(1, 17), SINE);
  }

  // ---------- one turn ----------

  lemma ProductBounded(a: real, b: real, m: real, n: real)
    requires -m <= a <= m && -n <= b <= n
    ensures -(m * n) <= a * b <= m * n
  {
    assert (m - a) * (n + b) >= 0.0 && (m + a) * (n - b) >= 0.0;
    assert (m - a) * (n - b) >= 0.0 && (m + a) * (n + b) >= 0.0;
  }

  /** z is within d of w, both scaled twice, as products are. */
  predicate Close(z: real, w: int, d: int) {
    (w - d) as real <= z * SCALE as real * SCALE as real <= (w + d) as real
  }

  lemma CloseSum(y: real, z: real, v: int, w: int, d: int, e: int)
    requires Close(y, v, d) && Close(z, w, e)
    ensures Close(y + z, v + w, d + e) && Close(y - z, v - w, d + e)
  {
  }

  lemma CloseProduct(x: real, c: real, k: int, m: int, e: int, bound: int)
    requires Near(x, k, e) && Near(c, m, 2) && 0 <= e
    requires -SCALE <= k <= SCALE && -bound <= m - 2 && m + 2 <= bound
    ensures Close(x * c, k * m, 2 * SCALE + e * bound)
  {
    var u, a, w := x * SCALE as real - k as real, c * SCALE as real - m as real, c * SCALE as real;
    ProductBounded(u, w, e as real, bound as real);
    ProductBounded(k as real, a, SCALE as real, 2.0);
    Expanded(x, c, SCALE as real, k as real, m as real);
    assert e as real * bound as real == (e * bound) as real && k as real * m as real == (k * m) as real;
  }

  lemma Expanded(x: real, c: real, scale: real, k: real, m: real)
    ensures x * c * scale * scale - k * m == (x * scale - k) * (c * scale) + k * (c * scale - m)
  {
  }

  /** The enclosure of a sum of two products, rounded back to the scale. */
  lemma Rescaled(z: real, w: int, r: int, d: int, e: int)
    requires Close(z, w, d) && e >= 20 && d <= 4 * SCALE + e * (14 * SCALE / 10)
    requires -SCALE <= w - r * SCALE <= SCALE
    ensures Near(z, r, 2 * e)
  {
    Between(z * SCALE as real, SCALE as real, (r - 2 * e) as real, (r + 2 * e) as real, w as real, d as real);
  }

  lemma Between(q: real, scale: real, low: real, high: real, w: real, d: real)
    requires scale > 0.0 && w - d <= q * scale <= w + d
    requires low * scale <= w - d && w + d <= high * scale
    ensures low <= q <= high
  {
    Cancelled(low, q, scale);
    Cancelled(q, high, scale);
  }

  /** 0.55 and 0.85, above the cosine and the sine of 1. */
  const HALF: int := 55 * (SCALE / 100)
  const MOST: int := 85 * (SCALE / 100)

  lemma Errors(e: int)
    ensures (2 * SCALE + e * HALF) + (2 * SCALE + e * MOST) == 4 * SCALE + e * (14 * SCALE / 10)
  {
    assert HALF + MOST == 14 * SCALE / 10;
    Distributes(e, HALF, MOST);
  }

  lemma Distributes(e: int, a: int, b: int)
    ensures e * a + e * b == e * (a + b)
  {
  }

  /** Whether k' and l' continue a table of scaled cosines and sines; the literals are SCALE, COSINE and SINE. */
  predicate Continues(k: int, l: int, k': int, l': int) {
    && -SCALE <= k <= SCALE && -SCALE <= l <= SCALE
    && -SCALE <= k * 540302_305868_139717_400936_607442_976604 - l * 841470_984807_896506_652502_321630_299000
                 - k' * 1_000000_000000_000000_000000_000000_000000 <= SCALE
    && -SCALE <= k * 841470_984807_896506_652502_321630_299000 + l * 540302_305868_139717_400936_607442_976604
                 - l' * 1_000000_000000_000000_000000_000000_000000 <= SCALE
  }

  lemma NextCosine(c: real, s: real, x: real, y: real, k: int, l: int, k': int, l': int, e: int)
    requires Near(c, COSINE, 2) && Near(s, SINE, 2) && Near(x, k, e) && Near(y, l, e) && e >= 20
    requires Continues(k, l, k', l')
    ensures Near(RealPart(x, y, c, s), k', 2 * e)
  {
    hide Near, Close;
    CloseProduct(x, c, k, COSINE, e, HALF);
    CloseProduct(y, s, l, SINE, e, MOST);
    Errors(e);
    var d, f := 2 * SCALE + e * HALF, 2 * SCALE + e * MOST;
    CloseSum(x * c, y * s, k * COSINE, l * SINE, d, f);
    Rescaled(x * c - y * s, k * COSINE - l * SINE, k', d + f, e);
  }

  lemma NextSine(c: real, s: real, x: real, y: real, k: int, l: int, k': int, l': int, e: int)
    requires Near(c, COSINE, 2) && Near(s, SINE, 2) && Near(x, k, e) && Near(y, l, e) && e >= 20
    requires Continues(k, l, k', l')
    ensures Near(ImaginaryPart(x, y, c, s), l', 2 * e)
  {
    hide Near, Close;
    CloseProduct(x, s, k, SINE, e, MOST);
    CloseProduct(y, c, l, COSINE, e, HALF);
    Errors(e);
    var d, f := 2 * SCALE + e * HALF, 2 * SCALE + e * MOST;
    CloseSum(x * s, y * c, k * SINE, l * COSINE, f, d);
    Rescaled(x * s + y * c, k * SINE + l * COSINE, l', d + f, e);
  }

  /** Cosine and sine of n are within e of k and l. */
  predicate Turning(c: real, s: real, n: nat, k: int, l: int, e: int) {
    Near(CosineOf(c, s, n), k, e) && Near(SineOf(c, s, n), l, e)
  }

  /** The integer part of 2^32 * |sin(i + 1)| is the constant of step i. */
  predicate IsSine(c: real, s: real, i: nat)
    requires i < 64
  {
    Sine(i) as real <= 4294967296.0 * Abs(SineOf(c, s, i + 1)) < (Sine(i) + 1) as real
  }

  lemma FirstTurn(c: real, s: real)
    requires Near(c, COSINE, 2) && Near(s, SINE, 2)
    ensures Turning(c, s, 1, COSINE, SINE, 20)
  {
    assert CosineOf(c, s, 0) == 1.0 && SineOf(c, s, 0) == 0.0;
    assert CosineOf(c, s, 1) == c && SineOf(c, s, 1) == s;
  }

  lemma NextTurn(c: real, s: real, n: nat, k: int, l: int, e: int, k': int, l': int)
    requires Near(c, COSINE, 2) && Near(s, SINE, 2) && Turning(c, s, n, k, l, e) && e >= 20
    requires Continues(k, l, k', l')
    ensures Turning(c, s, n + 1, k', l', 2 * e)
  {
    hide Near, RealPart, ImaginaryPart;
    NextCosine(c, s, CosineOf(c, s, n), SineOf(c, s, n), k, l, k', l', e);
    NextSine(c, s, CosineOf(c, s, n), SineOf(c, s, n), k, l, k', l', e);
  }

  /** Whether l, give or take e, decides the constant of step i. */
  predicate Decides(i: nat, l: int, e: int)
    requires i < 64
  {
    var m := if l < 0 then -l else l;
    Sine(i) * SCALE <= 0x1_0000_0000 * (m - e) && 0x1_0000_0000 * (m + e) < (Sine(i) + 1) * SCALE
  }

  lemma DecidesSine(c: real, s: real, i: nat, k: int, l: int, e: int)
    requires i < 64 && Turning(c, s, i + 1, k, l, e) && 0 <= e && Decides(i, l, e)
    ensures IsSine(c, s, i)
  {
    hide Sine, SineOf, CosineOf;
  }

  lemma Rows0(c: real, s: real) returns (k: int, l: int)
    requires Near(c, COSINE, 2) && Near(s, SINE, 2)
    ensures forall i :: 0 <= i < 8 ==> IsSine(c, s, i)
    ensures k == -145500_033808_613525_868841_381831_194685 && l == 989358_246623_381777_808123_598245_288675
    ensures Turning(c, s, 8, k, l, 2560)
  {
    hide Near, IsSine, Turning;
    FirstTurn(c, s);
    DecidesSine(c, s, 0, COSINE, SINE, 20);
    var k1, l1 := -416146_836547_142386_997568_229500_762191, 909297_426825_681695_396019_865911_744843;
    NextTurn(c, s, 1, COSINE, SINE, 20, k1, l1);
    DecidesSine(c, s, 1, k1, l1, 40);
    var k2, l2 := -989992_496600_445457_271572_794731_261304, 141120_008059_867222_100744_802808_110279;
    NextTurn(c, s, 2, k1, l1, 40, k2, l2);
    DecidesSine(c, s, 2, k2, l2, 80);
    var k3, l3 := -653643_620863_611914_639168_183097_750382, -756802_495307_928251_372639_094511_829097;
    NextTurn(c, s, 3, k2, l2, 80, k3, l3);
    DecidesSine(c, s, 3, k3, l3, 160);
    var k4, l4 := 283662_185463_226264_466639_171513_557310, -958924_274663_138468_893154_406155_993976;
    NextTurn(c, s, 4, k3, l3, 160, k4, l4);
    DecidesSine(c, s, 4, k4, l4, 320);
    var k5, l5 := 960170_286650_366020_545652_297922_924409, -279415_498198_925872_811555_446611_894760;
    NextTurn(c, s, 5, k4, l4, 320, k5, l5);
    DecidesSine(c, s, 5, k5, l5, 640);
    var k6, l6 := 753902_254343_304638_141197_521719_182014, 656986_598718_789090_396999_091593_635181;
    NextTurn(c, s, 6, k5, l5, 640, k6, l6);
    DecidesSine(c, s, 6, k6, l6, 1280);
    var k7, l7 := -145500_033808_613525_868841_381831_194685, 989358_246623_381777_808123_598245_288675;
    NextTurn(c, s, 7, k6, l6, 1280, k7, l7);
    DecidesSine(c, s, 7, k7, l7, 2560);
    k, l := k7, l7;
  }

  lemma Rows1(c: real, s: real) returns (k: int, l: int)
    requires Near(c, COSINE, 2) && Near(s, SINE, 2)
    ensures forall i :: 8 <= i < 16 ==> IsSine(c, s, i)
    ensures k == -957659_480323_384641_899637_232651_103479 && l == -287903_316665_065294_784456_248218_617535
    ensures Turning(c, s, 16, k, l, 655360)
  {
    hide Near, IsSine, Turning;
    k, l := Rows0(c, s);
    var k8, l8 := -911130_261884_676988_368294_711181_165316, 412118_485241_756569_756272_566352_435179;
    NextTurn(c, s, 8, k, l, 2560, k8, l8);
    DecidesSine(c, s, 8, k8, l8, 5120);
    var k9, l9 := -839071_529076_452452_258863_947824_064838, -544021_110889_369813_404747_661851_377287;
    NextTurn(c, s, 9, k8, l8, 5120, k9, l9);
    DecidesSine(c, s, 9, k9, l9, 10240);
    var k10, l10 := 4425_697988_050785_748355_024723_941575, -999990_206550_703457_051564_899025_522114;
    NextTurn(c, s, 10, k9, l9, 10240, k10, l10);
    DecidesSine(c, s, 10, k10, l10, 20480);
    var k11, l11 := 843853_958732_492104_653955_293173_621790, -536572_918000_434971_665374_228242_401795;
    NextTurn(c, s, 11, k10, l10, 20480, k11, l11);
    DecidesSine(c, s, 11, k11, l11, 40960);
    var k12, l12 := 907446_781450_196213_852686_155474_475856, 420167_036826_640921_868955_035476_882792;
    NextTurn(c, s, 12, k11, l11, 40960, k12, l12);
    DecidesSine(c, s, 12, k12, l12, 81920);
    var k13, l13 := 136737_218207_833594_248928_876671_738240, 990607_355694_870307_875354_804014_585611;
    NextTurn(c, s, 13, k12, l12, 81920, k13, l13);
    DecidesSine(c, s, 13, k13, l13, 163840);
    var k14, l14 := -759687_912858_821273_848146_403633_280551, 650287_840157_116865_829740_270988_870328;
    NextTurn(c, s, 14, k13, l13, 163840, k14, l14);
    DecidesSine(c, s, 14, k14, l14, 327680);
    var k15, l15 := -957659_480323_384641_899637_232651_103479, -287903_316665_065294_784456_248218_617535;
    NextTurn(c, s, 15, k14, l14, 327680, k15, l15);
    DecidesSine(c, s, 15, k15, l15, 655360);
    k, l := k15, l15;
  }

  lemma Rows2(c: real, s: real) returns (k: int, l: int)
    requires Near(c, COSINE, 2) && Near(s, SINE, 2)
    ensures forall i :: 16 <= i < 24 ==> IsSine(c, s, i)
    ensures k == 424179_007336_996975_937050_944759_206485 && l == -905578_362006_623845_135793_358527_793334
    ensures Turning(c, s, 24, k, l, 167772160)
  {
    hide Near, IsSine, Turning;
    k, l := Rows1(c, s);
    var k16, l16 := -275163_338051_596922_220342_656551_862899, -961397_491879_556857_261636_944869_156108;
    NextTurn(c, s, 16, k, l, 655360, k16, l16);
    DecidesSine(c, s, 16, k16, l16, 1310720);
    var k17, l17 := 660316_708244_080144_816100_044790_450792, -750987_246771_676103_750156_084447_114538;
    NextTurn(c, s, 17, k16, l16, 1310720, k17, l17);
    DecidesSine(c, s, 17, k17, l17, 2621440);
    var k18, l18 := 988704_618186_669252_898352_856548_157278, 149877_209662_952329_754239_321238_253952;
    NextTurn(c, s, 18, k17, l17, 2621440, k18, l18);
    DecidesSine(c, s, 18, k18, l18, 5242880);
    var k19, l19 := 408082_061813_391986_062267_860927_644960, 912945_250727_627654_376099_983845_682311;
    NextTurn(c, s, 19, k18, l18, 5242880, k19, l19);
    DecidesSine(c, s, 19, k19, l19, 10485760);
    var k20, l20 := -547729_260224_268421_384271_132950_982016, 836655_638536_056031_866480_770245_023784;
    NextTurn(c, s, 20, k19, l19, 10485760, k20, l20);
    DecidesSine(c, s, 20, k20, l20, 20971520);
    var k21, l21 := -999960_826394_637126_454174_739212_693786, -8851_309290_403875_921690_256815_772334;
    NextTurn(c, s, 21, k20, l20, 20971520, k21, l21);
    DecidesSine(c, s, 21, k21, l21, 41943040);
    var k22, l22 := -532833_020333_397555_215757_657164_125809, -846220_404175_170635_241326_271905_595939;
    NextTurn(c, s, 22, k21, l21, 41943040, k22, l22);
    DecidesSine(c, s, 22, k22, l22, 83886080);
    var k23, l23 := 424179_007336_996975_937050_944759_206485, -905578_362006_623845_135793_358527_793334;
    NextTurn(c, s, 23, k22, l22, 83886080, k23, l23);
    DecidesSine(c, s, 23, k23, l23, 167772160);
    k, l := k23, l23;
  }

  lemma Rows3(c: real, s: real) returns (k: int, l: int)
    requires Near(c, COSINE, 2) && Near(s, SINE, 2)
    ensures forall i :: 24 <= i < 32 ==> IsSine(c, s, i)
    ensures k == 834223_360506_510272_215526_470870_292321 && l == 551426_681241_690550_661558_166845_712823
    ensures Turning(c, s, 32, k, l, 42949672960)
  {
    hide Near, IsSine, Turning;
    k, l := Rows2(c, s);
    var k24, l24 := 991202_811863_473598_083294_718815_924210, -132351_750097_773028_902005_093883_606303;
    NextTurn(c, s, 24, k, l, 167772160, k24, l24);
    DecidesSine(c, s, 24, k24, l24, 335544320);
    var k25, l25 := 646919_322328_640342_721383_901888_901611, 762558_450479_602737_515823_293204_562983;
    NextTurn(c, s, 25, k24, l24, 335544320, k25, l25);
    DecidesSine(c, s, 25, k25, l25, 671088640);
    var k26, l26 := -292138_808733_836193_371404_835837_629916, 956375_928404_503013_432340_558329_192963;
    NextTurn(c, s, 26, k25, l25, 671088640, k26, l26);
    DecidesSine(c, s, 26, k26, l26, 1342177280);
    var k27, l27 := -962605_866313_566601_975453_057899_308864, 270905_788307_869019_986343_092778_792537;
    NextTurn(c, s, 27, k26, l26, 1342177280, k27, l27);
    DecidesSine(c, s, 27, k27, l27, 2684354560);
    var k28, l28 := -748057_529689_000351_765191_792255_140814, -663633_884212_967502_151173_340061_105161;
    NextTurn(c, s, 28, k27, l27, 2684354560, k28, l28);
    DecidesSine(c, s, 28, k28, l28, 5368709120);
    var k29, l29 := 154251_449887_584050_718662_146614_210198, -988031_624092_861789_987748_907294_458166;
    NextTurn(c, s, 29, k28, l28, 5368709120, k29, l29);
    DecidesSine(c, s, 29, k29, l29, 10737418240);
    var k30, l30 := 914742_357804_531278_962435_826150_354780, -404037_645323_065006_048770_899664_237206;
    NextTurn(c, s, 30, k29, l29, 10737418240, k30, l30);
    DecidesSine(c, s, 30, k30, l30, 21474836480);
    var k31, l31 := 834223_360506_510272_215526_470870_292321, 551426_681241_690550_661558_166845_712823;
    NextTurn(c, s, 31, k30, l30, 21474836480, k31, l31);
    DecidesSine(c, s, 31, k31, l31, 42949672960);
    k, l := k31, l31;
  }

  lemma Rows4(c: real, s: real) returns (k: int, l: int)
    requires Near(c, COSINE, 2) && Near(s, SINE, 2)
    ensures forall i :: 32 <= i < 40 ==> IsSine(c, s, i)
    ensures k == -666938_061652_261844_384092_781933_700000 && l == 745113_160479_348786_987709_402636_344358
    ensures Turning(c, s, 40, k, l, 10995116277760)
  {
    hide Near, IsSine, Turning;
    k, l := Rows3(c, s);
    var k32, l32 := -13276_747223_059478_915220_031371_007038, 999911_860107_267145_728084_376707_828330;
    NextTurn(c, s, 32, k, l, 42949672960, k32, l32);
    DecidesSine(c, s, 32, k32, l32, 85899345920);
    var k33, l33 := -848570_274784_605186_599972_087712_383173, 529082_686120_023820_832487_134032_104763;
    NextTurn(c, s, 33, k32, l32, 85899345920, k33, l33);
    DecidesSine(c, s, 33, k33, l33, 171798691840);
    var k34, l34 := -903692_205091_506759_847304_572083_770569, -428182_669496_151004_406752_891745_940673;
    NextTurn(c, s, 34, k33, l33, 171798691840, k34, l34);
    DecidesSine(c, s, 34, k34, l34, 343597383680);
    var k35, l35 := -127963_689627_404681_028327_977914_371216, -991778_853443_115736_835288_968840_815797;
    NextTurn(c, s, 35, k34, l34, 343597383680, k35, l35);
    DecidesSine(c, s, 35, k35, l35, 687194767360);
    var k36, l36 := 765414_051945_343356_491081_292902_511714, -643538_133356_999460_685670_019080_795555;
    NextTurn(c, s, 36, k35, l35, 687194767360, k36, l36);
    DecidesSine(c, s, 36, k36, l36, 1374389534720);
    var k37, l37 := 955073_644047_294857_586536_235405_876973, 296368_578709_385317_392296_649849_017325;
    NextTurn(c, s, 37, k36, l36, 1374389534720, k37, l37);
    DecidesSine(c, s, 37, k37, l37, 2748779069440);
    var k38, l38 := 266642_932359_937251_526825_794975_632759, 963795_386284_087753_260664_971765_882133;
    NextTurn(c, s, 38, k37, l37, 2748779069440, k38, l38);
    DecidesSine(c, s, 38, k38, l38, 5497558138880);
    var k39, l39 := -666938_061652_261844_384092_781933_700000, 745113_160479_348786_987709_402636_344358;
    NextTurn(c, s, 39, k38, l38, 5497558138880, k39, l39);
    DecidesSine(c, s, 39, k39, l39, 10995116277760);
    k, l := k39, l39;
  }

  lemma Rows5(c: real, s: real) returns (k: int, l: int)
    requires Near(c, COSINE, 2) && Near(s, SINE, 2)
    ensures forall i :: 40 <= i < 48 ==> IsSine(c, s, i)
    ensures k == -640144_339469_199731_312941_419393_077197 && l == -768254_661323_666799_044965_664845_893515
    ensures Turning(c, s, 48, k, l, 2814749767106560)
  {
    hide Near, IsSine, Turning;
    k, l := Rows4(c, s);
    var k40, l40 := -987339_277523_826458_228825_133414_827659, -158622_668804_708987_103317_011929_687034;
    NextTurn(c, s, 40, k, l, 10995116277760, k40, l40);
    DecidesSine(c, s, 40, k40, l40, 21990232555520);
    var k41, l41 := -399985_314988_351293_954707_337177_202039, -916521_547915_633785_898989_158069_671522;
    NextTurn(c, s, 41, k40, l40, 21990232555520, k41, l41);
    DecidesSine(c, s, 41, k41, l41, 43980465111040);
    var k42, l42 := 555113_301520_625677_044879_441962_591976, -831774_742628_598288_209578_256291_752261;
    NextTurn(c, s, 42, k41, l41, 43980465111040, k42, l42);
    DecidesSine(c, s, 42, k42, l42, 87960930222080);
    var k43, l43 := 999843_308647_691220_069009_016637_856055, 17701_925105_413577_807954_053166_616697;
    NextTurn(c, s, 43, k42, l42, 87960930222080, k43, l43);
    DecidesSine(c, s, 43, k43, l43, 175921860444160);
    var k44, l44 := 525321_988817_729696_047464_404823_562933, 850903_524534_118424_862379_677618_041138;
    NextTurn(c, s, 44, k43, l43, 175921860444160, k44, l44);
    DecidesSine(c, s, 44, k44, l44, 351843720888320);
    var k45, l45 := -432177_944884_778294_952776_524132_768508, 901788_347648_809185_033293_039222_738591;
    NextTurn(c, s, 45, k44, l44, 351843720888320, k45, l45);
    DecidesSine(c, s, 45, k45, l45, 703687441776640);
    var k46, l46 := -992335_469150_928718_279752_420344_862183, 123573_122745_224004_061529_348086_410552;
    NextTurn(c, s, 46, k45, l45, 703687441776640, k46, l46);
    DecidesSine(c, s, 46, k46, l46, 1407374883553280);
    var k47, l47 := -640144_339469_199731_312941_419393_077197, -768254_661323_666799_044965_664845_893515;
    NextTurn(c, s, 47, k46, l46, 1407374883553280, k47, l47);
    DecidesSine(c, s, 47, k47, l47, 2814749767106560);
    k, l := k47, l47;
  }

  lemma Rows6(c: real, s: real) returns (k: int, l: int)
    requires Near(c, COSINE, 2) && Near(s, SINE, 2)
    ensures forall i :: 48 <= i < 56 ==> IsSine(c, s, i)
    ensures k == 853220_107722_584113_969681_233914_913777 && l == -521551_002086_911880_187410_021510_600555
    ensures Turning(c, s, 56, k, l, 720575940379279360)
  {
    hide Near, IsSine, Turning;
    k, l := Rows5(c, s);
    var k48, l48 := 300592_543743_637083_687026_000490_561385, -953752_652759_471818_360423_558587_710622;
    NextTurn(c, s, 48, k, l, 2814749767106560, k48, l48);
    DecidesSine(c, s, 48, k48, l48, 5629499534213120);
    var k49, l49 := 964966_028492_113274_068957_058901_017018, -262374_853703_928785_914393_646912_622555;
    NextTurn(c, s, 49, k48, l48, 5629499534213120, k49, l49);
    DecidesSine(c, s, 49, k49, l49, 11258999068426240);
    var k50, l50 := 742154_196813_782539_467377_175736_955971, 670229_175843_374734_494345_074950_666825;
    NextTurn(c, s, 50, k49, l49, 11258999068426240, k50, l50);
    DecidesSine(c, s, 50, k50, l50, 22517998136852480);
    var k51, l51 := -162990_780795_705481_003329_815425_211689, 986627_592040_485296_587568_934436_740139;
    NextTurn(c, s, 51, k50, l50, 22517998136852480, k51, l51);
    DecidesSine(c, s, 51, k51, l51, 45035996273704960);
    var k52, l52 := -918282_786212_118891_199726_323216_472114, 395925_150181_834181_503386_139263_539285;
    NextTurn(c, s, 52, k51, l51, 45035996273704960, k52, l52);
    DecidesSine(c, s, 52, k52, l52, 90071992547409920);
    var k53, l53 := -829309_832863_150147_727850_042488_168747, -558789_048851_616245_817871_318965_393813;
    NextTurn(c, s, 53, k52, l52, 90071992547409920, k53, l53);
    DecidesSine(c, s, 53, k53, l53, 180143985094819840);
    var k54, l54 := 22126_756261_955734_563564_262146_626501, -999755_173358_619836_598631_683243_892230;
    NextTurn(c, s, 54, k53, l53, 180143985094819840, k54, l54);
    DecidesSine(c, s, 54, k54, l54, 360287970189639680);
    var k55, l55 := 853220_107722_584113_969681_233914_913777, -521551_002086_911880_187410_021510_600555;
    NextTurn(c, s, 55, k54, l54, 360287970189639680, k55, l55);
    DecidesSine(c, s, 55, k55, l55, 720575940379279360);
    k, l := k55, l55;
  }

  lemma Rows7(c: real, s: real) returns (k: int, l: int)
    requires Near(c, COSINE, 2) && Near(s, SINE, 2)
    ensures forall i :: 56 <= i < 64 ==> IsSine(c, s, i)
    ensures k == 391857_230429_550005_161709_858513_122957 && l == 920026_038196_790683_351536_603777_251897
    ensures Turning(c, s, 64, k, l, 184467440737095516160)
  {
    hide Near, IsSine, Turning;
    k, l := Rows6(c, s);
    var k56, l56 := 899866_826969_193786_503000_404657_835135, 436164_755247_824959_080534_793129_243501;
    NextTurn(c, s, 56, k, l, 720575940379279360, k56, l56);
    DecidesSine(c, s, 56, k56, l56, 1441151880758558720);
    var k57, l57 := 119180_135448_819285_435843_610766_963927, 992872_648084_537118_165088_164425_399849;
    NextTurn(c, s, 57, k56, l56, 1441151880758558720, k57, l57);
    DecidesSine(c, s, 57, k57, l57, 2882303761517117440);
    var k58, l58 := -771080_222975_845229_387435_296376_289217, 636738_007139_137880_771233_492376_829403;
    NextTurn(c, s, 58, k57, l57, 2882303761517117440, k58, l58);
    DecidesSine(c, s, 58, k58, l58, 5764607523034234880);
    var k59, l59 := -952412_980415_156292_693816_595992_933328, -304810_621102_216705_625649_465478_425851;
    NextTurn(c, s, 59, k58, l58, 5764607523034234880, k59, l59);
    DecidesSine(c, s, 59, k59, l59, 11529215046068469760);
    var k60, l60 := -258101_635938_267445_701207_347152_754045, -966117_770008_392947_018287_989480_518184;
    NextTurn(c, s, 60, k59, l59, 11529215046068469760, k60, l60);
    DecidesSine(c, s, 60, k60, l60, 23058430092136939520);
    var k61, l61 := 673507_162323_586252_887833_405953_936513, -739180_696649_222867_276016_933755_436660;
    NextTurn(c, s, 61, k60, l60, 23058430092136939520, k61, l61);
    DecidesSine(c, s, 61, k61, l61, 46116860184273879040);
    var k62, l62 := 985896_581582_549697_438635_756053_977189, 167355_700302_806921_527838_370288_718033;
    NextTurn(c, s, 62, k61, l61, 46116860184273879040, k62, l62);
    DecidesSine(c, s, 62, k62, l62, 92233720368547758080);
    var k63, l63 := 391857_230429_550005_161709_858513_122957, 920026_038196_790683_351536_603777_251897;
    NextTurn(c, s, 63, k62, l62, 92233720368547758080, k63, l63);
    DecidesSine(c, s, 63, k63, l63, 184467440737095516160);
    k, l := k63, l63;
  }

  lemma AllRows(c: real, s: real)
    requires Near(c, COSINE, 2) && Near(s, SINE, 2)
    ensures forall i :: 0 <= i < 64 ==> IsSine(c, s, i)
  {
    hide *;
    var _, _ := Rows0(c, s);
    var _, _ := Rows1(c, s);
    var _, _ := Rows2(c, s);
    var _, _ := Rows3(c, s);
    var _, _ := Rows4(c, s);
    var _, _ := Rows5(c, s);
    var _, _ := Rows6(c, s);
    var _, _ := Rows7(c, s);
  }

  lemma IntegerPart(c: real, s: real, i: nat)
    requires i < 64 && IsSine(c, s, i)
    ensures Sine(i) == (4294967296.0 * Abs(SineOf(c, s, i + 1))).Floor
  {
    hide Sine, SineOf;
  }

  /** Main result: every constant of the table is the integer part of 2^32 * |sin(i + 1)|. */
  lemma ConstantsAreSines(c: real, s: real, i: nat)
    requires Encloses(0, c) && Encloses(1, s) && i < 64
    ensures Sine(i) == (4294967296.0 * Abs(SineOf(c, s, i + 1))).Floor
  {
    CosineOfOne(c);
    SineOfOne(s);
    hide *;
    AllRows(c, s);
    IntegerPart(c, s, i);
  }
}
