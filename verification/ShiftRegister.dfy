/**
 Linear shift registers over exclusive or, independent of their width.

 A register absorbs a message bit by bit: the bit is added to the register, then the register is
 shifted. What a checksum built this way can and cannot detect follows from the linearity and the
 invertibility of one shift; `Machine` bundles the operations and `Lawful` those two facts.
 */
module ShiftRegister {

  datatype Machine<!T> = Machine(add: (T, T) -> T, zero: T, one: T, step: T -> T, back: T -> T)

  ghost predicate Regroups<T>(m: Machine<T>, x: T, y: T, z: T) {
    m.add(m.add(x, y), z) == m.add(x, m.add(y, z))
  }

  ghost predicate Commutes<T>(m: Machine<T>, x: T, y: T) {
    m.add(x, y) == m.add(y, x)
  }

  ghost predicate SelfInverse<T>(m: Machine<T>, x: T) {
    m.add(x, x) == m.zero && m.add(x, m.zero) == x
  }

  ghost predicate StepDistributes<T>(m: Machine<T>, x: T, y: T) {
    m.step(m.add(x, y)) == m.add(m.step(x), m.step(y))
  }

  ghost predicate StepInverts<T>(m: Machine<T>, x: T) {
    m.back(m.step(x)) == x && m.step(m.back(x)) == x
  }

  // Each law has a name, so that a proof uses only the instances it names.
  ghost predicate Lawful<T(!new)>(m: Machine<T>) {
    && (forall x, y, z :: Regroups(m, x, y, z))
    && (forall x, y :: Commutes(m, x, y))
    && (forall x :: SelfInverse(m, x))
    && (forall x, y :: StepDistributes(m, x, y))
    && (forall x :: StepInverts(m, x))
  }

  /** `n` shifts without input. */
  function Shifts<T>(m: Machine<T>, r: T, n: nat): T
    decreases n
  {
    if n == 0 then r else Shifts(m, m.step(r), n - 1)
  }

  function Input<T>(m: Machine<T>, bit: bool): T {
    if bit then m.one else m.zero
  }

  /** The register after a message, first bit first. */
  function Feed<T>(m: Machine<T>, r: T, bits: seq<bool>): T
    decreases |bits|
  {
    if bits == [] then r else Feed(m, m.step(m.add(r, Input(m, bits[0]))), bits[1..])
  }

  /** Where two messages of one length differ. */
  function Difference(a: seq<bool>, b: seq<bool>): (d: seq<bool>)
    requires |a| == |b|
    ensures |d| == |a|
  {
    seq(|a|, i requires 0 <= i < |a| => a[i] != b[i])
  }

  function Zeros(n: nat): seq<bool> {
    seq(n, i => false)
  }

  function CountOnes(bits: seq<bool>): nat {
    if bits == [] then 0 else (if bits[0] then 1 else 0) + CountOnes(bits[1..])
  }

  /** The bits of a value, given how to read one and how to drop it. */
  function Digits<T>(odd: T -> bool, half: T -> T, r: T, n: nat): (bits: seq<bool>)
    ensures |bits| == n
    decreases n, r
  {
    if n == 0 then [] else [odd(r)] + Digits(odd, half, half(r), n - 1)
  }

  function Halved<T>(half: T -> T, r: T, n: nat): T
    decreases n
  {
    if n == 0 then r else Halved(half, half(r), n - 1)
  }

  ghost predicate DigitAdds<T>(odd: T -> bool, half: T -> T, isSum: (T, T, T) -> bool, a: T, b: T, c: T) {
    isSum(a, b, c) ==> odd(c) == (odd(a) != odd(b)) && isSum(half(a), half(b), half(c))
  }

  /** Digits add without carry if reading and dropping one do. */
  lemma {:induction false} DigitsAdd<T(!new)>(odd: T -> bool, half: T -> T, isSum: (T, T, T) -> bool,
                                              a: T, b: T, c: T, n: nat)
    requires forall x, y, z :: DigitAdds(odd, half, isSum, x, y, z)
    requires isSum(a, b, c)
    ensures Digits(odd, half, c, n) == Difference(Digits(odd, half, a, n), Digits(odd, half, b, n))
    decreases n
  {
    if n > 0 {
      assert DigitAdds(odd, half, isSum, a, b, c);
      DigitsAdd(odd, half, isSum, half(a), half(b), half(c), n - 1);
    }
  }

  lemma {:induction false} DigitsSnoc<T>(odd: T -> bool, half: T -> T, r: T, n: nat)
    ensures Digits(odd, half, r, n + 1) == Digits(odd, half, r, n) + [odd(Halved(half, r, n))]
    decreases n
  {
    if n > 0 {
      DigitsSnoc(odd, half, half(r), n - 1);
    }
  }

  lemma {:induction false} HalvedCompose<T>(half: T -> T, r: T, j: nat, k: nat)
    ensures Halved(half, r, j + k) == Halved(half, Halved(half, r, j), k)
    decreases j
  {
    if j > 0 {
      HalvedCompose(half, half(r), j - 1, k);
    }
  }

  // ---------- Shifts ----------

  lemma ZeroStaysZero<T(!new)>(m: Machine<T>)
    requires Lawful(m)
    ensures m.step(m.zero) == m.zero
  {
    assert SelfInverse(m, m.zero) && SelfInverse(m, m.step(m.zero)) && StepDistributes(m, m.zero, m.zero);
  }

  lemma {:induction false} ShiftsCompose<T>(m: Machine<T>, r: T, j: nat, k: nat)
    ensures Shifts(m, r, j + k) == Shifts(m, Shifts(m, r, j), k)
    decreases j
  {
    if j > 0 {
      ShiftsCompose(m, m.step(r), j - 1, k);
    }
  }

  lemma {:induction false} ShiftsInjective<T(!new)>(m: Machine<T>, r: T, s: T, n: nat)
    requires Lawful(m)
    requires Shifts(m, r, n) == Shifts(m, s, n)
    ensures r == s
    decreases n
  {
    if n > 0 {
      ShiftsInjective(m, m.step(r), m.step(s), n - 1);
      assert StepInverts(m, r) && StepInverts(m, s);
    }
  }

  lemma {:induction false} ShiftsOfZero<T(!new)>(m: Machine<T>, n: nat)
    requires Lawful(m)
    ensures Shifts(m, m.zero, n) == m.zero
    decreases n
  {
    ZeroStaysZero(m);
    if n > 0 {
      ShiftsOfZero(m, n - 1);
    }
  }

  lemma {:induction false} ShiftsLinear<T(!new)>(m: Machine<T>, r: T, s: T, n: nat)
    requires Lawful(m)
    ensures Shifts(m, m.add(r, s), n) == m.add(Shifts(m, r, n), Shifts(m, s, n))
    decreases n
  {
    if n > 0 {
      assert StepDistributes(m, r, s);
      ShiftsLinear(m, m.step(r), m.step(s), n - 1);
    }
  }

  /** Shifting never loses a difference. */
  lemma ShiftsKeepNonzero<T(!new)>(m: Machine<T>, r: T, n: nat)
    requires Lawful(m)
    ensures Shifts(m, r, n) == m.zero <==> r == m.zero
  {
    ShiftsOfZero(m, n);
    if Shifts(m, r, n) == m.zero {
      ShiftsInjective(m, r, m.zero, n);
    }
  }

  // ---------- Messages ----------

  lemma {:induction false} FeedAppend<T>(m: Machine<T>, r: T, a: seq<bool>, b: seq<bool>)
    ensures Feed(m, r, a + b) == Feed(m, Feed(m, r, a), b)
    decreases |a|
  {
    if a == [] {
      assert a + b == b;
    } else {
      assert (a + b)[1..] == a[1..] + b;
      FeedAppend(m, m.step(m.add(r, Input(m, a[0]))), a[1..], b);
    }
  }

  lemma {:induction false} FeedZeros<T(!new)>(m: Machine<T>, r: T, n: nat)
    requires Lawful(m)
    ensures Feed(m, r, Zeros(n)) == Shifts(m, r, n)
    decreases n
  {
    if n > 0 {
      assert Zeros(n)[1..] == Zeros(n - 1);
      assert SelfInverse(m, r);
      FeedZeros(m, m.step(r), n - 1);
    }
  }

  lemma AddSwap<T(!new)>(m: Machine<T>, a: T, b: T, c: T, d: T)
    requires Lawful(m)
    ensures m.add(m.add(a, b), m.add(c, d)) == m.add(m.add(a, c), m.add(b, d))
  {
    assert Regroups(m, a, b, m.add(c, d)) && Regroups(m, a, c, m.add(b, d));
    assert Regroups(m, b, c, d) && Commutes(m, b, c) && Regroups(m, c, b, d);
  }

  lemma StepDifference<T(!new)>(m: Machine<T>, r: T, s: T, p: bool, q: bool)
    requires Lawful(m)
    ensures m.add(m.step(m.add(r, Input(m, p))), m.step(m.add(s, Input(m, q))))
         == m.step(m.add(m.add(r, s), Input(m, p != q)))
  {
    var x, y := Input(m, p), Input(m, q);
    AddSwap(m, r, x, s, y);
    assert SelfInverse(m, x) && SelfInverse(m, y) && Commutes(m, x, y);
    assert m.add(x, y) == Input(m, p != q);
    assert StepDistributes(m, m.add(r, x), m.add(s, y));
  }

  /** Superposition: the registers of two messages differ by the register of their difference. */
  lemma {:induction false} FeedDifference<T(!new)>(m: Machine<T>, r: T, s: T, a: seq<bool>, b: seq<bool>)
    requires Lawful(m)
    requires |a| == |b|
    ensures m.add(Feed(m, r, a), Feed(m, s, b)) == Feed(m, m.add(r, s), Difference(a, b))
    decreases |a|
  {
    if a != [] {
      StepDifference(m, r, s, a[0], b[0]);
      FeedDifference(m, m.step(m.add(r, Input(m, a[0]))), m.step(m.add(s, Input(m, b[0]))), a[1..], b[1..]);
      assert Difference(a, b)[1..] == Difference(a[1..], b[1..]);
    }
  }

  /** Two messages leave the same register exactly when their difference leaves none. */
  lemma UndetectedIffDifferenceVanishes<T(!new)>(m: Machine<T>, r: T, a: seq<bool>, b: seq<bool>)
    requires Lawful(m)
    requires |a| == |b|
    ensures Feed(m, r, a) == Feed(m, r, b) <==> Feed(m, m.zero, Difference(a, b)) == m.zero
  {
    FeedDifference(m, r, r, a, b);
    var x, y := Feed(m, r, a), Feed(m, r, b);
    assert SelfInverse(m, r) && SelfInverse(m, x) && SelfInverse(m, y);
    if m.add(x, y) == m.zero {
      assert Regroups(m, x, y, y) && Commutes(m, m.zero, y);
    }
  }

  /** A message up to the width of the register, as the one register value it amounts to. */
  function Pack<T>(m: Machine<T>, bits: seq<bool>): T {
    if bits == [] then m.zero else m.add(Input(m, bits[0]), m.back(Pack(m, bits[1..])))
  }

  /** Bit by bit is the same as all at once. */
  lemma {:induction false} FeedIsPackThenShift<T(!new)>(m: Machine<T>, r: T, bits: seq<bool>)
    requires Lawful(m)
    ensures Feed(m, r, bits) == Shifts(m, m.add(r, Pack(m, bits)), |bits|)
    decreases |bits|
  {
    if bits != [] {
      var x, p := Input(m, bits[0]), Pack(m, bits[1..]);
      FeedIsPackThenShift(m, m.step(m.add(r, x)), bits[1..]);
      assert Regroups(m, r, x, m.back(p)) && StepInverts(m, p);
      assert StepDistributes(m, m.add(r, x), m.back(p));
    } else {
      assert SelfInverse(m, r);
    }
  }

  /** A burst: zeros, an arbitrary window, zeros. It vanishes only if the window packs to nothing. */
  lemma BurstVanishesIffPackIsZero<T(!new)>(m: Machine<T>, before: nat, window: seq<bool>, after: nat)
    requires Lawful(m)
    ensures Feed(m, m.zero, Zeros(before) + window + Zeros(after)) == m.zero <==> Pack(m, window) == m.zero
  {
    var p := Pack(m, window);
    FeedAppend(m, m.zero, Zeros(before) + window, Zeros(after));
    FeedAppend(m, m.zero, Zeros(before), window);
    FeedZeros(m, m.zero, before);
    ShiftsOfZero(m, before);
    FeedIsPackThenShift(m, m.zero, window);
    assert Commutes(m, m.zero, p) && SelfInverse(m, p);
    ShiftsKeepNonzero(m, p, |window|);
    FeedZeros(m, Feed(m, m.zero, window), after);
    ShiftsKeepNonzero(m, Feed(m, m.zero, window), after);
  }

  /** Two flipped bits `gap` apart cancel exactly when `gap` shifts bring the single bit back. */
  lemma TwoBitsVanishIffPeriod<T(!new)>(m: Machine<T>, before: nat, gap: nat, after: nat)
    requires Lawful(m)
    requires gap > 0
    ensures Feed(m, m.zero, Zeros(before) + ([true] + Zeros(gap - 1) + [true]) + Zeros(after)) == m.zero
       <==> Shifts(m, m.one, gap) == m.one
  {
    var window := [true] + Zeros(gap - 1) + [true];
    BurstVanishesIffPackIsZero(m, before, window, after);
    FeedIsPackThenShift(m, m.zero, window);
    assert Commutes(m, m.zero, Pack(m, window)) && SelfInverse(m, Pack(m, window));
    ShiftsKeepNonzero(m, Pack(m, window), |window|);
    FeedAppend(m, m.zero, [true] + Zeros(gap - 1), [true]);
    FeedAppend(m, m.zero, [true], Zeros(gap - 1));
    assert Commutes(m, m.zero, m.one) && SelfInverse(m, m.one);
    var s := m.step(m.one);
    assert Feed(m, m.zero, [true]) == Feed(m, s, [true][1..]) == s;
    FeedZeros(m, s, gap - 1);
    var t := Shifts(m, s, gap - 1);
    assert t == Shifts(m, m.one, gap);
    assert Feed(m, t, [true]) == Feed(m, m.step(m.add(t, m.one)), [true][1..]) == m.step(m.add(t, m.one));
    assert Shifts(m, m.add(t, m.one), 1) == m.step(m.add(t, m.one));
    ShiftsKeepNonzero(m, m.add(t, m.one), 1);
    if m.add(t, m.one) == m.zero {
      assert Regroups(m, t, m.one, m.one) && SelfInverse(m, t);
    }
  }

  /** A shift-invariant parity of the register counts the ones of the message. */
  lemma {:induction false} FeedParity<T(!new)>(m: Machine<T>, parity: T -> bool, r: T, bits: seq<bool>)
    requires forall x, y :: parity(m.add(x, y)) == (parity(x) != parity(y))
    requires forall x :: parity(m.step(x)) == parity(x)
    requires parity(m.one) && !parity(m.zero)
    ensures parity(Feed(m, r, bits)) == (parity(r) != (CountOnes(bits) % 2 == 1))
    decreases |bits|
  {
    if bits != [] {
      FeedParity(m, parity, m.step(m.add(r, Input(m, bits[0]))), bits[1..]);
    }
  }

  // ---------- Counting ones ----------

  predicate OddOnes(bits: seq<bool>) {
    CountOnes(bits) % 2 == 1
  }

  lemma {:induction false} CountOnesOfDifference(a: seq<bool>, b: seq<bool>)
    requires |a| == |b|
    ensures CountOnes(Difference(a, b)) % 2 == (CountOnes(a) + CountOnes(b)) % 2
    decreases |a|
  {
    if a != [] {
      CountOnesOfDifference(a[1..], b[1..]);
      assert Difference(a, b)[1..] == Difference(a[1..], b[1..]);
    }
  }

  lemma OddOnesOfDifference(a: seq<bool>, b: seq<bool>)
    requires |a| == |b|
    ensures OddOnes(Difference(a, b)) == (OddOnes(a) != OddOnes(b))
  {
    CountOnesOfDifference(a, b);
  }

  lemma {:induction false} CountOnesPadded(bits: seq<bool>)
    ensures CountOnes(bits + [false]) == CountOnes(bits)
    decreases |bits|
  {
    if bits != [] {
      assert (bits + [false])[1..] == bits[1..] + [false];
      CountOnesPadded(bits[1..]);
    }
  }

  lemma {:induction false} CountOnesOfZeros(n: nat)
    ensures CountOnes(Zeros(n)) == 0
    decreases n
  {
    if n > 0 {
      assert Zeros(n)[1..] == Zeros(n - 1);
      CountOnesOfZeros(n - 1);
    }
  }

  /** A bit representation in which a shift drops the first bit and, if it was set, adds a pattern. */
  ghost predicate ShiftsAs(bits: seq<bool>, shifted: seq<bool>, pattern: seq<bool>) {
    && |bits| == |shifted| == |pattern| > 0
    && shifted == if bits[0] then Difference(bits[1..] + [false], pattern) else bits[1..] + [false]
  }

  lemma OnesMoved(bits: seq<bool>)
    requires bits != []
    ensures OddOnes(bits[1..] + [false]) == (OddOnes(bits) != bits[0])
  {
    CountOnesPadded(bits[1..]);
  }

  /** A one that falls out brings in a pattern with an odd number of them. */
  lemma ShiftKeepsOddOnes(bits: seq<bool>, shifted: seq<bool>, pattern: seq<bool>)
    requires ShiftsAs(bits, shifted, pattern) && OddOnes(pattern)
    ensures OddOnes(shifted) == OddOnes(bits)
  {
    OnesMoved(bits);
    if bits[0] {
      OddOnesOfDifference(bits[1..] + [false], pattern);
    }
  }

  /** A message whose ones all lie in one stretch. */
  lemma WindowOf(d: seq<bool>, start: nat, end: nat)
    requires start <= end <= |d|
    requires forall j :: 0 <= j < |d| && !(start <= j < end) ==> !d[j]
    ensures d == Zeros(start) + d[start..end] + Zeros(|d| - end)
  {
  }

  lemma TwoOnes(d: seq<bool>, i: nat, j: nat)
    requires i < j < |d| && forall k :: 0 <= k < |d| ==> (d[k] <==> k == i || k == j)
    ensures d == Zeros(i) + ([true] + Zeros(j - i - 1) + [true]) + Zeros(|d| - j - 1)
  {
  }

  /** It vanishes only if the stretch packs to nothing. */
  lemma WindowVanishesIff<T(!new)>(m: Machine<T>, d: seq<bool>, start: nat, end: nat)
    requires Lawful(m) && start <= end <= |d|
    requires forall j :: 0 <= j < |d| && !(start <= j < end) ==> !d[j]
    ensures Feed(m, m.zero, d) == m.zero <==> Pack(m, d[start..end]) == m.zero
  {
    WindowOf(d, start, end);
    BurstVanishesIffPackIsZero(m, start, d[start..end], |d| - end);
  }

  /** A message of two ones vanishes exactly when their distance is a period. */
  lemma TwoOnesVanishIff<T(!new)>(m: Machine<T>, d: seq<bool>, i: nat, j: nat)
    requires Lawful(m) && i < j < |d| && forall k :: 0 <= k < |d| ==> (d[k] <==> k == i || k == j)
    ensures Feed(m, m.zero, d) == m.zero <==> Shifts(m, m.one, j - i) == m.one
  {
    TwoOnes(d, i, j);
    TwoBitsVanishIffPeriod(m, i, j - i, |d| - j - 1);
  }

  lemma SplitsAgree(a: seq<bool>, b: seq<bool>, c: seq<bool>, d: seq<bool>)
    requires |a| == |c| && a + b == c + d
    ensures a == c && b == d
  {
    assert a == (a + b)[..|a|] && c == (c + d)[..|c|];
    assert b == (a + b)[|a|..] && d == (c + d)[|c|..];
  }

  // ---------- Periods ----------

  lemma {:induction false} MultiplesOfAPeriod<T>(m: Machine<T>, u: T, p: nat, k: nat)
    requires Shifts(m, u, p) == u
    ensures Shifts(m, u, k * p) == u
    decreases k
  {
    if k > 0 {
      assert k * p == p + (k - 1) * p;
      ShiftsCompose(m, u, p, (k - 1) * p);
      MultiplesOfAPeriod(m, u, p, k - 1);
    } else {
      assert k * p == 0;
    }
  }

  lemma RemainderOfPeriods<T>(m: Machine<T>, u: T, n: nat, p: nat)
    requires p > 0
    requires Shifts(m, u, n) == u && Shifts(m, u, p) == u
    ensures Shifts(m, u, n % p) == u
  {
    MultiplesOfAPeriod(m, u, p, n / p);
    assert n == (n / p) * p + n % p;
    ShiftsCompose(m, u, (n / p) * p, n % p);
  }

  /** Frobenius: if a map that doubles exponents fixes `u`, it maps the n-th shift to the 2n-th. */
  lemma {:induction false} DoubledShifts<T(!new)>(m: Machine<T>, square: T -> T, u: T, n: nat)
    requires forall x :: square(m.step(x)) == m.step(m.step(square(x)))
    ensures Shifts(m, square(u), 2 * n) == square(Shifts(m, u, n))
    decreases n
  {
    if n > 0 {
      DoubledShifts(m, square, m.step(u), n - 1);
      assert Shifts(m, square(u), 2 * n) == Shifts(m, m.step(m.step(square(u))), 2 * n - 2);
    }
  }

  function Chosen<T>(m: Machine<T>, bit: bool, image: T): T {
    if bit then image else m.zero
  }

  /** The sum of the images of the set bits, each image two shifts back from the one before. */
  function Combine<T>(m: Machine<T>, bits: seq<bool>, image: T): T {
    if bits == [] then m.zero
    else m.add(Chosen(m, bits[0], image), Combine(m, bits[1..], m.back(m.back(image))))
  }

  lemma ChosenDifference<T(!new)>(m: Machine<T>, p: bool, q: bool, image: T)
    requires Lawful(m)
    ensures m.add(Chosen(m, p, image), Chosen(m, q, image)) == Chosen(m, p != q, image)
  {
    assert SelfInverse(m, image) && SelfInverse(m, m.zero) && Commutes(m, m.zero, image);
  }

  lemma {:induction false} CombineDifference<T(!new)>(m: Machine<T>, a: seq<bool>, b: seq<bool>, image: T)
    requires Lawful(m)
    requires |a| == |b|
    ensures Combine(m, Difference(a, b), image) == m.add(Combine(m, a, image), Combine(m, b, image))
    decreases |a|
  {
    if a == [] {
      assert SelfInverse(m, m.zero);
    } else {
      var next := m.back(m.back(image));
      CombineDifference(m, a[1..], b[1..], next);
      assert Difference(a, b)[1..] == Difference(a[1..], b[1..]);
      AddSwap(m, Chosen(m, a[0], image), Combine(m, a[1..], next), Chosen(m, b[0], image), Combine(m, b[1..], next));
      ChosenDifference(m, a[0], b[0], image);
    }
  }

  /** The same sum over `n` bits of a value, for the images from the `j`-th on. */
  function Selected<T>(m: Machine<T>, odd: T -> bool, half: T -> T, v: T, image: nat -> T, j: nat, n: nat): T
    decreases n
  {
    if n == 0 then m.zero
    else m.add(Chosen(m, odd(v), image(j)), Selected(m, odd, half, half(v), image, j + 1, n - 1))
  }

  ghost predicate StepsBack<T>(m: Machine<T>, image: nat -> T, j: nat) {
    image(j + 1) == m.back(m.back(image(j)))
  }

  lemma {:induction false} CombineIsSelected<T>(m: Machine<T>, odd: T -> bool, half: T -> T, v: T, image: nat -> T,
                                                j: nat, n: nat)
    requires n > 0 && forall i :: j <= i < j + n - 1 ==> StepsBack(m, image, i)
    ensures Combine(m, Digits(odd, half, v, n), image(j)) == Selected(m, odd, half, v, image, j, n)
    decreases n
  {
    assert Digits(odd, half, v, n)[1..] == Digits(odd, half, half(v), n - 1);
    if n > 1 {
      assert StepsBack(m, image, j);
      CombineIsSelected(m, odd, half, half(v), image, j + 1, n - 1);
    }
  }

  /** Four bits of it, with the sum of the others. */
  function Four<T>(m: Machine<T>, odd: T -> bool, half: T -> T, v: T, image: nat -> T, j: nat, rest: T): T {
    m.add(Chosen(m, odd(v), image(j)),
      m.add(Chosen(m, odd(half(v)), image(j + 1)),
        m.add(Chosen(m, odd(half(half(v))), image(j + 2)),
          m.add(Chosen(m, odd(half(half(half(v)))), image(j + 3)), rest))))
  }

  function FourHalves<T>(half: T -> T, v: T): T {
    half(half(half(half(v))))
  }

  lemma SelectedFour<T>(m: Machine<T>, odd: T -> bool, half: T -> T, v: T, image: nat -> T, j: nat, n: nat)
    requires n >= 4
    ensures Selected(m, odd, half, v, image, j, n)
         == Four(m, odd, half, v, image, j, Selected(m, odd, half, FourHalves(half, v), image, j + 4, n - 4))
  {
    var v1 := half(v);
    var v2 := half(v1);
    assert Selected(m, odd, half, v2, image, j + 2, n - 2)
        == m.add(Chosen(m, odd(v2), image(j + 2)), Selected(m, odd, half, half(v2), image, j + 3, n - 3));
    assert Selected(m, odd, half, v1, image, j + 1, n - 1)
        == m.add(Chosen(m, odd(v1), image(j + 1)), Selected(m, odd, half, v2, image, j + 2, n - 2));
  }

  /** All of sixteen bits, four at a time. */
  function Sixteen<T>(m: Machine<T>, odd: T -> bool, half: T -> T, v: T, image: nat -> T): T {
    var v4 := FourHalves(half, v);
    var v8 := FourHalves(half, v4);
    var v12 := FourHalves(half, v8);
    Four(m, odd, half, v, image, 0, Four(m, odd, half, v4, image, 4,
      Four(m, odd, half, v8, image, 8, Four(m, odd, half, v12, image, 12, m.zero))))
  }

  lemma CombineIsSixteen<T>(m: Machine<T>, odd: T -> bool, half: T -> T, v: T, image: nat -> T)
    requires forall i :: 0 <= i < 15 ==> StepsBack(m, image, i)
    ensures Combine(m, Digits(odd, half, v, 16), image(0)) == Sixteen(m, odd, half, v, image)
  {
    var v4 := FourHalves(half, v);
    var v8 := FourHalves(half, v4);
    CombineIsSelected(m, odd, half, v, image, 0, 16);
    SelectedFour(m, odd, half, v, image, 0, 16);
    SelectedFour(m, odd, half, v4, image, 4, 12);
    SelectedFour(m, odd, half, v8, image, 8, 8);
    SelectedFour(m, odd, half, FourHalves(half, v8), image, 12, 4);
  }

  lemma TwoSteps<T(!new)>(m: Machine<T>, x: T, y: T)
    requires Lawful(m)
    ensures m.step(m.step(m.add(m.back(m.back(x)), y))) == m.add(x, m.step(m.step(y)))
    ensures m.step(m.step(m.add(m.zero, y))) == m.add(m.zero, m.step(m.step(y)))
  {
    var b := m.back(x);
    assert StepInverts(m, x) && StepInverts(m, b);
    assert StepDistributes(m, m.back(b), y) && StepDistributes(m, b, m.step(y));
    ZeroStaysZero(m);
    assert StepDistributes(m, m.zero, y) && StepDistributes(m, m.zero, m.step(y));
  }

  lemma {:induction false} CombineShifted<T(!new)>(m: Machine<T>, bits: seq<bool>, image: T)
    requires Lawful(m)
    ensures m.step(m.step(Combine(m, bits, m.back(m.back(image))))) == Combine(m, bits, image)
    decreases |bits|
  {
    if bits == [] {
      ZeroStaysZero(m);
    } else {
      var back2 := m.back(m.back(image));
      CombineShifted(m, bits[1..], back2);
      TwoSteps(m, image, Combine(m, bits[1..], m.back(m.back(back2))));
    }
  }

  lemma {:induction false} CombinePadded<T(!new)>(m: Machine<T>, bits: seq<bool>, image: T)
    requires Lawful(m)
    ensures Combine(m, bits + [false], image) == Combine(m, bits, image)
    decreases |bits|
  {
    if bits == [] {
      assert ([] + [false])[1..] == [];
      assert SelfInverse(m, m.zero);
    } else {
      assert (bits + [false])[1..] == bits[1..] + [false];
      CombinePadded(m, bits[1..], m.back(m.back(image)));
    }
  }

  /** Combining doubles exponents as soon as it does so on the pattern. */
  lemma CombineDoubles<T(!new)>(m: Machine<T>, bits: seq<bool>, shifted: seq<bool>, pattern: seq<bool>, image: T)
    requires Lawful(m)
    requires ShiftsAs(bits, shifted, pattern)
    requires Combine(m, pattern, image) == m.step(m.step(image))
    ensures Combine(m, shifted, image) == m.step(m.step(Combine(m, bits, image)))
  {
    var rest := bits[1..];
    var back2 := m.back(m.back(image));
    CombineShifted(m, rest, image);
    CombinePadded(m, rest, image);
    var c := Combine(m, rest, back2);
    if bits[0] {
      CombineDifference(m, rest + [false], pattern, image);
      assert StepDistributes(m, image, c) && StepDistributes(m, m.step(image), m.step(c));
      assert Commutes(m, Combine(m, rest, image), m.step(m.step(image)));
    } else {
      TwoSteps(m, image, c);
      assert Commutes(m, m.zero, Combine(m, rest, image)) && SelfInverse(m, Combine(m, rest, image));
    }
  }
}
