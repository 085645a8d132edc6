/** client/client_utils.cpp: automatic aircraft identifiers and the stride with which retries walk them. */
module ClientUtils {
  import opened Basics
  import opened Packets
  import opened SessionTable

  const POOL := 999
  const STRIDE := 590

  /** "AC-" and three digits, padded with zeros. */
  function IdFor(n: int): Text
    requires 1 <= n <= POOL
  {
    [65, 67, 45, 48 + n / 100, 48 + n / 10 % 10, 48 + n % 10]
  }

  /** The number behind `generateAutoAircraftId(salt)`, in `uint32_t` arithmetic throughout. */
  function Candidate(base: Word, salt: Word): (n: int)
    ensures 1 <= n <= POOL
  {
    Wrap(base + Wrap(salt * STRIDE)) % POOL + 1
  }

  function AutoId(base: Word, salt: Word): Text {
    IdFor(Candidate(base, salt))
  }

  /** Every automatic identifier is accepted by both validators and survives the wire. */
  lemma AutoIdsAreValid(n: int)
    requires 1 <= n <= POOL
    ensures ValidAircraftId(IdFor(n))
    ensures ExtractId(IdField(IdFor(n))) == IdFor(n)
  {
    IdRoundTrip(IdFor(n));
    assert IdFor(n)[..3] == [65, 67, 45];
    assert forall i :: 0 <= i < 6 ==> IdFor(n)[i] != 0;
  }

  lemma IdsDiffer(m: int, n: int)
    requires 1 <= m <= POOL && 1 <= n <= POOL && m != n
    ensures IdFor(m) != IdFor(n)
  {
    NumberRoundTrip(m);
    NumberRoundTrip(n);
  }

  /** The number an identifier stands for. */
  function NumberIn(id: Text): int
    requires |id| == 6
  {
    (id[3] as int - 48) * 100 + (id[4] as int - 48) * 10 + (id[5] as int - 48)
  }

  lemma NumberRoundTrip(n: int)
    requires 1 <= n <= POOL
    ensures NumberIn(IdFor(n)) == n
  {
  }

  /** The fleet's order, by identifier, is the order of the numbers; the first is AC-001. */
  lemma IdsInOrder(m: int, n: int)
    requires 1 <= m <= POOL && 1 <= n <= POOL
    ensures TextLess(IdFor(m), IdFor(n)) <==> m < n
    ensures IdFor(1) == [65, 67, 45, 48, 48, 49] && IdFor(999) == [65, 67, 45, 57, 57, 57]
  {
    var a, b := IdFor(m), IdFor(n);
    assert m == 100 * (m / 100) + 10 * (m / 10 % 10) + m % 10;
    assert n == 100 * (n / 100) + 10 * (n / 10 % 10) + n % 10;
    SkipEqual(a, b, 3);
    assert a[3..] == [a[3], a[4], a[5]] && b[3..] == [b[3], b[4], b[5]];
    ThreeDigitsLess(a[3..], b[3..]);
  }

  lemma {:induction false} SkipEqual(a: Text, b: Text, n: nat)
    requires n <= |a| && n <= |b| && a[..n] == b[..n]
    ensures TextLess(a, b) <==> TextLess(a[n..], b[n..])
    decreases n
  {
    if n > 0 {
      assert a[0] == a[..n][0] == b[..n][0] == b[0];
      assert a[1..][..n - 1] == a[..n][1..] && b[1..][..n - 1] == b[..n][1..];
      SkipEqual(a[1..], b[1..], n - 1);
      assert a[1..][n - 1..] == a[n..] && b[1..][n - 1..] == b[n..];
    } else {
      assert a[0..] == a && b[0..] == b;
    }
  }

  lemma ThreeDigitsLess(a: Text, b: Text)
    requires |a| == 3 && |b| == 3
    ensures TextLess(a, b) <==>
      a[0] < b[0] || (a[0] == b[0] && (a[1] < b[1] || (a[1] == b[1] && a[2] < b[2])))
  {
    assert a[1..] == [a[1], a[2]] && b[1..] == [b[1], b[2]];
    assert a[1..][1..] == [a[2]] && b[1..][1..] == [b[2]];
    assert a[1..][1..][1..] == [] && b[1..][1..][1..] == [];
  }

  /** The first identifier is the base's own, and each retry steps on by 590, around the circle of 999. */
  lemma CandidateSteps(base: Word, salt: Word)
    requires base < POOL && salt + 1 <= 7279603
    ensures Candidate(base, 0) == base + 1
    ensures Candidate(base, salt + 1) == (Candidate(base, salt) - 1 + 590) % 999 + 1
  {
    Unwraps(base, salt);
    Unwraps(base, salt + 1);
    Unwraps(base, 0);
    hide Candidate;
    StepAround(base + salt * STRIDE);
  }

  lemma Unwraps(base: Word, salt: Word)
    requires base < POOL && salt <= 7279603
    ensures Candidate(base, salt) == (base + salt * STRIDE) % POOL + 1
  {
    assert salt * STRIDE + base < WORD;
    assert Wrap(salt * STRIDE) == salt * STRIDE;
    assert Wrap(base + salt * STRIDE) == base + salt * STRIDE;
  }

  lemma StepAround(n: nat)
    ensures (n + STRIDE) % POOL == (n % POOL + STRIDE) % POOL
  {
    ShiftedResidue(n % POOL + STRIDE, n / POOL);
  }

  // ---------------------------------------------------------------- the stride

  /** How often `base + salt * STRIDE` has passed 2^32. */
  function Epoch(base: Word, salt: nat): nat {
    (base + salt * STRIDE) / WORD
  }

  lemma Unwrapped(base: Word, salt: Word)
    ensures Candidate(base, salt) == (base + salt * STRIDE - Epoch(base, salt) * WORD) % POOL + 1
  {
    var p := salt * STRIDE;
    assert base + Wrap(p) == base + p - p / WORD * WORD;
    SameResidue(base + Wrap(p), base + p, p / WORD);
  }

  lemma SameResidue(a: nat, b: nat, turns: nat)
    requires b == a + turns * WORD
    ensures Wrap(a) == Wrap(b)
  {
    assert b / WORD == a / WORD + turns;
  }

  /** 590 * 425 = 251 * 999 + 1: a step of 425 salts advances the number by exactly one. */
  lemma StrideInverse(d: int)
    ensures (d * STRIDE) % POOL == 0 <==> d % POOL == 0
  {
    if (d * STRIDE) % POOL == 0 {
      var q := d * STRIDE / POOL;
      assert d * STRIDE == q * POOL;
      ResidueIs(d, 0, q * 425 - d * 251);
    }
    if d % POOL == 0 {
      ResidueIs(d * STRIDE, 0, d / POOL * STRIDE);
    }
  }

  /** Within one epoch, two salts give the same number exactly when they differ by a multiple of 999. */
  lemma SameNumber(base: Word, i: Word, j: Word)
    requires Epoch(base, i) == Epoch(base, j)
    ensures Candidate(base, i) == Candidate(base, j) <==> (j - i) % POOL == 0
  {
    Unwrapped(base, i);
    Unwrapped(base, j);
    StrideInverse(j - i);
    var a := base + i * STRIDE - Epoch(base, i) * WORD;
    EqualResidues(a, a + (j - i) * STRIDE);
  }

  lemma EqualResidues(a: int, b: int)
    ensures a % POOL == b % POOL <==> (b - a) % POOL == 0
  {
  }

  /** Some salt in the window gives `n`. */
  ghost predicate Reached(base: Word, start: nat, n: int)
    requires start + POOL <= WORD
  {
    exists k :: start <= k < start + POOL && Candidate(base, k) == n
  }

  /** Every number exactly once. */
  ghost predicate FullCycle(base: Word, start: nat)
    requires start + POOL <= WORD
  {
    && (forall i, j :: start <= i < j < start + POOL ==> Candidate(base, i) != Candidate(base, j))
    && (forall n :: 1 <= n <= POOL ==> Reached(base, start, n))
  }

  lemma EpochMonotone(base: Word, i: nat, j: nat)
    requires i <= j < i + POOL
    ensures Epoch(base, i) <= Epoch(base, j) <= Epoch(base, i) + 1
  {
  }

  /** The salt that reaches number `n`, counting from `start`. */
  lemma Reach(base: Word, start: nat, n: int) returns (k: nat)
    requires start + POOL <= WORD && Epoch(base, start) == Epoch(base, start + POOL - 1) && 1 <= n <= POOL
    ensures start <= k < start + POOL && Candidate(base, k) == n
  {
    var c := Candidate(base, start);
    var steps := (n - c) * 425 % POOL;
    k := start + steps;
    EpochMonotone(base, start, k);
    EpochMonotone(base, k, start + POOL - 1);
    Unwrapped(base, start);
    Unwrapped(base, k);
    var q := (n - c) * 425 / POOL;
    assert steps == (n - c) * 425 - q * POOL;
    assert steps * STRIDE == (n - c) + ((n - c) * 251 - q * STRIDE) * POOL;
    var a := base + start * STRIDE - Epoch(base, start) * WORD;
    assert a + steps * STRIDE == (n - 1) + (a / POOL + (n - c) * 251 - q * STRIDE) * POOL;
    ResidueIs(a + steps * STRIDE, n - 1, a / POOL + (n - c) * 251 - q * STRIDE);
  }

  lemma ShiftedResidue(a: int, q: int)
    ensures (a + q * POOL) % POOL == a % POOL
  {
  }

  lemma ResidueIs(a: int, r: int, q: int)
    requires 0 <= r < POOL && a == r + q * POOL
    ensures a % POOL == r
  {
  }

  /** Where the product first wraps between two salts. */
  lemma {:induction false} Crossing(base: Word, lo: nat, hi: nat) returns (b: nat)
    requires lo < hi && Epoch(base, lo) != Epoch(base, hi)
    ensures lo < b <= hi && Epoch(base, b - 1) == Epoch(base, lo) != Epoch(base, b)
    decreases hi - lo
  {
    if Epoch(base, hi - 1) == Epoch(base, lo) {
      b := hi;
    } else {
      b := Crossing(base, lo, hi - 1);
    }
  }

  lemma CycleWithinEpoch(base: Word, start: nat)
    requires start + POOL <= WORD && Epoch(base, start) == Epoch(base, start + POOL - 1)
    ensures FullCycle(base, start)
  {
    forall i, j | start <= i < j < start + POOL ensures Candidate(base, i) != Candidate(base, j) {
      EpochMonotone(base, start, i);
      EpochMonotone(base, i, j);
      EpochMonotone(base, j, start + POOL - 1);
      SameNumber(base, i, j);
    }
    hide Epoch, Candidate;
    forall n | 1 <= n <= POOL ensures Reached(base, start, n) {
      var k := Reach(base, start, n);
    }
  }

  /** 89 * 590 and 2^32 leave the same remainder modulo 999. */
  lemma CollisionAcrossEpochs(base: Word, i: nat)
    requires i + 89 < WORD && Epoch(base, i + 89) == Epoch(base, i) + 1
    ensures Candidate(base, i) == Candidate(base, i + 89)
  {
    Unwrapped(base, i);
    Unwrapped(base, i + 89);
    hide Candidate, Epoch;
    var a := base + i * STRIDE - Epoch(base, i) * WORD;
    assert base + (i + 89) * STRIDE - Epoch(base, i + 89) * WORD == a - 4299214 * POOL;
    ShiftedResidue(a, -4299214);
  }

  /**
   The comment on the stride promises that retries walk unique candidates. Any 999 consecutive
   salts give every number from 1 to 999 exactly once if and only if the 32-bit product does not
   wrap between the first and the last of them; when it does, two salts 89 apart collide.
   */
  lemma StrideIsFullCycle(base: Word, start: nat)
    requires start + POOL <= WORD
    ensures FullCycle(base, start) <==> Epoch(base, start) == Epoch(base, start + POOL - 1)
  {
    var last := start + POOL - 1;
    if Epoch(base, start) == Epoch(base, last) {
      CycleWithinEpoch(base, start);
    } else {
      var b := Crossing(base, start, last);
      var i := if b - 89 < start then start else b - 89;
      EpochMonotone(base, start, i);
      EpochMonotone(base, i, b - 1);
      EpochMonotone(base, b, i + 89);
      EpochMonotone(base, start, i + 89);
      hide Epoch, Candidate;
      CollisionAcrossEpochs(base, i);
      assert start <= i < i + 89 < start + POOL;
    }
  }

  /** The base is a remainder modulo 999, so no salt up to 7279603 ever wraps. */
  lemma SmallSaltsNeverWrap(base: Word, start: nat)
    requires base < POOL && start + POOL - 1 <= 7279603
    ensures FullCycle(base, start)
  {
    StrideIsFullCycle(base, start);
  }

  /** The first wrap of all, for the greatest base. `connectSession` never passes a salt above 7. */
  lemma FirstCollision()
    ensures Candidate(998, 7279515) == Candidate(998, 7279604)
    ensures !FullCycle(998, 7279515)
  {
    assert Candidate(998, 7279515) == Candidate(998, 7279604);
    hide Candidate;
  }

  // ---------------------------------------------------------------- enough candidates

  function FirstIds(base: Word, attempts: Word): set<Text> {
    if attempts == 0 then {} else FirstIds(base, attempts - 1) + {AutoId(base, attempts - 1)}
  }

  lemma {:induction false} FirstIdsDistinct(base: Word, attempts: Word)
    requires base < POOL && attempts <= POOL
    ensures |FirstIds(base, attempts)| == attempts
    ensures forall id :: id in FirstIds(base, attempts) ==> exists k :: 0 <= k < attempts && AutoId(base, k) == id
  {
    hide AutoId;
    if attempts > 0 {
      FirstIdsDistinct(base, attempts - 1);
      forall k | 0 <= k < attempts - 1 ensures AutoId(base, k) != AutoId(base, attempts - 1) {
        AttemptsDiffer(base, k, attempts - 1);
      }
    }
  }

  lemma AttemptsDiffer(base: Word, i: Word, j: Word)
    requires base < POOL && i < j < POOL
    ensures AutoId(base, i) != AutoId(base, j)
  {
    SmallSaltsNeverWrap(base, 0);
    hide Candidate, IdFor;
    IdsDiffer(Candidate(base, i), Candidate(base, j));
  }

  lemma SubsetIsSmaller(a: set<Text>, b: set<Text>)
    requires a <= b
    ensures |a| <= |b|
  {
    assert b == a + (b - a);
  }

  /** Pigeonhole: `attempts` candidates cannot all be among fewer identifiers. */
  lemma SomeCandidateIsFree(base: Word, attempts: Word, held: set<Text>) returns (k: nat)
    requires base < POOL && |held| < attempts <= POOL
    ensures k < attempts && AutoId(base, k) !in held
  {
    FirstIdsDistinct(base, attempts);
    if FirstIds(base, attempts) <= held {
      SubsetIsSmaller(FirstIds(base, attempts), held);
      assert false;
    }
    var id :| id in FirstIds(base, attempts) && id !in held;
    k :| 0 <= k < attempts && AutoId(base, k) == id;
  }
}
