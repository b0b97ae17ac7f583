/** The frequencies a seek of qndriver.c visits.  Frequencies are 16 bits wide: a step beyond
    either end of the range comes back in at the other. */
module SeekWalk {

  const RANGE := 0x1_0000

  type Freq = f: int | 0 <= f < RANGE

  /** qnd_StepTbl (qndriver.c:27). */
  function StepValue(step: nat): (s: nat)
    requires step < 3
    ensures s in {5, 10, 20}
  {
    if step == 0 then 5 else if step == 1 then 10 else 20
  }

  /** The size of a step doubles with its index: 50, 100 and 200 kHz. */
  lemma StepSizes(step: nat)
    requires step < 3
    ensures StepValue(step) == [5, 10, 20][step]
    ensures step > 0 ==> StepValue(step) == 2 * StepValue(step - 1)
  {}

  /** start with i steps added, or taken away, in 16 bits. */
  function At(start: Freq, up: bool, s: nat, i: nat): Freq {
    if up then (start + i * s) % RANGE else (start - i * s) % RANGE
  }

  function NextFreq(f: Freq, up: bool, s: nat): Freq {
    if up then (f + s) % RANGE else (f - s) % RANGE
  }

  /** The test that ends the seek (line 831). */
  predicate Past(f: Freq, stop: Freq, up: bool) {
    if up then stop < f else f < stop
  }

  /** The seek is over after the point i, if nothing is accepted. */
  predicate ExitsAt(start: Freq, stop: Freq, up: bool, s: nat, i: nat) {
    Past(At(start, up, s, i + 1), stop, up)
  }

  lemma SumInRange(a: int, b: int)
    ensures (a % RANGE + b) % RANGE == (a + b) % RANGE
  {
    var q := a / RANGE;
    assert a == q * RANGE + a % RANGE;
    assert a + b == (a % RANGE + b) + q * RANGE;
  }

  lemma AtNext(start: Freq, up: bool, s: nat, i: nat)
    ensures At(start, up, s, i + 1) == NextFreq(At(start, up, s, i), up, s)
  {
    if up {
      SumInRange(start + i * s, s);
      assert start + (i + 1) * s == start + i * s + s;
    } else {
      SumInRange(start - i * s, 0 - (s as int));
      assert start - (i + 1) * s == start - i * s - s;
    }
  }

  /** b is size away from a in 16 bits, on the side of up. */
  predicate Apart(a: Freq, b: Freq, up: bool, size: int) {
    (if up then b - a else a - b) % 0x1_0000 == size
  }

  lemma NextApart(f: Freq, up: bool, s: nat)
    requires s in {5, 10, 20}
    ensures Apart(f, NextFreq(f, up, s), up, s)
  {
    var g := NextFreq(f, up, s);
    if up { assert g - f == s || g - f == s - RANGE; } else { assert f - g == s || f - g == s - RANGE; }
  }

  // ---------- when a seek in which nothing is accepted comes to an end ----------

  /** Such a seek ends iff there is a 16-bit frequency past stop that agrees with start modulo
      the power of two that the step and the range have in common. */
  predicate Halts(start: Freq, stop: Freq, s: nat)
    requires s in {5, 10, 20}
  {
    var g := s / 5;
    if start < stop then stop < RANGE - g + start % g else start % g < stop
  }

  ghost predicate Ends(start: Freq, stop: Freq, up: bool, s: nat) {
    exists i: nat :: ExitsAt(start, stop, up, s, i)
  }

  lemma MultipleKeepsResidue(f: int, d: int, g: nat)
    requires g in {1, 2, 4} && d % g == 0
    ensures (f + d) % g == f % g
  {
    if g == 1 {} else if g == 2 {} else {}
  }

  lemma StepKeepsResidue(f: Freq, up: bool, s: nat)
    requires s in {5, 10, 20}
    ensures NextFreq(f, up, s) % (s / 5) == f % (s / 5)
  {
    var d := NextFreq(f, up, s) - f;
    assert d == s || d == s - RANGE || d == -(s as int) || d == RANGE - s;
    assert d % (s / 5) == 0 by { if s == 5 {} else if s == 10 {} else {} }
    MultipleKeepsResidue(f, d, s / 5);
  }

  lemma {:induction false} WalkKeepsResidue(start: Freq, up: bool, s: nat, i: nat)
    requires s in {5, 10, 20}
    ensures At(start, up, s, i) % (s / 5) == start % (s / 5)
  {
    if i > 0 {
      WalkKeepsResidue(start, up, s, i - 1);
      AtNext(start, up, s, i - 1);
      StepKeepsResidue(At(start, up, s, i - 1), up, s);
    }
  }

  lemma LargestOfResidue(v: Freq, g: nat)
    requires g in {1, 2, 4}
    ensures v <= RANGE - g + v % g
  {
    if g == 1 {} else if g == 2 {} else {}
  }

  lemma SameResidueApart(a: int, b: int, g: nat)
    requires g in {1, 2, 4} && a % g == b % g
    ensures (a - b) % g == 0 && a - b == g * ((a - b) / g)
  {
    if g == 1 {} else if g == 2 {} else {}
  }

  /** 52429 steps of size 5 go round the range four times and one further. */
  lemma ManySteps(start: Freq, up: bool, s: nat, m: nat)
    requires s in {5, 10, 20}
    ensures At(start, up, s, 52429 * m) == (if up then start + s / 5 * m else start - s / 5 * m) % RANGE
  {
    var g := s / 5;
    assert 52429 * m * s == g * m + 4 * (g * m) * RANGE by {
      if s == 5 {} else if s == 10 {} else {}
    }
    if up { WholeTurns(start + g * m, 4 * (g * m)); } else { WholeTurns(start - g * m, -(4 * (g * m))); }
  }

  lemma WholeTurns(a: int, k: int)
    ensures (a + k * RANGE) % RANGE == a % RANGE
  {}

  /** The furthest frequency of start's residue: as many steps of size g away from start as m. */
  function Furthest(start: Freq, up: bool, g: nat): Freq
    requires g in {1, 2, 4}
  {
    if up then RANGE - g + start % g else start % g
  }

  lemma FurthestIsReached(start: Freq, up: bool, s: nat) returns (m: nat)
    requires s in {5, 10, 20}
    ensures Furthest(start, up, s / 5) == if up then start + s / 5 * m else start - s / 5 * m
  {
    var g := s / 5;
    var v := Furthest(start, up, g);
    assert v % g == start % g by { if g == 1 {} else if g == 2 {} else {} }
    LargestOfResidue(start, g);
    SameResidueApart(if up then v else start, if up then start else v, g);
    m := (if up then v - start else start - v) / g;
  }

  /** Where an exit lies, when Halts holds. */
  lemma HaltingPoint(start: Freq, stop: Freq, s: nat) returns (i: nat)
    requires s in {5, 10, 20} && Halts(start, stop, s)
    ensures ExitsAt(start, stop, start < stop, s, i)
  {
    var up := start < stop;
    var m := FurthestIsReached(start, up, s);
    ManySteps(start, up, s, m);
    assert Past(Furthest(start, up, s / 5), stop, up) && m > 0;
    i := 52429 * m - 1;
  }

  /** Halts is exact. */
  lemma HaltsExactly(start: Freq, stop: Freq, s: nat)
    requires s in {5, 10, 20}
    ensures Ends(start, stop, start < stop, s) <==> Halts(start, stop, s)
  {
    var up := start < stop;
    if i: nat :| ExitsAt(start, stop, up, s, i) {
      WalkKeepsResidue(start, up, s, i + 1);
      LargestOfResidue(At(start, up, s, i + 1), s / 5);
    }
    if Halts(start, stop, s) {
      var i := HaltingPoint(start, stop, s);
    }
  }
}
