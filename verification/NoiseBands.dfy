/** The six bands for which qndriver.c keeps a noise floor: their limits, and which of them a frequency is in. */
module NoiseBands {
  import opened SeekWalk

  const BANDS := 6   // QND_BAND_NUM

  /** The width of a band, in steps: an 8-bit quotient of 16-bit and 8-bit numbers (lines 118-121). */
  function BandSteps(start: Freq, stop: Freq, s: nat): (d: nat)
    requires s in {5, 10, 20}
    ensures d < 256
  {
    (stop - start) % RANGE / (s * BANDS % 256) % 256
  }

  /** qnd_RSSInBB as QNF_InitRSSInBB leaves it (lines 110-129). */
  method InitBands(start: Freq, stop: Freq, s: nat) returns (bb: seq<Freq>)
    requires s in {5, 10, 20}
    ensures |bb| == BANDS + 1 && bb[BANDS] == (stop + s) % RANGE
    ensures forall i :: 0 <= i < BANDS ==> bb[i] == (start + i * (BandSteps(start, stop, s) * s)) % RANGE
  {
    var d1: int := (stop - start) % RANGE;
    var d2 := s * BANDS % 256;
    var d := d1 / d2 % 256;
    bb := [start];
    var i := 1;
    while i < BANDS
      invariant 1 <= i <= BANDS && |bb| == i
      invariant forall k :: 0 <= k < i ==> bb[k] == (start + k * (d * s)) % RANGE
    {
      SumInRange(start + (i - 1) * (d * s), d * s);
      assert start + (i - 1) * (d * s) + d * s == start + i * (d * s);
      bb := bb + [(bb[i - 1] + d * s) % RANGE];
      i := i + 1;
    }
    bb := bb + [(stop + s) % RANGE];
  }

  /** The band of a frequency, looked for from band i on. */
  function BandFrom(bb: seq<Freq>, f: Freq, i: nat): (k: nat)
    requires |bb| == BANDS + 1 && i <= BANDS
    ensures k < BANDS
    decreases BANDS - i
  {
    if i == BANDS then 0 else if f < bb[i + 1] then i else BandFrom(bb, f, i + 1)
  }

  function BandOf(bb: seq<Freq>, f: Freq): (k: nat)
    requires |bb| == BANDS + 1
    ensures k < BANDS
  {
    BandFrom(bb, f, 0)
  }

  /** QNF_GetRSSInBandIndex (lines 140-150). */
  method BandIndex(bb: seq<Freq>, f: Freq) returns (i: nat)
    requires |bb| == BANDS + 1
    ensures i == BandOf(bb, f) && i < BANDS
  {
    i := 0;
    while i < BANDS
      invariant 0 <= i <= BANDS && BandFrom(bb, f, i) == BandOf(bb, f)
    {
      if f < bb[i + 1] { return; }
      i := i + 1;
    }
    i := 0;
  }

  // ---------- the bands tile the range ----------

  /** The stop is a whole number of steps above the start, with room for one more step. */
  predicate OnGrid(start: Freq, stop: Freq, s: nat) {
    s in {5, 10, 20} && start <= stop && (stop - start) % s == 0 && stop + s < RANGE
  }

  /** bb holds the six band starts and one step above the stop; w is the width of a band. */
  predicate Laid(bb: seq<Freq>, start: Freq, stop: Freq, s: nat, w: nat) {
    |bb| == BANDS + 1 && bb[0] == start && bb[1] == start + w && bb[2] == start + 2 * w &&
    bb[3] == start + 3 * w && bb[4] == start + 4 * w && bb[5] == start + 5 * w && bb[6] == stop + s &&
    start + 5 * w <= stop
  }

  lemma WidthFits(start: Freq, stop: Freq, s: nat)
    requires OnGrid(start, stop, s)
    ensures start + 6 * (BandSteps(start, stop, s) * s) <= stop
    ensures BandSteps(start, stop, s) == (stop - start) / (6 * s) % 256
  {
    assert (stop - start) % RANGE == stop - start;
    if s == 5 {} else if s == 10 {} else {}
  }

  lemma BandsAreLaid(bb: seq<Freq>, start: Freq, stop: Freq, s: nat)
    requires OnGrid(start, stop, s) && |bb| == BANDS + 1 && bb[BANDS] == (stop + s) % RANGE
    requires forall i :: 0 <= i < BANDS ==> bb[i] == (start + i * (BandSteps(start, stop, s) * s)) % RANGE
    ensures Laid(bb, start, stop, s, BandSteps(start, stop, s) * s)
  {
    WidthFits(start, stop, s);
    var w := BandSteps(start, stop, s) * s;
    Small(start + 0 * w); Small(start + 1 * w); Small(start + 2 * w);
    Small(start + 3 * w); Small(start + 4 * w); Small(start + 5 * w); Small(stop + s);
  }

  lemma Small(n: int)
    ensures 0 <= n < RANGE ==> n % RANGE == n
  {}

  /** A frequency of the range lies in its band and in no other. */
  lemma BandIsUnique(bb: seq<Freq>, start: Freq, stop: Freq, s: nat, w: nat, f: Freq, i: nat)
    requires Laid(bb, start, stop, s, w) && start <= f < stop + s && i < BANDS
    ensures bb[i] <= f < bb[i + 1] <==> i == BandOf(bb, f)
  {
    var k := BandOf(bb, f);
    assert k == if f < bb[1] then 0 else if f < bb[2] then 1 else if f < bb[3] then 2
                else if f < bb[4] then 3 else if f < bb[5] then 4 else 5;
  }

  /** On the grid, being below the next band and being at most its start less one step agree. */
  lemma GridGap(start: int, m: int, n: int, s: nat)
    requires s in {5, 10, 20}
    ensures start + m * s < start + n * s <==> start + m * s <= start + n * s - s
  {
    if s == 5 {} else if s == 10 {} else {}
  }

  lemma BandEnd(bb: seq<Freq>, start: Freq, stop: Freq, s: nat, d: nat, i: nat)
    requires Laid(bb, start, stop, s, d * s) && i < 5
    ensures bb[i + 1] == start + (i + 1) * d * s
  {
    if i == 0 {} else if i == 1 {} else if i == 2 {} else if i == 3 {} else { assert i == 4; }
  }

  /** The six sub-scans [bb[i], bb[i + 1] - step] cover each channel of the range exactly once,
      and the band index finds the one that does. */
  lemma SubScansTile(bb: seq<Freq>, start: Freq, stop: Freq, s: nat, m: nat, i: nat)
    requires OnGrid(start, stop, s) && Laid(bb, start, stop, s, BandSteps(start, stop, s) * s)
    requires start + m * s <= stop && i < BANDS
    ensures bb[i] <= start + m * s <= bb[i + 1] - s <==> i == BandOf(bb, start + m * s)
  {
    var d := BandSteps(start, stop, s);
    BandIsUnique(bb, start, stop, s, d * s, start + m * s, i);
    if i < 5 {
      BandEnd(bb, start, stop, s, d, i);
      GridGap(start, m, (i + 1) * d, s);
    } else {
      assert bb[6] == stop + s;
    }
  }

  /** No sub-scan is empty iff the 8-bit band width is not zero. */
  lemma NoSubScanEmpty(bb: seq<Freq>, start: Freq, stop: Freq, s: nat)
    requires OnGrid(start, stop, s) && Laid(bb, start, stop, s, BandSteps(start, stop, s) * s)
    ensures (forall i :: 0 <= i < BANDS ==> bb[i] <= bb[i + 1] - s) <==> (stop - start) / (6 * s) % 256 != 0
  {
    WidthFits(start, stop, s);
    var d := BandSteps(start, stop, s);
    if d == 0 {
      assert bb[0] == start && bb[0 + 1] == start;
    } else {
      assert d * s >= s;
      forall i | 0 <= i < BANDS
        ensures bb[i] <= bb[i + 1] - s
      {
        if i == 0 {} else if i == 1 {} else if i == 2 {} else if i == 3 {} else if i == 4 {} else {}
      }
    }
  }
}
