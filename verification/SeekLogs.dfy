/** What the seeks of qndriver.c find, told by the trials they make: a seek for one station, and
    the sweep of a whole band against its plain specification. */
module SeekLogs {
  import opened SeekWalk
  import opened TunerChip

  const POLLS := 200

  /** What the driver learnt at one frequency: the noise floor of its band, and what the chip
      reported as far as it was asked.  mono: bit 0 of STATUS1; answers: the reports themselves. */
  datatype Trial = Trial(freq: Freq, floor: nat, db: nat, rssi: nat, polls: nat, ifcnt: nat, mono: bool, snr: nat,
                         answers: seq<Report>)

  /** A station: strong enough, confirmed by the chip's own scan in time, with an intermediate
      frequency count in the window; and very strong, or with a pilot, or with a plausible
      signal to noise ratio. */
  predicate Accepts(t: Trial) {
    t.rssi > t.floor + 6 + t.db && 0 < t.polls < POLLS && 1828 < t.ifcnt < 2268 &&
    (t.rssi > t.floor + 20 + t.db || !t.mono || 5 < t.snr < 55)
  }

  /** A seek's trials: the walk from start on, rejected one after another, up to the first that
      is accepted or to the last before the walk passes stop. */
  ghost predicate SeekLog(q: seq<Trial>, start: Freq, stop: Freq, up: bool, s: nat, found: bool) {
    |q| >= 1 && (forall i :: 0 <= i < |q| ==> q[i].freq == At(start, up, s, i)) &&
    (forall i :: 0 <= i < |q| - 1 ==> !Accepts(q[i]) && !ExitsAt(start, stop, up, s, i)) &&
    found == Accepts(q[|q| - 1]) && (!found ==> ExitsAt(start, stop, up, s, |q| - 1))
  }

  /** Some trials rejected, the walk not yet past stop. */
  ghost predicate Seeking(q: seq<Trial>, f: Freq, start: Freq, stop: Freq, up: bool, s: nat) {
    f == At(start, up, s, |q|) && (forall i :: 0 <= i < |q| ==> q[i].freq == At(start, up, s, i)) &&
    (forall i :: 0 <= i < |q| ==> !Accepts(q[i]) && !ExitsAt(start, stop, up, s, i))
  }

  lemma SeeksOn(q: seq<Trial>, t: Trial, start: Freq, stop: Freq, up: bool, s: nat)
    requires Seeking(q, t.freq, start, stop, up, s)
    ensures NextFreq(t.freq, up, s) == At(start, up, s, |q| + 1)
    ensures Accepts(t) ==> SeekLog(q + [t], start, stop, up, s, true)
    ensures !Accepts(t) && Past(NextFreq(t.freq, up, s), stop, up) ==> SeekLog(q + [t], start, stop, up, s, false)
    ensures !Accepts(t) && !Past(NextFreq(t.freq, up, s), stop, up) ==>
              Seeking(q + [t], NextFreq(t.freq, up, s), start, stop, up, s)
  {
    AtNext(start, up, s, |q|);
  }

  /** Trial i is size away from the one before it. */
  predicate StepAt(q: seq<Trial>, i: nat, up: bool, size: int)
    requires 0 < i < |q|
  {
    Apart(q[i - 1].freq, q[i].freq, up, size)
  }

  /** Trials from start on, each size away from the one before it, in 16 bits. */
  predicate Stepped(q: seq<Trial>, start: Freq, up: bool, size: int) {
    (q != [] ==> q[0].freq == start) && forall i :: 0 < i < |q| ==> StepAt(q, i, up, size)
  }

  lemma SeekStepsAt(q: seq<Trial>, start: Freq, up: bool, s: nat, i: nat)
    requires s in {5, 10, 20} && 0 < i < |q|
    requires q[i - 1].freq == At(start, up, s, i - 1) && q[i].freq == At(start, up, s, i)
    ensures StepAt(q, i, up, s)
  {
    AtNext(start, up, s, i - 1);
    NextApart(q[i - 1].freq, up, s);
  }

  lemma SeekSteps(q: seq<Trial>, start: Freq, stop: Freq, up: bool, s: nat, found: bool)
    requires s in {5, 10, 20} && SeekLog(q, start, stop, up, s, found)
    ensures Stepped(q, start, up, s)
  {
    assert q[0].freq == At(start, up, s, 0) == start;
    forall i | 0 < i < |q|
      ensures StepAt(q, i, up, s)
    {
      SeekStepsAt(q, start, up, s, i);
    }
  }

  // ---------- without a wrap the walk is plain arithmetic ----------

  function Plain(f: int, up: bool, s: nat, i: nat): int {
    if up then f + i * s else f - i * s
  }

  predicate Beyond(f: int, stop: int, up: bool) {
    if up then stop < f else f < stop
  }

  /** One step past stop is still within the 16 bits. */
  predicate Roomy(stop: Freq, up: bool, s: nat) {
    s > 0 && if up then stop + s < RANGE else s <= stop
  }

  lemma NextIsPlain(f: Freq, stop: Freq, up: bool, s: nat)
    requires Roomy(stop, up, s) && !Beyond(f, stop, up)
    ensures NextFreq(f, up, s) == Plain(f, up, s, 1)
  {}

  lemma PlainOn(f: int, up: bool, s: nat, m: nat, n: nat)
    ensures Plain(Plain(f, up, s, m), up, s, n) == Plain(f, up, s, m + n)
  {
    assert (m + n) * s == m * s + n * s;
  }

  lemma {:induction false} WalkIsPlain(start: Freq, stop: Freq, up: bool, s: nat, i: nat)
    requires Roomy(stop, up, s) && !Beyond(start, stop, up)
    requires forall k :: 0 <= k < i ==> !ExitsAt(start, stop, up, s, k)
    ensures At(start, up, s, i) == Plain(start, up, s, i) && !Beyond(At(start, up, s, i), stop, up)
    ensures At(start, up, s, i + 1) == Plain(start, up, s, i + 1)
  {
    if i > 0 {
      WalkIsPlain(start, stop, up, s, i - 1);
      assert !ExitsAt(start, stop, up, s, i - 1);
    }
    AtNext(start, up, s, i);
    NextIsPlain(At(start, up, s, i), stop, up, s);
    PlainOn(start, up, s, i, 1);
  }

  /** The trials are the points from start on, none of them past stop. */
  ghost predicate Swept(q: seq<Trial>, start: int, stop: int, up: bool, s: nat) {
    forall i :: 0 <= i < |q| ==> q[i].freq == Plain(start, up, s, i) && !Beyond(q[i].freq, stop, up)
  }

  /** A seek with room at its end tries the points from start on; if it finds nothing, all up
      to stop. */
  lemma SeekSweeps(q: seq<Trial>, start: Freq, stop: Freq, up: bool, s: nat, found: bool)
    requires Roomy(stop, up, s) && !Beyond(start, stop, up) && SeekLog(q, start, stop, up, s, found)
    ensures Swept(q, start, stop, up, s)
    ensures !found ==> Beyond(Plain(start, up, s, |q|), stop, up)
  {
    forall i | 0 <= i < |q|
      ensures q[i].freq == Plain(start, up, s, i) && !Beyond(q[i].freq, stop, up)
    {
      WalkIsPlain(start, stop, up, s, i);
    }
    WalkIsPlain(start, stop, up, s, |q| - 1);
  }

  // ---------- the stations found ----------

  /** f, if it counts. */
  function Only(f: int, counts: bool): seq<int> {
    if counts then [f] else []
  }

  function Hits(q: seq<Trial>): seq<int> {
    if q == [] then [] else Only(q[0].freq, Accepts(q[0])) + Hits(q[1..])
  }

  function NonZero(fs: seq<int>): seq<int> {
    if fs == [] then [] else Only(fs[0], fs[0] != 0) + NonZero(fs[1..])
  }

  lemma SumsOf<T>(a: seq<T>, b: seq<T>, c: seq<T>)
    ensures a + b + c == a + (b + c)
  {}

  lemma {:induction false} HitsOfSum(p: seq<Trial>, q: seq<Trial>)
    ensures Hits(p + q) == Hits(p) + Hits(q)
  {
    if p == [] {
      assert p + q == q;
    } else {
      HitsOfSum(p[1..], q);
      assert (p + q)[1..] == p[1..] + q && (p + q)[0] == p[0];
      SumsOf(Only(p[0].freq, Accepts(p[0])), Hits(p[1..]), Hits(q));
    }
  }

  lemma {:induction false} NonZeroOfSum(p: seq<int>, q: seq<int>)
    ensures NonZero(p + q) == NonZero(p) + NonZero(q)
  {
    if p == [] {
      assert p + q == q;
    } else {
      NonZeroOfSum(p[1..], q);
      assert (p + q)[1..] == p[1..] + q && (p + q)[0] == p[0];
      SumsOf(Only(p[0], p[0] != 0), NonZero(p[1..]), NonZero(q));
    }
  }

  lemma {:induction false} NoHits(q: seq<Trial>)
    requires forall i :: 0 <= i < |q| ==> !Accepts(q[i])
    ensures Hits(q) == []
  {
    if q != [] { NoHits(q[1..]); }
  }

  /** A seek finds its last trial's frequency or nothing. */
  lemma HitsOfSeek(q: seq<Trial>, start: Freq, stop: Freq, up: bool, s: nat, found: bool)
    requires SeekLog(q, start, stop, up, s, found)
    ensures Hits(q) == if found then [q[|q| - 1].freq] else []
  {
    var before, last := q[..|q| - 1], q[|q| - 1..];
    NoHits(before);
    HitsOfSum(before, last);
    assert before + last == q;
  }

  lemma {:induction false} HitsOrdered(q: seq<Trial>, start: int, stop: int, up: bool, s: nat)
    requires s > 0 && Swept(q, start, stop, up, s)
    ensures forall i :: 0 <= i < |Hits(q)| ==> if up then start <= Hits(q)[i] else Hits(q)[i] <= start
    ensures forall i, j :: 0 <= i < j < |Hits(q)| ==> if up then Hits(q)[i] < Hits(q)[j] else Hits(q)[j] < Hits(q)[i]
  {
    if q != [] {
      var next := Plain(start, up, s, 1);
      SweptTail(q, start, stop, up, s);
      HitsOrdered(q[1..], next, stop, up, s);
    }
  }

  lemma SweptTail(q: seq<Trial>, start: int, stop: int, up: bool, s: nat)
    requires q != [] && Swept(q, start, stop, up, s)
    ensures Swept(q[1..], Plain(start, up, s, 1), stop, up, s)
    ensures Plain(start, up, s, |q|) == Plain(Plain(start, up, s, 1), up, s, |q| - 1)
  {
    forall i | 0 <= i < |q| - 1
      ensures q[1..][i].freq == Plain(Plain(start, up, s, 1), up, s, i)
    {
      PlainOn(start, up, s, 1, i);
      assert q[1..][i] == q[i + 1];
    }
    PlainOn(start, up, s, 1, |q| - 1);
  }

  // ---------- what a sweep of the band is meant to find ----------

  /** The points from f to stop. */
  function Lattice(f: int, stop: int, up: bool, s: nat): seq<int>
    requires s > 0
    decreases if up then stop - f else f - stop
  {
    if Beyond(f, stop, up) then [] else [f] + Lattice(Plain(f, up, s, 1), stop, up, s)
  }

  function Chosen(fs: seq<int>, accept: int -> bool): seq<int> {
    if fs == [] then [] else Only(fs[0], accept(fs[0])) + Chosen(fs[1..], accept)
  }

  function First(n: nat, fs: seq<int>): seq<int> {
    if |fs| <= n then fs else fs[..n]
  }

  const MAX_CHANNELS := 50   // QN_CCA_MAX_CH

  /** The first fifty accepted points of the band, in the order of the scan. */
  function Ideal(start: int, stop: int, up: bool, s: nat, accept: int -> bool): seq<int>
    requires s > 0
  {
    First(MAX_CHANNELS, Chosen(Lattice(start, stop, up, s), accept))
  }

  /** The chip's verdicts are those of accept. */
  ghost predicate Agrees(q: seq<Trial>, accept: int -> bool) {
    forall i :: 0 <= i < |q| ==> Accepts(q[i]) == accept(q[i].freq)
  }

  /** Trials of one point after the other, up to room for no further station or past stop. */
  ghost predicate SweepLog(q: seq<Trial>, start: int, stop: int, up: bool, s: nat, room: nat) {
    Swept(q, start, stop, up, s) && |Hits(q)| <= room &&
    (|Hits(q)| < room ==> Beyond(Plain(start, up, s, |q|), stop, up))
  }

  lemma {:induction false} SweepFindsChosen(q: seq<Trial>, start: int, stop: int, up: bool, s: nat, room: nat,
                      accept: int -> bool)
    requires s > 0 && SweepLog(q, start, stop, up, s, room) && Agrees(q, accept)
    ensures Hits(q) == First(room, Chosen(Lattice(start, stop, up, s), accept))
  {
    if q != [] {
      SweptTail(q, start, stop, up, s);
      assert Agrees(q[1..], accept);
      assert q[0].freq == start;
      SweepFindsChosen(q[1..], Plain(start, up, s, 1), stop, up, s, if Accepts(q[0]) then room - 1 else room, accept);
    }
  }

  /** A single seek finds the first accepted point between start and stop, or nothing if there
      is none. */
  lemma SeekFindsFirst(q: seq<Trial>, start: Freq, stop: Freq, s: nat, found: bool, accept: int -> bool)
    requires Roomy(stop, start < stop, s) && SeekLog(q, start, stop, start < stop, s, found) && Agrees(q, accept)
    ensures First(1, Chosen(Lattice(start, stop, start < stop, s), accept)) == if found then [q[|q| - 1].freq] else []
  {
    SeekSweeps(q, start, stop, start < stop, s, found);
    HitsOfSeek(q, start, stop, start < stop, s, found);
    SweepFindsChosen(q, start, stop, start < stop, s, 1, accept);
  }
}
