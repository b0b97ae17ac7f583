/** A full-band seek of qndriver.c of which the chip accepts nothing, trial by trial: when it ends. */
module SilentSweep {
  import opened SeekWalk
  import opened SeekLogs
  import opened BandSweep

  /** The seek that began at pStart is about to try f; or the sweep is over. */
  datatype Spot = Trying(pStart: Freq, f: Freq) | Over

  /** Where the sweep goes when a seek has found nothing (lines 911-919). */
  function AfterMiss(r: Request): Spot {
    var next := NextStart(r, 0);
    if GoesOn(r, next) then Trying(next, next) else Over
  }

  /** One more trial is rejected (lines 828-836). */
  function Rejected(r: Request, x: Spot): Spot {
    match x
    case Over => Over
    case Trying(pStart, f) =>
      var up := pStart < r.last;
      var next := NextFreq(f, up, r.s);
      if Past(next, r.last, up) then AfterMiss(r) else Trying(pStart, next)
  }

  /** Where the sweep stands after n rejected trials. */
  function SpotAfter(r: Request, n: nat): Spot {
    if n == 0 then Trying(r.start, r.start) else Rejected(r, SpotAfter(r, n - 1))
  }

  // ---------- the spots are those of the driver's seeks ----------

  /** A point of a seek was reached when all before it were rejected. */
  lemma SeekingFront(q: seq<Trial>, start: Freq, stop: Freq, up: bool, s: nat, found: bool, i: nat)
    requires SeekLog(q, start, stop, up, s, found) && i < |q|
    ensures Seeking(q[..i], q[i].freq, start, stop, up, s)
  {
    assert forall k :: 0 <= k < i ==> q[..i][k] == q[k];
  }

  lemma SeekingStep(q: seq<Trial>, f: Freq, start: Freq, stop: Freq, up: bool, s: nat)
    requires q != [] && Seeking(q, f, start, stop, up, s)
    ensures var k := |q| - 1;
            Seeking(q[..k], q[k].freq, start, stop, up, s) && f == NextFreq(q[k].freq, up, s) && !Past(f, stop, up)
  {
    var k := |q| - 1;
    assert forall i :: 0 <= i < k ==> q[..k][i] == q[i];
    AtNext(start, up, s, k);
    assert !ExitsAt(start, stop, up, s, k);
  }

  /** Inside a seek that has not found anything yet. */
  lemma {:induction false} SeekingMoves(r: Request, n: nat, pStart: Freq, q: seq<Trial>, f: Freq)
    requires SpotAfter(r, n) == Trying(pStart, pStart) && Seeking(q, f, pStart, r.last, pStart < r.last, r.s)
    ensures SpotAfter(r, n + |q|) == Trying(pStart, f)
    decreases |q|
  {
    if q != [] {
      var k := |q| - 1;
      SeekingStep(q, f, pStart, r.last, pStart < r.last, r.s);
      SeekingMoves(r, n, pStart, q[..k], q[k].freq);
    }
  }

  /** A whole seek that found nothing. */
  lemma SeekMisses(r: Request, n: nat, pStart: Freq, q: seq<Trial>)
    requires SpotAfter(r, n) == Trying(pStart, pStart) && Seek(q, r, pStart, 0) && !Accepts(q[|q| - 1])
    ensures forall i :: 0 <= i < |q| ==> SpotAfter(r, n + i) == Trying(pStart, q[i].freq)
    ensures SpotAfter(r, n + |q|) == AfterMiss(r)
  {
    var k, up := |q| - 1, pStart < r.last;
    forall i | 0 <= i < |q|
      ensures SpotAfter(r, n + i) == Trying(pStart, q[i].freq)
    {
      SeekingFront(q, pStart, r.last, up, r.s, false, i);
      SeekingMoves(r, n, pStart, q[..i], q[i].freq);
    }
    AtNext(pStart, up, r.s, k);
    assert ExitsAt(pStart, r.last, up, r.s, k);
  }

  /** Where the k-th seek begins, if those before it found nothing. */
  function Begins(r: Request, k: nat): Freq {
    if k == 0 then r.start else NextStart(r, 0)
  }

  ghost predicate Misses(r: Request, pStart: Freq, q: seq<Trial>) {
    Seek(q, r, pStart, 0) && !Accepts(q[|q| - 1])
  }

  /** Seeks one after the other, each of which found nothing. */
  ghost predicate Missed(r: Request, qs: seq<seq<Trial>>) {
    forall k :: 0 <= k < |qs| ==> Misses(r, Begins(r, k), qs[k])
  }

  /** How many trials they made. */
  function Count(qs: seq<seq<Trial>>): nat {
    if qs == [] then 0 else Count(qs[..|qs| - 1]) + |qs[|qs| - 1]|
  }

  lemma MissedFront(r: Request, qs: seq<seq<Trial>>)
    requires qs != [] && Missed(r, qs)
    ensures Missed(r, qs[..|qs| - 1]) && Misses(r, Begins(r, |qs| - 1), qs[|qs| - 1])
  {
    var before := qs[..|qs| - 1];
    forall k | 0 <= k < |before|
      ensures Misses(r, Begins(r, k), before[k])
    {
      assert before[k] == qs[k];
    }
  }

  /** However many seeks have found nothing, a sweep that cannot end begins another. */
  lemma {:induction false} MissedSeeksGoOn(r: Request, qs: seq<seq<Trial>>)
    requires r.Cut() && !r.CanEnd() && Missed(r, qs)
    ensures SpotAfter(r, Count(qs)) == Trying(Begins(r, |qs|), Begins(r, |qs|))
    decreases |qs|
  {
    if qs != [] {
      var n := |qs| - 1;
      MissedFront(r, qs);
      MissedSeeksGoOn(r, qs[..n]);
      MissIsLast(r);
      SeekMisses(r, Count(qs[..n]), Begins(r, n), qs[n]);
    }
  }

  // ---------- when the sweep ends ----------

  lemma {:induction false} GoesOnForEver(r: Request, n: nat)
    requires r.Cut() && !r.CanEnd()
    ensures SpotAfter(r, n) != Over
  {
    if n > 0 {
      GoesOnForEver(r, n - 1);
      MissIsLast(r);
    }
  }

  /** The walk of a seek from start passes its end after point i. */
  predicate Exits(start: Freq, stop: Freq, s: nat, i: nat) {
    ExitsAt(start, stop, start < stop, s, i)
  }

  /** The walk of the first seek, as far as it does not pass the end. */
  lemma {:induction false} FirstSeekWalks(r: Request, n: nat)
    requires forall i :: 0 <= i < n ==> !Exits(r.start, r.last, r.s, i)
    ensures SpotAfter(r, n) == Trying(r.start, At(r.start, r.start < r.last, r.s, n))
  {
    if n > 0 {
      FirstSeekWalks(r, n - 1);
      AtNext(r.start, r.start < r.last, r.s, n - 1);
      assert !Exits(r.start, r.last, r.s, n - 1);
    }
  }

  /** The first point after which a walk passes the end, if there is one up to k. */
  lemma {:induction false} FirstExit(start: Freq, stop: Freq, s: nat, k: nat) returns (first: nat)
    requires Exits(start, stop, s, k)
    ensures Exits(start, stop, s, first)
    ensures first <= k && forall i :: 0 <= i < first ==> !Exits(start, stop, s, i)
  {
    if i: nat :| i < k && Exits(start, stop, s, i) {
      first := FirstExit(start, stop, s, i);
    } else {
      first := k;
    }
  }

  /** A first seek that passes the end is the only one of a sweep that can end. */
  lemma EndsAfterFirstSeek(r: Request) returns (n: nat)
    requires r.Cut() && r.CanEnd()
    ensures SpotAfter(r, n) == Over
  {
    NothingBefore(r);
    SeekHalts([], [], r, r.start);
    var k := HaltingPoint(r.start, r.last, r.s);
    k := FirstExit(r.start, r.last, r.s, k);
    FirstSeekWalks(r, k);
    AtNext(r.start, r.start < r.last, r.s, k);
    MissIsLast(r);
    n := k + 1;
  }

  /** A sweep of which nothing is accepted makes trial after trial for ever iff it goes down and cannot
      step below its end. */
  lemma NeverEndsIff(r: Request)
    requires r.Cut()
    ensures (forall n: nat :: SpotAfter(r, n) != Over) <==> !r.CanEnd()
  {
    if r.CanEnd() {
      var n := EndsAfterFirstSeek(r);
    } else {
      forall n: nat
        ensures SpotAfter(r, n) != Over
      {
        GoesOnForEver(r, n);
      }
    }
  }

  lemma MissIsNoStep(r: Request, f: Freq)
    requires r.Cut() && Past(f, r.last, r.start < r.last)
    ensures AfterMiss(r) != Trying(r.start, f)
  {}

  /** After n rejected trials the sweep is still in its first seek. */
  predicate InFirstSeek(r: Request, n: nat) {
    SpotAfter(r, n) == Trying(r.start, At(r.start, r.start < r.last, r.s, n))
  }

  lemma FirstSeekLeft(r: Request, k: nat)
    requires r.Cut() && Exits(r.start, r.last, r.s, k) && forall i :: 0 <= i < k ==> !Exits(r.start, r.last, r.s, i)
    ensures !InFirstSeek(r, k + 1)
  {
    var up := r.start < r.last;
    FirstSeekWalks(r, k);
    AtNext(r.start, up, r.s, k);
    assert SpotAfter(r, k + 1) == AfterMiss(r);
    MissIsNoStep(r, At(r.start, up, r.s, k + 1));
  }

  /** There are two ways of not ending: the first seek never returns iff its walk never passes the end. */
  lemma FirstSeekReturnsIff(r: Request)
    requires r.Cut()
    ensures (forall n: nat :: InFirstSeek(r, n)) <==> !Halts(r.start, r.last, r.s)
  {
    HaltsExactly(r.start, r.last, r.s);
    if Halts(r.start, r.last, r.s) {
      var k := HaltingPoint(r.start, r.last, r.s);
      k := FirstExit(r.start, r.last, r.s, k);
      FirstSeekLeft(r, k);
    } else {
      forall n: nat
        ensures InFirstSeek(r, n)
      {
        assert forall i: nat :: Exits(r.start, r.last, r.s, i) ==>
                 ExitsAt(r.start, r.last, r.start < r.last, r.s, i);
        FirstSeekWalks(r, n);
      }
    }
  }
}
