/** When the full-band seek of qndriver.c lists what was asked for, over all sweeps the driver can make. */
module BandIdeal {
  import opened SeekWalk
  import opened SeekLogs
  import opened BandSweep
  import opened SilentSweep
  import opened Trials
  import opened SweepRuns
  import opened BandWrap

  /** A whole number of steps below start, and not below the end of the sweep. */
  predicate OnWayDown(r: Request, f: Freq)
    requires r.s > 0
  {
    r.last <= f <= r.start && (r.start - f) % r.s == 0
  }

  /** A station here spoils the list: at 0, where an upward sweep begins, or on the way down to the band
      from above it. */
  predicate Spoils(r: Request, f: Freq)
    requires r.s > 0
  {
    r.Upward() && if r.start > r.last then OnWayDown(r, f) else r.start == f == 0
  }

  // ---------- a station at 0 ----------

  /** It is not listed: it looks like a seek that found nothing, and the sweep is over. */
  lemma StationAtZero(r: Request, t: Terms) returns (q: seq<Trial>)
    requires r.Cut() && Spoils(r, 0) && Fits(t, r) && Audible(t, 0)
    ensures Seek(q, r, r.start, 0) && Accepts(q[0]) && FairSeek(q, true, t) && Whole(r, q, [])
    ensures !AlwaysIdeal(r, t)
  {
    q := FindsPoint(r, 0, 0, t);
    var accept := f => f == 0;
    FirstBuilt(r, t, accept, q, 0);
    MissIsLast(r);
    var x := Stage(q, [], NextStart(r, 0));
    BuiltIsRun(r, t, accept, x, true);
    ZeroIsAsked(r, accept);
    BuiltRefutes(r, t, accept, x);
  }

  lemma ZeroIsAsked(r: Request, accept: int -> bool)
    requires r.Cut() && Spoils(r, 0) && accept(0)
    ensures Ideal(r.start, r.last, r.Upward(), r.s, accept) != []
  {
    assert Lattice(0, r.last, true, r.s)[0] == 0;
    assert Chosen(Lattice(0, r.last, true, r.s), accept)[0] == 0;
  }

  // ---------- one station on the way down ----------

  lemma PointAbove(start: Freq, s: nat, n: nat, i: nat, f: Freq)
    requires s in {5, 10, 20} && i < n && start - n * s == f
    ensures At(start, false, s, i) > f && At(start, false, s, i + 1) >= f
  {
    if s == 5 {} else if s == 10 {} else {}
  }

  lemma WalkDown(r: Request, f: Freq) returns (n: nat)
    requires r.Cut() && r.start >= r.last && OnWayDown(r, f)
    ensures At(r.start, false, r.s, n) == f
    ensures forall i :: 0 <= i < n ==> !Exits(r.start, r.last, r.s, i) && At(r.start, false, r.s, i) > f
  {
    n := (r.start - f) / r.s;
    assert r.start - n * r.s == f;
    forall i | 0 <= i < n
      ensures !Exits(r.start, r.last, r.s, i) && At(r.start, false, r.s, i) > f
    {
      PointAbove(r.start, r.s, n, i, f);
    }
  }

  /** The seek that finds it. */
  lemma FindsAbove(r: Request, t: Terms, f: Freq) returns (q: seq<Trial>)
    requires r.Cut() && r.start >= r.last && OnWayDown(r, f) && Fits(t, r) && Audible(t, f)
    ensures CanBeMade(q, t) && Seek(q, r, r.start, f) && Agrees(q, g => g == f)
  {
    var n := WalkDown(r, f);
    q := FindsPoint(r, r.start, n, t);
    OnlyTheLast(q, r, n, f);
  }

  lemma OnlyTheLast(q: seq<Trial>, r: Request, n: nat, f: Freq)
    requires r.start >= r.last && |q| == n + 1 && Walked(q, r, r.start) && Accepts(q[n])
    requires At(r.start, false, r.s, n) == f && forall i :: 0 <= i < n ==> At(r.start, false, r.s, i) > f
    ensures q[n].freq == f && Agrees(q, g => g == f)
  {}

  /** A sweep that lists f alone. */
  ghost predicate ListsOnly(r: Request, t: Terms, f: Freq, x: Stage)
    requires Fits(t, r)
  {
    x.list == [f] && Built(r, t, g => g == f, x, false)
  }

  /** The sweep goes on from x, and the seek q finds nothing more. */
  lemma ThenNothing(r: Request, t: Terms, f: Freq, x: Stage, q: seq<Trial>) returns (y: Stage)
    requires r.Cut() && r.CanEnd() && Fits(t, r) && x.list == [f] && Built(r, t, g => g == f, x, true)
    requires Seek(q, r, x.pStart, 0) && CanBeMade(q, t)
    requires forall i :: 0 <= i < |q| ==> !Accepts(q[i]) && q[i].freq != f
    ensures ListsOnly(r, t, f, y)
  {
    BuildsOn(r, t, g => g == f, x, q, 0);
    MissIsLast(r);
    y := Stage(x.q + q, Listed(x.list, 0), NextStart(r, 0));
  }

  /** The first round finds f, which is not 0: the sweep is over, or goes on one step further. */
  lemma BeginsWith(r: Request, t: Terms, f: Freq) returns (x: Stage)
    requires r.Cut() && r.start >= r.last && OnWayDown(r, f) && f != 0 && Fits(t, r) && Audible(t, f)
    ensures x.list == [f] && x.pStart == NextStart(r, f)
    ensures Built(r, t, g => g == f, x, GoesOn(r, NextStart(r, f)))
  {
    var q := FindsAbove(r, t, f);
    FirstBuilt(r, t, g => g == f, q, f);
    assert Listed([], f) == [f];
    x := Stage(q, [f], NextStart(r, f));
  }

  // ---------- above the band ----------

  lemma WithinLast(q: seq<Trial>, r: Request, pStart: Freq)
    requires r.Cut() && r.Upward() && r.start > r.last && Walked(q, r, pStart) && pStart <= r.last
    requires pStart == r.last ==> |q| == 1
    ensures forall i :: 0 <= i < |q| ==> q[i].freq <= r.last
  {
    forall i | 0 <= i < |q|
      ensures q[i].freq <= r.last
    {
      if i > 0 { assert !Exits(pStart, r.last, r.s, i - 1); }
    }
  }

  lemma OneAtEnd(q: seq<Trial>, r: Request)
    requires r.Cut() && r.s <= r.last && Walked(q, r, r.last)
    ensures |q| == 1
  {
    if |q| > 1 {
      assert Exits(r.last, r.last, r.s, 0);
    }
  }

  /** If the next step is past 16 bits the sweep goes on from the bottom, and may find nothing there. */
  lemma NothingBelow(r: Request, t: Terms, x: Stage) returns (q: seq<Trial>)
    requires r.Cut() && r.Upward() && r.start > r.last && Fits(t, r) && Made(r, x, true) && x.pStart <= r.last
    ensures CanBeMade(q, t) && Seek(q, r, x.pStart, 0)
    ensures forall i :: 0 <= i < |q| ==> !Accepts(q[i]) && q[i].freq <= r.last
  {
    MadeHolds(r, x, true);
    SeekHalts(x.q, x.list, r, x.pStart);
    q := FindsNothing(r, x.pStart, t);
    if x.pStart == r.last { OneAtEnd(q, r); }
    WithinLast(q, r, x.pStart);
  }

  lemma StepPast(r: Request, f: Freq)
    requires r.Cut() && r.Upward() && r.start > r.last && r.last <= f
    ensures f > 0 && (GoesOn(r, NextStart(r, f)) ==> f > r.last && NextStart(r, f) <= r.last)
  {}

  lemma SweepFromAbove(r: Request, t: Terms, f: Freq) returns (x: Stage)
    requires r.Cut() && r.start > r.last && Spoils(r, f) && Fits(t, r) && Audible(t, f)
    ensures ListsOnly(r, t, f, x)
  {
    StepPast(r, f);
    x := BeginsWith(r, t, f);
    if GoesOn(r, NextStart(r, f)) {
      var q := NothingBelow(r, t, x);
      x := ThenNothing(r, t, f, x, q);
    }
  }

  /** Above the band nothing is asked for, and yet the first seek, going down, may find something. */
  lemma StationAbove(r: Request, t: Terms, f: Freq) returns (q: seq<Trial>)
    requires r.Cut() && r.start > r.last && Spoils(r, f) && Fits(t, r) && Audible(t, f)
    ensures FairSeek(q, true, t) && Whole(r, q, [f]) && !AlwaysIdeal(r, t)
  {
    var x := SweepFromAbove(r, t, f);
    q := x.q;
    BuiltIsRun(r, t, g => g == f, x, true);
    NothingAsked(r, g => g == f);
    BuiltRefutes(r, t, g => g == f, x);
  }

  lemma NothingAsked(r: Request, accept: int -> bool)
    requires r.s > 0 && r.Upward() && r.start > r.last
    ensures Ideal(r.start, r.last, r.Upward(), r.s, accept) == []
  {
    assert Lattice(r.start, r.last, true, r.s) == [];
  }

  // ---------- below the stop ----------

  lemma StepDown(r: Request, f: Freq)
    requires r.Cut() && r.last < r.stop && r.last <= f && !r.Upward()
    ensures f > 0 && r.CanEnd() && NextStart(r, f) == f - r.s
  {}

  lemma NoneIsThat(q: seq<Trial>, start: Freq, stop: Freq, s: nat, f: Freq)
    requires 0 < s <= stop <= start < f && SeekLog(q, start, stop, false, s, false)
    ensures forall i :: 0 <= i < |q| ==> !Accepts(q[i]) && q[i].freq != f
  {
    SeekSweeps(q, start, stop, false, s, false);
    forall i | 0 <= i < |q|
      ensures !Accepts(q[i]) && q[i].freq != f
    {
      assert q[i].freq == start - i * s && i * s >= 0;
    }
  }

  /** The next seek may find nothing more. */
  lemma NothingBelowThat(r: Request, t: Terms, x: Stage, f: Freq) returns (q: seq<Trial>)
    requires r.Cut() && r.CanEnd() && !r.Upward() && Fits(t, r) && Made(r, x, true) && r.last <= x.pStart < f
    ensures CanBeMade(q, t) && Seek(q, r, x.pStart, 0)
    ensures forall i :: 0 <= i < |q| ==> !Accepts(q[i]) && q[i].freq != f
  {
    MadeHolds(r, x, true);
    SeekHalts(x.q, x.list, r, x.pStart);
    q := FindsNothing(r, x.pStart, t);
    NoneIsThat(q, x.pStart, r.last, r.s, f);
  }

  /** A downward sweep with its stop above the band goes on below that stop, to the end of the band. */
  lemma StationBelowStop(r: Request, t: Terms, f: Freq) returns (q: seq<Trial>)
    requires r.Cut() && !r.Upward() && r.last <= f < r.stop && OnWayDown(r, f) && Fits(t, r) && Audible(t, f)
    ensures FairSeek(q, true, t) && Whole(r, q, [f])
  {
    StepDown(r, f);
    var x := BeginsWith(r, t, f);
    if GoesOn(r, NextStart(r, f)) {
      var more := NothingBelowThat(r, t, x, f);
      x := ThenNothing(r, t, f, x, more);
    }
    q := x.q;
    BuiltIsRun(r, t, g => g == f, x, true);
  }

  /** No sweep lists a station that is not as high as the stop. */
  ghost predicate NeverBelowStop(r: Request, t: Terms) {
    forall q, list, still :: FairSeek(q, still, t) && Whole(r, q, list) ==>
      forall k :: 0 <= k < |list| ==> list[k] >= r.stop
  }

  /** What is listed was accepted. */
  lemma {:induction false} HitIsTrial(q: seq<Trial>, k: nat) returns (i: nat)
    requires k < |Hits(q)|
    ensures i < |q| && Accepts(q[i]) && q[i].freq == Hits(q)[k]
  {
    if Accepts(q[0]) && k == 0 {
      i := 0;
    } else {
      i := HitIsTrial(q[1..], if Accepts(q[0]) then k - 1 else k);
      i := i + 1;
    }
  }

  lemma SweptOnWayDown(q: seq<Trial>, r: Request, i: nat)
    requires r.Cut() && Swept(q, r.start, r.last, false, r.s) && i < |q|
    ensures OnWayDown(r, q[i].freq)
  {
    assert q[i].freq == r.start - i * r.s && i * r.s >= 0;
    MultipleOf(i, r.s);
  }

  lemma ListedIsHeard(q: seq<Trial>, list: seq<int>, r: Request, t: Terms, still: bool, k: nat) returns (f: Freq)
    requires r.Cut() && r.CanEnd() && !r.Upward() && Fits(t, r)
    requires FairSeek(q, still, t) && Whole(r, q, list) && k < |list|
    ensures f == list[k] && OnWayDown(r, f) && Audible(t, f)
  {
    WholeOutcome(r, q, list);
    var i := HitIsTrial(q, k);
    f := q[i].freq;
    SweptOnWayDown(q, r, i);
    assert Fair(q[i], Settled(q, i, still), t);
    if !Audible(t, f) { InaudibleIsRejected(q[i], Settled(q, i, still), t); }
  }

  /** A downward sweep keeps to the stop it was given iff no station can be heard between the stop and the
      end of the band below it. */
  lemma NeverBelowStopIff(r: Request, t: Terms)
    requires r.Cut() && r.CanEnd() && !r.Upward() && Fits(t, r)
    ensures NeverBelowStop(r, t) <==> forall f: Freq :: OnWayDown(r, f) && f < r.stop ==> !Audible(t, f)
  {
    if f: Freq :| OnWayDown(r, f) && f < r.stop && Audible(t, f) {
      var q := StationBelowStop(r, t, f);
      assert [f][0] < r.stop;
    } else {
      forall q, list, still, k | FairSeek(q, still, t) && Whole(r, q, list) && 0 <= k < |list|
        ensures list[k] >= r.stop
      {
        var f := ListedIsHeard(q, list, r, t, still, k);
      }
    }
  }

  // ---------- the exact condition ----------

  /** Nothing that could spoil the list can be heard: an upward sweep from 0. */
  lemma ZeroIsQuiet(q: seq<Trial>, list: seq<int>, r: Request, t: Terms, still: bool, accept: int -> bool)
    requires r.Cut() && r.Upward() && r.start == 0 && Fits(t, r) && !Audible(t, 0)
    requires FairSeek(q, still, t) && Outcome(q, list, r) && Agrees(q, accept)
    ensures list == Ideal(r.start, r.last, r.Upward(), r.s, accept)
  {
    if q != [] {
      assert Fair(q[0], Settled(q, 0, still), t);
      InaudibleIsRejected(q[0], Settled(q, 0, still), t);
    }
    SweepFindsChosen(q, r.start, r.last, r.Upward(), r.s, MAX_CHANNELS, accept);
  }

  /** The points tried on the way down are those where a station spoils the list. */
  lemma WayDown(q: seq<Trial>, r: Request, n: nat, i: nat)
    requires r.Cut() && r.Upward() && r.start > r.last && DownFirst(q, r, n) && i < n
    ensures Spoils(r, q[i].freq)
  {
    var d := q[..n];
    SeekSweeps(d, r.start, r.last, false, r.s, Accepts(q[n - 1]));
    assert d[i] == q[i] && q[i].freq == r.start - i * r.s;
    assert (r.start - q[i].freq) % r.s == (i * r.s) % r.s;
    MultipleOf(i, r.s);
  }

  lemma MultipleOf(i: nat, s: nat)
    requires s in {5, 10, 20}
    ensures (i * s) % s == 0
  {
    if s == 5 {} else if s == 10 {} else {}
  }

  /** Nothing that could spoil the list can be heard: an upward sweep from above the band. */
  lemma AboveIsQuiet(q: seq<Trial>, list: seq<int>, r: Request, t: Terms, still: bool)
    requires r.Cut() && r.Upward() && r.start > r.last && Fits(t, r)
    requires forall f: Freq :: Spoils(r, f) ==> !Audible(t, f)
    requires FairSeek(q, still, t) && Outcome(q, list, r)
    ensures list == []
  {
    var n: nat :| DownFirst(q, r, n) && (n < |q| <==> Wraps(q[n - 1], r));
    forall i | 0 <= i < n
      ensures !Accepts(q[i])
    {
      WayDown(q, r, n, i);
      assert Fair(q[i], Settled(q, i, still), t);
      InaudibleIsRejected(q[i], Settled(q, i, still), t);
    }
    assert !Wraps(q[n - 1], r);
    NoHits(q);
  }

  lemma QuietIsIdeal(q: seq<Trial>, list: seq<int>, r: Request, t: Terms, still: bool, accept: int -> bool)
    requires r.Cut() && r.CanEnd() && Fits(t, r) && forall f: Freq :: Spoils(r, f) ==> !Audible(t, f)
    requires Run(q, list, accept, still, r, t)
    ensures list == Ideal(r.start, r.last, r.Upward(), r.s, accept)
  {
    WholeOutcome(r, q, list);
    if r.Proper() {
      ProperSweepIsIdeal(q, list, r, accept);
    } else if r.start == 0 {
      assert Spoils(r, 0);
      ZeroIsQuiet(q, list, r, t, still, accept);
    } else {
      AboveIsQuiet(q, list, r, t, still);
      NothingAsked(r, accept);
    }
  }

  /** Of the sweeps that can end: the list is right iff no station that spoils it can be heard. */
  lemma IdealIffQuiet(r: Request, t: Terms)
    requires r.Cut() && r.CanEnd() && Fits(t, r)
    ensures AlwaysIdeal(r, t) <==> forall f: Freq :: Spoils(r, f) ==> !Audible(t, f)
  {
    if f: Freq :| Spoils(r, f) && Audible(t, f) {
      if r.start > r.last { var q := StationAbove(r, t, f); } else { var q := StationAtZero(r, t); }
    } else {
      forall q, list, accept, still | Run(q, list, accept, still, r, t)
        ensures list == Ideal(r.start, r.last, r.Upward(), r.s, accept)
      {
        QuietIsIdeal(q, list, r, t, still, accept);
      }
    }
  }

  /** A full-band seek always ends and lists what was asked for, whatever the chip reports, iff it goes up
      or can step below its end, and no station that spoils the list can be heard over the noise floor. */
  lemma AlwaysIdealIff(r: Request, t: Terms)
    requires r.Cut() && Fits(t, r)
    ensures AlwaysEnds(r, t) && AlwaysIdeal(r, t) <==>
            r.CanEnd() && forall f: Freq :: Spoils(r, f) ==> !Audible(t, f)
    ensures AlwaysEnds(r, t) <==> r.CanEnd()
  {
    if r.CanEnd() {
      EndsIfItCan(r, t);
      IdealIffQuiet(r, t);
    } else {
      EndsOnlyIfItCan(r, t);
    }
  }

  /** The guards a caller can check.  If a station can be heard anywhere, every sweep that comes to its end
      lists what was asked for iff it goes down to an end it can step below, or goes up and begins above 0
      and within the country's band. */
  lemma AlwaysIdealIffProper(r: Request, t: Terms)
    requires r.Cut() && Fits(t, r) && forall f: Freq :: Audible(t, f)
    ensures AlwaysIdeal(r, t) <==> r.CanEnd() && r.Proper()
  {
    if r.CanEnd() {
      IdealIffQuiet(r, t);
      if !r.Proper() { assert Spoils(r, r.start) && Audible(t, r.start); }
    } else {
      WrapsAreNotIdeal(r, t);
    }
  }
}
