/** A downward full-band seek of qndriver.c whose end is less than one step above 0: it comes back in at
    the top of the 16 bits and lists stations there. */
module BandWrap {
  import opened SeekWalk
  import opened SeekLogs
  import opened BandSweep
  import opened SilentSweep
  import opened Trials
  import opened SweepRuns

  /** Where such a sweep goes on when a seek has found nothing. */
  function Top(r: Request): Freq {
    NextStart(r, 0)
  }

  lemma TopIsHigh(r: Request)
    requires r.Cut() && !r.CanEnd()
    ensures Top(r) == r.last - r.s + RANGE && r.last < r.s && r.last <= r.start
  {}

  lemma HighStep(r: Request, f: Freq)
    requires r.Cut() && !r.CanEnd() && f >= r.last + r.s
    ensures NextStart(r, f) == f - r.s && GoesOn(r, f - r.s)
  {}

  // ---------- fifty stations one step apart ----------

  /** n points from x down. */
  predicate InRow(x: int, s: nat, n: nat, g: int)
    requires s > 0
  {
    x - n * s < g <= x && (x - g) % s == 0
  }

  lemma PointInRow(x: int, s: nat, n: nat, k: nat)
    requires s in {5, 10, 20} && k < n
    ensures InRow(x, s, n, x - k * s)
  {
    if s == 5 {} else if s == 10 {} else {}
  }

  lemma AtOnce(r: Request, t: Terms, f: Freq) returns (q: seq<Trial>)
    requires Fits(t, r) && Audible(t, f)
    ensures CanBeMade(q, t) && |q| == 1 && q[0].freq == f && Accepts(q[0]) && Seek(q, r, f, f)
  {
    assert At(f, f < r.last, r.s, 0) == f;
    q := FindsPoint(r, f, 0, t);
  }

  /** The row goes on down from x: its list is as long as the points above it. */
  predicate OnRow(r: Request, top: Freq, x: Stage) {
    |x.list| <= MAX_CHANNELS && x.pStart == top - |x.list| * r.s
  }

  lemma RowStep(r: Request, top: Freq, x: Stage)
    requires r.Cut() && !r.CanEnd() && OnRow(r, top, x) && |x.list| < MAX_CHANNELS && top > r.last + MAX_CHANNELS * r.s
    ensures var next := NextStart(r, x.pStart);
            x.pStart != 0 && next == x.pStart - r.s && GoesOn(r, next) &&
            OnRow(r, top, Stage(x.q, x.list + [x.pStart], next))
  {
    if r.s == 5 {} else if r.s == 10 {} else {}
  }

  /** One more station of a row. */
  lemma FindsNext(r: Request, t: Terms, accept: int -> bool, top: Freq, x: Stage) returns (y: Stage)
    requires r.Cut() && !r.CanEnd() && Fits(t, r) && Built(r, t, accept, x, true) && OnRow(r, top, x)
    requires Audible(t, x.pStart) && accept(x.pStart)
    requires |x.list| < MAX_CHANNELS && top > r.last + MAX_CHANNELS * r.s
    ensures Built(r, t, accept, y, |y.list| < MAX_CHANNELS) && OnRow(r, top, y) && |y.list| == |x.list| + 1
  {
    var f := x.pStart;
    RowStep(r, top, x);
    var q := AtOnce(r, t, f);
    BuildsOn(r, t, accept, x, q, f);
    y := Stage(x.q + q, x.list + [f], NextStart(r, f));
  }

  /** All that are missing to the fifty. */
  lemma {:induction false} FindsRow(r: Request, t: Terms, accept: int -> bool, top: Freq, x: Stage) returns (y: Stage)
    requires r.Cut() && !r.CanEnd() && Fits(t, r) && forall f: Freq :: Audible(t, f)
    requires Built(r, t, accept, x, true) && OnRow(r, top, x) && |x.list| < MAX_CHANNELS
    requires top > r.last + MAX_CHANNELS * r.s && forall g :: InRow(top, r.s, MAX_CHANNELS, g) ==> accept(g)
    ensures Built(r, t, accept, y, false) && |y.list| == MAX_CHANNELS
    decreases MAX_CHANNELS - |x.list|
  {
    PointInRow(top, r.s, MAX_CHANNELS, |x.list|);
    y := FindsNext(r, t, accept, top, x);
    if |y.list| < MAX_CHANNELS { y := FindsRow(r, t, accept, top, y); }
  }

  // ---------- the points asked for ----------

  /** The points of the lattice are whole steps below its start, and not below its end. */
  lemma {:induction false} LatticePoints(f: int, stop: int, s: nat, k: nat)
    requires s in {5, 10, 20} && k < |Lattice(f, stop, false, s)|
    ensures var g := Lattice(f, stop, false, s)[k];
            stop <= g <= f && (f - g) % s == 0 && (k == 0 ==> g == f) && (k > 0 ==> g < f)
    decreases k
  {
    if k > 0 {
      LatticePoints(f - s, stop, s, k - 1);
      OneStepMore(f - s - Lattice(f, stop, false, s)[k], s);
    }
  }

  lemma OneStepMore(d: int, s: nat)
    requires s in {5, 10, 20} && d % s == 0
    ensures (d + s) % s == 0
  {
    if s == 5 {
      assert (d + 5) % 5 == 0;
    } else if s == 10 {
      assert (d + 10) % 10 == 0;
    } else {
      assert (d + 20) % 20 == 0;
    }
  }

  /** Nothing is asked for if no point of the lattice is accepted. */
  lemma NoneAsked(r: Request, accept: int -> bool)
    requires r.Cut() && !r.Upward()
    requires forall g :: r.last <= g <= r.start && (r.start - g) % r.s == 0 ==> !accept(g)
    ensures Ideal(r.start, r.last, r.Upward(), r.s, accept) == []
  {
    var fs := Lattice(r.start, r.last, false, r.s);
    forall k | 0 <= k < |fs|
      ensures !accept(fs[k])
    {
      LatticePoints(r.start, r.last, r.s, k);
    }
    ChosenNone(fs, accept);
  }

  // ---------- the walk down ----------

  lemma StepsFit(f: Freq, s: nat, i: nat)
    requires s in {5, 10, 20} && i <= f / s
    ensures f - i * s >= f % s && (i * s) % s == 0 && (i == f / s ==> f - i * s == f % s)
  {
    if s == 5 {} else if s == 10 {} else {}
  }

  lemma StepsDown(f: Freq, s: nat, i: nat)
    requires s in {5, 10, 20} && i <= f / s
    ensures At(f, false, s, i) == f - i * s >= f % s
    ensures (f - At(f, false, s, i)) % s == 0
    ensures i == f / s ==> At(f, false, s, i) == f % s
  {
    StepsFit(f, s, i);
    StaysSmall(f, i * s);
  }

  lemma StaysSmall(f: Freq, d: nat)
    ensures d <= f ==> (f - d) % RANGE == f - d
  {}

  /** A seek that ends at the bottom of the 16 bits, with nothing found. */
  lemma MissesDown(r: Request, t: Terms, f: Freq) returns (q: seq<Trial>)
    requires r.Cut() && !r.CanEnd() && Fits(t, r) && r.last <= f && f % r.s < r.last
    ensures CanBeMade(q, t) && Seek(q, r, f, 0)
    ensures forall i :: 0 <= i < |q| ==>
              !Accepts(q[i]) && r.last <= q[i].freq <= f && (f - q[i].freq) % r.s == 0
  {
    var n := f / r.s;
    assert n > 0;
    StepsDown(f, r.s, n);
    assert ExitsAt(f, r.last, f < r.last, r.s, n - 1) && Exits(f, r.last, r.s, n - 1);
    HaltsExactly(f, r.last, r.s);
    q := FindsNothing(r, f, t);
    assert |q| <= n;
    WalkedDown(q, r, f);
  }

  lemma WalkedDown(q: seq<Trial>, r: Request, f: Freq)
    requires r.Cut() && r.last <= f && Walked(q, r, f) && |q| <= f / r.s
    ensures forall i :: 0 <= i < |q| ==> r.last <= q[i].freq <= f && (f - q[i].freq) % r.s == 0
  {
    forall i | 0 <= i < |q|
      ensures r.last <= q[i].freq <= f && (f - q[i].freq) % r.s == 0
    {
      StepsDown(f, r.s, i);
      if i > 0 { assert !Exits(f, r.last, r.s, i - 1); }
    }
  }

  /** The first point after the walk down from start has passed the bottom. */
  function Across(r: Request): Freq {
    NextFreq(if r.s == 0 then 0 else r.start % r.s, false, r.s)
  }

  lemma AcrossIsHigh(r: Request)
    requires r.Cut() && !r.CanEnd()
    ensures Across(r) == r.start % r.s - r.s + RANGE && At(r.start, false, r.s, r.start / r.s + 1) == Across(r)
  {
    StepsDown(r.start, r.s, r.start / r.s);
    AtNext(r.start, false, r.s, r.start / r.s);
  }

  lemma NoExitBefore(r: Request, i: nat)
    requires r.Cut() && !r.CanEnd() && r.start % r.s >= r.last && i <= r.start / r.s
    ensures !Exits(r.start, r.last, r.s, i)
  {
    TopIsHigh(r);
    if i < r.start / r.s { StepsDown(r.start, r.s, i + 1); } else { AcrossIsHigh(r); }
  }

  /** On the way down from start. */
  predicate Above(r: Request, f: int)
    requires r.s > 0
  {
    0 <= f <= r.start && (r.start - f) % r.s == 0
  }

  lemma AboveOnWay(r: Request, i: nat)
    requires r.Cut() && i <= r.start / r.s
    ensures Above(r, At(r.start, false, r.s, i))
  {
    StepsDown(r.start, r.s, i);
  }

  /** The walk across the bottom: to x, high above the end of the sweep, through points above the bottom. */
  lemma WalkAcross(r: Request) returns (n: nat, x: Freq)
    requires r.Cut() && !r.CanEnd() && r.start % r.s >= r.last
    ensures x == Across(r) == At(r.start, false, r.s, n) && x > r.last + MAX_CHANNELS * r.s
    ensures forall i :: 0 <= i < n ==> !Exits(r.start, r.last, r.s, i) && Above(r, At(r.start, false, r.s, i))
  {
    n, x := r.start / r.s + 1, Across(r);
    AcrossIsHigh(r);
    TopIsHigh(r);
    forall i | 0 <= i < n
      ensures !Exits(r.start, r.last, r.s, i) && Above(r, At(r.start, false, r.s, i))
    {
      NoExitBefore(r, i);
      AboveOnWay(r, i);
    }
  }

  /** The seek that finds x, the n-th point. */
  lemma FindsAcross(r: Request, t: Terms, accept: int -> bool, n: nat, x: Freq) returns (q: seq<Trial>)
    requires r.s > 0 && Fits(t, r) && Audible(t, x) && r.start >= r.last && x == At(r.start, false, r.s, n)
    requires forall i :: 0 <= i < n ==> !Exits(r.start, r.last, r.s, i) && Above(r, At(r.start, false, r.s, i))
    requires accept(x) && forall g: int :: Above(r, g) ==> !accept(g)
    ensures CanBeMade(q, t) && Seek(q, r, r.start, x) && Agrees(q, accept)
  {
    q := FindsPoint(r, r.start, n, t);
    forall i | 0 <= i < |q|
      ensures Accepts(q[i]) == accept(q[i].freq)
    {
      if i < n { assert q[i].freq == At(r.start, false, r.s, i); }
    }
  }

  // ---------- a list of what was not asked for ----------

  /** Residues do not meet across the end of the 16 bits. */
  lemma Apart(start: Freq, s: nat, g: int)
    requires s in {5, 10, 20} && 0 <= g <= start && (start - g) % s == 0
    ensures (start % s - s + RANGE - g) % s != 0
  {
    if s == 5 {} else if s == 10 {} else {}
  }

  lemma StillApart(top: int, start: int, s: nat, g: int)
    requires s in {5, 10, 20} && (start - g) % s == 0 && (top - start) % s != 0
    ensures (top - g) % s != 0
  {
    if s == 5 {} else if s == 10 {} else {}
  }

  lemma NotInRow(r: Request, n: nat, g: int)
    requires r.Cut() && !r.CanEnd() && Above(r, g)
    ensures !InRow(Across(r), r.s, n, g)
  {
    AcrossIsHigh(r);
    Apart(r.start, r.s, g);
  }

  /** The first seek has come in at x. */
  lemma ComesIn(r: Request, t: Terms, accept: int -> bool, q: seq<Trial>, x: Freq)
    requires r.Cut() && !r.CanEnd() && Fits(t, r) && x > r.last + MAX_CHANNELS * r.s
    requires Built(r, t, accept, Stage(q, Listed([], x), NextStart(r, x)), GoesOn(r, NextStart(r, x)))
    ensures var y := Stage(q, [x], x - r.s); Built(r, t, accept, y, true) && OnRow(r, x, y)
  {
    HighStep(r, x);
    assert Listed([], x) == [x];
  }

  /** Fifty stations are found from there on. */
  lemma ListsAcross(r: Request, t: Terms)
    requires r.Cut() && !r.CanEnd() && Fits(t, r) && r.start % r.s >= r.last && forall f: Freq :: Audible(t, f)
    ensures !AlwaysIdeal(r, t)
  {
    var n, x := WalkAcross(r);
    var accept := g => InRow(x, r.s, MAX_CHANNELS, g);
    forall g: int | Above(r, g)
      ensures !accept(g)
    {
      NotInRow(r, MAX_CHANNELS, g);
    }
    PointInRow(x, r.s, MAX_CHANNELS, 0);
    TopIsHigh(r);
    var q := FindsAcross(r, t, accept, n, x);
    FirstBuilt(r, t, accept, q, x);
    ComesIn(r, t, accept, q, x);
    var y := FindsRow(r, t, accept, x, Stage(q, [x], x - r.s));
    forall g | r.last <= g <= r.start && (r.start - g) % r.s == 0
      ensures !accept(g)
    {
      assert Above(r, g);
    }
    NoneAsked(r, accept);
    BuiltRefutes(r, t, accept, y);
  }

  /** The first seek finds nothing, the next begins at the top, on points that were not asked for. */
  lemma ListsAtTop(r: Request, t: Terms)
    requires r.Cut() && !r.CanEnd() && Fits(t, r) && r.start % r.s < r.last && forall f: Freq :: Audible(t, f)
    requires (Top(r) - r.start) % r.s != 0
    ensures !AlwaysIdeal(r, t)
  {
    TopIsHigh(r);
    var accept := g => InRow(Top(r), r.s, MAX_CHANNELS, g);
    forall g | r.last <= g <= r.start && (r.start - g) % r.s == 0
      ensures !accept(g)
    {
      StillApart(Top(r), r.start, r.s, g);
    }
    NothingBuilt(r, t, accept);
    var x := BackToTop(r, t, accept, Stage([], [], r.start));
    x := FindsRow(r, t, accept, Top(r), x);
    NoneAsked(r, accept);
    BuiltRefutes(r, t, accept, x);
  }

  // ---------- one station again and again ----------

  lemma TopOnGrid(r: Request)
    requires r.Cut() && !r.CanEnd() && r.start % r.s < r.last && (Top(r) - r.start) % r.s == 0
    ensures r.start <= Top(r) && Top(r) % r.s < r.last && (Top(r) - r.s) % r.s < r.last
  {
    TopIsHigh(r);
    if r.s == 5 {} else if r.s == 10 {} else {}
  }

  /** The station at the top is found. */
  lemma FindsTop(r: Request, t: Terms, accept: int -> bool, x: Stage) returns (y: Stage)
    requires r.Cut() && !r.CanEnd() && Fits(t, r) && Audible(t, Top(r)) && Built(r, t, accept, x, true)
    requires x.pStart == Top(r) && |x.list| < MAX_CHANNELS && accept(Top(r))
    ensures Built(r, t, accept, y, |y.list| < MAX_CHANNELS) && |y.list| == |x.list| + 1 && y.pStart == Top(r) - r.s
  {
    TopIsHigh(r);
    HighStep(r, Top(r));
    var q := AtOnce(r, t, Top(r));
    BuildsOn(r, t, accept, x, q, Top(r));
    y := Stage(x.q + q, Listed(x.list, Top(r)), Top(r) - r.s);
  }

  /** A seek finds nothing down to the bottom, and the next is to begin at the top. */
  lemma BackToTop(r: Request, t: Terms, accept: int -> bool, x: Stage) returns (y: Stage)
    requires r.Cut() && !r.CanEnd() && Fits(t, r) && Built(r, t, accept, x, true)
    requires r.last <= x.pStart && x.pStart % r.s < r.last && |x.list| < MAX_CHANNELS
    requires forall g :: r.last <= g <= x.pStart && (x.pStart - g) % r.s == 0 ==> !accept(g)
    ensures Built(r, t, accept, y, true) && y.list == x.list && y.pStart == Top(r)
  {
    TopIsHigh(r);
    var q := MissesDown(r, t, x.pStart);
    BuildsOn(r, t, accept, x, q, 0);
    y := Stage(x.q + q, Listed(x.list, 0), Top(r));
  }

  /** Both again and again, until the list is full. */
  lemma {:induction false} FindsAgain(r: Request, t: Terms, accept: int -> bool, x: Stage) returns (y: Stage)
    requires r.Cut() && !r.CanEnd() && Fits(t, r) && Audible(t, Top(r)) && Built(r, t, accept, x, true)
    requires x.pStart == Top(r) && |x.list| < MAX_CHANNELS && (Top(r) - r.s) % r.s < r.last
    requires forall g :: accept(g) <==> g == Top(r)
    ensures Built(r, t, accept, y, false) && |y.list| == MAX_CHANNELS
    decreases MAX_CHANNELS - |x.list|
  {
    TopIsHigh(r);
    y := FindsTop(r, t, accept, x);
    if |y.list| < MAX_CHANNELS {
      y := BackToTop(r, t, accept, y);
      y := FindsAgain(r, t, accept, y);
    }
  }

  /** At most one point of the lattice is this one, which is not below its start. */
  lemma OneAsked(r: Request, w: Freq, accept: int -> bool)
    requires r.Cut() && !r.Upward() && r.start <= w && forall g :: accept(g) <==> g == w
    ensures |Ideal(r.start, r.last, r.Upward(), r.s, accept)| <= 1
  {
    var fs := Lattice(r.start, r.last, false, r.s);
    if fs != [] {
      forall k | 0 <= k < |fs| - 1
        ensures !accept(fs[1..][k])
      {
        LatticePoints(r.start, r.last, r.s, k + 1);
      }
      ChosenNone(fs[1..], accept);
    }
  }

  /** The first point of the top may be asked for, but not fifty times. */
  lemma ListsTheSame(r: Request, t: Terms)
    requires r.Cut() && !r.CanEnd() && Fits(t, r) && r.start % r.s < r.last && forall f: Freq :: Audible(t, f)
    requires (Top(r) - r.start) % r.s == 0
    ensures !AlwaysIdeal(r, t)
  {
    TopOnGrid(r);
    TopIsHigh(r);
    var accept := g => g == Top(r);
    NothingBuilt(r, t, accept);
    var x := Stage([], [], r.start);
    if r.start != Top(r) { x := BackToTop(r, t, accept, x); }
    x := FindsAgain(r, t, accept, x);
    OneAsked(r, Top(r), accept);
    BuiltRefutes(r, t, accept, x);
  }

  /** Where stations can be heard, no such sweep lists what was asked for whatever the chip reports. */
  lemma WrapsAreNotIdeal(r: Request, t: Terms)
    requires r.Cut() && !r.CanEnd() && Fits(t, r) && forall f: Freq :: Audible(t, f)
    ensures !AlwaysIdeal(r, t)
  {
    if r.start % r.s >= r.last {
      ListsAcross(r, t);
    } else if (Top(r) - r.start) % r.s != 0 {
      ListsAtTop(r, t);
    } else {
      ListsTheSame(r, t);
    }
  }
}
