/** Full-band seeks of qndriver.c that can happen: trials with the reports of the chip they are judged by,
    put together to the driver's seeks. */
module SweepRuns {
  import opened Bytes
  import opened SeekWalk
  import opened SeekLogs
  import opened BandSweep
  import opened SilentSweep
  import opened TunerChip
  import opened TunerFields
  import opened NoiseBands
  import opened Trials

  /** The floors and the threshold are 8-bit numbers, and the step is the one asked for. */
  predicate Fits(t: Terms, r: Request) {
    |t.bb| == BANDS + 1 && |t.rssin| == BANDS && (forall i :: 0 <= i < BANDS ==> t.rssin[i] < 256) &&
    t.db < 256 && t.step < 3 && StepValue(t.step) == r.s
  }

  function FloorAt(t: Terms, f: Freq): nat
    requires |t.bb| == BANDS + 1 && |t.rssin| == BANDS
  {
    t.rssin[BandOf(t.bb, f)]
  }

  /** The floor leaves room for a signal that is strong enough. */
  predicate Audible(t: Terms, f: Freq)
    requires |t.bb| == BANDS + 1 && |t.rssin| == BANDS
  {
    FloorAt(t, f) + 6 + t.db < 255
  }

  /** A whole sweep as the driver makes it, and a verdict for every point that fits it. */
  ghost predicate Run(q: seq<Trial>, list: seq<int>, accept: int -> bool, still: bool, r: Request, t: Terms) {
    FairSeek(q, still, t) && Whole(r, q, list) && Agrees(q, accept)
  }

  /** The list is the first fifty accepted points of the band, whatever the chip reports. */
  ghost predicate AlwaysIdeal(r: Request, t: Terms)
    requires r.s > 0
  {
    forall q, list, accept, still :: Run(q, list, accept, still, r, t) ==>
      list == Ideal(r.start, r.last, r.Upward(), r.s, accept)
  }

  // ---------- trials the driver can make ----------

  const SEVEN := Byte(false, false, false, false, false, true, true, true)
  const OX_D0 := Byte(true, true, false, true, false, false, false, false)

  /** A report with the chip on the trial's channel and told to scan that one frequency. */
  function Reported(addr: nat, value: Byte, f: Freq, t: Terms): (p: Report)
    requires |t.bb| == BANDS + 1 && |t.rssin| == BANDS
    ensures Genuine(p)
  {
    Report(addr, value, ToNat(value), ChannelReg(f) % 1024, Asked(f, t.step, FloorAt(t, f), t.db))
  }

  /** The chip reports the strongest signal, confirms it at once, and has a pilot to show if asked. */
  function StationReports(f: Freq, t: Terms): seq<Report>
    requires |t.bb| == BANDS + 1 && |t.rssin| == BANDS
  {
    [Reported(RSSISIG, ONES, f, t), Reported(REQUEST, SCAN_ON, f, t), Reported(SYSTEM1, ZERO, f, t),
     Reported(CCA5, SEVEN, f, t), Reported(CCA4, OX_D0, f, t)] +
    if 255 <= FloorAt(t, f) + 20 + t.db then [Reported(STATUS1, ZERO, f, t)] else []
  }

  function Station(f: Freq, t: Terms): Trial
    requires |t.bb| == BANDS + 1 && |t.rssin| == BANDS
  {
    Trial(f, FloorAt(t, f), t.db, 255, 1, 2000, false, 0, StationReports(f, t))
  }

  function Noise(f: Freq, t: Terms): Trial
    requires |t.bb| == BANDS + 1 && |t.rssin| == BANDS
  {
    Trial(f, FloorAt(t, f), t.db, 0, 0, 0, true, 0, [Reported(RSSISIG, ZERO, f, t)])
  }

  lemma Numbers()
    ensures ToNat(ONES) == 255 && ToNat(ZERO) == 0 && ToNat(OX_D0) == 208 && ToNat(SEVEN) == 7
    ensures And(SEVEN, COUNT_BITS) == SEVEN && And(SCAN_ON, SCAN_BITS) == SCAN_ON
  {}

  lemma StationIsFair(f: Freq, t: Terms, settled: bool)
    requires |t.bb| == BANDS + 1 && |t.rssin| == BANDS && Audible(t, f)
    ensures Fair(Station(f, t), settled, t) && Accepts(Station(f, t))
  {
    Numbers();
    var u := Station(f, t);
    assert u.ifcnt == IfCount(u.answers[3].value, u.answers[4].value);
    assert Polled(u, t.step);
  }

  lemma NoiseIsFair(f: Freq, t: Terms, settled: bool)
    requires |t.bb| == BANDS + 1 && |t.rssin| == BANDS
    ensures Fair(Noise(f, t), settled, t) && !Accepts(Noise(f, t))
  {
    Numbers();
  }

  /** A trial where the floor leaves no room is rejected. */
  lemma InaudibleIsRejected(u: Trial, settled: bool, t: Terms)
    requires |t.bb| == BANDS + 1 && |t.rssin| == BANDS && Fair(u, settled, t) && !Audible(t, u.freq)
    ensures !Accepts(u)
  {
    assert Genuine(u.answers[0]);
  }

  // ---------- runs the driver can make ----------

  /** Trials of the two kinds above. */
  ghost predicate CanBeMade(q: seq<Trial>, t: Terms)
    requires |t.bb| == BANDS + 1 && |t.rssin| == BANDS
  {
    forall k :: 0 <= k < |q| ==>
      q[k] == Noise(q[k].freq, t) || (q[k] == Station(q[k].freq, t) && Audible(t, q[k].freq))
  }

  lemma MadeIsFair(q: seq<Trial>, t: Terms, still: bool)
    requires |t.bb| == BANDS + 1 && |t.rssin| == BANDS && CanBeMade(q, t)
    ensures FairSeek(q, still, t)
  {
    forall k | 0 <= k < |q|
      ensures Fair(q[k], Settled(q, k, still), t)
    {
      if q[k] == Noise(q[k].freq, t) {
        NoiseIsFair(q[k].freq, t, Settled(q, k, still));
      } else {
        StationIsFair(q[k].freq, t, Settled(q, k, still));
      }
    }
  }

  /** The trials are the points of a walk from pStart that does not pass the end before the last of
      them, and all but the last are rejected. */
  ghost predicate Walked(q: seq<Trial>, r: Request, pStart: Freq) {
    q != [] && (forall i :: 0 <= i < |q| ==> q[i].freq == At(pStart, pStart < r.last, r.s, i)) &&
    forall i :: 0 <= i < |q| - 1 ==> !Accepts(q[i]) && !Exits(pStart, r.last, r.s, i)
  }

  lemma WalkedHits(q: seq<Trial>, r: Request, pStart: Freq)
    requires Walked(q, r, pStart) && Accepts(q[|q| - 1])
    ensures Seek(q, r, pStart, q[|q| - 1].freq)
  {
    assert forall i :: 0 <= i < |q| - 1 ==> !Exits(pStart, r.last, r.s, i);
  }

  lemma WalkedMisses(q: seq<Trial>, r: Request, pStart: Freq)
    requires Walked(q, r, pStart) && !Accepts(q[|q| - 1]) && Exits(pStart, r.last, r.s, |q| - 1)
    ensures Seek(q, r, pStart, 0)
  {
    assert forall i :: 0 <= i < |q| - 1 ==> !Exits(pStart, r.last, r.s, i);
  }

  /** n points of a walk, all of them noise. */
  lemma {:induction false} NoiseRun(r: Request, pStart: Freq, n: nat, t: Terms) returns (q: seq<Trial>)
    requires |t.bb| == BANDS + 1 && |t.rssin| == BANDS
    ensures |q| == n && CanBeMade(q, t)
    ensures forall i :: 0 <= i < n ==> q[i].freq == At(pStart, pStart < r.last, r.s, i) && !Accepts(q[i])
  {
    if n == 0 {
      q := [];
    } else {
      var f := At(pStart, pStart < r.last, r.s, n - 1);
      q := NoiseRun(r, pStart, n - 1, t);
      NoiseIsFair(f, t, true);
      q := q + [Noise(f, t)];
    }
  }

  /** A seek that finds its n-th point. */
  lemma FindsPoint(r: Request, pStart: Freq, n: nat, t: Terms) returns (q: seq<Trial>)
    requires |t.bb| == BANDS + 1 && |t.rssin| == BANDS
    requires Audible(t, At(pStart, pStart < r.last, r.s, n))
    requires forall i :: 0 <= i < n ==> !Exits(pStart, r.last, r.s, i)
    ensures |q| == n + 1 && CanBeMade(q, t) && Walked(q, r, pStart) && Accepts(q[n])
    ensures Seek(q, r, pStart, q[n].freq)
  {
    var f := At(pStart, pStart < r.last, r.s, n);
    var noise := NoiseRun(r, pStart, n, t);
    StationIsFair(f, t, true);
    q := noise + [Station(f, t)];
    WalkedHits(q, r, pStart);
  }

  /** A seek that finds nothing. */
  lemma FindsNothing(r: Request, pStart: Freq, t: Terms) returns (q: seq<Trial>)
    requires |t.bb| == BANDS + 1 && |t.rssin| == BANDS && r.s in {5, 10, 20} && Halts(pStart, r.last, r.s)
    ensures CanBeMade(q, t) && Walked(q, r, pStart) && Exits(pStart, r.last, r.s, |q| - 1)
    ensures (forall i :: 0 <= i < |q| ==> !Accepts(q[i])) && Seek(q, r, pStart, 0)
  {
    var k := HaltingPoint(pStart, r.last, r.s);
    k := FirstExit(pStart, r.last, r.s, k);
    q := NoiseRun(r, pStart, k + 1, t);
    WalkedMisses(q, r, pStart);
  }

  // ---------- whole sweeps ----------

  lemma MadeTogether(p: seq<Trial>, q: seq<Trial>, t: Terms, accept: int -> bool)
    requires |t.bb| == BANDS + 1 && |t.rssin| == BANDS && CanBeMade(p, t) && CanBeMade(q, t)
    requires Agrees(p, accept) && Agrees(q, accept)
    ensures CanBeMade(p + q, t) && Agrees(p + q, accept)
  {}

  /** Rounds of trials that can be made, with verdicts that fit accept, lead to x. */
  ghost predicate Built(r: Request, t: Terms, accept: int -> bool, x: Stage, going: bool)
    requires Fits(t, r)
  {
    Made(r, x, going) && CanBeMade(x.q, t) && Agrees(x.q, accept)
  }

  lemma NothingBuilt(r: Request, t: Terms, accept: int -> bool)
    requires Fits(t, r)
    ensures Built(r, t, accept, Stage([], [], r.start), true)
  {
    NothingMade(r);
  }

  lemma BuildsOn(r: Request, t: Terms, accept: int -> bool, x: Stage, q: seq<Trial>, temp: Freq)
    requires Fits(t, r) && Built(r, t, accept, x, true)
    requires Seek(q, r, x.pStart, temp) && CanBeMade(q, t) && Agrees(q, accept)
    ensures var y := Stage(x.q + q, Listed(x.list, temp), NextStart(r, temp)); Built(r, t, accept, y, Goes(r, y))
  {
    RoundMade(r, x, q, temp);
    MadeTogether(x.q, q, t, accept);
  }

  /** The first round. */
  lemma FirstBuilt(r: Request, t: Terms, accept: int -> bool, q: seq<Trial>, temp: Freq)
    requires Fits(t, r) && Seek(q, r, r.start, temp) && CanBeMade(q, t) && Agrees(q, accept)
    ensures Built(r, t, accept, Stage(q, Listed([], temp), NextStart(r, temp)), GoesOn(r, NextStart(r, temp)))
  {
    NothingBuilt(r, t, accept);
    BuildsOn(r, t, accept, Stage([], [], r.start), q, temp);
    assert [] + q == q;
  }

  /** A whole sweep of such trials is a run of the driver. */
  lemma BuiltIsRun(r: Request, t: Terms, accept: int -> bool, x: Stage, still: bool)
    requires Fits(t, r) && Built(r, t, accept, x, false)
    ensures Run(x.q, x.list, accept, still, r, t)
  {
    MadeIsFair(x.q, t, still);
    assert Made(r, Stage(x.q, x.list, x.pStart), false);
  }

  lemma BuiltRefutes(r: Request, t: Terms, accept: int -> bool, x: Stage)
    requires Fits(t, r) && Built(r, t, accept, x, false)
    requires x.list != Ideal(r.start, r.last, r.Upward(), r.s, accept)
    ensures !AlwaysIdeal(r, t)
  {
    BuiltIsRun(r, t, accept, x, true);
  }

  /** A list of what is not asked for is empty. */
  lemma {:induction false} ChosenNone(fs: seq<int>, accept: int -> bool)
    requires forall k :: 0 <= k < |fs| ==> !accept(fs[k])
    ensures Chosen(fs, accept) == []
  {
    if fs != [] { ChosenNone(fs[1..], accept); }
  }

  // ---------- whether a sweep ends ----------

  /** Whatever the chip reports: every seek of the sweep ends though nothing may be accepted, and there
      are no more than so many of them. */
  ghost predicate AlwaysEnds(r: Request, t: Terms) {
    (forall x: Stage, still :: Made(r, x, true) && FairSeek(x.q, still, t) ==>
       Ends(x.pStart, r.last, x.pStart < r.last, r.s)) &&
    exists most: nat :: AtMost(r, t, most)
  }

  ghost predicate AtMost(r: Request, t: Terms, most: nat) {
    forall rounds, going, still :: Rounds(r, rounds, going) && FairSeek(StageAfter(r, rounds).q, still, t) ==>
      |rounds| <= most
  }

  lemma EndsIfItCan(r: Request, t: Terms)
    requires r.Cut() && r.CanEnd()
    ensures AlwaysEnds(r, t)
  {
    forall x: Stage, still | Made(r, x, true) && FairSeek(x.q, still, t)
      ensures Ends(x.pStart, r.last, x.pStart < r.last, r.s)
    {
      MadeHolds(r, x, true);
      SeekHalts(x.q, x.list, r, x.pStart);
      HaltsExactly(x.pStart, r.last, r.s);
    }
    forall rounds, going, still | Rounds(r, rounds, going) && FairSeek(StageAfter(r, rounds).q, still, t)
      ensures |rounds| <= Ahead(r, r.start) + 1
    {
      RoundsHold(r, rounds, going);
    }
    assert AtMost(r, t, Ahead(r, r.start) + 1);
  }

  /** n rounds that find nothing, if the seeks end. */
  lemma {:induction false} MissRounds(r: Request, t: Terms, n: nat) returns (rounds: seq<seq<Trial>>)
    requires r.Cut() && !r.CanEnd() && Fits(t, r) && n > 0 && AlwaysEnds(r, t)
    ensures |rounds| == n && Rounds(r, rounds, true) && CanBeMade(StageAfter(r, rounds).q, t)
    ensures StageAfter(r, rounds).list == []
  {
    rounds := [];
    if n > 1 { rounds := MissRounds(r, t, n - 1); }
    var x := StageAfter(r, rounds);
    MadeIsFair(x.q, t, true);
    assert Made(r, x, true);
    HaltsExactly(x.pStart, r.last, r.s);
    var q := FindsNothing(r, x.pStart, t);
    RoundsOn(r, rounds, q, 0);
    MissIsLast(r);
    rounds := rounds + [q];
  }

  /** A downward sweep that cannot step below its end need not end, whatever the noise floor. */
  lemma EndsOnlyIfItCan(r: Request, t: Terms)
    requires r.Cut() && !r.CanEnd() && Fits(t, r)
    ensures !AlwaysEnds(r, t)
  {
    if AlwaysEnds(r, t) {
      var most: nat :| AtMost(r, t, most);
      var rounds := MissRounds(r, t, most + 1);
      MadeIsFair(StageAfter(r, rounds).q, t, true);
    }
  }
}
