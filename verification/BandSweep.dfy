/** QND_RXSeekCHAll as a run of seeks, each told by its trials (qndriver.c:904-919). */
module BandSweep {
  import opened SeekWalk
  import opened SeekLogs

  /** What is asked for: last is stop, or the end of the country's band if that comes first. */
  datatype Request = Request(start: Freq, stop: Freq, last: Freq, s: nat) {
    predicate Upward() { start < stop }

    /** The end of the band is at 107.9 or 108 MHz. */
    predicate Cut() {
      s in {5, 10, 20} && last <= stop && last <= 10800 && (last < stop ==> 10790 <= last)
    }

    /** A downward sweep can step below the point where it is to stop. */
    predicate CanEnd() { Upward() || s <= last }

    /** The band is swept the way it was asked for. */
    predicate Proper() { !Upward() || 0 < start <= last }
  }

  /** The driver goes on from here (line 919), if the list has room. */
  predicate GoesOn(r: Request, pStart: Freq) {
    if r.Upward() then pStart <= r.last else r.last <= pStart
  }

  /** An upward sweep from above the end of the band: the first seek goes down.  Nothing follows
      unless it found a station so high that the next step is past 16 bits. */
  ghost predicate DownFirst(q: seq<Trial>, r: Request, n: nat) {
    1 <= n <= |q| && SeekLog(q[..n], r.start, r.last, false, r.s, Accepts(q[n - 1]))
  }

  predicate Wraps(t: Trial, r: Request) {
    Accepts(t) && t.freq + r.s >= RANGE
  }

  /** The trials of a sweep that is over, and the list it leaves. */
  ghost predicate Outcome(q: seq<Trial>, list: seq<int>, r: Request)
    requires r.s > 0
  {
    |list| <= MAX_CHANNELS &&
    if r.Upward() && r.start > r.last then
      list == NonZero(Hits(q)) && exists n: nat :: DownFirst(q, r, n) && (n < |q| <==> Wraps(q[n - 1], r))
    else if r.Upward() && r.start == 0 && q != [] && Accepts(q[0]) then
      |q| == 1 && q[0].freq == 0 && list == []
    else
      SweepLog(q, r.start, r.last, r.Upward(), r.s, MAX_CHANNELS) && list == Hits(q)
  }

  /** Between two seeks: the next is to begin at pStart. */
  ghost predicate Between(q: seq<Trial>, list: seq<int>, r: Request, pStart: Freq)
    requires r.s > 0
  {
    |list| < MAX_CHANNELS &&
    if r.Upward() && r.start > r.last then
      list == NonZero(Hits(q)) &&
      if q == [] then pStart == r.start
      else pStart <= r.last && exists n: nat :: DownFirst(q, r, n) && Wraps(q[n - 1], r)
    else
      !(r.Upward() && r.start == 0 && q != [] && Accepts(q[0])) &&
      Swept(q, r.start, r.last, r.Upward(), r.s) && list == Hits(q) &&
      pStart == Plain(r.start, r.Upward(), r.s, |q|) && (q != [] ==> GoesOn(r, pStart))
  }

  /** How far a sweep still has to go. */
  function Ahead(r: Request, pStart: Freq): nat {
    if !r.Upward() then pStart else if pStart > r.last then 2 * RANGE else r.last - pStart
  }

  /** One seek, and what the driver makes of its result. */
  ghost predicate Seek(q: seq<Trial>, r: Request, pStart: Freq, temp: Freq) {
    q != [] && SeekLog(q, pStart, r.last, pStart < r.last, r.s, Accepts(q[|q| - 1])) &&
    temp == if Accepts(q[|q| - 1]) then q[|q| - 1].freq else 0
  }

  function Listed(list: seq<int>, temp: Freq): seq<int> {
    list + Only(temp, temp != 0)
  }

  function NextStart(r: Request, temp: Freq): Freq {
    NextFreq(if temp != 0 then temp else r.last, r.Upward(), r.s)
  }

  lemma SeekHalts(q: seq<Trial>, list: seq<int>, r: Request, pStart: Freq)
    requires r.Cut() && r.CanEnd() && Between(q, list, r, pStart)
    ensures Halts(pStart, r.last, r.s)
    ensures r.start <= r.last || !r.Upward() ==> !Beyond(pStart, r.last, r.Upward())
    ensures pStart == r.last ==> r.s <= r.last
  {}

  lemma NoneBelow(f: int, s: nat, n: nat)
    requires s > 0
    ensures Plain(f, false, s, n) >= f ==> n == 0
  {}

  /** A seek that begins within the band tries its points one after the other. */
  lemma SeekStaysIn(q: seq<Trial>, r: Request, pStart: Freq, temp: Freq)
    requires r.Cut() && Seek(q, r, pStart, temp) && !Beyond(pStart, r.last, r.Upward())
    requires (r.Upward() && pStart < r.last) || r.s <= r.last
    ensures Swept(q, pStart, r.last, r.Upward(), r.s)
    ensures !Accepts(q[|q| - 1]) ==> Beyond(Plain(pStart, r.Upward(), r.s, |q|), r.last, r.Upward())
  {
    SeekSweeps(q, pStart, r.last, pStart < r.last, r.s, Accepts(q[|q| - 1]));
    var n := |q| - 1;
    assert pStart == r.last ==> q[n].freq == Plain(pStart, false, r.s, n) && !Beyond(q[n].freq, r.last, false);
    NoneBelow(r.last, r.s, n);
  }

  lemma SweptOn(p: seq<Trial>, q: seq<Trial>, start: int, stop: int, up: bool, s: nat)
    requires Swept(p, start, stop, up, s) && Swept(q, Plain(start, up, s, |p|), stop, up, s)
    ensures Swept(p + q, start, stop, up, s)
    ensures Plain(start, up, s, |p + q|) == Plain(Plain(start, up, s, |p|), up, s, |q|)
  {
    forall i | 0 <= i < |p + q|
      ensures (p + q)[i].freq == Plain(start, up, s, i) && !Beyond((p + q)[i].freq, stop, up)
    {
      if i >= |p| { PlainOn(start, up, s, |p|, i - |p|); }
    }
    PlainOn(start, up, s, |p|, |q|);
  }

  lemma LastSwept(p: seq<Trial>, q: seq<Trial>, start: int, stop: int, up: bool, s: nat)
    requires q != [] && Swept(q, Plain(start, up, s, |p|), stop, up, s)
    ensures var f, n := q[|q| - 1].freq, |p + q|;
            f == Plain(start, up, s, n - 1) && !Beyond(f, stop, up) && Plain(start, up, s, n) == Plain(f, up, s, 1) &&
            Plain(Plain(start, up, s, |p|), up, s, |q|) == Plain(f, up, s, 1) &&
            if up then Plain(start, up, s, |p|) <= f else f <= Plain(start, up, s, |p|)
  {
    PlainOn(start, up, s, |p|, |q| - 1);
    PlainOn(start, up, s, |p|, |q|);
    PlainOn(start, up, s, |p + q| - 1, 1);
  }

  lemma HitsAdded(p: seq<Trial>, q: seq<Trial>, r: Request, pStart: Freq, temp: Freq)
    requires Seek(q, r, pStart, temp)
    ensures Hits(p + q) == Hits(p) + Only(q[|q| - 1].freq, Accepts(q[|q| - 1]))
  {
    HitsOfSum(p, q);
    HitsOfSeek(q, pStart, r.last, pStart < r.last, r.s, Accepts(q[|q| - 1]));
  }

  /** What a round adds to a sweep that goes the way it was asked for. */
  lemma RoundAdds(p: seq<Trial>, list: seq<int>, q: seq<Trial>, r: Request, pStart: Freq, temp: Freq)
    requires r.Cut() && r.CanEnd() && Between(p, list, r, pStart) && Seek(q, r, pStart, temp)
    requires !(r.Upward() && r.start > r.last)
    ensures var t, up := q[|q| - 1], r.Upward();
            Swept(p + q, r.start, r.last, up, r.s) &&
            t.freq == Plain(r.start, up, r.s, |p + q| - 1) && !Beyond(t.freq, r.last, up) &&
            Plain(r.start, up, r.s, |p + q|) == Plain(t.freq, up, r.s, 1) &&
            (!Accepts(t) ==> Beyond(Plain(t.freq, up, r.s, 1), r.last, up)) &&
            (if up then pStart <= t.freq else t.freq <= pStart)
  {
    SeekHalts(p, list, r, pStart);
    SeekStaysIn(q, r, pStart, temp);
    SweptOn(p, q, r.start, r.last, r.Upward(), r.s);
    LastSwept(p, q, r.start, r.last, r.Upward(), r.s);
  }

  lemma SumHead(p: seq<Trial>, q: seq<Trial>)
    requires q != []
    ensures (p + q)[0] == if p != [] then p[0] else q[0]
  {}

  lemma FirstAccepted(p: seq<Trial>, list: seq<int>, q: seq<Trial>, r: Request, pStart: Freq, temp: Freq)
    requires r.s > 0 && Between(p, list, r, pStart) && Seek(q, r, pStart, temp)
    requires r.Upward() && r.start == 0 && r.start <= r.last && Accepts((p + q)[0])
    ensures p + q == q && |q| == 1 && q[0].freq == 0 && temp == 0
  {
    SumHead(p, q);
    assert p == [] && p + q == q;
  }

  /** A station at frequency 0 is taken for none, and ends an upward sweep. */
  lemma RoundFromZero(p: seq<Trial>, list: seq<int>, q: seq<Trial>, r: Request, pStart: Freq, temp: Freq)
    requires r.Cut() && Between(p, list, r, pStart) && Seek(q, r, pStart, temp)
    requires r.Upward() && r.start == 0 && r.start <= r.last && Accepts((p + q)[0])
    ensures !GoesOn(r, NextStart(r, temp)) && Outcome(p + q, Listed(list, temp), r)
  {
    FirstAccepted(p, list, q, r, pStart, temp);
    MissIsLast(r);
    SumHead(p, q);
  }

  lemma RoundOnItsWay(p: seq<Trial>, list: seq<int>, q: seq<Trial>, r: Request, pStart: Freq, temp: Freq)
    requires r.Cut() && r.CanEnd() && Between(p, list, r, pStart) && Seek(q, r, pStart, temp)
    requires !(r.Upward() && r.start > r.last) && !(r.Upward() && r.start == 0 && Accepts((p + q)[0]))
    ensures var next, listed := NextStart(r, temp), Listed(list, temp);
            if GoesOn(r, next) && |listed| < MAX_CHANNELS
            then Between(p + q, listed, r, next) && Ahead(r, next) < Ahead(r, pStart)
            else Outcome(p + q, listed, r)
  {
    RoundAdds(p, list, q, r, pStart, temp);
    HitsAdded(p, q, r, pStart, temp);
    MissIsLast(r);
    if temp != 0 { NextIsPlain(temp, r.last, r.Upward(), r.s); }
  }

  /** A round of a sweep that goes the way it was asked for. */
  lemma ProperRound(p: seq<Trial>, list: seq<int>, q: seq<Trial>, r: Request, pStart: Freq, temp: Freq)
    requires r.Cut() && r.CanEnd() && Between(p, list, r, pStart) && Seek(q, r, pStart, temp)
    requires !(r.Upward() && r.start > r.last)
    ensures var next, listed := NextStart(r, temp), Listed(list, temp);
            if GoesOn(r, next) && |listed| < MAX_CHANNELS
            then Between(p + q, listed, r, next) && Ahead(r, next) < Ahead(r, pStart)
            else Outcome(p + q, listed, r)
  {
    if r.Upward() && r.start == 0 && Accepts((p + q)[0]) {
      RoundFromZero(p, list, q, r, pStart, temp);
    } else {
      RoundOnItsWay(p, list, q, r, pStart, temp);
    }
  }

  lemma NonZeroAdded(p: seq<Trial>, list: seq<int>, q: seq<Trial>, r: Request, pStart: Freq, temp: Freq)
    requires list == NonZero(Hits(p)) && Seek(q, r, pStart, temp)
    ensures Listed(list, temp) == NonZero(Hits(p + q))
  {
    HitsAdded(p, q, r, pStart, temp);
    NonZeroOfSum(Hits(p), Only(q[|q| - 1].freq, Accepts(q[|q| - 1])));
  }

  lemma DownwardSeek(q: seq<Trial>, r: Request, temp: Freq)
    requires r.Cut() && r.Upward() && r.start > r.last && Seek(q, r, r.start, temp)
    ensures DownFirst(q, r, |q|) && (temp != 0 ==> r.last <= temp)
    ensures Wraps(q[|q| - 1], r) <==> temp != 0 && temp + r.s >= RANGE
  {
    assert q[..|q|] == q;
    SeekSweeps(q, r.start, r.last, false, r.s, Accepts(q[|q| - 1]));
    assert q[|q| - 1].freq >= r.last;
  }

  lemma StepFromAbove(r: Request, temp: Freq)
    requires r.Cut() && r.Upward() && r.start > r.last && (temp == 0 || r.last <= temp)
    ensures GoesOn(r, NextStart(r, temp)) <==> temp != 0 && temp + r.s >= RANGE
    ensures GoesOn(r, NextStart(r, temp)) ==> Ahead(r, NextStart(r, temp)) < Ahead(r, r.start)
  {}

  /** The first round of an upward sweep from above the end of the band. */
  lemma DownwardRound(list: seq<int>, q: seq<Trial>, r: Request, temp: Freq)
    requires r.Cut() && r.Upward() && r.start > r.last && Between([], list, r, r.start) && Seek(q, r, r.start, temp)
    ensures var next, listed := NextStart(r, temp), Listed(list, temp);
            if GoesOn(r, next) && |listed| < MAX_CHANNELS
            then Between(q, listed, r, next) && Ahead(r, next) < Ahead(r, r.start)
            else Outcome(q, listed, r)
  {
    DownwardSeek(q, r, temp);
    assert [] + q == q && list == [];
    NonZeroAdded([], list, q, r, r.start, temp);
    StepFromAbove(r, temp);
  }

  lemma DownFirstStays(p: seq<Trial>, q: seq<Trial>, r: Request, n: nat)
    requires DownFirst(p, r, n)
    ensures DownFirst(p + q, r, n) && (p + q)[n - 1] == p[n - 1]
  {
    assert (p + q)[..n] == p[..n];
  }

  lemma SeekEndsWithin(q: seq<Trial>, r: Request, pStart: Freq, temp: Freq)
    requires r.Cut() && r.Upward() && r.start > r.last && pStart <= r.last && Seek(q, r, pStart, temp)
    ensures pStart <= q[|q| - 1].freq <= r.last
  {
    SeekStaysIn(q, r, pStart, temp);
    assert q[|q| - 1].freq == Plain(pStart, true, r.s, |q| - 1);
  }

  lemma StepWithin(r: Request, pStart: Freq, temp: Freq)
    requires r.Cut() && r.Upward() && pStart <= r.last && (temp == 0 || pStart <= temp <= r.last)
    ensures GoesOn(r, NextStart(r, temp)) ==> temp != 0 && Ahead(r, NextStart(r, temp)) < Ahead(r, pStart)
  {}

  /** A round after the step past 16 bits. */
  lemma WrappedRound(p: seq<Trial>, list: seq<int>, q: seq<Trial>, r: Request, pStart: Freq, temp: Freq)
    requires r.Cut() && r.Upward() && r.start > r.last && p != []
    requires Between(p, list, r, pStart) && Seek(q, r, pStart, temp)
    ensures var next, listed := NextStart(r, temp), Listed(list, temp);
            if GoesOn(r, next) && |listed| < MAX_CHANNELS
            then Between(p + q, listed, r, next) && Ahead(r, next) < Ahead(r, pStart)
            else Outcome(p + q, listed, r)
  {
    var n: nat :| DownFirst(p, r, n) && Wraps(p[n - 1], r);
    DownFirstStays(p, q, r, n);
    SeekEndsWithin(q, r, pStart, temp);
    NonZeroAdded(p, list, q, r, pStart, temp);
    StepWithin(r, pStart, temp);
  }

  /** A round of any sweep: either the sweep goes on and has less before it, or it is over. */
  lemma Round(p: seq<Trial>, list: seq<int>, q: seq<Trial>, r: Request, pStart: Freq, temp: Freq)
    requires r.Cut() && r.CanEnd() && Between(p, list, r, pStart) && Seek(q, r, pStart, temp)
    ensures var next, listed := NextStart(r, temp), Listed(list, temp);
            if GoesOn(r, next) && |listed| < MAX_CHANNELS
            then Between(p + q, listed, r, next) && Ahead(r, next) < Ahead(r, pStart)
            else Outcome(p + q, listed, r)
  {
    if !(r.Upward() && r.start > r.last) {
      ProperRound(p, list, q, r, pStart, temp);
    } else if p == [] {
      assert p + q == q;
      DownwardRound(list, q, r, temp);
    } else {
      WrappedRound(p, list, q, r, pStart, temp);
    }
  }

  lemma NothingBefore(r: Request)
    requires r.s > 0
    ensures Between([], [], r, r.start)
  {
    assert Hits([]) == [] && NonZero([]) == [];
  }

  // ---------- the loop, round by round ----------

  /** Between two rounds: the trials made, the stations listed, and where the next seek is to begin. */
  datatype Stage = Stage(q: seq<Trial>, list: seq<int>, pStart: Freq)

  /** What a seek of these trials returns. */
  function Result(q: seq<Trial>): Freq {
    if q != [] && Accepts(q[|q| - 1]) then q[|q| - 1].freq else 0
  }

  /** Lines 907-918, after rounds of these trials. */
  function StageAfter(r: Request, rounds: seq<seq<Trial>>): Stage {
    if rounds == [] then Stage([], [], r.start)
    else
      var x, q := StageAfter(r, rounds[..|rounds| - 1]), rounds[|rounds| - 1];
      Stage(x.q + q, Listed(x.list, Result(q)), NextStart(r, Result(q)))
  }

  /** The test at the end of the loop (line 919). */
  predicate Goes(r: Request, x: Stage) {
    GoesOn(r, x.pStart) && |x.list| < MAX_CHANNELS
  }

  /** The k-th round is a seek from where the one before it left off, and that one was not the last. */
  ghost predicate RoundAt(r: Request, rounds: seq<seq<Trial>>, k: nat)
    requires k < |rounds|
  {
    var x, q := StageAfter(r, rounds[..k]), rounds[k];
    Seek(q, r, x.pStart, Result(q)) && (k > 0 ==> Goes(r, x))
  }

  /** Rounds of the driver's loop, another to follow if going. */
  ghost predicate Rounds(r: Request, rounds: seq<seq<Trial>>, going: bool) {
    (forall k :: 0 <= k < |rounds| ==> RoundAt(r, rounds, k)) &&
    going == (rounds == [] || Goes(r, StageAfter(r, rounds)))
  }

  lemma RoundsFront(r: Request, rounds: seq<seq<Trial>>, going: bool)
    requires rounds != [] && Rounds(r, rounds, going)
    ensures var before, q := rounds[..|rounds| - 1], rounds[|rounds| - 1];
            Rounds(r, before, true) && Seek(q, r, StageAfter(r, before).pStart, Result(q))
  {
    var n := |rounds| - 1;
    assert RoundAt(r, rounds, n);
    forall k | 0 <= k < n
      ensures RoundAt(r, rounds[..n], k)
    {
      assert RoundAt(r, rounds, k) && rounds[..n][..k] == rounds[..k];
    }
  }

  /** Some rounds lead here. */
  ghost predicate Made(r: Request, x: Stage, going: bool) {
    exists rounds :: Rounds(r, rounds, going) && StageAfter(r, rounds) == x
  }

  /** The trials and the list of a whole sweep, from its start to its end. */
  ghost predicate Whole(r: Request, q: seq<Trial>, list: seq<int>) {
    exists pStart: Freq :: Made(r, Stage(q, list, pStart), false)
  }

  lemma NothingMade(r: Request)
    ensures Made(r, Stage([], [], r.start), true)
  {
    assert Rounds(r, [], true) && StageAfter(r, []) == Stage([], [], r.start);
  }

  /** One more round. */
  lemma RoundsOn(r: Request, rounds: seq<seq<Trial>>, q: seq<Trial>, temp: Freq)
    requires Rounds(r, rounds, true) && Seek(q, r, StageAfter(r, rounds).pStart, temp)
    ensures var x, more := StageAfter(r, rounds), rounds + [q];
            StageAfter(r, more) == Stage(x.q + q, Listed(x.list, temp), NextStart(r, temp)) &&
            Rounds(r, more, Goes(r, StageAfter(r, more)))
  {
    var more := rounds + [q];
    assert more[..|rounds|] == rounds && temp == Result(q);
    forall k | 0 <= k < |more|
      ensures RoundAt(r, more, k)
    {
      if k < |rounds| { assert RoundAt(r, rounds, k) && more[..k] == rounds[..k]; }
    }
  }

  lemma RoundMade(r: Request, x: Stage, q: seq<Trial>, temp: Freq)
    requires Made(r, x, true) && Seek(q, r, x.pStart, temp)
    ensures var y := Stage(x.q + q, Listed(x.list, temp), NextStart(r, temp)); Made(r, y, Goes(r, y))
  {
    var rounds :| Rounds(r, rounds, true) && StageAfter(r, rounds) == x;
    RoundsOn(r, rounds, q, temp);
  }

  /** What holds before a round of a sweep that can end, and after the last. */
  ghost predicate Holds(r: Request, x: Stage, going: bool)
    requires r.s > 0
  {
    if going then Between(x.q, x.list, r, x.pStart) else Outcome(x.q, x.list, r)
  }

  lemma {:induction false} RoundsHold(r: Request, rounds: seq<seq<Trial>>, going: bool)
    requires r.Cut() && r.CanEnd() && Rounds(r, rounds, going)
    ensures Holds(r, StageAfter(r, rounds), going)
    ensures going ==> |rounds| + Ahead(r, StageAfter(r, rounds).pStart) <= Ahead(r, r.start)
    ensures |rounds| <= Ahead(r, r.start) + 1
    decreases |rounds|
  {
    if rounds == [] {
      NothingBefore(r);
    } else {
      var before, q := rounds[..|rounds| - 1], rounds[|rounds| - 1];
      RoundsFront(r, rounds, going);
      RoundsHold(r, before, true);
      var x := StageAfter(r, before);
      Round(x.q, x.list, q, r, x.pStart, Result(q));
    }
  }

  lemma MadeHolds(r: Request, x: Stage, going: bool)
    requires r.Cut() && r.CanEnd() && Made(r, x, going)
    ensures Holds(r, x, going)
  {
    var rounds :| Rounds(r, rounds, going) && StageAfter(r, rounds) == x;
    RoundsHold(r, rounds, going);
  }

  lemma RoundsAreWhole(r: Request, rounds: seq<seq<Trial>>)
    requires r.Cut() && r.CanEnd() && Rounds(r, rounds, false)
    ensures var x := StageAfter(r, rounds); Whole(r, x.q, x.list) && Outcome(x.q, x.list, r)
  {
    var x := StageAfter(r, rounds);
    assert Made(r, Stage(x.q, x.list, x.pStart), false);
    RoundsHold(r, rounds, false);
  }

  lemma WholeOutcome(r: Request, q: seq<Trial>, list: seq<int>)
    requires r.Cut() && r.CanEnd() && Whole(r, q, list)
    ensures Outcome(q, list, r)
  {
    var pStart: Freq :| Made(r, Stage(q, list, pStart), false);
    MadeHolds(r, Stage(q, list, pStart), false);
  }

  // ---------- which points a sweep tries ----------

  /** The points of some seeks in a row, from start on: each is size away from the one before it, in 16 bits. */
  predicate InSteps(q: seq<Trial>, start: Freq, size: int) {
    (q != [] ==> q[0].freq == start) &&
    forall i :: 0 < i < |q| ==> StepAt(q, i, true, size) || StepAt(q, i, false, size)
  }

  lemma InStepsOn(p: seq<Trial>, q: seq<Trial>, start: Freq, begin: Freq, up: bool, size: int)
    requires InSteps(p, start, size) && Stepped(q, begin, up, size) && q != []
    requires if p == [] then begin == start
             else Apart(p[|p| - 1].freq, begin, true, size) || Apart(p[|p| - 1].freq, begin, false, size)
    ensures InSteps(p + q, start, size) && (p + q)[|p + q| - 1] == q[|q| - 1]
  {
    forall i | 0 < i < |p + q|
      ensures StepAt(p + q, i, true, size) || StepAt(p + q, i, false, size)
    {
      if i < |p| {
        assert StepAt(p, i, true, size) || StepAt(p, i, false, size);
      } else if i > |p| {
        assert StepAt(q, i - |p|, up, size);
      }
    }
  }

  /** Where the sweep goes on from a round, a station was found in it, and the next point is one step from it. */
  lemma NextFromFound(r: Request, q: seq<Trial>)
    requires r.Cut() && r.CanEnd() && q != [] && GoesOn(r, NextStart(r, Result(q)))
    ensures NextStart(r, Result(q)) == NextFreq(q[|q| - 1].freq, r.Upward(), r.s)
  {
    MissIsLast(r);
  }

  lemma RoundWalks(r: Request, p: seq<Trial>, pStart: Freq, q: seq<Trial>)
    requires r.Cut() && InSteps(p, r.start, r.s) && Seek(q, r, pStart, Result(q))
    requires pStart == if p == [] then r.start else NextFreq(p[|p| - 1].freq, r.Upward(), r.s)
    ensures InSteps(p + q, r.start, r.s) && (p + q)[|p + q| - 1] == q[|q| - 1]
  {
    SeekSteps(q, pStart, r.last, pStart < r.last, r.s, Accepts(q[|q| - 1]));
    if p != [] { NextApart(p[|p| - 1].freq, r.Upward(), r.s); }
    InStepsOn(p, q, r.start, pStart, pStart < r.last, r.s);
  }

  lemma {:induction false} RoundsWalk(r: Request, rounds: seq<seq<Trial>>, going: bool)
    requires r.Cut() && r.CanEnd() && Rounds(r, rounds, going)
    ensures var x := StageAfter(r, rounds);
            InSteps(x.q, r.start, r.s) && (x.q == [] ==> x.pStart == r.start) &&
            (going && x.q != [] ==> x.pStart == NextFreq(x.q[|x.q| - 1].freq, r.Upward(), r.s))
    decreases |rounds|
  {
    if rounds != [] {
      var before, q := rounds[..|rounds| - 1], rounds[|rounds| - 1];
      RoundsFront(r, rounds, going);
      RoundsWalk(r, before, true);
      var x := StageAfter(r, before);
      RoundWalks(r, x.q, x.pStart, q);
      if going { NextFromFound(r, q); }
    }
  }

  /** Every point a sweep tries is one step from the one before it. */
  lemma WholeWalks(r: Request, q: seq<Trial>, list: seq<int>)
    requires r.Cut() && r.CanEnd() && Whole(r, q, list)
    ensures InSteps(q, r.start, r.s)
  {
    var pStart: Freq :| Made(r, Stage(q, list, pStart), false);
    var rounds :| Rounds(r, rounds, false) && StageAfter(r, rounds) == Stage(q, list, pStart);
    RoundsWalk(r, rounds, false);
  }

  /** A sweep that does not begin above the end of its band tries every point on its way, none twice. */
  predicate Visits(q: seq<Trial>, start: Freq, up: bool, size: int) {
    forall i :: 0 <= i < |q| ==> q[i].freq == if up then start + i * size else start - i * size
  }

  lemma OutcomeVisits(q: seq<Trial>, list: seq<int>, r: Request)
    requires r.s > 0 && Outcome(q, list, r) && (r.Upward() ==> r.start <= r.last)
    ensures Visits(q, r.start, r.Upward(), r.s)
  {
    forall i | 0 <= i < |q|
      ensures q[i].freq == if r.Upward() then r.start + i * r.s else r.start - i * r.s
    {
      if SweepLog(q, r.start, r.last, r.Upward(), r.s, MAX_CHANNELS) {
        assert q[i].freq == Plain(r.start, r.Upward(), r.s, i);
      }
    }
  }

  /** The points tried by the step's own size: 50, 100 or 200 kHz. */
  predicate TriesBy(q: seq<Trial>, start: Freq, stop: Freq, last: Freq, step: nat)
    requires step < 3
  {
    InSteps(q, start, [5, 10, 20][step]) &&
    ((start < stop ==> start <= last) ==> Visits(q, start, start < stop, [5, 10, 20][step]))
  }

  lemma TriesOfSweep(r: Request, q: seq<Trial>, list: seq<int>, step: nat)
    requires r.Cut() && r.CanEnd() && Whole(r, q, list) && step < 3 && r.s == StepValue(step)
    ensures TriesBy(q, r.start, r.stop, r.last, step)
  {
    StepSizes(step);
    WholeWalks(r, q, list);
    WholeOutcome(r, q, list);
    if !r.Upward() || r.start <= r.last { OutcomeVisits(q, list, r); }
  }

  // ---------- what the sweep finds ----------

  /** A sweep that goes the way it was asked for lists the first fifty accepted points of the
      band in the order of the scan, each once. */
  lemma ProperSweepIsIdeal(q: seq<Trial>, list: seq<int>, r: Request, accept: int -> bool)
    requires r.s > 0 && r.Proper() && Outcome(q, list, r) && Agrees(q, accept)
    ensures list == Ideal(r.start, r.last, r.Upward(), r.s, accept) && list == Hits(q)
    ensures forall i, j :: 0 <= i < j < |list| ==> if r.Upward() then list[i] < list[j] else list[j] < list[i]
  {
    SweepFindsChosen(q, r.start, r.last, r.Upward(), r.s, MAX_CHANNELS, accept);
    HitsOrdered(q, r.start, r.last, r.Upward(), r.s);
  }

  /** A round in which nothing is found is the last one iff the sweep goes up or can step below
      its end. */
  lemma MissIsLast(r: Request)
    requires r.Cut()
    ensures !GoesOn(r, NextStart(r, 0)) <==> r.CanEnd()
  {}

  /** Where the next round begins, and what is listed, after seeks with these results. */
  function StartAfter(r: Request, results: seq<Freq>): Freq {
    if results == [] then r.start else NextStart(r, results[|results| - 1])
  }

  function ListAfter(results: seq<Freq>): seq<int> {
    if results == [] then [] else Listed(ListAfter(results[..|results| - 1]), results[|results| - 1])
  }

  /** After any number of seeks that found nothing the sweep goes on, with nothing listed, iff it goes
      down and cannot step below its end: then it never ends. */
  lemma {:induction false} MissesGoOnIff(r: Request, results: seq<Freq>)
    requires r.Cut() && results != [] && forall k :: 0 <= k < |results| ==> results[k] == 0
    ensures ListAfter(results) == []
    ensures GoesOn(r, StartAfter(r, results)) && |ListAfter(results)| < MAX_CHANNELS <==> !r.CanEnd()
    decreases |results|
  {
    var before := results[..|results| - 1];
    if before != [] { MissesGoOnIff(r, before); }
    MissIsLast(r);
  }
}
