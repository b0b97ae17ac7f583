/** What a seek's trials have to do with what the chip reported, and how seeks make up a sweep. */
module Trials {
  import opened Bytes
  import opened SeekWalk
  import opened SeekLogs
  import opened BandSweep
  import opened TunerChip
  import opened TunerFields
  import opened NoiseBands
  import opened Tuner

  const COUNT_BITS := Byte(false, false, false, true, true, true, true, true)        // 0x1f

  /** The intermediate frequency count: the low five bits of CCA5, and CCA4 (lines 796-799). */
  function IfCount(c5: Byte, c4: Byte): nat {
    256 * ToNat(And(c5, COUNT_BITS)) + ToNat(c4)
  }

  /** What the seeks judge by: the bands and their noise floors, the threshold, and the step. */
  datatype Terms = Terms(bb: seq<Freq>, rssin: seq<nat>, db: nat, step: nat)

  /** What the chip is told to scan to have one frequency confirmed; the threshold is cut to 8 bits. */
  function Asked(f: Freq, step: nat, floor: nat, db: nat): Range {
    Range(ChannelReg(f) % 1024, ChannelReg(f) % 1024, step, OfNat((floor - 22 + db) % 256))
  }

  const SCAN_BITS := Byte(true, false, true, false, false, false, false, true)       // 0xA1
  const SCAN_ON := Byte(true, false, true, false, false, false, false, false)        // 0xA0

  /** The chip was told to scan the one frequency. */
  ghost predicate Begun(p: Report, f: Freq, step: nat, floor: nat, db: nat) {
    p.addr == REQUEST && And(p.value, SCAN_BITS) == SCAN_ON && p.range == Asked(f, step, floor, db)
  }

  /** After the reading of the signal strength comes the request for a scan, and then u.polls polls of
      it, all but the last still under way; unless the driver gave up, the last is not. */
  ghost predicate Polled(u: Trial, step: nat) {
    1 <= u.polls <= POLLS && |u.answers| >= 2 + u.polls && Begun(u.answers[1], u.freq, step, u.floor, u.db) &&
    (forall k :: 2 <= k <= 1 + u.polls ==>
       u.answers[k].addr == SYSTEM1 && u.answers[k].range == Asked(u.freq, step, u.floor, u.db)) &&
    (forall k :: 2 <= k < 1 + u.polls ==> u.answers[k].value.b5) &&
    (u.polls < POLLS ==> !u.answers[1 + u.polls].value.b5)
  }

  /** A report of this register after the scan of the trial's frequency. */
  ghost predicate OfScan(p: Report, addr: nat, u: Trial, step: nat) {
    p.addr == addr && p.range == Asked(u.freq, step, u.floor, u.db)
  }

  /** Then the intermediate frequency count, and for a weak signal within the window its pilot, and
      without one its signal to noise ratio. */
  ghost predicate Weighed(u: Trial, step: nat) {
    var n := 2 + u.polls;
    Counted(u, n, step) &&
    if 1828 < u.ifcnt < 2268 && u.rssi <= u.floor + 20 + u.db then HasPilot(u, n + 2, step) else |u.answers| == n + 2
  }

  ghost predicate Counted(u: Trial, n: nat, step: nat) {
    var a := u.answers;
    |a| >= n + 2 && OfScan(a[n], CCA5, u, step) && OfScan(a[n + 1], CCA4, u, step) &&
    u.ifcnt == IfCount(a[n].value, a[n + 1].value)
  }

  ghost predicate HasPilot(u: Trial, n: nat, step: nat) {
    var a := u.answers;
    |a| > n && OfScan(a[n], STATUS1, u, step) && u.mono == a[n].value.b0 &&
    if u.mono then |a| == n + 2 && OfScan(a[n + 1], SNR, u, step) && u.snr == a[n + 1].number else |a| == n + 1
  }

  /** The trial says what the chip reported, and the driver asked for neither more nor less. */
  ghost predicate Answered(u: Trial, step: nat) {
    AllGenuine(u.answers) &&
    u.answers != [] && u.answers[0].addr == RSSISIG && u.answers[0].number == u.rssi &&
    if u.rssi <= u.floor + 6 + u.db then |u.answers| == 1 && u.polls == 0
    else Polled(u, step) && if u.polls == POLLS then |u.answers| == 2 + POLLS else Weighed(u, step)
  }

  /** The trial was judged by the floor of its band and by what the chip reported; if it was settled,
      its signal strength was read on its channel. */
  ghost predicate Fair(u: Trial, settled: bool, t: Terms) {
    |t.bb| == BANDS + 1 && |t.rssin| == BANDS && u.db == t.db && u.floor == t.rssin[BandOf(t.bb, u.freq)] &&
    Answered(u, t.step) && (settled ==> u.answers[0].channel == ChannelReg(u.freq) % 1024)
  }

  /** Before trial k no scan was under way: the trial before it, if any, was not given up. */
  predicate Settled(q: seq<Trial>, k: nat, still: bool)
    requires k <= |q|
  {
    if k == 0 then still else q[k - 1].polls < POLLS
  }

  ghost predicate FairSeek(q: seq<Trial>, still: bool, t: Terms) {
    forall k :: 0 <= k < |q| ==> Fair(q[k], Settled(q, k, still), t)
  }

  /** All the trials' reports, in the order in which they were heard. */
  function Told(q: seq<Trial>): seq<Report> {
    if q == [] then [] else Told(q[..|q| - 1]) + q[|q| - 1].answers
  }

  lemma {:induction false} ToldOfSum(p: seq<Trial>, q: seq<Trial>)
    ensures Told(p + q) == Told(p) + Told(q)
  {
    if q == [] {
      assert p + q == p;
    } else {
      var n := |q| - 1;
      assert (p + q)[..|p + q| - 1] == p + q[..n] && (p + q)[|p + q| - 1] == q[n];
      ToldOfSum(p, q[..n]);
      SumsOf(Told(p), Told(q[..n]), q[n].answers);
    }
  }

  /** What was heard before, and then the reports of p and of q. */
  lemma HeardOn(h: Heard, p: seq<Trial>, q: seq<Trial>)
    ensures h + Told(p) + Told(q) == h + Told(p + q)
  {
    ToldOfSum(p, q);
    SumsOf(h, Told(p), Told(q));
  }

  lemma ToldOfOne(h: Heard, p: seq<Trial>, u: Trial)
    ensures h + Told(p) + u.answers == h + Told(p + [u])
  {
    assert (p + [u])[..|p|] == p;
    SumsOf(h, Told(p), u.answers);
  }

  /** The answers grew by what was heard from was to now. */
  ghost predicate Adds(before: seq<Report>, after: seq<Report>, was: Heard, now: Heard) {
    before <= after && now == was + after[|before|..] && AllGenuine(after[|before|..])
  }

  lemma AddsSome(before: seq<Report>, seen: seq<Report>, was: Heard)
    requires AllGenuine(seen)
    ensures Adds(before, before + seen, was, was + seen)
  {
    assert (before + seen)[|before|..] == seen;
  }

  lemma AddsTwo(before: seq<Report>, p: Report, r: Report, was: Heard)
    requires Genuine(p) && Genuine(r)
    ensures Adds(before, before + [p] + [r], was, was + [p] + [r])
  {
    AddsSome(before, [p, r], was);
    assert before + [p] + [r] == before + [p, r] && was + [p] + [r] == was + [p, r];
  }

  lemma AddsMore(a: seq<Report>, b: seq<Report>, c: seq<Report>, was: Heard, mid: Heard, now: Heard)
    requires Adds(a, b, was, mid) && Adds(b, c, mid, now)
    ensures Adds(a, c, was, now)
  {
    assert b[|a|..] + c[|b|..] == c[|a|..];
    SumsOf(was, b[|a|..], c[|b|..]);
  }

  lemma AddsAll(was: Heard, p: Report, after: seq<Report>, now: Heard)
    requires Genuine(p) && Adds([p], after, was + [p], now)
    ensures now == was + after && AllGenuine(after)
  {
    assert [p] + after[1..] == after;
    SumsOf(was, [p], after[1..]);
  }

  lemma PolledStays(v: Trial, u: Trial, step: nat)
    requires Polled(v, step) && v.answers <= u.answers
    requires u.freq == v.freq && u.floor == v.floor && u.db == v.db && u.polls == v.polls
    ensures Polled(u, step)
  {
    assert forall k :: 0 <= k < |v.answers| ==> u.answers[k] == v.answers[k];
  }

  /** The driver only read registers: the chip's fields and settings are as before, and silent. */
  ghost predicate OnlyAsked(r: Regs, loud: nat, s: Regs, loud': nat) {
    FieldsKept(r, s) && SettingsKept(r, s) && SystemKept(r[SYSTEM1], s[SYSTEM1]) && Hushed(r, loud, s, loud')
  }

  lemma OnlyAskedOn(r: Regs, a: nat, mid: Regs, b: nat, s: Regs, c: nat)
    requires OnlyAsked(r, a, mid, b) && OnlyAsked(mid, b, s, c)
    ensures OnlyAsked(r, a, s, c)
  {
    FieldsKeptOn(r, mid, s);
  }

  lemma Settles(p: seq<Trial>, q: seq<Trial>, still: bool, again: bool)
    requires q != []
    ensures Settled(p + q, |p + q|, still) == Settled(q, |q|, again)
  {}

  lemma SettledInSum(p: seq<Trial>, q: seq<Trial>, k: nat, still: bool, again: bool)
    requires k <= |p + q| && (Settled(p, |p|, still) ==> again)
    ensures k <= |p| ==> Settled(p + q, k, still) == Settled(p, k, still)
    ensures k >= |p| ==> Settled(p + q, k, still) ==> Settled(q, k - |p|, again)
  {}

  lemma FairInSum(p: seq<Trial>, q: seq<Trial>, k: nat, still: bool, again: bool, t: Terms)
    requires k < |p + q| && (Settled(p, |p|, still) ==> again)
    requires if k < |p| then Fair(p[k], Settled(p, k, still), t) else Fair(q[k - |p|], Settled(q, k - |p|, again), t)
    ensures Fair((p + q)[k], Settled(p + q, k, still), t)
  {
    SettledInSum(p, q, k, still, again);
  }

  lemma FairSeeksOn(p: seq<Trial>, q: seq<Trial>, still: bool, again: bool, t: Terms)
    requires FairSeek(p, still, t) && FairSeek(q, again, t)
    requires Settled(p, |p|, still) ==> again
    ensures FairSeek(p + q, still, t)
  {
    forall k | 0 <= k < |p + q|
      ensures Fair((p + q)[k], Settled(p + q, k, still), t)
    {
      FairInSum(p, q, k, still, again, t);
    }
  }

  /** A seek as it was called. */
  datatype Call = Call(start: Freq, stop: Freq, s: nat, still: bool, terms: Terms) {
    predicate Upward() { start < stop }
  }

  /** The seek is over, with chfreq for its result. */
  ghost predicate Over(c: Call, q: seq<Trial>, chfreq: Freq) {
    q != [] && FairSeek(q, c.still, c.terms) &&
    SeekOver(q, chfreq, c.start, c.stop, c.Upward(), c.s)
  }

  /** The seek so far: on its way at f, or over with chfreq. */
  ghost predicate SoFar(c: Call, q: seq<Trial>, scanFlag: bool, f: Freq, chfreq: Freq) {
    if scanFlag
    then FairSeek(q, c.still, c.terms) && Seeking(q, f, c.start, c.stop, c.Upward(), c.s)
    else Over(c, q, chfreq)
  }

  ghost predicate OverBy(c: Call, k: nat) {
    ExitsAt(c.start, c.stop, c.Upward(), c.s, k)
  }

  lemma CallEnds(c: Call) returns (k: nat)
    requires c.s in {5, 10, 20} && Halts(c.start, c.stop, c.s)
    ensures OverBy(c, k)
  {
    k := HaltingPoint(c.start, c.stop, c.s);
  }

  /** The seek's trials are 50, 100 or 200 kHz apart. */
  predicate StepsBy(q: seq<Trial>, start: Freq, stop: Freq, step: nat) {
    Stepped(q, start, start < stop, if step == 0 then 5 else if step == 1 then 10 else 20)
  }

  lemma CallSteps(c: Call, q: seq<Trial>, chfreq: Freq, step: nat)
    requires Over(c, q, chfreq) && step < 3 && c.s == StepValue(step)
    ensures StepsBy(q, c.start, c.stop, step)
  {
    StepSizes(step);
    SeekSteps(q, c.start, c.stop, c.Upward(), c.s, Accepts(q[|q| - 1]));
  }

  lemma NotOver(c: Call, q: seq<Trial>, f: Freq, chfreq: Freq, k: nat)
    requires SoFar(c, q, true, f, chfreq) && OverBy(c, k)
    ensures |q| <= k
  {}

  lemma OneMore(c: Call, q: seq<Trial>, u: Trial, scanFlag: bool, next: Freq,
                before: Freq, chfreq: Freq)
    requires SoFar(c, q, true, u.freq, before) && next == NextFreq(u.freq, c.Upward(), c.s)
    requires Fair(u, Settled(q, |q|, c.still), c.terms)
    requires scanFlag == (!Accepts(u) && !Past(next, c.stop, c.Upward())) &&
             chfreq == if Accepts(u) || scanFlag then u.freq else 0
    ensures SoFar(c, q + [u], scanFlag, next, chfreq)
  {
    SeeksOn(q, u, c.start, c.stop, c.Upward(), c.s);
    var again := Settled(q, |q|, c.still);
    assert FairSeek([u], again, c.terms);
    FairSeeksOn(q, [u], c.still, again, c.terms);
  }

  /** The callback is called with the frequency of a last trial that is accepted. */
  function CallsAfter(was: seq<Freq>, q: seq<Trial>, hasCallback: bool): seq<Freq> {
    if hasCallback && q != [] && Accepts(q[|q| - 1]) then was + [q[|q| - 1].freq] else was
  }

  lemma CallsOn(was: seq<Freq>, c: Call, q: seq<Trial>, f: Freq, chfreq: Freq, u: Trial,
                hasCallback: bool)
    requires SoFar(c, q, true, f, chfreq)
    ensures CallsAfter(CallsAfter(was, q, hasCallback), [u], hasCallback) == CallsAfter(was, q + [u], hasCallback)
  {}

  /** What the callback is called with in a sweep. */
  function Reports(q: seq<Trial>, hasCallback: bool): seq<int> {
    if hasCallback then Hits(q) else []
  }

  lemma ReportsOn(was: seq<int>, p: seq<Trial>, q: seq<Trial>, c: Call, temp: Freq,
                  before: seq<Freq>, hasCallback: bool)
    requires Over(c, q, temp) && before == was + Reports(p, hasCallback)
    ensures CallsAfter(before, q, hasCallback) == was + Reports(p + q, hasCallback)
  {
    HitsOfSeek(q, c.start, c.stop, c.Upward(), c.s, Accepts(q[|q| - 1]));
    HitsOfSum(p, q);
    if hasCallback { SumsOf(was, Hits(p), Hits(q)); }
  }

  /** What a sweep is told at its start. */
  datatype Order = Order(r: Request, still: bool, terms: Terms, hasCallback: bool, was: seq<int>)

  /** The sweep so far: between two seeks, the next to begin at pStart, or over. */
  ghost predicate SweepSoFar(o: Order, rounds: seq<seq<Trial>>, q: seq<Trial>, list: seq<int>, calls: seq<int>,
                             going: bool, pStart: Freq)
  {
    Rounds(o.r, rounds, going) && StageAfter(o.r, rounds) == Stage(q, list, pStart) &&
    FairSeek(q, o.still, o.terms) && calls == o.was + Reports(q, o.hasCallback)
  }

  lemma NextHalts(o: Order, rounds: seq<seq<Trial>>, p: seq<Trial>, list: seq<int>, calls: seq<int>, pStart: Freq)
    requires o.r.Cut() && o.r.CanEnd() && SweepSoFar(o, rounds, p, list, calls, true, pStart)
    ensures Halts(pStart, o.r.last, o.r.s) && |list| < MAX_CHANNELS
  {
    RoundsHold(o.r, rounds, true);
    SeekHalts(p, list, o.r, pStart);
  }

  /** A seek from pStart has made the trials up to q; its result temp is still to be listed. */
  ghost predicate SeekDone(o: Order, pStart: Freq, rounds: seq<seq<Trial>>, q: seq<Trial>, list: seq<int>,
                           calls: seq<int>, temp: Freq)
  {
    var next, listed := NextStart(o.r, temp), Listed(list, temp);
    var going := GoesOn(o.r, next) && |listed| < MAX_CHANNELS;
    SweepSoFar(o, rounds, q, listed, calls, going, next) && (going ==> Ahead(o.r, next) < Ahead(o.r, pStart))
  }

  lemma Advanced(o: Order, pStart: Freq, rounds: seq<seq<Trial>>, q: seq<Trial>, list: seq<int>, calls: seq<int>,
                 temp: Freq, listed: seq<int>, going: bool, next: Freq)
    requires SeekDone(o, pStart, rounds, q, list, calls, temp)
    requires listed == Listed(list, temp) && next == NextStart(o.r, temp)
    requires going == (GoesOn(o.r, next) && |listed| < MAX_CHANNELS)
    ensures SweepSoFar(o, rounds, q, listed, calls, going, next) && (going ==> Ahead(o.r, next) < Ahead(o.r, pStart))
  {}

  /** The seek c, and what the driver makes of its result temp, take the sweep on. */
  lemma SweepOn(o: Order, rounds: seq<seq<Trial>>, p: seq<Trial>, list: seq<int>, calls: seq<Freq>, pStart: Freq,
                c: Call, q: seq<Trial>, temp: Freq)
    requires o.r.Cut() && o.r.CanEnd() && SweepSoFar(o, rounds, p, list, calls, true, pStart)
    requires Over(c, q, temp) && (Settled(p, |p|, o.still) ==> c.still)
    requires c == Call(pStart, o.r.last, o.r.s, c.still, o.terms)
    ensures SeekDone(o, pStart, rounds + [q], p + q, list, CallsAfter(calls, q, o.hasCallback), temp)
  {
    RoundsHold(o.r, rounds, true);
    Round(p, list, q, o.r, pStart, temp);
    RoundsOn(o.r, rounds, q, temp);
    FairSeeksOn(p, q, o.still, c.still, o.terms);
    ReportsOn(o.was, p, q, c, temp, calls, o.hasCallback);
  }

  /** A receiving chip is unmuted, a transmitting one still muted; if it had settled it is on the
      frequency's channel. */
  predicate TunedIn(r: Regs, transmits: bool, f: Freq, settled: bool) {
    Transmits(r) == transmits && (if transmits then Muted(r) else Unmuted(r)) &&
    (settled ==> Channel(r) == ChannelReg(f) % 1024)
  }

  /** The scan fields and then the threshold were set. */
  lemma IsAsked(r: Regs, s: Regs, f: Freq, step: nat, floor: nat, db: nat)
    requires ScanStart(r) == ScanStop(r) == ChannelReg(f) % 1024 && ScanStep(r) == step && FieldsKept(r, s)
    requires SettingsSet(r, s, CCA, OfNat((floor - 22 + db) % 256))
    ensures RangeOf(s) == Asked(f, step, floor, db)
  {
    assert IsSetting(CCA);
  }

  /** A muted chip made no sound and is muted; it transmits no more and no less. */
  predicate Silent(r: Regs, loud: nat, s: Regs, loud': nat) {
    Muted(s) && loud' == loud && Transmits(s) == Transmits(r)
  }

  /** The seek is over, with chfreq for its result. */
  ghost predicate SeekOver(q: seq<Trial>, chfreq: Freq, start: Freq, stop: Freq, up: bool, s: nat)
    requires q != []
  {
    SeekLog(q, start, stop, up, s, Accepts(q[|q| - 1])) && chfreq == if Accepts(q[|q| - 1]) then q[|q| - 1].freq else 0
  }
}
