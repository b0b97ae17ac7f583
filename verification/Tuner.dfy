/** The modes, the noise floor and the tuning of qndriver.c, over the registers of the chip. */
module Tuner {
  import opened Bytes
  import opened SeekWalk
  import opened TunerChip
  import opened TunerFields
  import opened NoiseBands

  // bits of SYSTEM1
  const MODE_BITS := Byte(true, true, false, true, false, false, false, false)      // R_TXRX_MASK, 0xd0
  const RXREQ := Byte(true, false, false, false, false, false, false, false)        // 0x80
  const TXREQ := Byte(false, true, false, false, false, false, false, false)        // 0x40
  const RXI2S := Byte(false, false, false, false, true, false, false, false)        // 0x08
  const CCA_CH_DIS := Byte(false, false, false, false, false, false, false, true)   // 0x01
  const IMR := Byte(false, false, true, false, false, false, false, false)          // 0x20
  const FILTER_BITS := Byte(false, false, true, true, true, false, false, false)    // 0x38
  const FILTER_2 := Byte(false, false, true, false, true, false, false, false)      // 0x28
  const TOP_BIT := RXREQ
  const CCS_BITS := Byte(true, true, false, false, false, false, false, true)       // 0xe1 but for CHSC

  /** The mode is the one asked for, and the output is analog. */
  predicate Works(r: Regs, mode: Byte) {
    And(r[SYSTEM1], MODE_BITS) == mode && !r[SYSTEM1].b3
  }

  lemma ModeIsKept(a: Byte, b: Byte)
    requires SystemKept(a, b)
    ensures And(b, MODE_BITS) == And(a, MODE_BITS)
  {}

  lemma ModeIsSet(a: Byte, b: Byte, val: Byte)
    requires SystemSet(a, b, MODE_BITS, val) && And(val, MODE_BITS) == val
    ensures And(b, MODE_BITS) == val
  {}

  /** What QNF_RXInit makes of a setting (lines 44-49): soft mute from 8, high cut from 22 and
      stereo noise control from 40. */
  function RxByte(a: nat, b: Byte): Byte {
    if a in {40, 77} then Masked(b, TOP_BIT, TOP_BIT) else StartByte(a, b)
  }

  function StartByte(a: nat, b: Byte): Byte {
    if a == 64 then Masked(b, OfNat(0x3f), OfNat(8)) else if a == 65 then Masked(b, OfNat(0x7f), OfNat(40))
    else if a == 66 then Masked(b, OfNat(0x3f), OfNat(22)) else b
  }

  /** Image rejection is on for every 24th channel. */
  function ImageByte(b: Byte, f: Freq): Byte {
    Masked(b, IMR, if (f - 7710) % 240 == 0 then IMR else ZERO)
  }

  /** The filter of a tuned receiver depends on bit 5 of SYSTEM2. */
  function FilterByte(b: Byte, sys2: Byte): Byte {
    Masked(b, FILTER_BITS, FilterOf(sys2))
  }

  function FilterOf(sys2: Byte): Byte {
    if sys2.b5 then ZERO else FILTER_2
  }

  /** What going to a channel makes of a receiver's setting. */
  function ChannelByte(f: Freq, sys2: Byte): (nat, Byte) -> Byte {
    (a: nat, b: Byte) => if a == TXAGC_GAIN then ImageByte(b, f) else if a == GAIN_SEL then FilterByte(b, sys2) else b
  }

  /** What tuning a receiver makes of a setting. */
  function TunedByte(f: Freq, sys2: Byte): (nat, Byte) -> Byte {
    (a: nat, b: Byte) => ChannelByte(f, sys2)(a, RxByte(a, b))
  }

  predicate SettingsBecame(r: Regs, s: Regs, f: (nat, Byte) -> Byte) {
    forall a: nat {:trigger IsSetting(a)} :: a < 256 && IsSetting(a) ==> s[a] == f(a, r[a])
  }

  lemma TunedInTwo(r: Regs, ready: Regs, s: Regs, ch: Freq)
    requires SettingsBecame(r, ready, RxByte) && SettingsBecame(ready, s, ChannelByte(ch, ready[SYSTEM2]))
    ensures SettingsBecame(r, s, TunedByte(ch, r[SYSTEM2]))
  {
    assert IsSetting(SYSTEM2) && ready[SYSTEM2] == RxByte(SYSTEM2, r[SYSTEM2]);
  }

  /** Silence is kept: a muted chip is still muted and nobody heard a channel being set. */
  predicate Hushed(r: Regs, loud: nat, s: Regs, loud': nat) {
    Muted(r) ==> Muted(s) && loud' == loud
  }

  /** One more reading of the signal strength was taken, and it is rssi. */
  ghost predicate Measured(was: Heard, now: Heard, rssi: nat) {
    |now| == |was| + 1 && was <= now && now[|was|].addr == RSSISIG && now[|was|].number == rssi
  }

  /** The last report was heard with the chip on this frequency's channel. */
  ghost predicate LastSignalAt(h: Heard, f: Freq) {
    h != [] && h[|h| - 1].channel == ChannelReg(f) % 1024
  }

  const CCS_MASK := Byte(true, true, true, false, false, false, false, true)         // 0xe1
  const CCS_ON := Byte(false, true, true, false, false, false, false, false)         // 0x60
  const CCA_BITS := Byte(true, true, true, false, false, false, false, false)        // 0xe0
  const CCA_ON := Byte(false, false, true, false, false, false, false, false)        // 0x20

  /** The chip was told to look for a clear channel here, with its threshold set for that. */
  ghost predicate Sought(r: Range, start: Freq, stop: Freq, step: nat) {
    r.start == ChannelReg(start) % 1024 && r.stop == ChannelReg(stop) % 1024 && r.step == step &&
    And(r.threshold, CCA_BITS) == CCA_ON
  }

  /** A scan for a clear channel was requested and polled until it was over; ch is where it ended. */
  ghost predicate Cleared(a: seq<Report>, start: Freq, stop: Freq, step: nat, ch: nat) {
    |a| >= 2 && a[0].addr == REQUEST && And(a[0].value, CCS_MASK) == CCS_ON &&
    (forall k :: 0 <= k < |a| ==> Sought(a[k].range, start, stop, step)) &&
    (forall k :: 1 <= k < |a| ==> a[k].addr == SYSTEM1 && a[k].value.b5 == (k < |a| - 1)) &&
    ch == FreqOf(a[|a| - 1].channel)
  }

  lemma ClearedBy(p: Report, seen: seq<Report>, start: Freq, stop: Freq, step: nat, ch: nat)
    requires p.addr == REQUEST && And(p.value, CCS_MASK) == CCS_ON && Sought(p.range, start, stop, step)
    requires |seen| >= 1 && forall k :: 0 <= k < |seen| ==> seen[k].addr == SYSTEM1 && seen[k].range == p.range
    requires forall k :: 0 <= k < |seen| ==> seen[k].value.b5 == (k < |seen| - 1)
    requires ch == FreqOf(seen[|seen| - 1].channel)
    ensures Cleared([p] + seen, start, stop, step, ch)
  {
    var a := [p] + seen;
    assert forall k :: 1 <= k < |a| ==> a[k] == seen[k - 1];
  }

  /** A measurement of a band: the channel, the signal found there, and all that was heard for it. */
  datatype Measurement = Measurement(ch: Freq, rssi: nat, answers: seq<Report>)

  /** The end of band i, one step below the next. */
  function BandStop(bb: seq<Freq>, i: nat, step: nat): Freq
    requires |bb| == BANDS + 1 && i < BANDS && step < 3
  {
    (bb[i + 1] - StepValue(step)) % RANGE
  }

  /** m is a measurement of band i: the chip looked for a clear channel in the band, and then the signal
      strength was read on the channel it found. */
  ghost predicate Measures(m: Measurement, bb: seq<Freq>, i: nat, step: nat)
    requires |bb| == BANDS + 1 && i < BANDS && step < 3
  {
    var n := |m.answers| - 1;
    n >= 2 && Cleared(m.answers[..n], bb[i], BandStop(bb, i, step), step, m.ch) &&
    var a := m.answers[n];
    a.addr == RSSISIG && a.number == m.rssi && a.channel == ChannelReg(m.ch) % 1024 &&
    Sought(a.range, bb[i], BandStop(bb, i, step), step)
  }

  lemma MeasuredBy(a: seq<Report>, p: Report, bb: seq<Freq>, i: nat, step: nat, ch: Freq)
    requires |bb| == BANDS + 1 && i < BANDS && step < 3 && Cleared(a, bb[i], BandStop(bb, i, step), step, ch)
    requires p.addr == RSSISIG && p.channel == ChannelReg(ch) % 1024 && p.range == a[0].range
    ensures Measures(Measurement(ch, p.number, a + [p]), bb, i, step)
  {
    assert (a + [p])[..|a|] == a && (a + [p])[|a|] == p;
  }

  /** What the floor of a band goes back to: a measurement, with the bands as they were then, or none. */
  datatype Kept = Never | Last(m: Measurement, bb: seq<Freq>, step: nat)

  /** The floor of band i is its last measurement's, or 0 as it was at the start. */
  ghost predicate KeptFor(k: Kept, i: nat, rssi: nat)
    requires i < BANDS
  {
    match k
    case Never => rssi == 0
    case Last(m, bb, step) => |bb| == BANDS + 1 && step < 3 && Measures(m, bb, i, step) && rssi == m.rssi
  }

  ghost predicate AllKept(kept: seq<Kept>, rssin: seq<nat>) {
    |kept| == |rssin| == BANDS && forall i :: 0 <= i < BANDS ==> KeptFor(kept[i], i, rssin[i])
  }

  lemma KeepsOne(kept: seq<Kept>, rssin: seq<nat>, i: nat, m: Measurement, bb: seq<Freq>, step: nat)
    requires AllKept(kept, rssin) && i < BANDS && |bb| == BANDS + 1 && step < 3 && Measures(m, bb, i, step)
    ensures AllKept(kept[i := Last(m, bb, step)], rssin[i := m.rssi])
  {
    var now, floors := kept[i := Last(m, bb, step)], rssin[i := m.rssi];
    forall k | 0 <= k < BANDS
      ensures KeptFor(now[k], k, floors[k])
    {
      if k != i { assert KeptFor(kept[k], k, rssin[k]); }
    }
  }

  /** All that was heard for some measurements, in order. */
  function Gathered(ms: seq<Measurement>): seq<Report> {
    if ms == [] then [] else Gathered(ms[..|ms| - 1]) + ms[|ms| - 1].answers
  }

  /** These are measurements of the first bands, in order, and what the driver keeps of them. */
  ghost predicate InOrder(ms: seq<Measurement>, bb: seq<Freq>, step: nat, rssin: seq<nat>,
                          kept: seq<Kept>)
    requires |bb| == BANDS + 1 && step < 3
  {
    |ms| <= BANDS == |rssin| == |kept| &&
    forall i :: 0 <= i < |ms| ==>
      Measures(ms[i], bb, i, step) && rssin[i] == ms[i].rssi && kept[i] == Last(ms[i], bb, step)
  }

  /** The first n bands were measured, in order, and nothing else. */
  ghost predicate Refreshed(bb: seq<Freq>, step: nat, before: seq<Measurement>, after: seq<Measurement>, was: Heard,
                            now: Heard, rssin: seq<nat>, kept: seq<Kept>, n: nat) {
    |bb| == BANDS + 1 && step < 3 && before <= after && |after| == |before| + n &&
    now == was + Gathered(after[|before|..]) && InOrder(after[|before|..], bb, step, rssin, kept)
  }

  /** All bands were measured, in order, and nothing else. */
  ghost predicate FullRefresh(bb: seq<Freq>, step: nat, before: seq<Measurement>, after: seq<Measurement>, was: Heard,
                              now: Heard, rssin: seq<nat>, kept: seq<Kept>) {
    Refreshed(bb, step, before, after, was, now, rssin, kept, BANDS)
  }

  lemma GathersOn(was: Heard, ms: seq<Measurement>, m: Measurement)
    ensures was + Gathered(ms) + m.answers == was + Gathered(ms + [m])
  {
    assert (ms + [m])[..|ms|] == ms;
    assert was + Gathered(ms) + m.answers == was + (Gathered(ms) + m.answers);
  }

  lemma NextInOrder(ms: seq<Measurement>, bb: seq<Freq>, step: nat, rssin: seq<nat>, kept: seq<Kept>,
                    m: Measurement)
    requires |bb| == BANDS + 1 && step < 3 && InOrder(ms, bb, step, rssin, kept) && |ms| < BANDS
    requires Measures(m, bb, |ms|, step)
    ensures InOrder(ms + [m], bb, step, rssin[|ms| := m.rssi], kept[|ms| := Last(m, bb, step)])
  {
    var now, floors, keeps := ms + [m], rssin[|ms| := m.rssi], kept[|ms| := Last(m, bb, step)];
    forall i | 0 <= i < |now|
      ensures Measures(now[i], bb, i, step) && floors[i] == now[i].rssi && keeps[i] == Last(now[i], bb, step)
    {
      assert i < |ms| ==> now[i] == ms[i] && floors[i] == rssin[i] && keeps[i] == kept[i];
    }
  }

  lemma RefreshesOn(bb: seq<Freq>, step: nat, before: seq<Measurement>, mid: seq<Measurement>, was: Heard, heard: Heard,
                    rssin: seq<nat>, kept: seq<Kept>, n: nat, m: Measurement)
    requires n < BANDS && Refreshed(bb, step, before, mid, was, heard, rssin, kept, n) && Measures(m, bb, n, step)
    ensures Refreshed(bb, step, before, mid + [m], was, heard + m.answers, rssin[n := m.rssi],
                      kept[n := Last(m, bb, step)], n + 1)
  {
    var ms := mid[|before|..];
    assert (mid + [m])[|before|..] == ms + [m];
    GathersOn(was, ms, m);
    NextInOrder(ms, bb, step, rssin, kept, m);
  }

  // ---------- every channel's floor is that of its band ----------

  /** The frequency's channel is one of those scanned. */
  predicate Covers(r: Range, f: Freq) {
    r.start <= ChannelReg(f) % 1024 <= r.stop
  }

  /** A band of frequencies the chip's channels can hold, with no sub-scan empty. */
  predicate InReach(start: Freq, stop: Freq, s: nat) {
    OnGrid(start, stop, s) && 7600 <= start && stop <= 12719 && (stop - start) / (6 * s) % 256 != 0
  }

  lemma ChannelsInOrder(a: Freq, b: Freq)
    requires 7600 <= a <= 12719 && 7600 <= b <= 12719 && (a - b) % 5 == 0
    ensures ChannelReg(a) % 1024 <= ChannelReg(b) % 1024 <==> a <= b
  {}

  lemma WholeSteps(m: int, s: nat)
    requires s in {5, 10, 20}
    ensures (m * s) % 5 == 0
  {
    if s == 5 {} else if s == 10 { assert m * s == 5 * (2 * m); } else { assert m * s == 5 * (4 * m); }
  }

  lemma BandStart(bb: seq<Freq>, start: Freq, stop: Freq, s: nat, d: nat, i: nat)
    requires Laid(bb, start, stop, s, d * s) && i < BANDS
    ensures bb[i] == start + i * d * s
  {
    if i == 0 {} else if i == 1 {} else if i == 2 {} else if i == 3 {} else if i == 4 {} else { assert i == 5; }
  }

  /** The ends of the sub-scan of a band, within reach and a whole number of 50 kHz apart from any point. */
  lemma BandEnds(bb: seq<Freq>, start: Freq, stop: Freq, s: nat, m: nat, i: nat)
    requires InReach(start, stop, s) && Laid(bb, start, stop, s, BandSteps(start, stop, s) * s) && i < BANDS
    ensures 7600 <= bb[i] <= bb[i + 1] - s <= stop
    ensures (bb[i] - (start + m * s)) % 5 == 0 && (start + m * s - (bb[i + 1] - s)) % 5 == 0
  {
    var d := BandSteps(start, stop, s);
    NoSubScanEmpty(bb, start, stop, s);
    BandStart(bb, start, stop, s, d, i);
    PointsApart(bb[i], start, i * d, m, s);
    if i < 5 {
      BandStart(bb, start, stop, s, d, i + 1);
      PointsApart(bb[i + 1] - s, start, (i + 1) * d - 1, m, s);
    } else {
      assert stop == start + (stop - start) / s * s;
      PointsApart(stop, start, (stop - start) / s, m, s);
    }
  }

  lemma PointsApart(a: int, start: int, k: int, m: int, s: nat)
    requires s in {5, 10, 20} && a == start + k * s
    ensures (a - (start + m * s)) % 5 == 0 && (start + m * s - a) % 5 == 0
  {
    WholeSteps(k - m, s);
    WholeSteps(m - k, s);
    assert (k - m) * s == k * s - m * s && (m - k) * s == m * s - k * s;
  }

  lemma CoversBetween(r: Range, a: Freq, b: Freq, f: Freq)
    requires r.start == ChannelReg(a) % 1024 && r.stop == ChannelReg(b) % 1024
    requires 7600 <= a <= b <= 12719 && 7600 <= f <= 12719 && (a - f) % 5 == 0 && (f - b) % 5 == 0
    ensures Covers(r, f) <==> a <= f <= b
  {
    ChannelsInOrder(a, f);
    ChannelsInOrder(f, b);
  }

  lemma StopInRange(bb: seq<Freq>, i: nat, step: nat)
    requires |bb| == BANDS + 1 && i < BANDS && step < 3 && bb[i + 1] >= StepValue(step)
    ensures BandStop(bb, i, step) == bb[i + 1] - StepValue(step)
  {}

  /** What the chip is told to scan for a band covers just the channels of that band. */
  lemma SoughtCovers(r: Range, bb: seq<Freq>, start: Freq, stop: Freq, step: nat, m: nat, i: nat)
    requires step < 3 && InReach(start, stop, StepValue(step)) && i < BANDS
    requires Laid(bb, start, stop, StepValue(step), BandSteps(start, stop, StepValue(step)) * StepValue(step))
    requires start + m * StepValue(step) <= stop && Sought(r, bb[i], BandStop(bb, i, step), step)
    ensures Covers(r, start + m * StepValue(step)) <==> i == BandOf(bb, start + m * StepValue(step))
  {
    var s := StepValue(step);
    BandEnds(bb, start, stop, s, m, i);
    StopInRange(bb, i, step);
    CoversBetween(r, bb[i], BandStop(bb, i, step), start + m * s);
    SubScansTile(bb, start, stop, s, m, i);
  }

  /** A full refresh scans each channel of the range for exactly one of its measurements, and that is
      the one kept as the floor of the channel's band. */
  lemma FloorIsOfItsBand(bb: seq<Freq>, step: nat, before: seq<Measurement>, after: seq<Measurement>, was: Heard,
                         now: Heard, rssin: seq<nat>, kept: seq<Kept>, start: Freq, stop: Freq, m: nat, i: nat)
    requires FullRefresh(bb, step, before, after, was, now, rssin, kept) && InReach(start, stop, StepValue(step))
    requires Laid(bb, start, stop, StepValue(step), BandSteps(start, stop, StepValue(step)) * StepValue(step))
    requires start + m * StepValue(step) <= stop && i < BANDS
    ensures var f, ms := start + m * StepValue(step), after[|before|..];
            |ms| == BANDS && (forall k :: 0 <= k < BANDS ==> ms[k].answers != []) &&
            (Covers(ms[i].answers[0].range, f) <==> i == BandOf(bb, f)) &&
            rssin[BandOf(bb, f)] == ms[BandOf(bb, f)].rssi
  {
    var ms := after[|before|..];
    assert Measures(ms[i], bb, i, step);
    SoughtCovers(ms[i].answers[0].range, bb, start, stop, step, m, i);
    assert forall k :: 0 <= k < BANDS ==> Measures(ms[k], bb, k, step);
  }

  /** The noise floor as the driver knows it, and the bands it is for. */
  datatype Floor = Floor(first: bool, least: nat, clear: Freq, measured: seq<Measurement>, rssin: seq<nat>,
                         kept: seq<Kept>, bb: seq<Freq>, step: nat)

  /** What the driver had heard when it decided on a refresh, with the reading it decided by, and what
      it had heard when it was done. */
  datatype Refresh = Refresh(reading: nat, asked: Heard, done: Heard)

  /** What QND_UpdateRSSIn(0) did: unless it was the first time, one reading was taken on the clear
      channel (provided no scan was under way); if that was within three of the floor nothing else
      was measured, and otherwise every band. */
  ghost predicate FloorUpdated(f: Floor, g: Floor, was: Heard, x: Refresh, still: bool) {
    (if f.first then x.asked == was
     else Measured(was, x.asked, x.reading) && (still ==> LastSignalAt(x.asked, f.clear))) &&
    g.bb == f.bb && g.step == f.step &&
    if !f.first && x.reading <= f.least + 3 && f.least <= x.reading + 3
    then g == f && x.done == x.asked
    else FullRefresh(f.bb, f.step, f.measured, g.measured, x.asked, x.done, g.rssin, g.kept)
  }

  /** The least signal measured, 255 at most. */
  function Lowest(ms: seq<Measurement>): nat {
    if ms == [] then 255
    else
      var before, last := Lowest(ms[..|ms| - 1]), ms[|ms| - 1].rssi;
      if last < before then last else before
  }

  /** The channel first measured with it, 0 if there is none. */
  function Clearest(ms: seq<Measurement>): Freq {
    if ms == [] then 0
    else if ms[|ms| - 1].rssi < Lowest(ms[..|ms| - 1]) then ms[|ms| - 1].ch
    else Clearest(ms[..|ms| - 1])
  }

  /** What the cached values mean: no measurement is lower, and unless nothing was below 255
      the clearest channel is that of the first measurement as low as that. */
  lemma {:induction false} CacheMeaning(ms: seq<Measurement>) returns (first: nat)
    ensures Lowest(ms) <= 255 && forall k :: 0 <= k < |ms| ==> Lowest(ms) <= ms[k].rssi
    ensures Lowest(ms) < 255 ==>
              first < |ms| && ms[first].rssi == Lowest(ms) && Clearest(ms) == ms[first].ch &&
              forall k :: 0 <= k < first ==> ms[k].rssi > Lowest(ms)
    ensures Lowest(ms) == 255 ==> Clearest(ms) == 0
  {
    first := 0;
    if ms != [] {
      var before := ms[..|ms| - 1];
      first := CacheMeaning(before);
      assert forall k :: 0 <= k < |before| ==> ms[k] == before[k];
      if ms[|ms| - 1].rssi < Lowest(before) { first := |ms| - 1; }
    }
  }

  lemma ThresholdBits(b: Byte)
    ensures And(Masked(b, CCA_BITS, CCA_ON), CCA_BITS) == CCA_ON
  {}

  class Radio {
    const chip: Chip
    var prevMode: Byte
    // the band
    var chStart: Freq
    var chStop: Freq
    var chStep: nat
    // the noise floor
    var bb: seq<Freq>             // qnd_RSSInBB
    var rssin: seq<nat>           // qnd_RSSIn
    var rssins: nat               // qnd_RSSIns
    var clearChannel: Freq
    var clearScan: bool           // qnd_ClearScanFlag
    var firstScan: bool
    ghost var measured: seq<Measurement>
    ghost var kept: seq<Kept>     // what the floors go back to

    constructor (chip: Chip)
      ensures Valid() && this.chip == chip && firstScan
    {
      this.chip := chip;
      prevMode := ZERO;
      chStart, chStop, chStep := 7600, 10800, 1;
      bb, rssin := seq(BANDS + 1, _ => 0), seq(BANDS, _ => 0);
      rssins, clearChannel, clearScan, firstScan := 255, 0, false, true;
      measured, kept := [], seq(BANDS, _ => Never);
    }

    ghost function NoiseFloor(): Floor
      reads this
    {
      Floor(firstScan, rssins, clearChannel, measured, rssin, kept, bb, chStep)
    }

    ghost predicate Valid()
      reads this
    {
      |bb| == BANDS + 1 && |rssin| == BANDS && (forall i :: 0 <= i < BANDS ==> rssin[i] < 256) &&
      chStep < 3 && (chStop == 10800 || chStop == 10790) &&
      rssins == Lowest(measured) && clearChannel == Clearest(measured) && AllKept(kept, rssin)
    }

    /** QND_SetCountry (lines 596-614); the bands of the noise floor stay as they are. */
    method SetCountry(country: nat)
      requires Valid()
      modifies `chStart, `chStop, `chStep
      ensures Valid()
      ensures country == 0 ==> chStart == 7600 && chStop == 10800 && chStep == 1
      ensures country == 1 ==> chStart == 8810 && chStop == 10790 && chStep == 2
      ensures country > 1 ==> chStart == old(chStart) && chStop == old(chStop) && chStep == old(chStep)
    {
      if country == 0 { chStart, chStop, chStep := 7600, 10800, 1; }
      else if country == 1 { chStart, chStop, chStep := 8810, 10790, 2; }
    }

    /** QNF_InitRSSInBB */
    method InitRssinBands()
      requires Valid()
      modifies `bb
      ensures Valid()
      ensures OnGrid(chStart, chStop, StepValue(chStep)) ==>
                Laid(bb, chStart, chStop, StepValue(chStep),
                     BandSteps(chStart, chStop, StepValue(chStep)) * StepValue(chStep))
    {
      bb := InitBands(chStart, chStop, StepValue(chStep));
      if OnGrid(chStart, chStop, StepValue(chStep)) {
        BandsAreLaid(bb, chStart, chStop, StepValue(chStep));
      }
    }

    /** Lines 528-529: a new mode, muted. */
    method ChangeMode(val: Byte)
      requires And(val, MODE_BITS) == val
      modifies chip
      ensures chip.heard == old(chip.heard) && chip.loud == old(chip.loud) && Muted(chip.regs)
      ensures And(chip.regs[SYSTEM1], MODE_BITS) == val && (Scans(chip.regs) ==> old(Scans(chip.regs)))
      ensures SettingsKept(old(chip.regs), chip.regs) && FieldsKept(old(chip.regs), chip.regs)
    {
      ghost var r := chip.regs;
      SetMute(chip, true);
      ghost var mid := chip.regs;
      SetRegBit(chip, SYSTEM1, MODE_BITS, val);
      ModeIsSet(mid[SYSTEM1], chip.regs[SYSTEM1], val);
      FieldsKeptOn(r, mid, chip.regs);
    }

    /** Lines 526-531: a new mode begins muted. */
    method EnterMode(val: Byte)
      requires And(val, MODE_BITS) == val
      modifies chip
      ensures chip.heard == old(chip.heard)
      ensures Hushed(old(chip.regs), old(chip.loud), chip.regs, chip.loud)
      ensures And(chip.regs[SYSTEM1], MODE_BITS) == val && (Scans(chip.regs) ==> old(Scans(chip.regs)))
      ensures And(old(chip.regs[SYSTEM1]), MODE_BITS) != val ==> Muted(chip.regs)
      ensures SettingsKept(old(chip.regs), chip.regs) && FieldsKept(old(chip.regs), chip.regs)
    {
      ghost var r1 := chip.regs;
      var mode := chip.ReadReg(SYSTEM1);
      ElapsedKeeps(r1, chip.regs);
      ModeIsKept(r1[SYSTEM1], mode);
      ghost var mid := chip.regs;
      if And(mode, MODE_BITS) != val {
        ChangeMode(val);
        FieldsKeptOn(r1, mid, chip.regs);
      }
    }

    /** Lines 517-524: register 73 follows the mode. */
    method SetOutput(val: Byte)
      modifies chip
      ensures chip.heard == old(chip.heard) && chip.loud == old(chip.loud)
      ensures FieldsKept(old(chip.regs), chip.regs) && chip.regs[REG_PD2] == old(chip.regs[REG_PD2])
      ensures SystemKept(old(chip.regs[SYSTEM1]), chip.regs[SYSTEM1])
      ensures SettingsSet(old(chip.regs), chip.regs, 73, if val == TXREQ then OfNat(0x44) else OfNat(0x04))
    {
      ghost var r := chip.regs;
      var v := if val == TXREQ then OfNat(0x44) else OfNat(0x04);
      chip.WriteReg(73, v);
      WriteKeeps(r, chip.regs, 73, v);
    }

    /** QND_SetSysMode (lines 498-537) for a receiving or transmitting mode; val is the upper
        half of mode. */
    method SetWorkMode(val: Byte)
      requires val in {RXREQ, TXREQ}
      modifies chip
      ensures chip.heard == old(chip.heard)
      ensures Hushed(old(chip.regs), old(chip.loud), chip.regs, chip.loud)
      ensures Transmits(chip.regs) == val.b6 && (Scans(chip.regs) ==> old(Scans(chip.regs)))
      ensures Works(chip.regs, val) && (And(old(chip.regs[SYSTEM1]), MODE_BITS) != val ==> Muted(chip.regs))
      ensures SettingsSet(old(chip.regs), chip.regs, 73, if val == TXREQ then OfNat(0x44) else OfNat(0x04))
      ensures FieldsKept(old(chip.regs), chip.regs)
    {
      ghost var r0 := chip.regs;
      SetOutput(val);
      ghost var r1 := chip.regs;
      ModeIsKept(r0[SYSTEM1], r1[SYSTEM1]);
      EnterMode(val);
      ghost var r2 := chip.regs;
      FieldsKeptOn(r0, r1, r2);
      SetRegBit(chip, SYSTEM1, RXI2S, ZERO);
      FieldsKeptOn(r0, r2, chip.regs);
    }

    /** QND_GetRSSI (lines 369-380). */
    method GetRssi(ch: Freq) returns (rssi: nat, ghost p: Report)
      modifies chip
      ensures chip.regs[GAIN_SEL] == old(chip.regs[GAIN_SEL])
      ensures chip.heard == old(chip.heard) + [p] && p.addr == RSSISIG && p.number == rssi
      ensures p.range == old(RangeOf(chip.regs)) && (!old(Scans(chip.regs)) ==> p.channel == ChannelReg(ch) % 1024)
      ensures rssi < 256 && Hushed(old(chip.regs), old(chip.loud), chip.regs, chip.loud)
      ensures !Transmits(chip.regs) && (Scans(chip.regs) ==> old(Scans(chip.regs)))
      ensures Works(chip.regs, RXREQ) && chip.regs[SYSTEM1].b0
    {
      assert IsSetting(GAIN_SEL) && IsSetting(CCA);
      ghost var r0 := chip.regs;
      SetWorkMode(RXREQ);
      RangeStays(r0, chip.regs);
      var _ := SetCh(chip, ch);
      ghost var r1 := chip.regs;
      SetRegBit(chip, SYSTEM1, CCA_CH_DIS, CCA_CH_DIS);
      ghost var r2 := chip.regs;
      RangeStays(r1, r2);
      var v := chip.ReadReg(RSSISIG);
      ElapsedKeeps(r2, chip.regs);
      RangeStays(r2, chip.regs);
      rssi, p := ToNat(v), ReportOf(chip.regs, RSSISIG);
    }

    /** Lines 996-1000: the chip is told to look for a clear channel. */
    method BeginClearScan(start: Freq, stop: Freq, step: nat) returns (ghost p: Report)
      requires step < 3
      modifies chip
      ensures chip.heard == old(chip.heard) + [p] && p.addr == REQUEST && p.range == RangeOf(chip.regs)
      ensures And(p.value, CCS_MASK) == CCS_ON && Sought(p.range, start, stop, step)
      ensures Hushed(old(chip.regs), old(chip.loud), chip.regs, chip.loud)
      ensures And(chip.regs[SYSTEM1], CCS_BITS) == TXREQ
      ensures SettingsSet(old(chip.regs), chip.regs, CCA, Masked(old(chip.regs[CCA]), CCA_BITS, CCA_ON))
    {
      ConfigScan(chip, start, stop, step);
      ghost var r := chip.regs;
      SetRegBit(chip, CCA, CCA_BITS, CCA_ON);
      assert IsSetting(CCA);
      ThresholdBits(r[CCA]);
      SetRegBit(chip, SYSTEM1, CCS_MASK, CCS_ON, true);
      p := Requested(chip.regs);
    }

    /** Line 1003: one poll. */
    method PollScan() returns (scanning: bool, ghost p: Report)
      modifies chip
      ensures chip.heard == old(chip.heard) + [p] && chip.loud == old(chip.loud)
      ensures p.addr == SYSTEM1 && p.value.b5 == scanning == Scans(chip.regs) && p.channel == Channel(chip.regs)
      ensures p.range == RangeOf(chip.regs) == old(RangeOf(chip.regs))
      ensures SystemKept(old(chip.regs[SYSTEM1]), chip.regs[SYSTEM1]) && chip.regs[REG_PD2] == old(chip.regs[REG_PD2])
      ensures FieldsKept(old(chip.regs), chip.regs) && SettingsKept(old(chip.regs), chip.regs)
      ensures chip.busy <= old(chip.busy) && (scanning ==> chip.busy < old(chip.busy))
    {
      assert IsSetting(CCA);
      ghost var r := chip.regs;
      var v := chip.ReadReg(SYSTEM1, true);
      ElapsedKeeps(r, chip.regs);
      RangeStays(r, chip.regs);
      scanning, p := v.b5, ReportOf(chip.regs, SYSTEM1);
    }

    /** Lines 1001-1004: polls until the chip is done. */
    method AwaitScan() returns (ghost seen: seq<Report>)
      modifies chip
      ensures chip.heard == old(chip.heard) + seen && chip.loud == old(chip.loud)
      ensures |seen| >= 1 && seen[|seen| - 1].channel == Channel(chip.regs)
      ensures forall k :: 0 <= k < |seen| ==> seen[k].addr == SYSTEM1 && seen[k].value.b5 == (k < |seen| - 1)
      ensures forall k :: 0 <= k < |seen| ==> seen[k].range == old(RangeOf(chip.regs))
      ensures RangeOf(chip.regs) == old(RangeOf(chip.regs))
      ensures !Scans(chip.regs) && SystemKept(old(chip.regs[SYSTEM1]), chip.regs[SYSTEM1])
      ensures FieldsKept(old(chip.regs), chip.regs) && SettingsKept(old(chip.regs), chip.regs)
      ensures chip.regs[REG_PD2] == old(chip.regs[REG_PD2])
    {
      ghost var r, h, l := chip.regs, chip.heard, chip.loud;
      var scanning; ghost var p: Report;
      scanning, p := PollScan();
      seen := [p];
      while scanning
        invariant scanning == Scans(chip.regs) && chip.heard == h + seen && chip.loud == l && |seen| >= 1
        invariant FieldsKept(r, chip.regs) && SettingsKept(r, chip.regs) && SystemKept(r[SYSTEM1], chip.regs[SYSTEM1])
        invariant chip.regs[REG_PD2] == r[REG_PD2] && RangeOf(chip.regs) == RangeOf(r)
        invariant seen[|seen| - 1].channel == Channel(chip.regs) && seen[|seen| - 1].value.b5 == scanning
        invariant forall k :: 0 <= k < |seen| ==> seen[k].addr == SYSTEM1 && seen[k].range == RangeOf(r)
        invariant forall k :: 0 <= k < |seen| - 1 ==> seen[k].value.b5
        decreases chip.busy, scanning
      {
        ghost var r1 := chip.regs;
        scanning, p := PollScan();
        FieldsKeptOn(r, r1, chip.regs);
        seen := seen + [p];
      }
    }

    /** QND_TXClearChannelScan (lines 992-1009). */
    method TxClearChannelScan(start: Freq, stop: Freq, step: nat) returns (ch: Freq, ghost a: seq<Report>)
      requires step < 3
      modifies chip
      ensures chip.regs[GAIN_SEL] == old(chip.regs[GAIN_SEL])
      ensures chip.heard == old(chip.heard) + a && Cleared(a, start, stop, step, ch)
      ensures RangeOf(chip.regs) == a[0].range
      ensures Hushed(old(chip.regs), old(chip.loud), chip.regs, chip.loud) && !Scans(chip.regs)
      ensures 7600 <= ch <= 12715 && ch == FreqOf(Channel(chip.regs))
      ensures And(chip.regs[SYSTEM1], CCS_BITS) == TXREQ
      ensures SettingsSet(old(chip.regs), chip.regs, CCA, Masked(old(chip.regs[CCA]), CCA_BITS, CCA_ON))
    {
      assert IsSetting(GAIN_SEL) && IsSetting(CCA);
      ghost var p := BeginClearScan(start, stop, step);
      ghost var seen := AwaitScan();
      a := [p] + seen;
      ghost var r := chip.regs;
      ch := GetCh(chip);
      ClearedBy(p, seen, start, stop, step, ch);
      RangeStays(r, chip.regs);
    }

    /** Lines 47-49: where soft mute, high cut and stereo noise control begin. */
    method SetRxStarts()
      modifies chip
      ensures chip.heard == old(chip.heard)
      ensures chip.loud == old(chip.loud) && FieldsKept(old(chip.regs), chip.regs)
      ensures SystemKept(old(chip.regs[SYSTEM1]), chip.regs[SYSTEM1]) && chip.regs[REG_PD2] == old(chip.regs[REG_PD2])
      ensures SettingsBecame(old(chip.regs), chip.regs, StartByte)
    {
      SetRegBit(chip, 64, OfNat(0x3f), OfNat(8));
      SetRegBit(chip, 66, OfNat(0x3f), OfNat(22));
      SetRegBit(chip, 65, OfNat(0x7f), OfNat(40));
    }

    /** QNF_RXInit (lines 42-50). */
    method RxInit()
      modifies chip
      ensures chip.heard == old(chip.heard)
      ensures chip.loud == old(chip.loud) && FieldsKept(old(chip.regs), chip.regs)
      ensures SystemKept(old(chip.regs[SYSTEM1]), chip.regs[SYSTEM1]) && chip.regs[REG_PD2] == old(chip.regs[REG_PD2])
      ensures SettingsBecame(old(chip.regs), chip.regs, RxByte)
    {
      SetRegBit(chip, 77, TOP_BIT, TOP_BIT);
      SetRegBit(chip, 40, TOP_BIT, TOP_BIT);
      SetRxStarts();
    }

    method ReadSetting(addr: nat) returns (v: Byte)
      requires addr < 256 && IsSetting(addr) && !IsReport(addr)
      modifies chip`regs, chip`busy, chip`heard
      ensures v == old(chip.regs[addr]) && chip.heard == old(chip.heard) && Elapsed(old(chip.regs), chip.regs)
      ensures chip.regs[GAIN_SEL] == old(chip.regs[GAIN_SEL])
    {
      assert IsSetting(GAIN_SEL);
      v := chip.ReadReg(addr);
    }

    /** Line 578: the tuner's filter. */
    method SetFilter()
      modifies chip
      ensures chip.heard == old(chip.heard)
      ensures chip.loud == old(chip.loud) && FieldsKept(old(chip.regs), chip.regs)
      ensures SystemKept(old(chip.regs[SYSTEM1]), chip.regs[SYSTEM1])
      ensures SettingsSet(old(chip.regs), chip.regs, GAIN_SEL,
                          FilterByte(old(chip.regs[GAIN_SEL]), old(chip.regs[SYSTEM2])))
    {
      var sys2 := ReadSetting(SYSTEM2);
      ghost var mid := chip.regs;
      SetRegBit(chip, GAIN_SEL, FILTER_BITS, FilterOf(sys2));
      SettingsSetOn(old(chip.regs), mid, chip.regs, GAIN_SEL, FilterByte(mid[GAIN_SEL], sys2));
    }

    /** Lines 575-579: the tuner's filter, and sound. */
    method FinishTuning()
      modifies chip
      ensures chip.heard == old(chip.heard)
      ensures chip.loud == old(chip.loud) && FieldsKept(old(chip.regs), chip.regs) && Unmuted(chip.regs)
      ensures Transmits(chip.regs) == old(Transmits(chip.regs)) && (Scans(chip.regs) ==> old(Scans(chip.regs)))
      ensures chip.regs[SYSTEM1].b0
      ensures SettingsSet(old(chip.regs), chip.regs, GAIN_SEL,
                          FilterByte(old(chip.regs[GAIN_SEL]), old(chip.regs[SYSTEM2])))
    {
      assert IsSetting(SYSTEM2) && IsSetting(GAIN_SEL);
      SetRegBit(chip, SYSTEM1, CCA_CH_DIS, CCA_CH_DIS);
      SetFilter();
      SetMute(chip, false);
    }

    /** Image rejection is set for every 24th channel (lines 566-573 and 770-777). */
    method SetImageRejection(freq: Freq)
      modifies chip
      ensures chip.heard == old(chip.heard)
      ensures chip.loud == old(chip.loud) && FieldsKept(old(chip.regs), chip.regs)
      ensures SystemKept(old(chip.regs[SYSTEM1]), chip.regs[SYSTEM1]) && chip.regs[REG_PD2] == old(chip.regs[REG_PD2])
      ensures SettingsSet(old(chip.regs), chip.regs, TXAGC_GAIN, ImageByte(old(chip.regs[TXAGC_GAIN]), freq))
    {
      SetRegBit(chip, TXAGC_GAIN, IMR, if (freq - 7710) % 240 == 0 then IMR else ZERO);
    }

    /** Lines 565-574: mute, then set the channel. */
    method SetChannelMuted(ch: Freq)
      modifies chip
      ensures chip.heard == old(chip.heard)
      ensures chip.loud == old(chip.loud) && Muted(chip.regs) && SystemKept(old(chip.regs[SYSTEM1]), chip.regs[SYSTEM1])
      ensures !old(Scans(chip.regs)) ==> Channel(chip.regs) == ChannelReg(ch) % 1024
      ensures SettingsSet(old(chip.regs), chip.regs, TXAGC_GAIN, ImageByte(old(chip.regs[TXAGC_GAIN]), ch))
    {
      SetMute(chip, true);
      SetImageRejection(ch);
      var _ := SetCh(chip, ch);
    }

    /** Lines 565-579: a receiver goes silently to the channel and is heard again. */
    method TuneReceiver(ch: Freq)
      modifies chip
      ensures chip.heard == old(chip.heard)
      ensures Transmits(chip.regs) == old(Transmits(chip.regs)) && (Scans(chip.regs) ==> old(Scans(chip.regs)))
      ensures Unmuted(chip.regs) && chip.loud == old(chip.loud) && chip.regs[SYSTEM1].b0
      ensures !old(Scans(chip.regs)) ==> Channel(chip.regs) == ChannelReg(ch) % 1024
      ensures SettingsBecame(old(chip.regs), chip.regs, ChannelByte(ch, old(chip.regs[SYSTEM2])))
    {
      assert IsSetting(SYSTEM2) && IsSetting(GAIN_SEL) && IsSetting(TXAGC_GAIN);
      SetChannelMuted(ch);
      FinishTuning();
    }

    /** QND_TuneToCH (lines 551-580).  A receiving chip ends up unmuted, and on the channel
        unless a scan is still on; a transmitting one only gets the channel. */
    method TuneTo(ch: Freq)
      modifies chip
      ensures chip.heard == old(chip.heard)
      ensures Transmits(chip.regs) == old(Transmits(chip.regs)) && (Scans(chip.regs) ==> old(Scans(chip.regs)))
      ensures if old(Transmits(chip.regs)) then Hushed(old(chip.regs), old(chip.loud), chip.regs, chip.loud)
              else Unmuted(chip.regs) && chip.loud == old(chip.loud)
      ensures !old(Scans(chip.regs)) ==> Channel(chip.regs) == ChannelReg(ch) % 1024
      ensures chip.regs[SYSTEM1].b0
      ensures if old(Transmits(chip.regs)) then SettingsBecame(old(chip.regs), chip.regs, RxByte)
              else SettingsBecame(old(chip.regs), chip.regs, TunedByte(ch, old(chip.regs[SYSTEM2])))
    {
      RxInit();
      ghost var r := chip.regs;
      var mode := chip.ReadReg(SYSTEM1);
      ElapsedKeeps(r, chip.regs);
      if mode.b6 {
        SetRegBit(chip, SYSTEM1, CCA_CH_DIS, CCA_CH_DIS);
        var _ := SetCh(chip, ch);
        return;
      }
      ghost var ready := chip.regs;
      TuneReceiver(ch);
      TunedInTwo(old(chip.regs), ready, chip.regs, ch);
    }

    /** Lines 314 and 326: the chip looks for a clear channel in a band. */
    method ScanBand(i: nat) returns (ch: Freq, ghost a: seq<Report>)
      requires Valid() && i < BANDS
      modifies chip
      ensures chip.regs[GAIN_SEL] == old(chip.regs[GAIN_SEL])
      ensures chip.heard == old(chip.heard) + a && Cleared(a, bb[i], BandStop(bb, i, chStep), chStep, ch)
      ensures RangeOf(chip.regs) == a[0].range && !Scans(chip.regs)
      ensures Hushed(old(chip.regs), old(chip.loud), chip.regs, chip.loud)
    {
      ch, a := TxClearChannelScan(bb[i], (bb[i + 1] - StepValue(chStep)) % RANGE, chStep);
    }

    /** One band of the noise floor (lines 314-320 and 325-327). */
    method MeasureBand(i: nat) returns (ch: Freq, ghost m: Measurement)
      requires Valid() && i < BANDS
      modifies chip, `rssin, `kept
      ensures chip.regs[GAIN_SEL] == old(chip.regs[GAIN_SEL])
      ensures |rssin| == BANDS && rssin == old(rssin)[i := m.rssi] && m.rssi < 256
      ensures kept == old(kept)[i := Last(m, bb, chStep)] && AllKept(kept, rssin)
      ensures m.ch == ch && Measures(m, bb, i, chStep) && chip.heard == old(chip.heard) + m.answers
      ensures Hushed(old(chip.regs), old(chip.loud), chip.regs, chip.loud)
      ensures !Scans(chip.regs) && !Transmits(chip.regs)
    {
      ghost var a, p;
      ch, a := ScanBand(i);
      var rssi;
      rssi, p := GetRssi(ch);
      rssin := rssin[i := rssi];
      m := Measurement(ch, rssi, a + [p]);
      MeasuredBy(a, p, bb, i, chStep, ch);
      KeepsOne(kept, old(rssin), i, m, bb, chStep);
      kept := kept[i := Last(m, bb, chStep)];
    }

    /** One turn of the loop over all bands (lines 314-320). */
    method MeasureNext(i: nat) returns (ghost m: Measurement)
      requires Valid() && i < BANDS
      modifies chip, `rssin, `rssins, `clearChannel, `measured, `kept
      ensures chip.regs[GAIN_SEL] == old(chip.regs[GAIN_SEL])
      ensures Valid() && measured == old(measured) + [m] && rssin == old(rssin)[i := m.rssi]
      ensures kept == old(kept)[i := Last(m, bb, chStep)]
      ensures Measures(m, bb, i, chStep) && chip.heard == old(chip.heard) + m.answers
      ensures Hushed(old(chip.regs), old(chip.loud), chip.regs, chip.loud)
    {
      var ch;
      ch, m := MeasureBand(i);
      assert (measured + [m])[..|measured|] == measured;
      measured := measured + [m];
      if rssins > rssin[i] { rssins, clearChannel := rssin[i], ch; }
    }

    /** The loop over all bands (lines 312-321). */
    method MeasureAll()
      requires Valid()
      modifies chip, `rssin, `rssins, `clearChannel, `measured, `kept
      ensures chip.regs[GAIN_SEL] == old(chip.regs[GAIN_SEL])
      ensures Valid()
      ensures FullRefresh(bb, chStep, old(measured), measured, old(chip.heard), chip.heard, rssin, kept)
      ensures Hushed(old(chip.regs), old(chip.loud), chip.regs, chip.loud)
    {
      var i := 0;
      assert chip.heard + Gathered([]) == chip.heard;
      while i < BANDS
        invariant 0 <= i <= BANDS && Valid() && chip.regs[GAIN_SEL] == old(chip.regs[GAIN_SEL])
        invariant Refreshed(bb, chStep, old(measured), measured, old(chip.heard), chip.heard, rssin, kept, i)
        invariant Hushed(old(chip.regs), old(chip.loud), chip.regs, chip.loud)
      {
        ghost var before, mid, floors, keeps := measured, chip.heard, rssin, kept;
        ghost var m := MeasureNext(i);
        RefreshesOn(bb, chStep, old(measured), before, old(chip.heard), mid, floors, keeps, i, m);
        i := i + 1;
      }
    }

    /** Lines 310-328: all bands, or the band of one frequency, of which m is the measurement. */
    method Measure(chFreq: Freq) returns (ghost m: Measurement)
      requires Valid()
      modifies chip, `rssin, `rssins, `clearChannel, `measured, `kept
      ensures Valid() && chip.regs[GAIN_SEL] == old(chip.regs[GAIN_SEL])
      ensures Updated(chFreq, m, old(NoiseFloor()), old(chip.heard))
      ensures Hushed(old(chip.regs), old(chip.loud), chip.regs, chip.loud)
    {
      if chFreq == 0 {
        MeasureAll();
        m := Measurement(0, 0, []);
      } else {
        var i := BandIndex(bb, chFreq);
        var ch;
        ch, m := MeasureBand(i);
      }
    }

    /** m, measured of the band of this frequency, is all that is new. */
    ghost predicate OneMeasured(chFreq: Freq, m: Measurement, was: seq<nat>, before: seq<Kept>, heard: Heard)
      requires |bb| == BANDS + 1 && |was| == |before| == BANDS && chStep < 3
      reads this, chip
    {
      var i := BandOf(bb, chFreq);
      Measures(m, bb, i, chStep) && rssin == was[i := m.rssi] && kept == before[i := Last(m, bb, chStep)] &&
      chip.heard == heard + m.answers
    }

    /** From the noise floor f on, all bands were measured, or only that of one frequency. */
    ghost predicate Updated(chFreq: Freq, m: Measurement, f: Floor, heard: Heard)
      reads this, chip
    {
      |bb| == BANDS + 1 && |f.rssin| == |f.kept| == BANDS && chStep < 3 &&
      if chFreq == 0 then FullRefresh(bb, chStep, f.measured, measured, heard, chip.heard, rssin, kept)
      else measured == f.measured && OneMeasured(chFreq, m, f.rssin, f.kept, heard)
    }

    /** QNF_UpdateRSSIn (lines 302-331): SYSTEM1 is put back at the end. */
    method UpdateBands(chFreq: Freq) returns (ghost m: Measurement)
      requires Valid()
      modifies chip, `rssin, `rssins, `clearChannel, `measured, `kept
      ensures chip.regs[GAIN_SEL] == old(chip.regs[GAIN_SEL])
      ensures Valid()
      ensures Updated(chFreq, m, old(NoiseFloor()), old(chip.heard))
      ensures Hushed(old(chip.regs), old(chip.loud), chip.regs, chip.loud)
      ensures SystemKept(old(chip.regs[SYSTEM1]), chip.regs[SYSTEM1])
    {
      assert IsSetting(GAIN_SEL);
      ghost var r := chip.regs;
      var r0 := chip.ReadReg(SYSTEM1);
      ElapsedKeeps(r, chip.regs);
      m := Measure(chFreq);
      ghost var r1 := chip.regs;
      chip.WriteReg(SYSTEM1, r0);
      WriteKeeps(r1, chip.regs, SYSTEM1, r0);
    }

    /** Lines 631-649: one reading on the clear channel; a refresh is due unless it is within three of
        the noise floor. */
    method CheckFloor() returns (ghost reading: nat)
      modifies chip, `clearScan
      ensures Measured(old(chip.heard), chip.heard, reading)
      ensures !old(Scans(chip.regs)) ==> LastSignalAt(chip.heard, clearChannel)
      ensures clearScan == !(reading <= rssins + 3 && rssins <= reading + 3)
      ensures chip.regs[GAIN_SEL] == old(chip.regs[GAIN_SEL])
      ensures Hushed(old(chip.regs), old(chip.loud), chip.regs, chip.loud)
      ensures !Transmits(chip.regs) && (Scans(chip.regs) ==> old(Scans(chip.regs)))
    {
      var temp; ghost var p;
      temp, p := GetRssi(clearChannel);
      reading := temp;
      var difference := if temp > rssins then temp - rssins else rssins - temp;
      clearScan := difference >= 4;   // RSSINTHRESHOLD
    }

    /** Lines 650-654: the refresh, if it is due. */
    method RefreshFloor(ch: Freq) returns (ghost m: Measurement)
      requires Valid()
      modifies chip, `rssin, `rssins, `clearChannel, `firstScan, `measured, `kept
      ensures Valid() && !firstScan && chip.regs[GAIN_SEL] == old(chip.regs[GAIN_SEL])
      ensures if old(firstScan) || clearScan || ch != 0
              then Updated(ch, m, old(NoiseFloor()), old(chip.heard)) else unchanged(this, chip)
      ensures Hushed(old(chip.regs), old(chip.loud), chip.regs, chip.loud)
      ensures SystemKept(old(chip.regs[SYSTEM1]), chip.regs[SYSTEM1])
    {
      m := Measurement(0, 0, []);
      if clearScan || firstScan || ch != 0 {
        m := UpdateBands(ch);
        firstScan := false;
      }
    }

    /** QND_UpdateRSSIn (lines 625-656).  Unless it is the first, there is a reading at the clear
        channel, and only if that is within three of the noise floor the refresh is left out. */
    method UpdateNoiseFloor(ch: Freq) returns (ghost x: Refresh, ghost m: Measurement)
      requires Valid()
      modifies chip, `rssin, `rssins, `clearChannel, `clearScan, `firstScan, `measured, `kept
      ensures Valid() && !firstScan && x.done == chip.heard
      ensures ch == 0 ==> FloorUpdated(old(NoiseFloor()), NoiseFloor(), old(chip.heard), x, !old(Scans(chip.regs)))
      ensures chip.regs[GAIN_SEL] == old(chip.regs[GAIN_SEL])
      ensures ch != 0 ==> measured == old(measured) && OneMeasured(ch, m, old(rssin), old(kept), x.asked)
      ensures Hushed(old(chip.regs), old(chip.loud), chip.regs, chip.loud)
      ensures Transmits(chip.regs) == (old(firstScan) && old(Transmits(chip.regs)))
      ensures Scans(chip.regs) ==> old(Scans(chip.regs))
    {
      x := Refresh(0, chip.heard, chip.heard);
      if !firstScan {
        ghost var reading := CheckFloor();
        x := Refresh(reading, chip.heard, chip.heard);
      }
      m := RefreshFloor(ch);
      x := x.(done := chip.heard);
    }
  }
}
