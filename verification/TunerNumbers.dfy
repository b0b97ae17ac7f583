/** The registers, bits, fields and verdicts of qndriver.c and qndriver.h in numbers: what the definitions that
    the driver's methods share with their specifications amount to. */
module TunerNumbers {
  import opened Bytes
  import opened SeekWalk
  import opened SeekLogs
  import opened BandSweep
  import opened TunerChip
  import opened TunerFields
  import opened NoiseBands
  import opened Tuner
  import opened Trials
  import opened Seeker

  // ---------- registers and masks ----------

  lemma RegistersAre()
    ensures SYSTEM1 == 0x00 && SYSTEM2 == 0x01 && CH == 0x08 && CH_START == 0x09 && CH_STOP == 0x0A && CH_STEP == 0x0B
    ensures TXAGC_GAIN == 0x0D && CCA == 0x19 && STATUS1 == 0x1A && RSSISIG == 0x1C && GAIN_SEL == 0x1F
    ensures SNR == 0x22 && CCA4 == 0x36 && CCA5 == 0x37 && REG_PD2 == 0x52
  {}

  lemma MasksAre()
    ensures ToNat(MODE_BITS) == 0xd0 && ToNat(RXREQ) == 0x80 && ToNat(TXREQ) == 0x40 && ToNat(RXI2S) == 0x08
    ensures ToNat(CCA_CH_DIS) == 0x01 && ToNat(IMR) == 0x20 && ToNat(FILTER_BITS) == 0x38 && ToNat(FILTER_2) == 0x28
    ensures ToNat(CCS_MASK) == 0xe1 && ToNat(CCS_ON) == 0x60 && ToNat(CCA_BITS) == 0xe0 && ToNat(CCA_ON) == 0x20
    ensures ToNat(SCAN_BITS) == 0xA1 && ToNat(SCAN_ON) == 0xA0 && ToNat(SCAN_OFF) == 0x81 && ToNat(MUTE_BITS) == 0x0c
  {}

  // ---------- fields of the registers ----------

  lemma NibblePairsInNumbers(b3: bool, b2: bool, b1: bool, b0: bool)
    ensures Two(b1, b0) == Nibble(b3, b2, b1, b0) % 4 && Two(b3, b2) == Nibble(b3, b2, b1, b0) / 4
  {}

  lemma PairsOfSum(h: nat, l: nat)
    requires h < 16 && l < 16
    ensures var n := 16 * h + l; n % 4 == l % 4 && n / 4 % 4 == l / 4 && n / 16 % 4 == h % 4 && n / 64 == h / 4
  {
    var n := 16 * h + l;
    assert n / 4 == 4 * h + l / 4 && n / 16 == h;
  }

  lemma PairsInNumbers(b: Byte)
    ensures Two(b.b1, b.b0) == ToNat(b) % 4 && Two(b.b3, b.b2) == ToNat(b) / 4 % 4
    ensures Two(b.b5, b.b4) == ToNat(b) / 16 % 4 && Two(b.b7, b.b6) == ToNat(b) / 64
  {
    NibblePairsInNumbers(b.b7, b.b6, b.b5, b.b4);
    NibblePairsInNumbers(b.b3, b.b2, b.b1, b.b0);
    PairsOfSum(Nibble(b.b7, b.b6, b.b5, b.b4), Nibble(b.b3, b.b2, b.b1, b.b0));
  }

  /** CH_STEP holds, from its low end, the top bits of the channel, of the scan's start and of its stop, and the
      step; the low bytes are in CH, CH_START and CH_STOP. */
  lemma FieldsInNumbers(r: Regs)
    ensures var t := ToNat(r[0x0B]);
            Channel(r) == t % 4 * 256 + ToNat(r[0x08]) && ScanStart(r) == t / 4 % 4 * 256 + ToNat(r[0x09]) &&
            ScanStop(r) == t / 16 % 4 * 256 + ToNat(r[0x0A]) && ScanStep(r) == t / 64
  {
    PairsInNumbers(r[0x0B]);
  }

  /** Transmission is bit 6 of register 0 and a scan bit 5; the mute bits are bits 2 and 3 of register 0x52. */
  lemma SwitchesInNumbers(r: Regs)
    ensures Transmits(r) <==> ToNat(r[0x00]) / 64 % 2 == 1
    ensures Scans(r) <==> ToNat(r[0x00]) / 32 % 2 == 1
    ensures Muted(r) <==> ToNat(r[0x52]) / 4 % 4 == 3
    ensures Unmuted(r) <==> ToNat(r[0x52]) / 4 % 4 == 0
  {
    HighDigits(r[0x00]);
    PairsInNumbers(r[0x52]);
  }

  /** The channel number is the distance from 76 MHz in steps of 50 kHz, rounded towards 76 MHz, in 16 bits. */
  lemma ChannelRegRounds(f: Freq)
    ensures f >= 7600 ==> 5 * ChannelReg(f) <= f - 7600 < 5 * ChannelReg(f) + 5
    ensures f < 7600 ==> exists n: nat ::
              5 * n <= 7600 - f < 5 * n + 5 && ChannelReg(f) == if n == 0 then 0 else 0x1_0000 - n
  {
    if f < 7600 {
      var n: nat := (7600 - f) / 5;
      assert 5 * n <= 7600 - f < 5 * n + 5;
    }
  }

  // ---------- settings ----------

  lemma StartsAre()
    ensures OfNat(0x3f) == Byte(false, false, true, true, true, true, true, true)
    ensures OfNat(0x7f) == Byte(false, true, true, true, true, true, true, true)
    ensures OfNat(8) == Byte(false, false, false, false, true, false, false, false)
    ensures OfNat(40) == Byte(false, false, true, false, true, false, false, false)
    ensures OfNat(22) == Byte(false, false, false, true, false, true, true, false)
  {}

  lemma TopBitInNumbers(b: Byte)
    ensures ToNat(b) / 128 == Weight(b.b7, 1)
  {
    HighDigits(b);
  }

  lemma TopTwoStay(b: Byte, r: Byte, n: nat)
    requires n < 64 && r == OfNat(n).(b7 := b.b7, b6 := b.b6)
    ensures ToNat(r) == ToNat(b) / 64 * 64 + n
  {
    PairsInNumbers(b);
    PairsInNumbers(OfNat(n));
    NatRoundTrip(n);
  }

  lemma TopStays(b: Byte, r: Byte, n: nat)
    requires n < 128 && r == OfNat(n).(b7 := b.b7)
    ensures ToNat(r) == ToNat(b) / 128 * 128 + n
  {
    TopBitInNumbers(b);
    TopBitInNumbers(OfNat(n));
    NatRoundTrip(n);
  }

  lemma TopIsSet(b: Byte, r: Byte)
    requires r == b.(b7 := true)
    ensures ToNat(r) == ToNat(b) % 128 + 128
  {
    TopBitInNumbers(b);
  }

  lemma RxBytesAre(b: Byte)
    ensures RxByte(64, b) == OfNat(8).(b7 := b.b7, b6 := b.b6) && RxByte(66, b) == OfNat(22).(b7 := b.b7, b6 := b.b6)
    ensures RxByte(65, b) == OfNat(40).(b7 := b.b7)
    ensures RxByte(40, b) == RxByte(77, b) == b.(b7 := true)
  {
    StartsAre();
  }

  /** Soft mute starts at 8. */
  lemma SoftMuteInNumbers(b: Byte)
    ensures ToNat(RxByte(64, b)) == ToNat(b) / 64 * 64 + 8
  {
    RxBytesAre(b);
    TopTwoStay(b, RxByte(64, b), 8);
  }

  /** High cut starts at 22. */
  lemma HighCutInNumbers(b: Byte)
    ensures ToNat(RxByte(66, b)) == ToNat(b) / 64 * 64 + 22
  {
    RxBytesAre(b);
    TopTwoStay(b, RxByte(66, b), 22);
  }

  /** Stereo noise control starts at 40. */
  lemma NoiseControlInNumbers(b: Byte)
    ensures ToNat(RxByte(65, b)) == ToNat(b) / 128 * 128 + 40
  {
    RxBytesAre(b);
    TopStays(b, RxByte(65, b), 40);
  }

  /** The top bits of registers 40 and 77 are set. */
  lemma TopBitsInNumbers(b: Byte)
    ensures ToNat(RxByte(40, b)) == ToNat(RxByte(77, b)) == ToNat(b) % 128 + 128
  {
    RxBytesAre(b);
    TopIsSet(b, RxByte(40, b));
  }

  /** Image rejection is on at 77.1 MHz and every 2.4 MHz from there. */
  lemma ImageInNumbers(b: Byte, f: Freq)
    ensures ToNat(ImageByte(b, f)) / 32 % 2 == 1 <==> exists k: int :: f == 7710 + 240 * k
  {
    HighDigits(ImageByte(b, f));
    if (f - 7710) % 240 == 0 { assert f == 7710 + 240 * ((f - 7710) / 240); }
  }

  /** The filter is off, or the second, as bit 5 of SYSTEM2 is set or not. */
  lemma FilterInNumbers(b: Byte, sys2: Byte)
    ensures ToNat(And(FilterByte(b, sys2), FILTER_BITS)) == if ToNat(sys2) / 32 % 2 == 1 then 0 else 0x28
  {
    HighDigits(sys2);
  }

  // ---------- a trial's verdict ----------

  lemma CountInNumbers(c5: Byte, c4: Byte)
    ensures IfCount(c5, c4) == ToNat(c5) % 32 * 256 + ToNat(c4)
  {
    LowFive(c5, And(c5, COUNT_BITS));
  }

  lemma LowFive(b: Byte, r: Byte)
    requires r == And(b, COUNT_BITS)
    ensures ToNat(r) == ToNat(b) % 32
  {
    var h, l := Nibble(b.b7, b.b6, b.b5, b.b4), Nibble(b.b3, b.b2, b.b1, b.b0);
    assert r == Byte(false, false, false, b.b4, b.b3, b.b2, b.b1, b.b0);
    NibbleDigits(b.b7, b.b6, b.b5, b.b4);
    assert Nibble(r.b7, r.b6, r.b5, r.b4) == h % 2;
    LowFiveOfSum(h, l);
  }

  lemma LowFiveOfSum(h: nat, l: nat)
    requires l < 16
    ensures (16 * h + l) % 32 == 16 * (h % 2) + l
  {
    assert 16 * h + l == 32 * (h / 2) + (16 * (h % 2) + l);
  }

  /** The threshold told to the chip is 22 below the floor and the caller's threshold on top, in 8 bits. */
  lemma ThresholdInNumbers(f: Freq, step: nat, floor: nat, db: nat)
    ensures ToNat(Asked(f, step, floor, db).threshold) == (floor + db + 234) % 256
  {
    NatRoundTrip((floor - 22 + db) % 256);
  }

  /** The verdict of the reports from CCA5 on, which are a: the count, the pilot and the signal to noise ratio. */
  predicate Passes(a: seq<Report>, strong: bool) {
    |a| >= 2 && a[0].addr == 0x37 && a[1].addr == 0x36 &&
    var count := ToNat(a[0].value) % 32 * 256 + ToNat(a[1].value);
    1828 < count < 2268 &&
    (strong || (|a| >= 3 && a[2].addr == 0x1A && ToNat(a[2].value) % 2 == 0) ||
     (|a| >= 4 && a[2].addr == 0x1A && a[3].addr == 0x22 && 5 < ToNat(a[3].value) < 55))
  }

  lemma WeighedInNumbers(u: Trial, step: nat)
    requires Weighed(u, step) && AllGenuine(u.answers) && u.rssi > u.floor + 6 + u.db && 0 < u.polls < 200
    ensures Accepts(u) <==> Passes(u.answers[2 + u.polls..], u.rssi > u.floor + u.db + 20)
  {
    var n := 2 + u.polls;
    var a := u.answers[n..];
    assert a[0] == u.answers[n] && a[1] == u.answers[n + 1];
    CountInNumbers(a[0].value, a[1].value);
    if 1828 < u.ifcnt < 2268 && u.rssi <= u.floor + 20 + u.db { PilotInNumbers(u, step, a, n); }
  }

  lemma PilotInNumbers(u: Trial, step: nat, a: seq<Report>, n: nat)
    requires n + 2 < |u.answers| && a == u.answers[n..] && HasPilot(u, n + 2, step) && AllGenuine(u.answers)
    ensures a[2].addr == 0x1A && (u.mono <==> ToNat(a[2].value) % 2 == 1)
    ensures if u.mono then |a| == 4 && a[3].addr == 0x22 && u.snr == ToNat(a[3].value) else |a| == 3
  {
    assert a[2] == u.answers[n + 2];
    LowDigits(a[2].value);
    if u.mono { assert a[3] == u.answers[n + 3] && Genuine(u.answers[n + 3]); }
  }

  /** The verdict on a trial from the raw values the chip reported: register 0x1C first, then the request and
      at most 199 polls, and then registers 0x37 and 0x36, and as far as they are asked for 0x1A and 0x22. */
  lemma VerdictOfReports(u: Trial, settled: bool, t: Terms)
    requires Fair(u, settled, t)
    ensures var a, least := u.answers, t.rssin[BandOf(t.bb, u.freq)] + t.db;
            a != [] && a[0].addr == 0x1C &&
            (Accepts(u) <==>
             ToNat(a[0].value) > least + 6 && u.polls < 200 && |a| >= 2 + u.polls &&
             Passes(a[2 + u.polls..], ToNat(a[0].value) > least + 20))
  {
    assert Genuine(u.answers[0]);
    if u.rssi > u.floor + 6 + u.db && u.polls < 200 { WeighedInNumbers(u, t.step); }
  }

  // ---------- the noise floor ----------

  lemma RefreshIsHeard(bb: seq<Freq>, step: nat, before: seq<Measurement>, after: seq<Measurement>, was: Heard,
                       now: Heard, rssin: seq<nat>, kept: seq<Kept>)
    requires FullRefresh(bb, step, before, after, was, now, rssin, kept)
    ensures |now| >= |was| + 3
  {
    var ms := after[|before|..];
    assert |ms| == 6 && Measures(ms[5], bb, 5, step);
  }

  /** Beyond the one reading nothing is asked of the chip iff that reading is at most 3 away from the floor. */
  lemma RefreshedIff(f: Floor, g: Floor, was: Heard, x: Refresh, still: bool)
    requires FloorUpdated(f, g, was, x, still)
    ensures x.done == x.asked <==> !f.first && -3 <= x.reading - f.least <= 3
  {
    if !(!f.first && -3 <= x.reading - f.least <= 3) {
      RefreshIsHeard(f.bb, f.step, f.measured, g.measured, x.asked, x.done, g.rssin, g.kept);
    }
  }

  // ---------- bands ----------

  lemma QuotientFits(n: nat, w: nat)
    requires w in {30, 60, 120} && n < w * 256
    ensures n / w < 256 && w * (n / w) <= n < w * (n / w + 1)
  {
    if w == 30 {} else if w == 60 {} else {}
  }

  /** A band is as wide as six of them fit into the range, in whole steps, while that is below 256 of them. */
  lemma WidthInNumbers(start: Freq, stop: Freq, s: nat)
    requires s in {5, 10, 20} && start <= stop && stop - start < 6 * s * 256
    ensures 6 * s * BandSteps(start, stop, s) <= stop - start < 6 * s * (BandSteps(start, stop, s) + 1)
  {
    QuotientFits(stop - start, 6 * s);
    assert (stop - start) % RANGE == stop - start;
    if s == 5 {} else if s == 10 {} else {}
  }

  /** The k-th point of a band: there is one just as long as it is not past the end, and it is k steps away. */
  lemma {:induction false} LatticePoints(f: int, stop: int, up: bool, s: nat, k: nat)
    requires s > 0
    ensures k < |Lattice(f, stop, up, s)| <==> if up then f + k * s <= stop else stop <= f - k * s
    ensures k < |Lattice(f, stop, up, s)| ==> Lattice(f, stop, up, s)[k] == if up then f + k * s else f - k * s
    decreases k
  {
    assert k * s >= 0;
    if k > 0 && !Beyond(f, stop, up) {
      LatticePoints(Plain(f, up, s, 1), stop, up, s, k - 1);
      assert (k - 1) * s + s == k * s;
    }
  }
}
