/** The seeks of qndriver.c: one station, and all of a band. */
module Seeker {
  import opened Bytes
  import opened SeekWalk
  import opened SeekLogs
  import opened BandSweep
  import opened TunerChip
  import opened TunerFields
  import opened NoiseBands
  import opened Tuner
  import opened Trials

  const SCAN_OFF := Byte(true, false, false, false, false, false, false, true)       // 0x81

  class Seeks {
    const radio: Radio
    const chip: Chip
    const hasCallback: bool
    var autoScanAll: bool
    var chCount: nat
    var chList: seq<Freq>
    ghost var calls: seq<Freq>     // what the callback was called with
    ghost var trials: seq<Trial>   // what was tried so far

    constructor (radio: Radio, hasCallback: bool)
      ensures this.radio == radio && this.chip == radio.chip && this.hasCallback == hasCallback
      ensures !autoScanAll && |chList| == 50 && calls == [] && trials == []
    {
      this.radio, this.chip, this.hasCallback := radio, radio.chip, hasCallback;
      autoScanAll, chCount, chList := false, 0, seq(50, _ => 0);
      calls, trials := [], [];
    }

    ghost predicate Valid()
      reads this, radio
    {
      radio.Valid() && radio.chip == chip && |chList| == 50 && chCount <= 50
    }

    /** What a seek with this threshold and step judges by. */
    ghost function TermsOf(step: nat, db: nat): Terms
      reads radio
    {
      Terms(radio.bb, radio.rssin, db, step)
    }

    /** The poll for the end of a scan (lines 786-793): at most 200 turns. */
    method PollScan() returns (polls: nat, ghost seen: seq<Report>)
      modifies chip
      ensures chip.heard == old(chip.heard) + seen && 1 <= polls == |seen| <= POLLS
      ensures forall k :: 0 <= k < polls ==> seen[k].addr == SYSTEM1 && seen[k].range == RangeOf(old(chip.regs))
      ensures forall k :: 0 <= k < polls - 1 ==> seen[k].value.b5
      ensures polls < POLLS ==> !seen[polls - 1].value.b5 && !Scans(chip.regs)
      ensures AllGenuine(seen)
      ensures OnlyAsked(old(chip.regs), old(chip.loud), chip.regs, chip.loud)
    {
      assert IsSetting(CCA);
      ghost var r := chip.regs;
      var scanning; ghost var p: Report;
      scanning, p := Poll();
      polls, seen := 1, [p];
      while scanning && polls < POLLS
        invariant 1 <= polls <= POLLS && |seen| == polls && chip.heard == old(chip.heard) + seen
        invariant forall k :: 0 <= k < polls ==> seen[k].addr == SYSTEM1 && seen[k].range == RangeOf(r)
        invariant (forall k :: 0 <= k < polls - 1 ==> seen[k].value.b5) && seen[polls - 1].value.b5 == scanning
        invariant AllGenuine(seen)
        invariant scanning == Scans(chip.regs) && OnlyAsked(r, old(chip.loud), chip.regs, chip.loud)
      {
        ghost var r1, l1 := chip.regs, chip.loud;
        scanning, p := Poll();
        RangeStays(r, r1);
        OnlyAskedOn(r, old(chip.loud), r1, l1, chip.regs, chip.loud);
        polls, seen := polls + 1, seen + [p];
      }
    }

    /** Lines 790 and 793: one poll. */
    method Poll() returns (scanning: bool, ghost p: Report)
      modifies chip
      ensures chip.heard == old(chip.heard) + [p] && Genuine(p)
      ensures p.addr == SYSTEM1 && p.range == RangeOf(old(chip.regs)) && p.value.b5 == scanning == Scans(chip.regs)
      ensures OnlyAsked(old(chip.regs), old(chip.loud), chip.regs, chip.loud)
    {
      assert IsSetting(CCA);
      ghost var r := chip.regs;
      var v := chip.ReadReg(SYSTEM1, true);
      ElapsedKeeps(r, chip.regs);
      RangeStays(r, chip.regs);
      p := ReportOf(chip.regs, SYSTEM1);
      scanning := v.b5;
    }

    /** A report register. */
    method Report(addr: nat) returns (v: Byte, ghost p: Report)
      requires IsReport(addr)
      modifies chip
      ensures chip.heard == old(chip.heard) + [p] && p == ReportOf(chip.regs, addr) && v == p.value && Genuine(p)
      ensures p.range == RangeOf(chip.regs) == old(RangeOf(chip.regs))
      ensures OnlyAsked(old(chip.regs), old(chip.loud), chip.regs, chip.loud)
    {
      ghost var r := chip.regs;
      v := chip.ReadReg(addr);
      p := ReportOf(chip.regs, addr);
      ElapsedKeeps(r, chip.regs);
      assert IsSetting(CCA);
      RangeStays(r, chip.regs);
    }

    /** QNM_SetRxThreshold (qndriver.h:377-378). */
    method SetThreshold(v: Byte)
      modifies chip
      ensures chip.heard == old(chip.heard) && FieldsKept(old(chip.regs), chip.regs)
      ensures SettingsSet(old(chip.regs), chip.regs, CCA, v) && SystemKept(old(chip.regs[SYSTEM1]), chip.regs[SYSTEM1])
      ensures Hushed(old(chip.regs), old(chip.loud), chip.regs, chip.loud)
    {
      ghost var r := chip.regs;
      chip.WriteReg(CCA, v);
      WriteKeeps(r, chip.regs, CCA, v);
    }

    /** Lines 783-785: the chip is told to scan the one frequency with a threshold, cut to 8 bits. */
    method BeginScan(f: Freq, step: nat, floor: nat, db: nat) returns (ghost p: Report)
      requires step < 3 && floor < 256 && db < 256
      modifies chip
      ensures chip.heard == old(chip.heard) + [p] && Begun(p, f, step, floor, db) && Genuine(p)
      ensures Hushed(old(chip.regs), old(chip.loud), chip.regs, chip.loud)
      ensures Transmits(chip.regs) == old(Transmits(chip.regs))
      ensures RangeOf(chip.regs) == Asked(f, step, floor, db)
      ensures chip.regs[TXAGC_GAIN] == old(chip.regs[TXAGC_GAIN])
      ensures And(chip.regs[SYSTEM1], SCAN_BITS) == SCAN_ON
    {
      assert IsSetting(CCA) && IsSetting(TXAGC_GAIN);
      ConfigScan(chip, f, f, step);
      ghost var r := chip.regs;
      SetThreshold(OfNat((floor - 22 + db) % 256));
      ghost var told := chip.regs;
      IsAsked(r, told, f, step, floor, db);
      SetRegBit(chip, SYSTEM1, SCAN_BITS, SCAN_ON, true);
      RangeStays(told, chip.regs);
      p := Requested(chip.regs);
    }

    /** Lines 808-822, a signal that is not very strong: its pilot, or else its signal to noise ratio. */
    method JudgeWeak(ghost t: Trial, ghost step: nat) returns (scanFlag: bool, ghost u: Trial)
      requires RangeOf(chip.regs) == Asked(t.freq, step, t.floor, t.db)
      modifies chip
      ensures Adds(t.answers, u.answers, old(chip.heard), chip.heard)
      ensures u == t.(mono := u.mono, snr := u.snr, answers := u.answers) && HasPilot(u, |t.answers|, step)
      ensures scanFlag == (u.mono && !(5 < u.snr < 55))
      ensures OnlyAsked(old(chip.regs), old(chip.loud), chip.regs, chip.loud)
    {
      ghost var r0, l0, h0 := chip.regs, chip.loud, chip.heard;
      scanFlag := true;
      var status; ghost var p;
      status, p := Report(STATUS1);
      u := t.(mono := status.b0, answers := t.answers + [p]);
      AddsSome(t.answers, [p], h0);
      if !status.b0 {
        scanFlag := false;
      } else {
        ghost var r1, l1 := chip.regs, chip.loud;
        var snr; ghost var r;
        snr, r := Report(SNR);
        OnlyAskedOn(r0, l0, r1, l1, chip.regs, chip.loud);
        u := u.(snr := r.number, answers := u.answers + [r]);
        AddsTwo(t.answers, p, r, h0);
        if ToNat(snr) > 5 && ToNat(snr) < 55 { scanFlag := false; }
      }
    }

    /** Lines 796-799: the intermediate frequency count. */
    method Count(ghost t: Trial, ghost step: nat) returns (ifcnt: nat, ghost u: Trial)
      requires RangeOf(chip.regs) == Asked(t.freq, step, t.floor, t.db)
      modifies chip
      ensures Adds(t.answers, u.answers, old(chip.heard), chip.heard)
      ensures u == t.(ifcnt := ifcnt, answers := u.answers) && Counted(u, |t.answers|, step)
      ensures |u.answers| == |t.answers| + 2 && RangeOf(chip.regs) == old(RangeOf(chip.regs))
      ensures OnlyAsked(old(chip.regs), old(chip.loud), chip.regs, chip.loud)
    {
      ghost var r0, l0, h0 := chip.regs, chip.loud, chip.heard;
      var c5, c4; ghost var p5, p4;
      c5, p5 := Report(CCA5);
      ghost var r1, l1 := chip.regs, chip.loud;
      c4, p4 := Report(CCA4);
      OnlyAskedOn(r0, l0, r1, l1, chip.regs, chip.loud);
      ifcnt := IfCount(c5, c4);
      u := t.(ifcnt := ifcnt, answers := t.answers + [p5] + [p4]);
      AddsTwo(t.answers, p5, p4, h0);
    }

    /** Lines 796-824, after a scan that ended in time: the reports the driver asks for. */
    method Judge(rssi: nat, floor: nat, db: nat, ghost t: Trial, ghost step: nat)
      returns (scanFlag: bool, ghost u: Trial)
      requires rssi == t.rssi && floor == t.floor && db == t.db
      requires RangeOf(chip.regs) == Asked(t.freq, step, t.floor, t.db)
      requires t.rssi > t.floor + 6 + t.db && 0 < t.polls < POLLS && |t.answers| == 2 + t.polls
      modifies chip
      ensures Adds(t.answers, u.answers, old(chip.heard), chip.heard)
      ensures u == t.(ifcnt := u.ifcnt, mono := u.mono, snr := u.snr, answers := u.answers)
      ensures scanFlag == !Accepts(u) && Weighed(u, step)
      ensures OnlyAsked(old(chip.regs), old(chip.loud), chip.regs, chip.loud)
    {
      ghost var r0, l0, h0 := chip.regs, chip.loud, chip.heard;
      scanFlag := true;
      var ifcnt;
      ifcnt, u := Count(t, step);
      if ifcnt < 2268 && ifcnt > 1828 {
        if rssi > floor + 20 + db {
          scanFlag := false;
        } else {
          ghost var r1, l1, h1, v := chip.regs, chip.loud, chip.heard, u;
          scanFlag, u := JudgeWeak(u, step);
          OnlyAskedOn(r0, l0, r1, l1, chip.regs, chip.loud);
          AddsMore(t.answers, v.answers, u.answers, h0, h1, chip.heard);
        }
      }
    }

    /** The poll, as part of a trial of a frequency the chip was told to scan. */
    method PollFor(step: nat, ghost t: Trial) returns (polls: nat, ghost u: Trial)
      requires RangeOf(chip.regs) == Asked(t.freq, step, t.floor, t.db)
      requires |t.answers| == 2 && Begun(t.answers[1], t.freq, step, t.floor, t.db)
      modifies chip
      ensures RangeOf(chip.regs) == old(RangeOf(chip.regs))
      ensures u == t.(polls := polls, answers := u.answers) && |u.answers| == 2 + polls && Polled(u, step)
      ensures Adds(t.answers, u.answers, old(chip.heard), chip.heard) && (Scans(chip.regs) ==> polls == POLLS)
      ensures OnlyAsked(old(chip.regs), old(chip.loud), chip.regs, chip.loud)
    {
      ghost var seen, h0, r := [], chip.heard, chip.regs;
      polls, seen := PollScan();
      assert IsSetting(CCA);
      RangeStays(r, chip.regs);
      u := t.(polls := polls, answers := t.answers + seen);
      AddsSome(t.answers, seen, h0);
    }

    /** Lines 783-825: what the chip's own scan of the frequency has to say; t so far is only
        known to be strong enough. */
    method Confirm(f: Freq, rssi: nat, floor: nat, db: nat, step: nat, ghost t: Trial)
      returns (scanFlag: bool, ghost u: Trial)
      requires f == t.freq && rssi == t.rssi && floor == t.floor && db == t.db && |t.answers| == 1
      requires step < 3 && floor < 256 && db < 256 && rssi > floor + 6 + db
      modifies chip
      ensures Adds(t.answers, u.answers, old(chip.heard), chip.heard)
      ensures u == t.(polls := u.polls, ifcnt := u.ifcnt, mono := u.mono, snr := u.snr, answers := u.answers)
      ensures Polled(u, step) && if u.polls == POLLS then |u.answers| == 2 + POLLS else Weighed(u, step)
      ensures scanFlag == !Accepts(u) && (Scans(chip.regs) ==> u.polls == POLLS)
      ensures Hushed(old(chip.regs), old(chip.loud), chip.regs, chip.loud)
      ensures Transmits(chip.regs) == old(Transmits(chip.regs))
      ensures chip.regs[TXAGC_GAIN] == old(chip.regs[TXAGC_GAIN])
    {
      assert IsSetting(TXAGC_GAIN);
      scanFlag := true;
      ghost var h := chip.heard;
      ghost var p := BeginScan(f, step, floor, db);
      AddsSome(t.answers, [p], h);
      ghost var h0, asked := chip.heard, t.(answers := t.answers + [p]);
      var polls;
      polls, u := PollFor(step, asked);
      AddsMore(t.answers, asked.answers, u.answers, h, h0, chip.heard);
      if polls < POLLS {
        ghost var h1, v := chip.heard, u;
        scanFlag, u := Judge(rssi, floor, db, u, step);
        AddsMore(t.answers, v.answers, u.answers, h, h1, chip.heard);
        PolledStays(v, u, step);
      }
    }

    /** Lines 768-780: the channel is set and its signal strength read. */
    method Approach(f: Freq) returns (rssi: nat, ghost p: Report)
      requires radio.chip == chip && Muted(chip.regs)
      modifies chip
      ensures chip.heard == old(chip.heard) + [p] && p.addr == RSSISIG && p.number == rssi && Genuine(p)
      ensures !old(Scans(chip.regs)) ==> p.channel == ChannelReg(f) % 1024
      ensures Muted(chip.regs) && chip.loud == old(chip.loud)
      ensures Transmits(chip.regs) == old(Transmits(chip.regs)) && !Scans(chip.regs)
      ensures chip.regs[TXAGC_GAIN].b5 <==> (f - 7710) % 240 == 0
    {
      assert IsSetting(TXAGC_GAIN);
      var _ := SetCh(chip, f);
      radio.SetImageRejection(f);
      SetRegBit(chip, SYSTEM1, SCAN_BITS, SCAN_OFF);
      var v;
      v, p := Report(RSSISIG);
      rssi := ToNat(v);
    }

    /** Lines 768-826, with the floor of the frequency's band. */
    method TryOver(f: Freq, floor: nat, step: nat, db: nat) returns (scanFlag: bool, ghost u: Trial)
      requires radio.chip == chip && floor < 256 && step < 3 && db < 256 && Muted(chip.regs)
      modifies chip
      ensures u.freq == f && u.floor == floor && u.db == db && chip.heard == old(chip.heard) + u.answers
      ensures Answered(u, step) && (!old(Scans(chip.regs)) ==> u.answers[0].channel == ChannelReg(f) % 1024)
      ensures chip.regs[TXAGC_GAIN].b5 <==> (f - 7710) % 240 == 0
      ensures scanFlag == !Accepts(u) && (Scans(chip.regs) ==> u.polls == POLLS)
      ensures Muted(chip.regs) && chip.loud == old(chip.loud) && Transmits(chip.regs) == old(Transmits(chip.regs))
    {
      var rssi; ghost var p;
      rssi, p := Approach(f);
      u := Trial(f, floor, db, rssi, 0, 0, true, 0, [p]);
      scanFlag := true;
      if rssi > floor + 6 + db {
        scanFlag, u := Confirm(f, rssi, floor, db, step, u);
        AddsAll(old(chip.heard), p, u.answers, chip.heard);
      }
    }

    /** One turn at a frequency (lines 767-826).  u is the trial, with what the chip reported. */
    method Try(f: Freq, step: nat, db: nat) returns (scanFlag: bool, ghost u: Trial)
      requires Valid() && step < 3 && db < 256 && Muted(chip.regs)
      modifies chip, `trials
      ensures Valid() && trials == old(trials) + [u]
      ensures u.freq == f && chip.heard == old(chip.heard) + u.answers
      ensures Fair(u, !old(Scans(chip.regs)), TermsOf(step, db))
      ensures chip.regs[TXAGC_GAIN].b5 <==> (f - 7710) % 240 == 0
      ensures scanFlag == !Accepts(u) && (Scans(chip.regs) ==> u.polls == POLLS)
      ensures Muted(chip.regs) && chip.loud == old(chip.loud) && Transmits(chip.regs) == old(Transmits(chip.regs))
    {
      var i := BandIndex(radio.bb, f);
      scanFlag, u := TryOver(f, radio.rssin[i], step, db);
      trials := trials + [u];
    }

    /** Lines 827-841: the next frequency, or the end of the seek; the callback, if there is one,
        is told of a station. */
    method Decide(tried: bool, f: Freq, stop: Freq, up: bool, step: nat)
      returns (scanFlag: bool, next: Freq, chfreq: Freq)
      requires step < 3
      modifies `calls
      ensures next == NextFreq(f, up, StepValue(step)) && scanFlag == (tried && !Past(next, stop, up))
      ensures chfreq == if !tried || scanFlag then f else 0
      ensures calls == if !tried && hasCallback then old(calls) + [f] else old(calls)
    {
      scanFlag, chfreq := tried, f;
      next := NextFreq(f, up, StepValue(step));
      if scanFlag {
        if Past(next, stop, up) { scanFlag, chfreq := false, 0; }
      } else if hasCallback {
        calls := calls + [chfreq];
      }
    }

    /** One turn of the loop of QND_RXSeekCH (lines 767-841). */
    method Turn(f: Freq, stop: Freq, up: bool, step: nat, db: nat)
      returns (scanFlag: bool, next: Freq, chfreq: Freq, ghost u: Trial)
      requires Valid() && step < 3 && db < 256 && Muted(chip.regs)
      modifies chip, `calls, `trials
      ensures Valid() && trials == old(trials) + [u] && u.freq == f && next == NextFreq(f, up, StepValue(step))
      ensures scanFlag == (!Accepts(u) && !Past(next, stop, up)) && chfreq == if Accepts(u) || scanFlag then f else 0
      ensures calls == CallsAfter(old(calls), [u], hasCallback)
      ensures chip.heard == old(chip.heard) + u.answers
      ensures Fair(u, !old(Scans(chip.regs)), TermsOf(step, db))
      ensures (Scans(chip.regs) ==> u.polls == POLLS) && Silent(old(chip.regs), old(chip.loud), chip.regs, chip.loud)
    {
      scanFlag, u := Try(f, step, db);
      scanFlag, next, chfreq := Decide(scanFlag, f, stop, up, step);
    }

    /** A turn, and what it adds to the seek so far. */
    method TurnOn(f: Freq, stop: Freq, up: bool, step: nat, db: nat,
                  ghost c: Call, ghost p: seq<Trial>, ghost before: Freq, ghost was: seq<Freq>, ghost h: Heard)
      returns (scanFlag: bool, next: Freq, chfreq: Freq, ghost u: Trial)
      requires Valid() && step < 3 && db < 256 && Muted(chip.regs)
      requires SoFar(c, p, true, f, before) && calls == CallsAfter(was, p, hasCallback) && chip.heard == h + Told(p)
      requires c.stop == stop && c.Upward() == up && c.s == StepValue(step) && c.terms == TermsOf(step, db)
      requires Scans(chip.regs) ==> !Settled(p, |p|, c.still)
      modifies chip, `calls, `trials
      ensures Valid() && trials == old(trials) + [u] && chip.heard == h + Told(p + [u])
      ensures SoFar(c, p + [u], scanFlag, next, chfreq)
      ensures calls == CallsAfter(was, p + [u], hasCallback)
      ensures Scans(chip.regs) ==> !Settled(p + [u], |p + [u]|, c.still)
      ensures Silent(old(chip.regs), old(chip.loud), chip.regs, chip.loud)
    {
      scanFlag, next, chfreq, u := Turn(f, stop, up, step, db);
      CallsOn(was, c, p, f, before, u, hasCallback);
      OneMore(c, p, u, scanFlag, next, before, chfreq);
      ToldOfOne(h, p, u);
    }

    /** The loop of QND_RXSeekCH (lines 763-843). */
    method Seek(start: Freq, stop: Freq, step: nat, db: nat, ghost c: Call)
      returns (chfreq: Freq, ghost q: seq<Trial>)
      requires Valid() && step < 3 && db < 256 && Halts(start, stop, StepValue(step)) && Muted(chip.regs)
      requires c == Call(start, stop, StepValue(step), !Scans(chip.regs), TermsOf(step, db))
      modifies chip, `calls, `trials
      ensures Valid() && q != [] && trials == old(trials) + q
      ensures calls == CallsAfter(old(calls), q, hasCallback)
      ensures chip.heard == old(chip.heard) + Told(q)
      ensures Over(c, q, chfreq)
      ensures Scans(chip.regs) ==> !Settled(q, |q|, c.still)
      ensures Silent(old(chip.regs), old(chip.loud), chip.regs, chip.loud)
    {
      var up := start < stop;
      ghost var k := CallEnds(c);
      var f, scanFlag := start, true;
      chfreq, q := 0, [];
      while scanFlag
        invariant Valid() && trials == old(trials) + q
        invariant SoFar(c, q, scanFlag, f, chfreq)
        invariant calls == CallsAfter(old(calls), q, hasCallback)
        invariant chip.heard == old(chip.heard) + Told(q)
        invariant Scans(chip.regs) ==> !Settled(q, |q|, c.still)
        invariant Silent(old(chip.regs), old(chip.loud), chip.regs, chip.loud)
        decreases k + 1 - |q|, scanFlag
      {
        NotOver(c, q, f, chfreq, k);
        ghost var u: Trial;
        scanFlag, f, chfreq, u := TurnOn(f, stop, up, step, db, c, q, chfreq, old(calls), old(chip.heard));
        SumsOf(old(trials), q, [u]);
        q := q + [u];
      }
    }

    /** Lines 759-761, and 895-902: silence, the wide filter, and the noise floor. */
    method Prepare() returns (ghost x: Refresh)
      requires Valid()
      modifies chip, radio`rssin, radio`rssins, radio`clearChannel, radio`clearScan, radio`firstScan, radio`measured,
        radio`kept
      ensures Valid() && !radio.firstScan && Muted(chip.regs) && chip.loud == old(chip.loud)
      ensures Transmits(chip.regs) == (old(radio.firstScan) && old(Transmits(chip.regs)))
      ensures Scans(chip.regs) ==> old(Scans(chip.regs))
      ensures And(chip.regs[GAIN_SEL], FILTER_BITS) == FILTER_BITS
      ensures FloorUpdated(old(radio.NoiseFloor()), radio.NoiseFloor(), old(chip.heard), x, !old(Scans(chip.regs)))
      ensures x.done == chip.heard
    {
      assert IsSetting(GAIN_SEL);
      SetMute(chip, true);
      SetRegBit(chip, GAIN_SEL, FILTER_BITS, FILTER_BITS);
      ghost var m;
      x, m := radio.UpdateNoiseFloor(0);
    }

    /** Lines 758-843: all but the tuning at the end. */
    method SeekMuted(start: Freq, stop: Freq, step: nat, db: nat)
      returns (chfreq: Freq, ghost c: Call, ghost q: seq<Trial>, ghost x: Refresh)
      requires Valid() && step < 3 && db < 256 && Halts(start, stop, StepValue(step))
      requires autoScanAll ==> Muted(chip.regs)
      modifies chip, radio`rssin, radio`rssins, radio`clearChannel, radio`clearScan, radio`firstScan, radio`measured,
        radio`kept, `calls, `trials
      ensures Valid() && trials == old(trials) + q && Over(c, q, chfreq)
      ensures c == Call(start, stop, StepValue(step), c.still, TermsOf(step, db))
      ensures if autoScanAll then c.still == !old(Scans(chip.regs)) else !old(Scans(chip.regs)) ==> c.still
      ensures if autoScanAll then x.done == old(chip.heard) && unchanged(radio)
              else FloorUpdated(old(radio.NoiseFloor()), radio.NoiseFloor(), old(chip.heard), x, !old(Scans(chip.regs)))
      ensures chip.heard == x.done + Told(q)
      ensures calls == CallsAfter(old(calls), q, hasCallback)
      ensures chip.loud == old(chip.loud) && Muted(chip.regs) && (!autoScanAll ==> !radio.firstScan)
      ensures Transmits(chip.regs) == ((autoScanAll || old(radio.firstScan)) && old(Transmits(chip.regs)))
      ensures Scans(chip.regs) ==> !Settled(q, |q|, c.still)
    {
      x := Refresh(0, chip.heard, chip.heard);
      if !autoScanAll { x := Prepare(); }
      c := Call(start, stop, StepValue(step), !Scans(chip.regs), TermsOf(step, db));
      chfreq, q := Seek(start, stop, step, db, c);
    }

    /** Lines 845-850: a seek on its own ends on the station found, or on its stop. */
    method TuneAfter(f: Freq, ghost settled: bool)
      requires Muted(chip.regs) && (Scans(chip.regs) ==> !settled) && radio.chip == chip
      modifies chip
      ensures chip.heard == old(chip.heard) && chip.loud == old(chip.loud) && (Scans(chip.regs) ==> !settled)
      ensures if autoScanAll then chip.regs == old(chip.regs)
              else TunedIn(chip.regs, old(Transmits(chip.regs)), f, settled)
    {
      if !autoScanAll { radio.TuneTo(f); }
    }

    /** QND_RXSeekCH (lines 745-853).  c is the seek as it was called, q the trials it made, x the
        refresh of the noise floor before it. */
    method RxSeekCh(start: Freq, stop: Freq, step: nat, db: nat)
      returns (chfreq: Freq, ghost c: Call, ghost q: seq<Trial>, ghost x: Refresh)
      requires Valid() && step < 3 && db < 256 && Halts(start, stop, StepValue(step))
      requires autoScanAll ==> Muted(chip.regs)
      modifies chip, radio`rssin, radio`rssins, radio`clearChannel, radio`clearScan, radio`firstScan, radio`measured,
        radio`kept, `calls, `trials
      ensures Valid() && trials == old(trials) + q && Over(c, q, chfreq)
      ensures c == Call(start, stop, StepValue(step), c.still, TermsOf(step, db)) && StepsBy(q, start, stop, step)
      ensures if autoScanAll then c.still == !old(Scans(chip.regs)) else !old(Scans(chip.regs)) ==> c.still
      ensures if autoScanAll then x.done == old(chip.heard) && unchanged(radio)
              else FloorUpdated(old(radio.NoiseFloor()), radio.NoiseFloor(), old(chip.heard), x, !old(Scans(chip.regs)))
      ensures chip.heard == x.done + Told(q)
      ensures calls == CallsAfter(old(calls), q, hasCallback)
      ensures chip.loud == old(chip.loud)
      ensures if autoScanAll then Silent(old(chip.regs), old(chip.loud), chip.regs, chip.loud)
              else TunedIn(chip.regs, old(radio.firstScan) && old(Transmits(chip.regs)),
                           if chfreq == 0 then stop else chfreq, Settled(q, |q|, c.still))
      ensures Scans(chip.regs) ==> !Settled(q, |q|, c.still)
    {
      chfreq, c, q, x := SeekMuted(start, stop, step, db);
      CallSteps(c, q, chfreq, step);
      TuneAfter(if chfreq == 0 then stop else chfreq, Settled(q, |q|, c.still));
    }

    /** The list of stations, as far as it is filled. */
    function Stations(): seq<Freq>
      requires |chList| == MAX_CHANNELS && chCount <= MAX_CHANNELS
      reads this
    {
      chList[..chCount]
    }

    /** Lines 907-919: a station found is listed, and the next seek is one step on. */
    method Advance(temp: Freq, pStop: Freq, up: bool, step: nat, ghost r: Request) returns (going: bool, next: Freq)
      requires |chList| == MAX_CHANNELS && chCount < MAX_CHANNELS && step < 3
      requires r.last == pStop && r.Upward() == up && r.s == StepValue(step)
      modifies `chList, `chCount
      ensures |chList| == MAX_CHANNELS && chCount <= MAX_CHANNELS
      ensures Stations() == Listed(old(Stations()), temp) && next == NextStart(r, temp)
      ensures going == (GoesOn(r, next) && |Stations()| < MAX_CHANNELS)
    {
      if temp != 0 {
        chList, chCount := chList[chCount := temp], chCount + 1;
        next := temp;
      } else {
        next := pStop;
      }
      next := NextFreq(next, up, StepValue(step));
      going := (if up then next <= pStop else next >= pStop) && chCount < MAX_CHANNELS;
    }

    /** The sweep is that of this radio and this callback. */
    ghost predicate Serves(o: Order)
      reads this, radio, chip
    {
      o.r.Cut() && o.r.CanEnd() && o.hasCallback == hasCallback && o.terms.db < 256 &&
      o.terms == TermsOf(o.terms.step, o.terms.db) && autoScanAll && Muted(chip.regs)
    }

    /** The state of the sweep, and of the chip, after the trials q. */
    ghost predicate Sweeping(o: Order, rounds: seq<seq<Trial>>, q: seq<Trial>, going: bool, pStart: Freq)
      reads this, radio, chip
    {
      Valid() && Serves(o) && SweepSoFar(o, rounds, q, Stations(), calls, going, pStart) &&
      (Scans(chip.regs) ==> !Settled(q, |q|, o.still))
    }

    /** Line 906, after rounds of the trials p: the next seek, and what its result will do to the sweep. */
    method SeekOn(pStart: Freq, pStop: Freq, step: nat, db: nat, ghost o: Order, ghost rounds: seq<seq<Trial>>,
                  ghost p: seq<Trial>, ghost tried: seq<Trial>, ghost h: Heard)
      returns (temp: Freq, ghost after: seq<seq<Trial>>, ghost q: seq<Trial>)
      requires Sweeping(o, rounds, p, true, pStart) && step < 3
      requires trials == tried + p && chip.heard == h + Told(p)
      requires pStop == o.r.last && StepValue(step) == o.r.s && o.terms.step == step && o.terms.db == db
      modifies chip, radio`rssin, radio`rssins, radio`clearChannel, radio`clearScan, radio`firstScan, radio`measured,
        radio`kept, `calls, `trials
      ensures Valid() && unchanged(radio) && chCount < MAX_CHANNELS && Serves(o)
      ensures SeekDone(o, pStart, after, q, Stations(), calls, temp) && p <= q
      ensures trials == tried + q && chip.heard == h + Told(q)
      ensures Silent(old(chip.regs), old(chip.loud), chip.regs, chip.loud)
      ensures Scans(chip.regs) ==> !Settled(q, |q|, o.still)
    {
      NextHalts(o, rounds, p, Stations(), calls, pStart);
      ghost var c: Call, x: Refresh, more: seq<Trial>;
      temp, c, more, x := RxSeekCh(pStart, pStop, step, db);
      SweepOn(o, rounds, p, Stations(), old(calls), pStart, c, more, temp);
      Settles(p, more, o.still, c.still);
      HeardOn(h, p, more);
      SumsOf(tried, p, more);
      after, q := rounds + [more], p + more;
    }

    /** Lines 907-919 after the seek from pStart, with which the trials are q. */
    method AdvanceOn(temp: Freq, pStop: Freq, up: bool, step: nat, ghost o: Order, ghost pStart: Freq,
                     ghost rounds: seq<seq<Trial>>, ghost q: seq<Trial>)
      returns (going: bool, next: Freq)
      requires Valid() && Serves(o) && chCount < MAX_CHANNELS && step < 3
      requires o.r.last == pStop && o.r.Upward() == up && o.r.s == StepValue(step)
      requires SeekDone(o, pStart, rounds, q, Stations(), calls, temp)
      requires Scans(chip.regs) ==> !Settled(q, |q|, o.still)
      modifies `chList, `chCount
      ensures Sweeping(o, rounds, q, going, next) && (going ==> Ahead(o.r, next) < Ahead(o.r, pStart))
    {
      ghost var list := Stations();
      going, next := Advance(temp, pStop, up, step, o.r);
      Advanced(o, pStart, rounds, q, list, calls, temp, Stations(), going, next);
    }

    /** One turn of the loop of QND_RXSeekCHAll (lines 906-919), after the trials p. */
    method NextStation(pStart: Freq, pStop: Freq, up: bool, step: nat, db: nat, ghost o: Order,
                       ghost rounds: seq<seq<Trial>>, ghost p: seq<Trial>, ghost tried: seq<Trial>, ghost h: Heard)
      returns (going: bool, next: Freq, ghost after: seq<seq<Trial>>, ghost q: seq<Trial>)
      requires Sweeping(o, rounds, p, true, pStart) && step < 3
      requires trials == tried + p && chip.heard == h + Told(p)
      requires pStop == o.r.last && up == o.r.Upward() && StepValue(step) == o.r.s
      requires o.terms.step == step && o.terms.db == db
      modifies chip, radio`rssin, radio`rssins, radio`clearChannel, radio`clearScan, radio`firstScan, radio`measured,
        radio`kept, `calls, `trials, `chList, `chCount
      ensures unchanged(radio) && Sweeping(o, after, q, going, next) && p <= q
      ensures trials == tried + q && chip.heard == h + Told(q)
      ensures going ==> Ahead(o.r, next) < Ahead(o.r, pStart)
      ensures Silent(old(chip.regs), old(chip.loud), chip.regs, chip.loud)
    {
      var temp: Freq;
      temp, after, q := SeekOn(pStart, pStop, step, db, o, rounds, p, tried, h);
      going, next := AdvanceOn(temp, pStop, up, step, o, pStart, after, q);
    }

    /** The loop of QND_RXSeekCHAll (lines 903-919). */
    method Sweep(start: Freq, pStop: Freq, up: bool, step: nat, db: nat, ghost o: Order)
      returns (ghost rounds: seq<seq<Trial>>, ghost q: seq<Trial>, ghost end: Freq)
      requires Valid() && Serves(o) && step < 3 && o.was == calls && o.still == !Scans(chip.regs)
      requires start == o.r.start && pStop == o.r.last && up == o.r.Upward() && StepValue(step) == o.r.s
      requires o.terms.step == step && o.terms.db == db
      modifies chip, radio`rssin, radio`rssins, radio`clearChannel, radio`clearScan, radio`firstScan, radio`measured,
        radio`kept, `calls, `trials, `chList, `chCount
      ensures unchanged(radio) && Sweeping(o, rounds, q, false, end)
      ensures trials == old(trials) + q && chip.heard == old(chip.heard) + Told(q)
      ensures Silent(old(chip.regs), old(chip.loud), chip.regs, chip.loud)
    {
      chCount, rounds, q := 0, [], [];
      var pStart, going := start, true;
      while going
        invariant unchanged(radio) && Sweeping(o, rounds, q, going, pStart)
        invariant trials == old(trials) + q && chip.heard == old(chip.heard) + Told(q)
        invariant Silent(old(chip.regs), old(chip.loud), chip.regs, chip.loud)
        decreases if going then 1 + Ahead(o.r, pStart) else 0
      {
        going, pStart, rounds, q :=
          NextStation(pStart, pStop, up, step, db, o, rounds, q, old(trials), old(chip.heard));
      }
      end := pStart;
    }

    /** Lines 921 and 923. */
    method TuneToFirst(pStop: Freq)
      requires Valid() && Muted(chip.regs)
      modifies chip
      ensures chip.loud == old(chip.loud) && Unmuted(chip.regs) && Transmits(chip.regs) == old(Transmits(chip.regs))
      ensures chip.heard == old(chip.heard)
      ensures !old(Scans(chip.regs)) ==>
              Channel(chip.regs) == ChannelReg(if chCount >= 1 then chList[0] else pStop) % 1024
    {
      radio.TuneTo(if chCount >= 1 then chList[0] else pStop);
      SetMute(chip, false);
    }

    /** Lines 903-923: the sweep, and the tuning at its end. */
    method SweepAndTune(start: Freq, pStop: Freq, up: bool, step: nat, db: nat, ghost r: Request)
      returns (ghost q: seq<Trial>)
      requires Valid() && autoScanAll && Muted(chip.regs) && step < 3 && db < 256 && r.Cut() && r.CanEnd()
      requires start == r.start && pStop == r.last && up == r.Upward() && StepValue(step) == r.s
      modifies chip, radio`rssin, radio`rssins, radio`clearChannel, radio`clearScan, radio`firstScan, radio`measured,
        radio`kept, `calls, `trials, `chList, `chCount
      ensures Valid() && unchanged(radio)
      ensures trials == old(trials) + q && Whole(r, q, Stations()) && Outcome(q, Stations(), r)
      ensures calls == old(calls) + Reports(q, hasCallback) && chip.heard == old(chip.heard) + Told(q)
      ensures FairSeek(q, !old(Scans(chip.regs)), TermsOf(step, db))
      ensures chip.loud == old(chip.loud) && Unmuted(chip.regs)
      ensures Transmits(chip.regs) == old(Transmits(chip.regs))
      ensures Settled(q, |q|, !old(Scans(chip.regs))) ==>
                Channel(chip.regs) == ChannelReg(if chCount >= 1 then chList[0] else r.last) % 1024
    {
      ghost var o := Order(r, !Scans(chip.regs), TermsOf(step, db), hasCallback, calls);
      ghost var rounds, end: Freq;
      rounds, q, end := Sweep(start, pStop, up, step, db, o);
      RoundsAreWhole(r, rounds);
      TuneToFirst(pStop);
    }

    /** QND_RXSeekCHAll (lines 887-925), called where it can end.  x is the refresh of the noise floor,
        q the trials; still: no scan was under way after the refresh. */
    method RxSeekAll(start: Freq, stop: Freq, step: nat, db: nat)
      returns (n: nat, ghost r: Request, ghost q: seq<Trial>, ghost x: Refresh, ghost still: bool)
      requires Valid() && step < 3 && db < 256
      requires start < stop || StepValue(step) <= (if stop > radio.chStop then radio.chStop else stop)
      modifies chip, radio`rssin, radio`rssins, radio`clearChannel, radio`clearScan, radio`firstScan, radio`measured,
        radio`kept, `calls, `trials, `chList, `chCount, `autoScanAll
      ensures Valid() && !autoScanAll && n == chCount
      ensures r == Request(start, stop, if stop > radio.chStop then radio.chStop else stop, [5, 10, 20][step])
      ensures TriesBy(q, start, stop, r.last, step)
      ensures trials == old(trials) + q && Whole(r, q, Stations()) && Outcome(q, Stations(), r)
      ensures calls == old(calls) + Reports(q, hasCallback)
      ensures FloorUpdated(old(radio.NoiseFloor()), radio.NoiseFloor(), old(chip.heard), x, !old(Scans(chip.regs)))
      ensures chip.heard == x.done + Told(q)
      ensures FairSeek(q, still, TermsOf(step, db)) && (!old(Scans(chip.regs)) ==> still)
      ensures chip.loud == old(chip.loud) && Unmuted(chip.regs)
      ensures Transmits(chip.regs) == (old(radio.firstScan) && old(Transmits(chip.regs)))
      ensures Settled(q, |q|, still) ==> Channel(chip.regs) == ChannelReg(if n >= 1 then chList[0] else r.last) % 1024
    {
      var pStop := if stop > radio.chStop then radio.chStop else stop;
      var up := start < stop;
      autoScanAll := true;
      x := Prepare();
      r := Request(start, stop, pStop, StepValue(step));
      still := !Scans(chip.regs);
      q := SweepAndTune(start, pStop, up, step, db, r);
      StepSizes(step);
      TriesOfSweep(r, q, Stations(), step);
      autoScanAll := false;
      n := chCount;
    }
  }
}
