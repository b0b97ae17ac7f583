/** The register fields of qndriver.c: single bits, the mute bits, the channel and the scan
    range. */
module TunerFields {
  import opened Bytes
  import opened SeekWalk
  import opened TunerChip

  /** FREQ2CHREG (qndriver.h:21): C's division, which rounds towards zero, in 16 bits. */
  function ChannelReg(freq: Freq): (f: Freq) {
    if freq >= 7600 then (freq - 7600) / 5 else (RANGE - (7600 - freq) / 5) % RANGE
  }

  /** CHREG2FREQ (qndriver.h:22) */
  function FreqOf(ch: nat): nat {
    ch * 5 + 7600
  }

  /** SYSTEM1 may only have lost CHSC. */
  predicate SystemKept(a: Byte, b: Byte) {
    b == a.(b5 := b.b5) && (b.b5 ==> a.b5)
  }

  /** SYSTEM1 with some bits set; if CHSC is not among them it may be lost. */
  predicate SystemSet(a: Byte, b: Byte, mask: Byte, val: Byte) {
    b == Masked(a, mask, val).(b5 := b.b5) && if mask.b5 then b.b5 == val.b5 else b.b5 ==> a.b5
  }

  /** The channel and scan fields stay unless a scan moves the channel. */
  predicate FieldsKept(r: Regs, s: Regs) {
    (!Scans(r) ==> s[CH] == r[CH] && s[CH_STEP] == r[CH_STEP]) &&
    s[CH_START] == r[CH_START] && s[CH_STOP] == r[CH_STOP] &&
    s[CH_STEP] == r[CH_STEP].(b1 := s[CH_STEP].b1, b0 := s[CH_STEP].b0)
  }

  lemma ElapsedKeeps(r: Regs, s: Regs)
    requires Elapsed(r, s)
    ensures SystemKept(r[SYSTEM1], s[SYSTEM1]) && FieldsKept(r, s) && s[REG_PD2] == r[REG_PD2] && SettingsKept(r, s)
  {}

  /** A register written between two accesses. */
  lemma WriteKeeps(r: Regs, s: Regs, addr: nat, v: Byte)
    requires addr < 256 && exists mid: Regs :: Elapsed(r, mid) && s == mid[addr := v]
    ensures s[addr] == v
    ensures addr != SYSTEM1 ==> SystemKept(r[SYSTEM1], s[SYSTEM1])
    ensures addr !in {CH, CH_START, CH_STOP, CH_STEP} ==> FieldsKept(r, s)
    ensures addr != REG_PD2 ==> s[REG_PD2] == r[REG_PD2]
    ensures addr != CH && !Scans(r) ==> s[CH] == r[CH]
    ensures addr != CH_START ==> s[CH_START] == r[CH_START]
    ensures addr != CH_STOP ==> s[CH_STOP] == r[CH_STOP]
    ensures addr != CH_STEP ==> s[CH_STEP] == r[CH_STEP].(b1 := s[CH_STEP].b1, b0 := s[CH_STEP].b0)
    ensures addr != CH_STEP && !Scans(r) ==> s[CH_STEP] == r[CH_STEP]
    ensures SettingsSet(r, s, addr, v)
  {
    var mid: Regs :| Elapsed(r, mid) && s == mid[addr := v];
    ElapsedKeeps(r, mid);
  }

  lemma MaskedSystem(a: Byte, m: Byte, mask: Byte, val: Byte)
    requires SystemKept(a, m)
    ensures SystemSet(a, Masked(m, mask, val), mask, val)
  {}

  lemma FieldsKeptOn(r: Regs, mid: Regs, s: Regs)
    requires FieldsKept(r, mid) && (Scans(mid) ==> Scans(r)) && FieldsKept(mid, s)
    ensures FieldsKept(r, s)
  {}

  /** What the chip was last told to scan stays. */
  lemma RangeStays(r: Regs, s: Regs)
    requires FieldsKept(r, s) && s[CCA] == r[CCA]
    ensures RangeOf(s) == RangeOf(r)
  {}

  lemma SystemKeptOn(a: Byte, b: Byte, c: Byte)
    requires SystemKept(a, b) && SystemKept(b, c)
    ensures SystemKept(a, c)
  {}

  lemma SettingsSetOn(r: Regs, mid: Regs, s: Regs, addr: nat, v: Byte)
    requires SettingsKept(r, mid) && SettingsSet(mid, s, addr, v)
    ensures SettingsSet(r, s, addr, v)
  {}

  /** The value of SYSTEM1 once some bits of a register are set. */
  lemma SystemAfter(a: Byte, m: Byte, b: Byte, system: bool, mask: Byte, val: Byte)
    requires SystemKept(a, m) && if system then b == Masked(m, mask, val) else SystemKept(m, b)
    ensures if system then SystemSet(a, b, mask, val) else SystemKept(a, b)
  {
    if system { MaskedSystem(a, m, mask, val); } else { SystemKeptOn(a, m, b); }
  }

  lemma SettingBitsSet(r: Regs, mid: Regs, s: Regs, reg: nat, mask: Byte, val: Byte)
    requires reg < 256 && SettingsKept(r, mid) && SettingsSet(mid, s, reg, Masked(mid[reg], mask, val))
    ensures SettingsSet(r, s, reg, Masked(r[reg], mask, val))
  {
    SettingsSetOn(r, mid, s, reg, Masked(mid[reg], mask, val));
    assert IsSetting(reg) ==> mid[reg] == r[reg];
  }

  /** Read from registers r, which are then mid, and written with some bits set. */
  lemma BitsSet(r: Regs, mid: Regs, s: Regs, reg: nat, mask: Byte, val: Byte)
    requires reg < 256 && Elapsed(r, mid) && FieldsKept(mid, s) && s[reg] == Masked(mid[reg], mask, val)
    requires reg != SYSTEM1 ==> SystemKept(mid[SYSTEM1], s[SYSTEM1])
    requires reg != REG_PD2 ==> s[REG_PD2] == mid[REG_PD2]
    requires SettingsSet(mid, s, reg, Masked(mid[reg], mask, val))
    ensures FieldsKept(r, s)
    ensures if reg == SYSTEM1 then SystemSet(r[SYSTEM1], s[SYSTEM1], mask, val) else SystemKept(r[SYSTEM1], s[SYSTEM1])
    ensures s[REG_PD2] == if reg == REG_PD2 then Masked(r[REG_PD2], mask, val) else r[REG_PD2]
    ensures SettingsSet(r, s, reg, Masked(r[reg], mask, val))
  {
    ElapsedKeeps(r, mid);
    FieldsKeptOn(r, mid, s);
    SystemAfter(r[SYSTEM1], mid[SYSTEM1], s[SYSTEM1], reg == SYSTEM1, mask, val);
    SettingBitsSet(r, mid, s, reg, mask, val);
  }

  /** QNF_SetRegBit (lines 90-98); request: to begin a scan. */
  method SetRegBit(chip: Chip, reg: nat, mask: Byte, val: Byte, ghost request: bool := false)
    requires reg < 256 && reg !in {CH, CH_START, CH_STOP, CH_STEP} && !IsReport(reg)
    requires request ==> reg == SYSTEM1 && mask.b5 && val.b5
    modifies chip
    ensures chip.heard == if request then old(chip.heard) + [Requested(chip.regs)] else old(chip.heard)
    ensures chip.loud == old(chip.loud) && FieldsKept(old(chip.regs), chip.regs)
    ensures if reg == SYSTEM1 then SystemSet(old(chip.regs[SYSTEM1]), chip.regs[SYSTEM1], mask, val)
            else SystemKept(old(chip.regs[SYSTEM1]), chip.regs[SYSTEM1])
    ensures chip.regs[REG_PD2] == if reg == REG_PD2 then Masked(old(chip.regs[REG_PD2]), mask, val)
                                  else old(chip.regs[REG_PD2])
    ensures SettingsSet(old(chip.regs), chip.regs, reg, Masked(old(chip.regs[reg]), mask, val))
  {
    ghost var r := chip.regs;
    var temp := chip.ReadReg(reg);
    ghost var mid := chip.regs;
    temp := Masked(temp, mask, val);
    chip.WriteReg(reg, temp, request);
    WriteKeeps(mid, chip.regs, reg, temp);
    BitsSet(r, mid, chip.regs, reg, mask, val);
  }

  const MUTE_BITS := Byte(false, false, false, false, true, true, false, false)   // 0x0c

  /** QNF_SetMute (lines 62-76). */
  method SetMute(chip: Chip, on: bool)
    modifies chip
    ensures chip.heard == old(chip.heard)
    ensures chip.loud == old(chip.loud) && FieldsKept(old(chip.regs), chip.regs)
    ensures SystemKept(old(chip.regs[SYSTEM1]), chip.regs[SYSTEM1])
    ensures (if on then Muted(chip.regs) else Unmuted(chip.regs)) && SettingsKept(old(chip.regs), chip.regs)
    ensures chip.regs[REG_PD2] == Masked(old(chip.regs[REG_PD2]), MUTE_BITS, if on then MUTE_BITS else ZERO)
  {
    SetRegBit(chip, REG_PD2, MUTE_BITS, if on then MUTE_BITS else ZERO);
  }

  const CHANNEL_BITS := Byte(false, false, false, false, false, false, true, true)   // CH_CH, 0x03

  /** Two neighbouring bits of a byte, as a number. */
  lemma BitPairs(h: nat, l: nat)
    requires h < 16 && l < 16
    ensures var b := OfNat(16 * h + l);
            Two(b.b1, b.b0) == l % 4 && Two(b.b3, b.b2) == l / 4 && Two(b.b5, b.b4) == h % 4 && Two(b.b7, b.b6) == h / 4
  {
    assert (16 * h + l) / 16 == h && (16 * h + l) % 16 == l;
    NibblePairs(h);
    NibblePairs(l);
  }

  lemma NibblePairs(h: nat)
    requires h < 16
    ensures Two(h % 4 >= 2, h % 2 == 1) == h % 4 && Two(h >= 8, h % 8 >= 4) == h / 4
  {}

  /** The two top bits of a channel number as the driver moves them into CH_STEP. */
  function Top(f: nat): (t: nat)
    ensures t < 4
  {
    f / 256 % 4
  }

  lemma TopAndLow(f: Freq)
    ensures 256 * Top(f) + f % 256 == f % 1024
  {}

  lemma LowHex(n: nat)
    ensures n % 16 % 4 == n % 4 && n % 16 / 4 == n / 4 % 4
  {}

  lemma TwoHex(n: nat)
    ensures n % 256 == 16 * (n / 16 % 16) + n % 16
  {}

  lemma PairsOf(n: nat)
    ensures var b := OfNat(n % 256);
            Two(b.b1, b.b0) == n % 4 && Two(b.b3, b.b2) == n / 4 % 4 && Two(b.b5, b.b4) == n / 16 % 4
  {
    PairsOfHex(n, n / 16 % 16, n % 16);
  }

  lemma PairsOfHex(n: nat, h: nat, l: nat)
    requires h == n / 16 % 16 && l == n % 16
    ensures var b := OfNat(n % 256);
            Two(b.b1, b.b0) == n % 4 && Two(b.b3, b.b2) == n / 4 % 4 && Two(b.b5, b.b4) == n / 16 % 4
  {
    TwoHex(n);
    LowHex(n);
    LowHex(n / 16);
    BitPairs(h, l);
  }

  lemma TopMoved(f: nat)
    ensures f / 64 / 4 % 4 == Top(f) && f / 16 / 16 % 4 == Top(f)
  {}

  /** The byte QNF_SetCh makes of CH_STEP: the channel's two top bits, the rest as it was. */
  lemma StepByteOfChannel(t: Byte, f: Freq, c: Byte)
    requires c == Masked(t, CHANNEL_BITS, OfNat(f / 256 % 256))
    ensures 256 * Two(c.b1, c.b0) + f % 256 == f % 1024 && c == t.(b1 := c.b1, b0 := c.b0)
  {
    TopAndLow(f);
    PairsOf(f / 256);
  }

  lemma MaskedTop(t: Byte, u: Byte, top: Byte)
    requires u == t.(b1 := u.b1, b0 := u.b0)
    ensures Masked(u, CHANNEL_BITS, top) == Masked(t, CHANNEL_BITS, top)
  {}

  /** Lines 214-217: the channel's two top bits. */
  method SetChannelTop(chip: Chip, top: Byte)
    modifies chip
    ensures chip.heard == old(chip.heard)
    ensures chip.loud == old(chip.loud) + if old(Muted(chip.regs)) then 0 else 1
    ensures SystemKept(old(chip.regs[SYSTEM1]), chip.regs[SYSTEM1]) && chip.regs[REG_PD2] == old(chip.regs[REG_PD2])
    ensures !old(Scans(chip.regs)) ==> chip.regs[CH] == old(chip.regs[CH])
    ensures chip.regs[CH_START] == old(chip.regs[CH_START]) && chip.regs[CH_STOP] == old(chip.regs[CH_STOP])
    ensures chip.regs[CH_STEP] == Masked(old(chip.regs[CH_STEP]), CHANNEL_BITS, top)
    ensures SettingsKept(old(chip.regs), chip.regs)
  {
    ghost var r1 := chip.regs;
    var tStep := chip.ReadReg(CH_STEP);
    ghost var r2 := chip.regs;
    ElapsedKeeps(r1, r2);
    MaskedTop(r1[CH_STEP], tStep, top);
    tStep := Masked(tStep, CHANNEL_BITS, top);
    chip.WriteReg(CH_STEP, tStep);
    WriteKeeps(r2, chip.regs, CH_STEP, tStep);
  }

  /** QNF_SetCh (lines 203-220). */
  method SetCh(chip: Chip, freq: Freq) returns (ok: bool)
    modifies chip
    ensures chip.heard == old(chip.heard)
    ensures ok && chip.loud == old(chip.loud) + if old(Muted(chip.regs)) then 0 else 2
    ensures SystemKept(old(chip.regs[SYSTEM1]), chip.regs[SYSTEM1]) && chip.regs[REG_PD2] == old(chip.regs[REG_PD2])
    ensures !old(Scans(chip.regs)) ==> Channel(chip.regs) == ChannelReg(freq) % 1024
    ensures ScanStart(chip.regs) == old(ScanStart(chip.regs)) && ScanStop(chip.regs) == old(ScanStop(chip.regs))
    ensures ScanStep(chip.regs) == old(ScanStep(chip.regs)) && SettingsKept(old(chip.regs), chip.regs)
  {
    ghost var r0 := chip.regs;
    var f := ChannelReg(freq);
    chip.WriteReg(CH, OfNat(f % 256));
    ghost var r1 := chip.regs;
    WriteKeeps(r0, r1, CH, OfNat(f % 256));
    SetChannelTop(chip, OfNat(f / 256 % 256));
    NatRoundTrip(f % 256);
    StepByteOfChannel(r1[CH_STEP], f, chip.regs[CH_STEP]);
    ok := true;
  }

  /** QNF_GetCh (lines 179-191). */
  method GetCh(chip: Chip) returns (freq: nat)
    modifies chip`regs, chip`busy, chip`heard
    ensures chip.heard == old(chip.heard)
    ensures FieldsKept(old(chip.regs), chip.regs) && chip.regs[REG_PD2] == old(chip.regs[REG_PD2])
    ensures SystemKept(old(chip.regs[SYSTEM1]), chip.regs[SYSTEM1])
    ensures !old(Scans(chip.regs)) ==> freq == FreqOf(Channel(chip.regs))
    ensures 7600 <= freq <= 12715 && SettingsKept(old(chip.regs), chip.regs)
  {
    ghost var r0 := chip.regs;
    var tStep := chip.ReadReg(CH_STEP);
    ElapsedKeeps(r0, chip.regs);
    ghost var r1 := chip.regs;
    var tCh := chip.ReadReg(CH);
    ElapsedKeeps(r1, chip.regs);
    freq := FreqOf(256 * Two(tStep.b1, tStep.b0) + ToNat(tCh));
  }

  const START_BITS := Byte(false, false, false, false, true, true, false, false)   // CH_CH_START, 0x0c
  const STOP_BITS := Byte(false, false, true, true, false, false, false, false)    // CH_CH_STOP, 0x30
  const STEP_BITS := Byte(true, true, false, false, false, false, false, false)    // FSTEP, 0xc0

  /** The byte QNF_ConfigScan puts together for CH_STEP. */
  function ScanByte(fStart: Freq, fStop: Freq, step: nat): Byte {
    Masked(Masked(Masked(ZERO, START_BITS, OfNat(fStart / 64 % 256)), STOP_BITS, OfNat(fStop / 16 % 256)),
           STEP_BITS, OfNat(step * 64 % 256))
  }

  /** Which bits of it come from where. */
  lemma ScanByteBits(fStart: Freq, fStop: Freq, step: nat)
    ensures var t := ScanByte(fStart, fStop, step);
            var a, b, c := OfNat(fStart / 64 % 256), OfNat(fStop / 16 % 256), OfNat(step * 64 % 256);
            t == Byte(c.b7, c.b6, b.b5, b.b4, a.b3, a.b2, false, false)
  {}

  lemma StartDecodes(f: Freq)
    ensures var b := OfNat(f / 64 % 256);
            256 * Two(b.b3, b.b2) + f % 256 == f % 1024
  {
    PairsOf(f / 64);
    TopMoved(f);
    TopAndLow(f);
  }

  lemma StopDecodes(f: Freq)
    ensures var b := OfNat(f / 16 % 256);
            256 * Two(b.b5, b.b4) + f % 256 == f % 1024
  {
    PairsOf(f / 16);
    TopMoved(f);
    TopAndLow(f);
  }

  lemma StepDecodes(step: nat)
    requires step < 4
    ensures var b := OfNat(step * 64 % 256);
            Two(b.b7, b.b6) == step
  {
    BitPairs(step * 4, 0);
    assert step * 64 % 256 == 16 * (step * 4) + 0;
  }

  lemma ScanByteDecodes(fStart: Freq, fStop: Freq, step: nat)
    requires step < 4
    ensures var t := ScanByte(fStart, fStop, step);
            256 * Two(t.b3, t.b2) + fStart % 256 == fStart % 1024 &&
            256 * Two(t.b5, t.b4) + fStop % 256 == fStop % 1024 && Two(t.b7, t.b6) == step && !t.b1 && !t.b0
  {
    ScanByteBits(fStart, fStop, step);
    StartDecodes(fStart);
    StopDecodes(fStop);
    StepDecodes(step);
  }

  lemma ScanWritten(s: Regs, fStart: Freq, fStop: Freq, step: nat)
    requires step < 4 && s[CH_STEP] == ScanByte(fStart, fStop, step)
    requires s[CH_START] == OfNat(fStart % 256) && s[CH_STOP] == OfNat(fStop % 256)
    ensures ScanStart(s) == fStart % 1024 && ScanStop(s) == fStop % 1024 && ScanStep(s) == step
    ensures Channel(s) == ToNat(s[CH])
  {
    ScanByteDecodes(fStart, fStop, step);
    NatRoundTrip(fStart % 256);
    NatRoundTrip(fStop % 256);
  }

  lemma LowByteOfChannel(r: Regs)
    ensures Channel(r) % 256 == ToNat(r[CH])
  {}

  /** Lines 252, 256 and 260. */
  method WriteScan(chip: Chip, start: Byte, stop: Byte, step: Byte)
    modifies chip
    ensures chip.heard == old(chip.heard)
    ensures chip.loud == old(chip.loud) + if old(Muted(chip.regs)) then 0 else 1
    ensures SystemKept(old(chip.regs[SYSTEM1]), chip.regs[SYSTEM1]) && chip.regs[REG_PD2] == old(chip.regs[REG_PD2])
    ensures chip.regs[CH_START] == start && chip.regs[CH_STOP] == stop && chip.regs[CH_STEP] == step
    ensures !old(Scans(chip.regs)) ==> chip.regs[CH] == old(chip.regs[CH])
    ensures SettingsKept(old(chip.regs), chip.regs)
  {
    ghost var r0 := chip.regs;
    chip.WriteReg(CH_START, start);
    ghost var r1 := chip.regs;
    WriteKeeps(r0, r1, CH_START, start);
    chip.WriteReg(CH_STOP, stop);
    ghost var r2 := chip.regs;
    WriteKeeps(r1, r2, CH_STOP, stop);
    chip.WriteReg(CH_STEP, step);
    WriteKeeps(r2, chip.regs, CH_STEP, step);
  }

  /** QNF_ConfigScan (lines 241-261): the channel keeps only its low eight bits. */
  method ConfigScan(chip: Chip, start: Freq, stop: Freq, step: nat)
    requires step < 4
    modifies chip
    ensures chip.heard == old(chip.heard)
    ensures chip.loud == old(chip.loud) + if old(Muted(chip.regs)) then 0 else 1
    ensures SystemKept(old(chip.regs[SYSTEM1]), chip.regs[SYSTEM1]) && chip.regs[REG_PD2] == old(chip.regs[REG_PD2])
    ensures ScanStart(chip.regs) == ChannelReg(start) % 1024 && ScanStop(chip.regs) == ChannelReg(stop) % 1024
    ensures ScanStep(chip.regs) == step && SettingsKept(old(chip.regs), chip.regs)
    ensures Channel(chip.regs) < 256
    ensures !old(Scans(chip.regs)) ==> Channel(chip.regs) == old(Channel(chip.regs)) % 256
  {
    var fStart, fStop := ChannelReg(start), ChannelReg(stop);
    LowByteOfChannel(chip.regs);
    WriteScan(chip, OfNat(fStart % 256), OfNat(fStop % 256), ScanByte(fStart, fStop, step));
    ScanWritten(chip.regs, fStart, fStop, step);
  }

  // ---------- round trips of the channel ----------

  /** Reading the channel back after it was set gives the frequency rounded down to the 50 kHz
      grid, exactly for the frequencies whose ten bits the chip can hold. */
  lemma ChannelRoundTrip(freq: Freq)
    ensures FreqOf(ChannelReg(freq) % 1024) == freq - freq % 5 <==> 7600 <= freq <= 12719
  {
    if freq >= 7600 {
      assert freq - 7600 == 5 * ((freq - 7600) / 5) + freq % 5;
    }
  }

  /** The two calls one after the other, on a chip that is not scanning. */
  method SetThenGet(chip: Chip, freq: Freq) returns (back: nat)
    requires !Scans(chip.regs)
    modifies chip
    ensures back == FreqOf(ChannelReg(freq) % 1024)
    ensures back == freq - freq % 5 <==> 7600 <= freq <= 12719
  {
    ChannelRoundTrip(freq);
    var _ := SetCh(chip, freq);
    back := GetCh(chip);
  }
}
