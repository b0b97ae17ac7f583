/** The QN8006 as qndriver.c sees it: 256 registers behind read and write calls, some of which
    the chip changes by itself. */
module TunerChip {
  import opened Bytes

  // registers and bits of qndriver.h
  const SYSTEM1 := 0x00
  const SYSTEM2 := 0x01
  const CH := 0x08
  const CH_START := 0x09
  const CH_STOP := 0x0A
  const CH_STEP := 0x0B
  const TXAGC_GAIN := 0x0D
  const CCA := 0x19
  const STATUS1 := 0x1A
  const RSSISIG := 0x1C
  const GAIN_SEL := 0x1F
  const SNR := 0x22
  const CCA4 := 0x36
  const CCA5 := 0x37
  const REG_PD2 := 0x52

  type Regs = r: seq<Byte> | |r| == 256 witness seq(256, _ => ZERO)

  /** TXREQ and CHSC of SYSTEM1: transmitting, and scanning channels. */
  predicate Transmits(r: Regs) { r[SYSTEM1].b6 }
  predicate Scans(r: Regs) { r[SYSTEM1].b5 }

  /** Both mute bits of REG_PD2, mask 0x0c. */
  predicate Muted(r: Regs) { r[REG_PD2].b3 && r[REG_PD2].b2 }
  predicate Unmuted(r: Regs) { !r[REG_PD2].b3 && !r[REG_PD2].b2 }

  function Two(high: bool, low: bool): (n: nat)
    ensures n < 4
  {
    Weight(high, 2) + Weight(low, 1)
  }

  /** The ten-bit channel and the scan fields, which share CH_STEP for their top bits. */
  function Channel(r: Regs): (n: nat)
    ensures n < 1024
  {
    256 * Two(r[CH_STEP].b1, r[CH_STEP].b0) + ToNat(r[CH])
  }

  function ScanStart(r: Regs): nat { 256 * Two(r[CH_STEP].b3, r[CH_STEP].b2) + ToNat(r[CH_START]) }
  function ScanStop(r: Regs): nat { 256 * Two(r[CH_STEP].b5, r[CH_STEP].b4) + ToNat(r[CH_STOP]) }
  function ScanStep(r: Regs): nat { Two(r[CH_STEP].b7, r[CH_STEP].b6) }

  /** Registers that only the driver changes. */
  predicate IsSetting(a: nat) {
    a == SYSTEM2 || a == TXAGC_GAIN || a == CCA || a == GAIN_SEL || a == 40 || 64 <= a <= 66 || a == 73 || a == 77
  }

  predicate SettingsKept(r: Regs, s: Regs) {
    forall a: nat {:trigger IsSetting(a)} :: a < 256 && IsSetting(a) ==> s[a] == r[a]
  }

  /** Of the settings only addr changed, if it is one of them, to v. */
  predicate SettingsSet(r: Regs, s: Regs, addr: nat, v: Byte) {
    forall a: nat {:trigger IsSetting(a)} :: a < 256 && IsSetting(a) ==> s[a] == if a == addr then v else r[a]
  }

  /** What may have happened in the chip between r and s: a scan moves the channel and may come
      to its end.  The mute register, the scan range and the settings stay; any other register,
      the reports among them, may hold anything. */
  predicate Elapsed(r: Regs, s: Regs) {
    s[SYSTEM1] == r[SYSTEM1].(b5 := Scans(s)) && (Scans(s) ==> Scans(r)) &&
    s[CH_STEP] == r[CH_STEP].(b1 := s[CH_STEP].b1, b0 := s[CH_STEP].b0) &&
    (!Scans(r) ==> s[CH] == r[CH] && s[CH_STEP] == r[CH_STEP]) &&
    s[CH_START] == r[CH_START] && s[CH_STOP] == r[CH_STOP] && s[REG_PD2] == r[REG_PD2] &&
    SettingsKept(r, s)
  }

  lemma SettingsKeptBeside(r: Regs, s: Regs, addr: nat, v: Byte)
    requires SettingsKept(r, s) && addr < 256 && !IsSetting(addr)
    ensures SettingsKept(r, s[addr := v])
  {}

  lemma ChscEnds(a: Byte, b: Byte)
    requires b == a.(b5 := b.b5)
    ensures b.(b5 := false) == a.(b5 := false)
  {}

  /** A scan may also have come to its end. */
  lemma ScanEnds(r: Regs, s: Regs)
    requires Elapsed(r, s)
    ensures Elapsed(r, s[SYSTEM1 := s[SYSTEM1].(b5 := false)])
  {
    var v := s[SYSTEM1].(b5 := false);
    SettingsKeptBeside(r, s, SYSTEM1, v);
    ChscEnds(r[SYSTEM1], s[SYSTEM1]);
    var t := s[SYSTEM1 := v];
    assert t[SYSTEM1] == v && t[CH_STEP] == s[CH_STEP] && t[CH] == s[CH];
  }

  predicate IsReport(addr: nat) {
    addr in {RSSISIG, STATUS1, SNR, CCA4, CCA5}
  }

  /** What the chip was last told to scan. */
  datatype Range = Range(start: nat, stop: nat, step: nat, threshold: Byte)

  function RangeOf(r: Regs): Range {
    Range(ScanStart(r), ScanStop(r), ScanStep(r), r[CCA])
  }

  /** In place of a register: the driver had the chip begin a scan. */
  const REQUEST := 0x100

  /** What the driver read from a report register, as a number too, with the channel the chip was on
      and what it was told to scan. */
  datatype Report = Report(addr: nat, value: Byte, number: nat, channel: nat, range: Range)

  /** All that has passed between the driver and the scans it begins: every report, every request for such a
      scan, and every poll for the end of one. */
  type Heard = seq<Report>

  function ReportOf(r: Regs, addr: nat): Report
    requires addr < 256
  {
    Report(addr, r[addr], ToNat(r[addr]), Channel(r), RangeOf(r))
  }

  /** The number of a report is that of its value. */
  predicate Genuine(p: Report) {
    p.number == ToNat(p.value)
  }

  predicate AllGenuine(a: seq<Report>) {
    forall k :: 0 <= k < |a| ==> Genuine(a[k])
  }

  /** A scan requested by what is now in SYSTEM1. */
  function Requested(r: Regs): Report {
    ReportOf(r, SYSTEM1).(addr := REQUEST)
  }

  class Chip {
    var regs: Regs
    var busy: nat        // how long the scan under way still takes, in register accesses
    ghost var loud: nat  // writes to the channel registers so far that could be heard
    ghost var heard: Heard

    constructor ()
      ensures loud == 0
    {
      regs := seq(256, _ => ZERO);
      busy, loud := *, 0;
      heard := [];
    }

    /** The chip goes on by itself for one register access. */
    method Tick()
      modifies `regs, `busy
      ensures Elapsed(old(regs), regs)
      ensures busy <= old(busy) && (Scans(regs) ==> busy < old(busy))
    {
      var next: Regs := *;
      if Elapsed(regs, next) { regs := next; }
      if Scans(regs) {
        ScanEnds(old(regs), regs);
        if busy == 0 { regs := regs[SYSTEM1 := regs[SYSTEM1].(b5 := false)]; }
        else { busy := busy - 1; }
      }
    }

    /** qn8006_gpio_i2c_ReadReg; poll: the driver waits for the end of a scan. */
    method ReadReg(addr: nat, ghost poll: bool := false) returns (v: Byte)
      requires addr < 256
      modifies `regs, `busy, `heard
      ensures Elapsed(old(regs), regs) && v == regs[addr]
      ensures heard == if IsReport(addr) || poll then old(heard) + [ReportOf(regs, addr)] else old(heard)
      ensures busy <= old(busy) && (Scans(regs) ==> busy < old(busy))
    {
      Tick();
      v := regs[addr];
      if IsReport(addr) || poll { heard := heard + [ReportOf(regs, addr)]; }
    }

    /** qn8006_gpio_i2c_WriteReg; setting CHSC starts a scan that takes as long as it takes.
        request: that is what the driver is after. */
    method WriteReg(addr: nat, v: Byte, ghost request: bool := false)
      requires addr < 256 && (request ==> addr == SYSTEM1 && v.b5)
      modifies `regs, `busy, `loud, `heard
      ensures heard == if request then old(heard) + [Requested(regs)] else old(heard)
      ensures exists mid: Regs :: Elapsed(old(regs), mid) && regs == mid[addr := v]
      ensures loud == old(loud) + (if (addr == CH || addr == CH_STEP) && !old(Muted(regs)) then 1 else 0)
    {
      Tick();
      ghost var mid := regs;
      if (addr == CH || addr == CH_STEP) && !Muted(regs) { loud := loud + 1; }
      regs := regs[addr := v];
      if addr == SYSTEM1 && v.b5 { busy := *; }
      if request { heard := heard + [Requested(regs)]; }
    }
  }
}
