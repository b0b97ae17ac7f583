/** The register file behind the wires: qn8006_gpio_i2c_ReadReg and qn8006_gpio_i2c_WriteReg
    as get and set of an array of 256 registers. */
module I2cRegisters {
  import opened Bytes
  import opened I2cSlave
  import opened I2cBus
  import opened I2cTransfer

  /** QN8006_I2C_ADDR << 1 (lines 530-538). */
  const BUS_ADDRESS := Byte(false, true, false, true, false, true, true, false)

  lemma BusAddressIsTheDevice()
    ensures ToNat(BUS_ADDRESS) == 0x56 == 2 * DEVICE
    ensures Addressed(BUS_ADDRESS.(b0 := false)) && Addressed(BUS_ADDRESS.(b0 := true))
  {}

  ghost predicate Acknowledging(bus: Bus) {
    forall n :: bus.acks(n)
  }

  lemma AnsweredAtOnce(bus: Bus, address: Byte, s: Slave, f: nat, attempts: nat, succ: bool)
    requires Finished(bus, address, s, f, attempts, succ) && Addressed(address) && Acknowledging(bus)
    ensures succ && attempts == 1
  {
    assert Answered(bus.acks, address, s.slots);
  }

  lemma AsksForOne(bus: Bus, address: Byte, s: Slave, f: nat, attempts: nat, succ: bool, reg: Byte)
    requires |s.mem| == 256 && ReadOver(bus, address, s, f, attempts, succ, reg, 1)
    ensures Finished(bus, address, s, f, attempts, succ)
  {}

  lemma GetsOne(data: seq<Byte>, mem: seq<Byte>, reg: Byte)
    requires |data| == 1 && Delivered(data, mem, reg, true)
    ensures data[0] == mem[ToNat(reg)]
  {
    var i := ToNat(reg);
    assert data[0] == mem[(i + 0) % 256];
    StaysBelow(i);
  }

  lemma StaysBelow(i: nat)
    requires i < 256
    ensures (i + 0) % 256 == i
  {}

  /** qn8006_gpio_i2c_ReadReg (lines 546-551). */
  method ReadReg(bus: Bus, addr: Byte) returns (ret: Byte)
    requires bus.Valid() && bus.AtRest()
    modifies bus
    ensures bus.Valid() && bus.AtRest() && bus.slave.mem == old(bus.slave.mem)
    ensures Acknowledging(bus) ==>
              ret == bus.slave.mem[ToNat(addr)] && bus.framing == Closed(old(bus.framing).frames + 1)
  {
    var data := new Byte[1](_ => ZERO);
    ghost var s, f := bus.slave, bus.framing.frames;
    var succ; ghost var attempts;
    succ, attempts := ReadBytes(bus, BUS_ADDRESS, addr, data);
    ret := data[0];
    AsksForOne(bus, BUS_ADDRESS.(b0 := true), s, f, attempts, succ, addr);
    if Acknowledging(bus) {
      BusAddressIsTheDevice();
      AnsweredAtOnce(bus, BUS_ADDRESS.(b0 := true), s, f, attempts, succ);
      GetsOne(data[..], s.mem, addr);
    }
  }

  /** qn8006_gpio_i2c_WriteReg (lines 559-564): the result is always zero. */
  method WriteReg(bus: Bus, addr: Byte, value: Byte) returns (ret: Byte)
    requires bus.Valid() && bus.AtRest()
    modifies bus
    ensures bus.Valid() && bus.AtRest() && ret == ZERO
    ensures Acknowledging(bus) ==>
              bus.slave.mem == old(bus.slave.mem)[ToNat(addr) := value] &&
              bus.framing == Closed(old(bus.framing).frames + 1)
  {
    var data := new Byte[1](_ => value);
    ghost var s, f := bus.slave, bus.framing.frames;
    StoreOneByte(s.mem, ToNat(addr), value);
    assert data[..] == [value];
    var succ; ghost var attempts;
    succ, attempts := WriteBytes(bus, BUS_ADDRESS, addr, data);
    if Acknowledging(bus) {
      BusAddressIsTheDevice();
      AnsweredAtOnce(bus, BUS_ADDRESS.(b0 := false), s, f, attempts, succ);
    }
    ret := ZERO;
  }

  lemma StoreOneByte(mem: seq<Byte>, i: nat, v: Byte)
    requires |mem| == 256 && i < 256
    ensures StoreRun(mem, i, [v]) == mem[i := v]
  {
    assert StoreRun(mem, i, []) == mem;
    assert [v][..0] == [];
  }

  // ---------- any sequence of register operations ----------

  datatype Access = Get(addr: Byte) | Put(addr: Byte, value: Byte)

  /** A plain array of registers after some accesses. */
  function After(mem: seq<Byte>, run: seq<Access>): (m: seq<Byte>)
    requires |mem| == 256
    ensures |m| == 256
    decreases |run|
  {
    if run == [] then mem
    else
      var m := After(mem, run[..|run| - 1]);
      match run[|run| - 1]
      case Get(_) => m
      case Put(a, v) => m[ToNat(a) := v]
  }

  /** The value last written to a register, or the one it started with. */
  function LastWritten(mem: seq<Byte>, run: seq<Access>, addr: Byte): Byte
    requires |mem| == 256
    decreases |run|
  {
    if run == [] then mem[ToNat(addr)]
    else
      var last := run[|run| - 1];
      if last.Put? && last.addr == addr then last.value
      else LastWritten(mem, run[..|run| - 1], addr)
  }

  lemma {:induction false} ArrayHoldsLastWritten(mem: seq<Byte>, run: seq<Access>, addr: Byte)
    requires |mem| == 256
    ensures After(mem, run)[ToNat(addr)] == LastWritten(mem, run, addr)
    decreases |run|
  {
    if run != [] {
      ArrayHoldsLastWritten(mem, run[..|run| - 1], addr);
      SameNatSameByte(run[|run| - 1].addr, addr);
    }
  }

  /** Any sequence of register accesses over the wires: every read returns the value last
      written to that register. */
  method Perform(bus: Bus, run: seq<Access>) returns (results: seq<Byte>)
    requires bus.Valid() && bus.AtRest() && Acknowledging(bus)
    modifies bus
    ensures bus.Valid() && bus.AtRest() && |results| == |run|
    ensures bus.slave.mem == After(old(bus.slave.mem), run)
    ensures forall k :: 0 <= k < |run| && run[k].Get? ==>
              results[k] == LastWritten(old(bus.slave.mem), run[..k], run[k].addr)
    ensures bus.framing == Closed(old(bus.framing).frames + |run|)
  {
    results := [];
    ghost var mem, f := bus.slave.mem, bus.framing.frames;
    for i := 0 to |run|
      invariant bus.Valid() && bus.AtRest() && |results| == i && |mem| == 256
      invariant bus.slave.mem == After(mem, run[..i])
      invariant forall k :: 0 <= k < i && run[k].Get? ==> results[k] == LastWritten(mem, run[..k], run[k].addr)
      invariant bus.framing == Closed(f + i)
    {
      assert run[..i + 1][..i] == run[..i];
      ArrayHoldsLastWritten(mem, run[..i], run[i].addr);
      var v;
      match run[i] {
        case Get(a) => v := ReadReg(bus, a);
        case Put(a, w) => v := WriteReg(bus, a, w);
      }
      results := results + [v];
    }
    assert run[..|run|] == run;
  }
}
