/** The bit-banged master of qn8006_driver.c, from single clocks to register reads and writes. */
module I2cMaster {
  import opened Bytes
  import opened I2cSlave
  import opened I2cBus

  const ACK_POLLS := 20    // I2C_TIME_OUT
  const RETRIES := 10

  /** SCL is low and the master drives SDA: where every byte begins and ends. */
  ghost predicate Ready(bus: Bus)
    reads bus
  {
    bus.Valid() && !bus.scl && bus.driving && bus.framing.Open?
  }

  /** qn8006_i2c_start (lines 252-268). */
  method Start(bus: Bus)
    requires bus.Valid() && bus.AtRest()
    modifies bus
    ensures Ready(bus) && bus.slave == OnStart(old(bus.slave))
    ensures bus.framing == Open(old(bus.framing).frames)
  {
    bus.SetDirection(true);
    bus.SetScl(true);
    bus.SetSda(true);
    bus.SetSda(false);
    bus.SetScl(false);
  }

  /** SDA is held low by a slave that is sending, so that the frame cannot be ended. */
  ghost predicate Stuck(bus: Bus)
    reads bus
  {
    bus.Valid() && bus.scl && bus.sda && bus.driving && bus.framing.Open? && bus.slave.phase == Send && bus.slave.pull
  }

  /** qn8006_i2c_stop (lines 270-281): a STOP, unless the slave holds SDA low. */
  method Stop(bus: Bus)
    requires bus.Valid() && !bus.scl && bus.framing.Open? && bus.slave.AtByte()
    modifies bus
    ensures bus.slave.mem == old(bus.slave.mem) && bus.slave.slots == old(bus.slave.slots)
    ensures if old(bus.slave.pull) then Stuck(bus) && bus.framing == old(bus.framing)
            else bus.Valid() && bus.AtRest() && bus.framing == Closed(old(bus.framing).frames + 1)
  {
    bus.SetDirection(true);
    bus.SetSda(false);
    bus.SetScl(true);
    bus.SetSda(true);
  }

  /** qn8006_i2c_Write_Bit (lines 320-329). */
  method WriteBit(bus: Bus, i: bool)
    requires Ready(bus) && !bus.slave.pull
    modifies bus
    ensures Ready(bus) && bus.slave == OnFall(OnRise(old(bus.slave), i), bus.acks)
    ensures bus.framing == old(bus.framing)
  {
    bus.SetScl(false);
    bus.SetSda(i);
    bus.SetScl(true);
    bus.SetScl(false);
  }

  /** The listening slave after i bits of data. */
  function AfterBits(s: Slave, data: Byte, i: nat, acks: Acks): (t: Slave)
    requires s.Listening() && i <= 8
    ensures t.Valid()
  {
    if i < 8 then s.(shift := Assembled(data, i), count := i) else Took(s, data, acks)
  }

  lemma BitCrosses(s: Slave, data: Byte, i: nat, acks: Acks)
    requires s.Listening() && i < 8
    ensures OnFall(OnRise(AfterBits(s, data, i, acks), BitAt(data, i)), acks) == AfterBits(s, data, i + 1, acks)
  {
    BitComesIn(data, i);
  }

  /** qn8006_i2c_Write_Byte (lines 331-340). */
  method WriteByte(bus: Bus, data: Byte)
    requires Ready(bus) && bus.slave.Listening()
    modifies bus
    ensures Ready(bus) && bus.slave == Took(old(bus.slave), data, bus.acks)
    ensures bus.framing == old(bus.framing)
  {
    var rest := data;
    var i := 0;
    while i < 8
      invariant 0 <= i <= 8
      invariant rest == Shifted(data, i)
      invariant Ready(bus) && bus.framing == old(bus.framing)
      invariant bus.slave == AfterBits(old(bus.slave), data, i, bus.acks)
    {
      ShiftBrings(data, i, 0);
      BitCrosses(old(bus.slave), data, i, bus.acks);
      WriteBit(bus, rest.b7);
      rest := ShiftIn(rest, false);
      i := i + 1;
    }
  }

  /** qn8006_i2c_check_ack (lines 296-318): SDA is polled at most 21 times. */
  method CheckAck(bus: Bus) returns (acked: bool)
    requires Ready(bus) && bus.slave.acking && bus.slave.phase != Send
    modifies bus
    ensures Ready(bus) && bus.slave == ByteDone(old(bus.slave))
    ensures acked == old(bus.slave.pull)
    ensures bus.framing == old(bus.framing)
  {
    var time := 0;
    bus.SetDirection(false);
    bus.SetScl(true);
    while bus.Line()
      invariant 0 <= time <= ACK_POLLS
      invariant bus.Valid() && bus.scl && !bus.driving && bus.slave == old(bus.slave)
      invariant bus.framing == old(bus.framing)
      decreases ACK_POLLS - time
    {
      time := time + 1;
      if time > ACK_POLLS {
        bus.SetScl(false);
        bus.SetDirection(true);
        return false;
      }
    }
    bus.SetScl(false);
    bus.SetDirection(true);
    return true;
  }

  /** What a master that releases SDA reads: a slave that does not send leaves the line high. */
  function Expected(s: Slave): Byte
    requires s.AtByte()
  {
    if s.phase == Send then s.mem[s.index] else ONES
  }

  /** The slave after j clocks with SDA released by the master. */
  function AfterClocks(s: Slave, j: nat, acks: Acks): (t: Slave)
    requires s.AtByte() && j <= 8
    ensures t.Valid()
  {
    var b := Expected(s);
    if s.phase == Send then s.(shift := Assembled(b, j), count := j, acking := j == 8, pull := j < 8 && !BitAt(b, j))
    else AfterBits(s, ONES, j, acks)
  }

  lemma ClockPasses(s: Slave, j: nat, acks: Acks)
    requires s.AtByte() && j < 8
    ensures var t := AfterClocks(s, j, acks); var bit := BitAt(Expected(s), j);
            !t.pull == bit && OnFall(OnRise(t, bit), acks) == AfterClocks(s, j + 1, acks)
  {
    BitComesIn(Expected(s), j);
    if s.phase != Send { BitCrosses(s, ONES, j, acks); }
  }

  /** One clock of the read loop (lines 350-353). */
  method ReadBit(bus: Bus) returns (bit: bool)
    requires bus.Valid() && !bus.scl && !bus.driving
    modifies bus
    ensures bus.Valid() && !bus.scl && !bus.driving && bus.framing == old(bus.framing)
    ensures bit == !old(bus.slave.pull) && bus.slave == OnFall(OnRise(old(bus.slave), bit), bus.acks)
  {
    bus.SetScl(true);
    bit := bus.Line();
    bus.SetScl(false);
  }

  /** qn8006_i2c_Read_Byte (lines 342-357). */
  method ReadByte(bus: Bus) returns (data: Byte)
    requires bus.Valid() && !bus.scl && bus.framing.Open? && bus.slave.AtByte()
    modifies bus
    ensures Ready(bus) && bus.framing == old(bus.framing)
    ensures data == Expected(old(bus.slave))
    ensures bus.slave == AfterClocks(old(bus.slave), 8, bus.acks)
  {
    data := ZERO;
    bus.SetDirection(false);
    ghost var s, f := bus.slave, bus.framing;
    var j := 0;
    while j < 8
      invariant 0 <= j <= 8
      invariant bus.Valid() && !bus.scl && !bus.driving && bus.framing == f
      invariant data == Assembled(Expected(s), j)
      invariant bus.slave == AfterClocks(s, j, bus.acks)
    {
      BitComesIn(Expected(s), j);
      ClockPasses(s, j, bus.acks);
      var bit := ReadBit(bus);
      data := ShiftIn(data, bit);
      j := j + 1;
    }
    bus.SetDirection(true);
  }

  /** qn8006_i2c_send_ack (lines 283-294). */
  method SendAck(bus: Bus, i: bool)
    requires Ready(bus) && bus.slave.Valid() && bus.slave.acking
    modifies bus
    ensures Ready(bus) && bus.framing == old(bus.framing)
    ensures bus.slave == ByteDone(OnRise(old(bus.slave), i && !old(bus.slave.pull)))
  {
    bus.SetScl(false);
    bus.SetSda(i);
    bus.SetScl(true);
    bus.SetScl(false);
    bus.SetSda(true);
  }
}
