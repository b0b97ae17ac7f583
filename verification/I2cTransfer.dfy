/** Whole transfers of qn8006_driver.c, and the register array the wires implement. */
module I2cTransfer {
  import opened Bytes
  import opened I2cSlave
  import opened I2cBus
  import opened I2cMaster

  /** Slot n answers an address byte. */
  predicate Answered(acks: Acks, address: Byte, n: nat) {
    acks(n) && Addressed(address)
  }

  /** From s, the slave t is past the address byte of the k-th attempt. */
  ghost predicate Hailed(s: Slave, t: Slave, address: Byte, found: bool, k: nat) {
    t.Listening() && t.phase == (if found then Index else Ignore) && t.mem == s.mem &&
    (found ==> t.reading == address.b0) && t.slots == s.slots + k
  }

  lemma AttemptSettles(s: Slave, address: Byte, acks: Acks)
    requires s.Valid()
    ensures var found := Answered(acks, address, s.slots);
            Took(OnStart(s), address, acks).pull == found &&
            Hailed(s, Given(OnStart(s), address, acks), address, found, 1)
  {}

  /** One START, address byte and acknowledge poll. */
  method Attempt(bus: Bus, address: Byte) returns (succ: bool)
    requires bus.Valid() && bus.AtRest()
    modifies bus
    ensures Ready(bus) && succ == Answered(bus.acks, address, old(bus.slave.slots))
    ensures Hailed(old(bus.slave), bus.slave, address, succ, 1)
    ensures bus.framing == Open(old(bus.framing).frames)
  {
    AttemptSettles(bus.slave, address, bus.acks);
    Start(bus);
    WriteByte(bus, address);
    succ := CheckAck(bus);
  }

  /** At most eleven attempts, each at the next acknowledge slot, ending at the first answered. */
  ghost predicate Outcome(acks: Acks, address: Byte, first: nat, attempts: nat, succ: bool) {
    1 <= attempts <= RETRIES + 1 &&
    (!succ ==> attempts == RETRIES + 1) &&
    (forall n :: first <= n < first + attempts - 1 ==> !Answered(acks, address, n)) &&
    succ == Answered(acks, address, first + attempts - 1)
  }

  /** The result of the address phase is 1 iff one of eleven successive slots is answered. */
  lemma OutcomeIsSomeAnswer(acks: Acks, address: Byte, first: nat, attempts: nat, succ: bool)
    requires Outcome(acks, address, first, attempts, succ)
    ensures succ <==> exists n :: first <= n < first + 11 && Answered(acks, address, n)
  {
    if succ { assert Answered(acks, address, first + attempts - 1); }
  }

  /** The bus is at rest again after attempts frames, from slave s and f frames on. */
  ghost predicate Finished(bus: Bus, address: Byte, s: Slave, f: nat, attempts: nat, succ: bool)
    reads bus
  {
    bus.Valid() && bus.AtRest() && bus.framing == Closed(f + attempts) &&
    Outcome(bus.acks, address, s.slots, attempts, succ)
  }

  lemma HailedOnceMore(s: Slave, mid: Slave, t: Slave, address: Byte, found: bool, k: nat)
    requires mid.mem == s.mem && mid.slots == s.slots + k && Hailed(mid, t, address, found, 1)
    ensures Hailed(s, t, address, found, k + 1)
  {}

  /** One turn of the retry loop (lines 442-445 and 479-483). */
  method Retry(bus: Bus, address: Byte, ghost s: Slave, ghost f: nat, ghost k: nat) returns (succ: bool)
    requires Hailing(bus, address, s, f, k, false)
    modifies bus
    ensures Hailing(bus, address, s, f, k + 1, succ)
  {
    Stop(bus);
    ghost var mid := bus.slave;
    succ := Attempt(bus, address);
    HailedOnceMore(s, mid, bus.slave, address, succ, k);
  }

  /** k attempts were made from s on, all but the last unanswered. */
  ghost predicate Hailing(bus: Bus, address: Byte, s: Slave, f: nat, k: nat, succ: bool)
    reads bus
  {
    k >= 1 && Ready(bus) && Hailed(s, bus.slave, address, succ, k) && bus.framing == Open(f + k - 1) &&
    (forall n :: s.slots <= n < s.slots + k - 1 ==> !Answered(bus.acks, address, n)) &&
    succ == Answered(bus.acks, address, s.slots + k - 1)
  }

  /** The address phase with its retries (lines 436-447 and 472-485). */
  method Hail(bus: Bus, address: Byte) returns (succ: bool, ghost attempts: nat)
    requires bus.Valid() && bus.AtRest()
    modifies bus
    ensures Hailing(bus, address, old(bus.slave), old(bus.framing.frames), attempts, succ)
    ensures attempts <= RETRIES + 1 && (!succ ==> attempts == RETRIES + 1)
  {
    ghost var s, f := bus.slave, bus.framing.frames;
    succ := Attempt(bus, address);
    var time := 0;
    while !succ && time < RETRIES
      invariant 0 <= time <= RETRIES && Hailing(bus, address, s, f, time + 1, succ)
    {
      succ := Retry(bus, address, s, f, time + 1);
      time := time + 1;
    }
    attempts := time + 1;
  }

  // ---------- writing ----------

  /** The slave after the index byte: taken if the slave was addressed and acknowledges it. */
  ghost predicate Indexed(s: Slave, t: Slave, reg: Byte, taken: bool) {
    t.AtByte() && t.mem == s.mem && t.slots == s.slots + 1 &&
    if taken then t.index == ToNat(reg) && t.phase == (if s.reading then Send else Store) else t.phase == Ignore
  }

  lemma IndexSettles(s: Slave, reg: Byte, acks: Acks)
    requires s.Listening() && s.phase in {Index, Ignore}
    ensures Indexed(s, Given(s, reg, acks), reg, s.phase == Index && acks(s.slots))
  {}

  /** The index byte of either transfer (lines 448-449 and 487-488). */
  method PutIndex(bus: Bus, reg: Byte) returns (ghost taken: bool)
    requires Ready(bus) && bus.slave.Listening() && bus.slave.phase in {Index, Ignore}
    modifies bus
    ensures taken == (old(bus.slave).phase == Index && bus.acks(old(bus.slave).slots))
    ensures Ready(bus) && Indexed(old(bus.slave), bus.slave, reg, taken)
    ensures bus.framing == old(bus.framing)
  {
    taken := bus.slave.phase == Index && bus.acks(bus.slave.slots);
    IndexSettles(bus.slave, reg, bus.acks);
    WriteByte(bus, reg);
    var _ := CheckAck(bus);
  }

  /** The data loop (lines 450-454). */
  method PutBytes(bus: Bus, data: array<Byte>)
    requires Ready(bus) && bus.slave.Listening() && bus.slave.phase in {Store, Ignore}
    modifies bus
    ensures Ready(bus) && bus.slave.Listening() && bus.slave == GivenAll(old(bus.slave), data[..], bus.acks)
    ensures bus.framing == old(bus.framing)
  {
    var i := 0;
    while i < data.Length
      invariant 0 <= i <= data.Length
      invariant Ready(bus) && bus.slave == GivenAll(old(bus.slave), data[..i], bus.acks)
      invariant bus.framing == old(bus.framing)
    {
      assert data[..i + 1][..i] == data[..i];
      WriteByte(bus, data[i]);
      var _ := CheckAck(bus);
      i := i + 1;
    }
    assert data[..data.Length] == data[..];
  }

  /** The data loop seen from the registers: a slave that took the index stores what comes before the
      first byte it does not acknowledge; one that did not stores nothing. */
  method PutData(bus: Bus, data: array<Byte>)
    requires Ready(bus) && bus.slave.Listening() && bus.slave.phase in {Store, Ignore}
    modifies bus
    ensures Ready(bus) && bus.slave.Listening() && bus.framing == old(bus.framing)
    ensures old(bus.slave).phase == Ignore ==> bus.slave.mem == old(bus.slave.mem)
    ensures old(bus.slave).phase == Store ==>
              var k := AckedRun(bus.acks, old(bus.slave.slots), data.Length);
              bus.slave.mem == StoreRun(old(bus.slave.mem), old(bus.slave.index), data[..k])
  {
    ghost var k := AckedRun(bus.acks, bus.slave.slots, data.Length);
    assert data[..][..k] == data[..k];
    if bus.slave.phase == Ignore {
      IgnoresRun(bus.slave, data[..], bus.acks);
    } else {
      StoresUpToRefusal(bus.slave, data[..], bus.acks);
    }
    PutBytes(bus, data);
  }

  /** The index byte of a transfer is in the slot behind the last attempt. */
  predicate IndexTaken(s: Slave, attempts: nat, succ: bool, acks: Acks) {
    succ && acks(s.slots + attempts)
  }

  /** The registers after a write: without an acknowledged index nothing is stored, otherwise the
      bytes before the first that is not acknowledged. */
  function WrittenMem(s: Slave, reg: Byte, data: seq<Byte>, attempts: nat, succ: bool, acks: Acks): seq<Byte>
    requires |s.mem| == 256
  {
    if !IndexTaken(s, attempts, succ, acks) then s.mem
    else StoreRun(s.mem, ToNat(reg), data[..AckedRun(acks, s.slots + attempts + 1, |data|)])
  }

  /** The index byte and the data of a write (lines 448-454). */
  method Put(bus: Bus, reg: Byte, data: array<Byte>)
    requires Ready(bus) && bus.slave.Listening() && bus.slave.phase in {Index, Ignore}
    requires bus.slave.phase == Index ==> !bus.slave.reading
    modifies bus
    ensures Ready(bus) && bus.slave.Listening() && bus.framing == old(bus.framing)
    ensures bus.slave.mem ==
            if old(bus.slave).phase == Index && bus.acks(old(bus.slave).slots)
            then StoreRun(old(bus.slave.mem), ToNat(reg),
                          data[..AckedRun(bus.acks, old(bus.slave.slots) + 1, data.Length)])
            else old(bus.slave.mem)
  {
    ghost var taken := PutIndex(bus, reg);
    PutData(bus, data);
  }

  /** The rest of a write, once the address phase has ended (lines 448-455). */
  method PutAndStop(bus: Bus, address: Byte, reg: Byte, data: array<Byte>, succ: bool,
                    ghost s: Slave, ghost f: nat, ghost attempts: nat)
    requires Hailing(bus, address, s, f, attempts, succ) && (succ ==> !address.b0)
    requires attempts <= RETRIES + 1 && (!succ ==> attempts == RETRIES + 1)
    modifies bus
    ensures Finished(bus, address, s, f, attempts, succ)
    ensures bus.slave.mem == WrittenMem(s, reg, data[..], attempts, succ, bus.acks)
  {
    ghost var k := AckedRun(bus.acks, s.slots + attempts + 1, data.Length);
    assert data[..][..k] == data[..k];
    Put(bus, reg, data);
    Stop(bus);
  }

  /** qn8006_AI2C_Write_Nbyte (lines 431-457), Length being data.Length. */
  method WriteBytes(bus: Bus, device: Byte, reg: Byte, data: array<Byte>) returns (succ: bool, ghost attempts: nat)
    requires bus.Valid() && bus.AtRest()
    modifies bus
    ensures Finished(bus, device.(b0 := false), old(bus.slave), old(bus.framing.frames), attempts, succ)
    ensures bus.slave.mem == WrittenMem(old(bus.slave), reg, data[..], attempts, succ, bus.acks)
  {
    var temp := device.(b0 := false);
    ghost var s, f := bus.slave, bus.framing.frames;
    succ, attempts := Hail(bus, temp);
    PutAndStop(bus, temp, reg, data, succ, s, f, attempts);
  }

  // ---------- reading ----------

  /** The slave while the master takes byte k: it sends on, or it is out of the transfer. */
  ghost predicate Taking(s: Slave, mem: seq<Byte>, i: nat, k: nat, sending: bool) {
    s.AtByte() && s.mem == mem && s.phase == (if sending then Send else Ignore) &&
    (sending ==> s.index == (i + k) % 256)
  }

  /** The slave once the master has taken a byte and asked for more, or not. */
  function Taken(s: Slave, more: bool, acks: Acks): (t: Slave)
    requires s.AtByte() && s.phase in {Send, Ignore}
    ensures t.AtByte()
  {
    var u := AfterClocks(s, 8, acks);
    ByteDone(OnRise(u, !more && !u.pull))
  }

  lemma TakingGoesOn(s: Slave, mem: seq<Byte>, i: nat, k: nat, sending: bool, more: bool, acks: Acks)
    requires Taking(s, mem, i, k, sending)
    ensures if more then Taking(Taken(s, more, acks), mem, i, k + 1, sending)
            else Taking(Taken(s, more, acks), mem, i, k + 1, false)
  {
    NextModulo(i, k);
  }

  lemma IndexedTakes(s: Slave, t: Slave, reg: Byte, taken: bool)
    requires Indexed(s, t, reg, taken) && (taken ==> s.reading)
    ensures Taking(t, s.mem, ToNat(reg), 0, taken)
  {}

  /** One turn of the read loop (lines 491-495). */
  method GetByte(bus: Bus, last: bool) returns (b: Byte)
    requires bus.Valid() && !bus.scl && bus.framing.Open? && bus.slave.AtByte() && bus.slave.phase in {Send, Ignore}
    modifies bus
    ensures Ready(bus) && bus.framing == old(bus.framing)
    ensures b == Expected(old(bus.slave)) && bus.slave == Taken(old(bus.slave), !last, bus.acks)
  {
    b := ReadByte(bus);
    if last { SendAck(bus, true); } else { SendAck(bus, false); }
  }

  /** The read loop (lines 490-496). */
  method GetBytes(bus: Bus, data: array<Byte>, ghost i0: nat, ghost sending: bool)
    requires Ready(bus) && Taking(bus.slave, bus.slave.mem, i0, 0, sending)
    modifies bus, data
    ensures bus.Valid() && !bus.scl && (bus.driving <==> data.Length > 0) && bus.framing == old(bus.framing)
    ensures Taking(bus.slave, old(bus.slave.mem), i0, data.Length, sending && data.Length == 0)
    ensures forall k :: 0 <= k < data.Length ==> data[k] == if sending then old(bus.slave.mem)[(i0 + k) % 256] else ONES
  {
    bus.SetDirection(false);
    ghost var mem, f := bus.slave.mem, bus.framing;
    var i := 0;
    while i < data.Length
      invariant 0 <= i <= data.Length
      invariant bus.Valid() && !bus.scl && bus.framing == f && (bus.driving <==> i > 0)
      invariant Taking(bus.slave, mem, i0, i, sending && (i < data.Length || i == 0))
      invariant forall k :: 0 <= k < i ==> data[k] == if sending then mem[(i0 + k) % 256] else ONES
    {
      TakingGoesOn(bus.slave, mem, i0, i, sending, i != data.Length - 1, bus.acks);
      data[i] := GetByte(bus, i == data.Length - 1);
      i := i + 1;
    }
  }

  /** What a read delivers: the registers from reg on if the slave took the index, else ones. */
  ghost predicate Delivered(data: seq<Byte>, mem: seq<Byte>, reg: Byte, taken: bool) {
    |mem| == 256 &&
    forall k :: 0 <= k < |data| ==> data[k] == if taken then mem[(ToNat(reg) + k) % 256] else ONES
  }

  /** A read of n bytes that takes none leaves a slave that took the index sending; if it sends
      a zero first, the STOP does not come off. */
  predicate Hangs(n: nat, mem: seq<Byte>, i: nat, taken: bool)
    requires i < |mem|
  {
    n == 0 && taken && !mem[i].b7
  }

  lemma PullsIffHangs(t: Slave, mem: seq<Byte>, i: nat, n: nat, taken: bool)
    requires i < |mem| == 256 && Taking(t, mem, i, n, taken && n == 0)
    ensures t.pull == Hangs(n, mem, i, taken)
  {}

  /** The index byte and the data of a read (lines 487-496). */
  method Fetch(bus: Bus, reg: Byte, data: array<Byte>)
    requires Ready(bus) && bus.slave.Listening() && bus.slave.phase in {Index, Ignore}
    requires bus.slave.phase == Index ==> bus.slave.reading
    modifies bus, data
    ensures bus.Valid() && !bus.scl && bus.slave.AtByte()
    ensures bus.slave.mem == old(bus.slave.mem) && bus.framing == old(bus.framing)
    ensures var taken := old(bus.slave).phase == Index && bus.acks(old(bus.slave).slots);
            Delivered(data[..], old(bus.slave.mem), reg, taken) &&
            bus.slave.pull == Hangs(data.Length, old(bus.slave.mem), ToNat(reg), taken)
  {
    ghost var s := bus.slave;
    ghost var taken := PutIndex(bus, reg);
    IndexedTakes(s, bus.slave, reg, taken);
    GetBytes(bus, data, ToNat(reg), taken);
    PullsIffHangs(bus.slave, s.mem, ToNat(reg), data.Length, taken);
  }

  /** The last frame of a read is still open, the slave holding SDA low. */
  ghost predicate LeftOpen(bus: Bus, address: Byte, s: Slave, f: nat, attempts: nat, succ: bool)
    reads bus
  {
    Stuck(bus) && attempts >= 1 && bus.framing == Open(f + attempts - 1) &&
    Outcome(bus.acks, address, s.slots, attempts, succ)
  }

  /** How a read of n bytes ends: the bus is at rest unless the slave holds SDA low. */
  ghost predicate ReadOver(bus: Bus, address: Byte, s: Slave, f: nat, attempts: nat, succ: bool, reg: Byte, n: nat)
    requires |s.mem| == 256
    reads bus
  {
    if Hangs(n, s.mem, ToNat(reg), IndexTaken(s, attempts, succ, bus.acks))
    then LeftOpen(bus, address, s, f, attempts, succ)
    else Finished(bus, address, s, f, attempts, succ)
  }

  /** The rest of a read, once the address phase has ended (lines 487-497). */
  method FetchAndStop(bus: Bus, address: Byte, reg: Byte, data: array<Byte>, succ: bool,
                      ghost s: Slave, ghost f: nat, ghost attempts: nat)
    requires Hailing(bus, address, s, f, attempts, succ) && address.b0
    requires attempts <= RETRIES + 1 && (!succ ==> attempts == RETRIES + 1)
    modifies bus, data
    ensures bus.slave.mem == s.mem && ReadOver(bus, address, s, f, attempts, succ, reg, data.Length)
    ensures Delivered(data[..], s.mem, reg, IndexTaken(s, attempts, succ, bus.acks))
  {
    Fetch(bus, reg, data);
    Stop(bus);
  }

  /** qn8006_AI2C_Read_Nbyte (lines 465-499), Length being data.Length: the bus is at rest again
      unless no byte is read from a register with its top bit clear. */
  method ReadBytes(bus: Bus, device: Byte, reg: Byte, data: array<Byte>) returns (succ: bool, ghost attempts: nat)
    requires bus.Valid() && bus.AtRest()
    modifies bus, data
    ensures bus.slave.mem == old(bus.slave.mem)
    ensures ReadOver(bus, device.(b0 := true), old(bus.slave), old(bus.framing.frames), attempts, succ, reg,
                     data.Length)
    ensures Delivered(data[..], old(bus.slave.mem), reg, IndexTaken(old(bus.slave), attempts, succ, bus.acks))
  {
    var temp := device.(b0 := true);
    bus.SetDirection(true);
    ghost var s, f := bus.slave, bus.framing.frames;
    succ, attempts := Hail(bus, temp);
    FetchAndStop(bus, temp, reg, data, succ, s, f, attempts);
  }
}
