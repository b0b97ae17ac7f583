/** A reference slave for the bus of qn8006_driver.c: what the chip's side of the two wires
    does at each clock edge, START and STOP (sections 3.1.3 to 3.1.6 of UM10204).  The read
    is the chip's own: address with the read bit, register index, then data, with no
    repeated START.  Further data bytes go to (or come from) the next register. */
module I2cSlave {
  import opened Bytes

  /** The 7-bit device address, QN8006_I2C_ADDR (line 109). */
  const DEVICE := 0x2B

  datatype Phase = Idle | Address | Index | Store | Send | Ignore

  /** shift and count: what has crossed the wire of the current byte; acking: the ninth clock of the
      byte is on; pull: the slave holds SDA low; slots: acknowledge slots met so far. */
  datatype Slave = Slave(phase: Phase, shift: Byte, count: nat, acking: bool, pull: bool,
                         reading: bool, index: nat, slots: nat, mem: seq<Byte>)
  {
    predicate Valid() {
      |mem| == 256 && index < 256 && count <= 8 &&
      (acking ==> count == 8 && phase != Idle) &&
      (phase == Idle ==> !pull) &&
      (pull ==> phase == Send || acking)
    }

    /** Between two bytes: the next rising clock carries bit 7. */
    predicate AtByte() {
      Valid() && phase != Idle && shift == ZERO && count == 0 && !acking &&
      (phase == Send ==> pull == !mem[index].b7)
    }

    predicate Listening() {
      AtByte() && phase != Send
    }
  }

  /** Whether slot n is acknowledged, if the byte is one the slave may acknowledge. */
  type Acks = nat -> bool

  predicate Addressed(b: Byte) {
    ToNat(b) / 2 == DEVICE
  }

  function Next(i: nat): (j: nat)
    requires i < 256
    ensures j < 256
  {
    (i + 1) % 256
  }

  function OnStart(s: Slave): Slave {
    s.(phase := Address, shift := ZERO, count := 0, acking := false, pull := false)
  }

  function OnStop(s: Slave): Slave {
    s.(phase := Idle, shift := ZERO, count := 0, acking := false, pull := false)
  }

  /** A rising clock: a listening slave samples the line; a sending one counts its own bit. */
  function OnRise(s: Slave, line: bool): (t: Slave)
    requires s.Valid()
    ensures t.Valid()
  {
    if s.phase == Idle || s.count == 8 then s.(reading := if s.phase == Send then !line else s.reading)
    else s.(shift := ShiftIn(s.shift, line), count := s.count + 1)
  }

  /** A falling clock: the only moment the slave may change what it drives. */
  function OnFall(s: Slave, acks: Acks): (t: Slave)
    requires s.Valid()
    ensures t.Valid()
  {
    if s.phase == Idle then s
    else if s.count < 8 then
      if s.phase == Send then s.(pull := !BitAt(s.mem[s.index], s.count)) else s
    else if !s.acking then
      if s.phase == Send then s.(acking := true, pull := false)
      else s.(acking := true, pull := Answers(s, acks), slots := s.slots + 1)
    else ByteDone(s)
  }

  /** The listening slave answers a complete byte: an address must be its own. */
  predicate Answers(s: Slave, acks: Acks)
    requires s.Valid() && s.count == 8
  {
    acks(s.slots) && (s.phase == Address ==> Addressed(s.shift))
  }

  /** The ninth clock is over.  A byte that was not acknowledged is not taken. */
  function ByteDone(s: Slave): (t: Slave)
    requires s.Valid() && s.acking
    ensures t.AtByte()
  {
    var b := s.shift;
    var clear := s.(shift := ZERO, count := 0, acking := false, pull := false);
    if s.phase == Send then
      // s.reading now says whether the master asked for another byte
      if s.reading then
        var i := Next(s.index);
        clear.(index := i, pull := !s.mem[i].b7)
      else clear.(phase := Ignore)
    else if !s.pull then clear.(phase := Ignore)
    else match s.phase
      case Address => clear.(phase := Index, reading := b.b0)
      case Index =>
        if s.reading then clear.(phase := Send, index := ToNat(b), pull := !s.mem[ToNat(b)].b7)
        else clear.(phase := Store, index := ToNat(b))
      case Store => clear.(mem := s.mem[s.index := b], index := Next(s.index))
      case _ => clear
  }

  // ---------- whole bytes ----------

  /** The eight bits of d have crossed the wire and the answer is on it. */
  function Took(s: Slave, d: Byte, acks: Acks): (t: Slave)
    requires s.Listening()
    ensures t.Valid() && t.acking && t.phase != Send
  {
    var full := s.(shift := d, count := 8);
    full.(acking := true, pull := Answers(full, acks), slots := s.slots + 1)
  }

  /** A byte and its acknowledge clock. */
  function Given(s: Slave, d: Byte, acks: Acks): (t: Slave)
    requires s.Listening()
    ensures t.AtByte()
  {
    ByteDone(Took(s, d, acks))
  }

  /** Data bytes given one after another; a slave that listens after the index keeps listening. */
  function GivenAll(s: Slave, data: seq<Byte>, acks: Acks): (t: Slave)
    requires s.Listening() && s.phase in {Store, Ignore}
    ensures t.Listening() && t.phase in {Store, Ignore}
    decreases |data|
  {
    if data == [] then s
    else Given(GivenAll(s, data[..|data| - 1], acks), data[|data| - 1], acks)
  }

  // ---------- the slave as an array of registers ----------

  /** The registers after data is stored from register i on. */
  function StoreRun(mem: seq<Byte>, i: nat, data: seq<Byte>): (m: seq<Byte>)
    requires |mem| == 256
    ensures |m| == 256
    decreases |data|
  {
    if data == [] then mem
    else StoreRun(mem, i, data[..|data| - 1])[(i + |data| - 1) % 256 := data[|data| - 1]]
  }

  lemma StoresOne(s: Slave, d: Byte, acks: Acks)
    requires s.Listening() && s.phase == Store && acks(s.slots)
    ensures Given(s, d, acks) == s.(mem := s.mem[s.index := d], index := Next(s.index), slots := s.slots + 1)
  {}

  lemma NextModulo(i: nat, n: nat)
    ensures Next((i + n) % 256) == (i + n + 1) % 256
  {}

  /** How many of n bytes are acknowledged before the first that is not, from slot first on. */
  function AckedRun(acks: Acks, first: nat, n: nat): (k: nat)
    ensures k <= n && (forall j :: first <= j < first + k ==> acks(j)) && (k < n ==> !acks(first + k))
  {
    if n == 0 then 0
    else
      var k := AckedRun(acks, first, n - 1);
      if k == n - 1 && acks(first + n - 1) then n else k
  }

  /** A slave in its Store phase after some bytes: all were acknowledged, or those before the first
      that was not are stored and the slave is out of the transfer. */
  ghost predicate StoredPart(s: Slave, t: Slave, data: seq<Byte>, acks: Acks)
    requires |s.mem| == 256
  {
    var k := AckedRun(acks, s.slots, |data|);
    t.Listening() && t.slots == s.slots + |data| && t.mem == StoreRun(s.mem, s.index, data[..k]) &&
    if k == |data| then t.phase == Store && t.index == (s.index + |data|) % 256 else t.phase == Ignore
  }

  /** One more byte that is acknowledged. */
  lemma StoresNext(t: Slave, mem: seq<Byte>, i: nat, data: seq<Byte>, d: Byte, acks: Acks)
    requires t.Listening() && t.phase == Store && acks(t.slots) && |mem| == 256
    requires t.mem == StoreRun(mem, i, data) && t.index == (i + |data|) % 256
    ensures Given(t, d, acks) ==
            t.(mem := StoreRun(mem, i, data + [d]), index := (i + |data| + 1) % 256, slots := t.slots + 1)
  {
    StoresOne(t, d, acks);
    NextModulo(i, |data|);
    assert (data + [d])[..|data|] == data;
  }

  lemma StoresNone(s: Slave, d: Byte, acks: Acks)
    requires s.Listening() && s.phase in {Store, Ignore} && (s.phase == Ignore || !acks(s.slots))
    ensures var t := Given(s, d, acks); t.phase == Ignore && t.mem == s.mem && t.slots == s.slots + 1
  {}

  lemma StoresTaken(s: Slave, t: Slave, data: seq<Byte>, d: Byte, acks: Acks)
    requires s.Listening() && StoredPart(s, t, data, acks) && t.phase == Store && acks(t.slots)
    ensures StoredPart(s, Given(t, d, acks), data + [d], acks)
  {
    var n := |data|;
    assert data[..n] == data && (data + [d])[..n + 1] == data + [d];
    StoresNext(t, s.mem, s.index, data, d, acks);
  }

  lemma StoresRefused(s: Slave, t: Slave, data: seq<Byte>, d: Byte, acks: Acks)
    requires s.Listening() && StoredPart(s, t, data, acks) && !(t.phase == Store && acks(t.slots))
    ensures StoredPart(s, Given(t, d, acks), data + [d], acks)
  {
    var k := AckedRun(acks, s.slots, |data|);
    StoresNone(t, d, acks);
    assert (data + [d])[..k] == data[..k];
  }

  lemma StoresNextPart(s: Slave, t: Slave, data: seq<Byte>, d: Byte, acks: Acks)
    requires s.Listening() && StoredPart(s, t, data, acks)
    ensures StoredPart(s, Given(t, d, acks), data + [d], acks)
  {
    if t.phase == Store && acks(t.slots) {
      StoresTaken(s, t, data, d, acks);
    } else {
      StoresRefused(s, t, data, d, acks);
    }
  }

  /** What a slave that took the index makes of data, whatever it acknowledges. */
  lemma {:induction false} StoresUpToRefusal(s: Slave, data: seq<Byte>, acks: Acks)
    requires s.Listening() && s.phase == Store
    ensures StoredPart(s, GivenAll(s, data, acks), data, acks)
    decreases |data|
  {
    if data != [] {
      var front, last := data[..|data| - 1], data[|data| - 1];
      StoresUpToRefusal(s, front, acks);
      StoresNextPart(s, GivenAll(s, front, acks), front, last, acks);
      assert front + [last] == data;
    } else {
      assert data[..0] == [];
    }
  }

  lemma {:induction false} IgnoresRun(s: Slave, data: seq<Byte>, acks: Acks)
    requires s.Listening() && s.phase == Ignore
    ensures var t := GivenAll(s, data, acks); t.phase == Ignore && t.mem == s.mem
    decreases |data|
  {
    if data != [] {
      IgnoresRun(s, data[..|data| - 1], acks);
    }
  }
}
