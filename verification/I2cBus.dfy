/** The two wires of qn8006_driver.c, toggled one edge at a time, with the reference slave
    on the other end and a history of what every change of level meant. */
module I2cBus {
  import opened I2cSlave

  datatype Level = Level(scl: bool, sda: bool)
  /** SDA may change while SCL is high only to mark a START, which opens a frame, or a STOP,
      which closes it; frames: how many are complete. */
  datatype Framing = Closed(frames: nat) | Open(frames: nat) | Broken

  predicate IsStart(a: Level, b: Level) {
    a.scl && b.scl && a.sda && !b.sda
  }

  predicate IsStop(a: Level, b: Level) {
    a.scl && b.scl && !a.sda && b.sda
  }

  function Seen(f: Framing, a: Level, b: Level): Framing {
    if IsStart(a, b) then (if f.Closed? then Open(f.frames) else Broken)
    else if IsStop(a, b) then (if f.Open? then Closed(f.frames + 1) else Broken)
    else f
  }

  /** What the slave makes of a change of SDA. */
  function Noticed(s: Slave, a: Level, b: Level): Slave {
    if IsStart(a, b) then OnStart(s) else if IsStop(a, b) then OnStop(s) else s
  }

  class Bus {
    var scl: bool
    var sda: bool        // the master's SDA latch
    var driving: bool    // SDA pin direction: output
    var slave: Slave
    const acks: Acks
    ghost var framing: Framing   // what every change of level so far amounts to

    constructor (slave: Slave, acks: Acks)
      requires slave.Valid() && slave.phase == Idle
      ensures Valid() && AtRest() && this.slave == slave && this.acks == acks
      ensures framing == Closed(0)
    {
      this.scl, this.sda, this.driving := true, true, true;
      this.slave, this.acks := slave, acks;
      this.framing := Closed(0);
    }

    /** The wired AND of the two ends. */
    function Line(): bool
      reads this
    {
      (driving ==> sda) && !slave.pull
    }

    ghost predicate Valid()
      reads this
    {
      slave.Valid()
    }

    /** The idle bus. */
    ghost predicate AtRest()
      reads this
    {
      scl && sda && driving && slave.Valid() && slave.phase == Idle && framing.Closed?
    }

    /** qn8006_Set_SCL (lines 245-248). */
    method SetScl(v: bool)
      requires Valid()
      modifies this
      ensures Valid() && scl == v && sda == old(sda) && driving == old(driving)
      ensures slave == if v == old(scl) then old(slave)
                       else if v then OnRise(old(slave), old(Line())) else OnFall(old(slave), acks)
      ensures framing == old(framing)
    {
      if v != scl {
        ghost var before := Level(scl, Line());
        if v { slave := OnRise(slave, Line()); } else { slave := OnFall(slave, acks); }
        scl := v;
        framing := Seen(framing, before, Level(scl, Line()));
      }
    }

    /** Drive or release SDA: the slave sees a START or a STOP if SCL is high. */
    method Drive(v: bool, out: bool)
      requires Valid()
      modifies this
      ensures Valid() && scl == old(scl) && sda == v && driving == out
      ensures var a, b := Level(scl, old(Line())), Level(scl, (out ==> v) && !old(slave).pull);
              slave == Noticed(old(slave), a, b) && framing == Seen(old(framing), a, b)
    {
      var before := Level(scl, Line());
      sda, driving := v, out;
      slave := Noticed(slave, before, Level(scl, Line()));
      framing := Seen(framing, before, Level(scl, Line()));
    }

    /** qn8006_Set_SDA (lines 240-243). */
    method SetSda(v: bool)
      requires Valid()
      modifies this
      ensures Valid() && scl == old(scl) && sda == v && driving == old(driving)
      ensures var a, b := Level(scl, old(Line())), Level(scl, (driving ==> v) && !old(slave).pull);
              slave == Noticed(old(slave), a, b) && framing == Seen(old(framing), a, b)
    {
      Drive(v, driving);
    }

    /** I2C_SDA_OUTPUT and I2C_SDA_INPUT (lines 121-122) while SCL is low or nothing changes. */
    method SetDirection(out: bool)
      requires Valid() && (!scl || (out == driving))
      modifies this
      ensures Valid() && scl == old(scl) && sda == old(sda) && driving == out
      ensures slave == old(slave) && framing == old(framing)
    {
      if out != driving { Drive(sda, out); }
    }
  }
}
