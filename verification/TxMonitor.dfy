/** The thread from the PC to the chip: bt_tx_monitor of bt_relayer.cpp with EM_BT_write of
    bt_em.c. */
module TxMonitor {
  import opened H4
  import opened Relaying
  import opened PcReader

  /** The chip's end of bt_send_data: the packets it has taken, and which calls succeed; calls
      beyond the list fail. */
  class ChipInput {
    var received: seq<seq<Octet>>
    const succeeds: seq<bool>
    var calls: nat

    constructor (succeeds: seq<bool>)
      ensures received == [] && calls == 0 && this.succeeds == succeeds
    {
      this.succeeds, received, calls := succeeds, [], 0;
    }

    /** Call number k succeeds. */
    predicate Takes(k: nat) {
      k < |succeeds| && succeeds[k]
    }

    /** EM_BT_write (bt_em.c:163-201). */
    method Write(buf: array<Octet>, len: nat) returns (ok: bool)
      requires 0 < len <= buf.Length
      modifies this
      ensures received == if ok then old(received) + [buf[..len]] else old(received)
      ensures ok <==> WritableTo(Chip, buf[0]) && Takes(old(calls))
      ensures calls == old(calls) + if WritableTo(Chip, buf[0]) then 1 else 0
    {
      if buf[0] != 0x01 && buf[0] != 0x02 && buf[0] != 0x03 { return false; }
      ok := calls < |succeeds| && succeeds[calls];
      calls := calls + 1;
      if ok { received := received + [buf[..len]]; }
    }
  }

  /** How a turn or the whole thread came to its end: waiting with no answer left, on a timeout or
      an error of the port inside a packet, or because the chip did not take the next packet. */
  ghost predicate EndsFor(end: End, port: Port, chip: ChipInput)
    requires port.Valid()
    reads port, chip
  {
    match end
    case StillWaiting => port.turn == |port.answers|
    case ReadBroken =>
      FrontOf(Pc, Rest(Pc, port.input[..port.pos], CAPACITY), CAPACITY) == Partial ==> GaveUp(port)
    case WriteBroken => chip.calls > 0 && !chip.Takes(chip.calls - 1)
    case _ => false
  }

  /** One turn of the loop (lines 455-481): it goes on, or it ends as said. */
  method Turn(port: Port, chip: ChipInput, buf: array<Octet>) returns (goesOn: bool, end: End)
    requires port.Valid() && Between(Pc, port.input[..port.pos], chip.received) && buf.Length == CAPACITY
    modifies port`pos, port`turn, port`asked, chip, buf
    ensures port.asked == old(port.asked) + 1
    ensures port.Valid() && old(port.pos) <= port.pos
    ensures goesOn ==> Between(Pc, port.input[..port.pos], chip.received)
    ensures if goesOn || end != StillWaiting then port.turn > old(port.turn) else port.turn >= old(port.turn)
    ensures !goesOn ==> PassedOn(Pc, port.input[..port.pos], chip.received, end) && EndsFor(end, port, chip)
    ensures |old(chip.received)| <= |chip.received|
    ensures chip.calls - old(chip.calls) ==
            |chip.received| - |old(chip.received)| + if !goesOn && end == WriteBroken then 1 else 0
  {
    forall k | 0 <= k < buf.Length { buf[k] := 0; }
    ghost var pos := port.pos;
    var r := RelayerRead(port, buf);
    ExplainedAccounts(Pc, r, port.input[pos..port.pos], buf[..]);
    TakesMore(Pc, port.input[..pos], chip.received, port.input[pos..port.pos], r, buf[..]);
    assert port.input[..pos] + port.input[pos..port.pos] == port.input[..port.pos];
    match r {
      case Got(n) =>
        var ok := chip.Write(buf, n);
        if !ok { return false, WriteBroken; }
      case Nothing =>
      case Broken(_) => return false, ReadBroken;
      case Pending => return false, StillWaiting;
    }
    return true, ToldToStop;
  }

  /** bt_tx_monitor (lines 449-484).  raised: whether fExit was set from outside by the time of
      each check; end: how the thread came to an end. */
  method Monitor(port: Port, chip: ChipInput, raised: seq<bool>) returns (fExit: bool, end: End)
    requires port.Valid() && port.pos == 0 && chip.received == []
    modifies port`pos, port`turn, port`asked, chip
    ensures port.Valid() && PassedOn(Pc, port.input[..port.pos], chip.received, end)
    ensures fExit <==> end != StillWaiting
    ensures end != ToldToStop ==> EndsFor(end, port, chip)
    ensures var turns := port.asked - old(port.asked);
            turns >= 0 && Checked(raised, turns, end == ToldToStop) &&
            port.turn - old(port.turn) >= if end == StillWaiting then turns - 1 else turns
    ensures chip.calls == old(chip.calls) + |chip.received| + if end == WriteBroken then 1 else 0
  {
    var buf := new Octet[CAPACITY](_ => 0);
    var checks := 0;
    fExit := |raised| > 0 && raised[0];
    end := ToldToStop;
    while !fExit
      invariant port.Valid() && Between(Pc, port.input[..port.pos], chip.received)
      invariant end == ToldToStop && chip.calls == old(chip.calls) + |chip.received|
      invariant port.asked == old(port.asked) + checks && port.turn >= old(port.turn) + checks
      invariant Checked(raised, checks, fExit) && fExit == (checks < |raised| && raised[checks])
      decreases |port.answers| - port.turn, !fExit
    {
      var goesOn;
      goesOn, end := Turn(port, chip, buf);
      if !goesOn { return end != StillWaiting, end; }
      end := ToldToStop;
      checks := checks + 1;
      fExit := checks < |raised| && raised[checks];
    }
  }

  /** Chunking does not matter: of a stream of packets with strange octets between them, the
      chip has received the first packets in order.  It has received all of them if the whole
      stream has come in and no write failed; and the thread gives up in the middle of a packet
      only on a timeout or an error there. */
  lemma PacketsArriveInOrder(items: seq<Item>, pos: nat, got: seq<seq<Octet>>, end: End)
    requires ItemsOk(Pc, items, CAPACITY) && pos <= |Encoded(items)|
    requires PassedOn(Pc, Encoded(items)[..pos], got, end)
    ensures got <= PacketsOf(items)
    ensures pos == |Encoded(items)| && end in {StillWaiting, ToldToStop, ReadBroken} ==>
              got == PacketsOf(items) && end != ReadBroken
    ensures end == ReadBroken ==> FrontOf(Pc, Rest(Pc, Encoded(items)[..pos], CAPACITY), CAPACITY) == Partial
  {
    PartOfStream(Pc, items, Encoded(items)[..pos], CAPACITY);
    if end in {WriteBroken, StillWriting} {
      var p :| got + [p] == Relayed(Pc, Encoded(items)[..pos], CAPACITY);
      assert got <= got + [p];
    }
    if pos == |Encoded(items)| {
      EncodedComesBack(Pc, items, CAPACITY);
      assert Encoded(items)[..pos] == Encoded(items);
    }
  }

  /** The port never gives up. */
  predicate Patient(answers: seq<Answer>) {
    forall k :: 0 <= k < |answers| ==> answers[k] !in {SelectTimeout, SelectFailed, ReadFailed}
  }

  /** If nobody tells the thread to stop, the chip takes what it is given and the system offers
      octets often enough, then the chip receives every packet of the stream, and the thread
      waits for more; or it gives up inside a packet, on a timeout or an error there. */
  method MonitorDelivers(port: Port, chip: ChipInput, raised: seq<bool>, ghost items: seq<Item>)
    returns (fExit: bool, end: End)
    requires port.Valid() && port.pos == 0 && chip.received == []
    requires ItemsOk(Pc, items, CAPACITY) && port.input == Encoded(items)
    requires forall k :: 0 <= k < |raised| ==> !raised[k]
    requires forall k: nat :: chip.calls <= k < chip.calls + |PacketsOf(items)| ==> chip.Takes(k)
    requires Offers(port.answers) >= |port.input|
    modifies port`pos, port`turn, port`asked, chip
    ensures end in {StillWaiting, ReadBroken} && (Patient(port.answers) ==> end == StillWaiting)
    ensures end == StillWaiting ==> chip.received == PacketsOf(items) && port.pos == |port.input|
    ensures end == ReadBroken ==> GaveUp(port) && chip.received <= PacketsOf(items)
  {
    fExit, end := Monitor(port, chip, raised);
    PacketsArriveInOrder(items, port.pos, chip.received, end);
    if end == WriteBroken { NextIsThere(items, port.pos, chip.received); }
    assert port.answers[..|port.answers|] == port.answers;
  }

  lemma NextIsThere(items: seq<Item>, pos: nat, got: seq<seq<Octet>>)
    requires ItemsOk(Pc, items, CAPACITY) && pos <= |Encoded(items)|
    requires PassedOn(Pc, Encoded(items)[..pos], got, WriteBroken)
    ensures |got| < |PacketsOf(items)|
  {
    PartOfStream(Pc, items, Encoded(items)[..pos], CAPACITY);
  }
}
