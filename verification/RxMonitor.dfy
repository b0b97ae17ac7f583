/** The thread from the chip to the PC: bt_rx_monitor of bt_relayer.cpp, with the writes that
    the serial port may take piece by piece. */
module RxMonitor {
  import opened H4
  import opened Relaying
  import opened ChipReader

  /** What one write to the serial port comes to. */
  datatype Answer = WriteInterrupted | WriteFailed | Wrote(most: nat)

  /** How many of the answers take at least one octet, and how many octets they would take. */
  ghost function Takes(answers: seq<Answer>): nat {
    if answers == [] then 0
    else
      var last := answers[|answers| - 1];
      Takes(answers[..|answers| - 1]) + if last.Wrote? && last.most > 0 then 1 else 0
  }

  ghost function Octets(answers: seq<Answer>): nat {
    if answers == [] then 0
    else
      var last := answers[|answers| - 1];
      Octets(answers[..|answers| - 1]) + if last.Wrote? then last.most else 0
  }

  lemma NextAnswer(answers: seq<Answer>, i: nat, k: nat)
    requires i <= k < |answers|
    ensures Takes(answers[..k + 1]) == Takes(answers[..k]) + if answers[k].Wrote? && answers[k].most > 0 then 1 else 0
    ensures Octets(answers[i..k + 1]) == Octets(answers[i..k]) + if answers[k].Wrote? then answers[k].most else 0
  {
    assert answers[..k + 1][..k] == answers[..k];
    assert answers[i..k + 1][..k - i] == answers[i..k];
  }

  /** The sending end of the serial port: what the PC has received, and how the system will
      answer, turn by turn.  When the answers are used up the caller is still waiting. */
  class PcInput {
    var received: seq<Octet>
    const answers: seq<Answer>
    var turn: nat

    constructor (answers: seq<Answer>)
      ensures Valid() && received == [] && turn == 0 && this.answers == answers
    {
      this.answers, received, turn := answers, [], 0;
    }

    /** Every answer so far that would take octets was given some. */
    ghost predicate Valid()
      reads this
    {
      turn <= |answers| && Takes(answers[..turn]) <= |received|
    }

    /** The last answer was an error. */
    ghost predicate Refused()
      reads this
    {
      0 < turn <= |answers| && answers[turn - 1].WriteFailed?
    }

    /** The state of the write loop after the answers from number first on: done octets of out are
        gone. */
    ghost predicate WroteSoFar(first: nat, before: seq<Octet>, out: seq<Octet>, done: nat)
      reads this
    {
      Valid() && first <= turn && done <= |out| && received == before + out[..done] &&
      done == if |out| <= Octets(answers[first..turn]) then |out| else Octets(answers[first..turn])
    }

    /** Lines 166-174: one write. */
    method WriteSome(buf: array<Octet>, at: nat, rest: nat, ghost first: nat, ghost before: seq<Octet>)
      returns (n: nat)
      requires 0 < rest && at + rest <= buf.Length && turn < |answers|
      requires WroteSoFar(first, before, buf[..at + rest], at)
      modifies this
      ensures turn == old(turn) + 1 && n <= rest && WroteSoFar(first, before, buf[..at + rest], at + n)
      ensures !answers[old(turn)].Wrote? ==> n == 0
    {
      NextAnswer(answers, first, turn);
      var answer := answers[turn];
      turn := turn + 1;
      n := 0;
      if answer.Wrote? {
        n := if answer.most < rest then answer.most else rest;
        assert before + buf[..at] + buf[at..at + n] == before + buf[..at + n];
        received := received + buf[at..at + n];
      }
      assert buf[..at + rest][..at + n] == buf[..at + n] && buf[..at + rest][..at] == buf[..at];
    }

    /** write_data_to_pc (lines 155-178).  What the answers take is given, up to the end. */
    method WriteData(buf: array<Octet>, len: nat) returns (o: Outcome, ghost done: nat)
      requires Valid() && len <= buf.Length
      modifies this
      ensures Valid() && done <= len && received == old(received) + buf[..done]
      ensures old(turn) <= turn &&
              done == if len <= Octets(answers[old(turn)..turn]) then len else Octets(answers[old(turn)..turn])
      ensures o == Done <==> done == len
      ensures o == Failed ==> Refused()
      ensures o == Waiting ==> turn == |answers|
    {
      var rest := len;
      ghost var first, before := turn, received;
      assert buf[..len][..0] == [] && answers[first..turn] == [];
      while rest > 0
        invariant 0 <= rest <= len && WroteSoFar(first, before, buf[..len], len - rest)
        decreases |answers| - turn
      {
        assert buf[..len][..len - rest] == buf[..len - rest];
        if turn == |answers| { return Waiting, len - rest; }
        var failed := answers[turn].WriteFailed?;
        var n := WriteSome(buf, len - rest, rest, first, before);
        rest := rest - n;
        if failed { return Failed, len - rest; }
      }
      assert buf[..len][..len] == buf[..len];
      o, done := Done, len;
    }

    /** RELAYER_write (lines 242-264). */
    method Write(buf: array<Octet>, len: nat) returns (o: Outcome, ghost done: nat)
      requires Valid() && 0 < len <= buf.Length
      modifies this
      ensures Valid() && done <= len && received == old(received) + buf[..done]
      ensures o == Done <==> done == len
      ensures !WritableTo(Pc, buf[0]) ==> o == Failed && done == 0
      ensures o == Failed && WritableTo(Pc, buf[0]) ==> Refused()
      ensures o == Waiting ==> turn == |answers|
    {
      if buf[0] != 0x04 && buf[0] != 0x02 && buf[0] != 0x03 {
        assert buf[..0] == [];
        return Failed, 0;
      }
      o, done := WriteData(buf, len);
    }
  }

  /** What the PC has received: whole packets, and the beginning of one more where a write
      failed or has not come back. */
  ghost predicate Written(c: seq<Octet>, got: seq<seq<Octet>>, part: seq<Octet>, end: End, received: seq<Octet>) {
    PassedOn(Chip, c, got, end) && received == Flat(got) + part &&
    (part != [] ==> end in {WriteBroken, StillWriting} &&
                    exists p :: got + [p] == Relayed(Chip, c, CAPACITY) && part < p)
  }

  lemma EndsWriting(c: seq<Octet>, got: seq<seq<Octet>>, p: seq<Octet>, part: seq<Octet>, end: End,
                    received: seq<Octet>)
    requires Between(Chip, c, got + [p]) && part < p && received == Flat(got) + part &&
             end in {WriteBroken, StillWriting}
    ensures Written(c, got, part, end, received)
  {}

  lemma EndsReading(c: seq<Octet>, got: seq<seq<Octet>>, end: End)
    requires PassedOn(Chip, c, got, end)
    ensures Written(c, got, [], end, Flat(got))
  {
    assert Flat(got) + [] == Flat(got);
  }

  /** RELAYER_write of a packet read from the chip (line 504): all of it, or a part. */
  method Forward(pc: PcInput, buf: array<Octet>, n: nat, ghost got: seq<seq<Octet>>)
    returns (o: Outcome, ghost part: seq<Octet>)
    requires pc.Valid() && 0 < n <= buf.Length && pc.received == Flat(got)
    modifies pc
    ensures pc.Valid() && (o == Done ==> pc.received == Flat(got + [buf[..n]]))
    ensures o != Done ==> pc.received == Flat(got) + part && part < buf[..n]
    ensures o == Failed && WritableTo(Pc, buf[0]) ==> pc.Refused()
    ensures o == Waiting ==> pc.turn == |pc.answers|
  {
    ghost var done;
    o, done := pc.Write(buf, n);
    part := buf[..done];
    FlatAdds(got, [buf[..n]]);
    assert Flat([buf[..n]]) == buf[..n];
  }

  /** How the thread came to its end: waiting for the chip with no call left or nothing more to come,
      waiting for the PC with no answer left, on a call that failed inside a packet, or on a write
      that failed. */
  ghost predicate EndsFor(end: End, chip: ChipOutput, pc: PcInput)
    requires chip.Valid()
    reads chip, pc
  {
    match end
    case StillWaiting =>
      chip.calls == |chip.succeeds| ||
      Relayed(Chip, chip.input[..chip.pos], CAPACITY) == Relayed(Chip, chip.input, CAPACITY)
    case ReadBroken =>
      FrontOf(Chip, Rest(Chip, chip.input[..chip.pos], CAPACITY), CAPACITY) == Partial ==> chip.Refused()
    case StillWriting => pc.turn == |pc.answers|
    case WriteBroken => pc.Refused()
    case _ => false
  }

  /** With nothing more to come from octet pos on, all has been passed on. */
  lemma AllPassedOn(chip: ChipOutput, pos: nat, now: nat)
    requires pos <= now <= |chip.input| && Complete(Chip, chip.input[..pos], CAPACITY)
    requires Exhausted(chip, pos, CAPACITY) && Relayed(Chip, chip.input[pos..now], CAPACITY) == []
    ensures Relayed(Chip, chip.input[..now], CAPACITY) == Relayed(Chip, chip.input, CAPACITY)
  {
    assert chip.input == chip.input[..pos] + chip.input[pos..];
    assert chip.input[..now] == chip.input[..pos] + chip.input[pos..now];
    RelayedComposes(Chip, chip.input[..pos], chip.input[pos..], CAPACITY);
    RelayedComposes(Chip, chip.input[..pos], chip.input[pos..now], CAPACITY);
  }

  /** Lines 504-510: the packet read is passed on, and the thread goes on or ends. */
  method PassOn(chip: ChipOutput, pc: PcInput, buf: array<Octet>, n: nat, ghost got: seq<seq<Octet>>)
    returns (goesOn: bool, end: End, ghost part: seq<Octet>)
    requires chip.Valid() && pc.Valid() && 0 < n <= buf.Length && Known(Chip, buf[0])
    requires Between(Chip, chip.input[..chip.pos], got + [buf[..n]]) && pc.received == Flat(got)
    modifies pc
    ensures pc.Valid() && (goesOn ==> pc.received == Flat(got + [buf[..n]]))
    ensures !goesOn ==> Written(chip.input[..chip.pos], got, part, end, pc.received) && EndsFor(end, chip, pc)
  {
    var o;
    o, part := Forward(pc, buf, n, got);
    goesOn := o == Done;
    end := if o == Failed then WriteBroken else StillWriting;
    if !goesOn { EndsWriting(chip.input[..chip.pos], got, buf[..n], part, end, pc.received); }
  }

  lemma PendingEnds(chip: ChipOutput, pc: PcInput, pos: nat)
    requires chip.Valid() && pos <= chip.pos && Complete(Chip, chip.input[..pos], CAPACITY)
    requires Relayed(Chip, chip.input[pos..chip.pos], CAPACITY) == []
    requires chip.calls == |chip.succeeds| || Exhausted(chip, pos, CAPACITY)
    ensures EndsFor(StillWaiting, chip, pc)
  {
    if Exhausted(chip, pos, CAPACITY) { AllPassedOn(chip, pos, chip.pos); }
  }

  /** What a call of the reader that began at octet pos means for the thread. */
  ghost predicate Reads(chip: ChipOutput, pc: PcInput, got: seq<seq<Octet>>, r: Reading, buf: seq<Octet>)
    requires chip.Valid()
    reads chip, pc
  {
    var c := chip.input[..chip.pos];
    match r
    case Got(n) => 0 < n <= |buf| && Known(Chip, buf[0]) && Between(Chip, c, got + [buf[..n]])
    case Nothing => Between(Chip, c, got)
    case Broken(_) => PassedOn(Chip, c, got, ReadBroken) && EndsFor(ReadBroken, chip, pc)
    case Pending => PassedOn(Chip, c, got, StillWaiting) && EndsFor(StillWaiting, chip, pc)
  }

  lemma ReadsOn(chip: ChipOutput, pc: PcInput, pos: nat, got: seq<seq<Octet>>, r: Reading, buf: seq<Octet>)
    requires chip.Valid() && pos <= chip.pos && |buf| == CAPACITY && Between(Chip, chip.input[..pos], got)
    requires chip.input[..pos] + chip.input[pos..chip.pos] == chip.input[..chip.pos]
    requires Accounted(Chip, r, chip.input[pos..chip.pos], buf)
    requires r.Pending? ==> chip.calls == |chip.succeeds| || Exhausted(chip, pos, CAPACITY)
    requires r.Broken? && FrontOf(Chip, Rest(Chip, chip.input[pos..chip.pos], CAPACITY), CAPACITY) == Partial ==>
               chip.Refused()
    ensures Reads(chip, pc, got, r, buf)
  {
    TakesMore(Chip, chip.input[..pos], got, chip.input[pos..chip.pos], r, buf);
    if r.Pending? { PendingEnds(chip, pc, pos); }
  }

  /** Lines 492-496: the buffer is cleared and the next packet read; pc only tells what the thread
      would end for. */
  method ReadNext(chip: ChipOutput, buf: array<Octet>, ghost pc: PcInput, ghost got: seq<seq<Octet>>)
    returns (r: Reading)
    requires chip.Valid() && buf.Length == CAPACITY && Between(Chip, chip.input[..chip.pos], got)
    modifies chip`pos, chip`calls, chip`asked, buf
    ensures chip.asked == old(chip.asked) + 1
    ensures chip.Valid() && old(chip.pos) <= chip.pos && old(chip.calls) <= chip.calls
    ensures !r.Pending? ==> chip.calls > old(chip.calls)
    ensures Reads(chip, pc, got, r, buf[..])
  {
    forall k | 0 <= k < buf.Length { buf[k] := 0; }
    ghost var pos := chip.pos;
    r := Read(chip, buf);
    assert chip.input[..pos] + chip.input[pos..chip.pos] == chip.input[..chip.pos];
    ReadsOn(chip, pc, pos, got, r, buf[..]);
  }

  /** One turn of the loop (lines 492-519): it goes on, or it ends as said. */
  method Turn(chip: ChipOutput, pc: PcInput, buf: array<Octet>, ghost got: seq<seq<Octet>>)
    returns (goesOn: bool, end: End, ghost more: seq<seq<Octet>>, ghost part: seq<Octet>)
    requires chip.Valid() && pc.Valid() && buf.Length == CAPACITY
    requires Between(Chip, chip.input[..chip.pos], got) && pc.received == Flat(got)
    modifies chip`pos, chip`calls, chip`asked, pc, buf
    ensures chip.asked == old(chip.asked) + 1
    ensures chip.Valid() && pc.Valid() && old(chip.pos) <= chip.pos
    ensures goesOn ==> Between(Chip, chip.input[..chip.pos], more) && pc.received == Flat(more)
    ensures if goesOn || end != StillWaiting then chip.calls > old(chip.calls) else chip.calls >= old(chip.calls)
    ensures !goesOn ==> Written(chip.input[..chip.pos], more, part, end, pc.received) && EndsFor(end, chip, pc)
  {
    var r := ReadNext(chip, buf, pc, got);
    more, part, end, goesOn := got, [], ReadBroken, true;
    match r {
      case Got(n) =>
        assert buf[..][..n] == buf[..n];
        goesOn, end, part := PassOn(chip, pc, buf, n, got);
        more := if goesOn then got + [buf[..n]] else got;
      case Nothing =>
      case Broken(_) =>
        EndsReading(chip.input[..chip.pos], got, ReadBroken);
        goesOn := false;
      case Pending =>
        EndsReading(chip.input[..chip.pos], got, StillWaiting);
        goesOn, end := false, StillWaiting;
    }
  }

  /** bt_rx_monitor (lines 486-522). */
  method Monitor(chip: ChipOutput, pc: PcInput, raised: seq<bool>)
    returns (fExit: bool, end: End, ghost got: seq<seq<Octet>>, ghost part: seq<Octet>)
    requires chip.Valid() && chip.pos == 0 && pc.Valid() && pc.received == []
    modifies chip`pos, chip`calls, chip`asked, pc
    ensures chip.Valid() && pc.Valid() && Written(chip.input[..chip.pos], got, part, end, pc.received)
    ensures fExit <==> end !in {StillWaiting, StillWriting}
    ensures end != ToldToStop ==> EndsFor(end, chip, pc)
    ensures var turns := chip.asked - old(chip.asked);
            turns >= 0 && Checked(raised, turns, end == ToldToStop) &&
            chip.calls - old(chip.calls) >= if end == StillWaiting then turns - 1 else turns
  {
    var buf := new Octet[CAPACITY](_ => 0);
    var checks := 0;
    fExit := |raised| > 0 && raised[0];
    end, got, part := ToldToStop, [], [];
    while !fExit
      invariant chip.Valid() && pc.Valid() && end == ToldToStop && part == []
      invariant chip.asked == old(chip.asked) + checks && chip.calls >= old(chip.calls) + checks
      invariant Checked(raised, checks, fExit) && fExit == (checks < |raised| && raised[checks])
      invariant Between(Chip, chip.input[..chip.pos], got) && pc.received == Flat(got)
      decreases |chip.succeeds| - chip.calls, !fExit
    {
      var goesOn;
      goesOn, end, got, part := Turn(chip, pc, buf, got);
      if !goesOn { return end !in {StillWaiting, StillWriting}, end, got, part; }
      end, part := ToldToStop, [];
      checks := checks + 1;
      fExit := checks < |raised| && raised[checks];
    }
    assert Flat(got) + [] == Flat(got);
  }

  // ---------- the relay as a filter ----------

  lemma FlatPrefix(a: seq<seq<Octet>>, b: seq<seq<Octet>>)
    requires a <= b
    ensures Flat(a) <= Flat(b)
  {
    FlatAdds(a, b[|a|..]);
    assert a + b[|a|..] == b;
  }

  /** Of a stream of the chip's packets the PC has received, at any time, the first octets of
      those packets that are not debug events, and all of them once the whole stream is read
      and every write came through. */
  lemma RelayIsFilter(items: seq<Item>, pos: nat, got: seq<seq<Octet>>, part: seq<Octet>, end: End,
                      received: seq<Octet>)
    requires ItemsOk(Chip, items, CAPACITY) && pos <= |Encoded(items)|
    requires Written(Encoded(items)[..pos], got, part, end, received)
    ensures received <= Flat(PacketsOf(items))
    ensures pos == |Encoded(items)| && end !in {WriteBroken, StillWriting} ==> received == Flat(PacketsOf(items))
  {
    var c := Encoded(items)[..pos];
    PartOfStream(Chip, items, c, CAPACITY);
    FlatPrefix(Relayed(Chip, c, CAPACITY), PacketsOf(items));
    assert part == [] ==> Flat(got) + part == Flat(got);
    if end in {WriteBroken, StillWriting} {
      PartBehindWhole(c, got, part, end, received);
    }
    if pos == |Encoded(items)| {
      EncodedComesBack(Chip, items, CAPACITY);
      assert c == Encoded(items);
    }
  }

  lemma PartBehindWhole(c: seq<Octet>, got: seq<seq<Octet>>, part: seq<Octet>, end: End, received: seq<Octet>)
    requires Written(c, got, part, end, received) && end in {WriteBroken, StillWriting}
    ensures received <= Flat(Relayed(Chip, c, CAPACITY))
  {
    var p: seq<Octet> :| got + [p] == Relayed(Chip, c, CAPACITY) && part <= p;
    FlatAdds(got, [p]);
    assert Flat([p]) == p;
  }

  /** If nobody tells the thread to stop, the chip's calls succeed often enough and the PC's end takes
      octets often enough, neither ever failing, then the PC receives all packets of the stream but
      the debug events, and the thread waits for more. */
  method MonitorDelivers(chip: ChipOutput, pc: PcInput, raised: seq<bool>, ghost items: seq<Item>)
    returns (fExit: bool, end: End)
    requires chip.Valid() && chip.pos == 0 && pc.Valid() && pc.received == []
    requires ItemsOk(Chip, items, CAPACITY) && chip.input == Encoded(items)
    requires forall k :: 0 <= k < |raised| ==> !raised[k]
    requires Successes(chip.succeeds) >= |chip.input|
    requires Takes(pc.answers) >= |Flat(PacketsOf(items))|
    modifies chip`pos, chip`calls, chip`asked, pc
    ensures end == ReadBroken ==> chip.Refused()
    ensures end == WriteBroken ==> pc.Refused()
    ensures end !in {ReadBroken, WriteBroken} ==> end == StillWaiting && pc.received == Flat(PacketsOf(items))
    ensures pc.received <= Flat(PacketsOf(items))
  {
    ghost var got, part;
    fExit, end, got, part := Monitor(chip, pc, raised);
    ghost var c := chip.input[..chip.pos];
    RelayIsFilter(items, chip.pos, got, part, end, pc.received);
    PartOfStream(Chip, items, c, CAPACITY);
    EncodedComesBack(Chip, items, CAPACITY);
    if end == StillWaiting {
      assert chip.succeeds[..|chip.succeeds|] == chip.succeeds;
      assert chip.pos == |chip.input| ==> c == chip.input;
      assert Flat(got) + [] == Flat(got);
    }
    if end == StillWriting {
      assert pc.answers[..|pc.answers|] == pc.answers;
      PartIsNotAll(items, c, got, part, end, pc.received);
    }
  }

  lemma PartIsNotAll(items: seq<Item>, c: seq<Octet>, got: seq<seq<Octet>>, part: seq<Octet>, end: End,
                     received: seq<Octet>)
    requires Written(c, got, part, end, received) && end == StillWriting
    requires Relayed(Chip, c, CAPACITY) <= PacketsOf(items)
    ensures |received| < |Flat(PacketsOf(items))|
  {
    var p: seq<Octet> :| got + [p] == Relayed(Chip, c, CAPACITY);
    assert p == Relayed(Chip, c, CAPACITY)[|got|];
    NoneIsEmpty(Chip, c, CAPACITY, |got|);
    FlatAdds(got, [p]);
    assert Flat([p]) == p;
    FlatPrefix(Relayed(Chip, c, CAPACITY), PacketsOf(items));
  }
}
