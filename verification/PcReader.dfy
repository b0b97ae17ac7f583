/** The PC's side of the relay, bt_relayer.cpp: reading exactly so many octets from the serial
    port, whatever pieces they arrive in, and reading one packet. */
module PcReader {
  import opened H4
  import opened Relaying

  /** What one turn of the read loop meets: select and read as the system may answer. */
  datatype Answer = SelectTimeout | SelectInterrupted | SelectFailed
                  | ReadInterrupted | ReadFailed | Bytes(most: nat)

  /** How many of the answers offer at least one octet. */
  ghost function Offers(answers: seq<Answer>): nat {
    if answers == [] then 0
    else
      var last := answers[|answers| - 1];
      Offers(answers[..|answers| - 1]) + if last.Bytes? && last.most > 0 then 1 else 0
  }

  lemma OffersNext(answers: seq<Answer>, k: nat)
    requires k < |answers|
    ensures Offers(answers[..k + 1]) ==
            Offers(answers[..k]) + if answers[k].Bytes? && answers[k].most > 0 then 1 else 0
  {
    assert answers[..k + 1][..k] == answers[..k];
  }

  /** How many octets some answers offer. */
  ghost function Octets(answers: seq<Answer>): nat {
    if answers == [] then 0
    else
      var last := answers[|answers| - 1];
      Octets(answers[..|answers| - 1]) + if last.Bytes? then last.most else 0
  }

  lemma OctetsNext(answers: seq<Answer>, i: nat, k: nat)
    requires i <= k < |answers|
    ensures Octets(answers[i..k + 1]) == Octets(answers[i..k]) + if answers[k].Bytes? then answers[k].most else 0
  {
    assert answers[i..k + 1][..k - i] == answers[i..k];
  }

  /** The least of three numbers. */
  function Least(a: int, b: int, c: int): int {
    if a <= b && a <= c then a else if b <= c then b else c
  }

  /** The receiving end of the serial port: everything the PC will ever send, and how the
      system will answer, turn by turn.  When the answers are used up the caller is still
      waiting. */
  class Port {
    const input: seq<Octet>
    const answers: seq<Answer>
    var pos: nat
    var turn: nat
    ghost var asked: nat   // calls of RELAYER_read

    constructor (input: seq<Octet>, answers: seq<Answer>)
      ensures Valid() && pos == 0 && turn == 0 && this.input == input && this.answers == answers
    {
      this.input, this.answers, pos, turn := input, answers, 0, 0;
      asked := 0;
    }

    /** Every offer so far was taken up, as long as there was anything to take. */
    ghost predicate Valid()
      reads this
    {
      pos <= |input| && turn <= |answers| && (pos == |input| || Offers(answers[..turn]) <= pos)
    }
  }

  /** The last turn was a timeout or an error: read_data_from_pc gave up. */
  ghost predicate GaveUp(port: Port)
    reads port
  {
    0 < port.turn <= |port.answers| && port.answers[port.turn - 1] in {SelectTimeout, SelectFailed, ReadFailed}
  }

  /** now is was with got octets of the stream from pos on put at index at. */
  ghost predicate Filled(was: seq<Octet>, now: seq<Octet>, at: nat, input: seq<Octet>, pos: nat, got: nat) {
    |now| == |was| && at + got <= |was| && pos + got <= |input| &&
    (forall k :: 0 <= k < |was| && !(at <= k < at + got) ==> now[k] == was[k]) &&
    (forall k :: at <= k < at + got ==> now[k] == input[pos + (k - at)])
  }

  /** read: at most want octets into buf, at least what is there. */
  method Receive(port: Port, most: nat, buf: array<Octet>, at: nat, want: nat) returns (n: nat)
    requires port.pos <= |port.input| && at + want <= buf.Length
    modifies port`pos, buf
    ensures n <= want && port.pos == old(port.pos) + n <= |port.input|
    ensures n == Least(want, most, |port.input| - old(port.pos))
    ensures Filled(old(buf[..]), buf[..], at, port.input, old(port.pos), n)
  {
    n := 0;
    while n < want && n < most && port.pos < |port.input|
      invariant n <= want && n <= most && port.pos == old(port.pos) + n <= |port.input|
      invariant Filled(old(buf[..]), buf[..], at, port.input, old(port.pos), n)
    {
      buf[at + n] := port.input[port.pos];
      n, port.pos := n + 1, port.pos + 1;
    }
  }

  /** The state of the read loop after the answers from number turn on: got octets have come. */
  ghost predicate ReadSoFar(port: Port, turn: nat, start: nat, len: nat, got: nat)
    reads port
  {
    port.Valid() && turn <= port.turn && start <= port.pos == start + got && got <= len &&
    got == Least(len, |port.input| - start, Octets(port.answers[turn..port.turn])) &&
    (got > 0 ==> port.turn > turn)
  }

  lemma LeastMore(len: int, there: int, offered: int, most: nat, got: int)
    requires got == Least(len, there, offered)
    ensures got + Least(len - got, most, there - got) == Least(len, there, offered + most)
  {}

  /** An answer that brings no octets. */
  method Skip(port: Port, ghost turn: nat, ghost start: nat, ghost len: nat, ghost got: nat)
    requires ReadSoFar(port, turn, start, len, got)
    requires port.turn < |port.answers| && !port.answers[port.turn].Bytes?
    modifies port`turn
    ensures ReadSoFar(port, turn, start, len, got) && port.turn == old(port.turn) + 1
  {
    OffersNext(port.answers, port.turn);
    OctetsNext(port.answers, turn, port.turn);
    port.turn := port.turn + 1;
  }

  /** Lines 216-226: read brings some octets. */
  method Take(port: Port, buf: array<Octet>, at: nat, rest: nat, ghost turn: nat, ghost start: nat, ghost len: nat)
    returns (n: nat)
    requires 0 < rest <= len && ReadSoFar(port, turn, start, len, len - rest) && at + rest <= buf.Length
    requires port.turn < |port.answers| && port.answers[port.turn].Bytes?
    modifies port`pos, port`turn, buf
    ensures n <= rest && ReadSoFar(port, turn, start, len, len - rest + n) && port.turn == old(port.turn) + 1
    ensures Filled(old(buf[..]), buf[..], at, port.input, old(port.pos), n)
  {
    OffersNext(port.answers, port.turn);
    OctetsNext(port.answers, turn, port.turn);
    var most := port.answers[port.turn].most;
    LeastMore(len, |port.input| - start, Octets(port.answers[turn..port.turn]), most, len - rest);
    n := Receive(port, most, buf, at, rest);
    port.turn := port.turn + 1;
  }

  /** read_data_from_pc (lines 192-240): an interruption is tried again, a timeout gives up.  What
      the answers offer is taken, up to what is asked for and what there is. */
  method ReadData(port: Port, buf: array<Octet>, at: nat, len: nat) returns (r: Outcome)
    requires port.Valid() && at + len <= buf.Length
    modifies port`pos, port`turn, buf
    ensures port.Valid() && old(port.pos) <= port.pos <= old(port.pos) + len && old(port.turn) <= port.turn
    ensures Filled(old(buf[..]), buf[..], at, port.input, old(port.pos), port.pos - old(port.pos))
    ensures port.pos - old(port.pos) ==
            Least(len, |port.input| - old(port.pos), Octets(port.answers[old(port.turn)..port.turn]))
    ensures r == Done <==> port.pos == old(port.pos) + len
    ensures r != Waiting && len > 0 ==> port.turn > old(port.turn)
    ensures r == Waiting ==> port.turn == |port.answers|
    ensures r == Failed ==> GaveUp(port)
  {
    ghost var was, turn, start := buf[..], port.turn, port.pos;
    var rest := len;
    assert port.answers[turn..turn] == [];
    while rest > 0
      invariant 0 <= rest <= len && ReadSoFar(port, turn, start, len, len - rest)
      invariant Filled(was, buf[..], at, port.input, start, len - rest)
      decreases |port.answers| - port.turn
    {
      if port.turn == |port.answers| { return Waiting; }
      var answer := port.answers[port.turn];
      if answer.Bytes? {
        ghost var before := buf[..];
        var n := Take(port, buf, at + (len - rest), rest, turn, start, len);
        FilledOn(was, before, buf[..], at, port.input, start, len - rest, n);
        rest := rest - n;
      } else {
        Skip(port, turn, start, len, len - rest);
        if answer != SelectInterrupted && answer != ReadInterrupted { return Failed; }
      }
    }
    r := Done;
  }

  lemma FilledOn(was: seq<Octet>, mid: seq<Octet>, now: seq<Octet>, at: nat, input: seq<Octet>, pos: nat, a: nat,
                 b: nat)
    requires Filled(was, mid, at, input, pos, a) && Filled(mid, now, at + a, input, pos + a, b)
    ensures Filled(was, now, at, input, pos, a + b)
  {}

  lemma FilledHolds(was: seq<Octet>, now: seq<Octet>, input: seq<Octet>, start: nat, n: nat, got: nat)
    requires Holds(was, input, start, n) && Filled(was, now, n, input, start + n, got)
    ensures Holds(now, input, start, n + got)
  {
    assert forall k :: 0 <= k < n ==> was[..n][k] == input[start..start + n][k];
    assert forall k :: 0 <= k < n ==> now[k] == input[start + k];
  }

  /** A further part of a packet that begins at start. */
  method ReadPart(port: Port, buf: array<Octet>, at: nat, len: nat, ghost start: nat) returns (r: Outcome)
    requires port.Valid() && at + len <= buf.Length && port.pos == start + at && Holds(buf[..], port.input, start, at)
    modifies port`pos, port`turn, buf
    ensures port.Valid() && old(port.turn) <= port.turn && start + at <= port.pos <= start + at + len
    ensures Holds(buf[..], port.input, start, port.pos - start)
    ensures forall k :: 0 <= k < at ==> buf[k] == old(buf[k])
    ensures r == Done <==> port.pos == start + at + len
    ensures r == Waiting ==> port.turn == |port.answers|
    ensures r == Failed ==> GaveUp(port)
    ensures r != Waiting && len > 0 ==> port.turn > old(port.turn)
  {
    ghost var was := buf[..];
    r := ReadData(port, buf, at, len);
    FilledHolds(was, buf[..], port.input, start, at, port.pos - (start + at));
  }

  /** Lines 295-319, 321-346 and 348-372: the header's other octets, the length check and the
      data.  header is the header's size with the kind, which is already in the buffer. */
  method ReadBody(port: Port, buf: array<Octet>, header: nat, ghost start: nat) returns (r: Reading)
    requires port.Valid() && buf.Length >= 5 && port.pos == start + 1 && Holds(buf[..], port.input, start, 1)
    requires Known(Pc, buf[0]) && header == HeaderSize(buf[0])
    modifies port`pos, port`turn, buf
    ensures port.Valid() && start < port.pos && old(port.turn) <= port.turn
    ensures !r.Nothing? && Explained(Pc, r, port.input[start..port.pos], buf[..])
    ensures r.Pending? ==> port.turn == |port.answers|
    ensures r.Broken? && FrontOf(Pc, port.input[start..port.pos], buf.Length) == Partial ==> GaveUp(port)
  {
    ghost var kind := buf[0];
    var o := ReadPart(port, buf, 1, header - 1, start);
    FrontInBuffer(Pc, buf[..], port.input[start..port.pos]);
    if o != Done { return if o == Failed then Broken(1) else Pending; }
    var data: int := if buf[0] == ACL then (buf[3] as int) + 256 * (buf[4] as int) else buf[header - 1];
    if header + data > buf.Length { return Broken(header); }
    o := ReadPart(port, buf, header, data, start);
    FrontInBuffer(Pc, buf[..], port.input[start..port.pos]);
    if o != Done { return if o == Failed then Broken(header) else Pending; }
    r := Got(header + data);
  }

  /** RELAYER_read (lines 266-381): three turns at the kind, then the packet it announces. */
  method RelayerRead(port: Port, buf: array<Octet>) returns (r: Reading)
    requires port.Valid() && buf.Length >= 5 && forall k :: 0 <= k < buf.Length ==> buf[k] == 0
    modifies port`pos, port`turn, port`asked, buf
    ensures port.asked == old(port.asked) + 1
    ensures port.Valid() && old(port.pos) <= port.pos && old(port.turn) <= port.turn
    ensures Explained(Pc, r, port.input[old(port.pos)..port.pos], buf[..])
    ensures if r.Pending? then port.turn == |port.answers| else port.turn > old(port.turn)
    ensures r.Broken? && FrontOf(Pc, port.input[old(port.pos)..port.pos], buf.Length) == Partial ==> GaveUp(port)
  {
    port.asked := port.asked + 1;
    ghost var start := port.pos;
    var header := new Octet[1](_ => 0);
    var count := 0;
    var o := ReadData(port, header, 0, 1);
    while o == Failed && count < 2
      invariant port.Valid() && 0 <= count <= 2 && old(port.turn) <= port.turn && start <= port.pos
      invariant port.asked == old(port.asked) + 1
      invariant o == Done ==> port.pos == start + 1 && header[0] == port.input[start]
      invariant o != Done ==> port.pos == start
      invariant if o == Waiting then port.turn == |port.answers| else port.turn > old(port.turn)
      invariant forall k :: 0 <= k < buf.Length ==> buf[k] == 0
    {
      count := count + 1;
      o := ReadData(port, header, 0, 1);
    }
    if o != Done {
      assert port.input[start..port.pos] == [];
      return if o == Failed then Nothing else Pending;
    }
    buf[0] := header[0];
    assert port.input[start..port.pos] == [header[0]];
    assert Holds(buf[..], port.input, start, 1);
    match header[0] {
      case 0x01 => r := ReadBody(port, buf, 4, start);
      case 0x02 => r := ReadBody(port, buf, 5, start);
      case 0x03 => r := ReadBody(port, buf, 4, start);
      case _ => r := Nothing;
    }
  }
}
