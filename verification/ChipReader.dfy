/** The chip's side of the relay, EM_BT_read of bt_em.c: one packet from the chip, with the
    vendor's debug events dropped. */
module ChipReader {
  import opened H4
  import opened Relaying

  /** How many of some calls succeed. */
  ghost function Successes(calls: seq<bool>): nat {
    if calls == [] then 0 else Successes(calls[..|calls| - 1]) + if calls[|calls| - 1] then 1 else 0
  }

  lemma SuccessesNext(calls: seq<bool>, k: nat)
    requires k < |calls|
    ensures Successes(calls[..k + 1]) == Successes(calls[..k]) + if calls[k] then 1 else 0
  {
    assert calls[..k + 1][..k] == calls[..k];
  }

  /** bt_receive_data: everything the chip will ever send, and which calls succeed.  A call that
      fails takes nothing; one that asks for more than there will be does not come back; one
      that asks for nothing succeeds. */
  class ChipOutput {
    const input: seq<Octet>
    const succeeds: seq<bool>
    var pos: nat
    var calls: nat
    ghost var asked: nat   // calls of EM_BT_read

    constructor (input: seq<Octet>, succeeds: seq<bool>)
      ensures Valid() && pos == 0 && calls == 0 && this.input == input && this.succeeds == succeeds
    {
      this.input, this.succeeds, pos, calls := input, succeeds, 0, 0;
      asked := 0;
    }

    /** Every call that succeeded took something. */
    ghost predicate Valid()
      reads this
    {
      pos <= |input| && calls <= |succeeds| && Successes(succeeds[..calls]) <= pos
    }

    /** The last call failed. */
    ghost predicate Refused()
      reads this
    {
      0 < calls <= |succeeds| && !succeeds[calls - 1]
    }
  }

  /** bt_receive_data into the buffer behind the at octets already there. */
  method Receive(chip: ChipOutput, buf: array<Octet>, at: nat, len: nat, ghost start: nat) returns (o: Outcome)
    requires chip.Valid() && at + len <= buf.Length && chip.pos == start + at && Holds(buf[..], chip.input, start, at)
    modifies chip`pos, chip`calls, buf
    ensures chip.Valid() && Holds(buf[..], chip.input, start, chip.pos - start) && old(chip.calls) <= chip.calls
    ensures chip.pos == if o == Done then start + at + len else start + at
    ensures forall k :: 0 <= k < at ==> buf[k] == old(buf[k])
    ensures o != Waiting && len > 0 ==> chip.calls > old(chip.calls)
    ensures len == 0 ==> o == Done
    ensures o == Failed ==> chip.Refused()
    ensures o == Waiting ==> chip.calls == |chip.succeeds| || |chip.input| < start + at + len
  {
    if len == 0 { return Done; }
    if chip.calls == |chip.succeeds| { return Waiting; }
    SuccessesNext(chip.succeeds, chip.calls);
    if !chip.succeeds[chip.calls] {
      chip.calls := chip.calls + 1;
      return Failed;
    }
    if |chip.input| - chip.pos < len { return Waiting; }
    chip.calls := chip.calls + 1;
    ghost var was := buf[..];
    forall k | 0 <= k < len { buf[at + k] := chip.input[chip.pos + k]; }
    chip.pos := chip.pos + len;
    assert forall k :: 0 <= k < at ==> buf[k] == was[..at][k] == chip.input[start..start + at][k];
    o := Done;
  }

  /** Too little is to come for a packet whose first octets are there. */
  lemma Starves(chip: ChipOutput, buf: seq<Octet>, start: nat, n: nat, most: nat)
    requires chip.pos == start + n && 0 < n <= |buf| && Holds(buf, chip.input, start, n) && |buf| >= 5
    requires Known(Chip, buf[0]) && |chip.input| < start + most
    requires most <= HeaderSize(buf[0]) ||
             (n >= HeaderSize(buf[0]) && HeaderSize(buf[0]) + DataSize(buf) <= |buf| &&
              most <= HeaderSize(buf[0]) + DataSize(buf))
    ensures FrontOf(Chip, chip.input[start..], |buf|) == Partial
  {
    var s, c := chip.input[start..], chip.input[start..start + n];
    assert c[0] == buf[0] == s[0] && s[..n] == c;
    if n >= HeaderSize(buf[0]) {
      FrontInBuffer(Chip, buf, c);
      assert forall k :: 0 <= k < n ==> s[k] == c[k] == buf[k];
    }
  }

  /** A further part of a packet that begins at start, up to most octets of it. */
  method ReadPart(chip: ChipOutput, buf: array<Octet>, at: nat, most: nat, ghost start: nat) returns (r: Reading)
    requires chip.Valid() && buf.Length >= 5 && chip.pos == start + at && at > 0 && Known(Chip, buf[0])
    requires at <= most <= buf.Length && Holds(buf[..], chip.input, start, at)
    requires most <= HeaderSize(buf[0]) ||
             (at >= HeaderSize(buf[0]) && most == HeaderSize(buf[0]) + DataSize(buf[..]))
    modifies chip`pos, chip`calls, buf
    ensures chip.Valid() && old(chip.pos) <= chip.pos && old(chip.calls) <= chip.calls
    ensures Holds(buf[..], chip.input, start, chip.pos - start)
    ensures forall k :: 0 <= k < at ==> buf[k] == old(buf[k])
    ensures r == Got(most) || r == Broken(at) || r == Pending
    ensures chip.pos == if r.Got? then start + most else old(chip.pos)
    ensures r.Broken? ==> chip.Refused()
    ensures r.Pending? ==> chip.calls == |chip.succeeds| || FrontOf(Chip, chip.input[start..], buf.Length) == Partial
    ensures !r.Got? ==> FrontOf(Chip, chip.input[start..chip.pos], buf.Length) == Partial
  {
    var o := Receive(chip, buf, at, most - at, start);
    if o == Done { return Got(most); }
    FrontInBuffer(Chip, buf[..], chip.input[start..chip.pos]);
    if o == Waiting && |chip.input| < start + most { Starves(chip, buf[..], start, at, most); }
    r := if o == Failed then Broken(at) else Pending;
  }

  /** Lines 245-269, 271-296 and 298-322: header, length check and data of a packet whose kind
      is already in the buffer. */
  method ReadBody(chip: ChipOutput, buf: array<Octet>, header: nat, ghost start: nat) returns (r: Reading)
    requires chip.Valid() && buf.Length >= 5 && chip.pos == start + 1 && Holds(buf[..], chip.input, start, 1)
    requires Known(Chip, buf[0]) && header == HeaderSize(buf[0])
    modifies chip`pos, chip`calls, buf
    ensures chip.Valid() && start < chip.pos && old(chip.calls) <= chip.calls
    ensures !r.Nothing? && Explained(Chip, r, chip.input[start..chip.pos], buf[..])
    ensures r.Got? ==> chip.pos == start + r.size && Holds(buf[..], chip.input, start, r.size)
    ensures r.Pending? ==> chip.calls == |chip.succeeds| || FrontOf(Chip, chip.input[start..], buf.Length) == Partial
    ensures r.Broken? && FrontOf(Chip, chip.input[start..chip.pos], buf.Length) == Partial ==> chip.Refused()
  {
    r := ReadPart(chip, buf, 1, header, start);
    if !r.Got? { return; }
    FrontInBuffer(Chip, buf[..], chip.input[start..chip.pos]);
    var data: int := if buf[0] == ACL then (buf[3] as int) + 256 * (buf[4] as int) else buf[header - 1];
    if header + data > buf.Length { return Broken(header); }
    r := ReadPart(chip, buf, header, header + data, start);
    FrontInBuffer(Chip, buf[..], chip.input[start..chip.pos]);
  }

  /** Lines 228-328: three turns at the kind, then the packet it announces. */
  method ReadOne(chip: ChipOutput, buf: array<Octet>) returns (r: Reading)
    requires chip.Valid() && buf.Length >= 5 && forall k :: 0 <= k < buf.Length ==> buf[k] == 0
    modifies chip`pos, chip`calls, buf
    ensures chip.Valid() && old(chip.pos) <= chip.pos && old(chip.calls) <= chip.calls
    ensures Explained(Chip, r, chip.input[old(chip.pos)..chip.pos], buf[..])
    ensures !r.Pending? ==> chip.calls > old(chip.calls)
    ensures r.Got? ==> chip.input[old(chip.pos)..chip.pos] == buf[..r.size]
    ensures r.Pending? ==>
              chip.calls == |chip.succeeds| || FrontOf(Chip, chip.input[old(chip.pos)..], buf.Length) == Partial
    ensures r.Broken? && FrontOf(Chip, chip.input[old(chip.pos)..chip.pos], buf.Length) == Partial ==> chip.Refused()
  {
    ghost var start := chip.pos;
    var header := new Octet[1](_ => 0);
    var count := 0;
    var o := Receive(chip, header, 0, 1, start);
    while o == Failed && count < 2
      invariant chip.Valid() && 0 <= count <= 2 && old(chip.calls) <= chip.calls
      invariant chip.pos == if o == Done then start + 1 else start
      invariant Holds(header[..], chip.input, start, chip.pos - start)
      invariant o != Waiting ==> chip.calls > old(chip.calls)
      invariant o == Waiting ==> chip.calls == |chip.succeeds| || |chip.input| <= start
      invariant forall k :: 0 <= k < buf.Length ==> buf[k] == 0
    {
      count := count + 1;
      o := Receive(chip, header, 0, 1, start);
    }
    if o != Done {
      assert chip.input[start..chip.pos] == [];
      return if o == Failed then Nothing else Pending;
    }
    buf[0] := header[0];
    assert chip.input[start..chip.pos] == header[..][..1] == [header[0]];
    assert Holds(buf[..], chip.input, start, 1);
    match header[0] {
      case 0x04 => r := ReadBody(chip, buf, 3, start);
      case 0x02 => r := ReadBody(chip, buf, 5, start);
      case 0x03 => r := ReadBody(chip, buf, 4, start);
      case _ => r := Broken(1);
    }
  }

  /** A dropped debug event in front of what is read next. */
  lemma DropsOne(c: seq<Octet>, d: seq<Octet>, r: Reading, buf: seq<Octet>)
    requires Complete(Chip, c, |buf|) && Relayed(Chip, c, |buf|) == [] && Accounted(Chip, r, d, buf)
    ensures Accounted(Chip, r, c + d, buf) && Rest(Chip, c + d, |buf|) == Rest(Chip, d, |buf|)
  {
    RelayedComposes(Chip, c, d, |buf|);
  }

  /** Nothing more will be passed on of the stream from octet start on. */
  ghost predicate Exhausted(chip: ChipOutput, start: nat, capacity: nat)
    requires start <= |chip.input|
  {
    Relayed(Chip, chip.input[start..], capacity) == []
  }

  lemma StaysExhausted(chip: ChipOutput, start: nat, mid: nat, capacity: nat)
    requires start <= mid <= |chip.input|
    requires Complete(Chip, chip.input[start..mid], capacity) && Relayed(Chip, chip.input[start..mid], capacity) == []
    ensures Exhausted(chip, mid, capacity) ==> Exhausted(chip, start, capacity)
    ensures FrontOf(Chip, chip.input[mid..], capacity) == Partial ==> Exhausted(chip, start, capacity)
  {
    assert chip.input[start..] == chip.input[start..mid] + chip.input[mid..];
    RelayedComposes(Chip, chip.input[start..mid], chip.input[mid..], capacity);
  }

  /** Only debug events have been read so far. */
  ghost predicate OnlyDebug(c: seq<Octet>, capacity: nat) {
    Complete(Chip, c, capacity) && Relayed(Chip, c, capacity) == []
  }

  lemma OneMoreDebug(c: seq<Octet>, d: seq<Octet>, capacity: nat)
    requires OnlyDebug(c, capacity) && IsPacket(Chip, d, capacity) && IsDebug(d)
    ensures OnlyDebug(c + d, capacity)
  {
    OnePacket(Chip, d, capacity);
    RelayedComposes(Chip, c, d, capacity);
  }

  /** What EM_BT_read answers after the octets c, of which it has dropped all, and d. */
  lemma ReadEnds(c: seq<Octet>, d: seq<Octet>, r: Reading, buf: seq<Octet>)
    requires OnlyDebug(c, |buf|) && Explained(Chip, r, d, buf) && (r.Got? ==> !IsDebug(d))
    ensures Accounted(Chip, r, c + d, buf)
    ensures r.Broken? ==> Rest(Chip, c + d, |buf|) == d
  {
    ExplainedAccounts(Chip, r, d, buf);
    DropsOne(c, d, r, buf);
  }

  /** EM_BT_read (lines 203-345). */
  method Read(chip: ChipOutput, buf: array<Octet>) returns (r: Reading)
    requires chip.Valid() && buf.Length >= 5 && forall k :: 0 <= k < buf.Length ==> buf[k] == 0
    modifies chip`pos, chip`calls, chip`asked, buf
    ensures chip.asked == old(chip.asked) + 1
    ensures chip.Valid() && old(chip.pos) <= chip.pos && old(chip.calls) <= chip.calls
    ensures Accounted(Chip, r, chip.input[old(chip.pos)..chip.pos], buf[..])
    ensures !r.Pending? ==> chip.calls > old(chip.calls)
    ensures r.Pending? ==> chip.calls == |chip.succeeds| || Exhausted(chip, old(chip.pos), buf.Length)
    ensures r.Broken? &&
            FrontOf(Chip, Rest(Chip, chip.input[old(chip.pos)..chip.pos], buf.Length), buf.Length) == Partial ==>
              chip.Refused()
  {
    chip.asked := chip.asked + 1;
    ghost var start := chip.pos;
    assert chip.input[start..chip.pos] == [];
    while true
      invariant chip.Valid() && start <= chip.pos && old(chip.calls) <= chip.calls
      invariant chip.asked == old(chip.asked) + 1
      invariant OnlyDebug(chip.input[start..chip.pos], buf.Length)
      invariant forall k :: 0 <= k < buf.Length ==> buf[k] == 0
      decreases |chip.succeeds| - chip.calls
    {
      ghost var mid := chip.pos;
      r := ReadOne(chip, buf);
      ghost var c, d := chip.input[start..mid], chip.input[mid..chip.pos];
      assert c + d == chip.input[start..chip.pos];
      if !r.Got? || !(buf[0] == EVENT && buf[1] == DEBUG_EVENT) {
        ReadEnds(c, d, r, buf[..]);
        StaysExhausted(chip, start, mid, buf.Length);
        return;
      }
      OneMoreDebug(c, d, buf.Length);
      forall k | 0 <= k < buf.Length { buf[k] := 0; }
    }
  }
}
