/** The packets of the HCI UART transport as bt_relayer.cpp and bt_em.c read them: one octet
    tells the kind (Bluetooth Core Specification, Volume 4 Part A, section 2), then comes a
    header with a length and then so many octets (Volume 4 Part E, section 5.4). */
module H4 {

  type Octet = b: int | 0 <= b < 256

  const COMMAND: Octet := 0x01
  const ACL: Octet := 0x02
  const SCO: Octet := 0x03
  const EVENT: Octet := 0x04
  const DEBUG_EVENT: Octet := 0xE0

  /** Who sends: the PC (commands and data) or the chip (events and data). */
  datatype Sender = Pc | Chip

  /** The kinds the reader on this side knows. */
  predicate Known(from: Sender, kind: Octet) {
    kind == ACL || kind == SCO || kind == (if from == Pc then COMMAND else EVENT)
  }

  /** Octets before the data, with the kind. */
  function HeaderSize(kind: Octet): (n: nat)
    ensures 3 <= n <= 5
  {
    if kind == ACL then 5 else if kind == EVENT then 3 else 4
  }

  /** The length field of a complete header. */
  function DataSize(s: seq<Octet>): nat
    requires |s| > 0 && |s| >= HeaderSize(s[0])
  {
    if s[0] == ACL then (s[3] as int) + 256 * (s[4] as int) else s[HeaderSize(s[0]) - 1]
  }

  /** What stands at the front of a stream. */
  datatype Front = Partial | Strange | TooLong | Whole(size: nat)

  function FrontOf(from: Sender, s: seq<Octet>, capacity: nat): (f: Front)
    ensures f.Whole? ==> 0 < f.size <= |s| && f.size <= capacity
  {
    if s == [] then Partial
    else if !Known(from, s[0]) then Strange
    else if |s| < HeaderSize(s[0]) then Partial
    else
      var n := HeaderSize(s[0]) + DataSize(s);
      if n > capacity then TooLong else if |s| < n then Partial else Whole(n)
  }

  /** One packet and nothing else. */
  predicate IsPacket(from: Sender, s: seq<Octet>, capacity: nat) {
    FrontOf(from, s, capacity) == Whole(|s|)
  }

  /** A vendor debug event. */
  predicate IsDebug(p: seq<Octet>) {
    |p| >= 2 && p[0] == EVENT && p[1] == DEBUG_EVENT
  }

  /** How many octets the reader deals with at once: a packet, or one strange octet of the PC's
      stream.  Zero where it cannot go on. */
  function StepSize(from: Sender, s: seq<Octet>, capacity: nat): (n: nat)
    ensures n <= |s|
  {
    match FrontOf(from, s, capacity)
    case Whole(n) => n
    case Strange => if from == Pc then 1 else 0
    case _ => 0
  }

  /** What goes on from that step: a packet that is not a debug event. */
  function StepYield(from: Sender, s: seq<Octet>, capacity: nat): seq<seq<Octet>> {
    var f := FrontOf(from, s, capacity);
    if f.Whole? && !IsDebug(s[..f.size]) then [s[..f.size]] else []
  }

  /** The packets that go on from a stream, up to where its reader gives up. */
  function Relayed(from: Sender, s: seq<Octet>, capacity: nat): seq<seq<Octet>> {
    var n := StepSize(from, s, capacity);
    if n == 0 then [] else StepYield(from, s, capacity) + Relayed(from, s[n..], capacity)
  }

  /** What is left of the stream where its reader cannot go on: a packet begun, or an octet or
      a length it does not accept. */
  function Rest(from: Sender, s: seq<Octet>, capacity: nat): (r: seq<Octet>)
    ensures StepSize(from, r, capacity) == 0
  {
    var n := StepSize(from, s, capacity);
    if n == 0 then s else Rest(from, s[n..], capacity)
  }

  /** The stream consists of whole packets (and octets to be skipped): nothing is begun. */
  predicate Complete(from: Sender, s: seq<Octet>, capacity: nat) {
    |Rest(from, s, capacity)| == 0
  }

  function Flat(ps: seq<seq<Octet>>): seq<Octet> {
    if ps == [] then [] else ps[0] + Flat(ps[1..])
  }

  lemma {:induction false} FlatAdds(a: seq<seq<Octet>>, b: seq<seq<Octet>>)
    ensures Flat(a + b) == Flat(a) + Flat(b)
  {
    if a == [] {
      assert a + b == b;
    } else {
      assert (a + b)[1..] == a[1..] + b;
      FlatAdds(a[1..], b);
    }
  }

  /** A front that is decided is not changed by what follows. */
  lemma FrontDecided(from: Sender, a: seq<Octet>, b: seq<Octet>, capacity: nat)
    requires FrontOf(from, a, capacity) != Partial
    ensures FrontOf(from, a + b, capacity) == FrontOf(from, a, capacity)
  {
    assert (a + b)[0] == a[0];
    if Known(from, a[0]) { assert DataSize(a + b) == DataSize(a); }
  }

  lemma StepDecided(from: Sender, a: seq<Octet>, b: seq<Octet>, capacity: nat)
    requires StepSize(from, a, capacity) > 0
    ensures StepSize(from, a + b, capacity) == StepSize(from, a, capacity)
    ensures StepYield(from, a + b, capacity) == StepYield(from, a, capacity)
    ensures (a + b)[StepSize(from, a, capacity)..] == a[StepSize(from, a, capacity)..] + b
  {
    FrontDecided(from, a, b, capacity);
    var n := StepSize(from, a, capacity);
    assert (a + b)[..n] == a[..n];
  }

  /** The first step of a stream, with whatever follows it. */
  lemma FirstStep(from: Sender, a: seq<Octet>, b: seq<Octet>, capacity: nat)
    requires StepSize(from, a, capacity) > 0
    ensures var n, y := StepSize(from, a, capacity), StepYield(from, a, capacity);
            Relayed(from, a + b, capacity) == y + Relayed(from, a[n..] + b, capacity) &&
            Rest(from, a + b, capacity) == Rest(from, a[n..] + b, capacity)
  {
    StepDecided(from, a, b, capacity);
  }

  lemma CompleteSteps(from: Sender, a: seq<Octet>, capacity: nat)
    requires Complete(from, a, capacity) && a != []
    ensures var n := StepSize(from, a, capacity);
            n > 0 && Complete(from, a[n..], capacity) &&
            Relayed(from, a, capacity) == StepYield(from, a, capacity) + Relayed(from, a[n..], capacity)
  {}

  lemma JoinYields(y: seq<seq<Octet>>, a: seq<seq<Octet>>, b: seq<seq<Octet>>)
    ensures y + (a + b) == (y + a) + b
  {}

  /** Streams compose at packet boundaries. */
  lemma {:induction false} RelayedComposes(from: Sender, a: seq<Octet>, b: seq<Octet>, capacity: nat)
    requires Complete(from, a, capacity)
    ensures Relayed(from, a + b, capacity) == Relayed(from, a, capacity) + Relayed(from, b, capacity)
    ensures Rest(from, a + b, capacity) == Rest(from, b, capacity)
    decreases |a|
  {
    if a == [] {
      assert a + b == b && Relayed(from, a, capacity) == [];
    } else {
      CompleteSteps(from, a, capacity);
      var n := StepSize(from, a, capacity);
      FirstStep(from, a, b, capacity);
      RelayedComposes(from, a[n..], b, capacity);
      JoinYields(StepYield(from, a, capacity), Relayed(from, a[n..], capacity), Relayed(from, b, capacity));
    }
  }

  /** Reading on after any octets is reading what they left over with what follows. */
  lemma {:induction false} RestComposes(from: Sender, a: seq<Octet>, b: seq<Octet>, capacity: nat)
    ensures Relayed(from, a + b, capacity) ==
            Relayed(from, a, capacity) + Relayed(from, Rest(from, a, capacity) + b, capacity)
    decreases |a|
  {
    var n := StepSize(from, a, capacity);
    if n > 0 {
      FirstStep(from, a, b, capacity);
      RestComposes(from, a[n..], b, capacity);
      JoinYields(StepYield(from, a, capacity), Relayed(from, a[n..], capacity),
                 Relayed(from, Rest(from, a, capacity) + b, capacity));
    }
  }

  /** No reader passes on more than it has read. */
  lemma {:induction false} RelayedIsNoLonger(from: Sender, s: seq<Octet>, capacity: nat)
    ensures |Flat(Relayed(from, s, capacity))| <= |s|
    decreases |s|
  {
    var n := StepSize(from, s, capacity);
    if n > 0 {
      RelayedIsNoLonger(from, s[n..], capacity);
      FlatAdds(StepYield(from, s, capacity), Relayed(from, s[n..], capacity));
    }
  }

  lemma {:induction false} NoneIsEmpty(from: Sender, s: seq<Octet>, capacity: nat, k: nat)
    requires k < |Relayed(from, s, capacity)|
    ensures Relayed(from, s, capacity)[k] != []
    decreases |s|
  {
    var n, y := StepSize(from, s, capacity), StepYield(from, s, capacity);
    if k >= |y| { NoneIsEmpty(from, s[n..], capacity, k - |y|); }
  }

  /** What was left over of a stream ends up in front of, or instead of, the packet read next. */
  lemma NotPassedOn(from: Sender, c: seq<Octet>, p: seq<Octet>, capacity: nat)
    requires c != [] && StepSize(from, c, capacity) == 0 && p != [] && p[0] != c[0]
    ensures !(p <= Flat(Relayed(from, c + p, capacity)))
  {
    var n := StepSize(from, c + p, capacity);
    if n > 0 {
      StepReachesBehind(from, c, p, capacity);
      var first, rest := StepYield(from, c + p, capacity), (c + p)[n..];
      FlatAdds(first, Relayed(from, rest, capacity));
      RelayedIsNoLonger(from, rest, capacity);
      assert first != [] ==> Flat(first)[0] == c[0];
    }
  }

  lemma StepReachesBehind(from: Sender, c: seq<Octet>, p: seq<Octet>, capacity: nat)
    requires c != [] && StepSize(from, c, capacity) == 0 && StepSize(from, c + p, capacity) > 0
    ensures var n := StepSize(from, c + p, capacity);
            n > |c| && FrontOf(from, c + p, capacity) == Whole(n)
  {
    assert (c + p)[0] == c[0];
    if FrontOf(from, c, capacity) != Partial { FrontDecided(from, c, p, capacity); }
  }

  lemma OnePacket(from: Sender, p: seq<Octet>, capacity: nat)
    requires IsPacket(from, p, capacity)
    ensures Complete(from, p, capacity)
    ensures Relayed(from, p, capacity) == if IsDebug(p) then [] else [p]
  {
    assert p[|p|..] == [] && p[..|p|] == p;
    assert Relayed(from, [], capacity) == [];
  }

  lemma OneStrange(b: Octet, capacity: nat)
    requires !Known(Pc, b)
    ensures Complete(Pc, [b], capacity) && Relayed(Pc, [b], capacity) == []
  {
    assert [b][1..] == [];
  }

  /** Every packet one side's reader accepts passes the type check of the other side's writer
      (bt_em.c:176-179, bt_relayer.cpp:253-256). */
  predicate WritableTo(to: Sender, kind: Octet) {
    if to == Chip then kind == 0x01 || kind == 0x02 || kind == 0x03
    else kind == 0x04 || kind == 0x02 || kind == 0x03
  }

  lemma TypeChecksAgree(from: Sender, kind: Octet)
    ensures Known(from, kind) <==> WritableTo(if from == Pc then Chip else Pc, kind)
  {}

  // ---------- the layouts of the packets ----------

  /** A front with a kind and octets up to its length is a whole packet, or too long. */
  ghost predicate Framed(from: Sender, s: seq<Octet>, capacity: nat) {
    FrontOf(from, s, capacity) == (if |s| <= capacity then Whole(|s|) else TooLong)
  }

  /** A command: its opcode, low octet first, then the length of its parameters in one octet. */
  lemma CommandIsPacket(lo: Octet, hi: Octet, params: seq<Octet>, capacity: nat)
    requires |params| < 256
    ensures Framed(Pc, [0x01, lo, hi, |params|] + params, capacity)
    ensures FrontOf(Chip, [0x01, lo, hi, |params|] + params, capacity) == Strange
  {
    var s := [0x01, lo, hi, |params|] + params;
    assert s[0] == 0x01 && s[3] == |params|;
  }

  /** ACL data: handle and flags, then the length in two octets, low octet first. */
  lemma AclIsPacket(from: Sender, h0: Octet, h1: Octet, data: seq<Octet>, capacity: nat)
    requires |data| < 0x1_0000
    ensures Framed(from, [0x02, h0, h1, |data| % 256, |data| / 256] + data, capacity)
  {
    var s := [0x02, h0, h1, |data| % 256, |data| / 256] + data;
    assert s[0] == 0x02 && s[3] == |data| % 256 && s[4] == |data| / 256;
  }

  /** Synchronous data: handle and flags, then the length in one octet. */
  lemma ScoIsPacket(from: Sender, h0: Octet, h1: Octet, data: seq<Octet>, capacity: nat)
    requires |data| < 256
    ensures Framed(from, [0x03, h0, h1, |data|] + data, capacity)
  {
    var s := [0x03, h0, h1, |data|] + data;
    assert s[0] == 0x03 && s[3] == |data|;
  }

  /** An event: its code, then the length of its parameters in one octet.  The vendor debug events,
      and nothing else, have the code 0xE0. */
  lemma EventIsPacket(code: Octet, params: seq<Octet>, capacity: nat)
    requires |params| < 256
    ensures var s := [0x04, code, |params|] + params;
            Framed(Chip, s, capacity) && FrontOf(Pc, s, capacity) == Strange && (IsDebug(s) <==> code == 0xE0)
  {
    var s := [0x04, code, |params|] + params;
    assert s[0] == 0x04 && s[1] == code && s[2] == |params|;
  }

  /** Any other first octet is no packet, and nothing but an event is a debug event. */
  lemma OthersAreStrange(from: Sender, s: seq<Octet>, capacity: nat)
    requires s != [] && s[0] !in {0x01, 0x02, 0x03, 0x04}
    ensures FrontOf(from, s, capacity) == Strange && !IsDebug(s)
  {}

  lemma DataIsNoDebug(s: seq<Octet>)
    requires s == [] || s[0] != 0x04
    ensures !IsDebug(s)
  {}

  /** Every packet is one of those. */
  lemma PacketsHaveLayouts(from: Sender, s: seq<Octet>, capacity: nat)
    requires IsPacket(from, s, capacity)
    ensures |s| <= capacity && |s| >= 3
    ensures match s[0]
            case 0x01 => from == Pc && |s| >= 4 && |s| - 4 == s[3]
            case 0x02 => |s| >= 5 && |s| - 5 == (s[3] as int) + 256 * (s[4] as int)
            case 0x03 => |s| >= 4 && |s| - 4 == s[3]
            case 0x04 => from == Chip && |s| - 3 == s[2]
            case _ => false
  {}

  // ---------- streams of packets, and strange octets from the PC ----------

  datatype Item = Junk(b: Octet) | Packet(p: seq<Octet>)

  predicate ItemsOk(from: Sender, items: seq<Item>, capacity: nat) {
    forall i :: 0 <= i < |items| ==>
      match items[i]
      case Junk(b) => from == Pc && !Known(Pc, b)
      case Packet(p) => IsPacket(from, p, capacity)
  }

  function OctetsOf(i: Item): seq<Octet> {
    match i
    case Junk(b) => [b]
    case Packet(p) => p
  }

  function Encoded(items: seq<Item>): seq<Octet> {
    if items == [] then [] else OctetsOf(items[0]) + Encoded(items[1..])
  }

  function PacketsOf(items: seq<Item>): seq<seq<Octet>> {
    if items == [] then []
    else (match items[0] case Junk(_) => [] case Packet(p) => if IsDebug(p) then [] else [p]) + PacketsOf(items[1..])
  }

  lemma OneItem(from: Sender, i: Item, capacity: nat)
    requires ItemsOk(from, [i], capacity)
    ensures Complete(from, OctetsOf(i), capacity) && OctetsOf(i) != []
    ensures Relayed(from, OctetsOf(i), capacity) == PacketsOf([i])
  {
    assert i == [i][0];
    match i {
      case Junk(b) => OneStrange(b, capacity);
      case Packet(p) => OnePacket(from, p, capacity);
    }
  }

  /** Reading a stream of packets and strange octets gives back the packets. */
  lemma {:induction false} EncodedComesBack(from: Sender, items: seq<Item>, capacity: nat)
    requires ItemsOk(from, items, capacity)
    ensures Relayed(from, Encoded(items), capacity) == PacketsOf(items) && Complete(from, Encoded(items), capacity)
  {
    if items != [] {
      OneItem(from, items[0], capacity);
      RelayedComposes(from, OctetsOf(items[0]), Encoded(items[1..]), capacity);
      EncodedComesBack(from, items[1..], capacity);
    }
  }

  /** A proper part of a packet is just that. */
  lemma PartOfPacket(from: Sender, p: seq<Octet>, c: seq<Octet>, capacity: nat)
    requires IsPacket(from, p, capacity) && c < p
    ensures FrontOf(from, c, capacity) == Partial
  {
    assert c + p[|c|..] == p;
    if FrontOf(from, c, capacity) != Partial { FrontDecided(from, c, p[|c|..], capacity); }
  }

  lemma CutBehind(c: seq<Octet>, first: seq<Octet>, rest: seq<Octet>)
    requires c <= first + rest && |first| <= |c|
    ensures c == first + c[|first|..] && c[|first|..] <= rest
  {}

  lemma PrefixGrows(a: seq<seq<Octet>>, b: seq<seq<Octet>>, c: seq<seq<Octet>>)
    requires b <= c
    ensures a + b <= a + c
  {}

  /** What the reader makes of some octets of a stream whose packets are ps. */
  ghost predicate OnTheWay(from: Sender, c: seq<Octet>, ps: seq<seq<Octet>>, capacity: nat) {
    Relayed(from, c, capacity) <= ps && FrontOf(from, Rest(from, c, capacity), capacity) == Partial
  }

  lemma InFirstItem(from: Sender, item: Item, c: seq<Octet>, ps: seq<seq<Octet>>, capacity: nat)
    requires ItemsOk(from, [item], capacity) && c < OctetsOf(item)
    ensures OnTheWay(from, c, ps, capacity)
  {
    assert item == [item][0];
    if c != [] { PartOfPacket(from, OctetsOf(item), c, capacity); }
    assert Relayed(from, c, capacity) == [];
  }

  lemma BehindItem(from: Sender, item: Item, more: seq<Octet>, ps: seq<seq<Octet>>, capacity: nat)
    requires ItemsOk(from, [item], capacity) && OnTheWay(from, more, ps, capacity)
    ensures OnTheWay(from, OctetsOf(item) + more, PacketsOf([item]) + ps, capacity)
  {
    OneItem(from, item, capacity);
    RelayedComposes(from, OctetsOf(item), more, capacity);
    PrefixGrows(PacketsOf([item]), Relayed(from, more, capacity), ps);
  }

  lemma FirstPackets(items: seq<Item>)
    requires items != []
    ensures PacketsOf(items) == PacketsOf([items[0]]) + PacketsOf(items[1..])
  {
    assert [items[0]][1..] == [];
  }

  /** However much of such a stream has come in, its packets so far are the first of all, and
      what is left over is the beginning of a packet. */
  lemma {:induction false} PartOfStream(from: Sender, items: seq<Item>, c: seq<Octet>, capacity: nat)
    requires ItemsOk(from, items, capacity) && c <= Encoded(items)
    ensures OnTheWay(from, c, PacketsOf(items), capacity)
    decreases |items|
  {
    if items == [] {
      assert c == [] && Relayed(from, c, capacity) == [];
    } else {
      var first := OctetsOf(items[0]);
      if |c| < |first| {
        InFirstItem(from, items[0], c, PacketsOf(items), capacity);
      } else {
        CutBehind(c, first, Encoded(items[1..]));
        PartOfStream(from, items[1..], c[|first|..], capacity);
        BehindItem(from, items[0], c[|first|..], PacketsOf(items[1..]), capacity);
        assert PacketsOf(items) == PacketsOf([items[0]]) + PacketsOf(items[1..]) by { FirstPackets(items); }
      }
    }
  }
}

/** What the two packet readers and the two monitor threads have in common. */
module Relaying {
  import opened H4

  /** Both monitors read into buffers of this size (bt_relayer.cpp:451 and 488). */
  const CAPACITY := 512

  /** Commands, synchronous data and events always fit into it, ACL data of up to 507 octets. */
  lemma PacketsFit(lo: Octet, hi: Octet, data: seq<Octet>)
    ensures |data| < 256 ==>
              IsPacket(Pc, [0x01, lo, hi, |data|] + data, CAPACITY) &&
              IsPacket(Pc, [0x03, lo, hi, |data|] + data, CAPACITY) &&
              IsPacket(Chip, [0x03, lo, hi, |data|] + data, CAPACITY) &&
              IsPacket(Chip, [0x04, lo, |data|] + data, CAPACITY)
    ensures |data| < 0x1_0000 ==>
              (IsPacket(Pc, [0x02, lo, hi, |data| % 256, |data| / 256] + data, CAPACITY) <==> |data| <= 507) &&
              (IsPacket(Chip, [0x02, lo, hi, |data| % 256, |data| / 256] + data, CAPACITY) <==> |data| <= 507)
  {
    if |data| < 256 {
      CommandIsPacket(lo, hi, data, CAPACITY);
      ScoIsPacket(Pc, lo, hi, data, CAPACITY);
      ScoIsPacket(Chip, lo, hi, data, CAPACITY);
      EventIsPacket(lo, data, CAPACITY);
    }
    if |data| < 0x1_0000 {
      AclIsPacket(Pc, lo, hi, data, CAPACITY);
      AclIsPacket(Chip, lo, hi, data, CAPACITY);
    }
  }

  /** How a call that moves so many octets comes out; Waiting means it has not come back. */
  datatype Outcome = Done | Failed | Waiting

  /** The buffer holds the n octets of the stream from start on, and zeros behind them. */
  ghost predicate Holds(buf: seq<Octet>, input: seq<Octet>, start: nat, n: int) {
    0 <= n <= |buf| && start + n <= |input| && buf[..n] == input[start..start + n] &&
    forall k :: n <= k < |buf| ==> buf[k] == 0
  }

  /** A reader's answer: TRUE with a length; FALSE with the length zero; FALSE with a length; or
      the call has not come back. */
  datatype Reading = Got(size: nat) | Nothing | Broken(size: nat) | Pending

  /** What the octets c taken from the stream, and the buffer, have to do with the answer. */
  ghost predicate Explained(from: Sender, r: Reading, c: seq<Octet>, buf: seq<Octet>) {
    match r
    case Got(n) =>
      n == |c| && n <= |buf| && IsPacket(from, c, |buf|) && buf[..n] == c && forall k :: n <= k < |buf| ==> buf[k] == 0
    case Nothing => c == [] || (from == Pc && |c| == 1 && FrontOf(from, c, |buf|) == Strange)
    case Broken(n) => n > 0 && c != [] && StepSize(from, c, |buf|) == 0
    case Pending => FrontOf(from, c, |buf|) == Partial
  }

  /** What is known of a packet's front once its first octets are in the buffer. */
  lemma FrontInBuffer(from: Sender, buf: seq<Octet>, c: seq<Octet>)
    requires 0 < |c| <= |buf| && buf[..|c|] == c && Known(from, buf[0]) && |buf| >= 5
    ensures |c| < HeaderSize(buf[0]) ==> FrontOf(from, c, |buf|) == Partial
    ensures |c| >= HeaderSize(buf[0]) ==>
              var n := HeaderSize(buf[0]) + DataSize(buf);
              FrontOf(from, c, |buf|) == if n > |buf| then TooLong else if |c| < n then Partial else Whole(n)
  {
    assert c[0] == buf[0];
    assert forall k :: 0 <= k < |c| ==> buf[..|c|][k] == buf[k] == c[k];
  }

  /** The same over several packets: debug events that were dropped may come before. */
  ghost predicate Accounted(from: Sender, r: Reading, c: seq<Octet>, buf: seq<Octet>) {
    match r
    case Got(n) =>
      0 < n <= |buf| && Known(from, buf[0]) && Complete(from, c, |buf|) && Relayed(from, c, |buf|) == [buf[..n]] &&
      forall k :: n <= k < |buf| ==> buf[k] == 0
    case Nothing => Complete(from, c, |buf|) && Relayed(from, c, |buf|) == []
    case Broken(n) => n > 0 && !Complete(from, c, |buf|) && Relayed(from, c, |buf|) == []
    case Pending => Relayed(from, c, |buf|) == [] && FrontOf(from, Rest(from, c, |buf|), |buf|) == Partial
  }

  lemma ExplainedAccounts(from: Sender, r: Reading, c: seq<Octet>, buf: seq<Octet>)
    requires Explained(from, r, c, buf) && (r.Got? ==> !IsDebug(c))
    ensures Accounted(from, r, c, buf)
    ensures r.Broken? ==> Rest(from, c, |buf|) == c
  {
    match r
    case Got(n) => OnePacket(from, c, |buf|); assert buf[0] == c[0];
    case Nothing => if c != [] { OneStrange(c[0], |buf|); assert c == [c[0]]; }
    case Broken(_) =>
    case Pending =>
  }

  /** How a monitor ends: the run is over while it waits to read or to write, it saw fExit set
      by another thread, its reader met a broken packet, or its writer failed. */
  datatype End = StillWaiting | StillWriting | ToldToStop | ReadBroken | WriteBroken

  /** The first n checks of fExit found it not raised from outside; told: the next one found it raised. */
  ghost predicate Checked(raised: seq<bool>, n: nat, told: bool) {
    (forall k :: 0 <= k < n && k < |raised| ==> !raised[k]) && (told ==> n < |raised| && raised[n])
  }

  /** A monitor has taken the octets c from its stream, and got is what it passed on in full. */
  ghost predicate PassedOn(from: Sender, c: seq<Octet>, got: seq<seq<Octet>>, end: End) {
    var f := FrontOf(from, Rest(from, c, CAPACITY), CAPACITY);
    match end
    case StillWaiting => got == Relayed(from, c, CAPACITY) && f == Partial
    case ToldToStop => got == Relayed(from, c, CAPACITY) && Complete(from, c, CAPACITY)
    case ReadBroken => got == Relayed(from, c, CAPACITY) && !Complete(from, c, CAPACITY)
    case _ => exists p :: got + [p] == Relayed(from, c, CAPACITY) && Complete(from, c, CAPACITY)
  }

  /** A monitor between two packets. */
  ghost predicate Between(from: Sender, c: seq<Octet>, got: seq<seq<Octet>>) {
    got == Relayed(from, c, CAPACITY) && Complete(from, c, CAPACITY)
  }

  /** A monitor takes the octets d after the octets c. */
  lemma TakesMore(from: Sender, c: seq<Octet>, got: seq<seq<Octet>>, d: seq<Octet>, r: Reading, buf: seq<Octet>)
    requires Between(from, c, got) && |buf| == CAPACITY && Accounted(from, r, d, buf)
    ensures r.Nothing? ==> Between(from, c + d, got)
    ensures r.Got? ==> Between(from, c + d, got + [buf[..r.size]])
    ensures r.Got? ==> PassedOn(from, c + d, got, WriteBroken) && PassedOn(from, c + d, got, StillWriting)
    ensures r.Broken? ==> PassedOn(from, c + d, got, ReadBroken)
    ensures r.Pending? ==> PassedOn(from, c + d, got, StillWaiting)
    ensures Rest(from, c + d, CAPACITY) == Rest(from, d, CAPACITY)
  {
    RelayedComposes(from, c, d, CAPACITY);
    if r.Got? { assert got + [buf[..r.size]] == Relayed(from, c + d, CAPACITY); }
    else { assert got + [] == got; }
  }
}
