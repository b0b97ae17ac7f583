/** The boot loader's tag list as it lies in memory, and the way mt_fixup of mt_devs.c takes
    the command line tag out of it by copying the rest of the list down over it. */
module TagList {

  type Octet = b: int | 0 <= b < 256

  const ATAG_NONE := 0
  const ATAG_CMDLINE := 0x5441_0009

  /** The little-endian word at offset i. */
  function WordAt(m: seq<Octet>, i: nat): (w: nat)
    requires i + 4 <= |m|
  {
    var b0: int, b1: int, b2: int, b3: int := m[i], m[i + 1], m[i + 2], m[i + 3];
    b0 + 0x100 * b1 + 0x1_0000 * b2 + 0x100_0000 * b3
  }

  /** A tag with its header: its size in words, its kind, and what it carries. */
  type Tag = t: seq<Octet> | |t| >= 8 witness seq(8, _ => 0)

  function SizeOf(t: Tag): nat {
    WordAt(t, 0)
  }

  function KindOf(t: Tag): nat {
    WordAt(t, 4)
  }

  datatype Parsed = Malformed | List(tags: seq<Tag>, end: nat)

  /** There is a tag header at offset i. */
  predicate HasHeader(m: seq<Octet>, i: nat) {
    i + 8 <= |m|
  }

  /** The tag at offset i is at least its own header long and lies in memory. */
  predicate HasTag(m: seq<Octet>, i: nat) {
    HasHeader(m, i) && WordAt(m, i) >= 2 && i + 4 * WordAt(m, i) <= |m|
  }

  /** tag_next */
  function NextOf(m: seq<Octet>, i: nat): nat
    requires HasTag(m, i)
  {
    i + 4 * WordAt(m, i)
  }

  function TagAt(m: seq<Octet>, i: nat): Tag
    requires HasTag(m, i)
  {
    m[i..NextOf(m, i)]
  }

  function Prepend(ts: seq<Tag>, p: Parsed): Parsed {
    if p.List? then List(ts + p.tags, p.end) else Malformed
  }

  /** The tags from offset i to a tag of size zero. */
  function Parse(m: seq<Octet>, i: nat): Parsed
    decreases |m| - i
  {
    if HasHeader(m, i) && WordAt(m, i) == 0 then List([], i)
    else if HasTag(m, i) then Prepend([TagAt(m, i)], Parse(m, NextOf(m, i)))
    else Malformed
  }

  predicate IsCommandLine(t: Tag) {
    KindOf(t) == ATAG_CMDLINE
  }

  // ---------- what the octets mean ----------

  lemma TakenApart(low: int, high: int, radix: int)
    requires radix in {0x100, 0x1_0000, 0x100_0000} && 0 <= low < radix
    ensures (low + radix * high) % radix == low && (low + radix * high) / radix == high
  {
    if radix == 0x100 {} else if radix == 0x1_0000 {} else {}
  }

  /** A word has its lowest octet first. */
  lemma WordOctets(m: seq<Octet>, i: nat)
    requires i + 4 <= |m|
    ensures var w := WordAt(m, i);
            w % 0x100 == m[i] && w / 0x100 % 0x100 == m[i + 1] && w / 0x1_0000 % 0x100 == m[i + 2] &&
            w / 0x100_0000 == m[i + 3]
  {
    var b0: int, b1: int, b2: int, b3: int := m[i], m[i + 1], m[i + 2], m[i + 3];
    var w := WordAt(m, i);
    TakenApart(b0, b1 + 0x100 * b2 + 0x1_0000 * b3, 0x100);
    TakenApart(b1, b2 + 0x100 * b3, 0x100);
    TakenApart(b0 + 0x100 * b1, b2 + 0x100 * b3, 0x1_0000);
    TakenApart(b2, b3, 0x100);
    TakenApart(b0 + 0x100 * b1 + 0x1_0000 * b2, b3, 0x100_0000);
  }

  /** The octets 09 00 41 54 behind the size make a tag a command line, and no others do. */
  lemma CommandLineOctets(t: Tag)
    ensures IsCommandLine(t) <==> t[4] == 0x09 && t[5] == 0x00 && t[6] == 0x41 && t[7] == 0x54
  {
    WordOctets(t, 4);
  }

  /** A size of zero is four octets of zero. */
  lemma EndOctets(m: seq<Octet>, i: nat)
    requires i + 4 <= |m|
    ensures WordAt(m, i) == 0 <==> m[i] == m[i + 1] == m[i + 2] == m[i + 3] == 0
  {
    WordOctets(m, i);
  }

  /** Tags laid one behind the other. */
  function Laid(ts: seq<Tag>): seq<Octet> {
    if ts == [] then [] else ts[0] + Laid(ts[1..])
  }

  /** The tag says how long it is, in words, and is that long. */
  predicate WellSized(t: Tag) {
    |t| == 4 * SizeOf(t)
  }

  lemma WordStays(pre: seq<Octet>, t: Tag, post: seq<Octet>)
    requires WellSized(t)
    ensures var m := pre + t + post; HasTag(m, |pre|) && TagAt(m, |pre|) == t && NextOf(m, |pre|) == |pre| + |t|
  {
    var m := pre + t + post;
    assert forall k :: 0 <= k < 4 ==> m[|pre| + k] == t[k];
    assert m[|pre|..|pre| + |t|] == t;
  }

  /** Reading tags that were laid one behind the other, with four octets of zero behind them, gives them
      back. */
  lemma {:induction false} LaidParses(pre: seq<Octet>, ts: seq<Tag>, post: seq<Octet>)
    requires forall k :: 0 <= k < |ts| ==> WellSized(ts[k])
    requires |post| >= 8 && forall k :: 0 <= k < 4 ==> post[k] == 0
    ensures Parse(pre + Laid(ts) + post, |pre|) == List(ts, |pre| + |Laid(ts)|)
    decreases |ts|
  {
    var m := pre + Laid(ts) + post;
    if ts == [] {
      assert forall k :: 0 <= k < 4 ==> m[|pre| + k] == post[k];
    } else {
      var t, rest := ts[0], Laid(ts[1..]) + post;
      assert m == pre + t + rest;
      WordStays(pre, t, rest);
      LaidParses(pre + t, ts[1..], post);
      assert m == (pre + t) + Laid(ts[1..]) + post;
      assert [t] + ts[1..] == ts;
    }
  }

  predicate HasCommandLine(ts: seq<Tag>) {
    exists k :: 0 <= k < |ts| && IsCommandLine(ts[k])
  }

  /** The list without its last command line tag. */
  function Dropped(ts: seq<Tag>): seq<Tag> {
    if ts == [] then []
    else if HasCommandLine(ts[1..]) then [ts[0]] + Dropped(ts[1..])
    else if IsCommandLine(ts[0]) then ts[1..]
    else ts
  }

  lemma {:induction false} DroppedTakesOne(a: seq<Tag>, t: Tag, b: seq<Tag>)
    requires IsCommandLine(t) && !HasCommandLine(b)
    ensures HasCommandLine(a + [t] + b) && Dropped(a + [t] + b) == a + b
  {
    var ts := a + [t] + b;
    assert ts[|a|] == t;
    if a == [] {
      assert ts[1..] == b && ts[0] == t;
    } else {
      assert ts[1..] == a[1..] + [t] + b;
      assert ts[1..][|a| - 1] == t;
      DroppedTakesOne(a[1..], t, b);
    }
  }

  lemma DroppedKeepsOthers(ts: seq<Tag>)
    requires !HasCommandLine(ts)
    ensures Dropped(ts) == ts
  {}

  // ---------- walking the list ----------

  /** Stepping from base over these tags leads to offset i. */
  ghost predicate Passed(m: seq<Octet>, base: nat, i: nat, before: seq<Tag>)
    decreases |before|
  {
    if before == [] then i == base
    else HasTag(m, base) && before[0] == TagAt(m, base) && Passed(m, NextOf(m, base), i, before[1..])
  }

  lemma {:induction false} PassedParses(m: seq<Octet>, base: nat, i: nat, before: seq<Tag>)
    requires Passed(m, base, i, before)
    ensures base <= i && Parse(m, base) == Prepend(before, Parse(m, i))
    decreases |before|
  {
    if before == [] {
      assert Parse(m, i).List? ==> before + Parse(m, i).tags == Parse(m, i).tags;
    } else {
      PassedParses(m, NextOf(m, base), i, before[1..]);
      var p := Parse(m, i);
      assert p.List? ==> [before[0]] + (before[1..] + p.tags) == before + p.tags;
    }
  }

  lemma {:induction false} PassesOne(m: seq<Octet>, base: nat, i: nat, before: seq<Tag>)
    requires Passed(m, base, i, before) && HasTag(m, i)
    ensures Passed(m, base, NextOf(m, i), before + [TagAt(m, i)])
    decreases |before|
  {
    var t := TagAt(m, i);
    if before == [] {
      assert ([t])[1..] == [];
    } else {
      PassesOne(m, NextOf(m, base), i, before[1..]);
      assert (before + [t])[1..] == before[1..] + [t];
    }
  }

  /** length octets of m from i are those of n from j. */
  ghost predicate Same(m: seq<Octet>, i: nat, n: seq<Octet>, j: nat, length: int) {
    0 <= length && i + length <= |m| && j + length <= |n| &&
    forall p :: i <= p < i + length ==> m[p] == n[p - i + j]
  }

  lemma SameWord(m: seq<Octet>, i: nat, n: seq<Octet>, j: nat, length: nat)
    requires Same(m, i, n, j, length) && length >= 4
    ensures WordAt(m, i) == WordAt(n, j)
  {}

  lemma SamePart(m: seq<Octet>, i: nat, n: seq<Octet>, j: nat, length: nat, from: nat, part: nat)
    requires Same(m, i, n, j, length) && from + part <= length
    ensures Same(m, i + from, n, j + from, part)
    ensures m[i + from..i + from + part] == n[j + from..j + from + part]
  {}

  lemma SameTag(m: seq<Octet>, i: nat, n: seq<Octet>, j: nat, length: nat)
    requires Same(m, i, n, j, length) && HasTag(m, i) && NextOf(m, i) - i <= length
    ensures HasTag(n, j) && TagAt(n, j) == TagAt(m, i) && NextOf(n, j) - j == NextOf(m, i) - i
    ensures Same(m, NextOf(m, i), n, NextOf(n, j), length - (NextOf(m, i) - i))
  {
    SameWord(m, i, n, j, length);
    var size := NextOf(m, i) - i;
    SamePart(m, i, n, j, length, 0, size);
    SamePart(m, i, n, j, length, size, length - size);
  }

  /** The same steps lead over a memory that agrees up to offset i. */
  lemma {:induction false} PassedStays(m: seq<Octet>, n: seq<Octet>, base: nat, i: nat, before: seq<Tag>)
    requires Passed(m, base, i, before) && base <= i && Same(m, base, n, base, i - base)
    ensures Passed(n, base, i, before)
    decreases |before|
  {
    if before != [] {
      var next := NextOf(m, base);
      PassedParses(m, next, i, before[1..]);
      SameTag(m, base, n, base, i - base);
      assert NextOf(n, base) == next;
      PassedStays(m, n, next, i, before[1..]);
      PassedFirst(n, base, i, before);
    }
  }

  lemma PassedFirst(m: seq<Octet>, base: nat, i: nat, before: seq<Tag>)
    requires before != [] && HasTag(m, base) && before[0] == TagAt(m, base)
    requires Passed(m, NextOf(m, base), i, before[1..])
    ensures Passed(m, base, i, before)
  {}

  lemma {:induction false} ParsedInside(m: seq<Octet>, i: nat)
    requires Parse(m, i).List?
    ensures i <= Parse(m, i).end && Parse(m, i).end + 8 <= |m|
    decreases |m| - i
  {
    if WordAt(m, i) != 0 { ParsedInside(m, NextOf(m, i)); }
  }

  /** A list copied to another place parses to the same tags. */
  lemma {:induction false} CopiedParses(m: seq<Octet>, i: nat, n: seq<Octet>, j: nat, length: nat)
    requires Parse(m, i).List? && Parse(m, i).end + 8 == i + length && length >= 8 && Same(m, i, n, j, length)
    ensures Parse(n, j) == List(Parse(m, i).tags, j + length - 8)
    decreases |m| - i
  {
    ParsedInside(m, i);
    SameWord(m, i, n, j, length);
    if WordAt(m, i) != 0 {
      ParsedInside(m, NextOf(m, i));
      SameTag(m, i, n, j, length);
      CopiedParses(m, NextOf(m, i), n, NextOf(n, j), length - (NextOf(m, i) - i));
    }
  }

  // ---------- the walk of mt_fixup ----------

  /** Stepping from base to offset i, the last command line tag met lies at offset at, after the
      tags a and before the tags b. */
  ghost predicate SeenAt(m: seq<Octet>, base: nat, i: nat, at: nat, a: seq<Tag>, b: seq<Tag>) {
    Passed(m, base, at, a) && HasTag(m, at) && IsCommandLine(TagAt(m, at)) &&
    Passed(m, NextOf(m, at), i, b) && !HasCommandLine(b)
  }

  /** The walk has come to offset i with the cmdline_tag pointer as found and at say. */
  ghost predicate Walked(m: seq<Octet>, base: nat, i: nat, found: bool, at: nat, a: seq<Tag>, b: seq<Tag>) {
    Parse(m, i).List? &&
    if found then SeenAt(m, base, i, at, a, b) && Passed(m, base, i, a + [TagAt(m, at)] + b)
    else Passed(m, base, i, b) && !HasCommandLine(b)
  }

  lemma OneMore(b: seq<Tag>, t: Tag)
    requires !HasCommandLine(b) && !IsCommandLine(t)
    ensures !HasCommandLine(b + [t])
  {}

  lemma WalksOn(m: seq<Octet>, base: nat, i: nat, found: bool, at: nat, a: seq<Tag>, b: seq<Tag>)
    requires Walked(m, base, i, found, at, a, b) && WordAt(m, i) != 0
    ensures var t := TagAt(m, i);
            if IsCommandLine(t) then
              Walked(m, base, NextOf(m, i), true, i, if found then a + [TagAt(m, at)] + b else b, [])
            else Walked(m, base, NextOf(m, i), found, at, a, b + [t])
  {
    var t := TagAt(m, i);
    var before := if found then a + [TagAt(m, at)] + b else b;
    PassesOne(m, base, i, before);
    if IsCommandLine(t) {
      assert before + [t] + [] == before + [t];
    } else {
      OneMore(b, t);
      if found {
        PassesOne(m, NextOf(m, at), i, b);
        assert a + [TagAt(m, at)] + b + [t] == a + [TagAt(m, at)] + (b + [t]);
      }
    }
  }

  method Word(mem: array<Octet>, i: nat, ghost m: seq<Octet>) returns (w: nat)
    requires i + 4 <= |m| && mem[..] == m
    ensures w == WordAt(m, i)
  {
    var b0: int, b1: int, b2: int, b3: int := mem[i], mem[i + 1], mem[i + 2], mem[i + 3];
    assert b0 == m[i] && b1 == m[i + 1] && b2 == m[i + 2] && b3 == m[i + 3];
    w := b0 + 0x100 * b1 + 0x1_0000 * b2 + 0x100_0000 * b3;
  }

  /** The walk at a tag or at the end, whose first word is size. */
  ghost predicate Standing(m: seq<Octet>, base: nat, i: nat, size: nat, found: bool, at: nat, a: seq<Tag>,
                      b: seq<Tag>) {
    Walked(m, base, i, found, at, a, b) && size == WordAt(m, i)
  }

  lemma StandsAtTag(m: seq<Octet>, base: nat, i: nat, size: nat, found: bool, at: nat, a: seq<Tag>, b: seq<Tag>)
    requires Standing(m, base, i, size, found, at, a, b) && size != 0
    ensures HasTag(m, i) && i + 8 <= |m| && WordAt(m, i + 4) == KindOf(TagAt(m, i))
    ensures NextOf(m, i) == i + 4 * size && i < i + 4 * size && i + 4 * size + 4 <= |m|
  {
    assert Parse(m, NextOf(m, i)).List?;
  }

  lemma OntoCommandLine(m: seq<Octet>, base: nat, i: nat, size: nat, found: bool, at: nat, a: seq<Tag>, b: seq<Tag>)
    requires Standing(m, base, i, size, found, at, a, b) && size != 0 && WordAt(m, i + 4) == ATAG_CMDLINE
    ensures i + 4 * size + 4 <= |m|
    ensures Standing(m, base, i + 4 * size, WordAt(m, i + 4 * size), true, i,
                     if found then a + [TagAt(m, at)] + b else b, [])
  {
    StandsAtTag(m, base, i, size, found, at, a, b);
    StandsNext(m, base, i, size, found, at, a, b);
  }

  lemma StandsNext(m: seq<Octet>, base: nat, i: nat, size: nat, found: bool, at: nat, a: seq<Tag>, b: seq<Tag>)
    requires Standing(m, base, i, size, found, at, a, b) && HasTag(m, i) && NextOf(m, i) == i + 4 * size
    requires i + 4 * size + 4 <= |m| && size != 0
    ensures var n := i + 4 * size;
            if IsCommandLine(TagAt(m, i))
            then Standing(m, base, n, WordAt(m, n), true, i, if found then a + [TagAt(m, at)] + b else b, [])
            else Standing(m, base, n, WordAt(m, n), found, at, a, b + [TagAt(m, i)])
  {
    WalksOn(m, base, i, found, at, a, b);
  }

  lemma PastOther(m: seq<Octet>, base: nat, i: nat, size: nat, found: bool, at: nat, a: seq<Tag>, b: seq<Tag>)
    requires Standing(m, base, i, size, found, at, a, b) && size != 0 && WordAt(m, i + 4) != ATAG_CMDLINE
    ensures i + 4 * size + 4 <= |m|
    ensures Standing(m, base, i + 4 * size, WordAt(m, i + 4 * size), found, at, a, b + [TagAt(m, i)])
  {
    StandsAtTag(m, base, i, size, found, at, a, b);
    StandsNext(m, base, i, size, found, at, a, b);
  }

  /** The next tag of the walk, of this kind. */
  lemma StandsOn(m: seq<Octet>, base: nat, i: nat, size: nat, found: bool, at: nat, a: seq<Tag>, b: seq<Tag>,
                 kind: nat) returns (a': seq<Tag>, b': seq<Tag>)
    requires Standing(m, base, i, size, found, at, a, b) && size != 0 && kind == WordAt(m, i + 4)
    ensures i + 4 * size + 4 <= |m|
    ensures Standing(m, base, i + 4 * size, WordAt(m, i + 4 * size), found || kind == ATAG_CMDLINE,
                     if kind == ATAG_CMDLINE then i else at, a', b')
  {
    if kind == ATAG_CMDLINE {
      OntoCommandLine(m, base, i, size, found, at, a, b);
      a', b' := if found then a + [TagAt(m, at)] + b else b, [];
    } else {
      PastOther(m, base, i, size, found, at, a, b);
      a', b' := a, b + [TagAt(m, i)];
    }
  }

  /** One turn of the loop (lines 1039-1088): a command line tag moves the cmdline_tag pointer. */
  method Turn(mem: array<Octet>, base: nat, i: nat, size: nat, found: bool, at: nat,
              ghost m: seq<Octet>, ghost a: seq<Tag>, ghost b: seq<Tag>)
    returns (next: nat, size': nat, found': bool, at': nat, ghost a': seq<Tag>, ghost b': seq<Tag>)
    requires mem[..] == m && Standing(m, base, i, size, found, at, a, b) && size != 0
    ensures Standing(m, base, next, size', found', at', a', b') && i < next <= |m|
  {
    StandsAtTag(m, base, i, size, found, at, a, b);
    var kind := Word(mem, i + 4, m);
    a', b' := StandsOn(m, base, i, size, found, at, a, b, kind);
    next := i + 4 * size;
    found', at' := found, at;
    if kind == ATAG_CMDLINE { found', at' := true, i; }
    size' := Word(mem, next, m);
  }

  lemma WalkEnds(m: seq<Octet>, base: nat, end: nat, found: bool, at: nat, a: seq<Tag>, b: seq<Tag>)
    requires Standing(m, base, end, 0, found, at, a, b)
    ensures Parse(m, base).List? && Parse(m, base).end == end && found == HasCommandLine(Parse(m, base).tags)
  {
    if found {
      WalkFinds(m, base, end, at, a, b);
      DroppedTakesOne(a, TagAt(m, at), b);
    } else {
      PassedParses(m, base, end, b);
      assert b + [] == b;
    }
  }

  /** Lines 1039-1088 and 1153-1154: the offset of the last command line tag, if there is
      one, and the end of the list. */
  method FindCommandLine(mem: array<Octet>, base: nat, ghost m: seq<Octet>)
    returns (found: bool, at: nat, end: nat, ghost a: seq<Tag>, ghost b: seq<Tag>)
    requires mem[..] == m && Parse(m, base).List?
    ensures Standing(m, base, end, 0, found, at, a, b)
    ensures Parse(m, base).end == end && found == HasCommandLine(Parse(m, base).tags)
  {
    found, at, end, a, b := false, base, base, [], [];
    var size := Word(mem, end, m);
    while size != 0
      invariant Standing(m, base, end, size, found, at, a, b)
      decreases |m| - end
    {
      end, size, found, at, a, b := Turn(mem, base, end, size, found, at, m, a, b);
    }
    WalkEnds(m, base, end, found, at, a, b);
  }

  // ---------- taking the tag out ----------

  /** memcpy over overlapping ranges, lowest byte first (lines 1180-1183). */
  method CopyDown(mem: array<Octet>, to: nat, from: nat, length: nat)
    requires to <= from && from + length <= mem.Length
    modifies mem
    ensures forall j :: 0 <= j < mem.Length && !(to <= j < to + length) ==> mem[j] == old(mem[j])
    ensures forall j :: to <= j < to + length ==> mem[j] == old(mem[j - to + from])
  {
    var k := 0;
    while k < length
      invariant 0 <= k <= length
      invariant forall j :: 0 <= j < mem.Length && !(to <= j < to + k) ==> mem[j] == old(mem[j])
      invariant forall j :: to <= j < to + k ==> mem[j] == old(mem[j - to + from])
    {
      mem[to + k] := mem[from + k];
      k := k + 1;
    }
  }

  method CopyOver(mem: array<Octet>, to: nat, from: nat, length: nat, ghost m: seq<Octet>)
    requires mem[..] == m && to <= from && from + length <= |m|
    modifies mem
    ensures Moved(m, mem[..], to, from, length)
  {
    CopyDown(mem, to, from, length);
  }

  /** n is m with length octets from one place put at another, lower one. */
  ghost predicate Moved(m: seq<Octet>, n: seq<Octet>, to: nat, from: nat, length: int) {
    0 <= length && to <= from && from + length <= |m| && |n| == |m| &&
    (forall j :: 0 <= j < |m| && !(to <= j < to + length) ==> n[j] == m[j]) &&
    (forall j :: to <= j < to + length ==> n[j] == m[j - to + from])
  }

  lemma MovedParts(m: seq<Octet>, n: seq<Octet>, to: nat, from: nat, length: nat, base: nat)
    requires Moved(m, n, to, from, length) && base <= to
    ensures Same(m, from, n, to, length) && Same(m, base, n, base, to - base)
  {
    forall p | from <= p < from + length
      ensures m[p] == n[p - from + to]
    {
      assert n[p - from + to] == m[(p - from + to) - to + from];
    }
    assert Same(m, from, n, to, length);
  }

  lemma MovedEnd(m: seq<Octet>, n: seq<Octet>, to: nat, from: nat, length: nat, end: nat)
    requires Moved(m, n, to, from, length) && from <= end && end + 8 == from + length
    ensures WordAt(n, to + end - from) == WordAt(m, end) && WordAt(n, to + end - from + 4) == WordAt(m, end + 4)
  {
    MovedParts(m, n, to, from, length, to);
    SamePart(m, from, n, to, length, end - from, 4);
    SamePart(m, from, n, to, length, end - from + 4, 4);
    SameWord(m, end, n, to + end - from, 4);
    SameWord(m, end + 4, n, to + end - from + 4, 4);
  }

  /** What the walk finds: the list is a, t, b, and t is its last command line tag. */
  ghost predicate Found(m: seq<Octet>, base: nat, end: nat, at: nat, next: nat, a: seq<Tag>, t: Tag, b: seq<Tag>) {
    base <= at <= next <= end && end + 8 <= |m| && WordAt(m, end) == 0 && next == at + 4 * WordAt(m, at) &&
    Parse(m, base) == List(a + [t] + b, end) && Parse(m, next) == List(b, end) &&
    Passed(m, base, at, a) && IsCommandLine(t) && !HasCommandLine(b)
  }

  lemma WalkFinds(m: seq<Octet>, base: nat, end: nat, at: nat, a: seq<Tag>, b: seq<Tag>)
    requires Standing(m, base, end, 0, true, at, a, b)
    ensures Found(m, base, end, at, NextOf(m, at), a, TagAt(m, at), b)
  {
    PassedParses(m, base, end, a + [TagAt(m, at)] + b);
    PassedParses(m, NextOf(m, at), end, b);
    PassedParses(m, base, at, a);
    assert a + [TagAt(m, at)] + b + [] == a + [TagAt(m, at)] + b && b + [] == b;
  }

  lemma JoinsBehind(m: seq<Octet>, n: seq<Octet>, base: nat, at: nat, a: seq<Tag>, b: seq<Tag>, e: nat)
    requires Passed(m, base, at, a) && base <= at && Same(m, base, n, base, at - base) && Parse(n, at) == List(b, e)
    ensures Parse(n, base) == List(a + b, e)
  {
    PassedStays(m, n, base, at, a);
    PassedParses(n, base, at, a);
  }

  lemma MovedParses(m: seq<Octet>, n: seq<Octet>, base: nat, end: nat, at: nat, next: nat, a: seq<Tag>, b: seq<Tag>)
    requires Passed(m, base, at, a) && base <= at && Parse(m, next) == List(b, end) && at <= next <= end
    requires Moved(m, n, at, next, end + 8 - next)
    ensures Parse(n, base) == List(a + b, at + end - next)
  {
    MovedParts(m, n, at, next, end + 8 - next, base);
    CopiedParses(m, next, n, at, end + 8 - next);
    JoinsBehind(m, n, base, at, a, b, at + end - next);
  }

  /** The list q of n is the list p of m without its last command line tag, ended as p is. */
  ghost predicate Removed(m: seq<Octet>, p: Parsed, n: seq<Octet>, q: Parsed) {
    p.List? && q.List? && q.tags == Dropped(p.tags) && p.end + 8 <= |m| && q.end + 8 <= |n| &&
    WordAt(n, q.end) == WordAt(m, p.end) == 0 && WordAt(n, q.end + 4) == WordAt(m, p.end + 4)
  }

  lemma RemovedByParts(m: seq<Octet>, n: seq<Octet>, end: nat, at: nat, next: nat, a: seq<Tag>, t: Tag, b: seq<Tag>)
    requires next <= end && Moved(m, n, at, next, end + 8 - next) && WordAt(m, end) == 0
    requires IsCommandLine(t) && !HasCommandLine(b)
    ensures Removed(m, List(a + [t] + b, end), n, List(a + b, at + end - next)) && HasCommandLine(a + [t] + b)
  {
    DroppedTakesOne(a, t, b);
    MovedEnd(m, n, at, next, end + 8 - next, end);
  }

  lemma MovedRemoves(m: seq<Octet>, n: seq<Octet>, base: nat, end: nat, at: nat, next: nat, a: seq<Tag>, t: Tag,
                     b: seq<Tag>)
    requires Found(m, base, end, at, next, a, t, b) && Moved(m, n, at, next, end + 8 - next)
    ensures Removed(m, Parse(m, base), n, Parse(n, base)) && HasCommandLine(Parse(m, base).tags)
  {
    MovedParses(m, n, base, end, at, next, a, b);
    RemovedByParts(m, n, end, at, next, a, t, b);
  }

  /** Lines 1180-1183: the rest of the list, with its last eight octets, is copied over the tag. */
  method RemoveTag(mem: array<Octet>, base: nat, at: nat, end: nat, ghost m: seq<Octet>,
                   ghost a: seq<Tag>, ghost t: Tag, ghost b: seq<Tag>, ghost next: nat)
    requires mem[..] == m && Found(m, base, end, at, next, a, t, b)
    modifies mem
    ensures Removed(m, Parse(m, base), mem[..], Parse(mem[..], base)) && HasCommandLine(Parse(m, base).tags)
  {
    var size := Word(mem, at, m);
    CopyOver(mem, at, at + 4 * size, end + 8 - (at + 4 * size), m);
    MovedRemoves(m, mem[..], base, end, at, next, a, t, b);
  }

  /** The end of mt_fixup's walk and its last step: afterwards the memory holds the same list
      without its last command line tag, still ended by ATAG_NONE. */
  method DropCommandLine(mem: array<Octet>, base: nat)
    requires var p := Parse(mem[..], base);
             p.List? && p.end + 8 <= mem.Length && (HasCommandLine(p.tags) ==> WordAt(mem[..], p.end + 4) == ATAG_NONE)
    modifies mem
    ensures Removed(old(mem[..]), Parse(old(mem[..]), base), mem[..], Parse(mem[..], base))
  {
    ghost var m := mem[..];
    var found, at, end; ghost var a, b;
    found, at, end, a, b := FindCommandLine(mem, base, m);
    if found {
      WalkFinds(m, base, end, at, a, b);
      RemoveTag(mem, base, at, end, m, a, TagAt(m, at), b, NextOf(m, at));
    } else {
      PassedParses(m, base, end, b);
      assert b + [] == b;
      DroppedKeepsOthers(b);
    }
  }
}
