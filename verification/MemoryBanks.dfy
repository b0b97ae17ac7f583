/** How mt_fixup of mt_devs.c cuts the memory banks of the boot tags down to a limit and carves
    the frame buffer out of the last bank it keeps.  Sizes and addresses are 32 bits wide and
    wrap around. */
module MemoryBanks {

  const WRAP := 0x1_0000_0000

  type U32 = n: int | 0 <= n < WRAP

  function Wrapped(n: int): U32 {
    n % WRAP
  }

  lemma WrappedIs(n: int)
    ensures 0 <= Wrapped(n) < 0x1_0000_0000 && (n - Wrapped(n)) % 0x1_0000_0000 == 0
  {}

  /** A memory tag, or any other tag. */
  datatype Tag = Mem(size: U32, start: U32) | Other

  function SizeOf(t: Tag): nat {
    if t.Mem? then t.size else 0
  }

  function StartOf(t: Tag): nat {
    if t.Mem? then t.start else 0
  }

  function Total(ts: seq<Tag>): (n: nat) {
    if ts == [] then 0 else SizeOf(ts[0]) + Total(ts[1..])
  }

  lemma {:induction false} TotalAdds(a: seq<Tag>, b: seq<Tag>)
    ensures Total(a + b) == Total(a) + Total(b)
  {
    if a == [] {
      assert a + b == b;
    } else {
      assert (a + b)[1..] == a[1..] + b;
      TotalAdds(a[1..], b);
    }
  }

  // ---------- specification of the clipping ----------

  /** What is left of the limit behind a bank. */
  function LeftAfter(t: Tag, limit: U32): U32 {
    if t.Other? then limit else if limit >= t.size then limit - t.size else 0
  }

  /** A bank under a limit; a bank that is cut also gives up the gap before the kernel's memory. */
  function Cut(t: Tag, limit: U32, gap: U32): Tag {
    if t.Other? then t
    else if limit == 0 then t.(size := 0)
    else if limit >= t.size then t
    else t.(size := Wrapped(limit - gap))
  }

  function Clip(ts: seq<Tag>, limit: U32, gap: U32): (c: seq<Tag>)
    ensures |c| == |ts|
  {
    if ts == [] then [] else [Cut(ts[0], limit, gap)] + Clip(ts[1..], LeftAfter(ts[0], limit), gap)
  }

  /** The last bank met while some of the limit was left: its index, or -1. */
  function LastKept(ts: seq<Tag>, limit: U32): (k: int)
    ensures -1 <= k < |ts|
    ensures k >= 0 ==> ts[k].Mem?
  {
    if ts == [] then -1
    else
      var later := LastKept(ts[1..], LeftAfter(ts[0], limit));
      if later >= 0 then later + 1 else if ts[0].Mem? && limit > 0 then 0 else -1
  }

  /** What is left of the limit at the bank that is cut covers the gap. */
  predicate GapFits(ts: seq<Tag>, limit: U32, gap: U32) {
    ts == [] || limit == 0 ||
    if ts[0].Mem? && limit < ts[0].size then limit >= gap
    else GapFits(ts[1..], LeftAfter(ts[0], limit), gap)
  }

  /** The bank list with the reserved area taken off bank k. */
  function Carve(c: seq<Tag>, k: nat, reserved: U32): (r: seq<Tag>)
    requires k < |c|
    ensures |r| == |c|
  {
    c[k := if c[k].Mem? then c[k].(size := Wrapped(c[k].size - reserved)) else Other]
  }

  // ---------- the code ----------

  /** The globals mt_fixup sets. */
  class Layout {
    var blMemSz: U32       // bl_mem_sz
    var kernelMemSz: U32   // kernel_mem_sz
    var pmemStart: U32     // pmem_start, which is FB_START
    var useBlFb: nat       // use_bl_fb

    constructor ()
      ensures blMemSz == 0 && kernelMemSz == 0 && useBlFb == 0
    {
      blMemSz, kernelMemSz, pmemStart, useBlFb := 0, 0, 0x1234_5678, 0;
    }

    /** get_max_phys_addr (lines 2176-2181); RESERVED_MEM_MODEM is zero. */
    function MaxPhysAddr(physOffset: U32): U32
      reads this
    {
      Wrapped(physOffset + kernelMemSz)
    }

    /** One memory tag of the walk (lines 1040-1071); left is max_limit_size. */
    method ClipOne(tags: array<Tag>, i: nat, left: U32, gap: U32, avail: U32, kept: int)
      returns (left': U32, avail': U32, kept': int)
      requires i < tags.Length
      modifies tags, `blMemSz
      ensures tags[..] == old(tags[..])[i := Cut(old(tags[i]), left, gap)]
      ensures left' == LeftAfter(old(tags[i]), left)
      ensures avail' == Wrapped(avail + SizeOf(tags[i])) && blMemSz == Wrapped(old(blMemSz) + SizeOf(old(tags[i])))
      ensures kept' == if old(tags[i]).Mem? && left > 0 then i else kept
    {
      left', avail', kept' := left, avail, kept;
      if tags[i].Mem? {
        blMemSz := Wrapped(blMemSz + tags[i].size);
        if left > 0 {
          if left >= tags[i].size {
            left' := left - tags[i].size;
            avail' := Wrapped(avail + tags[i].size);
          } else {
            var adjusted := left;
            adjusted := Wrapped(adjusted - gap);
            tags[i] := tags[i].(size := adjusted);
            avail' := Wrapped(avail + adjusted);
            left' := 0;
          }
          kept' := i;
        } else {
          tags[i] := tags[i].(size := 0);
        }
      }
    }

    /** The walk over the tags (lines 1039-1088): limit is max_limit_size on entry, gap is
        PHYS_OFFSET - DRAM_PHYS_ADDR_START, kept points at reserved_mem_bank_tag. */
    method ClipBanks(tags: array<Tag>, limit: U32, gap: U32) returns (avail: U32, kept: int)
      requires blMemSz == 0
      modifies tags, `blMemSz
      ensures tags[..] == Clip(old(tags[..]), limit, gap)
      ensures kept == LastKept(old(tags[..]), limit)
      ensures avail == Wrapped(Total(tags[..]))
      ensures blMemSz == Wrapped(Total(old(tags[..])))
    {
      ghost var ts := tags[..];
      var left := limit;
      avail, kept := 0, -1;
      ClipStarts(ts, limit, gap);
      var i := 0;
      while i < tags.Length
        invariant 0 <= i <= tags.Length && Clipped(ts, tags[..], i, limit, left, gap, kept, avail, blMemSz)
      {
        ClipsOn(ts, tags[..], i, limit, left, gap, kept, avail, blMemSz);
        left, avail, kept := ClipOne(tags, i, left, gap, avail, kept);
        i := i + 1;
      }
      ClipEnds(ts, tags[..], limit, left, gap, kept, avail, blMemSz);
    }

    /** Lines 1115-1119: the reservation is taken off the last bank kept; false stands for BUG(). */
    method Reserve(tags: array<Tag>, kept: int, reserved: U32) returns (ok: bool)
      requires -1 <= kept < tags.Length && (kept >= 0 ==> tags[kept].Mem?)
      modifies tags, `pmemStart
      ensures ok == (kept >= 0)
      ensures tags[..] == if ok then Carve(old(tags[..]), kept, reserved) else old(tags[..])
      ensures ok ==> pmemStart == Wrapped(StartOf(tags[kept]) + SizeOf(tags[kept]))
    {
      ok := kept >= 0;
      if ok {
        tags[kept] := tags[kept].(size := Wrapped(tags[kept].size - reserved));
        pmemStart := Wrapped(tags[kept].start + tags[kept].size);
        assert tags[..] == Carve(old(tags[..]), kept, reserved);
      }
    }

    /** Lines 1099-1108: the memory kept, and whether the boot loader found at least the limit. */
    method Sum(avail: U32, limit: U32)
      modifies `kernelMemSz, `useBlFb
      ensures kernelMemSz == avail && useBlFb == old(useBlFb) + if blMemSz >= limit then 1 else 0
    {
      kernelMemSz := avail;
      if blMemSz >= limit { useBlFb := useBlFb + 1; }
    }

    /** The part of mt_fixup that deals with memory (lines 1021-1119); false stands for BUG(). */
    method Fixup(tags: array<Tag>, limit: U32, gap: U32, reserved: U32, ghost physOffset: U32) returns (ok: bool)
      requires blMemSz == 0
      modifies tags, this
      ensures var c, k := Clip(old(tags[..]), limit, gap), LastKept(old(tags[..]), limit);
              kernelMemSz == Wrapped(Total(c)) && ok == (k >= 0) &&
              tags[..] == (if k >= 0 then Carve(c, k, reserved) else c) &&
              (k >= 0 ==> pmemStart == Wrapped(StartOf(tags[k]) + SizeOf(tags[k])))
      ensures blMemSz == Wrapped(Total(old(tags[..])))
      ensures useBlFb == old(useBlFb) + if blMemSz >= limit then 1 else 0
      ensures HasRoom(old(tags[..]), physOffset, limit, gap, reserved) ==>
                ok && AreaIsPlaced(tags[..], pmemStart, reserved, MaxPhysAddr(physOffset))
    {
      ghost var ts := tags[..];
      var avail, kept := ClipBanks(tags, limit, gap);
      Sum(avail, limit);
      KeptIsBank(ts, limit, gap);
      ok := Reserve(tags, kept, reserved);
      PlacedIfRoom(ts, physOffset, limit, gap, reserved);
    }
  }

  lemma KeptIsBank(ts: seq<Tag>, limit: U32, gap: U32)
    ensures LastKept(ts, limit) >= 0 ==> Clip(ts, limit, gap)[LastKept(ts, limit)].Mem?
  {
    if LastKept(ts, limit) >= 0 { ClipKeepsKind(ts, limit, gap, LastKept(ts, limit)); }
  }

  /** The first i tags of now are clipped and counted, the others are as in ts. */
  ghost predicate Clipped(ts: seq<Tag>, now: seq<Tag>, i: nat, limit: U32, left: U32, gap: U32,
                          kept: int, avail: U32, found: U32) {
    i <= |ts| == |now| && now[i..] == ts[i..] && Clip(ts, limit, gap) == now[..i] + Clip(ts[i..], left, gap) &&
    avail == Wrapped(Total(now[..i])) && found == Wrapped(Total(ts[..i])) &&
    var later := LastKept(ts[i..], left);
    LastKept(ts, limit) == if later >= 0 then i + later else kept
  }

  lemma WrappedAdds(a: int, b: int)
    ensures Wrapped(Wrapped(a) + b) == Wrapped(a + b)
  {
    assert a % WRAP == a - a / WRAP * WRAP;
  }

  lemma ClipStarts(ts: seq<Tag>, limit: U32, gap: U32)
    ensures Clipped(ts, ts, 0, limit, limit, gap, -1, 0, 0)
  {
    assert ts[0..] == ts && ts[..0] == [] && [] + Clip(ts, limit, gap) == Clip(ts, limit, gap);
  }

  lemma ClipEnds(ts: seq<Tag>, now: seq<Tag>, limit: U32, left: U32, gap: U32, kept: int, avail: U32, found: U32)
    requires Clipped(ts, now, |ts|, limit, left, gap, kept, avail, found)
    ensures now == Clip(ts, limit, gap) && kept == LastKept(ts, limit)
    ensures avail == Wrapped(Total(now)) && found == Wrapped(Total(ts))
  {
    assert now[..|ts|] == now && ts[..|ts|] == ts && ts[|ts|..] == [] && now + [] == now;
  }

  lemma TotalOfNext(now: seq<Tag>, i: nat, t: Tag, sum: U32)
    requires i < |now| && sum == Wrapped(Total(now[..i]))
    ensures Wrapped(sum + SizeOf(t)) == Wrapped(Total(now[i := t][..i + 1]))
  {
    assert now[i := t][..i + 1] == now[..i] + [t];
    TotalAdds(now[..i], [t]);
    assert Total([t]) == SizeOf(t);
    WrappedAdds(Total(now[..i]), SizeOf(t));
  }

  lemma ClipsOn(ts: seq<Tag>, now: seq<Tag>, i: nat, limit: U32, left: U32, gap: U32,
                kept: int, avail: U32, found: U32)
    requires Clipped(ts, now, i, limit, left, gap, kept, avail, found) && i < |ts|
    ensures var t := Cut(now[i], left, gap);
            Clipped(ts, now[i := t], i + 1, limit, LeftAfter(now[i], left), gap,
                    if now[i].Mem? && left > 0 then i else kept,
                    Wrapped(avail + SizeOf(t)), Wrapped(found + SizeOf(now[i])))
  {
    var t := Cut(now[i], left, gap);
    assert now[i] == now[i..][0] == ts[i..][0];
    TotalOfNext(now, i, t, avail);
    TotalOfNext(ts, i, ts[i], found);
    assert ts[i := ts[i]] == ts;
    assert ts[i..][1..] == ts[i + 1..] && now[i := t][i + 1..] == now[i..][1..];
    var rest := Clip(ts[i + 1..], LeftAfter(now[i], left), gap);
    assert now[..i] + ([t] + rest) == now[i := t][..i + 1] + rest;
  }

  // ---------- what the clipping keeps ----------

  lemma {:induction false} ClipTotal(ts: seq<Tag>, limit: U32, gap: U32)
    ensures GapFits(ts, limit, gap) ==> Total(Clip(ts, limit, gap)) <= limit
    ensures !GapFits(ts, limit, gap) ==> Total(Clip(ts, limit, gap)) == limit + WRAP - gap
    ensures Total(ts) <= limit ==> Total(Clip(ts, limit, gap)) == Total(ts) && GapFits(ts, limit, gap)
  {
    if ts != [] {
      ClipTotal(ts[1..], LeftAfter(ts[0], limit), gap);
      assert Clip(ts, limit, gap)[1..] == Clip(ts[1..], LeftAfter(ts[0], limit), gap);
    }
  }

  /** The kept memory stays under the limit exactly when the gap fits at the bank that is cut. */
  lemma KeptWithinLimit(ts: seq<Tag>, limit: U32, gap: U32)
    ensures Total(Clip(ts, limit, gap)) <= limit <==> GapFits(ts, limit, gap)
  {
    ClipTotal(ts, limit, gap);
  }

  /** No bank grows then. */
  lemma {:induction false} NoBankGrows(ts: seq<Tag>, limit: U32, gap: U32, k: nat)
    requires GapFits(ts, limit, gap) && k < |ts|
    ensures SizeOf(Clip(ts, limit, gap)[k]) <= SizeOf(ts[k])
  {
    if k > 0 { NoBankGrows(ts[1..], LeftAfter(ts[0], limit), gap, k - 1); }
  }

  // ---------- the clipping by the memory that lies before a bank ----------

  /** The size of bank t behind so much memory: all of it while the limit is not passed, what is left of
      the limit, less the gap, where it is, and nothing behind that. */
  function SizeUnder(t: Tag, before: nat, limit: U32, gap: U32): int {
    if before >= limit then 0
    else if before + SizeOf(t) <= limit then SizeOf(t)
    else if limit - before >= gap then limit - before - gap
    else limit - before - gap + 0x1_0000_0000
  }

  lemma TotalOfFirst(ts: seq<Tag>, j: nat)
    requires 0 < j <= |ts|
    ensures Total(ts[..j]) == SizeOf(ts[0]) + Total(ts[1..][..j - 1])
  {
    assert ts[..j][1..] == ts[1..][..j - 1];
  }

  /** Where every bank stands after the clipping: its size is that; nothing else about a tag changes. */
  lemma {:induction false} ClipAt(ts: seq<Tag>, limit: U32, gap: U32, j: nat)
    requires j < |ts|
    ensures var t, c := ts[j], Clip(ts, limit, gap)[j];
            if t.Mem? then c.Mem? && c.start == t.start && c.size == SizeUnder(t, Total(ts[..j]), limit, gap)
            else c == t
    decreases j
  {
    if j > 0 {
      ClipAt(ts[1..], LeftAfter(ts[0], limit), gap, j - 1);
      TotalOfFirst(ts, j);
    } else {
      assert ts[..0] == [];
    }
  }

  /** The limit is passed inside bank j. */
  predicate CutAt(ts: seq<Tag>, limit: nat, j: nat) {
    j < |ts| && Total(ts[..j]) < limit < Total(ts[..j]) + SizeOf(ts[j])
  }

  lemma CutLater(ts: seq<Tag>, limit: U32, j: nat)
    requires ts != [] && SizeOf(ts[0]) < limit && j < |ts| - 1
    ensures CutAt(ts[1..], LeftAfter(ts[0], limit), j) <==> CutAt(ts, limit, j + 1)
  {
    TotalOfFirst(ts, j + 1);
  }

  lemma NoneCutLater(ts: seq<Tag>, limit: U32, j: nat)
    requires ts != [] && SizeOf(ts[0]) >= limit && 0 < j
    ensures !CutAt(ts, limit, j)
  {
    if j < |ts| { TotalOfFirst(ts, j); }
  }

  /** How much is kept, to the octet: all memory up to the limit; if the limit is passed inside a bank,
      the limit less the gap; and the limit itself if it is passed at the end of a bank. */
  lemma {:induction false} KeptExactly(ts: seq<Tag>, limit: U32, gap: U32)
    requires GapFits(ts, limit, gap)
    ensures Total(ts) <= limit ==> Total(Clip(ts, limit, gap)) == Total(ts)
    ensures (exists j :: CutAt(ts, limit, j)) ==> Total(Clip(ts, limit, gap)) == limit - gap
    ensures Total(ts) > limit && (forall j :: !CutAt(ts, limit, j)) ==> Total(Clip(ts, limit, gap)) == limit
  {
    ClipTotal(ts, limit, gap);
    if ts == [] {
    } else if SizeOf(ts[0]) < limit {
      var left := LeftAfter(ts[0], limit);
      assert Clip(ts, limit, gap)[1..] == Clip(ts[1..], left, gap);
      KeptExactly(ts[1..], left, gap);
      CutsMoveOn(ts, limit);
    } else {
      assert Clip(ts, limit, gap)[1..] == Clip(ts[1..], 0, gap);
      ClipTotal(ts[1..], 0, gap);
      FirstIsLast(ts, limit, gap);
    }
  }

  lemma CutsMoveOn(ts: seq<Tag>, limit: U32)
    requires ts != [] && SizeOf(ts[0]) < limit
    ensures (exists j :: CutAt(ts, limit, j)) <==> exists j :: CutAt(ts[1..], LeftAfter(ts[0], limit), j)
  {
    if j: nat :| CutAt(ts, limit, j) {
      assert ts[..0] == [];
      CutLater(ts, limit, j - 1);
    }
    if j: nat :| CutAt(ts[1..], LeftAfter(ts[0], limit), j) {
      CutLater(ts, limit, j);
      assert CutAt(ts, limit, j + 1);
    }
  }

  lemma FirstIsLast(ts: seq<Tag>, limit: U32, gap: U32)
    requires ts != [] && SizeOf(ts[0]) >= limit && GapFits(ts, limit, gap)
    requires Clip(ts, limit, gap)[1..] == Clip(ts[1..], 0, gap) && Total(Clip(ts[1..], 0, gap)) <= 0
    ensures (exists j :: CutAt(ts, limit, j)) <==> 0 < limit < SizeOf(ts[0])
    ensures Total(Clip(ts, limit, gap)) == if 0 < limit < SizeOf(ts[0]) then limit - gap else limit
  {
    assert ts[..0] == [];
    if j: nat :| CutAt(ts, limit, j) {
      if j > 0 { NoneCutLater(ts, limit, j); }
    }
    if 0 < limit < SizeOf(ts[0]) { assert CutAt(ts, limit, 0); }
  }

  /** The last bank kept is the last that has less memory before it than the limit. */
  lemma {:induction false} LastKeptIs(ts: seq<Tag>, limit: U32, j: nat)
    requires j < |ts| && ts[j].Mem?
    ensures Total(ts[..j]) < limit ==> j <= LastKept(ts, limit)
    ensures j == LastKept(ts, limit) ==> Total(ts[..j]) < limit
    decreases j
  {
    if j > 0 {
      LastKeptIs(ts[1..], LeftAfter(ts[0], limit), j - 1);
      TotalOfFirst(ts, j);
    } else {
      assert ts[..0] == [];
    }
  }

  // ---------- what the carving keeps ----------

  lemma TotalCarved(c: seq<Tag>, k: nat, t: Tag)
    requires k < |c|
    ensures Total(c[k := t]) == Total(c) - SizeOf(c[k]) + SizeOf(t)
  {
    assert c == c[..k] + ([c[k]] + c[k + 1..]) && c[k := t] == c[..k] + ([t] + c[k + 1..]);
    TotalAdds(c[..k], [c[k]] + c[k + 1..]);
    TotalAdds(c[..k], [t] + c[k + 1..]);
  }

  lemma TakenOff(size: U32, reserved: U32)
    ensures Wrapped(size - reserved) + reserved == size <==> size >= reserved
  {}

  /** The kept memory and the reserved area make up all memory, exactly when the last kept
      bank is large enough for it. */
  lemma CarvingConserves(c: seq<Tag>, k: nat, reserved: U32)
    requires k < |c| && c[k].Mem?
    ensures Total(Carve(c, k, reserved)) + reserved == Total(c) <==> c[k].size >= reserved
  {
    TotalCarved(c, k, c[k].(size := Wrapped(c[k].size - reserved)));
    TakenOff(c[k].size, reserved);
  }

  /** The banks lie one behind the other from base on. */
  predicate Contiguous(ts: seq<Tag>, base: nat) {
    ts == [] ||
    if ts[0].Mem? then ts[0].start == base && Contiguous(ts[1..], base + ts[0].size)
    else Contiguous(ts[1..], base)
  }

  /** Without a kept bank every bank is emptied. */
  lemma {:induction false} NothingKept(ts: seq<Tag>, limit: U32, gap: U32)
    requires LastKept(ts, limit) == -1
    ensures Total(Clip(ts, limit, gap)) == 0
    ensures forall j :: 0 <= j < |ts| ==> SizeOf(Clip(ts, limit, gap)[j]) == 0
  {
    if ts != [] {
      NothingKept(ts[1..], LeftAfter(ts[0], limit), gap);
      assert Clip(ts, limit, gap)[1..] == Clip(ts[1..], LeftAfter(ts[0], limit), gap);
    }
  }

  lemma {:induction false} NothingKeptAtZero(ts: seq<Tag>)
    ensures LastKept(ts, 0) == -1
  {
    if ts != [] { NothingKeptAtZero(ts[1..]); }
  }

  /** In contiguous memory from base on, the last kept bank ends where all kept memory ends. */
  lemma {:induction false} LastKeptEnds(ts: seq<Tag>, base: nat, limit: U32, gap: U32)
    requires Contiguous(ts, base) && GapFits(ts, limit, gap) && LastKept(ts, limit) >= 0
    ensures var c, k := Clip(ts, limit, gap), LastKept(ts, limit);
            c[k].Mem? && base <= c[k].start && c[k].start + c[k].size == base + Total(c)
  {
    var rest, left := ts[1..], LeftAfter(ts[0], limit);
    assert Clip(ts, limit, gap)[1..] == Clip(rest, left, gap);
    if LastKept(rest, left) >= 0 {
      if left == 0 { NothingKeptAtZero(rest); }
      LastKeptEnds(rest, base + SizeOf(ts[0]), left, gap);
    } else {
      NothingKept(rest, left, gap);
    }
  }

  /** Every other bank lies before the last kept one or is empty. */
  lemma {:induction false} OthersLieBefore(ts: seq<Tag>, base: nat, limit: U32, gap: U32, j: nat)
    requires Contiguous(ts, base) && GapFits(ts, limit, gap) && LastKept(ts, limit) >= 0
    requires j < |ts| && ts[j].Mem? && j != LastKept(ts, limit)
    ensures var c, k := Clip(ts, limit, gap), LastKept(ts, limit);
            SizeOf(c[j]) == 0 || StartOf(c[j]) + SizeOf(c[j]) <= StartOf(c[k])
    decreases |ts|
  {
    ClipKeepsKind(ts, limit, gap, j);
    var rest, left := ts[1..], LeftAfter(ts[0], limit);
    assert Clip(ts, limit, gap)[1..] == Clip(rest, left, gap);
    if LastKept(rest, left) < 0 {
      NothingKept(rest, left, gap);
    } else {
      if left == 0 { NothingKeptAtZero(rest); }
      if j == 0 { LastKeptEnds(rest, base + SizeOf(ts[0]), left, gap); }
      else { OthersLieBefore(rest, base + SizeOf(ts[0]), left, gap, j - 1); }
    }
  }

  /** The bank is empty or ends at e or before. */
  predicate EndsBy(t: Tag, e: int) {
    SizeOf(t) == 0 || StartOf(t) + SizeOf(t) <= e
  }

  /** The reserved area [start, start + reserved) lies behind what is left of every bank and
      ends at the last address of the kept memory. */
  ghost predicate AreaIsPlaced(banks: seq<Tag>, start: nat, reserved: nat, last: nat) {
    start + reserved == last &&
    forall j :: 0 <= j < |banks| ==> EndsBy(banks[j], start)
  }

  /** The banks lie one behind the other from PHYS_OFFSET on, what is kept of them inside the address
      space, the gap fits at the bank that is cut, and the last bank kept holds the reservation. */
  predicate HasRoom(ts: seq<Tag>, physOffset: U32, limit: U32, gap: U32, reserved: U32) {
    Contiguous(ts, physOffset) && physOffset + Total(Clip(ts, limit, gap)) < WRAP && GapFits(ts, limit, gap) &&
    LastKept(ts, limit) >= 0 && SizeOf(Clip(ts, limit, gap)[LastKept(ts, limit)]) >= reserved
  }

  /** What is left of the last bank kept ends where the reserved area begins. */
  lemma AreaBegins(ts: seq<Tag>, physOffset: U32, limit: U32, gap: U32, reserved: U32)
    requires HasRoom(ts, physOffset, limit, gap, reserved)
    ensures var c, k := Clip(ts, limit, gap), LastKept(ts, limit);
            var r := Carve(c, k, reserved);
            r[k].Mem? && r[k].start == StartOf(c[k]) && r[k].start + r[k].size == physOffset + Total(c) - reserved &&
            physOffset + Total(c) < WRAP
  {
    LastKeptEnds(ts, physOffset, limit, gap);
  }

  /** What is left of any bank ends there or before. */
  lemma NoneReaches(ts: seq<Tag>, physOffset: U32, limit: U32, gap: U32, reserved: U32, j: nat)
    requires HasRoom(ts, physOffset, limit, gap, reserved) && j < |ts|
    ensures var c, k := Clip(ts, limit, gap), LastKept(ts, limit);
            var r := Carve(c, k, reserved);
            EndsBy(r[j], physOffset + Total(c) - reserved)
  {
    AreaBegins(ts, physOffset, limit, gap, reserved);
    ClipKeepsKind(ts, limit, gap, j);
    if j != LastKept(ts, limit) && ts[j].Mem? { OthersLieBefore(ts, physOffset, limit, gap, j); }
  }

  lemma AllEndBy(r: seq<Tag>, k: nat, physOffset: U32, total: nat, reserved: U32)
    requires k < |r| && StartOf(r[k]) + SizeOf(r[k]) == physOffset + total - reserved && physOffset + total < WRAP
    requires forall j :: 0 <= j < |r| ==> EndsBy(r[j], physOffset + total - reserved)
    ensures AreaIsPlaced(r, Wrapped(StartOf(r[k]) + SizeOf(r[k])), reserved, Wrapped(physOffset + Wrapped(total)))
  {}

  /** The layout mt_fixup leaves behind then. */
  lemma FrameBufferIsPlaced(ts: seq<Tag>, physOffset: U32, limit: U32, gap: U32, reserved: U32)
    requires HasRoom(ts, physOffset, limit, gap, reserved)
    ensures var c, k := Clip(ts, limit, gap), LastKept(ts, limit);
            var r := Carve(c, k, reserved);
            AreaIsPlaced(r, Wrapped(StartOf(r[k]) + SizeOf(r[k])), reserved, Wrapped(physOffset + Wrapped(Total(c))))
  {
    AreaBegins(ts, physOffset, limit, gap, reserved);
    var c := Clip(ts, limit, gap);
    var r := Carve(c, LastKept(ts, limit), reserved);
    forall j | 0 <= j < |r|
      ensures EndsBy(r[j], physOffset + Total(c) - reserved)
    {
      NoneReaches(ts, physOffset, limit, gap, reserved, j);
    }
    AllEndBy(r, LastKept(ts, limit), physOffset, Total(c), reserved);
  }

  lemma PlacedIfRoom(ts: seq<Tag>, physOffset: U32, limit: U32, gap: U32, reserved: U32)
    ensures HasRoom(ts, physOffset, limit, gap, reserved) ==>
              var c, k := Clip(ts, limit, gap), LastKept(ts, limit);
              k >= 0 && var r := Carve(c, k, reserved);
              AreaIsPlaced(r, Wrapped(StartOf(r[k]) + SizeOf(r[k])), reserved, Wrapped(physOffset + Wrapped(Total(c))))
  {
    if HasRoom(ts, physOffset, limit, gap, reserved) { FrameBufferIsPlaced(ts, physOffset, limit, gap, reserved); }
  }

  lemma {:induction false} ClipKeepsKind(ts: seq<Tag>, limit: U32, gap: U32, j: nat)
    requires j < |ts|
    ensures Clip(ts, limit, gap)[j].Mem? <==> ts[j].Mem?
    ensures ts[j].Mem? ==> Clip(ts, limit, gap)[j].start == ts[j].start
  {
    if j > 0 { ClipKeepsKind(ts[1..], LeftAfter(ts[0], limit), gap, j - 1); }
  }
}
