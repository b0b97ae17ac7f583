/** cmdline_filter of mt_devs.c: the boot loader's command line is cut into words in place and
    every word the kernel wants is appended to the kernel's own command line. */
module CommandLine {

  const UNDESIRED: seq<string> := ["console=", "root="]

  predicate Blank(c: char) {
    c == ' ' || c == '\0'
  }

  // ---------- specification: split, filter, join ----------

  /** The words of s that are ended by a blank inside s; word holds what was read before s. */
  function Split(word: string, s: string): (ws: seq<string>)
    decreases |s|
  {
    if s == [] then []
    else if !Blank(s[0]) then Split(word + [s[0]], s[1..])
    else if word == [] then Split([], s[1..])
    else [word] + Split([], s[1..])
  }

  function Words(s: string): seq<string> {
    Split([], s)
  }

  predicate Undesired(w: string) {
    exists i :: 0 <= i < |UNDESIRED| && UNDESIRED[i] <= w
  }

  function Wanted(ws: seq<string>): seq<string> {
    if ws == [] then []
    else (if Undesired(ws[0]) then [] else [ws[0]]) + Wanted(ws[1..])
  }

  /** The words, each after one space. */
  function Spaced(ws: seq<string>): string {
    if ws == [] then [] else " " + ws[0] + Spaced(ws[1..])
  }

  predicate IsWord(w: string) {
    w != [] && forall k :: 0 <= k < |w| ==> !Blank(w[k])
  }

  // ---------- the specification in characters ----------

  /** A word is dropped iff it begins with one of the two settings, the sign of equality with it. */
  lemma UndesiredIs(w: string)
    ensures Undesired(w) <==> "console=" <= w || "root=" <= w
  {
    assert UNDESIRED[0] == "console=" && UNDESIRED[1] == "root=";
  }

  lemma BeginsWith(w: string, n: nat, c: char)
    requires n < |w| && w[n] == c
    ensures forall p: string :: n < |p| && p[n] != c ==> !(p <= w)
  {}

  lemma RootwaitIsWanted()
    ensures !Undesired("rootwait")
  {
    UndesiredIs("rootwait");
    BeginsWith("rootwait", 0, 'r');
    BeginsWith("rootwait", 4, 'w');
  }

  lemma ConsoleAndRootAreNot()
    ensures Undesired("console=ttyMT3") && Undesired("root=/dev/ram")
  {
    UndesiredIs("console=ttyMT3");
    UndesiredIs("root=/dev/ram");
    assert "console=ttyMT3"[..8] == "console=" && "root=/dev/ram"[..5] == "root=";
  }

  /** The boot loader's console and root go, rootwait stays. */
  lemma RootwaitStays()
    ensures Wanted(["console=ttyMT3", "rootwait", "root=/dev/ram"]) == ["rootwait"]
    ensures Spaced(["rootwait"]) == " rootwait"
  {
    RootwaitIsWanted();
    ConsoleAndRootAreNot();
    WantedOfThree("console=ttyMT3", "rootwait", "root=/dev/ram");
    assert Spaced(["rootwait"]) == " " + "rootwait" + Spaced([]);
  }

  lemma WantedOfThree(a: string, b: string, c: string)
    requires Undesired(a) && !Undesired(b) && Undesired(c)
    ensures Wanted([a, b, c]) == [b]
  {
    assert [a, b, c][1..] == [b, c] && [b, c][1..] == [c] && [c][1..] == [];
    assert Wanted([c]) == [] && Wanted([b, c]) == [b];
  }

  lemma OneRead(word: string, c: char, rest: string)
    ensures Split(word, [c] + rest) ==
            if c != ' ' && c != '\0' then Split(word + [c], rest)
            else if word == [] then Split([], rest) else [word] + Split([], rest)
  {
    assert ([c] + rest)[1..] == rest;
  }

  /** A space or the end of a string ends a word, a tab does not; a word that nothing ends is not read. */
  lemma WordsOfOneLine()
    ensures Words("a\tb\0 c") == ["a\tb"]
  {
    OneRead("", 'a', "\tb\0 c");
    OneRead("a", '\t', "b\0 c");
    OneRead("a\t", 'b', "\0 c");
    OneRead("a\tb", '\0', " c");
    OneRead("", ' ', "c");
    OneRead("", 'c', "");
    assert ['a'] + "\tb\0 c" == "a\tb\0 c" && ['\t'] + "b\0 c" == "\tb\0 c" && ['b'] + "\0 c" == "b\0 c";
    assert ['\0'] + " c" == "\0 c" && [' '] + "c" == " c" && ['c'] + "" == "c";
    assert "" + ['a'] == "a" && "a" + ['\t'] == "a\t" && "a\t" + ['b'] == "a\tb" && "" + ['c'] == "c";
  }

  // ---------- the filter ----------

  /** The kernel's command line, a C string. */
  class Line {
    var text: string

    constructor (text: string)
      ensures this.text == text
    {
      this.text := text;
    }

    /** strcat of the C string at mem[from], which ends at end. */
    method Concatenate(mem: array<char>, from: nat, ghost end: nat)
      requires from <= end < mem.Length && mem[end] == '\0'
      requires forall k :: from <= k < end ==> mem[k] != '\0'
      modifies this
      ensures text == old(text) + mem[from..end]
    {
      var k := from;
      assert text + mem[from..from] == text;
      while mem[k] != '\0'
        invariant from <= k <= end
        invariant text == old(text) + mem[from..k]
        decreases end - k
      {
        text := text + [mem[k]];
        k := k + 1;
      }
    }
  }

  /** memcmp of a blank-free pattern with the word at mem[from..to]: the blank that ends the
      word stops the comparison at the latest. */
  method StartsWith(mem: array<char>, from: nat, ghost to: nat, pattern: string) returns (yes: bool)
    requires from <= to < mem.Length && Blank(mem[to])
    requires forall k :: 0 <= k < |pattern| ==> !Blank(pattern[k])
    ensures yes <==> pattern <= mem[from..to]
  {
    var j := 0;
    while j < |pattern| && mem[from + j] == pattern[j]
      invariant 0 <= j <= |pattern| && from + j <= to
      invariant mem[from..from + j] == pattern[..j]
    {
      j := j + 1;
    }
    assert pattern[..|pattern|] == pattern && mem[from..to][..j] == mem[from..from + j];
    assert j < |pattern| && from + j < to ==> mem[from..to][j] != pattern[j];
    yes := j == |pattern|;
  }

  /** Lines 962-967. */
  method IsUndesired(mem: array<char>, from: nat, ghost to: nat) returns (yes: bool)
    requires from <= to < mem.Length && Blank(mem[to])
    ensures yes == Undesired(mem[from..to])
  {
    yes := false;
    var i := 0;
    while i < |UNDESIRED|
      invariant 0 <= i <= |UNDESIRED|
      invariant !yes && forall k :: 0 <= k < i ==> !(UNDESIRED[k] <= mem[from..to])
    {
      PatternsAreWords(i);
      var hit := StartsWith(mem, from, to, UNDESIRED[i]);
      if hit { return true; }
      i := i + 1;
    }
  }

  lemma PatternsAreWords(i: nat)
    requires i < |UNDESIRED|
    ensures IsWord(UNDESIRED[i])
  {}

  /** The run of blanks at the end of the tag is at most the blank that ends a word, so that
      skipping blanks stays inside the tag. */
  predicate EndsTidily(s: string) {
    s == [] || !Blank(s[|s| - 1]) || (|s| >= 2 && !Blank(s[|s| - 2]))
  }

  /** Skipping blanks meets something else before the memory ends. */
  ghost predicate SkipStops(mem: seq<char>, start: nat, limit: nat)
    requires start <= limit <= |mem|
  {
    EndsTidily(mem[start..limit]) || exists k :: limit <= k < |mem| && !Blank(mem[k])
  }

  /** mem is was with some spaces of the tag turned into string ends. */
  ghost predicate OnlyCut(was: seq<char>, mem: seq<char>, start: nat, limit: nat) {
    |mem| == |was| &&
    forall k :: 0 <= k < |mem| ==> mem[k] == was[k] || (start <= k < limit && Blank(was[k]) && mem[k] == '\0')
  }

  /** What the scan still has to yield at [cs, ce). */
  function Pending(was: seq<char>, cs: nat, ce: nat, limit: nat): seq<string>
    requires cs <= ce && limit <= |was|
  {
    if ce <= limit then Split(was[cs..ce], was[ce..limit]) else []
  }

  lemma PendingSkips(was: seq<char>, cs: nat, limit: nat)
    requires cs < |was| && Blank(was[cs]) && limit <= |was|
    ensures Pending(was, cs, cs, limit) == Pending(was, cs + 1, cs + 1, limit)
  {
    assert was[cs..cs] == [] && was[cs + 1..cs + 1] == [];
    if cs < limit { assert was[cs..limit][1..] == was[cs + 1..limit]; }
  }

  lemma PendingStep(was: seq<char>, cs: nat, ce: nat, limit: nat)
    requires cs <= ce < limit <= |was|
    ensures if !Blank(was[ce]) then Pending(was, cs, ce, limit) == Pending(was, cs, ce + 1, limit)
            else if cs < ce then Pending(was, cs, ce, limit) == [was[cs..ce]] + Pending(was, ce + 1, ce + 1, limit)
            else true
  {
    assert was[ce..limit][1..] == was[ce + 1..limit];
    assert was[cs..ce] + [was[ce]] == was[cs..ce + 1];
    assert was[ce + 1..ce + 1] == [];
  }

  lemma {:induction false} WantedGrows(ws: seq<string>, w: string)
    ensures Wanted(ws + [w]) == Wanted(ws) + if Undesired(w) then [] else [w]
  {
    if ws == [] {
      assert ws + [w] == [w];
    } else {
      assert (ws + [w])[1..] == ws[1..] + [w];
      WantedGrows(ws[1..], w);
    }
  }

  lemma {:induction false} SpacedGrows(ws: seq<string>, w: string)
    ensures Spaced(ws + [w]) == Spaced(ws) + " " + w
  {
    if ws == [] {
      assert ws + [w] == [w];
    } else {
      assert (ws + [w])[1..] == ws[1..] + [w];
      SpacedGrows(ws[1..], w);
    }
  }

  lemma FindStop(was: seq<char>, start: nat, cs: nat, limit: nat) returns (end: nat)
    requires start <= cs < limit <= |was| && SkipStops(was, start, limit)
    requires cs > start ==> Blank(was[cs - 1])
    ensures cs <= end < |was| && !Blank(was[end])
  {
    if k :| limit <= k < |was| && !Blank(was[k]) {
      end := k;
    } else {
      var s := was[start..limit];
      assert s[|s| - 1] == was[limit - 1];
      end := if Blank(was[limit - 1]) then limit - 2 else limit - 1;
    }
  }

  /** Where the scan stands: [cs, ce) is the word being read, done the words dealt with. */
  ghost predicate Scanning(was: seq<char>, start: nat, limit: nat, cs: nat, ce: nat, done: seq<string>) {
    start <= cs <= ce && start <= limit <= |was| && cs <= |was| &&
    (forall k :: cs <= k < ce && k < limit ==> !Blank(was[k])) &&
    (cs == ce && cs > start ==> Blank(was[cs - 1])) &&
    Words(was[start..limit]) == done + Pending(was, cs, ce, limit)
  }

  /** After the blanks are skipped: the word being read is not empty unless the tag is over. */
  ghost predicate AtWord(was: seq<char>, start: nat, limit: nat, cs: nat, ce: nat, done: seq<string>) {
    start <= cs <= ce < |was| && start <= limit <= |was| &&
    (forall k :: cs <= k < ce ==> !Blank(was[k])) && (cs == ce ==> !Blank(was[cs])) && (limit <= ce ==> cs == ce) &&
    Words(was[start..limit]) == done + Pending(was, cs, ce, limit)
  }

  /** Lines 956-959. */
  method SkipBlanks(mem: array<char>, from: nat, to: nat, ghost start: nat, ghost limit: nat,
                    ghost was: seq<char>, ghost done: seq<string>) returns (cs: nat, ce: nat)
    requires Scanning(was, start, limit, from, to, done) && to < limit && SkipStops(was, start, limit)
    requires mem.Length == |was| && forall k :: from <= k < |was| ==> mem[k] == was[k]
    ensures AtWord(was, start, limit, cs, ce, done) && from <= cs && to <= ce
  {
    ghost var end := from;
    if from == to { end := FindStop(was, start, from, limit); }
    cs, ce := from, to;
    while Blank(mem[cs])
      invariant from <= cs <= end && to <= ce && (from == to ==> cs == ce) && (from < to ==> cs == from && ce == to)
      invariant Words(was[start..limit]) == done + Pending(was, cs, ce, limit)
      decreases end - cs
    {
      PendingSkips(was, cs, limit);
      cs := cs + 1;
      ce := cs;
    }
  }

  lemma StepsOn(was: seq<char>, start: nat, limit: nat, cs: nat, ce: nat, done: seq<string>)
    requires AtWord(was, start, limit, cs, ce, done)
    ensures !Blank(was[ce]) ==> Scanning(was, start, limit, cs, ce + 1, done)
    ensures Blank(was[ce]) ==> cs < ce < limit && Scanning(was, start, limit, ce + 1, ce + 1, done + [was[cs..ce]])
  {
    if ce < limit {
      PendingStep(was, cs, ce, limit);
      assert done + ([was[cs..ce]] + Pending(was, ce + 1, ce + 1, limit))
          == done + [was[cs..ce]] + Pending(was, ce + 1, ce + 1, limit);
    } else {
      assert was[cs..ce] == [] && (ce == limit ==> was[ce..limit] == []);
    }
  }

  /** Lines 962-976: the word mem[cs..ce], ended by a blank at ce, is appended or dropped. */
  method Keep(mem: array<char>, cs: nat, ce: nat, line: Line, ghost text: string, ghost done: seq<string>)
    requires cs < ce < mem.Length && Blank(mem[ce]) && forall k :: cs <= k < ce ==> !Blank(mem[k])
    requires line.text == text + Spaced(Wanted(done))
    modifies mem, line
    ensures line.text == text + Spaced(Wanted(done + [old(mem[cs..ce])]))
    ensures OnlyCut(old(mem[..]), mem[..], ce, ce + 1)
  {
    ghost var w := mem[cs..ce];
    WantedGrows(done, w);
    var drop := IsUndesired(mem, cs, ce);
    if !drop {
      SpacedGrows(Wanted(done), w);
      mem[ce] := '\0';
      line.text := line.text + " ";
      line.Concatenate(mem, cs, ce);
      assert mem[cs..ce] == w;
    } else {
      assert Wanted(done) + [] == Wanted(done);
    }
  }

  /** The scan with its effects: done words are appended or dropped, the rest is untouched. */
  ghost predicate Progress(was: seq<char>, mem: seq<char>, before: string, text: string,
                           start: nat, limit: nat, cs: nat, ce: nat, done: seq<string>) {
    Scanning(was, start, limit, cs, ce, done) && text == before + Spaced(Wanted(done)) &&
    OnlyCut(was, mem, start, limit) && forall k :: cs <= k < |was| ==> mem[k] == was[k]
  }

  lemma WordEnds(was: seq<char>, m0: seq<char>, m1: seq<char>, before: string, text: string,
                 start: nat, limit: nat, ce: nat, done: seq<string>)
    requires OnlyCut(was, m0, start, limit) && OnlyCut(m0, m1, ce, ce + 1) && start <= ce < limit
    requires forall k :: ce <= k < |was| ==> m0[k] == was[k]
    requires Scanning(was, start, limit, ce + 1, ce + 1, done) && text == before + Spaced(Wanted(done))
    ensures Progress(was, m1, before, text, start, limit, ce + 1, ce + 1, done)
  {}

  /** Lines 961-978 at a word [from, to): it goes on, or it is over and dealt with. */
  method Read(mem: array<char>, from: nat, to: nat, line: Line, ghost was: seq<char>, ghost before: string,
              ghost start: nat, ghost limit: nat, ghost done: seq<string>)
    returns (cs: nat, ce: nat, ghost more: seq<string>)
    requires AtWord(was, start, limit, from, to, done) && line.text == before + Spaced(Wanted(done))
    requires OnlyCut(was, mem[..], start, limit) && forall k :: from <= k < |was| ==> mem[k] == was[k]
    modifies mem, line
    ensures Progress(was, mem[..], before, line.text, start, limit, cs, ce, more) && ce == to + 1
  {
    cs, ce, more := from, to, done;
    StepsOn(was, start, limit, cs, ce, done);
    if Blank(mem[ce]) {
      assert mem[cs..ce] == was[cs..ce];
      ghost var m0 := mem[..];
      more := done + [was[cs..ce]];
      Keep(mem, cs, ce, line, before, done);
      WordEnds(was, m0, mem[..], before, line.text, start, limit, ce, more);
      cs := ce + 1;
    }
    ce := ce + 1;
  }

  /** One turn of the loop (lines 954-979). */
  method Turn(mem: array<char>, from: nat, to: nat, line: Line, ghost was: seq<char>, ghost before: string,
              ghost start: nat, ghost limit: nat, ghost done: seq<string>)
    returns (cs: nat, ce: nat, ghost more: seq<string>)
    requires Progress(was, mem[..], before, line.text, start, limit, from, to, done)
    requires to < limit && SkipStops(was, start, limit)
    modifies mem, line
    ensures Progress(was, mem[..], before, line.text, start, limit, cs, ce, more) && to < ce
  {
    cs, ce := SkipBlanks(mem, from, to, start, limit, was, done);
    cs, ce, more := Read(mem, cs, ce, line, was, before, start, limit, done);
  }

  /** cmdline_filter (lines 941-984); the tag's command line is mem[start..limit].  The result
      says whether the kernel panics because the whole line does not fit. */
  method Filter(mem: array<char>, start: nat, limit: nat, line: Line, capacity: nat) returns (panics: bool)
    requires start <= limit <= mem.Length && SkipStops(mem[..], start, limit)
    modifies mem, line
    ensures line.text == old(line.text) + Spaced(Wanted(Words(old(mem[start..limit]))))
    ensures OnlyCut(old(mem[..]), mem[..], start, limit)
    ensures panics <==> |line.text| >= capacity
  {
    ghost var was, text := mem[..], line.text;
    ghost var done: seq<string> := [];
    var cs, ce := start, start;
    assert was[cs..ce] == [] && text + Spaced(Wanted(done)) == text;
    while ce < limit
      invariant Progress(was, mem[..], text, line.text, start, limit, cs, ce, done)
      decreases limit - ce
    {
      cs, ce, done := Turn(mem, cs, ce, line, was, text, start, limit, done);
    }
    assert done + [] == done && mem[start..limit] == mem[..][start..limit];
    panics := |line.text| >= capacity;
  }

  // ---------- when the scan stays inside memory ----------

  /** Skipping blanks from cs stops at k. */
  ghost predicate SkipsTo(mem: seq<char>, cs: nat, k: nat) {
    cs <= k < |mem| && !Blank(mem[k]) && forall j :: cs <= j < k ==> Blank(mem[j])
  }

  /** The scan that reads the word [cs, ce) reads nothing behind the memory from there on.  (Of the
      memory only blanks are overwritten, by blanks.) */
  ghost predicate StaysIn(mem: seq<char>, cs: nat, ce: nat, limit: nat)
    requires cs <= ce && limit <= |mem| && forall j :: cs <= j < ce ==> j < |mem| && !Blank(mem[j])
    decreases if ce < limit then limit - ce else 0
  {
    ce >= limit ||
    exists k: nat :: SkipsTo(mem, cs, k) &&
      var e := if Blank(mem[cs]) then k else ce;
      if Blank(mem[e]) then StaysIn(mem, e + 1, e + 1, limit) else StaysIn(mem, k, e + 1, limit)
  }

  /** Something that is not blank lies behind the tag. */
  ghost predicate StopsBehind(mem: seq<char>, limit: nat) {
    exists k :: limit <= k < |mem| && !Blank(mem[k])
  }

  lemma {:induction false} FirstStop(mem: seq<char>, cs: nat, k: nat) returns (first: nat)
    requires cs <= k < |mem| && !Blank(mem[k])
    ensures SkipsTo(mem, cs, first) && first <= k
    decreases k - cs
  {
    if !Blank(mem[cs]) { first := cs; } else { first := FirstStop(mem, cs + 1, k); }
  }

  lemma TidyBehind(mem: seq<char>, cs: nat, e: nat, limit: nat)
    requires cs < e < limit <= |mem| && Blank(mem[e]) && !Blank(mem[e - 1])
    ensures EndsTidily(mem[cs..limit]) <==> EndsTidily(mem[e + 1..limit])
  {
    var s, t := mem[cs..limit], mem[e + 1..limit];
    assert s[|s| - 1] == mem[limit - 1] && s[|s| - 2] == mem[limit - 2];
    assert |t| >= 1 ==> t[|t| - 1] == mem[limit - 1];
    assert |t| >= 2 ==> t[|t| - 2] == mem[limit - 2];
  }

  lemma TidySkip(mem: seq<char>, cs: nat, k: nat, limit: nat)
    requires SkipsTo(mem, cs, k) && k < limit <= |mem|
    ensures EndsTidily(mem[cs..limit]) <==> EndsTidily(mem[k..limit])
  {
    var s, t := mem[cs..limit], mem[k..limit];
    assert s[|s| - 1] == mem[limit - 1] == t[|t| - 1];
    assert |s| >= 2 ==> s[|s| - 2] == mem[limit - 2];
    assert |t| >= 2 ==> t[|t| - 2] == mem[limit - 2];
  }

  /** One turn of the scan, when skipping blanks stops at k. */
  lemma StaysInTurn(mem: seq<char>, cs: nat, ce: nat, limit: nat, k: nat)
    requires cs <= ce < limit <= |mem| && (forall j :: cs <= j < ce ==> !Blank(mem[j])) && SkipsTo(mem, cs, k)
    ensures var e := if Blank(mem[cs]) then k else ce;
            StaysIn(mem, cs, ce, limit) <==>
            if Blank(mem[e]) then StaysIn(mem, e + 1, e + 1, limit) else StaysIn(mem, k, e + 1, limit)
  {
    SkipIsUnique(mem, cs, k);
  }

  /** From inside a word, or with no word begun. */
  lemma {:induction false} StaysInFrom(mem: seq<char>, cs: nat, ce: nat, limit: nat)
    requires cs <= ce < limit <= |mem| && forall j :: cs <= j < ce ==> !Blank(mem[j])
    ensures StaysIn(mem, cs, ce, limit) <==> EndsTidily(mem[cs..limit]) || StopsBehind(mem, limit)
    decreases limit - ce
  {
    if k: nat :| SkipsTo(mem, cs, k) {
      StaysInTurn(mem, cs, ce, limit, k);
      var e := if Blank(mem[cs]) then k else ce;
      if k < limit {
        TidySkip(mem, cs, k, limit);
        if Blank(mem[e]) {
          TidyBehind(mem, k, e, limit);
          if e + 1 < limit { StaysInFrom(mem, e + 1, e + 1, limit); }
        } else if e + 1 < limit {
          StaysInFrom(mem, k, e + 1, limit);
        } else {
          EndsInWord(mem, k, limit);
        }
      }
    } else {
      NoStop(mem, cs, limit);
    }
  }

  lemma EndsInWord(mem: seq<char>, k: nat, limit: nat)
    requires k < limit <= |mem| && !Blank(mem[limit - 1])
    ensures EndsTidily(mem[k..limit])
  {
    var s := mem[k..limit];
    assert s[|s| - 1] == mem[limit - 1];
  }

  lemma SkipIsUnique(mem: seq<char>, cs: nat, k: nat)
    requires SkipsTo(mem, cs, k)
    ensures forall j: nat :: SkipsTo(mem, cs, j) ==> j == k
  {}

  lemma NoStop(mem: seq<char>, cs: nat, limit: nat)
    requires cs < limit <= |mem| && !exists k: nat :: SkipsTo(mem, cs, k)
    ensures !EndsTidily(mem[cs..limit]) && !StopsBehind(mem, limit)
  {
    forall k | cs <= k < |mem|
      ensures Blank(mem[k])
    {
      if !Blank(mem[k]) { var first := FirstStop(mem, cs, k); }
    }
  }

  /** The filter stays inside memory iff the tag ends in at most the one blank that ends a word, or
      something that is not blank lies behind it. */
  lemma ScanStaysInIff(mem: seq<char>, start: nat, limit: nat)
    requires start <= limit <= |mem|
    ensures StaysIn(mem, start, start, limit) <==> SkipStops(mem, start, limit)
  {
    if start < limit { StaysInFrom(mem, start, start, limit); }
  }

  /** A tag with two blanks at its end, at the end of memory, is overrun. */
  lemma TwoBlanksOverrun()
    ensures !StaysIn("a  ", 0, 0, 3)
  {
    var mem := "a  ";
    ScanStaysInIff(mem, 0, |mem|);
    assert mem[0..3] == mem;
  }

  // ---------- what the words of a command line are ----------

  lemma {:induction false} SplitComposes(word: string, a: string, c: char, b: string)
    requires Blank(c)
    ensures Split(word, a + [c] + b) == Split(word, a + [c]) + Split([], b)
    decreases |a|
  {
    var s, t := a + [c] + b, a + [c];
    if a == [] {
      assert s[1..] == b && t[1..] == [];
      assert Split([], []) == [];
    } else {
      assert s[1..] == a[1..] + [c] + b && t[1..] == a[1..] + [c];
      if !Blank(a[0]) { SplitComposes(word + [a[0]], a[1..], c, b); }
      else { SplitComposes([], a[1..], c, b); }
    }
  }

  lemma {:induction false} SplitReadsOn(word: string, w: string, rest: string)
    requires forall k :: 0 <= k < |w| ==> !Blank(w[k])
    ensures Split(word, w + rest) == Split(word + w, rest)
    decreases |w|
  {
    if w == [] {
      assert w + rest == rest && word + w == word;
    } else {
      assert (w + rest)[1..] == w[1..] + rest && word + [w[0]] + w[1..] == word + w;
      SplitReadsOn(word + [w[0]], w[1..], rest);
    }
  }

  /** The laws that determine Words: a blank separates, a word ended by a blank counts, blanks
      alone do not, and an unended word does not. */
  lemma WordLaws(a: string, w: string, c: char, b: string)
    requires Blank(c) && IsWord(w)
    ensures Words(a + [c] + b) == Words(a + [c]) + Words(b)
    ensures Words(w + [c]) == [w] && Words([c]) == [] && Words(w) == [] && Words([]) == []
  {
    SplitComposes([], a, c, b);
    SplitReadsOn([], w, [c]);
    assert [] + w == w && w + [] == w && [c][1..] == [];
    assert Split(w, [c]) == [w] + Split([], []);
    SplitReadsOn([], w, []);
  }

  /** Splitting undoes joining, for any words and any separator. */
  lemma {:induction false} WordsOfJoined(ws: seq<string>, c: char)
    requires Blank(c) && forall i :: 0 <= i < |ws| ==> IsWord(ws[i])
    ensures Words(Ended(ws, c)) == ws
  {
    if ws == [] {
    } else {
      assert ws[0] + [c] + Ended(ws[1..], c) == Ended(ws, c);
      WordLaws(ws[0], ws[0], c, Ended(ws[1..], c));
      WordsOfJoined(ws[1..], c);
    }
  }

  function Ended(ws: seq<string>, c: char): string {
    if ws == [] then [] else ws[0] + [c] + Ended(ws[1..], c)
  }

  // ---------- filtering the edited command line again ----------

  lemma {:induction false} SplitIgnoresCuts(word: string, s: string, t: string)
    requires |s| == |t| && forall k :: 0 <= k < |s| ==> s[k] == t[k] || (Blank(s[k]) && Blank(t[k]))
    ensures Split(word, s) == Split(word, t)
    decreases |s|
  {
    if s != [] {
      if !Blank(s[0]) { SplitIgnoresCuts(word + [s[0]], s[1..], t[1..]); }
      else { SplitIgnoresCuts([], s[1..], t[1..]); }
    }
  }

  /** The edit keeps the words and keeps the scan inside memory, so that a second run of the
      filter appends the same words again. */
  lemma FilterAgain(was: seq<char>, mem: seq<char>, start: nat, limit: nat)
    requires start <= limit <= |was| && SkipStops(was, start, limit) && OnlyCut(was, mem, start, limit)
    ensures Words(mem[start..limit]) == Words(was[start..limit])
    ensures SkipStops(mem, start, limit)
  {
    var s, t := was[start..limit], mem[start..limit];
    forall k | 0 <= k < |s|
      ensures s[k] == t[k] || (Blank(s[k]) && Blank(t[k]))
    {
      assert s[k] == was[start + k] && t[k] == mem[start + k];
    }
    SplitIgnoresCuts([], s, t);
    if k :| limit <= k < |was| && !Blank(was[k]) {
      assert mem[k] == was[k];
    } else {
      assert EndsTidily(t);
    }
  }

  /** Filtering twice, as mt_fixup does (lines 1030-1031 and 1174). */
  method FilterTwice(mem: array<char>, start: nat, limit: nat, first: Line, second: Line, capacity: nat)
    requires start <= limit <= mem.Length && SkipStops(mem[..], start, limit) && first != second
    modifies mem, first, second
    ensures var kept := Spaced(Wanted(Words(old(mem[start..limit]))));
            first.text == old(first.text) + kept && second.text == old(second.text) + kept
  {
    ghost var was := mem[..];
    assert was[start..limit] == mem[start..limit];
    var _ := Filter(mem, start, limit, first, capacity);
    FilterAgain(was, mem[..], start, limit);
    assert mem[..][start..limit] == mem[start..limit];
    var _ := Filter(mem, start, limit, second, capacity);
  }
}
