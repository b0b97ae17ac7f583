/** The two monitor threads of bt_relayer.cpp and the fExit flag they share with RELAYER_start
    and RELAYER_exit, as steps that may follow one another in any order. */
module RelayThreads {
  import opened H4
  import opened Relaying

  /** Where a monitor is: before the check of fExit, in its reader, in its writer with done
      octets of a packet gone, or ended. */
  datatype Place = AtCheck | InRead | InWrite(p: seq<Octet>, done: nat) | Ended

  /** taken: octets read from its stream; sent: octets passed on; packets: packets passed on in
      full; failed: its reader or its writer has failed. */
  datatype Thread = Thread(place: Place, taken: seq<Octet>, sent: seq<Octet>, packets: seq<seq<Octet>>, failed: bool)

  /** starting: RELAYER_start has created the threads but not yet cleared fExit. */
  datatype State = State(starting: bool, fExit: bool, tx: Thread, rx: Thread)

  /** A thread is named by the sender it reads from: Pc for bt_tx_monitor, Chip for
      bt_rx_monitor. */
  datatype Step =
    | StartReturns                                                        // line 408
    | ExitCalled                                                          // line 437
    | Check(who: Sender)                                                  // lines 454, 491
    | Read(who: Sender, d: seq<Octet>, r: Reading, buf: seq<Octet>)       // lines 459, 496
    | Write(who: Sender, n: nat)                                          // lines 467, 504
    | WriteFails(who: Sender)                                             // lines 473, 509

  function ThreadOf(s: State, who: Sender): Thread {
    if who == Pc then s.tx else s.rx
  }

  function WithThread(s: State, who: Sender, t: Thread, fExit: bool): State {
    if who == Pc then s.(tx := t, fExit := fExit) else s.(rx := t, fExit := fExit)
  }

  predicate Fresh(t: Thread) {
    t == Thread(AtCheck, [], [], [], false)
  }

  /** RELAYER_start has just created the threads (lines 403-405); fExit is as the last relay
      left it. */
  predicate Init(s: State) {
    s.starting && Fresh(s.tx) && Fresh(s.rx)
  }

  /** n more octets of the packet are gone. */
  function Wrote(t: Thread, n: nat): Thread
    requires t.place.InWrite? && t.place.done + n <= |t.place.p|
  {
    var p, done := t.place.p, t.place.done + n;
    var u := t.(sent := t.sent + p[t.place.done..done]);
    if done == |p| then u.(place := AtCheck, packets := t.packets + [p]) else u.(place := InWrite(p, done))
  }

  /** Where bt_tx_monitor writes, a whole packet goes at once; bt_rx_monitor's may go in pieces. */
  ghost predicate Enabled(s: State, a: Step) {
    match a
    case StartReturns => s.starting
    case ExitCalled => !s.starting
    case Check(who) => ThreadOf(s, who).place == AtCheck
    case Read(who, d, r, buf) =>
      ThreadOf(s, who).place == InRead && |buf| == CAPACITY && Accounted(who, r, d, buf) && !r.Pending?
    case Write(who, n) =>
      var at := ThreadOf(s, who).place;
      at.InWrite? && 0 < n && at.done + n <= |at.p| && (who == Pc ==> n == |at.p|)
    case WriteFails(who) => ThreadOf(s, who).place.InWrite?
  }

  ghost function Next(s: State, a: Step): State
    requires Enabled(s, a)
  {
    match a
    case StartReturns => s.(starting := false, fExit := false)
    case ExitCalled => s.(fExit := true)
    case Check(who) =>
      var t := ThreadOf(s, who);
      WithThread(s, who, t.(place := if s.fExit then Ended else InRead), s.fExit)
    case Read(who, d, r, buf) =>
      var t := ThreadOf(s, who).(taken := ThreadOf(s, who).taken + d);
      (match r
       case Got(n) => WithThread(s, who, t.(place := InWrite(buf[..n], 0)), s.fExit)
       case Nothing => WithThread(s, who, t.(place := AtCheck), s.fExit)
       case _ => WithThread(s, who, t.(place := AtCheck, failed := true), true))
    case Write(who, n) =>
      WithThread(s, who, Wrote(ThreadOf(s, who), n), s.fExit)
    case WriteFails(who) =>
      WithThread(s, who, ThreadOf(s, who).(place := AtCheck, failed := true), true)
  }

  ghost predicate IsRun(s: State, run: seq<Step>)
    decreases |run|
  {
    run == [] || (Enabled(s, run[0]) && IsRun(Next(s, run[0]), run[1..]))
  }

  ghost function After(s: State, run: seq<Step>): State
    requires IsRun(s, run)
    decreases |run|
  {
    if run == [] then s else After(Next(s, run[0]), run[1..])
  }

  // ---------- what every run keeps ----------

  /** What a thread has passed on is what its reader makes of the octets it took, packet by
      packet, with the beginning of at most one more packet behind the whole ones. */
  ghost predicate Sound(t: Thread, who: Sender) {
    Complete(who, t.taken, CAPACITY) &&
    match t.place
    case InWrite(p, done) =>
      done < |p| && t.packets + [p] == Relayed(who, t.taken, CAPACITY) && t.sent == Flat(t.packets) + p[..done]
    case _ => t.packets == Relayed(who, t.taken, CAPACITY) && t.sent == Flat(t.packets)
  }

  /** A thread that failed: its reader has left a packet begun, or its writer did not send all of
      the last packet. */
  ghost predicate Cut(t: Thread, who: Sender) {
    var all := Relayed(who, t.taken, CAPACITY);
    if Complete(who, t.taken, CAPACITY)
    then |all| == |t.packets| + 1 && t.packets <= all && Flat(t.packets) <= t.sent < Flat(all)
    else t.packets == all && t.sent == Flat(all)
  }

  ghost predicate ThreadInv(t: Thread, who: Sender) {
    if t.failed then Cut(t, who) && t.place in {AtCheck, Ended} else Sound(t, who)
  }

  /** A failed thread that has not ended will, for it has seen to fExit. */
  ghost predicate Inv(s: State) {
    ThreadInv(s.tx, Pc) && ThreadInv(s.rx, Chip) && (GoesOnFailed(s.tx) || GoesOnFailed(s.rx) ==> s.fExit)
  }

  predicate GoesOnFailed(t: Thread) {
    t.failed && t.place != Ended
  }

  /** The output is the first octets of what the thread should pass on of what it has read. */
  ghost predicate Clean(t: Thread, who: Sender) {
    t.sent <= Flat(Relayed(who, t.taken, CAPACITY))
  }

  ghost predicate BothClean(s: State) {
    Clean(s.tx, Pc) && Clean(s.rx, Chip)
  }

  lemma InvIsClean(t: Thread, who: Sender)
    requires ThreadInv(t, who)
    ensures Clean(t, who)
  {
    if t.place.InWrite? {
      FlatAdds(t.packets, [t.place.p]);
      assert Flat([t.place.p]) == t.place.p;
    }
  }

  lemma CheckKeeps(t: Thread, who: Sender, fExit: bool)
    requires ThreadInv(t, who) && t.place == AtCheck && (t.failed ==> fExit)
    ensures ThreadInv(t.(place := if fExit then Ended else InRead), who)
  {}

  lemma ReadKeeps(t: Thread, who: Sender, d: seq<Octet>, r: Reading, buf: seq<Octet>)
    requires ThreadInv(t, who) && t.place == InRead && |buf| == CAPACITY && Accounted(who, r, d, buf) && !r.Pending?
    ensures var u := t.(taken := t.taken + d);
            match r
            case Got(n) => ThreadInv(u.(place := InWrite(buf[..n], 0)), who)
            case Nothing => ThreadInv(u.(place := AtCheck), who)
            case _ => ThreadInv(u.(place := AtCheck, failed := true), who)
  {
    TakesMore(who, t.taken, t.packets, d, r, buf);
    assert Flat(t.packets) + [] == Flat(t.packets);
  }

  lemma WriteKeeps(t: Thread, who: Sender, n: nat)
    requires ThreadInv(t, who) && t.place.InWrite? && 0 < n && t.place.done + n <= |t.place.p|
    ensures ThreadInv(Wrote(t, n), who) && Wrote(t, n).failed == t.failed
  {
    var p, done := t.place.p, t.place.done;
    assert p[..done] + p[done..done + n] == p[..done + n];
    assert Flat(t.packets) + p[..done] + p[done..done + n] == Flat(t.packets) + p[..done + n];
    FlatAdds(t.packets, [p]);
    assert Flat([p]) == p && p[..|p|] == p;
  }

  lemma WriteFailKeeps(t: Thread, who: Sender)
    requires ThreadInv(t, who) && t.place.InWrite?
    ensures ThreadInv(t.(place := AtCheck, failed := true), who)
  {
    FlatAdds(t.packets, [t.place.p]);
    assert Flat([t.place.p]) == t.place.p;
  }

  lemma OtherStays(s: State, who: Sender, t: Thread, fExit: bool)
    requires Inv(s) && ThreadInv(t, who) && (GoesOnFailed(t) || s.fExit ==> fExit)
    ensures Inv(WithThread(s, who, t, fExit))
  {}

  lemma CheckStep(s: State, who: Sender)
    requires Inv(s) && Enabled(s, Check(who))
    ensures Inv(Next(s, Check(who)))
  {
    var t := ThreadOf(s, who);
    CheckKeeps(t, who, s.fExit);
    OtherStays(s, who, t.(place := if s.fExit then Ended else InRead), s.fExit);
  }

  lemma ReadStep(s: State, who: Sender, d: seq<Octet>, r: Reading, buf: seq<Octet>)
    requires Inv(s) && Enabled(s, Read(who, d, r, buf))
    ensures Inv(Next(s, Read(who, d, r, buf)))
  {
    var t := ThreadOf(s, who);
    ReadKeeps(t, who, d, r, buf);
    var u := t.(taken := t.taken + d);
    match r
    case Got(n) => OtherStays(s, who, u.(place := InWrite(buf[..n], 0)), s.fExit);
    case Nothing => OtherStays(s, who, u.(place := AtCheck), s.fExit);
    case _ => OtherStays(s, who, u.(place := AtCheck, failed := true), true);
  }

  lemma WriteStep(s: State, who: Sender, n: nat)
    requires Inv(s) && Enabled(s, Write(who, n))
    ensures Inv(Next(s, Write(who, n)))
  {
    var t := ThreadOf(s, who);
    WriteKeeps(t, who, n);
    OtherStays(s, who, Wrote(t, n), s.fExit);
  }

  lemma WriteFailStep(s: State, who: Sender)
    requires Inv(s) && Enabled(s, WriteFails(who))
    ensures Inv(Next(s, WriteFails(who)))
  {
    var t := ThreadOf(s, who);
    WriteFailKeeps(t, who);
    OtherStays(s, who, t.(place := AtCheck, failed := true), true);
  }

  /** Every step but the return of RELAYER_start keeps the invariant and never takes fExit back. */
  lemma StepKeepsInv(s: State, a: Step)
    requires Inv(s) && Enabled(s, a) && !a.StartReturns?
    ensures Inv(Next(s, a)) && (s.fExit ==> Next(s, a).fExit)
  {
    match a
    case ExitCalled =>
    case Check(who) => CheckStep(s, who);
    case Read(who, d, r, buf) => ReadStep(s, who, d, r, buf);
    case Write(who, n) => WriteStep(s, who, n);
    case WriteFails(who) => WriteFailStep(s, who);
  }

  lemma NoSecondStart(s: State, a: Step)
    requires !s.starting && Enabled(s, a)
    ensures !a.StartReturns? && !Next(s, a).starting
  {}

  /** Safety over whole runs: once RELAYER_start has returned, fExit never goes back to false,
      and both outputs stay whole packets with at most one partial one behind. */
  lemma {:induction false} RunKeepsInv(s: State, run: seq<Step>)
    requires Inv(s) && !s.starting && IsRun(s, run)
    ensures Inv(After(s, run)) && !After(s, run).starting && (s.fExit ==> After(s, run).fExit)
    decreases |run|
  {
    if run != [] {
      NoSecondStart(s, run[0]);
      StepKeepsInv(s, run[0]);
      RunKeepsInv(Next(s, run[0]), run[1..]);
    }
  }

  lemma InitHasInv(s: State)
    requires Init(s)
    ensures Inv(s)
  {
    assert Relayed(Pc, [], CAPACITY) == [] && Relayed(Chip, [], CAPACITY) == [];
    assert Flat([]) == [];
  }

  /** What the threads do between their creation and the return of RELAYER_start. */
  ghost predicate WhileStarting(s: State, run: seq<Step>) {
    IsRun(s, run) && forall k :: 0 <= k < |run| ==> !run[k].StartReturns?
  }

  lemma {:induction false} StartingKeepsInv(s: State, run: seq<Step>)
    requires Inv(s) && s.starting && WhileStarting(s, run)
    ensures Inv(After(s, run)) && After(s, run).starting
    decreases |run|
  {
    if run != [] {
      assert !run[0].StartReturns?;
      StepKeepsInv(s, run[0]);
      StartingKeepsInv(Next(s, run[0]), run[1..]);
    }
  }

  /** Whole runs, from the creation of the threads on: if no thread goes on failed when
      RELAYER_start returns, the invariant holds ever after and fExit never goes back. */
  lemma RunsFromStart(s: State, before: seq<Step>, middle: seq<Step>, last: seq<Step>)
    requires Init(s) && WhileStarting(s, before)
    requires !GoesOnFailed(After(s, before).tx) && !GoesOnFailed(After(s, before).rx) && After(s, before).starting
    requires var n := Next(After(s, before), StartReturns);
             IsRun(n, middle) && IsRun(After(n, middle), last)
    ensures var m := After(Next(After(s, before), StartReturns), middle);
            Inv(m) && Inv(After(m, last)) && (m.fExit ==> After(m, last).fExit)
  {
    InitHasInv(s);
    StartingKeepsInv(s, before);
    var n := Next(After(s, before), StartReturns);
    RunKeepsInv(n, middle);
    RunKeepsInv(After(n, middle), last);
  }

  // ---------- stopping ----------

  /** How many more packets a thread may pass on once fExit is set. */
  function Budget(t: Thread): nat {
    if t.place.InRead? || t.place.InWrite? then 1 else 0
  }

  lemma StepSpendsBudget(s: State, a: Step, who: Sender)
    requires s.fExit && !s.starting && Enabled(s, a)
    ensures var t, u := ThreadOf(s, who), ThreadOf(Next(s, a), who);
            Next(s, a).fExit && |t.packets| <= |u.packets| && |u.packets| + Budget(u) <= |t.packets| + Budget(t)
  {}

  /** Each thread passes on at most one further packet once fExit is set. */
  lemma {:induction false} AtMostOneMore(s: State, run: seq<Step>, who: Sender)
    requires s.fExit && !s.starting && IsRun(s, run)
    ensures var t, u := ThreadOf(s, who), ThreadOf(After(s, run), who);
            |t.packets| <= |u.packets| <= |t.packets| + Budget(t) - Budget(u) && Budget(t) <= 1
    decreases |run|
  {
    if run != [] {
      StepSpendsBudget(s, run[0], who);
      NoSecondStart(s, run[0]);
      AtMostOneMore(Next(s, run[0]), run[1..], who);
    }
  }

  // ---------- the start race ----------

  /** A small data packet, of either direction, that does not begin with octet b. */
  function Other(b: Octet): (p: seq<Octet>)
    ensures |p| >= 4 && p[0] != b
  {
    if b == ACL then [SCO, 0, 0, 0] else [ACL, 0, 0, 0, 0]
  }

  function Buffered(p: seq<Octet>): (b: seq<Octet>)
    requires |p| <= CAPACITY
    ensures |b| == CAPACITY && b[..|p|] == p
  {
    p + seq(CAPACITY - |p|, _ => 0)
  }

  lemma OtherIsRead(who: Sender, b: Octet)
    ensures var p := Other(b);
            |p| <= 5 && Accounted(who, Got(|p|), p, Buffered(p)) && Complete(who, p, CAPACITY) &&
            Relayed(who, p, CAPACITY) == [p]
  {
    var p := Other(b);
    assert DataSize(p) == 0 && IsPacket(who, p, CAPACITY);
    OnePacket(who, p, CAPACITY);
    ExplainedAccounts(who, Got(|p|), p, Buffered(p));
  }

  /** The octet a failed thread must not go on with. */
  ghost function Missing(t: Thread, who: Sender): Octet
    requires t.failed && Cut(t, who)
  {
    if Complete(who, t.taken, CAPACITY) then Flat(Relayed(who, t.taken, CAPACITY))[|t.sent|]
    else Rest(who, t.taken, CAPACITY)[0]
  }

  /** A failed thread that reads and passes on one more packet, which begins with another octet
      than the one it owes, has garbled its output. */
  lemma FailedGarbles(t: Thread, who: Sender)
    requires t.failed && Cut(t, who)
    ensures var p := Other(Missing(t, who));
            !(t.sent + p <= Flat(Relayed(who, t.taken + p, CAPACITY)))
  {
    var p, all := Other(Missing(t, who)), Relayed(who, t.taken, CAPACITY);
    var c := Rest(who, t.taken, CAPACITY);
    RestComposes(who, t.taken, p, CAPACITY);
    FlatAdds(all, Relayed(who, c + p, CAPACITY));
    if c == [] {
      BehindCut(t.sent, p, Flat(all), Flat(Relayed(who, c + p, CAPACITY)));
    } else {
      NotPassedOn(who, c, p, CAPACITY);
      PrefixBehind(Flat(all), p, Flat(Relayed(who, c + p, CAPACITY)));
    }
  }

  lemma BehindCut(sent: seq<Octet>, p: seq<Octet>, all: seq<Octet>, more: seq<Octet>)
    requires sent < all && p != [] && p[0] != all[|sent|]
    ensures !(sent + p <= all + more)
  {
    assert (sent + p)[|sent|] == p[0] && (all + more)[|sent|] == all[|sent|];
  }

  lemma PrefixBehind(a: seq<Octet>, p: seq<Octet>, b: seq<Octet>)
    ensures a + p <= a + b ==> p <= b
  {
    assert (a + p)[|a|..] == p && (a + b)[|a|..] == b;
  }

  /** The three steps in which that happens once fExit is false. */
  lemma GarblingRun(s: State, who: Sender) returns (run: seq<Step>)
    requires !s.fExit && ThreadOf(s, who).failed && ThreadOf(s, who).place == AtCheck && Cut(ThreadOf(s, who), who)
    ensures IsRun(s, run) && !Clean(ThreadOf(After(s, run), who), who)
  {
    var t := ThreadOf(s, who);
    var p := Other(Missing(t, who));
    FailedGarbles(t, who);
    run := PassesOn(s, who, Missing(t, who));
  }

  lemma ReadsOther(s: State, who: Sender, b: Octet)
    requires ThreadOf(s, who).place == InRead
    ensures var p := Other(b); var a := Read(who, p, Got(|p|), Buffered(p));
            var t := ThreadOf(s, who);
            Enabled(s, a) && ThreadOf(Next(s, a), who) == t.(taken := t.taken + p, place := InWrite(p, 0))
  {
    OtherIsRead(who, b);
    var p := Other(b);
    assert Buffered(p)[..|p|] == p;
  }

  lemma WritesAll(s: State, who: Sender, p: seq<Octet>)
    requires p != [] && ThreadOf(s, who).place == InWrite(p, 0)
    ensures var a := Write(who, |p|);
            var t := ThreadOf(s, who);
            Enabled(s, a) && ThreadOf(Next(s, a), who).sent == t.sent + p && ThreadOf(Next(s, a), who).taken == t.taken
  {
    assert p[0..|p|] == p;
  }

  /** A thread before its check of fExit, which is false, may read and pass on such a packet. */
  lemma PassesOn(s: State, who: Sender, b: Octet) returns (run: seq<Step>)
    requires !s.fExit && ThreadOf(s, who).place == AtCheck
    ensures IsRun(s, run)
    ensures var t, e := ThreadOf(s, who), ThreadOf(After(s, run), who);
            e.taken == t.taken + Other(b) && e.sent == t.sent + Other(b)
  {
    var p := Other(b);
    var a0, a1, a2 := Check(who), Read(who, p, Got(|p|), Buffered(p)), Write(who, |p|);
    var s1 := Next(s, a0);
    ReadsOther(s1, who, b);
    var s2 := Next(s1, a1);
    WritesAll(s2, who, p);
    RunStep(s2, a2, []);
    RunStep(s1, a1, [a2]);
    RunStep(s, a0, [a1, a2]);
    run := [a0, a1, a2];
  }

  lemma RunStep(s: State, a: Step, rest: seq<Step>)
    requires Enabled(s, a) && IsRun(Next(s, a), rest)
    ensures IsRun(s, [a] + rest) && After(s, [a] + rest) == After(Next(s, a), rest)
  {
    assert ([a] + rest)[1..] == rest;
  }

  /** Whatever the threads do from here on, both outputs stay clean. */
  ghost predicate StaysClean(s: State) {
    forall run :: IsRun(s, run) ==> BothClean(After(s, run))
  }

  lemma CleanForEver(s: State)
    requires Inv(s) && !s.starting
    ensures StaysClean(s)
  {
    forall run | IsRun(s, run)
      ensures BothClean(After(s, run))
    {
      RunKeepsInv(s, run);
      InvIsClean(After(s, run).tx, Pc);
      InvIsClean(After(s, run).rx, Chip);
    }
  }

  /** RELAYER_start creates the threads and clears fExit afterwards (lines 403-408).  Whatever they
      have done by then, their outputs are still clean; and they stay so on every run from there
      on iff no thread has failed that has not ended yet. */
  lemma StartStaysCleanIff(s: State, before: seq<Step>)
    requires Init(s) && WhileStarting(s, before)
    ensures var e := After(s, before);
            e.starting && BothClean(e) &&
            (StaysClean(Next(e, StartReturns)) <==> !GoesOnFailed(e.tx) && !GoesOnFailed(e.rx))
  {
    InitHasInv(s);
    StartingKeepsInv(s, before);
    var e := After(s, before);
    InvIsClean(e.tx, Pc);
    InvIsClean(e.rx, Chip);
    var n := Next(e, StartReturns);
    if !GoesOnFailed(e.tx) && !GoesOnFailed(e.rx) {
      CleanForEver(n);
    } else {
      var who := if GoesOnFailed(e.tx) then Pc else Chip;
      var run := GarblingRun(n, who);
      assert IsRun(n, run) && !BothClean(After(n, run));
    }
  }

  /** The failing case does happen: a write to the PC that fails at once, from the first state on. */
  lemma StartRaceGarbles(s: State) returns (before: seq<Step>)
    requires Init(s) && !s.fExit
    ensures WhileStarting(s, before) && After(s, before).starting && GoesOnFailed(After(s, before).rx)
    ensures !StaysClean(Next(After(s, before), StartReturns))
  {
    var p := Other(0);
    OtherIsRead(Chip, 0);
    var a0, a1, a2 := Check(Chip), Read(Chip, p, Got(|p|), Buffered(p)), WriteFails(Chip);
    var s1 := Next(s, a0);
    var s2 := Next(s1, a1);
    RunStep(s2, a2, []);
    RunStep(s1, a1, [a2]);
    RunStep(s, a0, [a1, a2]);
    before := [a0, a1, a2];
    StartStaysCleanIff(s, before);
  }

  // ---------- whether the relay runs at all once it is started ----------

  predicate Running(t: Thread) {
    t.place != Ended
  }

  /** Until RELAYER_start returns, fExit is as the last relay left it or a thread has failed, and no
      thread has ended unless it is set. */
  predicate StartState(s: State, fExit: bool) {
    s.fExit == (fExit || s.tx.failed || s.rx.failed) &&
    (!s.fExit ==> Running(s.tx) && Running(s.rx))
  }

  lemma {:induction false} StartingKeepsState(s: State, run: seq<Step>, fExit: bool)
    requires s.starting && StartState(s, fExit) && WhileStarting(s, run)
    ensures StartState(After(s, run), fExit)
    decreases |run|
  {
    if run != [] {
      assert !run[0].StartReturns?;
      StartingKeepsState(Next(s, run[0]), run[1..], fExit);
    }
  }

  ghost predicate NoneFailed(s: State) {
    !s.tx.failed && !s.rx.failed
  }

  /** The relay is up: both threads are still running when RELAYER_start returns. */
  ghost predicate Up(s: State) {
    Running(s.tx) && Running(s.rx)
  }

  /** Whatever the threads do before RELAYER_start returns, as long as they do not fail. */
  ghost predicate ComesUp(s: State) {
    forall before :: WhileStarting(s, before) && NoneFailed(After(s, before)) ==> Up(After(s, before))
  }

  /** As fExit was left set by the last RELAYER_exit, a thread that gets to its check in time ends. */
  lemma EndsAtOnce(s: State) returns (before: seq<Step>)
    requires Init(s) && s.fExit
    ensures WhileStarting(s, before) && After(s, before) == s.(tx := s.tx.(place := Ended), rx := s.rx.(place := Ended))
  {
    var a0, a1 := Check(Pc), Check(Chip);
    var s1 := Next(s, a0);
    assert Enabled(s1, a1) && IsRun(Next(s1, a1), []);
    RunStep(s1, a1, []);
    RunStep(s, a0, [a1]);
    before := [a0, a1];
  }

  /** Both threads are still running once RELAYER_start has returned, on every schedule in which they do
      not fail, iff fExit was not set before the call. */
  lemma ComesUpIff(s: State)
    requires Init(s)
    ensures ComesUp(s) <==> !s.fExit
  {
    if s.fExit {
      var before := EndsAtOnce(s);
      assert !Up(After(s, before));
    } else {
      forall before | WhileStarting(s, before) && NoneFailed(After(s, before))
        ensures Up(After(s, before))
      {
        StartingKeepsState(s, before, false);
      }
    }
  }

  /** On one schedule, with fExit set: a thread is still running iff it has not come to its check yet. */
  lemma {:induction false} RunsIffUnchecked(s: State, before: seq<Step>, who: Sender)
    requires s.fExit && s.starting && ThreadOf(s, who).place == AtCheck && WhileStarting(s, before)
    ensures Running(ThreadOf(After(s, before), who)) <==> Check(who) !in before
    decreases |before|
  {
    if before != [] {
      var a, n := before[0], Next(s, before[0]);
      assert !a.StartReturns? && before == [a] + before[1..];
      if a == Check(who) {
        EndedForEver(n, before[1..], who);
      } else {
        RunsIffUnchecked(n, before[1..], who);
      }
    }
  }

  /** A thread that has ended takes no further step: it reads nothing and passes nothing on. */
  lemma {:induction false} EndedForEver(s: State, run: seq<Step>, who: Sender)
    requires IsRun(s, run) && !Running(ThreadOf(s, who))
    ensures ThreadOf(After(s, run), who) == ThreadOf(s, who)
    decreases |run|
  {
    if run != [] { EndedForEver(Next(s, run[0]), run[1..], who); }
  }

  /** The relay is dead for good then, although RELAYER_start has returned and cleared fExit. */
  lemma RestartMayBeDead(s: State) returns (before: seq<Step>)
    requires Init(s) && s.fExit
    ensures WhileStarting(s, before) && After(s, before).starting
    ensures var n := Next(After(s, before), StartReturns);
            !n.fExit && forall run :: IsRun(n, run) ==> After(n, run).tx.sent == [] && After(n, run).rx.sent == []
  {
    before := EndsAtOnce(s);
    var n := Next(After(s, before), StartReturns);
    forall run | IsRun(n, run)
      ensures After(n, run).tx.sent == [] && After(n, run).rx.sent == []
    {
      EndedForEver(n, run, Pc);
      EndedForEver(n, run, Chip);
    }
  }
}
