/** What recovery does not bring back. Decisions logged beyond the recovered prefix are known to
    their learners but not put back into the waiting set, and a learner that is informed never
    hands its command on again. Which positions those are, and which restart executes them, is read
    off the log: a full log counts as an empty prefix. */
module Stall {
  import opened Wire
  import opened Endpoint
  import opened Roles
  import opened Consensus
  import opened Safety
  import opened Invariant
  import opened LogFile
  import opened Executor
  import opened Cluster
  import opened Records
  import opened Replication
  import opened Solo

  /** Server i has yet to execute instance s, knows its decision, and does not hold its command. */
  predicate Stuck(o: Options, c: System, i: nat, s: nat) {
    && s > 0 && i < |c.servers|
    && InformedAt(At(o, c, s), i)
    && Passes(c.servers[i].engine, s)
  }

  predicate Passes(e: Engine, s: nat) {
    e.executed < s && s !in e.waiting
  }

  // ---- the executor cannot get past it ----

  lemma {:induction false} DrainPasses(amo: bool, e: Engine, s: nat)
    requires Passes(e, s)
    ensures Passes(Drain(amo, e).0, s)
    decreases |e.waiting|
  {
    var next := e.executed + 1;
    if next in e.waiting {
      DrainPasses(amo, Advance(amo, e.(waiting := e.waiting - {next}), e.waiting[next]).0, s);
    }
  }

  lemma TryExecutePasses(amo: bool, e: Engine, c: Message, s: nat)
    requires Passes(e, s) && c.sequence != s
    ensures Passes(TryExecute(amo, e, c).0, s)
  {
    if c.sequence == e.executed + 1 {
      DrainPasses(amo, Advance(amo, e, c).0, s);
    }
  }

  lemma DecidePasses(amo: bool, id: nat, v: Server, command: Option<Message>, s: nat)
    requires Passes(v.engine, s) && (command.Some? ==> command.value.sequence != s)
    ensures Passes(Decide(amo, id, v, command).engine, s)
  {
    DecideMoves(amo, id, v, command);
    if command.Some? {
      TryExecutePasses(amo, v.engine, command.value, s);
    }
  }

  // ---- no action but its own restart frees a stuck server ----

  /** Instance r takes event e, and no server's engine moves. */
  ghost predicate OneEvent(o: Options, c: System, d: System, r: nat, e: Event) {
    && Enabled(o.cfg, At(o, c, r), e)
    && d.insts == c.insts[r := Apply(o.cfg, At(o, c, r), e)]
    && |d.servers| == |c.servers|
    && forall j :: 0 <= j < |c.servers| ==> d.servers[j].engine == c.servers[j].engine
  }

  lemma EventKeepsInformed(o: Options, c: System, d: System, r: nat, e: Event, i: nat, s: nat)
    requires GoodSystem(o, c) && Sound(o.cfg) && r > 0 && Enabled(o.cfg, At(o, c, r), e)
    requires d.insts == c.insts[r := Apply(o.cfg, At(o, c, r), e)] && InformedAt(At(o, c, s), i)
    ensures InformedAt(At(o, d, s), i)
  {
    if s == r {
      AtIsGood(o, c, r);
      HeardStays(o, At(o, c, r), e, i, At(o, c, r).nodes[i].learner.value);
    }
  }

  lemma OneEventKeepsStuck(o: Options, c: System, d: System, r: nat, e: Event, i: nat, s: nat)
    requires GoodSystem(o, c) && Sound(o.cfg) && r > 0 && OneEvent(o, c, d, r, e) && Stuck(o, c, i, s)
    ensures Stuck(o, d, i, s)
  {
    EventKeepsInformed(o, c, d, r, e, i, s);
  }

  lemma SubmitEvent(o: Options, c: System, i: nat, m: Message)
    requires i < |c.servers| && SubmitOpen(o, c, i)
    ensures var r := NextSlot(c, i); OneEvent(o, c, SubmitAt(o, c, i, m), r, Submission(i, ToSlot(m, r)))
  {
  }

  lemma SubmissionKeepsStuck(o: Options, c: System, x: System, j: nat, m: Message, i: nat, s: nat)
    requires GoodSystem(o, c) && Sound(o.cfg) && Stuck(o, c, i, s)
    requires x.insts == c.insts && |x.servers| == |c.servers|
    requires forall k :: 0 <= k < |c.servers| ==> x.servers[k].engine == c.servers[k].engine
    requires j < |x.servers| && SubmitOpen(o, x, j)
    ensures Stuck(o, SubmitAt(o, x, j, m), i, s)
  {
    var r := NextSlot(x, j);
    SubmitEvent(o, x, j, m);
    assert At(o, x, r) == At(o, c, r);
    OneEventKeepsStuck(o, c, SubmitAt(o, x, j, m), r, Submission(j, ToSlot(m, r)), i, s);
  }

  lemma ReceiveKeepsStuck(o: Options, c: System, r: nat, p: Packet, i: nat, s: nat)
    requires GoodSystem(o, c) && Sound(o.cfg) && CanDo(o, c, Receive(r, p)) && Stuck(o, c, i, s)
    ensures Stuck(o, Do(o, c, Receive(r, p)), i, s)
  {
    var t, d := c.insts[r], Do(o, c, Receive(r, p));
    assert GoodInst(o, t, r) && PacketInv(t, p);
    var e := Dispatch(|t.nodes|, o.cfg.recovery, p.dst, t.nodes[p.dst], p.msg);
    ReceiveShape(o, c, r, p);
    EventKeepsInformed(o, c, d, r, Deliver(p), i, s);
    if p.dst == i {
      DispatchIsFaithful(|t.nodes|, o.cfg.recovery, i, t.nodes[i], p.msg);
      InformedIsSilent(|t.nodes|, o.cfg.recovery, i, t.nodes[i], p.msg);
      LogWritesKeeps(o.cfg.recovery, c.servers[i], r, e);
      DecidePasses(o.amo, i, LogWrites(o.cfg.recovery, c.servers[i], r, e), e.command, s);
    }
  }

  /** An informed learner never hands a command on. */
  lemma InformedIsSilent(n: nat, recovery: bool, id: nat, x: Node, m: Message)
    ensures x.learner.informed ==> Dispatch(n, recovery, id, x, m).command.None?
  {
  }

  lemma RebootKeepsStuck(o: Options, c: System, d: System, j: nat, i: nat, s: nat)
    requires Rebooted(o, c, d, j) && j != i && Stuck(o, c, i, s)
    ensures Stuck(o, d, i, s)
  {
    if s in c.insts {
      assert Restarted(o, c.insts[s], d.insts[s], j);
    }
  }

  lemma QuietKeepsStuck(o: Options, c: System, r: nat, e: Event, i: nat, s: nat)
    requires GoodSystem(o, c) && Sound(o.cfg) && r in c.insts && Enabled(o.cfg, c.insts[r], e) && Stuck(o, c, i, s)
    ensures Stuck(o, SetAt(c, r, Apply(o.cfg, c.insts[r], e)), i, s)
  {
    assert GoodInst(o, c.insts[r], r);
    OneEventKeepsStuck(o, c, SetAt(c, r, Apply(o.cfg, c.insts[r], e)), r, e, i, s);
  }

  lemma ClientKeepsStuck(o: Options, c: System, j: nat, from: Udp4, m: Message, i: nat, s: nat)
    requires GoodSystem(o, c) && Sound(o.cfg) && CanDo(o, c, Client(j, from, m)) && Stuck(o, c, i, s)
    ensures Stuck(o, Do(o, c, Client(j, from, m)), i, s)
  {
    var w := Stamp(from, m);
    ClientShape(o, c, j, from, m);
    SubmissionKeepsStuck(o, c, c.(clients := c.clients + {w.value}), j, w, i, s);
  }

  lemma ResubmitKeepsStuck(o: Options, c: System, j: nat, m: Message, i: nat, s: nat)
    requires GoodSystem(o, c) && Sound(o.cfg) && CanDo(o, c, Resubmit(j, m)) && Stuck(o, c, i, s)
    ensures Stuck(o, Do(o, c, Resubmit(j, m)), i, s)
  {
    var v := c.servers[j];
    var w := v.(resubmits := v.resubmits - multiset{m}, expected := v.expected - {m.sequence});
    ResubmitShape(o, c, j, m);
    ForgettingKeepsStuck(o, c, SetServer(c, j, w), j, w, m, i, s);
  }

  lemma ForgettingKeepsStuck(o: Options, c: System, x: System, j: nat, w: Server, m: Message, i: nat, s: nat)
    requires GoodSystem(o, c) && Sound(o.cfg) && Stuck(o, c, i, s) && j < |c.servers|
    requires x == SetServer(c, j, w) && w.engine == c.servers[j].engine && SubmitOpen(o, x, j)
    ensures Stuck(o, SubmitAt(o, x, j, m), i, s)
  {
    SubmissionKeepsStuck(o, c, x, j, m, i, s);
  }

  lemma ActionKeepsStuck(o: Options, c: System, a: Action, i: nat, s: nat)
    requires GoodSystem(o, c) && Sound(o.cfg) && CanDo(o, c, a) && a != Reboot(i) && Stuck(o, c, i, s)
    ensures Stuck(o, Do(o, c, a), i, s)
  {
    match a
    case Client(j, from, m) => ClientKeepsStuck(o, c, j, from, m, i, s);
    case Resubmit(j, m) => ResubmitKeepsStuck(o, c, j, m, i, s);
    case Receive(r, p) => ReceiveKeepsStuck(o, c, r, p, i, s);
    case Reboot(j) =>
      RebootIs(o, c, j);
      RebootKeepsStuck(o, c, Do(o, c, a), j, i, s);
    case Expire(j, r) => QuietKeepsStuck(o, c, r, Timer(j), i, s);
    case Lose(r, p) => QuietKeepsStuck(o, c, r, Drop(p), i, s);
    case Copy(r, p) => QuietKeepsStuck(o, c, r, Duplicate(p), i, s);
  }

  // ---- exactly what a restart leaves stuck ----

  /** Right after a restart the server is stuck at what is logged beyond what it executed. */
  lemma StuckAfterRestart(o: Options, c: System, i: nat, s: nat)
    requires GoodSystem(o, c) && Sound(o.cfg) && CanDo(o, c, Reboot(i)) && s > 0
    ensures Stuck(o, Do(o, c, Reboot(i)), i, s)
       <==> Logged(c.servers[i].learnerFile, s) && s > Do(o, c, Reboot(i)).servers[i].engine.executed
  {
    RebootIs(o, c, i);
    RestartedLearner(o, c, Do(o, c, Reboot(i)), i, s);
    NothingWaits(o, c.servers[i]);
  }

  /** Right after a restart the instances the server is stuck at are exactly those that are logged
      and that the scan passes over: some earlier one is not logged, or no visited slot is free. */
  lemma RestartLeavesStuck(o: Options, c: System, i: nat, s: nat)
    requires GoodSystem(o, c) && Sound(o.cfg) && CanDo(o, c, Reboot(i)) && s > 0
    ensures var l := Reopen(c.servers[i].learnerFile);
            Stuck(o, Do(o, c, Reboot(i)), i, s) <==> Logged(l, s) && PassedOver(l, s)
  {
    var l := Reopen(c.servers[i].learnerFile);
    RebootIs(o, c, i);
    StuckAfterRestart(o, c, i, s);
    RecoveredCount(o, c.servers[i]);
    assert Logged(l, s) <==> Logged(c.servers[i].learnerFile, s);
    if Logged(l, s) {
      PassedOverExactly(l, s);
    }
  }

  lemma RestartedLearner(o: Options, c: System, d: System, i: nat, s: nat)
    requires GoodSystem(o, c) && o.cfg.recovery && Rebooted(o, c, d, i) && s > 0
    ensures InformedAt(At(o, d, s), i) <==> Logged(c.servers[i].learnerFile, s)
  {
    assert GoodServer(o, c, i);
    var t := At(o, c, s);
    assert InstFilesAgree(t, c.servers[i], i, s);
    SlotIsLogged(t, c.servers[i], i, s);
    if s in c.insts {
      assert Restarted(o, c.insts[s], d.insts[s], i);
      RestartInforms(o, c.insts[s], d.insts[s], i);
    }
  }

  lemma SlotIsLogged(t: Inst, v: Server, i: nat, s: nat)
    requires InstFilesAgree(t, v, i, s)
    ensures t.nodes[i].learnerSlot.Some? <==> Logged(v.learnerFile, s)
  {
  }

  lemma RestartInforms(o: Options, t: Inst, u: Inst, i: nat)
    requires Restarted(o, t, u, i)
    ensures InformedAt(u, i) <==> t.nodes[i].learnerSlot.Some?
  {
  }

  lemma NothingWaits(o: Options, v: Server)
    ensures Recover(o, v).engine.waiting == map[]
  {
    var l := Reopen(v.learnerFile);
    MinFromIsMin(l, 1);
    ReplayFollows(o.amo, l, if o.cfg.recovery then MinFrom(l, 1) else 0);
  }

  /** From state k of the run to state l, server i does not restart. */
  ghost predicate StaysUp(o: Options, run: seq<System>, k: nat, l: nat, i: nat) {
    l < |run| && forall j: nat :: k <= j < l ==> MovesAt(o, run, j, i)
  }

  ghost predicate MovesAt(o: Options, run: seq<System>, j: nat, i: nat) {
    j + 1 < |run| && MovesWithout(o, run[j], run[j + 1], i)
  }

  ghost predicate MovesWithout(o: Options, c: System, d: System, i: nat) {
    exists a :: a != Reboot(i) && CanDo(o, c, a) && d == Do(o, c, a)
  }

  lemma MoveKeepsStuck(o: Options, c: System, d: System, i: nat, s: nat)
    requires GoodSystem(o, c) && Sound(o.cfg) && MovesWithout(o, c, d, i) && Stuck(o, c, i, s)
    ensures Stuck(o, d, i, s)
  {
    var a :| a != Reboot(i) && CanDo(o, c, a) && d == Do(o, c, a);
    ActionKeepsStuck(o, c, a, i, s);
  }

  lemma StaysStuck(o: Options, run: seq<System>, k: nat, l: nat, j: nat, i: nat, s: nat)
    requires IsHistory(o, run) && Sound(o.cfg) && k <= j < l && StaysUp(o, run, k, l, i) && Stuck(o, run[j], i, s)
    ensures Stuck(o, run[j + 1], i, s)
  {
    assert MovesAt(o, run, j, i);
    HistoryIsGood(o, run, j);
    MoveKeepsStuck(o, run[j], run[j + 1], i, s);
  }

  lemma {:induction false} StuckForever(o: Options, run: seq<System>, k: nat, l: nat, j: nat, i: nat, s: nat)
    requires IsHistory(o, run) && Sound(o.cfg) && k <= j <= l && StaysUp(o, run, k, l, i) && Stuck(o, run[k], i, s)
    ensures Stuck(o, run[j], i, s)
    decreases j
  {
    if k == j {
    } else {
      StuckForever(o, run, k, l, j - 1, i, s);
      StaysStuck(o, run, k, l, j - 1, i, s);
    }
  }

  lemma StuckStalls(o: Options, c: System, i: nat, s: nat)
    requires Stuck(o, c, i, s)
    ensures c.servers[i].engine.executed < s
    ensures c.servers[i].engine.executed + 1 == s ==> !SubmitOpen(o, c, i)
  {
  }

  ghost predicate Restarts(o: Options, c: System, d: System, i: nat) {
    CanDo(o, c, Reboot(i)) && d == Do(o, c, Reboot(i))
  }

  lemma RestartSticks(o: Options, run: seq<System>, k: nat, i: nat, s: nat)
    requires IsHistory(o, run) && Sound(o.cfg) && k + 1 < |run| && Restarts(o, run[k], run[k + 1], i) && s > 0
    requires var l := Reopen(run[k].servers[i].learnerFile); Logged(l, s) && PassedOver(l, s)
    ensures Stuck(o, run[k + 1], i, s)
  {
    HistoryIsGood(o, run, k);
    RestartLeavesStuck(o, run[k], i, s);
  }

  /** A server that restarts with a decision logged that the scan passes over never executes that
      far while it stays up, whatever it receives; and once it has executed everything
      before, it can take no request either. */
  lemma RestartedServerStalls(o: Options, run: seq<System>, k: nat, l: nat, i: nat, s: nat)
    requires IsHistory(o, run) && Sound(o.cfg) && k + 1 <= l && StaysUp(o, run, k + 1, l, i) && s > 0
    requires Restarts(o, run[k], run[k + 1], i)
    requires var f := Reopen(run[k].servers[i].learnerFile); Logged(f, s) && PassedOver(f, s)
    ensures i < |run[l].servers| && run[l].servers[i].engine.executed < s
    ensures run[l].servers[i].engine.executed + 1 == s ==> !SubmitOpen(o, run[l], i)
  {
    RestartSticks(o, run, k, i, s);
    StuckForever(o, run, k + 1, l, l, i, s);
    StuckStalls(o, run[l], i, s);
  }

  // ---- what another restart brings ----

  /** Restarting twice in a row is restarting once. */
  lemma RestartingTwiceIsOnce(o: Options, v: Server)
    ensures Recover(o, Recover(o, v)) == Recover(o, v)
  {
  }

  /** A further restart executes a stuck position exactly if by then everything before it is logged
      and some slot that the scan visits is not; otherwise the server stays stuck there. */
  lemma RestartFreesExactly(o: Options, c: System, i: nat, s: nat)
    requires GoodSystem(o, c) && Sound(o.cfg) && CanDo(o, c, Reboot(i)) && Stuck(o, c, i, s)
    ensures var d, l := Do(o, c, Reboot(i)), Reopen(c.servers[i].learnerFile);
            && (d.servers[i].engine.executed >= s <==> HasGap(l) && forall j :: 1 <= j < s ==> Logged(l, j))
            && (Stuck(o, d, i, s) <==> !HasGap(l) || exists j :: 1 <= j < s && !Logged(l, j))
  {
    var l := Reopen(c.servers[i].learnerFile);
    RebootIs(o, c, i);
    RestartLeavesStuck(o, c, i, s);
    RecoveredCount(o, c.servers[i]);
    HeardIsLogged(o, c, i, s, At(o, c, s).nodes[i].learner.value);
    PassedOverExactly(l, s);
  }

  lemma RecoveredCount(o: Options, v: Server)
    requires o.cfg.recovery
    ensures Recover(o, v).engine.executed == MinFrom(Reopen(v.learnerFile), 1)
  {
    var l := Reopen(v.learnerFile);
    MinFromIsMin(l, 1);
    ReplayFollows(o.amo, l, MinFrom(l, 1));
  }

  // ---- the server that is dead when it comes up ----

  /** Server i has executed nothing and takes no request, from the first position on. */
  predicate Dead(o: Options, c: System, i: nat) {
    Stuck(o, c, i, 1) && c.servers[i].engine.executed == 0 && !SubmitOpen(o, c, i)
  }

  /** A restart leaves a dead server exactly if the first position is logged and nothing that the
      scan visits is missing. */
  lemma DeadExactly(o: Options, c: System, i: nat)
    requires GoodSystem(o, c) && Sound(o.cfg) && CanDo(o, c, Reboot(i))
    ensures Dead(o, Do(o, c, Reboot(i)), i)
       <==> Logged(c.servers[i].learnerFile, 1) && !HasGap(Reopen(c.servers[i].learnerFile))
  {
    var l := Reopen(c.servers[i].learnerFile);
    RebootIs(o, c, i);
    RestartLeavesStuck(o, c, i, 1);
    RecoveredCount(o, c.servers[i]);
    MinFromIsMin(l, 1);
    assert Logged(l, 1) <==> Logged(c.servers[i].learnerFile, 1);
    if Stuck(o, Do(o, c, Reboot(i)), i, 1) {
      StuckStalls(o, Do(o, c, Reboot(i)), i, 1);
    }
  }

  /** What the INFORM m of an instance not yet heard of leaves in i's learner log. */
  lemma HeardIsWritten(o: Options, c: System, i: nat, s: nat, m: Message)
    requires o.cfg.recovery && CanDo(o, c, Receive(s, Packet(i, m))) && m.kind.INFORM?
    requires !c.insts[s].nodes[i].learner.informed
    ensures var d := Do(o, c, Receive(s, Packet(i, m)));
            && |d.servers| == |c.servers|
            && d.servers[i].learnerFile
               == WriteLog(c.servers[i].learnerFile, s, Informed(m.number, m.value), ZERO_INFORMED)
  {
    var t := c.insts[s];
    var e := Dispatch(|t.nodes|, o.cfg.recovery, i, t.nodes[i], m);
    DecideMoves(o.amo, i, LogWrites(o.cfg.recovery, c.servers[i], s, e), e.command);
  }

  /** A dead server is not lost: if, while it is up, it hears of a decision beyond its full log, the
      restart after that executes everything the log holds up to the gap then opened. */
  lemma HearingRevives(o: Options, c: System, i: nat, s: nat, m: Message)
    requires GoodSystem(o, c) && Sound(o.cfg) && o.cfg.crashes
    requires CanDo(o, c, Receive(s, Packet(i, m))) && m.kind.INFORM? && !c.insts[s].nodes[i].learner.informed
    requires var f := c.servers[i].learnerFile; f.recorded == |f.slots| && 1 < |f.slots| <= s && !HasGap(f)
    ensures var d := Do(o, c, Receive(s, Packet(i, m)));
            && CanDo(o, d, Reboot(i))
            && var slots := |c.servers[i].learnerFile.slots|;
            Do(o, d, Reboot(i)).servers[i].engine.executed == if s == slots then s else slots - 1
  {
    HeardIsWritten(o, c, i, s, m);
    var d := Do(o, c, Receive(s, Packet(i, m)));
    NextBlockHeals(c.servers[i].learnerFile, s, Informed(m.number, m.value), ZERO_INFORMED);
    RecoveredCount(o, d.servers[i]);
  }

  // ---- it happens ----

  /** A lone server that has executed 1023 commands, the first block of its log, is dead after a
      restart. */
  lemma FullLogKills(o: Options, from: Udp4, v: ProposalValue) returns (run: seq<System>, k: nat)
    requires o.cfg.n == 1 && o.cfg.crashes && Sound(o.cfg) && v.clientId == Encode(from)
    ensures IsHistory(o, run) && k + 1 == |run| - 1 && |run[k].servers| == 1
    ensures run[k].servers[0].engine.executed == 1023
    ensures Restarts(o, run[k], run[k + 1], 0) && Dead(o, run[k + 1], 0)
  {
    var q := ExecutesMany(o, from, v, 1023);
    k := |q| - 1;
    run := Then(o, q, Reboot(0));
    HistoryIsGood(o, q, k);
    DeadExactly(o, q[k], 0);
  }
}
