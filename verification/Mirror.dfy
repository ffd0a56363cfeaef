/** Every run of one instance that clients could cause is the first instance of a history: the
    system takes the same steps, and its servers have executed what their learners are informed of. */
module Mirror {
  import opened Wire
  import opened Endpoint
  import opened Roles
  import opened Consensus
  import opened Invariant
  import opened LogFile
  import opened Executor
  import opened Cluster
  import opened Safety
  import opened Scenario
  import opened Sequences
  import Solo

  /** A learner log in which at most the first position is recorded. */
  predicate FileMirrors(f: File<Informed>, slot: Option<Informed>) {
    match slot
    case None => f == File([], 0)
    case Some(l) => f == WriteLog(File([], 0), 1, l, ZERO_INFORMED)
  }

  ghost predicate ServerMirrors(recovery: bool, v: Server, x: Node) {
    && v.engine.waiting == map[]
    && v.engine.executed == |v.engine.applied|
    && v.engine.applied == (if x.learner.informed then [x.learner.value] else [])
    && (if recovery then DiskInv(x) && FileMirrors(v.learnerFile, x.learnerSlot)
        else x.learnerSlot.None? && x.acceptorSlot.None?)
  }

  predicate AllFirst(t: Inst) {
    t.seqno == 1 && InSequence(t)
  }

  ghost predicate Mirrors(o: Options, c: System, t: Inst) {
    && |c.servers| == |t.nodes| == o.cfg.n && o.cfg.n > 0 && c.clients == t.submitted
    && At(o, c, 1) == t && c.insts.Keys <= {1} && AllFirst(t)
    && forall i :: 0 <= i < |t.nodes| ==> ServerMirrors(o.cfg.recovery, c.servers[i], t.nodes[i])
  }

  lemma BootMirrors(o: Options)
    requires o.cfg.n > 0
    ensures Mirrors(o, Boot(o), Init(o.cfg.n, 1))
  {
  }

  // ---- one server ----

  /** A share whose learner and slots are as before. */
  predicate SameRecord(x: Node, y: Node) {
    && y.learner.informed == x.learner.informed && y.learnerSlot == x.learnerSlot
    && (x.learner.informed ==> y.learner == x.learner)
  }

  lemma SilentKeepsRecord(n: nat, recovery: bool, id: nat, x: Node, m: Message)
    requires Dispatch(n, recovery, id, x, m).command.None?
    ensures SameRecord(x, Dispatch(n, recovery, id, x, m).node)
    ensures !recovery && x.acceptorSlot.None? ==> Dispatch(n, recovery, id, x, m).node.acceptorSlot.None?
  {
  }

  lemma RecordMirrors(recovery: bool, v: Server, w: Server, x: Node, y: Node)
    requires ServerMirrors(recovery, v, x) && SameRecord(x, y) && w.engine == v.engine && w.learnerFile == v.learnerFile
    requires if recovery then DiskInv(y) else y.acceptorSlot.None?
    ensures ServerMirrors(recovery, w, y)
  {
  }

  lemma SilentMirrors(o: Options, v: Server, id: nat, x: Node, m: Message)
    requires ServerMirrors(o.cfg.recovery, v, x)
    requires Dispatch(o.cfg.n, o.cfg.recovery, id, x, m).command.None?
    ensures var e := Dispatch(o.cfg.n, o.cfg.recovery, id, x, m);
            ServerMirrors(o.cfg.recovery, LogWrites(o.cfg.recovery, v, 1, e), e.node)
  {
    var e := Dispatch(o.cfg.n, o.cfg.recovery, id, x, m);
    SilentKeepsRecord(o.cfg.n, o.cfg.recovery, id, x, m);
    if o.cfg.recovery {
      DispatchDisk(o.cfg.n, id, x, m);
    }
    RecordMirrors(o.cfg.recovery, v, LogWrites(o.cfg.recovery, v, 1, e), x, e.node);
  }

  /** Hearing the decision of the first position: it is logged and executed. */
  lemma HearingMirrors(o: Options, v: Server, id: nat, x: Node, m: Message)
    requires ServerMirrors(o.cfg.recovery, v, x) && m.sequence == 1 && m.kind.INFORM? && !x.learner.informed
    ensures var e := HandleInform(o.cfg.recovery, x, m);
            ServerMirrors(o.cfg.recovery, Decide(o.amo, id, LogWrites(o.cfg.recovery, v, 1, e), e.command), e.node)
  {
    var e := HandleInform(o.cfg.recovery, x, m);
    var w := LogWrites(o.cfg.recovery, v, 1, e);
    Solo.NextExecutes(o.amo, v.engine, e.command.value);
    var (y, rs) := TryExecute(o.amo, v.engine, e.command.value);
    Solo.OneResponse(id, w.(engine := y), rs);
    if o.cfg.recovery {
      DispatchDisk(o.cfg.n, id, x, m);
    }
  }

  lemma OnlyInformCommands(n: nat, recovery: bool, id: nat, x: Node, m: Message)
    requires Dispatch(n, recovery, id, x, m).command.Some?
    ensures m.kind.INFORM? && !x.learner.informed
  {
  }

  lemma DispatchMirrors(o: Options, v: Server, id: nat, x: Node, m: Message)
    requires ServerMirrors(o.cfg.recovery, v, x) && m.sequence == 1
    ensures var e := Dispatch(o.cfg.n, o.cfg.recovery, id, x, m);
            ServerMirrors(o.cfg.recovery, Decide(o.amo, id, LogWrites(o.cfg.recovery, v, 1, e), e.command), e.node)
  {
    if Dispatch(o.cfg.n, o.cfg.recovery, id, x, m).command.Some? {
      OnlyInformCommands(o.cfg.n, o.cfg.recovery, id, x, m);
      HearingMirrors(o, v, id, x, m);
    } else {
      SilentMirrors(o, v, id, x, m);
    }
  }

  /** The log holds the first position or nothing, so that is what a restart replays. */
  lemma FileReplays(o: Options, f: File<Informed>, l: Informed)
    requires f == WriteLog(File([], 0), 1, l, ZERO_INFORMED)
    ensures Reopen(f) == f && MinFrom(f, 1) == 1 && Logged(f, 1) && f.slots[1].state == l
  {
    assert Logged(f, 1) && !Logged(f, 2);
    assert MinFrom(f, 2) == 1;
  }

  lemma RestartMirrors(o: Options, v: Server, id: nat, x: Node)
    requires ServerMirrors(o.cfg.recovery, v, x)
    ensures ServerMirrors(o.cfg.recovery, Recover(o, v), Restart(o.cfg.n, id, x))
  {
    if o.cfg.recovery && x.learnerSlot.Some? {
      FileReplays(o, v.learnerFile, x.learnerSlot.value);
      assert Replay(o.amo, Reopen(v.learnerFile), 0) == FRESH_ENGINE;
    }
  }

  // ---- the system takes the same step ----

  /** Something is going on in instance 1 as soon as it differs from a new one. */
  lemma Started(o: Options, c: System, t: Inst)
    requires Mirrors(o, c, t) && t != Init(o.cfg.n, 1)
    ensures 1 in c.insts && c.insts[1] == t && c.insts.Keys == {1}
  {
    assert 1 in c.insts;
  }

  /** One instance and one server replaced, as most actions do. */
  lemma ReplacedMirrors(o: Options, c: System, d: System, t: Inst, u: Inst, i: nat, w: Server, y: Node)
    requires Mirrors(o, c, t) && i < |t.nodes| && AllFirst(u)
    requires u.nodes == t.nodes[i := y] && d.insts == c.insts[1 := u] && d.servers == c.servers[i := w]
    requires ServerMirrors(o.cfg.recovery, w, y) && d.clients == u.submitted
    ensures Mirrors(o, d, u)
  {
  }

  lemma UntouchedMirrors(o: Options, c: System, d: System, t: Inst, u: Inst)
    requires Mirrors(o, c, t) && AllFirst(u) && u.nodes == t.nodes
    requires d.insts == c.insts[1 := u] && d.servers == c.servers && d.clients == u.submitted
    ensures Mirrors(o, d, u)
  {
  }

  lemma SubmitKeepsRecord(n: nat, id: nat, x: Node, m: Message)
    ensures var y := Submit(n, id, x, m).node;
            SameRecord(x, y) && y.acceptor == x.acceptor && y.acceptorSlot == x.acceptorSlot
  {
  }

  lemma ClientParts(o: Options, c: System, i: nat, from: Udp4, m: Message)
    requires CanDo(o, c, Client(i, from, m)) && NextSlot(c, i) == 1 && Stamp(from, m) == m
    requires m.kind.SUBMIT? && m.sequence == 1
    ensures var d := Do(o, c, Client(i, from, m));
            && Enabled(o.cfg, At(o, c, 1), Submission(i, m))
            && d.insts == c.insts[1 := Apply(o.cfg, At(o, c, 1), Submission(i, m))]
            && d.servers == c.servers[i := c.servers[i].(expected := Expect(c.servers[i].expected, 1, m.value))]
            && d.clients == c.clients + {m.value}
  {
    assert ToSlot(m, 1) == m;
  }

  lemma SubmissionNode(cfg: Config, t: Inst, i: nat, m: Message)
    requires Enabled(cfg, t, Submission(i, m))
    ensures Apply(cfg, t, Submission(i, m)).nodes == t.nodes[i := Submit(|t.nodes|, i, t.nodes[i], m).node]
    ensures Apply(cfg, t, Submission(i, m)).submitted == t.submitted + {m.value}
  {
  }

  lemma SubmissionSteps(o: Options, c: System, t: Inst, i: nat, m: Message) returns (a: Action)
    requires Mirrors(o, c, t) && Enabled(o.cfg, t, Submission(i, m)) && ByClient(t, Submission(i, m))
    requires Stamped(m.value.clientId)
    ensures CanDo(o, c, a) && Mirrors(o, Do(o, c, a), Apply(o.cfg, t, Submission(i, m)))
  {
    var from := Decode(m.value.clientId);
    StampedExactly(m.value.clientId);
    assert Stamp(from, m) == m;
    a := Client(i, from, m);
    ClientParts(o, c, i, from, m);
    EventInSequence(o.cfg, t, Submission(i, m));
    SubmissionNode(o.cfg, t, i, m);
    SubmissionMirrors(o, c, Do(o, c, a), t, Apply(o.cfg, t, Submission(i, m)), i, m);
  }

  lemma SubmissionMirrors(o: Options, c: System, d: System, t: Inst, u: Inst, i: nat, m: Message)
    requires Mirrors(o, c, t) && i < |t.nodes| && AllFirst(u) && d.insts == c.insts[1 := u]
    requires u.nodes == t.nodes[i := Submit(|t.nodes|, i, t.nodes[i], m).node]
    requires d.servers == c.servers[i := c.servers[i].(expected := Expect(c.servers[i].expected, 1, m.value))]
    requires d.clients == u.submitted
    ensures Mirrors(o, d, u)
  {
    SubmitKeepsRecord(|t.nodes|, i, t.nodes[i], m);
    RecordMirrors(o.cfg.recovery, c.servers[i], d.servers[i], t.nodes[i], u.nodes[i]);
    ReplacedMirrors(o, c, d, t, u, i, d.servers[i], u.nodes[i]);
  }

  lemma TimerSteps(o: Options, c: System, t: Inst, i: nat) returns (a: Action)
    requires Mirrors(o, c, t) && Enabled(o.cfg, t, Timer(i))
    ensures CanDo(o, c, a) && Mirrors(o, Do(o, c, a), Apply(o.cfg, t, Timer(i)))
  {
    Started(o, c, t);
    a := Expire(i, 1);
    EventInSequence(o.cfg, t, Timer(i));
    var x := t.nodes[i].(timer := None);
    var m := t.nodes[i].timer.value.(kind := SUBMIT);
    SubmitKeepsRecord(|t.nodes|, i, x, m);
    var y := Submit(|t.nodes|, i, x, m).node;
    RecordMirrors(o.cfg.recovery, c.servers[i], c.servers[i], t.nodes[i], y);
    ReplacedMirrors(o, c, Do(o, c, a), t, Apply(o.cfg, t, Timer(i)), i, c.servers[i], y);
  }

  lemma DeliverySteps(o: Options, c: System, t: Inst, p: Packet) returns (a: Action)
    requires Mirrors(o, c, t) && Enabled(o.cfg, t, Deliver(p))
    ensures CanDo(o, c, a) && Mirrors(o, Do(o, c, a), Apply(o.cfg, t, Deliver(p)))
  {
    Started(o, c, t);
    a := Receive(1, p);
    EventInSequence(o.cfg, t, Deliver(p));
    var e := Dispatch(|t.nodes|, o.cfg.recovery, p.dst, t.nodes[p.dst], p.msg);
    DispatchMirrors(o, c.servers[p.dst], p.dst, t.nodes[p.dst], p.msg);
    Solo.ReceiveParts(o, c, 1, p);
    ReplacedMirrors(o, c, Do(o, c, a), t, Apply(o.cfg, t, Deliver(p)), p.dst,
                    Solo.AfterEffect(o, p.dst, c.servers[p.dst], 1, e), e.node);
  }

  lemma NetworkSteps(o: Options, c: System, t: Inst, e: Event) returns (a: Action)
    requires Mirrors(o, c, t) && Enabled(o.cfg, t, e) && (e.Drop? || e.Duplicate?)
    ensures CanDo(o, c, a) && Mirrors(o, Do(o, c, a), Apply(o.cfg, t, e))
  {
    Started(o, c, t);
    a := if e.Drop? then Lose(1, e.p) else Copy(1, e.p);
    EventInSequence(o.cfg, t, e);
    UntouchedMirrors(o, c, Do(o, c, a), t, Apply(o.cfg, t, e));
  }

  lemma CrashSteps(o: Options, c: System, t: Inst, i: nat) returns (a: Action)
    requires Mirrors(o, c, t) && Enabled(o.cfg, t, Crash(i))
    ensures CanDo(o, c, a) && Mirrors(o, Do(o, c, a), Apply(o.cfg, t, Crash(i)))
  {
    a := Reboot(i);
    EventInSequence(o.cfg, t, Crash(i));
    RestartMirrors(o, c.servers[i], i, t.nodes[i]);
    var d, u := Do(o, c, a), Apply(o.cfg, t, Crash(i));
    assert d.insts.Keys == c.insts.Keys;
    if 1 in c.insts {
      assert At(o, d, 1) == u;
    } else {
      NewRestarts(o, i);
    }
  }

  /** Restarting a server that has no share yet changes nothing. */
  lemma NewRestarts(o: Options, i: nat)
    requires i < o.cfg.n && o.cfg.crashes
    ensures Apply(o.cfg, Init(o.cfg.n, 1), Crash(i)) == Init(o.cfg.n, 1)
  {
    var t := Init(o.cfg.n, 1);
    assert t.nodes[i := Restart(o.cfg.n, i, t.nodes[i])] == t.nodes;
  }

  lemma EventSteps(o: Options, c: System, t: Inst, e: Event) returns (a: Action)
    requires Mirrors(o, c, t) && Enabled(o.cfg, t, e) && ByClient(t, e)
    requires e.Submission? ==> Stamped(e.m.value.clientId)
    ensures CanDo(o, c, a) && Mirrors(o, Do(o, c, a), Apply(o.cfg, t, e))
  {
    match e
    case Submission(i, m) => a := SubmissionSteps(o, c, t, i, m);
    case Timer(i) => a := TimerSteps(o, c, t, i);
    case Deliver(p) => a := DeliverySteps(o, c, t, p);
    case Drop(p) => a := NetworkSteps(o, c, t, e);
    case Duplicate(p) => a := NetworkSteps(o, c, t, e);
    case Crash(i) => a := CrashSteps(o, c, t, i);
  }

  lemma MirrorStep(o: Options, c: System, t: Inst, e: Event, u: Inst) returns (d: System)
    requires Mirrors(o, c, t) && Enabled(o.cfg, t, e) && ByClient(t, e) && u == Apply(o.cfg, t, e)
    requires e.Submission? ==> Stamped(e.m.value.clientId)
    ensures Step(o, c, d) && Mirrors(o, d, u)
  {
    var a := EventSteps(o, c, t, e);
    d := Do(o, c, a);
  }

  lemma SubmittedGrows(cfg: Config, t: Inst, e: Event)
    requires Enabled(cfg, t, e)
    ensures t.submitted <= Apply(cfg, t, e).submitted && Apply(cfg, t, e).seqno == t.seqno
    ensures e.Submission? ==> e.m.value in Apply(cfg, t, e).submitted
  {
  }

  lemma LastStep(cfg: Config, run: seq<Inst>) returns (e: Event)
    requires IsClientRun(cfg, run) && |run| > 1
    ensures var q := run[..|run| - 1];
            && IsClientRun(cfg, q) && Enabled(cfg, Last(q), e) && ByClient(Last(q), e)
            && Last(run) == Apply(cfg, Last(q), e)
  {
    var q := run[..|run| - 1];
    forall k: nat | k < |q| - 1 ensures ClientStepAt(cfg, q, k) {
      assert ClientStepAt(cfg, run, k);
    }
    assert ClientStepAt(cfg, run, |run| - 2);
    var s, t := run[|run| - 2], run[|run| - 1];
    e :| Enabled(cfg, s, e) && ByClient(s, e) && t == Apply(cfg, s, e);
  }

  ghost predicate MirrorsThroughout(o: Options, h: seq<System>, run: seq<Inst>) {
    |h| == |run| && forall k :: 0 <= k < |run| ==> Mirrors(o, h[k], run[k])
  }

  /** The history g of all states but the last goes on to the last, t. */
  lemma MirrorNext(o: Options, run: seq<Inst>, g: seq<System>, e: Event, t: Inst) returns (h: seq<System>)
    requires |run| > 0 && IsHistory(o, g) && MirrorsThroughout(o, g, run)
    requires Enabled(o.cfg, Last(run), e) && ByClient(Last(run), e) && t == Apply(o.cfg, Last(run), e)
    requires e.Submission? ==> Stamped(e.m.value.clientId)
    ensures IsHistory(o, h) && MirrorsThroughout(o, h, run + [t])
  {
    var d := MirrorStep(o, Solo.Last(g), Last(run), e, t);
    h := Solo.Goes(o, g, d);
  }

  /** Every such run, if its values carry clients' addresses, is mirrored by a history. */
  lemma {:induction false} Lift(o: Options, run: seq<Inst>) returns (h: seq<System>)
    requires IsClientRun(o.cfg, run) && Last(run).seqno == 1
    requires forall x :: x in Last(run).submitted ==> Stamped(x.clientId)
    ensures IsHistory(o, h) && MirrorsThroughout(o, h, run)
  {
    if |run| == 1 {
      h := [Boot(o)];
      BootMirrors(o);
    } else {
      var e := LastStep(o.cfg, run);
      SubmittedGrows(o.cfg, Last(run[..|run| - 1]), e);
      var g := Lift(o, run[..|run| - 1]);
      h := MirrorNext(o, run[..|run| - 1], g, e, Last(run));
      assert run[..|run| - 1] + [Last(run)] == run;
    }
  }
}
