/** Exactly when servers execute nothing but clients' commands: unless they crash in a release
    build, whatever else may happen. */
module Honest {
  import opened Wire
  import opened Endpoint
  import opened Roles
  import opened Consensus
  import opened Validity
  import opened LogFile
  import opened Executor
  import opened Cluster
  import opened Records
  import opened Replication
  import opened Consistency
  import opened Scenario
  import opened Crowd
  import opened Sizes
  import Mirror
  import Solo

  // ---- what is genuine ----

  ghost predicate GenuineInst(o: Options, t: Inst, clients: set<ProposalValue>) {
    |t.nodes| == o.cfg.n && ValidState(t) && t.submitted <= clients
  }

  /** Whatever the server has executed, holds, logged, expects or resubmits is a client's. */
  ghost predicate GenuineServer(o: Options, v: Server, clients: set<ProposalValue>) {
    && Follows(o.amo, v.engine) && Vouched((s: nat, x: ProposalValue) => x in clients, v.engine)
    && WellFormed(v.learnerFile) && GenuineLog(v.learnerFile, clients)
    && GoodRequests(v, clients)
  }

  ghost predicate GenuineLog(f: File<Informed>, clients: set<ProposalValue>) {
    forall s: nat :: Logged(f, s) ==> f.slots[s].state.value in clients
  }

  ghost predicate Genuine(o: Options, c: System) {
    && o.cfg.n > 0 && |c.servers| == o.cfg.n
    && (forall s :: s in c.insts ==> s > 0 && GenuineInst(o, c.insts[s], c.clients))
    && forall i :: 0 <= i < |c.servers| ==> GenuineServer(o, c.servers[i], c.clients)
  }

  lemma BootIsGenuine(o: Options)
    requires o.cfg.n > 0
    ensures Genuine(o, Boot(o))
  {
  }

  lemma NewIsGenuine(o: Options, s: nat, clients: set<ProposalValue>)
    ensures GenuineInst(o, Init(o.cfg.n, s), clients)
  {
  }

  lemma AtIsGenuine(o: Options, c: System, s: nat)
    requires Genuine(o, c)
    ensures GenuineInst(o, At(o, c, s), c.clients)
  {
    NewIsGenuine(o, s, c.clients);
  }

  // ---- instances ----

  lemma EventStaysGenuine(o: Options, t: Inst, e: Event, clients: set<ProposalValue>)
    requires o.cfg.n > 0 && o.cfg.asserts && GenuineInst(o, t, clients) && Enabled(o.cfg, t, e)
    requires e.Submission? ==> e.m.value in clients
    ensures GenuineInst(o, Apply(o.cfg, t, e), clients)
  {
    EventIsValid(o.cfg, t, e);
    EventSubmits(o, t, e);
    NodesStay(o.cfg, t, e);
  }

  lemma NodesStay(cfg: Config, t: Inst, e: Event)
    requires Enabled(cfg, t, e)
    ensures |Apply(cfg, t, e).nodes| == |t.nodes|
  {
  }

  // ---- servers ----

  lemma WrittenIsGenuine(f: File<Informed>, s: nat, x: Informed, clients: set<ProposalValue>)
    requires WellFormed(f) && s > 0 && GenuineLog(f, clients) && x.value in clients
    ensures var g := WriteLog(f, s, x, ZERO_INFORMED); WellFormed(g) && GenuineLog(g, clients)
  {
    var g := WriteLog(f, s, x, ZERO_INFORMED);
    WriteIsUpdate(f, s, x, ZERO_INFORMED);
    forall r: nat | Logged(g, r) ensures g.slots[r].state.value in clients {
      assert r in Contents(g) && Contents(g)[r] == g.slots[r].state;
      if r != s {
        assert r in Contents(f) && Contents(f)[r] == f.slots[r].state;
      }
    }
  }

  lemma LogWritesGenuine(o: Options, v: Server, s: nat, e: Effect, clients: set<ProposalValue>)
    requires GenuineServer(o, v, clients) && s > 0 && (e.command.Some? ==> e.node.learner.value in clients)
    ensures GenuineServer(o, LogWrites(o.cfg.recovery, v, s, e), clients)
  {
    if o.cfg.recovery && !Answers(e) && e.command.Some? {
      WrittenIsGenuine(v.learnerFile, s, Informed(e.node.learner.number, e.node.learner.value), clients);
    }
  }

  lemma DecideIsGenuine(o: Options, id: nat, v: Server, command: Option<Message>, clients: set<ProposalValue>)
    requires GenuineServer(o, v, clients) && (command.Some? ==> command.value.value in clients)
    ensures GenuineServer(o, Cluster.Decide(o.amo, id, v, command), clients)
  {
    if command.Some? {
      var (e, rs) := TryExecute(o.amo, v.engine, command.value);
      TryExecuteFollows(o.amo, v.engine, command.value);
      TryExecuteVouched(o.amo, (s: nat, x: ProposalValue) => x in clients, v.engine, command.value);
      RespondAllKeeps(id, v.(engine := e), rs, clients);
    }
  }

  lemma RecoverIsGenuine(o: Options, v: Server, clients: set<ProposalValue>)
    requires GenuineServer(o, v, clients)
    ensures GenuineServer(o, Recover(o, v), clients)
  {
    var l := Reopen(v.learnerFile);
    var min := if o.cfg.recovery then MinFrom(l, 1) else 0;
    MinFromIsMin(l, 1);
    forall s: nat | Logged(l, s) ensures l.slots[s].state.value in clients {
      assert Logged(v.learnerFile, s);
    }
    ReplayVouched(o.amo, (s: nat, x: ProposalValue) => x in clients, l, min);
  }

  lemma MoreClients(o: Options, v: Server, clients: set<ProposalValue>, more: set<ProposalValue>)
    requires GenuineServer(o, v, clients) && clients <= more
    ensures GenuineServer(o, v, more)
  {
    assert forall k :: 0 <= k < |v.engine.applied| ==>
        ((s: nat, x: ProposalValue) => x in clients)(k + 1, v.engine.applied[k]);
    assert forall s :: s in v.engine.waiting ==>
        ((s: nat, x: ProposalValue) => x in clients)(s, v.engine.waiting[s].value);
  }

  // ---- the system ----

  lemma MoreClientsInst(o: Options, t: Inst, clients: set<ProposalValue>, more: set<ProposalValue>)
    requires GenuineInst(o, t, clients) && clients <= more
    ensures GenuineInst(o, t, more)
  {
  }

  /** Whatever of d is not as in c is genuine by itself. */
  lemma Assembled(o: Options, c: System, d: System)
    requires Genuine(o, c) && c.clients <= d.clients && |d.servers| == |c.servers|
    requires forall s :: s in d.insts && !(s in c.insts && d.insts[s] == c.insts[s])
               ==> s > 0 && GenuineInst(o, d.insts[s], d.clients)
    requires forall i :: 0 <= i < |d.servers| && d.servers[i] != c.servers[i]
               ==> GenuineServer(o, d.servers[i], d.clients)
    ensures Genuine(o, d)
  {
    forall s | s in d.insts ensures s > 0 && GenuineInst(o, d.insts[s], d.clients) {
      if s in c.insts && d.insts[s] == c.insts[s] {
        MoreClientsInst(o, c.insts[s], c.clients, d.clients);
      }
    }
    forall i | 0 <= i < |d.servers| ensures GenuineServer(o, d.servers[i], d.clients) {
      if d.servers[i] == c.servers[i] {
        MoreClients(o, c.servers[i], c.clients, d.clients);
      }
    }
  }

  lemma ExpectedIsGenuine(o: Options, v: Server, s: nat, x: ProposalValue, clients: set<ProposalValue>)
    requires GenuineServer(o, v, clients) && x in clients
    ensures GenuineServer(o, v.(expected := Expect(v.expected, s, x)), clients)
  {
  }

  lemma SubmitIsGenuine(o: Options, c: System, i: nat, m: Message)
    requires Genuine(o, c) && o.cfg.asserts && i < |c.servers| && SubmitOpen(o, c, i) && m.value in c.clients
    ensures Genuine(o, SubmitAt(o, c, i, m))
  {
    var s := NextSlot(c, i);
    AtIsGenuine(o, c, s);
    EventStaysGenuine(o, At(o, c, s), Submission(i, ToSlot(m, s)), c.clients);
    ExpectedIsGenuine(o, c.servers[i], s, m.value, c.clients);
    Assembled(o, c, SubmitAt(o, c, i, m));
  }

  lemma ClientIsGenuine(o: Options, c: System, i: nat, from: Udp4, m: Message)
    requires Genuine(o, c) && o.cfg.asserts && CanDo(o, c, Client(i, from, m))
    ensures Genuine(o, Do(o, c, Client(i, from, m)))
  {
    var w := Stamp(from, m);
    var x := c.(clients := c.clients + {w.value});
    Assembled(o, c, x);
    ClientShape(o, c, i, from, m);
    SubmitIsGenuine(o, x, i, w);
  }

  lemma ResubmitIsGenuine(o: Options, c: System, i: nat, m: Message)
    requires Genuine(o, c) && o.cfg.asserts && CanDo(o, c, Resubmit(i, m))
    ensures Genuine(o, Do(o, c, Resubmit(i, m)))
  {
    var v := c.servers[i];
    var w := v.(resubmits := v.resubmits - multiset{m}, expected := v.expected - {m.sequence});
    assert GenuineServer(o, v, c.clients);
    assert m.value in c.clients;
    Forgotten(o, v, w, c.clients);
    Assembled(o, c, SetServer(c, i, w));
    ResubmitShape(o, c, i, m);
    SubmitIsGenuine(o, SetServer(c, i, w), i, m);
  }

  lemma Forgotten(o: Options, v: Server, w: Server, clients: set<ProposalValue>)
    requires GenuineServer(o, v, clients) && w.engine == v.engine && w.learnerFile == v.learnerFile
    requires GoodRequests(w, clients)
    ensures GenuineServer(o, w, clients)
  {
  }

  /** What an INFORM hands over or has logged was submitted. */
  lemma CommandIsSubmitted(n: nat, recovery: bool, id: nat, x: Node, m: Message, values: set<ProposalValue>)
    requires ValidMessage(n, values, m)
    ensures var e := Dispatch(n, recovery, id, x, m);
            e.command.Some? ==> e.command.value.value in values && e.node.learner.value in values
  {
  }

  /** The server that handles p, afterwards. */
  lemma ReceiverIsGenuine(o: Options, c: System, s: nat, p: Packet)
    requires Genuine(o, c) && CanDo(o, c, Receive(s, p))
    ensures var t := c.insts[s];
            var e := Dispatch(|t.nodes|, o.cfg.recovery, p.dst, t.nodes[p.dst], p.msg);
            GenuineServer(o, Solo.AfterEffect(o, p.dst, c.servers[p.dst], s, e), c.clients)
  {
    var t := c.insts[s];
    assert GenuineInst(o, t, c.clients) && GenuineServer(o, c.servers[p.dst], c.clients) && p in t.sent;
    CommandIsSubmitted(|t.nodes|, o.cfg.recovery, p.dst, t.nodes[p.dst], p.msg, t.submitted);
    var e := Dispatch(|t.nodes|, o.cfg.recovery, p.dst, t.nodes[p.dst], p.msg);
    LogWritesGenuine(o, c.servers[p.dst], s, e, c.clients);
    DecideIsGenuine(o, p.dst, LogWrites(o.cfg.recovery, c.servers[p.dst], s, e), e.command, c.clients);
  }

  lemma ReceivedIsGenuine(o: Options, c: System, d: System, s: nat, u: Inst, i: nat, w: Server)
    requires Genuine(o, c) && s > 0 && GenuineInst(o, u, c.clients) && GenuineServer(o, w, c.clients)
    requires i < |c.servers| && d.insts == c.insts[s := u] && d.servers == c.servers[i := w] && d.clients == c.clients
    ensures Genuine(o, d)
  {
    Assembled(o, c, d);
  }

  lemma ReceiveIsGenuine(o: Options, c: System, s: nat, p: Packet)
    requires Genuine(o, c) && o.cfg.asserts && CanDo(o, c, Receive(s, p))
    ensures Genuine(o, Do(o, c, Receive(s, p)))
  {
    var t := c.insts[s];
    ReceiverIsGenuine(o, c, s, p);
    EventStaysGenuine(o, t, Deliver(p), c.clients);
    Solo.ReceiveParts(o, c, s, p);
    var e := Dispatch(|t.nodes|, o.cfg.recovery, p.dst, t.nodes[p.dst], p.msg);
    ReceivedIsGenuine(o, c, Do(o, c, Receive(s, p)), s, Apply(o.cfg, t, Deliver(p)), p.dst,
                      Solo.AfterEffect(o, p.dst, c.servers[p.dst], s, e));
  }

  lemma RebootIsGenuine(o: Options, c: System, i: nat)
    requires Genuine(o, c) && o.cfg.asserts && CanDo(o, c, Reboot(i))
    ensures Genuine(o, Do(o, c, Reboot(i)))
  {
    var d := Do(o, c, Reboot(i));
    forall s | s in c.insts ensures GenuineInst(o, d.insts[s], c.clients) {
      assert GenuineInst(o, c.insts[s], c.clients);
      EventStaysGenuine(o, c.insts[s], Crash(i), c.clients);
    }
    RecoverIsGenuine(o, c.servers[i], c.clients);
    Assembled(o, c, d);
  }

  lemma QuietIsGenuine(o: Options, c: System, s: nat, e: Event)
    requires Genuine(o, c) && o.cfg.asserts && s in c.insts && Enabled(o.cfg, c.insts[s], e) && !e.Submission?
    ensures Genuine(o, SetAt(c, s, Apply(o.cfg, c.insts[s], e)))
  {
    EventStaysGenuine(o, c.insts[s], e, c.clients);
    Assembled(o, c, SetAt(c, s, Apply(o.cfg, c.insts[s], e)));
  }

  lemma ActionIsGenuine(o: Options, c: System, a: Action)
    requires Genuine(o, c) && o.cfg.asserts && CanDo(o, c, a)
    ensures Genuine(o, Do(o, c, a))
  {
    match a
    case Client(i, from, m) => ClientIsGenuine(o, c, i, from, m);
    case Resubmit(i, m) => ResubmitIsGenuine(o, c, i, m);
    case Receive(s, p) => ReceiveIsGenuine(o, c, s, p);
    case Reboot(i) => RebootIsGenuine(o, c, i);
    case Expire(i, s) => QuietIsGenuine(o, c, s, Timer(i));
    case Lose(s, p) => QuietIsGenuine(o, c, s, Drop(p));
    case Copy(s, p) => QuietIsGenuine(o, c, s, Duplicate(p));
  }

  lemma {:induction false} HistoryIsGenuine(o: Options, run: seq<System>, k: nat)
    requires IsHistory(o, run) && o.cfg.asserts && k < |run|
    ensures Genuine(o, run[k])
  {
    if k == 0 {
      BootIsGenuine(o);
    } else {
      HistoryIsGenuine(o, run, k - 1);
      var a := ActionAt(o, run, k);
      ActionIsGenuine(o, run[k - 1], a);
    }
  }

  /** Every executed command was a client's. */
  ghost predicate OnlyClients(run: seq<System>) {
    forall k: nat, i: nat, m: nat ::
      k < |run| && i < |run[k].servers| && m < |run[k].servers[i].engine.applied|
      ==> run[k].servers[i].engine.applied[m] in run[k].clients
  }

  lemma AssertedIsHonest(o: Options, run: seq<System>)
    requires IsHistory(o, run) && (o.cfg.crashes ==> o.cfg.asserts)
    ensures OnlyClients(run)
  {
    forall k: nat, i: nat, m: nat | k < |run| && i < |run[k].servers| && m < |run[k].servers[i].engine.applied|
      ensures run[k].servers[i].engine.applied[m] in run[k].clients
    {
      if o.cfg.asserts {
        HistoryIsGenuine(o, run, k);
        AppliedIsGenuine(o, run[k], i, m);
      } else {
        OnlyClientCommands(o, run, k, i);
      }
    }
  }

  lemma AppliedIsGenuine(o: Options, c: System, i: nat, m: nat)
    requires Genuine(o, c) && i < |c.servers| && m < |c.servers[i].engine.applied|
    ensures c.servers[i].engine.applied[m] in c.clients
  {
    assert GenuineServer(o, c.servers[i], c.clients);
    assert ((s: nat, x: ProposalValue) => x in c.clients)(m + 1, c.servers[i].engine.applied[m]);
  }

  // ---- a release build that crashes ----

  /** A run that ends with a server informed of a value nobody submitted is a history in which that
      server has executed it. */
  lemma HeardIsExecuted(o: Options, run: seq<Inst>, i: nat) returns (h: seq<System>)
    requires IsClientRun(o.cfg, run) && Last(run).seqno == 1 && i < |Last(run).nodes|
    requires forall x :: x in Last(run).submitted ==> Stamped(x.clientId)
    requires Last(run).nodes[i].learner.informed && Last(run).nodes[i].learner.value !in Last(run).submitted
    ensures IsHistory(o, h) && !OnlyClients(h)
  {
    h := Mirror.Lift(o, run);
    var k := |run| - 1;
    assert Mirror.Mirrors(o, h[k], run[k]);
    assert h[k].servers[i].engine.applied == [run[k].nodes[i].learner.value];
    assert [run[k].nodes[i].learner.value][0] == run[k].nodes[i].learner.value;
  }

  /** The round that server 0's timer starts for the default value, and its proposal. */
  function Round(n: nat): Message {
    Message(PREPARE, 1, 0, 3 * n, NO_VALUE, 2 * n)
  }

  function Default(n: nat): Message {
    Message(ACCEPT, 1, 0, 3 * n, NO_VALUE, 3 * n)
  }

  predicate Begun(t: Inst, n: nat, v: ProposalValue) {
    && t.seqno == 1 && Undecided(t, n) && t.submitted == {v}
    && t.nodes[0].proposer == ProposerState(3 * n, 0, NO_VALUE, {}, {}, false)
  }

  /** Its timer fires twice, and so the default is no longer left to stray promises. */
  lemma DefaultBegins(cfg: Config, v: ProposalValue) returns (r: seq<Inst>)
    requires cfg.n > 0 && cfg.crashes && !cfg.asserts
    ensures IsClientRun(cfg, r) && Begun(Last(r), cfg.n, v) && SentToAll(Last(r), Round(cfg.n))
    ensures EmptyUpTo(Last(r), if cfg.recovery then 2 * cfg.n else 0, 0, 1)
    ensures EmptyUpTo(Last(r), 2 * cfg.n, 1, Most(cfg.n))
  {
    var r3 := DefaultOffered(cfg, v);
    var r4 := Retry(cfg, r3, 0);
    r := Retry(cfg, r4, 0);
  }

  /** A majority promises. */
  lemma DefaultIsPromised(cfg: Config, v: ProposalValue) returns (r: seq<Inst>)
    requires cfg.n > 0 && cfg.crashes && !cfg.asserts
    ensures IsClientRun(cfg, r) && Begun(Last(r), cfg.n, v)
    ensures EmptyUpTo(Last(r), 3 * cfg.n, 0, Most(cfg.n)) && PromisesOut(Last(r), 0, 3 * cfg.n, 0, Most(cfg.n))
  {
    var n := cfg.n;
    var r5 := DefaultBegins(cfg, v);
    var r6 := ManyPromise(cfg, r5, Round(n), if cfg.recovery then 2 * n else 0, 0, 1);
    r := ManyPromise(cfg, r6, Round(n), 2 * n, 1, Most(n));
    PromisesJoin(Last(r6), Last(r), n);
  }

  lemma PromisesJoin(s: Inst, t: Inst, n: nat)
    requires n > 0 && t.seqno == s.seqno && KeepsBut(s, t, Round(n), 1, Most(n))
    requires PromisesOut(s, 0, 3 * n, 0, 1) && PromisesOut(t, 0, 3 * n, 1, Most(n))
    ensures PromisesOut(t, 0, 3 * n, 0, Most(n))
  {
    assert Packet(0, EmptyPromise(s.seqno, 0, 3 * n)) in s.flight;
  }

  /** And accepts. */
  lemma DefaultIsAccepted(cfg: Config, v: ProposalValue) returns (r: seq<Inst>)
    requires cfg.n > 0 && cfg.crashes && !cfg.asserts
    ensures IsClientRun(cfg, r) && Last(r).seqno == 1 && Undecided(Last(r), cfg.n) && Last(r).submitted == {v}
    ensures VotesOut(Last(r), Default(cfg.n), 1, Most(cfg.n))
  {
    var n := cfg.n;
    var r7 := DefaultIsPromised(cfg, v);
    assert Accept(Last(r7), 0, 3 * n) == Default(n);
    var r8 := CountsAll(cfg, r7, 3 * n);
    r := ManyAccept(cfg, r8, Default(n), 0, Most(n));
  }

  /** So server 0 hears of it. */
  lemma DefaultIsHeard(cfg: Config, v: ProposalValue) returns (r: seq<Inst>)
    requires cfg.n > 0 && cfg.crashes && !cfg.asserts
    ensures IsClientRun(cfg, r) && Last(r).seqno == 1 && Last(r).submitted == {v} && 0 < |Last(r).nodes|
    ensures Last(r).nodes[0].learner.informed && Last(r).nodes[0].learner.value == NO_VALUE
  {
    var n := cfg.n;
    var r9 := DefaultIsAccepted(cfg, v);
    var last := Vote(n / 2, Default(n));
    var r10: seq<Inst>;
    if n == 1 {
      r10 := VoteOnly(cfg, r9, last);
    } else {
      r10 := LearnMany(cfg, r9, Default(n), 1, Most(n));
    }
    assert Packet(0, Decision(0, last)) in Last(r10).flight;
    r := Hear(cfg, r10, 0, Decision(0, last));
  }

  /** A release build that crashes executes, in some history, a command that no client sent. */
  lemma DefaultIsExecuted(o: Options, v: ProposalValue) returns (h: seq<System>)
    requires o.cfg.n > 0 && o.cfg.crashes && !o.cfg.asserts && Stamped(v.clientId) && v != NO_VALUE
    ensures IsHistory(o, h) && !OnlyClients(h)
  {
    var run := DefaultIsHeard(o.cfg, v);
    h := HeardIsExecuted(o, run, 0);
  }

  // ---- exactly when, for each size ----

  ghost predicate AlwaysHonest(o: Options) {
    forall h :: IsHistory(o, h) ==> OnlyClients(h)
  }

  /** Deployment by deployment: servers execute only clients' commands, over all histories, if and
      only if they do not crash or the build keeps its assertions. */
  lemma OnlyClientsOfEach(o: Options)
    requires o.cfg.n > 0
    ensures AlwaysHonest(o) <==> (o.cfg.crashes ==> o.cfg.asserts)
  {
    if o.cfg.crashes ==> o.cfg.asserts {
      forall h | IsHistory(o, h) ensures OnlyClients(h) {
        AssertedIsHonest(o, h);
      }
    } else {
      var from := Udp4(0, 1);
      EncodeIsStamped(from);
      var h := DefaultIsExecuted(o, ProposalValue(LOCK, 1, Encode(from), 1));
    }
  }
}
