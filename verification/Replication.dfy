/** State-machine replication: in sound deployments every server's lock table is the lock machine
    run over one common log of client commands. */
module Replication {
  import opened Wire
  import opened Roles
  import opened Endpoint
  import opened Consensus
  import opened Safety
  import opened Agreement
  import opened Validity
  import opened Executor
  import opened Cluster
  import opened Records

  // ---- instances ----

  ghost predicate GoodInst(o: Options, t: Inst, s: nat) {
    s > 0 && t.seqno == s && Inv(o.cfg, t) && ValidState(t)
  }

  ghost predicate GoodInsts(o: Options, c: System) {
    forall s :: s in c.insts ==> GoodInst(o, c.insts[s], s)
  }

  lemma AtIsGood(o: Options, c: System, s: nat)
    requires GoodInsts(o, c) && s > 0 && o.cfg.n > 0
    ensures GoodInst(o, At(o, c, s), s)
  {
    if s !in c.insts {
      InitInv(o.cfg, s);
    }
  }

  lemma EventKeepsGood(o: Options, t: Inst, s: nat, e: Event)
    requires Sound(o.cfg) && o.cfg.n > 0 && GoodInst(o, t, s) && Enabled(o.cfg, t, e)
    ensures GoodInst(o, Apply(o.cfg, t, e), s)
  {
    StepInv(o.cfg, t, e);
    if e.Deliver? {
      DeliverAsserted(o.cfg, t, e.p);
    }
    EventIsValid(o.cfg, t, e);
    EventGrows(o.cfg, t, e);
  }

  // ---- the invariant of the whole system ----

  predicate GoodRequests(v: Server, clients: set<ProposalValue>) {
    && (forall s :: s in v.expected ==> v.expected[s] in clients)
    && forall m :: m in v.resubmits ==> m.value in clients
  }

  ghost predicate GoodServer(o: Options, c: System, i: nat) {
    PlainServer(o, c, i) && GoodRequests(c.servers[i], c.clients)
  }

  ghost predicate GoodClients(c: System) {
    && (forall s :: s in c.insts ==> c.insts[s].submitted <= c.clients)
    && forall v :: v in c.clients ==> Stamped(v.clientId)
  }

  ghost predicate GoodSystem(o: Options, c: System) {
    && Plain(o, c) && GoodInsts(o, c) && GoodClients(c)
    && forall i :: 0 <= i < |c.servers| ==> GoodServer(o, c, i)
  }

  lemma BootIsGood(o: Options)
    requires o.cfg.n > 0
    ensures GoodSystem(o, Boot(o))
  {
  }

  lemma EventSubmits(o: Options, t: Inst, e: Event)
    requires Enabled(o.cfg, t, e)
    ensures Apply(o.cfg, t, e).submitted == if e.Submission? then t.submitted + {e.m.value} else t.submitted
  {
  }

  // ---- what was submitted ----

  /** Instance s is u now, in good order and with clients' values only. */
  ghost predicate Became(o: Options, s: nat, u: Inst, clients: set<ProposalValue>) {
    GoodInst(o, u, s) && u.submitted <= clients
  }

  lemma EventBecomes(o: Options, c: System, s: nat, e: Event, clients: set<ProposalValue>)
    requires o.cfg.n > 0 && GoodInsts(o, c) && GoodClients(c) && Sound(o.cfg) && c.clients <= clients
    requires s > 0 && Enabled(o.cfg, At(o, c, s), e) && (e.Submission? ==> e.m.value in clients)
    ensures Became(o, s, Apply(o.cfg, At(o, c, s), e), clients)
  {
    AtIsGood(o, c, s);
    EventKeepsGood(o, At(o, c, s), s, e);
    EventSubmits(o, At(o, c, s), e);
  }

  /** One instance moves; clients may have become more. */
  lemma InstanceStep(o: Options, c: System, d: System, s: nat, u: Inst)
    requires GoodInsts(o, c) && GoodClients(c) && Became(o, s, u, d.clients) && d.insts == c.insts[s := u]
    requires c.clients <= d.clients && forall v :: v in d.clients ==> Stamped(v.clientId)
    ensures GoodInsts(o, d) && GoodClients(d)
  {
  }

  lemma RespondAllKeeps(id: nat, v: Server, rs: seq<Message>, clients: set<ProposalValue>)
    requires GoodRequests(v, clients)
    ensures var w := RespondAll(id, v, rs);
            && GoodRequests(w, clients)
            && w.engine == v.engine && w.acceptorFile == v.acceptorFile && w.learnerFile == v.learnerFile
    decreases |rs|
  {
    if rs != [] {
      RespondAllKeeps(id, if rs[0].extra == id then Respond(v, rs[0]) else v, rs[1..], clients);
    }
  }

  lemma DecideRequests(o: Options, id: nat, v: Server, command: Option<Message>, clients: set<ProposalValue>)
    requires GoodRequests(v, clients)
    ensures GoodRequests(Decide(o.amo, id, v, command), clients)
  {
    if command.Some? {
      var (e, rs) := TryExecute(o.amo, v.engine, command.value);
      RespondAllKeeps(id, v.(engine := e), rs, clients);
    }
  }

  /** The requests of every server, given those of the servers that changed. */
  lemma Assembled(o: Options, c: System, d: System)
    requires GoodSystem(o, c) && Plain(o, d) && GoodInsts(o, d) && GoodClients(d) && c.clients <= d.clients
    requires forall i :: 0 <= i < |d.servers| && d.servers[i] != c.servers[i] ==> GoodRequests(d.servers[i], d.clients)
    ensures GoodSystem(o, d)
  {
    forall i: nat | i < |d.servers| ensures GoodServer(o, d, i) {
      assert PlainServer(o, d, i);
      assert GoodServer(o, c, i);
    }
  }

  lemma SubmitIsGood(o: Options, c: System, x: System, i: nat, m: Message)
    requires GoodSystem(o, c) && Sound(o.cfg) && i < |x.servers| && SubmitOpen(o, x, i) && m.value in x.clients
    requires x.insts == c.insts && |x.servers| == |c.servers| && c.clients <= x.clients
    requires forall v :: v in x.clients ==> Stamped(v.clientId)
    requires forall j :: 0 <= j < |c.servers| ==>
               SameRecords(c.servers[j], x.servers[j]) && GoodRequests(x.servers[j], x.clients)
    ensures GoodSystem(o, SubmitAt(o, x, i, m))
  {
    var s, d := NextSlot(x, i), SubmitAt(o, x, i, m);
    var e := Submission(i, ToSlot(m, s));
    assert At(o, x, s) == At(o, c, s);
    SubmitIsPlain(o, c, x, i, m);
    SubmitParts(o, x, i, m);
    EventBecomes(o, c, s, e, x.clients);
    SubmittedIsGood(o, c, x, d, i, s, m.value, Apply(o.cfg, At(o, c, s), e));
  }

  lemma SubmittedIsGood(o: Options, c: System, x: System, d: System, i: nat, s: nat, v: ProposalValue, u: Inst)
    requires GoodSystem(o, c) && Plain(o, d) && Became(o, s, u, x.clients) && v in x.clients
    requires x.insts == c.insts && |x.servers| == |c.servers| && c.clients <= x.clients && i < |x.servers|
    requires forall v :: v in x.clients ==> Stamped(v.clientId)
    requires forall j :: 0 <= j < |c.servers| ==> GoodRequests(x.servers[j], x.clients)
    requires d.insts == x.insts[s := u] && d.clients == x.clients
    requires d.servers == x.servers[i := x.servers[i].(expected := Expect(x.servers[i].expected, s, v))]
    ensures GoodSystem(o, d)
  {
    InstanceStep(o, c, d, s, u);
    Assembled(o, c, d);
  }

  lemma ClientIsGood(o: Options, c: System, i: nat, from: Udp4, m: Message)
    requires GoodSystem(o, c) && Sound(o.cfg) && CanDo(o, c, Client(i, from, m))
    ensures GoodSystem(o, Do(o, c, Client(i, from, m)))
  {
    var w := Stamp(from, m);
    var x := c.(clients := c.clients + {w.value});
    EncodeIsStamped(from);
    ClientShape(o, c, i, from, m);
    MoreClients(o, c, x);
    SubmitIsGood(o, c, x, i, w);
  }

  lemma MoreClients(o: Options, c: System, x: System)
    requires GoodSystem(o, c) && x.servers == c.servers && c.clients <= x.clients
    ensures forall j :: 0 <= j < |c.servers| ==> GoodRequests(x.servers[j], x.clients)
  {
    forall j | 0 <= j < |c.servers| ensures GoodRequests(x.servers[j], x.clients) {
      assert GoodServer(o, c, j);
    }
  }

  lemma ResubmitIsGood(o: Options, c: System, i: nat, m: Message)
    requires GoodSystem(o, c) && Sound(o.cfg) && CanDo(o, c, Resubmit(i, m))
    ensures GoodSystem(o, Do(o, c, Resubmit(i, m)))
  {
    var v := c.servers[i];
    var w := v.(resubmits := v.resubmits - multiset{m}, expected := v.expected - {m.sequence});
    ResubmitShape(o, c, i, m);
    FewerRequests(o, c, i, w, m);
    SubmitIsGood(o, c, SetServer(c, i, w), i, m);
  }

  /** A request taken back is a client's, and so are those that remain. */
  lemma FewerRequests(o: Options, c: System, i: nat, w: Server, m: Message)
    requires GoodSystem(o, c) && i < |c.servers| && m in c.servers[i].resubmits
    requires w.resubmits <= c.servers[i].resubmits
    requires forall s :: s in w.expected ==> s in c.servers[i].expected && w.expected[s] == c.servers[i].expected[s]
    ensures m.value in c.clients
    ensures forall j :: 0 <= j < |c.servers| ==> GoodRequests(SetServer(c, i, w).servers[j], c.clients)
  {
    forall j | 0 <= j < |c.servers| ensures GoodRequests(SetServer(c, i, w).servers[j], c.clients) {
      assert GoodServer(o, c, j);
    }
    assert GoodServer(o, c, i);
  }

  lemma QuietIsGood(o: Options, c: System, s: nat, e: Event)
    requires GoodSystem(o, c) && Sound(o.cfg) && s in c.insts && Enabled(o.cfg, c.insts[s], e)
    requires !e.Submission? && !e.Deliver?
    ensures GoodSystem(o, SetAt(c, s, Apply(o.cfg, c.insts[s], e)))
  {
    var d := SetAt(c, s, Apply(o.cfg, c.insts[s], e));
    assert GoodInst(o, c.insts[s], s);
    QuietIsPlain(o, c, s, e);
    EventBecomes(o, c, s, e, c.clients);
    InstanceStep(o, c, d, s, Apply(o.cfg, c.insts[s], e));
    Assembled(o, c, d);
  }

  lemma ReceivedIsGood(o: Options, c: System, d: System, s: nat, i: nat, u: Inst, e: Effect)
    requires GoodSystem(o, c) && Plain(o, d) && Delivered(o, c, d, s, i, u, e) && Became(o, s, u, c.clients)
    ensures GoodSystem(o, d)
  {
    assert GoodServer(o, c, i);
    InstanceStep(o, c, d, s, u);
    LogWritesKeeps(o.cfg.recovery, c.servers[i], s, e);
    DecideRequests(o, i, LogWrites(o.cfg.recovery, c.servers[i], s, e), e.command, c.clients);
    Assembled(o, c, d);
  }

  lemma ReceiveIsGood(o: Options, c: System, s: nat, p: Packet)
    requires GoodSystem(o, c) && Sound(o.cfg) && CanDo(o, c, Receive(s, p))
    ensures GoodSystem(o, Do(o, c, Receive(s, p)))
  {
    var t := c.insts[s];
    assert GoodInst(o, t, s) && PlainInst(o, t, s);
    ReceiveIsPlain(o, c, s, p);
    ReceiveShape(o, c, s, p);
    EventBecomes(o, c, s, Deliver(p), c.clients);
    ReceivedIsGood(o, c, Do(o, c, Receive(s, p)), s, p.dst, Apply(o.cfg, t, Deliver(p)),
                   Dispatch(|t.nodes|, o.cfg.recovery, p.dst, t.nodes[p.dst], p.msg));
  }

  lemma RestartIsGood(o: Options, c: System, d: System, i: nat)
    requires GoodSystem(o, c) && Sound(o.cfg) && o.cfg.crashes && Rebooted(o, c, d, i) && d.clients == c.clients
    ensures GoodInsts(o, d) && GoodClients(d)
  {
    forall s | s in d.insts ensures GoodInst(o, d.insts[s], s) && d.insts[s].submitted <= c.clients {
      assert GoodInst(o, c.insts[s], s) && Restarted(o, c.insts[s], d.insts[s], i);
      EventKeepsGood(o, c.insts[s], s, Crash(i));
      EventSubmits(o, c.insts[s], Crash(i));
    }
  }

  lemma RebootIsGood(o: Options, c: System, i: nat)
    requires GoodSystem(o, c) && Sound(o.cfg) && CanDo(o, c, Reboot(i))
    ensures GoodSystem(o, Do(o, c, Reboot(i)))
  {
    RebootIsPlain(o, c, i);
    RebootIs(o, c, i);
    RestartIsGood(o, c, Do(o, c, Reboot(i)), i);
    Assembled(o, c, Do(o, c, Reboot(i)));
  }

  // ---- every history ----

  lemma ActionIsGood(o: Options, c: System, a: Action)
    requires GoodSystem(o, c) && Sound(o.cfg) && CanDo(o, c, a)
    ensures GoodSystem(o, Do(o, c, a))
  {
    match a
    case Client(i, from, m) => ClientIsGood(o, c, i, from, m);
    case Resubmit(i, m) => ResubmitIsGood(o, c, i, m);
    case Receive(s, p) => ReceiveIsGood(o, c, s, p);
    case Reboot(i) => RebootIsGood(o, c, i);
    case Expire(i, s) => QuietIsGood(o, c, s, Timer(i));
    case Lose(s, p) => QuietIsGood(o, c, s, Drop(p));
    case Copy(s, p) => QuietIsGood(o, c, s, Duplicate(p));
  }

  lemma {:induction false} HistoryIsGood(o: Options, run: seq<System>, k: nat)
    requires IsHistory(o, run) && Sound(o.cfg) && k < |run|
    ensures GoodSystem(o, run[k])
  {
    if k == 0 {
      BootIsGood(o);
    } else {
      HistoryIsGood(o, run, k - 1);
      var a := ActionAt(o, run, k);
      ActionIsGood(o, run[k - 1], a);
    }
  }
}
