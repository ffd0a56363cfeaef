/** Histories of a lone server, spelled out: how it executes one command after the other, and the
    two ways in which it comes to a standstill. */
module Solo {
  import opened Wire
  import opened Endpoint
  import opened Roles
  import opened Consensus
  import opened LogFile
  import opened Executor
  import opened Cluster

  // ---- growing histories ----

  function Last(run: seq<System>): System
    requires |run| > 0
  {
    run[|run| - 1]
  }

  lemma Goes(o: Options, run: seq<System>, d: System) returns (r: seq<System>)
    requires IsHistory(o, run) && Step(o, Last(run), d)
    ensures IsHistory(o, r) && r == run + [d]
  {
    r := run + [d];
    forall k: nat | k < |r| - 1 ensures StepAt(o, r, k) {
      if k < |run| - 1 {
        assert StepAt(o, run, k);
      }
    }
  }

  lemma Then(o: Options, run: seq<System>, a: Action) returns (r: seq<System>)
    requires IsHistory(o, run) && CanDo(o, Last(run), a)
    ensures IsHistory(o, r) && r == run + [Last(r)] && Last(r) == Do(o, Last(run), a)
  {
    r := Goes(o, run, Do(o, Last(run), a));
  }

  // ---- the messages and the shares of one round ----

  function Request(v: ProposalValue): Message {
    Message(SUBMIT, 0, 0, 0, v, 0)
  }

  /** The j-th message of instance s's only round. */
  function MessageOf(s: nat, v: ProposalValue, j: nat): Message {
    match j
    case 1 => Message(PREPARE, s, 0, 2, v, 0)
    case 2 => Message(PROMISE, s, 0, 0, NO_VALUE, 2)
    case 3 => Message(ACCEPT, s, 0, 2, v, 2)
    case 4 => Message(ACCEPTED, s, 0, 2, v, 2)
    case _ => Message(INFORM, s, 0, 2, v, 0)
  }

  /** The server's share while the j-th message is in flight. */
  function ShareAt(recovery: bool, s: nat, v: ProposalValue, j: nat): Node {
    var a := if j <= 1 then INIT_ACCEPTOR else if j <= 3 then AcceptorState(2, 0, NO_VALUE) else AcceptorState(2, 2, v);
    Node(
      if j <= 2 then ProposerState(2, 0, v, {}, {}, false) else ProposerState(2, 0, v, {0}, {}, true),
      a,
      if j <= 4 then INIT_LEARNER else LearnerState(2, v, {0}, true, false),
      if j <= 2 then Some(MessageOf(s, v, 1)) else if j <= 4 then Some(MessageOf(s, v, 3)) else None,
      if recovery && j >= 2 then Some(a) else None,
      None)
  }

  lemma Submits(recovery: bool, s: nat, v: ProposalValue)
    ensures Submit(1, 0, InitNode(1, 0), ToSlot(Request(v), s))
            == Effect(ShareAt(recovery, s, v, 1), [Packet(0, MessageOf(s, v, 1))], None)
  {
    OneCopy(MessageOf(s, v, 1));
  }

  lemma OneCopy(m: Message)
    ensures Broadcast(1, m) == [Packet(0, m)]
  {
    assert Packet(0, m) in Broadcast(1, m);
    assert Broadcast(1, m)[0] in Broadcast(1, m);
  }

  lemma Moves(recovery: bool, s: nat, v: ProposalValue, j: nat)
    requires 1 <= j <= 4
    ensures Dispatch(1, recovery, 0, ShareAt(recovery, s, v, j), MessageOf(s, v, j))
            == Effect(ShareAt(recovery, s, v, j + 1), [Packet(0, MessageOf(s, v, j + 1))], None)
  {
    OneCopy(MessageOf(s, v, 3));
    OneCopy(MessageOf(s, v, 5));
    assert {} + {0 as nat} == {0} && |{0 as nat}| == 1;
  }

  // ---- the states of the system ----

  /** Server v after effect e of instance s: what it logs, and what it does with the command. */
  function AfterEffect(o: Options, id: nat, v: Server, s: nat, e: Effect): Server {
    Decide(o.amo, id, LogWrites(o.cfg.recovery, v, s, e), e.command)
  }

  /** One server that has executed the first k positions and knows nothing beyond. */
  ghost predicate Executed(o: Options, v: Server, k: nat) {
    && v.engine.executed == k && v.engine.waiting == map[]
    && (o.cfg.recovery ==>
          && v.learnerFile.recorded == |v.learnerFile.slots| == (if k == 0 then 0 else BLOCKS)
          && forall s: nat :: Logged(v.learnerFile, s) <==> 1 <= s <= k)
  }

  ghost predicate Ready(o: Options, c: System, k: nat) {
    && o.cfg.n == 1 && |c.servers| == 1 && Executed(o, c.servers[0], k)
    && forall s :: s in c.insts <==> 1 <= s <= k
  }

  /** Instance s between two messages: the server's share and what is in flight. */
  predicate Holding(t: Inst, s: nat, x: Node, f: multiset<Packet>) {
    t.seqno == s && t.nodes == [x] && t.flight == f
  }

  predicate HoldingAt(recovery: bool, t: Inst, s: nat, v: ProposalValue, j: nat) {
    Holding(t, s, ShareAt(recovery, s, v, j), multiset{Packet(0, MessageOf(s, v, j))})
  }

  /** Position k + 1 is being decided and stands at message j. */
  ghost predicate DecidingAt(o: Options, c: System, k: nat, v: ProposalValue, j: nat) {
    && o.cfg.n == 1 && |c.servers| == 1 && Executed(o, c.servers[0], k)
    && (forall s :: s in c.insts <==> 1 <= s <= k + 1)
    && HoldingAt(o.cfg.recovery, c.insts[k + 1], k + 1, v, j)
  }

  /** What a round leaves alone until its decision is heard. */
  predicate Same(w: Server, v: Server) {
    w.engine == v.engine && w.learnerFile == v.learnerFile && w.resubmits == v.resubmits
  }

  lemma BootIsReady(o: Options)
    requires o.cfg.n == 1
    ensures Ready(o, Boot(o), 0)
  {
  }

  lemma InstBegins(cfg: Config, s: nat, v: ProposalValue)
    ensures var e, t := Submission(0, ToSlot(Request(v), s)), Init(1, s);
            Enabled(cfg, t, e) && HoldingAt(cfg.recovery, Apply(cfg, t, e), s, v, 1)
  {
    var t := Init(1, s);
    assert t.nodes == [InitNode(1, 0)];
    Submits(cfg.recovery, s, v);
    var u := Apply(cfg, t, Submission(0, ToSlot(Request(v), s)));
    assert u.nodes == [ShareAt(cfg.recovery, s, v, 1)];
    assert u.flight == multiset{Packet(0, MessageOf(s, v, 1))};
  }

  lemma InstGoesOn(cfg: Config, t: Inst, s: nat, v: ProposalValue, j: nat)
    requires HoldingAt(cfg.recovery, t, s, v, j) && 1 <= j <= 4
    ensures var e := Deliver(Packet(0, MessageOf(s, v, j)));
            Enabled(cfg, t, e) && HoldingAt(cfg.recovery, Apply(cfg, t, e), s, v, j + 1)
  {
    Moves(cfg.recovery, s, v, j);
    var u := Apply(cfg, t, Deliver(Packet(0, MessageOf(s, v, j))));
    assert u.nodes == [ShareAt(cfg.recovery, s, v, j + 1)];
    assert u.flight == multiset{Packet(0, MessageOf(s, v, j + 1))};
  }

  lemma ClientBegins(o: Options, c: System, k: nat, from: Udp4, v: ProposalValue)
    requires Ready(o, c, k) && v.clientId == Encode(from)
    ensures CanDo(o, c, Client(0, from, Request(v)))
    ensures var d := Do(o, c, Client(0, from, Request(v)));
            DecidingAt(o, d, k, v, 1) && Same(d.servers[0], c.servers[0])
  {
    assert Stamp(from, Request(v)) == Request(v);
    InstBegins(o.cfg, k + 1, v);
  }

  lemma QuietKeepsExecuted(o: Options, v: Server, s: nat, e: Effect, k: nat)
    requires Executed(o, v, k) && e.command.None?
    ensures var w := AfterEffect(o, 0, v, s, e);
            Executed(o, w, k) && Same(w, v)
  {
  }

  /** A delivery replaces one instance and one server. */
  lemma ReceiveParts(o: Options, c: System, s: nat, p: Packet)
    requires CanDo(o, c, Receive(s, p)) && p.dst < |c.insts[s].nodes|
    ensures var d := Do(o, c, Receive(s, p));
            var t := c.insts[s];
            var e := Dispatch(|t.nodes|, o.cfg.recovery, p.dst, t.nodes[p.dst], p.msg);
            && d.insts == c.insts[s := Apply(o.cfg, t, Deliver(p))]
            && d.servers == c.servers[p.dst := AfterEffect(o, p.dst, c.servers[p.dst], s, e)]
  {
  }

  lemma OneMessageOn(o: Options, c: System, d: System, k: nat, v: ProposalValue, j: nat, u: Inst, w: Server)
    requires DecidingAt(o, c, k, v, j) && HoldingAt(o.cfg.recovery, u, k + 1, v, j + 1) && Executed(o, w, k)
    requires d.insts == c.insts[k + 1 := u] && d.servers == c.servers[0 := w]
    ensures DecidingAt(o, d, k, v, j + 1) && d.servers[0] == w
  {
  }

  /** From a request to the decision: the server has learned it and its INFORM is in flight. */
  lemma Learns(o: Options, run: seq<System>, k: nat, from: Udp4, v: ProposalValue) returns (r: seq<System>)
    requires IsHistory(o, run) && Ready(o, Last(run), k) && v.clientId == Encode(from)
    ensures IsHistory(o, r) && DecidingAt(o, Last(r), k, v, 5) && Same(Last(r).servers[0], Last(run).servers[0])
  {
    ClientBegins(o, Last(run), k, from, v);
    r := Then(o, run, Client(0, from, Request(v)));
    r := GoesOn(o, r, k, v, 1);
    r := GoesOn(o, r, k, v, 2);
    r := GoesOn(o, r, k, v, 3);
    r := GoesOn(o, r, k, v, 4);
  }

  /** A delivery as one more state of the history. */
  lemma Received(o: Options, run: seq<System>, s: nat, p: Packet) returns (r: seq<System>)
    requires IsHistory(o, run) && s in Last(run).insts && p.dst < |Last(run).servers|
    requires p.dst < |Last(run).insts[s].nodes| && Enabled(o.cfg, Last(run).insts[s], Deliver(p))
    ensures IsHistory(o, r) && |r| > 0
    ensures var c, d := Last(run), Last(r);
            var t := c.insts[s];
            var e := Dispatch(|t.nodes|, o.cfg.recovery, p.dst, t.nodes[p.dst], p.msg);
            && d.insts == c.insts[s := Apply(o.cfg, t, Deliver(p))]
            && d.servers == c.servers[p.dst := AfterEffect(o, p.dst, c.servers[p.dst], s, e)]
  {
    ReceiveParts(o, Last(run), s, p);
    r := Then(o, run, Receive(s, p));
  }

  lemma GoesOn(o: Options, run: seq<System>, k: nat, v: ProposalValue, j: nat) returns (r: seq<System>)
    requires IsHistory(o, run) && DecidingAt(o, Last(run), k, v, j) && 1 <= j <= 4
    ensures IsHistory(o, r) && DecidingAt(o, Last(r), k, v, j + 1) && Same(Last(r).servers[0], Last(run).servers[0])
  {
    var c := Last(run);
    var t, p := c.insts[k + 1], Packet(0, MessageOf(k + 1, v, j));
    InstGoesOn(o.cfg, t, k + 1, v, j);
    Moves(o.cfg.recovery, k + 1, v, j);
    r := Received(o, run, k + 1, p);
    var e := Dispatch(1, o.cfg.recovery, 0, t.nodes[0], p.msg);
    QuietKeepsExecuted(o, c.servers[0], k + 1, e, k);
    OneMessageOn(o, c, Last(r), k, v, j, Apply(o.cfg, t, Deliver(p)),
                 AfterEffect(o, 0, c.servers[0], k + 1, e));
  }

  // ---- hearing the decision ----

  lemma Hears(recovery: bool, s: nat, v: ProposalValue)
    ensures var e := Dispatch(1, recovery, 0, ShareAt(recovery, s, v, 5), MessageOf(s, v, 5));
            && e.out == [] && e.command == Some(MessageOf(s, v, 5).(kind := COMMAND))
            && e.node.learner == LearnerState(2, v, {0}, true, true)
  {
  }

  /** The next command executes at once; nothing else is waiting. */
  lemma NextExecutes(amo: bool, e: Engine, c: Message)
    requires e.waiting == map[] && c.sequence == e.executed + 1
    ensures var (x, rs) := TryExecute(amo, e, c);
            && x.executed == e.executed + 1 && x.waiting == map[] && x.applied == e.applied + [c.value]
            && |rs| <= 1
  {
    var (y, out) := Advance(amo, e, c);
    assert y.waiting == map[] && y.applied == e.applied + [c.value];
    assert Drain(amo, y) == (y, []);
    assert out + [] == out;
  }

  lemma OneResponse(id: nat, v: Server, rs: seq<Message>)
    requires |rs| <= 1
    ensures var w := RespondAll(id, v, rs); w.engine == v.engine && w.learnerFile == v.learnerFile
  {
    if rs != [] {
      assert rs[1..] == [];
    }
  }

  lemma NextIsLogged(f: File<Informed>, k: nat, x: Informed)
    requires f.recorded == |f.slots| == (if k == 0 then 0 else BLOCKS) && k + 1 < BLOCKS
    requires forall s: nat :: Logged(f, s) <==> 1 <= s <= k
    ensures var g := WriteLog(f, k + 1, x, ZERO_INFORMED);
            g.recorded == |g.slots| == BLOCKS && forall s: nat :: Logged(g, s) <==> 1 <= s <= k + 1
  {
    var g, h := AppendAsNeed(f, k + 1, ZERO_INFORMED), WriteLog(f, k + 1, x, ZERO_INFORMED);
    assert forall s: nat :: Logged(g, s) <==> Logged(f, s);
    assert h.slots == g.slots[k + 1 := Slot(k + 1, x)];
    forall s: nat ensures Logged(h, s) <==> 1 <= s <= k + 1 {
      assert s != k + 1 ==> (Logged(h, s) <==> Logged(g, s));
    }
  }

  lemma ServerHears(o: Options, w: Server, k: nat, v: ProposalValue)
    requires Executed(o, w, k) && (o.cfg.recovery ==> k + 1 < BLOCKS)
    ensures var e := Dispatch(1, o.cfg.recovery, 0, ShareAt(o.cfg.recovery, k + 1, v, 5), MessageOf(k + 1, v, 5));
            var u := AfterEffect(o, 0, w, k + 1, e);
            Executed(o, u, k + 1) && u.engine.applied == w.engine.applied + [v]
  {
    Hears(o.cfg.recovery, k + 1, v);
    var e := Dispatch(1, o.cfg.recovery, 0, ShareAt(o.cfg.recovery, k + 1, v, 5), MessageOf(k + 1, v, 5));
    var u := LogWrites(o.cfg.recovery, w, k + 1, e);
    if o.cfg.recovery {
      NextIsLogged(w.learnerFile, k, Informed(e.node.learner.number, e.node.learner.value));
    }
    NextExecutes(o.amo, w.engine, e.command.value);
    var (x, rs) := TryExecute(o.amo, u.engine, e.command.value);
    OneResponse(0, u.(engine := x), rs);
  }

  lemma OnePositionOn(o: Options, c: System, d: System, k: nat, v: ProposalValue, u: Inst, w: Server)
    requires DecidingAt(o, c, k, v, 5) && Executed(o, w, k + 1)
    requires d.insts == c.insts[k + 1 := u] && d.servers == c.servers[0 := w]
    ensures Ready(o, d, k + 1) && d.servers[0] == w
  {
  }

  lemma LastHears(o: Options, run: seq<System>, k: nat, v: ProposalValue) returns (r: seq<System>)
    requires IsHistory(o, run) && DecidingAt(o, Last(run), k, v, 5) && (o.cfg.recovery ==> k + 1 < BLOCKS)
    ensures IsHistory(o, r) && Ready(o, Last(r), k + 1)
    ensures Last(r).servers[0].engine.applied == Last(run).servers[0].engine.applied + [v]
  {
    var c := Last(run);
    var t, p := c.insts[k + 1], Packet(0, MessageOf(k + 1, v, 5));
    ServerHears(o, c.servers[0], k, v);
    r := Received(o, run, k + 1, p);
    var e := Dispatch(1, o.cfg.recovery, 0, t.nodes[0], p.msg);
    OnePositionOn(o, c, Last(r), k, v, Apply(o.cfg, t, Deliver(p)),
                  AfterEffect(o, 0, c.servers[0], k + 1, e));
  }

  /** One more request, decided and executed. */
  lemma Executes(o: Options, run: seq<System>, k: nat, from: Udp4, v: ProposalValue) returns (r: seq<System>)
    requires IsHistory(o, run) && Ready(o, Last(run), k) && v.clientId == Encode(from)
    requires o.cfg.recovery ==> k + 1 < BLOCKS
    ensures IsHistory(o, r) && Ready(o, Last(r), k + 1)
    ensures Last(r).servers[0].engine.applied == Last(run).servers[0].engine.applied + [v]
  {
    var q := Learns(o, run, k, from, v);
    r := LastHears(o, q, k, v);
  }

  /** A lone server executes any number of requests, as many as fit the first block if it logs. */
  lemma {:induction false} ExecutesMany(o: Options, from: Udp4, v: ProposalValue, k: nat) returns (run: seq<System>)
    requires o.cfg.n == 1 && v.clientId == Encode(from) && (o.cfg.recovery ==> k <= 1023)
    ensures IsHistory(o, run) && Ready(o, Last(run), k)
  {
    if k == 0 {
      run := [Boot(o)];
      BootIsReady(o);
    } else {
      var q := ExecutesMany(o, from, v, k - 1);
      run := Executes(o, q, k - 1, from, v);
    }
  }
}
