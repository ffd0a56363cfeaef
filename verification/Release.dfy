/** Deployments of one, two or four servers agree even in a release build, as long as the logs are on
    and the network does not duplicate. */
module Release {
  import opened Wire
  import opened Roles
  import opened Consensus
  import opened Invariant
  import opened InvariantSteps
  import opened Rounds
  import opened Loose
  import opened LooseSteps
  import opened LooseRounds
  import opened LooseFlight
  import Agreement
  import Safety

  predicate TightlyRun(cfg: Config) {
    cfg.recovery && !cfg.duplicates && Tight(cfg.n)
  }

  ghost predicate TightInv(cfg: Config, s: Inst) {
    |s.nodes| == cfg.n && LooseInv(s)
  }

  lemma InitTight(cfg: Config, k: nat)
    requires cfg.n > 0
    ensures TightInv(cfg, Init(cfg.n, k))
  {
    var s := Init(cfg.n, k);
    forall i | 0 <= i < |s.nodes| ensures NodeOk(s, i) {
      OwnerInit(cfg.n, i);
    }
  }

  // ---- what is said ----

  lemma DeliverTold(s: Inst, t: Inst, p: Packet)
    requires Told(s) && Numbers(s) && p in s.sent && p.dst < |s.nodes|
    requires Moves(s, t, p.dst, Dispatch(|s.nodes|, true, p.dst, s.nodes[p.dst], p.msg))
    ensures Told(t)
  {
    match p.msg.kind
    case PREPARE => PrepareTold(true, s, t, p.dst, p);
    case PROMISE => PromiseTold(s, t, p.dst, p);
    case DENIAL => DenialTold(s, t, p.dst, p);
    case ACCEPT => AcceptTold(true, s, t, p.dst, p);
    case ACCEPTED => AcceptedTold(s, t, p.dst, p);
    case INFORM => InformTold(true, s, t, p.dst, p);
    case _ => IdleTold(s, t, p.dst);
  }

  // ---- what flies ----

  /** Only PREPARE makes a promise and only PROMISE counts one. */
  lemma OthersAreStill(n: nat, id: nat, x: Node, m: Message)
    requires !m.kind.PREPARE? && !m.kind.PROMISE?
    ensures var e := Dispatch(n, true, id, x, m);
            NoPromises(e) && NoProposals(e) && Still(x.proposer, e.node.proposer)
  {
  }

  lemma OthersExtend(s: Inst, t: Inst, p: Packet)
    requires Told(s) && p in s.sent && p.dst < |s.nodes| && !p.msg.kind.PREPARE? && !p.msg.kind.PROMISE?
    requires Moves(s, t, p.dst, Dispatch(|s.nodes|, true, p.dst, s.nodes[p.dst], p.msg))
    ensures Extends(s, t, p.dst)
  {
    if p.msg.kind.ACCEPT? {
      AcceptTold(true, s, t, p.dst, p);
    } else {
      OthersDoNotVote(|s.nodes|, p.dst, s.nodes[p.dst], p.msg);
      QuietExtends(s, t, p.dst, Dispatch(|s.nodes|, true, p.dst, s.nodes[p.dst], p.msg));
    }
  }

  lemma OthersDoNotVote(n: nat, id: nat, x: Node, m: Message)
    requires !m.kind.PREPARE? && !m.kind.PROMISE? && !m.kind.ACCEPT?
    ensures var e := Dispatch(n, true, id, x, m); NoNewVotes(e) && e.node.acceptor == x.acceptor
  {
  }

  lemma PrepareFlies(s: Inst, t: Inst, i: nat, p: Packet)
    requires Told(s) && Flying(s) && i < |s.nodes| && p in s.sent && p.msg.kind.PREPARE?
    requires forall r :: r in s.flight ==> r in s.sent
    requires Moves(s, t, i, HandlePrepare(true, i, s.nodes[i], p.msg))
    requires Flows(s, t, HandlePrepare(true, i, s.nodes[i], p.msg))
    ensures Flying(t)
  {
    var e := HandlePrepare(true, i, s.nodes[i], p.msg);
    assert NodeOk(s, i) && PacketOk(s, p);
    QuietExtends(s, t, i, e);
    if e.out[0].msg.kind.PROMISE? {
      PromiseFlies(s, t, i, e, e.out[0]);
    } else {
      StillFlies(s, t, i, e);
    }
  }

  lemma PromiseIsCounted(s: Inst, t: Inst, i: nat, p: Packet)
    requires Told(s) && Flying(s) && Tight(|s.nodes|) && i < |s.nodes| && p in s.flight && p.dst == i
    requires forall r :: r in s.flight ==> r in s.sent
    requires p.msg.kind.PROMISE?
    requires var e := HandlePromise(|s.nodes|, i, s.nodes[i], p.msg);
             Moves(s, t, i, e) && t.flight <= s.flight - multiset{p} + multiset(e.out)
    ensures Flying(t)
  {
    var e := HandlePromise(|s.nodes|, i, s.nodes[i], p.msg);
    assert NodeOk(s, i) && PacketOk(s, p);
    PromiseKeepsAcceptor(|s.nodes|, i, s.nodes[i], p.msg);
    AcceptorKept(s, t, i, e);
    if p.msg.extra < s.nodes[i].proposer.current {
      StillFlies(s, t, i, e);
    } else {
      PromiseShape(|s.nodes|, i, s.nodes[i], p.msg);
      if e.out == [] {
        CountFlies(s, t, i, e, p);
      } else {
        OfferFlies(s, t, i, e, p);
      }
    }
  }

  lemma PromiseKeepsAcceptor(n: nat, id: nat, x: Node, m: Message)
    requires m.kind.PROMISE?
    ensures var e := HandlePromise(n, id, x, m);
            && NoNewVotes(e) && NoPromises(e) && e.node.acceptor == x.acceptor
            && (m.extra < x.proposer.current ==> e == Quiet(x))
            && (x.proposer.majority ==> e.node.proposer.majority)
  {
  }

  // ---- one event ----

  lemma DeliverFlies(s: Inst, t: Inst, p: Packet)
    requires Told(s) && Flying(s) && Tight(|s.nodes|) && p in s.flight && p.dst < |s.nodes|
    requires forall r :: r in s.flight ==> r in s.sent
    requires var e := Dispatch(|s.nodes|, true, p.dst, s.nodes[p.dst], p.msg);
             Moves(s, t, p.dst, e) && t.flight == s.flight - multiset{p} + multiset(e.out)
    ensures Flying(t)
  {
    var e := Dispatch(|s.nodes|, true, p.dst, s.nodes[p.dst], p.msg);
    assert Flows(s, t, e);
    if p.msg.kind.PREPARE? {
      PrepareFlies(s, t, p.dst, p);
    } else if p.msg.kind.PROMISE? {
      PromiseIsCounted(s, t, p.dst, p);
    } else {
      OthersAreStill(|s.nodes|, p.dst, s.nodes[p.dst], p.msg);
      OthersExtend(s, t, p);
      StillFlies(s, t, p.dst, e);
    }
  }

  lemma DeliverTight(cfg: Config, s: Inst, p: Packet)
    requires TightInv(cfg, s) && TightlyRun(cfg) && Enabled(cfg, s, Deliver(p))
    ensures TightInv(cfg, Apply(cfg, s, Deliver(p)))
  {
    var t := Apply(cfg, s, Deliver(p));
    var e := Dispatch(|s.nodes|, true, p.dst, s.nodes[p.dst], p.msg);
    DeliverTold(s, t, p);
    DeliverFlies(s, t, p);
    Safety.DispatchDisk(|s.nodes|, p.dst, s.nodes[p.dst], p.msg);
    forall r | r in t.flight ensures r in t.sent {
    }
  }

  lemma SubmitFlies(s: Inst, t: Inst, i: nat, node: Node, m: Message)
    requires Told(s) && Flying(s) && i < |s.nodes| && Extends(s, t, i)
    requires node.proposer == s.nodes[i].proposer
    requires Moves(s, t, i, Submit(|s.nodes|, i, node, m)) && Flows(s, t, Submit(|s.nodes|, i, node, m))
    ensures Flying(t)
  {
    StillFlies(s, t, i, Submit(|s.nodes|, i, node, m));
  }

  lemma SubmitTight(cfg: Config, s: Inst, i: nat, node: Node, m: Message)
    requires TightInv(cfg, s) && i < |s.nodes| && m.sequence == s.seqno
    requires node == s.nodes[i] || node == s.nodes[i].(timer := None)
    ensures TightInv(cfg, Finish(s, i, Submit(|s.nodes|, i, node, m)))
  {
    var e := Submit(|s.nodes|, i, node, m);
    var t := Finish(s, i, e);
    assert NodeOk(s, i);
    SubmitTold(s, t, i, node, m);
    QuietExtends(s, t, i, e);
    SubmitFlies(s, t, i, node, m);
  }

  /** A state with the same nodes and history, and no more in flight. */
  lemma FewerFly(cfg: Config, s: Inst, u: Inst)
    requires TightInv(cfg, s) && u.nodes == s.nodes && u.seqno == s.seqno && u.sent == s.sent && u.flight <= s.flight
    ensures TightInv(cfg, u)
  {
    var e := Quiet(s.nodes[0]);
    assert s.sent + SetOf([]) == s.sent && s.flight + multiset([]) == s.flight;
    IdleTold(s, u, 0);
    QuietExtends(s, u, 0, e);
    StillFlies(s, u, 0, e);
  }

  lemma CrashTight(cfg: Config, s: Inst, i: nat)
    requires TightInv(cfg, s) && i < |s.nodes|
    ensures TightInv(cfg, s.(nodes := s.nodes[i := Restart(|s.nodes|, i, s.nodes[i])]))
  {
    var e := Quiet(Restart(|s.nodes|, i, s.nodes[i]));
    var t := s.(nodes := s.nodes[i := Restart(|s.nodes|, i, s.nodes[i])]);
    assert s.sent + SetOf([]) == s.sent && s.flight + multiset([]) == s.flight;
    RestartTold(s, t, i);
    QuietExtends(s, t, i, e);
    StillFlies(s, t, i, e);
  }

  lemma StepTight(cfg: Config, s: Inst, e: Event)
    requires TightInv(cfg, s) && TightlyRun(cfg) && Enabled(cfg, s, e)
    ensures TightInv(cfg, Apply(cfg, s, e))
  {
    match e
    case Submission(i, m) =>
      FewerFly(cfg, s, s.(submitted := s.submitted + {m.value}));
      SubmitTight(cfg, s.(submitted := s.submitted + {m.value}), i, s.nodes[i], m);
    case Timer(i) =>
      assert NodeOk(s, i);
      SubmitTight(cfg, s, i, s.nodes[i].(timer := None), s.nodes[i].timer.value.(kind := SUBMIT));
    case Deliver(p) => DeliverTight(cfg, s, p);
    case Drop(p) => FewerFly(cfg, s, Take(s, p));
    case Crash(i) => CrashTight(cfg, s, i);
  }

  lemma {:induction false} RunTight(cfg: Config, run: seq<Inst>, k: nat)
    requires IsRun(cfg, run) && TightlyRun(cfg) && k < |run|
    ensures TightInv(cfg, run[k])
  {
    if k == 0 {
      var j: nat :| run[0] == Init(cfg.n, j);
      InitTight(cfg, j);
    } else {
      RunTight(cfg, run, k - 1);
      var e := Safety.EventAt(cfg, run, k);
      StepTight(cfg, run[k - 1], e);
    }
  }

  // ---- agreement ----

  lemma HeldHereIsVoted(s: Inst, t: Inst, a: nat, b: nat, v: ProposalValue)
    requires LooseInv(s) && Holds(s, a, b, v) && s.sent <= t.sent && |t.nodes| == |s.nodes| && t.seqno == s.seqno
    ensures Voted(t, a, b, v)
  {
    assert NodeOk(s, a);
    assert Voted(s, a, b, v);
  }

  lemma HeldIsVotedFor(cfg: Config, run: seq<Inst>, a: nat, b: nat, v: ProposalValue)
    requires IsRun(cfg, run) && TightlyRun(cfg) && HeldIn(run, a, b, v)
    ensures Voted(run[|run| - 1], a, b, v)
  {
    var k :| 0 <= k < |run| && Holds(run[k], a, b, v);
    RunTight(cfg, run, k);
    Agreement.HistoryGrows(cfg, run, k, |run| - 1);
    HeldHereIsVoted(run[k], run[|run| - 1], a, b, v);
  }

  lemma ChosenInIsChosen(cfg: Config, run: seq<Inst>, b: nat, v: ProposalValue)
    requires IsRun(cfg, run) && TightlyRun(cfg) && ChosenIn(cfg.n, run, b, v)
    ensures Chosen(run[|run| - 1], b, v)
  {
    var q :| MajorityHeld(cfg.n, run, q, b, v);
    RunTight(cfg, run, |run| - 1);
    forall a | a in q ensures Voted(run[|run| - 1], a, b, v) {
      HeldIsVotedFor(cfg, run, a, b, v);
    }
    assert AllVoted(run[|run| - 1], q, b, v);
  }

  /** Agreement in release builds of one, two or four servers: although two values may be proposed
      under one number, no two are ever chosen. */
  lemma TightAgreement(cfg: Config, run: seq<Inst>)
    requires IsRun(cfg, run) && TightlyRun(cfg)
    ensures Agrees(cfg.n, run)
  {
    RunTight(cfg, run, |run| - 1);
    forall b: nat, c: nat, v, w | ChosenIn(cfg.n, run, b, v) && ChosenIn(cfg.n, run, c, w) ensures v == w {
      ChosenInIsChosen(cfg, run, b, v);
      ChosenInIsChosen(cfg, run, c, w);
      ChosenAgree(run[|run| - 1], b, v, c, w);
    }
  }

  lemma ChosenHereIsChosen(s: Inst, t: Inst, b: nat, v: ProposalValue)
    requires Chosen(s, b, v) && s.sent <= t.sent && |t.nodes| == |s.nodes| && t.seqno == s.seqno
    ensures Chosen(t, b, v)
  {
    var q :| AllVoted(s, q, b, v);
    forall a | a in q ensures Voted(t, a, b, v) {
      assert Voted(s, a, b, v);
    }
    assert AllVoted(t, q, b, v);
  }

  lemma DecidedIsChosen(cfg: Config, run: seq<Inst>, k: nat, i: nat)
    requires IsRun(cfg, run) && TightlyRun(cfg) && k < |run|
    requires i < |run[k].nodes| && Decided(run[k].nodes[i].learner)
    ensures Chosen(run[|run| - 1], run[k].nodes[i].learner.number, run[k].nodes[i].learner.value)
  {
    RunTight(cfg, run, k);
    assert NodeOk(run[k], i);
    Agreement.HistoryGrows(cfg, run, k, |run| - 1);
    ChosenHereIsChosen(run[k], run[|run| - 1], run[k].nodes[i].learner.number, run[k].nodes[i].learner.value);
  }

  /** And the learners agree, although one may count votes for different values under one number. */
  lemma TightLearnersAgree(cfg: Config, run: seq<Inst>, k: nat, i: nat, l: nat, j: nat)
    requires IsRun(cfg, run) && TightlyRun(cfg) && k < |run| && l < |run|
    requires i < |run[k].nodes| && Decided(run[k].nodes[i].learner)
    requires j < |run[l].nodes| && Decided(run[l].nodes[j].learner)
    ensures run[k].nodes[i].learner.value == run[l].nodes[j].learner.value
  {
    DecidedIsChosen(cfg, run, k, i);
    DecidedIsChosen(cfg, run, l, j);
    RunTight(cfg, run, |run| - 1);
    var x, y := run[k].nodes[i].learner, run[l].nodes[j].learner;
    ChosenAgree(run[|run| - 1], x.number, x.value, y.number, y.value);
  }
}
