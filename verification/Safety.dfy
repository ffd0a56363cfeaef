/** The invariant holds in every state of every run of a sound deployment. */
module Safety {
  import opened Wire
  import opened Roles
  import opened Consensus
  import opened Invariant
  import opened InvariantSteps
  import opened Rounds

  /** Servers that may crash need the logs, the reply assertions, and a network that does not
      duplicate; servers that do not crash need nothing. */
  predicate Sound(cfg: Config) {
    cfg.crashes ==> cfg.recovery && cfg.asserts && !cfg.duplicates
  }

  ghost predicate Disks(cfg: Config, s: Inst) {
    cfg.recovery ==> forall i :: 0 <= i < |s.nodes| ==> DiskInv(s.nodes[i])
  }

  ghost predicate RoundsInv(cfg: Config, s: Inst) {
    if cfg.crashes then Once(s) else Growing(s)
  }

  ghost predicate Inv(cfg: Config, s: Inst) {
    |s.nodes| == cfg.n && Core(s) && OneValue(s) && Disks(cfg, s) && RoundsInv(cfg, s)
  }

  lemma InitInv(cfg: Config, k: nat)
    requires cfg.n > 0
    ensures Inv(cfg, Init(cfg.n, k))
  {
    var s := Init(cfg.n, k);
    forall i | 0 <= i < |s.nodes| ensures NodeInv(s, i) {
      OwnerInit(cfg.n, i);
    }
  }

  // ---- delivery ----

  lemma DeliverCore(cfg: Config, s: Inst, t: Inst, p: Packet)
    requires CoreAt(s) && OneValue(s) && p in s.sent && p.dst < |s.nodes|
    requires p.msg.kind.PROMISE? ==> ReplyAssertion(s.nodes[p.dst].proposer, p.msg)
    requires Moves(s, t, p.dst, Dispatch(|s.nodes|, cfg.recovery, p.dst, s.nodes[p.dst], p.msg))
    ensures CoreAt(t)
  {
    match p.msg.kind
    case PREPARE => PrepareCore(cfg.recovery, s, t, p.dst, p);
    case PROMISE => PromiseCore(s, t, p.dst, p);
    case DENIAL => DenialCore(s, t, p.dst, p);
    case ACCEPT => AcceptCore(cfg.recovery, s, t, p.dst, p);
    case ACCEPTED => AcceptedCore(s, t, p.dst, p);
    case INFORM => InformCore(cfg.recovery, s, t, p.dst, p);
    case _ => IdleCore(s, t, p.dst);
  }

  lemma IdleCore(s: Inst, t: Inst, i: nat)
    requires CoreAt(s) && i < |s.nodes| && Moves(s, t, i, Quiet(s.nodes[i]))
    ensures CoreAt(t)
  {
    assert NodeInv(s, i);
    AcceptorKept(s, t, i, Quiet(s.nodes[i]));
    ProposerStable(s, t, i, i);
    LearnerStable(s, t, i, i);
    CoreFromParts(s, t, i, Quiet(s.nodes[i]));
  }

  lemma DeliverGrows(cfg: Config, s: Inst, t: Inst, p: Packet)
    requires CoreAt(s) && OneValue(s) && Growing(s) && p in s.sent && p.dst < |s.nodes|
    requires Moves(s, t, p.dst, Dispatch(|s.nodes|, cfg.recovery, p.dst, s.nodes[p.dst], p.msg))
    ensures Growing(t) && OneValue(t)
  {
    if p.msg.kind.PROMISE? {
      PromiseGrows(s, t, p.dst, p);
    } else if p.msg.kind.DENIAL? {
      DenialGrows(s, t, p.dst, p);
    } else {
      assert PacketInv(s, p) && NotAhead(s, p);
      RepliesNotAhead(cfg.recovery, s, p);
      OthersGrow(s, t, p.dst, Dispatch(|s.nodes|, cfg.recovery, p.dst, s.nodes[p.dst], p.msg));
    }
  }

  lemma RepliesNotAhead(recovery: bool, s: Inst, p: Packet)
    requires p.dst < |s.nodes| && NotAhead(s, p) && !p.msg.kind.PROMISE? && !p.msg.kind.DENIAL?
    ensures var e := Dispatch(|s.nodes|, recovery, p.dst, s.nodes[p.dst], p.msg);
            && NoProposals(e) && e.node.proposer == s.nodes[p.dst].proposer
            && forall r :: r in e.out ==> NotAhead(s, r)
  {
  }

  /** Only PREPARE makes a promise and only PROMISE counts one. */
  lemma OtherKindsAreCalm(n: nat, recovery: bool, id: nat, x: Node, m: Message)
    requires !m.kind.PREPARE? && !m.kind.PROMISE?
    ensures var e := Dispatch(n, recovery, id, x, m);
            && NoPromises(e) && NoProposals(e) && Calm(x.proposer, e.node.proposer)
            && x.acceptor.prepare <= e.node.acceptor.prepare
  {
  }

  lemma DeliverOnce(cfg: Config, s: Inst, t: Inst, p: Packet)
    requires CoreAt(s) && OneValue(s) && Once(s) && p in s.sent && p.dst < |s.nodes|
    requires forall r :: r in s.flight ==> r in s.sent
    requires p.msg.kind.PROMISE? ==> ReplyAssertion(s.nodes[p.dst].proposer, p.msg)
    requires p.msg.kind.PROMISE? ==> Gone(s, p.msg.fromId, p.msg.extra)
    requires forall b: nat, v :: p.msg.kind.PROMISE? && Proposed(s, b, v) ==> SpentApart(s, b, p)
    requires Moves(s, t, p.dst, Dispatch(|s.nodes|, cfg.recovery, p.dst, s.nodes[p.dst], p.msg))
    requires t.flight == s.flight + multiset(Dispatch(|s.nodes|, cfg.recovery, p.dst, s.nodes[p.dst], p.msg).out)
    ensures Once(t) && OneValue(t)
  {
    if p.msg.kind.PREPARE? {
      PrepareOnce(cfg.recovery, s, t, p.dst, p);
    } else if p.msg.kind.PROMISE? {
      PromiseOnce(s, t, p.dst, p);
    } else {
      OtherKindsAreCalm(|s.nodes|, cfg.recovery, p.dst, s.nodes[p.dst], p.msg);
      CalmOnce(s, t, p.dst, Dispatch(|s.nodes|, cfg.recovery, p.dst, s.nodes[p.dst], p.msg));
    }
  }

  lemma DispatchDisk(n: nat, id: nat, x: Node, m: Message)
    requires DiskInv(x)
    ensures DiskInv(Dispatch(n, true, id, x, m).node)
  {
    match m.kind
    case PROMISE => ProposerKeepsDisk(n, id, x, m);
    case DENIAL => ProposerKeepsDisk(n, id, x, m);
    case PREPARE => AcceptorKeepsDisk(id, x, m);
    case ACCEPT => AcceptorKeepsDisk(id, x, m);
    case ACCEPTED => LearnerKeepsDisk(n, id, x, m);
    case INFORM => LearnerKeepsDisk(n, id, x, m);
    case _ =>
  }

  lemma ProposerKeepsDisk(n: nat, id: nat, x: Node, m: Message)
    requires DiskInv(x)
    ensures DiskInv(HandlePromise(n, id, x, m).node) && DiskInv(HandleDenial(n, id, x, m).node)
  {
  }

  lemma AcceptorKeepsDisk(id: nat, x: Node, m: Message)
    requires DiskInv(x)
    ensures DiskInv(HandlePrepare(true, id, x, m).node) && DiskInv(HandleAccept(true, id, x, m).node)
  {
  }

  lemma LearnerKeepsDisk(n: nat, id: nat, x: Node, m: Message)
    requires DiskInv(x)
    ensures DiskInv(HandleAccepted(n, id, x, m).node) && DiskInv(HandleInform(true, x, m).node)
  {
  }

  /** Taking a packet off the network loses copies, never adds any. */
  lemma TakeKeeps(cfg: Config, s: Inst, p: Packet)
    requires Inv(cfg, s) && Sound(cfg) && p in s.flight
    ensures Core(Take(s, p)) && OneValue(Take(s, p)) && RoundsInv(cfg, Take(s, p))
  {
    var u := Take(s, p);
    CoreMoved(s, u);
    if cfg.crashes {
      TakeOnce(s, p);
    } else {
      GrowingMoved(s, u);
    }
  }

  predicate SameBut(s: Inst, u: Inst) {
    u.nodes == s.nodes && u.seqno == s.seqno && u.sent == s.sent
  }

  /** The invariant of the recorded facts does not look at the packets in flight. */
  lemma CoreMoved(s: Inst, u: Inst)
    requires CoreAt(s) && OneValue(s) && SameBut(s, u)
    ensures CoreAt(u) && OneValue(u)
  {
    forall a: nat | a < |s.nodes| ensures NodeInv(u, a) {
      assert NodeInv(s, a);
      assert Moves(s, u, a, Quiet(s.nodes[a]));
      AcceptorKept(s, u, a, Quiet(s.nodes[a]));
      ProposerStable(s, u, a, a);
      LearnerStable(s, u, a, a);
    }
    forall p | p in u.sent ensures PacketInv(u, p) {
      assert Moves(s, u, 0, Quiet(s.nodes[0]));
      QuietExtends(s, u, 0, Quiet(s.nodes[0]));
      PacketStable(s, u, 0, p);
    }
    forall b: nat, v, w | Proposed(u, b, v) && Proposed(u, b, w) ensures v == w {
      assert Proposed(s, b, v) && Proposed(s, b, w);
    }
  }

  lemma GrowingMoved(s: Inst, u: Inst)
    requires Growing(s) && SameBut(s, u)
    ensures Growing(u)
  {
    forall p | p in u.sent ensures NotAhead(u, p) {
      assert NotAhead(s, p);
    }
    forall b: nat, v | Proposed(u, b, v) ensures RoundOver(u, b) {
      assert Proposed(s, b, v) && RoundOver(s, b);
    }
  }

  lemma TakeOnce(s: Inst, p: Packet)
    requires Once(s) && p in s.flight && (forall r :: r in s.flight ==> r in s.sent)
    ensures Once(Take(s, p))
    ensures p.msg.kind.PROMISE? ==> Gone(Take(s, p), p.msg.fromId, p.msg.extra)
    ensures forall b: nat, v :: p.msg.kind.PROMISE? && Proposed(Take(s, p), b, v) ==> SpentApart(Take(s, p), b, p)
  {
    var u := Take(s, p);
    forall r | r in u.flight && r.msg.kind.PROMISE? ensures NotCounted(u, r.dst, r.msg.fromId, r.msg.extra) {
      assert NotCounted(s, r.dst, r.msg.fromId, r.msg.extra);
    }
    forall b: nat, v | Proposed(u, b, v)
      ensures Spent(u, b) && (p.msg.kind.PROMISE? ==> SpentApart(u, b, p))
    {
      assert Proposed(s, b, v);
      TakeSpent(s, p, b);
    }
  }

  lemma TakeSpent(s: Inst, p: Packet, b: nat)
    requires Spent(s, b) && p in s.flight
    ensures Spent(Take(s, p), b)
    ensures p.msg.kind.PROMISE? ==> SpentApart(Take(s, p), b, p)
  {
    var u := Take(s, p);
    var q :| SpentBy(s, q, b);
    forall a | a in q ensures PrepareAtLeast(u, a, b) && Gone(u, a, b) && Used(u, a, b) {
      assert PrepareAtLeast(s, a, b) && Gone(s, a, b) && Used(s, a, b);
      assert !SamePromise(p, a, b);
    }
    assert SpentBy(u, q, b);
  }

  // ---- one event ----

  lemma FinishFlight(s: Inst, i: nat, e: Effect)
    requires i < |s.nodes| && forall r :: r in s.flight ==> r in s.sent
    ensures var t := Finish(s, i, e);
            && (forall r :: r in t.flight ==> r in t.sent)
            && Moves(s, t, i, e) && t.flight == s.flight + multiset(e.out)
  {
  }

  lemma FinishDisks(cfg: Config, s: Inst, i: nat, e: Effect)
    requires i < |s.nodes| && Disks(cfg, s) && (cfg.recovery ==> DiskInv(e.node))
    ensures Disks(cfg, Finish(s, i, e))
  {
  }

  lemma DeliverInv(cfg: Config, s: Inst, p: Packet)
    requires Inv(cfg, s) && Sound(cfg) && Enabled(cfg, s, Deliver(p))
    ensures Inv(cfg, Apply(cfg, s, Deliver(p)))
  {
    var u, t := Take(s, p), Apply(cfg, s, Deliver(p));
    var e := Dispatch(|s.nodes|, cfg.recovery, p.dst, s.nodes[p.dst], p.msg);
    TakeKeeps(cfg, s, p);
    FinishFlight(u, p.dst, e);
    if cfg.recovery {
      DispatchDisk(|s.nodes|, p.dst, s.nodes[p.dst], p.msg);
    }
    FinishDisks(cfg, u, p.dst, e);
    DeliverAsserted(cfg, s, p);
    DeliverCore(cfg, u, t, p);
    if cfg.crashes {
      TakeOnce(s, p);
      DeliverOnce(cfg, u, t, p);
    } else {
      DeliverGrows(cfg, u, t, p);
    }
  }

  /** A sound deployment never handles a reply its assertion would reject. */
  lemma DeliverAsserted(cfg: Config, s: Inst, p: Packet)
    requires Inv(cfg, s) && Sound(cfg) && Enabled(cfg, s, Deliver(p))
    ensures p.msg.kind.PROMISE? || p.msg.kind.DENIAL? ==> ReplyAssertion(s.nodes[p.dst].proposer, p.msg)
  {
    if !cfg.crashes {
      assert NotAhead(s, p);
    }
  }

  lemma SubmitInv(cfg: Config, s: Inst, i: nat, node: Node, m: Message)
    requires Inv(cfg, s) && i < |s.nodes| && m.sequence == s.seqno
    requires node == s.nodes[i] || node == s.nodes[i].(timer := None)
    ensures Inv(cfg, Finish(s, i, Submit(|s.nodes|, i, node, m)))
  {
    var e := Submit(|s.nodes|, i, node, m);
    var t := Finish(s, i, e);
    FinishFlight(s, i, e);
    FinishDisks(cfg, s, i, e);
    assert NodeInv(s, i);
    ProposerMoved(s, s.(nodes := s.nodes[i := node]), i);
    SubmitCore(s, t, i, node, m);
    if cfg.crashes {
      CalmOnce(s, t, i, e);
    } else {
      SubmitGrows(s, t, i, node, m);
    }
  }

  lemma SubmittedMoved(cfg: Config, s: Inst, v: ProposalValue)
    requires Inv(cfg, s)
    ensures Inv(cfg, s.(submitted := s.submitted + {v}))
  {
    var u := s.(submitted := s.submitted + {v});
    CoreMoved(s, u);
    if cfg.crashes {
      OnceMoved(s, u);
    } else {
      GrowingMoved(s, u);
    }
  }

  lemma OnceMoved(s: Inst, u: Inst)
    requires Once(s) && SameBut(s, u) && u.flight == s.flight
    ensures Once(u)
  {
    forall r | r in u.flight && r.msg.kind.PROMISE? ensures NotCounted(u, r.dst, r.msg.fromId, r.msg.extra) {
      assert NotCounted(s, r.dst, r.msg.fromId, r.msg.extra);
    }
    forall b: nat, v | Proposed(u, b, v) ensures Spent(u, b) {
      assert Proposed(s, b, v);
      SpentKept(s, u, b);
    }
  }

  lemma DuplicateInv(cfg: Config, s: Inst, p: Packet)
    requires Inv(cfg, s) && Sound(cfg) && Enabled(cfg, s, Duplicate(p))
    ensures Inv(cfg, Apply(cfg, s, Duplicate(p)))
  {
    var u := Apply(cfg, s, Duplicate(p));
    CoreMoved(s, u);
    GrowingMoved(s, u);
  }

  /** With the logs on, a crash and restart leaves everything agreement rests on unchanged. */
  lemma CrashInv(cfg: Config, s: Inst, i: nat)
    requires Inv(cfg, s) && Sound(cfg) && Enabled(cfg, s, Crash(i))
    ensures Inv(cfg, Apply(cfg, s, Crash(i)))
  {
    var e := Quiet(Restart(|s.nodes|, i, s.nodes[i]));
    var t := Apply(cfg, s, Crash(i));
    assert t == Finish(s, i, e) by {
      assert s.sent + SetOf([]) == s.sent;
      assert s.flight + multiset([]) == s.flight;
    }
    FinishFlight(s, i, e);
    FinishDisks(cfg, s, i, e);
    RestartCore(s, t, i);
    CalmOnce(s, t, i, e);
  }

  lemma StepInv(cfg: Config, s: Inst, e: Event)
    requires Inv(cfg, s) && Sound(cfg) && Enabled(cfg, s, e)
    ensures Inv(cfg, Apply(cfg, s, e))
  {
    match e
    case Submission(i, m) =>
      SubmittedMoved(cfg, s, m.value);
      SubmitInv(cfg, s.(submitted := s.submitted + {m.value}), i, s.nodes[i], m);
    case Timer(i) =>
      assert NodeInv(s, i);
      SubmitInv(cfg, s, i, s.nodes[i].(timer := None), s.nodes[i].timer.value.(kind := SUBMIT));
    case Deliver(p) => DeliverInv(cfg, s, p);
    case Drop(p) => TakeKeeps(cfg, s, p);
    case Duplicate(p) => DuplicateInv(cfg, s, p);
    case Crash(i) => CrashInv(cfg, s, i);
  }

  /** The event that leads to state k of a run. */
  lemma EventAt(cfg: Config, run: seq<Inst>, k: nat) returns (e: Event)
    requires IsRun(cfg, run) && 0 < k < |run|
    ensures Enabled(cfg, run[k - 1], e) && run[k] == Apply(cfg, run[k - 1], e)
  {
    assert Next(cfg, run[k - 1], run[k - 1 + 1]);
    e :| Enabled(cfg, run[k - 1], e) && run[k] == Apply(cfg, run[k - 1], e);
  }

  /** Every state of every run satisfies the invariant. */
  lemma {:induction false} RunInv(cfg: Config, run: seq<Inst>, k: nat)
    requires IsRun(cfg, run) && Sound(cfg) && k < |run|
    ensures Inv(cfg, run[k])
  {
    if k == 0 {
      var j: nat :| run[0] == Init(cfg.n, j);
      InitInv(cfg, j);
    } else {
      RunInv(cfg, run, k - 1);
      var e := EventAt(cfg, run, k);
      StepInv(cfg, run[k - 1], e);
    }
  }
}
