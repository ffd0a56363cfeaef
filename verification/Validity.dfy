/** Validity: servers only ever propose, accept and learn values that some client submitted.
    The default value of an acceptor that has accepted nothing is never adopted. */
module Validity {
  import opened Wire
  import opened Roles
  import opened Consensus
  import opened Safety

  predicate ValidMessage(n: nat, values: set<ProposalValue>, m: Message) {
    match m.kind
    case PREPARE => m.number >= 2 * n && m.value in values
    case PROMISE => m.extra >= 2 * n && (m.number > 0 ==> m.value in values)
    case ACCEPT => m.number > 0 && m.value in values
    case ACCEPTED => m.number > 0 && m.value in values
    case _ => m.value in values
  }

  predicate ValidNode(n: nat, values: set<ProposalValue>, x: Node) {
    && n <= x.proposer.current
    && (2 * n <= x.proposer.current ==> x.proposer.highestValue in values)
    && (x.timer.Some? ==> x.timer.value.value in values)
    && (x.acceptor.number > 0 ==> x.acceptor.value in values)
    && (x.learner.number > 0 || Decided(x.learner) ==> x.learner.value in values)
    && (x.acceptorSlot.Some? && x.acceptorSlot.value.number > 0 ==> x.acceptorSlot.value.value in values)
    && (x.learnerSlot.Some? ==> x.learnerSlot.value.value in values)
  }

  ghost predicate ValidState(s: Inst) {
    && (forall p :: p in s.flight ==> p in s.sent)
    && (forall p :: p in s.sent ==> ValidMessage(|s.nodes|, s.submitted, p.msg))
    && forall i :: 0 <= i < |s.nodes| ==> ValidNode(|s.nodes|, s.submitted, s.nodes[i])
  }

  predicate ValidEffect(n: nat, values: set<ProposalValue>, e: Effect) {
    ValidNode(n, values, e.node) && forall p :: p in e.out ==> ValidMessage(n, values, p.msg)
  }

  /** A resubmission carries its value on, whichever path it comes by. */
  lemma SubmitIsValid(n: nat, values: set<ProposalValue>, id: nat, x: Node, m: Message)
    requires ValidNode(n, values, x) && m.value in values
    ensures ValidEffect(n, values, Submit(n, id, x, m))
  {
  }

  lemma PromiseIsValid(n: nat, values: set<ProposalValue>, id: nat, x: Node, m: Message)
    requires n > 0 && ValidNode(n, values, x) && ValidMessage(n, values, m) && m.kind.PROMISE?
    requires ReplyAssertion(x.proposer, m)
    ensures ValidEffect(n, values, HandlePromise(n, id, x, m))
  {
  }

  lemma DenialIsValid(n: nat, values: set<ProposalValue>, id: nat, x: Node, m: Message)
    requires ValidNode(n, values, x) && m.value in values
    ensures ValidEffect(n, values, HandleDenial(n, id, x, m))
  {
    var (q, resubmit) := OnDenial(n, x.proposer, m);
    if resubmit.Some? {
      SubmitIsValid(n, values, id, x.(proposer := q, timer := None), resubmit.value);
    }
  }

  lemma PrepareIsValid(n: nat, recovery: bool, values: set<ProposalValue>, id: nat, x: Node, m: Message)
    requires ValidNode(n, values, x) && ValidMessage(n, values, m) && m.kind.PREPARE?
    ensures ValidEffect(n, values, HandlePrepare(recovery, id, x, m))
  {
  }

  lemma AcceptIsValid(n: nat, recovery: bool, values: set<ProposalValue>, id: nat, x: Node, m: Message)
    requires ValidNode(n, values, x) && ValidMessage(n, values, m) && m.kind.ACCEPT?
    ensures ValidEffect(n, values, HandleAccept(recovery, id, x, m))
  {
  }

  lemma AcceptedIsValid(n: nat, values: set<ProposalValue>, id: nat, x: Node, m: Message)
    requires ValidNode(n, values, x) && ValidMessage(n, values, m) && m.kind.ACCEPTED?
    ensures ValidEffect(n, values, HandleAccepted(n, id, x, m))
  {
  }

  lemma InformIsValid(n: nat, recovery: bool, values: set<ProposalValue>, x: Node, m: Message)
    requires ValidNode(n, values, x) && ValidMessage(n, values, m) && m.kind.INFORM?
    ensures ValidEffect(n, values, HandleInform(recovery, x, m))
  {
  }

  lemma DispatchIsValid(n: nat, recovery: bool, values: set<ProposalValue>, id: nat, x: Node, m: Message)
    requires n > 0 && ValidNode(n, values, x) && ValidMessage(n, values, m)
    requires m.kind.PROMISE? ==> ReplyAssertion(x.proposer, m)
    ensures ValidEffect(n, values, Dispatch(n, recovery, id, x, m))
  {
    match m.kind
    case PREPARE => PrepareIsValid(n, recovery, values, id, x, m);
    case PROMISE => PromiseIsValid(n, values, id, x, m);
    case DENIAL => DenialIsValid(n, values, id, x, m);
    case ACCEPT => AcceptIsValid(n, recovery, values, id, x, m);
    case ACCEPTED => AcceptedIsValid(n, values, id, x, m);
    case INFORM => InformIsValid(n, recovery, values, x, m);
    case _ =>
  }

  lemma FinishIsValid(s: Inst, i: nat, e: Effect)
    requires ValidState(s) && i < |s.nodes| && ValidEffect(|s.nodes|, s.submitted, e)
    ensures ValidState(Finish(s, i, e))
  {
  }

  lemma {:induction false} SubmittedIsValid(s: Inst, v: ProposalValue)
    requires ValidState(s)
    ensures ValidState(s.(submitted := s.submitted + {v}))
  {
    var u := s.(submitted := s.submitted + {v});
    forall i | 0 <= i < |u.nodes| ensures ValidNode(|u.nodes|, u.submitted, u.nodes[i]) {
      assert ValidNode(|s.nodes|, s.submitted, s.nodes[i]);
    }
  }

  lemma SubmissionIsValid(cfg: Config, s: Inst, i: nat, m: Message)
    requires ValidState(s) && Enabled(cfg, s, Submission(i, m))
    ensures ValidState(Apply(cfg, s, Submission(i, m)))
  {
    var u := s.(submitted := s.submitted + {m.value});
    SubmittedIsValid(s, m.value);
    SubmitIsValid(|s.nodes|, u.submitted, i, u.nodes[i], m);
    FinishIsValid(u, i, Submit(|s.nodes|, i, u.nodes[i], m));
  }

  lemma TimerIsValid(cfg: Config, s: Inst, i: nat)
    requires ValidState(s) && Enabled(cfg, s, Timer(i))
    ensures ValidState(Apply(cfg, s, Timer(i)))
  {
    SubmitIsValid(|s.nodes|, s.submitted, i, s.nodes[i].(timer := None), s.nodes[i].timer.value.(kind := SUBMIT));
    FinishIsValid(s, i, Timeout(|s.nodes|, i, s.nodes[i]));
  }

  lemma DeliveryIsValid(cfg: Config, s: Inst, p: Packet)
    requires |s.nodes| > 0 && ValidState(s) && Enabled(cfg, s, Deliver(p))
    requires p.msg.kind.PROMISE? ==> ReplyAssertion(s.nodes[p.dst].proposer, p.msg)
    ensures ValidState(Apply(cfg, s, Deliver(p)))
  {
    assert ValidState(Take(s, p));
    DispatchIsValid(|s.nodes|, cfg.recovery, s.submitted, p.dst, s.nodes[p.dst], p.msg);
    FinishIsValid(Take(s, p), p.dst, Dispatch(|s.nodes|, cfg.recovery, p.dst, s.nodes[p.dst], p.msg));
  }

  lemma EventIsValid(cfg: Config, s: Inst, e: Event)
    requires |s.nodes| > 0 && ValidState(s) && Enabled(cfg, s, e)
    requires e.Deliver? && e.p.msg.kind.PROMISE? ==> ReplyAssertion(s.nodes[e.p.dst].proposer, e.p.msg)
    ensures ValidState(Apply(cfg, s, e))
  {
    match e
    case Submission(i, m) => SubmissionIsValid(cfg, s, i, m);
    case Timer(i) => TimerIsValid(cfg, s, i);
    case Deliver(p) => DeliveryIsValid(cfg, s, p);
    case _ =>
  }

  /** Validity needs the reply assertions only if servers may crash. */
  predicate Asserted(cfg: Config) {
    cfg.crashes ==> cfg.asserts
  }

  lemma HandledAsAsserted(cfg: Config, run: seq<Inst>, k: nat, e: Event)
    requires IsRun(cfg, run) && Asserted(cfg) && 0 < k < |run| && Enabled(cfg, run[k - 1], e)
    ensures e.Deliver? && e.p.msg.kind.PROMISE? ==> ReplyAssertion(run[k - 1].nodes[e.p.dst].proposer, e.p.msg)
  {
    if e.Deliver? && !cfg.crashes {
      RunInv(cfg, run, k - 1);
      DeliverAsserted(cfg, run[k - 1], e.p);
    }
  }

  lemma StepIsValid(cfg: Config, run: seq<Inst>, k: nat)
    requires IsRun(cfg, run) && Asserted(cfg) && 0 < k < |run|
    requires |run[k - 1].nodes| == cfg.n && ValidState(run[k - 1])
    ensures |run[k].nodes| == cfg.n && ValidState(run[k])
  {
    var e := EventAt(cfg, run, k);
    HandledAsAsserted(cfg, run, k, e);
    EventIsValid(cfg, run[k - 1], e);
  }

  lemma {:induction false} RunIsValid(cfg: Config, run: seq<Inst>, k: nat)
    requires IsRun(cfg, run) && Asserted(cfg) && k < |run|
    ensures |run[k].nodes| == cfg.n && ValidState(run[k])
  {
    if k == 0 {
    } else {
      RunIsValid(cfg, run, k - 1);
      StepIsValid(cfg, run, k);
    }
  }

  /** Every value that any server proposes, votes for or announces was submitted. */
  ghost predicate OnlySubmitted(s: Inst) {
    && (forall p :: p in s.sent && (p.msg.kind.ACCEPT? || p.msg.kind.ACCEPTED? || p.msg.kind.INFORM?)
          ==> p.msg.value in s.submitted)
    && (forall a: nat, b: nat, v :: Holds(s, a, b, v) ==> v in s.submitted)
    && forall i :: 0 <= i < |s.nodes| && Decided(s.nodes[i].learner) ==> s.nodes[i].learner.value in s.submitted
  }

  lemma ValidityHolds(cfg: Config, run: seq<Inst>, k: nat)
    requires IsRun(cfg, run) && Asserted(cfg) && k < |run|
    ensures OnlySubmitted(run[k])
  {
    RunIsValid(cfg, run, k);
    var s := run[k];
    forall a: nat, b: nat, v | Holds(s, a, b, v) ensures v in s.submitted {
      assert ValidNode(|s.nodes|, s.submitted, s.nodes[a]);
    }
  }
}
