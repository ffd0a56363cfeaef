/** An instance's messages all carry its own sequence number. */
module Sequences {
  import opened Wire
  import opened Roles
  import opened Consensus

  predicate InSequence(t: Inst) {
    && (forall p :: p in t.flight ==> p.msg.sequence == t.seqno)
    && forall i :: 0 <= i < |t.nodes| && t.nodes[i].timer.Some? ==> t.nodes[i].timer.value.sequence == t.seqno
  }

  /** Whatever a handler sends, arms or hands on carries the sequence of what it received. */
  predicate Carries(e: Effect, k: nat) {
    && (e.node.timer.Some? ==> e.node.timer.value.sequence == k)
    && (forall p :: p in e.out ==> p.msg.sequence == k)
    && (e.command.Some? ==> e.command.value.sequence == k)
  }

  lemma ProposerCarries(n: nat, id: nat, x: Node, m: Message)
    requires x.timer.Some? ==> x.timer.value.sequence == m.sequence
    ensures Carries(HandlePromise(n, id, x, m), m.sequence) && Carries(HandleDenial(n, id, x, m), m.sequence)
  {
  }

  lemma AcceptorCarries(recovery: bool, id: nat, x: Node, m: Message)
    requires x.timer.Some? ==> x.timer.value.sequence == m.sequence
    ensures Carries(HandlePrepare(recovery, id, x, m), m.sequence)
    ensures Carries(HandleAccept(recovery, id, x, m), m.sequence)
  {
  }

  lemma LearnerCarries(n: nat, recovery: bool, id: nat, x: Node, m: Message)
    requires x.timer.Some? ==> x.timer.value.sequence == m.sequence
    ensures Carries(HandleAccepted(n, id, x, m), m.sequence) && Carries(HandleInform(recovery, x, m), m.sequence)
  {
  }

  lemma DispatchCarries(n: nat, recovery: bool, id: nat, x: Node, m: Message)
    requires x.timer.Some? ==> x.timer.value.sequence == m.sequence
    ensures Carries(Dispatch(n, recovery, id, x, m), m.sequence)
  {
    ProposerCarries(n, id, x, m);
    AcceptorCarries(recovery, id, x, m);
    LearnerCarries(n, recovery, id, x, m);
  }

  lemma SubmitCarries(n: nat, id: nat, x: Node, m: Message)
    requires x.timer.Some? ==> x.timer.value.sequence == m.sequence
    ensures Carries(Submit(n, id, x, m), m.sequence)
  {
  }

  lemma FinishCarries(t: Inst, i: nat, e: Effect)
    requires InSequence(t) && i < |t.nodes| && Carries(e, t.seqno)
    ensures InSequence(Finish(t, i, e))
  {
  }

  lemma EventInSequence(cfg: Config, t: Inst, e: Event)
    requires InSequence(t) && Enabled(cfg, t, e)
    ensures InSequence(Apply(cfg, t, e)) && Apply(cfg, t, e).seqno == t.seqno
  {
    var n := |t.nodes|;
    match e
    case Submission(i, m) =>
      SubmitCarries(n, i, t.nodes[i], m);
      FinishCarries(t.(submitted := t.submitted + {m.value}), i, Submit(n, i, t.nodes[i], m));
    case Timer(i) =>
      SubmitCarries(n, i, t.nodes[i].(timer := None), t.nodes[i].timer.value.(kind := SUBMIT));
      FinishCarries(t, i, Timeout(n, i, t.nodes[i]));
    case Deliver(p) =>
      DispatchCarries(n, cfg.recovery, p.dst, t.nodes[p.dst], p.msg);
      FinishCarries(Take(t, p), p.dst, Dispatch(n, cfg.recovery, p.dst, t.nodes[p.dst], p.msg));
    case _ =>
  }
}
