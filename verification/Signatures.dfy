/** Every INFORM in every history names a server of the deployment, and what a server executes or
    keeps waiting its learner has heard: in every deployment, forgetful ones included. */
module Signatures {
  import opened Wire
  import opened Consensus
  import opened Executor
  import opened Cluster
  import opened Records
  import opened Sequences
  import opened Projection
  import opened Replies
  import opened Answering

  // ---- every instance of every history is signed ----

  ghost predicate SignedInst(o: Options, t: Inst, s: nat) {
    s > 0 && t.seqno == s && |t.nodes| == o.cfg.n && InSequence(t) && AllSigned(t)
  }

  ghost predicate SignedSystem(o: Options, c: System) {
    o.cfg.n > 0 && |c.servers| == o.cfg.n && forall s :: s in c.insts ==> SignedInst(o, c.insts[s], s)
  }

  lemma AtIsSigned(o: Options, c: System, s: nat)
    requires SignedSystem(o, c) && s > 0
    ensures SignedInst(o, At(o, c, s), s)
  {
  }

  lemma EventSigned(o: Options, t: Inst, s: nat, e: Event)
    requires SignedInst(o, t, s) && Enabled(o.cfg, t, e)
    ensures SignedInst(o, Apply(o.cfg, t, e), s)
  {
    EventInSequence(o.cfg, t, e);
    EventKeepsSigned(o.cfg, t, e);
    SentIsOut(o.cfg, t, e);
  }

  /** One instance takes an event. */
  lemma OneEventSigned(o: Options, c: System, d: System, s: nat, e: Event)
    requires SignedSystem(o, c) && s > 0 && Enabled(o.cfg, At(o, c, s), e)
    requires |d.servers| == |c.servers| && d.insts == c.insts[s := Apply(o.cfg, At(o, c, s), e)]
    ensures SignedSystem(o, d)
  {
    AtIsSigned(o, c, s);
    EventSigned(o, At(o, c, s), s, e);
  }

  lemma SubmitSigned(o: Options, c: System, x: System, i: nat, m: Message)
    requires SignedSystem(o, c) && x.insts == c.insts && |x.servers| == |c.servers|
    requires i < |x.servers| && SubmitOpen(o, x, i)
    ensures SignedSystem(o, SubmitAt(o, x, i, m))
  {
    var s := NextSlot(x, i);
    assert At(o, x, s) == At(o, c, s);
    OneEventSigned(o, c, SubmitAt(o, x, i, m), s, Submission(i, ToSlot(m, s)));
  }

  lemma RebootSigned(o: Options, c: System, i: nat)
    requires SignedSystem(o, c) && CanDo(o, c, Reboot(i))
    ensures SignedSystem(o, Do(o, c, Reboot(i))) && Rebooted(o, c, Do(o, c, Reboot(i)), i)
  {
    forall s | s in c.insts ensures i < |c.insts[s].nodes| {
      assert SignedInst(o, c.insts[s], s);
    }
    RebootShape(o, c, i);
    var d := Do(o, c, Reboot(i));
    forall s | s in d.insts ensures SignedInst(o, d.insts[s], s) {
      assert Restarted(o, c.insts[s], d.insts[s], i);
      EventSigned(o, c.insts[s], s, Crash(i));
    }
  }

  lemma ActionSigned(o: Options, c: System, a: Action)
    requires SignedSystem(o, c) && CanDo(o, c, a)
    ensures SignedSystem(o, Do(o, c, a))
  {
    match a
    case Client(i, from, m) =>
      ClientShape(o, c, i, from, m);
      SubmitSigned(o, c, c.(clients := c.clients + {Stamp(from, m).value}), i, Stamp(from, m));
    case Resubmit(i, m) =>
      var v := c.servers[i];
      ResubmitShape(o, c, i, m);
      SubmitSigned(o, c, SetServer(c, i, v.(resubmits := v.resubmits - multiset{m},
                                            expected := v.expected - {m.sequence})), i, m);
    case Reboot(i) => RebootSigned(o, c, i);
    case Expire(i, s) => OneEventSigned(o, c, Do(o, c, a), s, Timer(i));
    case Receive(s, p) => OneEventSigned(o, c, Do(o, c, a), s, Deliver(p));
    case Lose(s, p) => OneEventSigned(o, c, Do(o, c, a), s, Drop(p));
    case Copy(s, p) => OneEventSigned(o, c, Do(o, c, a), s, Duplicate(p));
  }

  /** In every history every request in flight carries a server's id, and every INFORM names one. */
  lemma {:induction false} HistoryIsSigned(o: Options, h: seq<System>, acts: seq<Action>, k: nat)
    requires Traced(o, h, acts) && k < |h|
    ensures SignedSystem(o, h[k])
  {
    if k == 0 {
    } else {
      HistoryIsSigned(o, h, acts, k - 1);
      assert TracedAt(o, h, acts, k - 1);
      ActionSigned(o, h[k - 1], acts[k - 1]);
    }
  }

  // ---- what a server executes or keeps waiting, its learner has heard ----

  /** Server i's learner has heard of some decision for position s. */
  predicate Knows(o: Options, c: System, i: nat, s: nat, v: ProposalValue) {
    InformedAt(At(o, c, s), i)
  }

  ghost predicate Attends(o: Options, c: System, i: nat) {
    i < |c.servers| && Vouched((s: nat, v: ProposalValue) => Knows(o, c, i, s, v), c.servers[i].engine)
  }

  lemma EventStaysInformed(cfg: Config, t: Inst, e: Event, i: nat)
    requires e != Crash(i) && Enabled(cfg, t, e) && InformedAt(t, i)
    ensures InformedAt(Apply(cfg, t, e), i)
  {
    match e
    case Deliver(p) => DispatchIsFaithful(|t.nodes|, cfg.recovery, p.dst, t.nodes[p.dst], p.msg);
    case _ =>
  }

  /** Nothing but its own crash makes a learner forget. */
  lemma StaysInformed(o: Options, c: System, d: System, i: nat, s: nat)
    requires InstMoves(o.cfg, At(o, c, s), At(o, d, s), i) && InformedAt(At(o, c, s), i)
    ensures InformedAt(At(o, d, s), i)
  {
    var t, u := At(o, c, s), At(o, d, s);
    if u != t {
      var e :| e != Crash(i) && Enabled(o.cfg, t, e) && u == Apply(o.cfg, t, e);
      EventStaysInformed(o.cfg, t, e, i);
    }
  }

  lemma AttendsKept(o: Options, c: System, d: System, i: nat, e: Engine)
    requires forall s: nat :: InformedAt(At(o, c, s), i) ==> InformedAt(At(o, d, s), i)
    requires Vouched((s: nat, v: ProposalValue) => Knows(o, c, i, s, v), e)
    ensures Vouched((s: nat, v: ProposalValue) => Knows(o, d, i, s, v), e)
  {
    forall k | 0 <= k < |e.applied| ensures Knows(o, d, i, k + 1, e.applied[k]) {
      assert Knows(o, c, i, k + 1, e.applied[k]);
    }
    forall s | s in e.waiting ensures Knows(o, d, i, s, e.waiting[s].value) {
      assert Knows(o, c, i, s, e.waiting[s].value);
    }
  }

  lemma CommandIsHeard(o: Options, c: System, a: Action, i: nat)
    requires SignedSystem(o, c) && CanDo(o, c, a) && Handed(o, c, a, i).Some?
    ensures var s := Handed(o, c, a, i).value.sequence; s > 0 && InformedAt(At(o, Do(o, c, a), s), i)
  {
    match a
    case Receive(s, p) =>
      var t := c.insts[s];
      assert SignedInst(o, t, s);
      DispatchIsFaithful(|t.nodes|, o.cfg.recovery, p.dst, t.nodes[p.dst], p.msg);
    case _ =>
  }

  lemma SignedIsSized(o: Options, c: System)
    requires SignedSystem(o, c)
    ensures Sized(c)
  {
    forall s | s in c.insts ensures |c.insts[s].nodes| == |c.servers| {
      assert SignedInst(o, c.insts[s], s);
    }
  }

  lemma ActionAttends(o: Options, c: System, a: Action, i: nat)
    requires SignedSystem(o, c) && CanDo(o, c, a) && a != Reboot(i)
    requires Attends(o, c, i) && Follows(o.amo, c.servers[i].engine)
    ensures Attends(o, Do(o, c, a), i)
  {
    var d := Do(o, c, a);
    EngineMoves(o, c, a, i);
    SignedIsSized(o, c);
    forall s: nat | InformedAt(At(o, c, s), i) ensures InformedAt(At(o, d, s), i) {
      ActionMoves(o, c, a, i, s);
      StaysInformed(o, c, d, i, s);
    }
    AttendsKept(o, c, d, i, c.servers[i].engine);
    if Handed(o, c, a, i).Some? {
      CommandIsHeard(o, c, a, i);
      TryExecuteVouched(o.amo, (s: nat, v: ProposalValue) => Knows(o, d, i, s, v), c.servers[i].engine,
                        Handed(o, c, a, i).value);
    }
  }

  lemma PlainAttends(o: Options, c: System, i: nat)
    requires Plain(o, c) && i < |c.servers|
    ensures Attends(o, c, i)
  {
    assert PlainServer(o, c, i);
    var e := c.servers[i].engine;
    forall k | 0 <= k < |e.applied| ensures Knows(o, c, i, k + 1, e.applied[k]) {
      assert Heard(o, c, i, k + 1, e.applied[k]);
    }
    forall s | s in e.waiting ensures Knows(o, c, i, s, e.waiting[s].value) {
      assert Heard(o, c, i, s, e.waiting[s].value);
    }
  }

  lemma ForgetfulAttends(o: Options, c: System, i: nat)
    requires !o.cfg.recovery && CanDo(o, c, Reboot(i))
    ensures Attends(o, Do(o, c, Reboot(i)), i)
  {
  }

  lemma TracedIsHistory(o: Options, h: seq<System>, acts: seq<Action>)
    requires Traced(o, h, acts)
    ensures IsHistory(o, h)
  {
    forall k: nat | k < |h| - 1 ensures StepAt(o, h, k) {
      assert TracedAt(o, h, acts, k);
    }
  }

  /** In every history, a server has executed and keeps waiting only what its learner has heard. */
  lemma {:induction false} AlwaysAttends(o: Options, h: seq<System>, acts: seq<Action>, i: nat, k: nat)
    requires Traced(o, h, acts) && k < |h| && i < o.cfg.n
    ensures Attends(o, h[k], i)
  {
    if Logs(o.cfg) {
      TracedIsHistory(o, h, acts);
      HistoryIsPlain(o, h, k);
      PlainAttends(o, h[k], i);
    } else if k > 0 {
      AlwaysAttends(o, h, acts, i, k - 1);
      HistoryIsSigned(o, h, acts, k - 1);
      AlwaysGoodTeller(o, h, acts, i, k - 1);
      assert TracedAt(o, h, acts, k - 1);
      if acts[k - 1] == Reboot(i) {
        ForgetfulAttends(o, h[k - 1], i);
      } else {
        ActionAttends(o, h[k - 1], acts[k - 1], i);
      }
    }
  }

  lemma HeldIsKnown(o: Options, c: System, i: nat, s: nat)
    requires Attends(o, c, i) && Follows(o.amo, c.servers[i].engine) && s > 0
    ensures s <= c.servers[i].engine.executed || s in c.servers[i].engine.waiting ==> InformedAt(At(o, c, s), i)
  {
    var e := c.servers[i].engine;
    if s <= e.executed {
      assert Knows(o, c, i, s - 1 + 1, e.applied[s - 1]);
    } else if s in e.waiting {
      assert Knows(o, c, i, s, e.waiting[s].value);
    }
  }
}
