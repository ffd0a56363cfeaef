/** What each event sends, and what each reply answers: every reply goes back to the server that
    asked and repeats what it asked, and every INFORM names the server that is to answer the client.
    All of it holds in every run of every deployment. */
module Replies {
  import opened Wire
  import opened Roles
  import opened Consensus
  import Safety

  /** The packets that event e sends. */
  function Out(cfg: Config, s: Inst, e: Event): seq<Packet>
    requires Enabled(cfg, s, e)
  {
    match e
    case Submission(i, m) => Submit(|s.nodes|, i, s.nodes[i], m).out
    case Timer(i) => Timeout(|s.nodes|, i, s.nodes[i]).out
    case Deliver(p) => Dispatch(|s.nodes|, cfg.recovery, p.dst, s.nodes[p.dst], p.msg).out
    case _ => []
  }

  /** t is s after these packets were sent. */
  predicate Sends(s: Inst, t: Inst, out: seq<Packet>) {
    && t.sent == s.sent + SetOf(out)
    && (forall p :: p in t.flight ==> p in s.flight || p in out)
    && |t.nodes| == |s.nodes| && t.seqno == s.seqno
  }

  lemma FinishSends(s: Inst, i: nat, e: Effect)
    requires i < |s.nodes|
    ensures Sends(s, Finish(s, i, e), e.out)
  {
  }

  lemma SentIsOut(cfg: Config, s: Inst, e: Event)
    requires Enabled(cfg, s, e)
    ensures Sends(s, Apply(cfg, s, e), Out(cfg, s, e))
  {
    var n := |s.nodes|;
    match e
    case Submission(i, m) => FinishSends(s.(submitted := s.submitted + {m.value}), i, Submit(n, i, s.nodes[i], m));
    case Timer(i) => FinishSends(s, i, Timeout(n, i, s.nodes[i]));
    case Deliver(p) => FinishSends(Take(s, p), p.dst, Dispatch(n, cfg.recovery, p.dst, s.nodes[p.dst], p.msg));
    case _ =>
  }

  ghost predicate OnlyFromSent(s: Inst) {
    |s.nodes| > 0 && forall p :: p in s.flight ==> p in s.sent
  }

  // ---- who is named ----

  predicate IsRequest(m: Message) {
    m.kind.PREPARE? || m.kind.ACCEPT?
  }

  /** Requests carry their sender's id, and an INFORM the id of the server it names. */
  predicate Signed(n: nat, m: Message) {
    (IsRequest(m) ==> m.fromId < n) && (m.kind.INFORM? ==> m.fromId == m.extra < n)
  }

  ghost predicate AllSigned(s: Inst) {
    OnlyFromSent(s) && forall p :: p in s.sent ==> Signed(|s.nodes|, p.msg)
  }

  lemma SubmitIsSigned(n: nat, id: nat, x: Node, m: Message)
    requires id < n
    ensures forall r :: r in Submit(n, id, x, m).out ==> Signed(n, r.msg)
  {
  }

  lemma DenialIsSigned(n: nat, id: nat, x: Node, m: Message)
    requires id < n
    ensures forall r :: r in HandleDenial(n, id, x, m).out ==> Signed(n, r.msg)
  {
    var (p, resubmit) := OnDenial(n, x.proposer, m);
    if resubmit.Some? {
      SubmitIsSigned(n, id, x.(proposer := p, timer := None), resubmit.value);
    }
  }

  lemma DispatchIsSigned(n: nat, recovery: bool, id: nat, x: Node, m: Message)
    requires id < n && Signed(n, m)
    ensures forall r :: r in Dispatch(n, recovery, id, x, m).out ==> Signed(n, r.msg)
  {
    if m.kind.DENIAL? {
      DenialIsSigned(n, id, x, m);
    }
  }

  lemma OutIsSigned(cfg: Config, s: Inst, e: Event)
    requires Enabled(cfg, s, e) && AllSigned(s)
    ensures forall r :: r in Out(cfg, s, e) ==> Signed(|s.nodes|, r.msg)
  {
    match e
    case Submission(i, m) => SubmitIsSigned(|s.nodes|, i, s.nodes[i], m);
    case Timer(i) => SubmitIsSigned(|s.nodes|, i, s.nodes[i].(timer := None), s.nodes[i].timer.value.(kind := SUBMIT));
    case Deliver(p) => DispatchIsSigned(|s.nodes|, cfg.recovery, p.dst, s.nodes[p.dst], p.msg);
    case _ =>
  }

  lemma EventKeepsSigned(cfg: Config, s: Inst, e: Event)
    requires Enabled(cfg, s, e) && AllSigned(s)
    ensures AllSigned(Apply(cfg, s, e))
  {
    SentIsOut(cfg, s, e);
    OutIsSigned(cfg, s, e);
  }

  /** In every run, every request ever sent carries a server's id and every INFORM names a server. */
  lemma {:induction false} RunIsSigned(cfg: Config, run: seq<Inst>, k: nat)
    requires IsRun(cfg, run) && k < |run|
    ensures AllSigned(run[k]) && |run[k].nodes| == cfg.n
  {
    if k == 0 {
    } else {
      RunIsSigned(cfg, run, k - 1);
      var e := Safety.EventAt(cfg, run, k);
      SentIsOut(cfg, run[k - 1], e);
      EventKeepsSigned(cfg, run[k - 1], e);
    }
  }

  /** Whom an INFORM names, and whom it goes to. Sent on a request, it goes to the asker and names
      the asker; otherwise it is sent on a vote, and names the server that counted it. Either way
      it tells what that server holds. */
  lemma InformsName(cfg: Config, run: seq<Inst>, k: nat, e: Event, r: Packet)
    requires IsRun(cfg, run) && k < |run| && Enabled(cfg, run[k], e)
    requires r in Out(cfg, run[k], e) && r.msg.kind.INFORM?
    ensures |run[k].nodes| == cfg.n && r.msg.extra < cfg.n && e.Deliver?
    ensures var l := Apply(cfg, run[k], e).nodes[e.p.dst].learner;
            l.number == r.msg.number && l.value == r.msg.value && Decided(l)
    ensures IsRequest(e.p.msg) ==>
              run[k].nodes[e.p.dst].learner.informed && r.dst == r.msg.extra == e.p.msg.fromId
    ensures !IsRequest(e.p.msg) ==>
              e.p.msg.kind.ACCEPTED? && !Decided(run[k].nodes[e.p.dst].learner) && r.msg.extra == e.p.dst
  {
    RunIsSigned(cfg, run, k);
    OutIsSigned(cfg, run[k], e);
    match e
    case Submission(i, m) => NoInform(|run[k].nodes|, i, run[k].nodes[i], m);
    case Timer(i) =>
      var x := run[k].nodes[i];
      NoInform(|run[k].nodes|, i, x.(timer := None), x.timer.value.(kind := SUBMIT));
    case Deliver(p) => DeliveryInforms(|run[k].nodes|, cfg.recovery, p.dst, run[k].nodes[p.dst], p.msg, r);
    case _ =>
  }

  lemma NoInform(n: nat, id: nat, x: Node, m: Message)
    ensures forall r :: r in Submit(n, id, x, m).out ==> !r.msg.kind.INFORM?
  {
  }

  lemma DeliveryInforms(n: nat, recovery: bool, id: nat, x: Node, m: Message, r: Packet)
    requires r in Dispatch(n, recovery, id, x, m).out && r.msg.kind.INFORM?
    ensures var l := Dispatch(n, recovery, id, x, m).node.learner;
            l.number == r.msg.number && l.value == r.msg.value && Decided(l)
    ensures IsRequest(m) ==> x.learner.informed && r.dst == r.msg.extra == m.fromId
    ensures !IsRequest(m) ==> m.kind.ACCEPTED? && !Decided(x.learner) && r.msg.extra == id
  {
    if m.kind.DENIAL? {
      var (p, resubmit) := OnDenial(n, x.proposer, m);
      if resubmit.Some? {
        NoInform(n, id, x.(proposer := p, timer := None), resubmit.value);
      }
    }
  }

  /** An informed server answers every request, and with nothing but the decision. */
  lemma InformedAnswers(cfg: Config, s: Inst, p: Packet)
    requires Enabled(cfg, s, Deliver(p)) && IsRequest(p.msg) && s.nodes[p.dst].learner.informed
    ensures var l := s.nodes[p.dst].learner;
            Out(cfg, s, Deliver(p))
            == [Packet(p.msg.fromId, Message(INFORM, p.msg.sequence, p.msg.fromId, l.number, l.value, p.msg.fromId))]
  {
  }

  // ---- what a reply repeats ----

  predicate IsReply(m: Message) {
    m.kind.PROMISE? || m.kind.DENIAL? || m.kind.ACCEPTED? || m.kind.REJECTED?
  }

  /** Reply p goes back to the sender of request q, from the server q went to, and repeats q's number
      as the one it answers. A vote and both refusals also repeat the value; a denial reports a
      promise at least as high as the number denied, a rejection a higher one. */
  predicate Echoes(p: Packet, q: Packet) {
    && p.dst == q.msg.fromId && p.msg.fromId == q.dst
    && p.msg.sequence == q.msg.sequence && p.msg.extra == q.msg.number
    && (p.msg.kind.PROMISE? ==> q.msg.kind.PREPARE?)
    && (p.msg.kind.DENIAL? ==> q.msg.kind.PREPARE? && p.msg.value == q.msg.value && p.msg.number >= q.msg.number)
    && (p.msg.kind.ACCEPTED? ==> q.msg.kind.ACCEPT? && p.msg.value == q.msg.value && p.msg.number == q.msg.number)
    && (p.msg.kind.REJECTED? ==> q.msg.kind.ACCEPT? && p.msg.value == q.msg.value && p.msg.number > q.msg.number)
  }

  ghost predicate HasRequest(s: Inst, p: Packet) {
    exists q :: q in s.sent && Echoes(p, q)
  }

  ghost predicate AllEcho(s: Inst) {
    OnlyFromSent(s) && forall p :: p in s.sent && IsReply(p.msg) ==> HasRequest(s, p)
  }

  lemma SubmitSendsNoReply(n: nat, id: nat, x: Node, m: Message)
    ensures forall r :: r in Submit(n, id, x, m).out ==> !IsReply(r.msg)
  {
  }

  lemma DispatchEchoes(n: nat, recovery: bool, id: nat, x: Node, m: Message)
    ensures forall r :: r in Dispatch(n, recovery, id, x, m).out && IsReply(r.msg) ==> Echoes(r, Packet(id, m))
  {
    if m.kind.DENIAL? {
      var (p, resubmit) := OnDenial(n, x.proposer, m);
      if resubmit.Some? {
        SubmitSendsNoReply(n, id, x.(proposer := p, timer := None), resubmit.value);
      }
    }
  }

  lemma OutEchoes(cfg: Config, s: Inst, e: Event)
    requires Enabled(cfg, s, e) && AllEcho(s)
    ensures forall r :: r in Out(cfg, s, e) && IsReply(r.msg) ==> HasRequest(s, r)
  {
    match e
    case Submission(i, m) => SubmitSendsNoReply(|s.nodes|, i, s.nodes[i], m);
    case Timer(i) =>
      SubmitSendsNoReply(|s.nodes|, i, s.nodes[i].(timer := None), s.nodes[i].timer.value.(kind := SUBMIT));
    case Deliver(p) =>
      DispatchEchoes(|s.nodes|, cfg.recovery, p.dst, s.nodes[p.dst], p.msg);
      assert p in s.sent && p == Packet(p.dst, p.msg);
    case _ =>
  }

  lemma EventKeepsEchoes(cfg: Config, s: Inst, e: Event)
    requires Enabled(cfg, s, e) && AllEcho(s)
    ensures AllEcho(Apply(cfg, s, e))
  {
    SentIsOut(cfg, s, e);
    OutEchoes(cfg, s, e);
    var t := Apply(cfg, s, e);
    forall p | p in t.sent && IsReply(p.msg) ensures HasRequest(t, p) {
      assert HasRequest(s, p);
      var q :| q in s.sent && Echoes(p, q);
      assert q in t.sent;
    }
  }

  /** In every run, every reply ever sent repeats a request sent before. */
  lemma {:induction false} RepliesEcho(cfg: Config, run: seq<Inst>, k: nat)
    requires IsRun(cfg, run) && k < |run|
    ensures AllEcho(run[k])
  {
    if k == 0 {
    } else {
      RepliesEcho(cfg, run, k - 1);
      StepKeepsEchoes(cfg, run, k);
    }
  }

  lemma StepKeepsEchoes(cfg: Config, run: seq<Inst>, k: nat)
    requires IsRun(cfg, run) && 0 < k < |run| && AllEcho(run[k - 1])
    ensures AllEcho(run[k])
  {
    var e := Safety.EventAt(cfg, run, k);
    EventKeepsEchoes(cfg, run[k - 1], e);
  }
}
