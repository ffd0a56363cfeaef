/** An acceptor keeps its word, and gives it whenever it can: in every deployment whose crashing
    servers log, what it answers to a request is decided by the promises and votes it has sent. */
module Word {
  import opened Wire
  import opened Roles
  import opened Consensus
  import opened Invariant
  import opened Replies
  import Safety

  /** Message m is a's promise not to vote below b: a promise for b, or a vote for b. */
  predicate Binds(m: Message, a: nat, b: nat) {
    m.fromId == a && ((m.kind.PROMISE? && m.extra == b) || (m.kind.ACCEPTED? && m.number == b))
  }

  /** Acceptor a has sent such a message. */
  ghost predicate Bound(s: Inst, a: nat, b: nat) {
    exists p :: p in s.sent && Binds(p.msg, a, b)
  }

  /** b is the highest number that a is bound to, or 0 if there is none. */
  ghost predicate HighestBound(s: Inst, a: nat, b: nat) {
    (b > 0 ==> Bound(s, a, b)) && forall p :: p in s.sent && p.msg.fromId == a ==> NotBeyond(p.msg, b)
  }

  predicate NotBeyond(m: Message, b: nat) {
    (m.kind.PROMISE? ==> m.extra <= b) && (m.kind.ACCEPTED? ==> m.number <= b)
  }

  predicate IsVote(m: Message, a: nat, b: nat, v: ProposalValue) {
    m.kind.ACCEPTED? && m.fromId == a && m.number == b && m.value == v
  }

  /** (b, v) is the highest proposal that a has voted for, or (0, nothing) if there is none. */
  ghost predicate HighestVote(s: Inst, a: nat, b: nat, v: ProposalValue) {
    && (if b == 0 then v == NO_VALUE else exists p :: p in s.sent && IsVote(p.msg, a, b, v))
    && forall p :: p in s.sent && p.msg.fromId == a && p.msg.kind.ACCEPTED? ==> p.msg.number <= b
  }

  ghost predicate KeepsWord(s: Inst, a: nat) {
    && a < |s.nodes|
    && HighestBound(s, a, s.nodes[a].acceptor.prepare)
    && HighestVote(s, a, s.nodes[a].acceptor.number, s.nodes[a].acceptor.value)
    && s.nodes[a].acceptor.number <= s.nodes[a].acceptor.prepare
  }

  /** Proposals have positive numbers. */
  ghost predicate Positive(s: Inst) {
    && (forall p :: p in s.sent && p.msg.kind.ACCEPT? ==> p.msg.number > 0)
    && forall i :: 0 <= i < |s.nodes| ==> s.nodes[i].proposer.current > 0
  }

  ghost predicate AllKeepWord(cfg: Config, s: Inst) {
    && OnlyFromSent(s) && Positive(s)
    && (forall a :: 0 <= a < |s.nodes| ==> KeepsWord(s, a))
    && (cfg.recovery ==> forall a :: 0 <= a < |s.nodes| ==> DiskInv(s.nodes[a]))
  }

  /** Nothing that binds acceptor a is sent, and it stays as it is. */
  lemma WordUntouched(s: Inst, t: Inst, out: seq<Packet>, a: nat)
    requires KeepsWord(s, a) && a < |t.nodes| && t.nodes[a].acceptor == s.nodes[a].acceptor
    requires t.sent == s.sent + SetOf(out)
    requires forall p :: p in out && p.msg.fromId == a ==> !p.msg.kind.PROMISE? && !p.msg.kind.ACCEPTED?
    ensures KeepsWord(t, a)
  {
    var x := s.nodes[a].acceptor;
    if x.prepare > 0 {
      var p :| p in s.sent && Binds(p.msg, a, x.prepare);
      assert p in t.sent;
    }
    if x.number > 0 {
      var p :| p in s.sent && IsVote(p.msg, a, x.number, x.value);
      assert p in t.sent;
    }
  }

  // ---- one handler ----

  predicate Unbinding(out: seq<Packet>) {
    forall p :: p in out ==> !p.msg.kind.PROMISE? && !p.msg.kind.ACCEPTED?
  }

  /** Acceptor id promises b. */
  predicate Promises(id: nat, x: AcceptorState, y: AcceptorState, out: seq<Packet>, b: nat) {
    && b > x.prepare && y == x.(prepare := b)
    && |out| == 1 && out[0].msg.kind.PROMISE? && out[0].msg.fromId == id && out[0].msg.extra == b
    && out[0].msg.number == x.number && out[0].msg.value == x.value
  }

  /** Acceptor id votes for (b, v). */
  predicate Votes(id: nat, x: AcceptorState, y: AcceptorState, out: seq<Packet>, b: nat, v: ProposalValue) {
    && b >= x.prepare && y == AcceptorState(b, b, v)
    && |out| == 1 && out[0].msg.kind.ACCEPTED? && out[0].msg.fromId == id
    && out[0].msg.number == b && out[0].msg.value == v
  }

  lemma DispatchBinds(n: nat, recovery: bool, id: nat, x: Node, m: Message)
    ensures var e := Dispatch(n, recovery, id, x, m);
            || (e.node.acceptor == x.acceptor && Unbinding(e.out))
            || (m.kind.PREPARE? && Promises(id, x.acceptor, e.node.acceptor, e.out, m.number))
            || (m.kind.ACCEPT? && Votes(id, x.acceptor, e.node.acceptor, e.out, m.number, m.value))
  {
    if m.kind.DENIAL? {
      var (p, resubmit) := OnDenial(n, x.proposer, m);
      if resubmit.Some? {
        SubmitUnbinding(n, id, x.(proposer := p, timer := None), resubmit.value);
      }
    }
  }

  lemma SubmitUnbinding(n: nat, id: nat, x: Node, m: Message)
    ensures Submit(n, id, x, m).node.acceptor == x.acceptor && Unbinding(Submit(n, id, x, m).out)
  {
  }

  lemma PromiseKeepsWord(s: Inst, t: Inst, out: seq<Packet>, a: nat, b: nat)
    requires KeepsWord(s, a) && a < |t.nodes| && t.sent == s.sent + SetOf(out)
    requires Promises(a, s.nodes[a].acceptor, t.nodes[a].acceptor, out, b)
    ensures KeepsWord(t, a)
  {
    var x := s.nodes[a].acceptor;
    assert out[0] in t.sent && Binds(out[0].msg, a, b);
    if x.number > 0 {
      var p :| p in s.sent && IsVote(p.msg, a, x.number, x.value);
      assert p in t.sent;
    }
  }

  lemma VoteKeepsWord(s: Inst, t: Inst, out: seq<Packet>, a: nat, b: nat, v: ProposalValue)
    requires KeepsWord(s, a) && a < |t.nodes| && t.sent == s.sent + SetOf(out) && b > 0
    requires Votes(a, s.nodes[a].acceptor, t.nodes[a].acceptor, out, b, v)
    ensures KeepsWord(t, a)
  {
    assert out[0] in t.sent && Binds(out[0].msg, a, b) && IsVote(out[0].msg, a, b, v);
  }

  // ---- events ----

  lemma EventPositive(cfg: Config, s: Inst, e: Event)
    requires Enabled(cfg, s, e) && OnlyFromSent(s) && Positive(s)
    ensures Positive(Apply(cfg, s, e))
  {
    SentIsOut(cfg, s, e);
    match e
    case Submission(i, m) => SubmitPositive(|s.nodes|, i, s.nodes[i], m);
    case Timer(i) => SubmitPositive(|s.nodes|, i, s.nodes[i].(timer := None), s.nodes[i].timer.value.(kind := SUBMIT));
    case Deliver(p) => DispatchPositive(|s.nodes|, cfg.recovery, p.dst, s.nodes[p.dst], p.msg);
    case _ =>
  }

  predicate PositiveEffect(e: Effect) {
    e.node.proposer.current > 0 && forall p :: p in e.out && p.msg.kind.ACCEPT? ==> p.msg.number > 0
  }

  lemma SubmitPositive(n: nat, id: nat, x: Node, m: Message)
    requires x.proposer.current > 0
    ensures PositiveEffect(Submit(n, id, x, m))
  {
  }

  lemma DenialPositive(n: nat, id: nat, x: Node, m: Message)
    requires x.proposer.current > 0
    ensures PositiveEffect(HandleDenial(n, id, x, m))
  {
    var (p, resubmit) := OnDenial(n, x.proposer, m);
    if resubmit.Some? {
      SubmitPositive(n, id, x.(proposer := p, timer := None), resubmit.value);
    }
  }

  lemma DispatchPositive(n: nat, recovery: bool, id: nat, x: Node, m: Message)
    requires x.proposer.current > 0
    ensures PositiveEffect(Dispatch(n, recovery, id, x, m))
  {
    match m.kind
    case PROMISE => PromisePositive(n, id, x, m);
    case DENIAL => DenialPositive(n, id, x, m);
    case _ => RestPositive(n, recovery, id, x, m);
  }

  lemma PromisePositive(n: nat, id: nat, x: Node, m: Message)
    requires x.proposer.current > 0
    ensures PositiveEffect(HandlePromise(n, id, x, m))
  {
  }

  /** Acceptors and learners leave the proposer alone and propose nothing. */
  lemma RestPositive(n: nat, recovery: bool, id: nat, x: Node, m: Message)
    requires !m.kind.PROMISE? && !m.kind.DENIAL?
    ensures var e := Dispatch(n, recovery, id, x, m);
            e.node.proposer == x.proposer && forall p :: p in e.out ==> !p.msg.kind.ACCEPT?
  {
  }

  lemma SubmissionKeepsWord(cfg: Config, s: Inst, e: Event, a: nat)
    requires Enabled(cfg, s, e) && KeepsWord(s, a) && !e.Deliver? && !e.Crash?
    ensures KeepsWord(Apply(cfg, s, e), a)
  {
    SentIsOut(cfg, s, e);
    if e.Submission? {
      SubmitUnbinding(|s.nodes|, e.i, s.nodes[e.i], e.m);
    } else if e.Timer? {
      var x := s.nodes[e.i];
      SubmitUnbinding(|s.nodes|, e.i, x.(timer := None), x.timer.value.(kind := SUBMIT));
    }
    WordUntouched(s, Apply(cfg, s, e), Out(cfg, s, e), a);
  }

  lemma DeliveryKeepsWord(cfg: Config, s: Inst, p: Packet, a: nat)
    requires Enabled(cfg, s, Deliver(p)) && KeepsWord(s, a) && OnlyFromSent(s) && Positive(s)
    ensures KeepsWord(Apply(cfg, s, Deliver(p)), a)
  {
    var t, out := Apply(cfg, s, Deliver(p)), Out(cfg, s, Deliver(p));
    SentIsOut(cfg, s, Deliver(p));
    DispatchBinds(|s.nodes|, cfg.recovery, p.dst, s.nodes[p.dst], p.msg);
    var x, y := s.nodes[p.dst].acceptor, t.nodes[p.dst].acceptor;
    if a != p.dst || (y == x && Unbinding(out)) {
      WordUntouched(s, t, out, a);
    } else if p.msg.kind.PREPARE? {
      PromiseKeepsWord(s, t, out, a, p.msg.number);
    } else {
      VoteKeepsWord(s, t, out, a, p.msg.number, p.msg.value);
    }
  }

  lemma CrashKeepsWord(cfg: Config, s: Inst, i: nat, a: nat)
    requires Enabled(cfg, s, Crash(i)) && KeepsWord(s, a) && DiskInv(s.nodes[a])
    ensures KeepsWord(Apply(cfg, s, Crash(i)), a)
  {
    WordUntouched(s, Apply(cfg, s, Crash(i)), [], a);
  }

  lemma EventKeepsDisk(cfg: Config, s: Inst, e: Event, a: nat)
    requires cfg.recovery && Enabled(cfg, s, e) && a < |s.nodes| && DiskInv(s.nodes[a])
    ensures DiskInv(Apply(cfg, s, e).nodes[a])
  {
    match e
    case Deliver(p) =>
      if p.dst == a {
        Safety.DispatchDisk(|s.nodes|, a, s.nodes[a], p.msg);
      }
    case _ =>
  }

  lemma EventKeepsWord(cfg: Config, s: Inst, e: Event)
    requires (cfg.crashes ==> cfg.recovery) && Enabled(cfg, s, e) && AllKeepWord(cfg, s)
    ensures AllKeepWord(cfg, Apply(cfg, s, e))
  {
    var t := Apply(cfg, s, e);
    SentIsOut(cfg, s, e);
    EventPositive(cfg, s, e);
    forall a: nat | a < |t.nodes| ensures KeepsWord(t, a) && (cfg.recovery ==> DiskInv(t.nodes[a])) {
      if cfg.recovery {
        EventKeepsDisk(cfg, s, e, a);
      }
      if e.Deliver? {
        DeliveryKeepsWord(cfg, s, e.p, a);
      } else if e.Crash? {
        CrashKeepsWord(cfg, s, e.i, a);
      } else {
        SubmissionKeepsWord(cfg, s, e, a);
      }
    }
  }

  lemma StartKeepsWord(cfg: Config, run: seq<Inst>)
    requires IsRun(cfg, run)
    ensures AllKeepWord(cfg, run[0])
  {
    var k :| run[0] == Init(cfg.n, k);
    var s := Init(cfg.n, k);
    forall a: nat | a < |s.nodes| ensures KeepsWord(s, a) && s.nodes[a] == InitNode(cfg.n, a) {
    }
  }

  /** In every run of every deployment whose crashing servers log, what an acceptor holds is what it
      has sent: its promise is the highest number it is bound to, its proposal its highest vote. */
  lemma {:induction false} RunKeepsWord(cfg: Config, run: seq<Inst>, k: nat)
    requires IsRun(cfg, run) && (cfg.crashes ==> cfg.recovery) && k < |run|
    ensures AllKeepWord(cfg, run[k])
  {
    if k == 0 {
      StartKeepsWord(cfg, run);
    } else {
      RunKeepsWord(cfg, run, k - 1);
      StepKeepsWord(cfg, run, k);
    }
  }

  lemma StepKeepsWord(cfg: Config, run: seq<Inst>, k: nat)
    requires IsRun(cfg, run) && (cfg.crashes ==> cfg.recovery) && 0 < k < |run| && AllKeepWord(cfg, run[k - 1])
    ensures AllKeepWord(cfg, run[k])
  {
    var e := Safety.EventAt(cfg, run, k);
    EventKeepsWord(cfg, run[k - 1], e);
  }

  // ---- what it answers ----

  /** An acceptor that has not heard of the decision promises exactly the numbers above every one it
      is bound to, and the promise reports its highest vote; it denies every other number, reporting
      the highest one. */
  lemma PromisesExactly(cfg: Config, run: seq<Inst>, k: nat, p: Packet)
    requires IsRun(cfg, run) && (cfg.crashes ==> cfg.recovery) && k < |run|
    requires Enabled(cfg, run[k], Deliver(p)) && p.msg.kind.PREPARE? && !run[k].nodes[p.dst].learner.informed
    ensures |Out(cfg, run[k], Deliver(p))| == 1
    ensures var m := Out(cfg, run[k], Deliver(p))[0].msg;
            && (m.kind.PROMISE? || m.kind.DENIAL?)
            && (m.kind.PROMISE? <==> p.msg.number > 0 && forall b: nat :: Bound(run[k], p.dst, b) ==> b < p.msg.number)
            && (m.kind.PROMISE? ==> HighestVote(run[k], p.dst, m.number, m.value))
            && (m.kind.DENIAL? ==> HighestBound(run[k], p.dst, m.number))
  {
    RunKeepsWord(cfg, run, k);
    HighestIsBound(run[k], p.dst);
  }

  /** And it votes exactly for the numbers that are not below any it is bound to. */
  lemma VotesExactly(cfg: Config, run: seq<Inst>, k: nat, p: Packet)
    requires IsRun(cfg, run) && (cfg.crashes ==> cfg.recovery) && k < |run|
    requires Enabled(cfg, run[k], Deliver(p)) && p.msg.kind.ACCEPT? && !run[k].nodes[p.dst].learner.informed
    ensures |Out(cfg, run[k], Deliver(p))| == 1
    ensures var m := Out(cfg, run[k], Deliver(p))[0].msg;
            && (m.kind.ACCEPTED? || m.kind.REJECTED?)
            && (m.kind.ACCEPTED? <==> forall b: nat :: Bound(run[k], p.dst, b) ==> b <= p.msg.number)
            && (m.kind.ACCEPTED? ==> m.number == p.msg.number && m.value == p.msg.value)
            && (m.kind.REJECTED? ==> HighestBound(run[k], p.dst, m.number))
  {
    RunKeepsWord(cfg, run, k);
    HighestIsBound(run[k], p.dst);
  }

  lemma HighestIsBound(s: Inst, a: nat)
    requires KeepsWord(s, a)
    ensures forall b: nat :: Bound(s, a, b) ==> b <= s.nodes[a].acceptor.prepare
    ensures s.nodes[a].acceptor.prepare > 0 ==> Bound(s, a, s.nodes[a].acceptor.prepare)
  {
    forall b: nat | Bound(s, a, b) ensures b <= s.nodes[a].acceptor.prepare {
      var p :| p in s.sent && Binds(p.msg, a, b);
    }
  }
}
