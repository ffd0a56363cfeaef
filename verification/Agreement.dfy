/** The promises of the protocol, stated about runs. */
module Agreement {
  import opened Wire
  import opened Roles
  import opened Consensus
  import opened Invariant
  import opened Rounds
  import opened Safety

  // ---- agreement inside one state ----

  /** A chosen value is the value of every proposal with a higher number. */
  lemma {:induction false} ChosenBinds(s: Inst, b: nat, v: ProposalValue, c: nat, w: ProposalValue)
    requires Core(s) && OneValue(s) && Chosen(s, b, v) && b > 0 && b < c && Proposed(s, c, w)
    ensures v == w
    decreases c
  {
    assert PacketInv(s, Packet(0, Message(ACCEPT, s.seqno, Owner(|s.nodes|, c), c, w, c)));
    var q, m, d :| Shows(s, q, m, d, c, w);
    var r :| AllVoted(s, r, b, v);
    Overlap(|s.nodes|, q, r);
    var a :| a in q && a in r;
    assert Voted(s, a, b, v) && NoVotesBetween(s, a, d, c);
    assert Voted(s, m, d, w);
    VoteWasProposed(s, m, d, w);
    VoteWasProposed(s, a, b, v);
    if b < d {
      ChosenBinds(s, b, v, d, w);
    }
  }

  lemma VoteWasProposed(s: Inst, a: nat, b: nat, v: ProposalValue)
    requires Core(s) && Voted(s, a, b, v)
    ensures Proposed(s, b, v) && b > 0 && a < |s.nodes|
  {
    assert PacketInv(s, Packet(Owner(|s.nodes|, b), Message(ACCEPTED, s.seqno, a, b, v, b)));
  }

  lemma ChosenWasProposed(s: Inst, b: nat, v: ProposalValue)
    requires Core(s) && Chosen(s, b, v)
    ensures Proposed(s, b, v) && b > 0
  {
    var q :| AllVoted(s, q, b, v);
    Overlap(|s.nodes|, q, q);
    var a :| a in q;
    VoteWasProposed(s, a, b, v);
  }

  lemma ChosenAgree(s: Inst, b: nat, v: ProposalValue, c: nat, w: ProposalValue)
    requires Core(s) && OneValue(s) && Chosen(s, b, v) && Chosen(s, c, w)
    ensures v == w
  {
    ChosenWasProposed(s, b, v);
    ChosenWasProposed(s, c, w);
    if b < c {
      ChosenBinds(s, b, v, c, w);
    } else if c < b {
      ChosenBinds(s, c, w, b, v);
    }
  }

  // ---- the history and the acceptors tell the same story ----

  lemma EventGrows(cfg: Config, s: Inst, e: Event)
    requires Enabled(cfg, s, e)
    ensures var t := Apply(cfg, s, e); s.sent <= t.sent && |t.nodes| == |s.nodes| && t.seqno == s.seqno
  {
  }

  lemma {:induction false} HistoryGrows(cfg: Config, run: seq<Inst>, k: nat, j: nat)
    requires IsRun(cfg, run) && k <= j < |run|
    ensures run[k].sent <= run[j].sent && |run[k].nodes| == |run[j].nodes| == cfg.n && run[k].seqno == run[j].seqno
    decreases j
  {
    if j == 0 {
    } else {
      var e := EventAt(cfg, run, j);
      EventGrows(cfg, run[j - 1], e);
      HistoryGrows(cfg, run, if k < j then k else j - 1, j - 1);
    }
  }

  /** A server that once held a proposal has voted for it as far as any later state knows. */
  lemma HeldIsVoted(cfg: Config, run: seq<Inst>, a: nat, b: nat, v: ProposalValue)
    requires IsRun(cfg, run) && Sound(cfg) && HeldIn(run, a, b, v)
    ensures Voted(run[|run| - 1], a, b, v)
  {
    var k :| 0 <= k < |run| && Holds(run[k], a, b, v);
    RunInv(cfg, run, k);
    assert NodeInv(run[k], a);
    HistoryGrows(cfg, run, k, |run| - 1);
    assert Voted(run[k], a, b, v);
  }

  lemma ChosenInIsChosen(cfg: Config, run: seq<Inst>, b: nat, v: ProposalValue)
    requires IsRun(cfg, run) && Sound(cfg) && ChosenIn(cfg.n, run, b, v)
    ensures Chosen(run[|run| - 1], b, v)
  {
    var q :| MajorityHeld(cfg.n, run, q, b, v);
    HistoryGrows(cfg, run, 0, |run| - 1);
    forall a | a in q ensures Voted(run[|run| - 1], a, b, v) {
      HeldIsVoted(cfg, run, a, b, v);
    }
    assert AllVoted(run[|run| - 1], q, b, v);
  }

  /** Agreement. Over any run of a sound deployment, if one majority of acceptors ever held
      number b with value v and another ever held c with w, then v and w are equal. */
  lemma AgreementHolds(cfg: Config, run: seq<Inst>)
    requires IsRun(cfg, run) && Sound(cfg)
    ensures Agrees(cfg.n, run)
  {
    var s := run[|run| - 1];
    RunInv(cfg, run, |run| - 1);
    forall b: nat, c: nat, v, w | ChosenIn(cfg.n, run, b, v) && ChosenIn(cfg.n, run, c, w) ensures v == w {
      ChosenInIsChosen(cfg, run, b, v);
      ChosenInIsChosen(cfg, run, c, w);
      ChosenAgree(s, b, v, c, w);
    }
  }

  /** The converse reading of a vote: whoever voted for (b, v) held it right then. */
  lemma NewVoteIsHeld(cfg: Config, s: Inst, t: Inst, e: Event, a: nat, b: nat, v: ProposalValue)
    requires Inv(cfg, s) && Sound(cfg) && Enabled(cfg, s, e) && t == Apply(cfg, s, e)
    ensures Voted(t, a, b, v) ==> Voted(s, a, b, v) || Holds(t, a, b, v)
  {
    match e
    case Deliver(p) =>
      assert PacketInv(s, p);
      VoteComesFromAccept(|s.nodes|, cfg.recovery, p.dst, s.nodes[p.dst], p.msg);
    case _ =>
  }

  lemma VoteComesFromAccept(n: nat, recovery: bool, id: nat, x: Node, m: Message)
    requires m.kind.ACCEPT? ==> m.number > 0
    ensures var e := Dispatch(n, recovery, id, x, m);
            forall r :: r in e.out && r.msg.kind.ACCEPTED? ==>
              r.msg.fromId == id && r.msg.number > 0 &&
              e.node.acceptor == AcceptorState(r.msg.number, r.msg.number, r.msg.value)
  {
  }

  lemma {:induction false} VotedWasHeld(cfg: Config, run: seq<Inst>, k: nat, a: nat, b: nat, v: ProposalValue)
    requires IsRun(cfg, run) && Sound(cfg) && k < |run|
    ensures Voted(run[k], a, b, v) ==> HeldIn(run, a, b, v)
    decreases k
  {
    if k == 0 {
    } else {
      VotedWasHeld(cfg, run, k - 1, a, b, v);
      VoteStep(cfg, run, k, a, b, v);
      assert Holds(run[k], a, b, v) ==> HeldIn(run, a, b, v);
    }
  }

  lemma VoteStep(cfg: Config, run: seq<Inst>, k: nat, a: nat, b: nat, v: ProposalValue)
    requires IsRun(cfg, run) && Sound(cfg) && 0 < k < |run|
    ensures Voted(run[k], a, b, v) ==> Voted(run[k - 1], a, b, v) || Holds(run[k], a, b, v)
  {
    RunInv(cfg, run, k - 1);
    var e := EventAt(cfg, run, k);
    NewVoteIsHeld(cfg, run[k - 1], run[k], e, a, b, v);
  }

  lemma ChosenWasChosenIn(cfg: Config, run: seq<Inst>, k: nat, b: nat, v: ProposalValue)
    requires IsRun(cfg, run) && Sound(cfg) && k < |run| && Chosen(run[k], b, v)
    ensures ChosenIn(cfg.n, run, b, v)
  {
    var q :| AllVoted(run[k], q, b, v);
    HistoryGrows(cfg, run, 0, k);
    forall a | a in q ensures HeldIn(run, a, b, v) {
      VotedWasHeld(cfg, run, k, a, b, v);
    }
    assert MajorityHeld(cfg.n, run, q, b, v);
  }

  // ---- learners ----

  /** Learner soundness. A learned or informed learner, and every INFORM ever sent, names a
      number and value that a majority of acceptors held. */
  lemma LearnersAreSound(cfg: Config, run: seq<Inst>, k: nat)
    requires IsRun(cfg, run) && Sound(cfg) && k < |run|
    ensures forall i :: 0 <= i < |run[k].nodes| && Decided(run[k].nodes[i].learner)
              ==> ChosenIn(cfg.n, run, run[k].nodes[i].learner.number, run[k].nodes[i].learner.value)
    ensures forall p :: p in run[k].sent && p.msg.kind.INFORM?
              ==> ChosenIn(cfg.n, run, p.msg.number, p.msg.value)
  {
    RunInv(cfg, run, k);
    forall i | 0 <= i < |run[k].nodes| && Decided(run[k].nodes[i].learner)
      ensures ChosenIn(cfg.n, run, run[k].nodes[i].learner.number, run[k].nodes[i].learner.value)
    {
      assert NodeInv(run[k], i);
      ChosenWasChosenIn(cfg, run, k, run[k].nodes[i].learner.number, run[k].nodes[i].learner.value);
    }
    forall p | p in run[k].sent && p.msg.kind.INFORM? ensures ChosenIn(cfg.n, run, p.msg.number, p.msg.value) {
      assert PacketInv(run[k], p);
      ChosenWasChosenIn(cfg, run, k, p.msg.number, p.msg.value);
    }
  }

  /** Any two servers that have decided, at any two moments, have decided the same value. */
  lemma LearnersAgree(cfg: Config, run: seq<Inst>, k: nat, i: nat, l: nat, j: nat)
    requires IsRun(cfg, run) && Sound(cfg) && k < |run| && l < |run|
    requires i < |run[k].nodes| && Decided(run[k].nodes[i].learner)
    requires j < |run[l].nodes| && Decided(run[l].nodes[j].learner)
    ensures run[k].nodes[i].learner.value == run[l].nodes[j].learner.value
  {
    LearnersAreSound(cfg, run, k);
    LearnersAreSound(cfg, run, l);
    AgreementHolds(cfg, run);
  }

  /** The bits an undecided learner has set are servers that held what it is counting. */
  lemma BitsAreVotes(cfg: Config, run: seq<Inst>, k: nat, i: nat, a: nat)
    requires IsRun(cfg, run) && Sound(cfg) && k < |run| && i < |run[k].nodes|
    requires !run[k].nodes[i].learner.informed && a in run[k].nodes[i].learner.accepted
    ensures HeldIn(run, a, run[k].nodes[i].learner.number, run[k].nodes[i].learner.value)
  {
    RunInv(cfg, run, k);
    assert NodeInv(run[k], i);
    VotedWasHeld(cfg, run, k, a, run[k].nodes[i].learner.number, run[k].nodes[i].learner.value);
  }

  // ---- proposals ----

  /** From no state of the run does acceptor a hold a number strictly between c and b. */
  ghost predicate NeverHoldsBetween(run: seq<Inst>, a: nat, c: nat, b: nat) {
    forall d: nat, u :: HeldIn(run, a, d, u) ==> d <= c || b <= d
  }

  /** Majority q never, before or after, accepts strictly between c and b; and c is 0 (it accepts
      nothing below b at all) or v is the value one of its members accepted at c. */
  ghost predicate SafeIn(n: nat, run: seq<Inst>, q: set<nat>, c: nat, b: nat, v: ProposalValue) {
    && Majority(n, q) && c < b
    && (forall a :: a in q ==> NeverHoldsBetween(run, a, c, b))
    && (c > 0 ==> exists w :: w in q && HeldIn(run, w, c, v))
  }

  /** P2c: every proposal ever sent is safe. */
  lemma ProposalsAreSafe(cfg: Config, run: seq<Inst>, k: nat, p: Packet)
    requires IsRun(cfg, run) && Sound(cfg) && k < |run| && p in run[k].sent && p.msg.kind.ACCEPT?
    ensures exists q, c: nat :: SafeIn(cfg.n, run, q, c, p.msg.number, p.msg.value)
  {
    var s := run[|run| - 1];
    RunInv(cfg, run, |run| - 1);
    HistoryGrows(cfg, run, k, |run| - 1);
    assert PacketInv(s, p);
    var b := p.msg.number;
    var q, w, c :| Shows(s, q, w, c, b, p.msg.value);
    forall a | a in q ensures NeverHoldsBetween(run, a, c, b) {
      forall d: nat, u | HeldIn(run, a, d, u) ensures d <= c || b <= d {
        HeldIsVoted(cfg, run, a, d, u);
        assert NoVotesBetween(s, a, c, b);
      }
    }
    if c > 0 {
      VotedWasHeld(cfg, run, |run| - 1, w, c, p.msg.value);
    }
    assert SafeIn(cfg.n, run, q, c, b, p.msg.value);
  }

  /** One value per number: two ACCEPT messages with the same number carry the same value and
      come from the one server that owns the number. */
  lemma OneValuePerNumber(cfg: Config, run: seq<Inst>, k: nat, p: Packet, l: nat, r: Packet)
    requires IsRun(cfg, run) && Sound(cfg) && k < |run| && l < |run|
    requires p in run[k].sent && p.msg.kind.ACCEPT? && r in run[l].sent && r.msg.kind.ACCEPT?
    requires p.msg.number == r.msg.number
    ensures p.msg.value == r.msg.value && p.msg.fromId == r.msg.fromId == p.msg.number % cfg.n
    ensures p.msg.number >= 2 * cfg.n
  {
    var s := run[|run| - 1];
    RunInv(cfg, run, |run| - 1);
    HistoryGrows(cfg, run, k, |run| - 1);
    HistoryGrows(cfg, run, l, |run| - 1);
    assert PacketInv(s, p) && PacketInv(s, r);
    OwnerIsResidue(cfg.n, p.msg.number);
    assert Proposed(s, p.msg.number, p.msg.value) && Proposed(s, p.msg.number, r.msg.value);
  }

  /** A proposer's number is always congruent to its id, and starting a round moves it up. */
  lemma NumbersAreOwned(cfg: Config, run: seq<Inst>, k: nat, i: nat)
    requires IsRun(cfg, run) && Sound(cfg) && k < |run| && i < |run[k].nodes|
    ensures run[k].nodes[i].proposer.current % cfg.n == i && run[k].nodes[i].proposer.current >= cfg.n
  {
    RunInv(cfg, run, k);
    assert NodeInv(run[k], i);
    OwnerIsResidue(cfg.n, run[k].nodes[i].proposer.current);
  }

  /** Stale replies. Without crashes no promise or denial is ahead of the proposer it goes to,
      so the handlers' assertions hold, and every sender id can index the n-bit sets. */
  lemma AssertionsHold(cfg: Config, run: seq<Inst>, k: nat, p: Packet)
    requires IsRun(cfg, run) && !cfg.crashes && k < |run| && p in run[k].sent
    ensures |run[k].nodes| == cfg.n && p.dst < cfg.n && p.msg.fromId < cfg.n
    ensures p.msg.kind.PROMISE? || p.msg.kind.DENIAL? ==> ReplyAssertion(run[k].nodes[p.dst].proposer, p.msg)
  {
    RunInv(cfg, run, k);
    assert PacketInv(run[k], p) && NotAhead(run[k], p);
  }

  /** Rounds go up. Between restarts a proposer's number never falls, and the majority flag,
      once up, stays up until the number changes. */
  lemma RoundsGoUp(cfg: Config, s: Inst, e: Event, i: nat)
    requires Enabled(cfg, s, e) && i < |s.nodes| && !e.Crash?
    ensures Advances(s.nodes[i].proposer, Apply(cfg, s, e).nodes[i].proposer)
  {
    match e
    case Submission(j, m) => SubmitAdvances(|s.nodes|, j, s.nodes[j], m);
    case Timer(j) => SubmitAdvances(|s.nodes|, j, s.nodes[j].(timer := None), s.nodes[j].timer.value.(kind := SUBMIT));
    case Deliver(p) => DispatchAdvances(|s.nodes|, cfg.recovery, p.dst, s.nodes[p.dst], p.msg);
    case _ =>
  }

  lemma SubmitAdvances(n: nat, id: nat, x: Node, m: Message)
    requires n > 0
    ensures Advances(x.proposer, Submit(n, id, x, m).node.proposer)
  {
  }

  lemma DispatchAdvances(n: nat, recovery: bool, id: nat, x: Node, m: Message)
    requires n > 0
    ensures Advances(x.proposer, Dispatch(n, recovery, id, x, m).node.proposer)
  {
  }

  /** Starting a round takes a number above every earlier one of this incarnation. */
  lemma RoundsAreNew(cfg: Config, s: Inst, e: Event, p: Packet)
    requires Enabled(cfg, s, e) && p in Apply(cfg, s, e).sent && p !in s.sent && p.msg.kind.PREPARE?
    ensures var i := p.msg.fromId;
            && i < |s.nodes|
            && p.msg.number == Apply(cfg, s, e).nodes[i].proposer.current == s.nodes[i].proposer.current + |s.nodes|
  {
    match e
    case Deliver(q) => PreparesComeFromSubmit(|s.nodes|, cfg.recovery, q.dst, s.nodes[q.dst], q.msg);
    case _ =>
  }

  lemma PreparesComeFromSubmit(n: nat, recovery: bool, id: nat, x: Node, m: Message)
    ensures var e := Dispatch(n, recovery, id, x, m);
            forall r :: r in e.out && r.msg.kind.PREPARE? ==>
              r.msg.fromId == id && r.msg.number == e.node.proposer.current == x.proposer.current + n
  {
    if m.kind.DENIAL? {
      DenialPrepares(n, id, x, m);
    } else {
      OthersDoNotPrepare(n, recovery, id, x, m);
    }
  }

  lemma DenialPrepares(n: nat, id: nat, x: Node, m: Message)
    ensures var e := HandleDenial(n, id, x, m);
            forall r :: r in e.out ==>
              r.msg.fromId == id && r.msg.number == e.node.proposer.current == x.proposer.current + n
  {
  }

  lemma OthersDoNotPrepare(n: nat, recovery: bool, id: nat, x: Node, m: Message)
    requires !m.kind.DENIAL?
    ensures forall r :: r in Dispatch(n, recovery, id, x, m).out ==> !r.msg.kind.PREPARE?
  {
  }

  /** Crash and restart gives back the acceptor and the informed learner exactly. */
  lemma CrashIsIdentity(cfg: Config, run: seq<Inst>, k: nat, i: nat)
    requires IsRun(cfg, run) && Sound(cfg) && cfg.recovery && k < |run| && i < |run[k].nodes|
    ensures var x := run[k].nodes[i];
            var y := Restart(cfg.n, i, x);
            && y.acceptor == x.acceptor
            && y.learner.informed == x.learner.informed
            && (x.learner.informed ==> y.learner.number == x.learner.number && y.learner.value == x.learner.value)
  {
    RunInv(cfg, run, k);
  }

  /** Nothing in flight is newer than its sender's log: a promise's or a vote's number is at most
      the prepare number logged by the acceptor it came from. */
  lemma RepliesAreLogged(cfg: Config, run: seq<Inst>, k: nat, p: Packet)
    requires IsRun(cfg, run) && Sound(cfg) && cfg.recovery && k < |run| && p in run[k].sent
    requires p.msg.kind.PROMISE? || p.msg.kind.ACCEPTED?
    ensures p.msg.fromId < |run[k].nodes| && run[k].nodes[p.msg.fromId].acceptorSlot.Some?
    ensures var a := run[k].nodes[p.msg.fromId].acceptorSlot.value;
            p.msg.extra <= a.prepare && p.msg.number <= a.number
  {
    var s := run[k];
    RunInv(cfg, run, k);
    assert PacketInv(s, p) && NodeInv(s, p.msg.fromId);
    assert DiskInv(s.nodes[p.msg.fromId]);
    if p.msg.kind.ACCEPTED? {
      assert p == Packet(Owner(|s.nodes|, p.msg.number),
                         Message(ACCEPTED, s.seqno, p.msg.fromId, p.msg.number, p.msg.value, p.msg.number));
      assert Voted(s, p.msg.fromId, p.msg.number, p.msg.value);
    } else {
      assert p.msg.number > 0 ==> Voted(s, p.msg.fromId, p.msg.number, p.msg.value);
    }
  }
}
