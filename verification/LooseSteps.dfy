/** Every handler keeps what holds in release builds: first what has been said and recorded, then
    what is in flight. */
module LooseSteps {
  import opened Wire
  import opened Roles
  import opened Consensus
  import opened Invariant
  import opened InvariantSteps
  import opened Rounds
  import opened Loose

  // ---- stable facts ----

  lemma OfferedStays(s: Inst, t: Inst, b: nat, v: ProposalValue)
    requires |t.nodes| == |s.nodes| && t.seqno == s.seqno && s.sent <= t.sent && Offered(s, b, v)
    ensures Offered(t, b, v)
  {
    var e: nat :| OfferedBy(s, b, v, e);
    assert OfferedBy(t, b, v, e);
  }

  lemma OutStays(s: Inst, t: Inst, i: nat, a: nat, b: nat)
    requires Extends(s, t, i) && Out(s, a, b)
    ensures Out(t, a, b)
  {
    forall u ensures !Voted(t, a, b, u) {
      assert !Voted(s, a, b, u);
    }
  }

  lemma ClosedStays(s: Inst, t: Inst, i: nat, b: nat)
    requires Extends(s, t, i) && Closed(s, b)
    ensures Closed(t, b)
  {
    var x :| ClosedBy(s, x, b);
    forall a | a in x ensures Out(t, a, b) {
      OutStays(s, t, i, a, b);
    }
    assert ClosedBy(t, x, b);
  }

  lemma OnlyStays(s: Inst, t: Inst, i: nat, b: nat, w: ProposalValue)
    requires Extends(s, t, i) && Only(s, b, w)
    ensures Only(t, b, w)
  {
    var x :| OnlyBy(s, x, b, w);
    forall a | a in x ensures PrepareAtLeast(t, a, b + 1) && VotesOnly(t, a, b, w) {
      assert PrepareAtLeast(s, a, b + 1) && VotesOnly(s, a, b, w);
      forall u | Voted(t, a, b, u) ensures u == w {
        assert Voted(s, a, b, u);
      }
    }
    assert OnlyBy(t, x, b, w);
  }

  lemma PacketStays(s: Inst, t: Inst, i: nat, p: Packet)
    requires Extends(s, t, i) && PacketOk(s, p)
    ensures PacketOk(t, p)
  {
    match p.msg.kind
    case PROMISE =>
      NoVotesStable(s, t, i, p.msg.fromId, p.msg.number, p.msg.extra);
      assert p.msg.number > 0 ==> Voted(s, p.msg.fromId, p.msg.number, p.msg.value);
    case ACCEPT => OfferedStays(s, t, p.msg.number, p.msg.value);
    case ACCEPTED => OfferedStays(s, t, p.msg.number, p.msg.value);
    case INFORM => ChosenStable(s, t, i, p.msg.number, p.msg.value);
    case _ =>
  }

  lemma HeededStays(s: Inst, t: Inst, a: nat, b: nat, h: nat)
    requires |t.nodes| == |s.nodes| && t.seqno == s.seqno && s.sent <= t.sent && Heeded(s, a, b, h)
    ensures Heeded(t, a, b, h)
  {
    var e: nat, c: nat, v :| e >= b && c <= h && Promised(s, a, e, c, v);
    assert Promised(t, a, e, c, v);
  }

  /** A proposer's bookkeeping reads only the history and what it has counted. */
  lemma ProposerStays(s: Inst, t: Inst, i: nat)
    requires i < |s.nodes| == |t.nodes| && t.seqno == s.seqno && s.sent <= t.sent && ProposerOk(s, i)
    requires t.nodes[i].proposer == s.nodes[i].proposer.(denied := t.nodes[i].proposer.denied)
    ensures ProposerOk(t, i)
  {
    var x := s.nodes[i].proposer;
    forall a | a in x.promised ensures Heeded(t, a, x.current, x.highestNumber) {
      HeededStays(s, t, a, x.current, x.highestNumber);
    }
    if x.highestNumber > 0 {
      var a, e: nat :| a in x.promised && e >= x.current && Promised(s, a, e, x.highestNumber, x.highestValue);
      assert Promised(t, a, e, x.highestNumber, x.highestValue);
    }
  }

  lemma VotedAtStays(s: Inst, t: Inst, a: nat, b: nat)
    requires |t.nodes| == |s.nodes| && t.seqno == s.seqno && s.sent <= t.sent && VotedAt(s, a, b)
    ensures VotedAt(t, a, b)
  {
    var u :| Voted(s, a, b, u);
    assert Voted(t, a, b, u);
  }

  lemma LearnerStays(s: Inst, t: Inst, i: nat, j: nat)
    requires Extends(s, t, i) && j < |s.nodes| && t.nodes[j].learner == s.nodes[j].learner && LearnerOk(s, j)
    ensures LearnerOk(t, j)
  {
    var x := s.nodes[j].learner;
    if Decided(x) {
      ChosenStable(s, t, i, x.number, x.value);
    }
    if !x.informed {
      forall a | a in x.accepted ensures VotedAt(t, a, x.number) {
        VotedAtStays(s, t, a, x.number);
      }
      if x.number > 0 {
        OfferedStays(s, t, x.number, x.value);
      }
    }
  }

  lemma NodeStays(s: Inst, t: Inst, i: nat, j: nat)
    requires Extends(s, t, i) && j < |s.nodes| && j != i && t.nodes[j] == s.nodes[j] && NodeOk(s, j)
    ensures NodeOk(t, j)
  {
    AcceptorStable(s, t, i, j);
    ProposerStays(s, t, j);
    LearnerStays(s, t, i, j);
  }

  ghost predicate NoNewOffers(s: Inst, t: Inst) {
    forall b: nat, v :: Offered(t, b, v) ==> Offered(s, b, v)
  }

  lemma NothingOffered(s: Inst, t: Inst, i: nat, e: Effect)
    requires Moves(s, t, i, e) && NoProposals(e)
    ensures NoNewOffers(s, t)
  {
    forall b: nat, v | Offered(t, b, v) ensures Offered(s, b, v) {
      var x: nat :| OfferedBy(t, b, v, x);
      assert OfferedBy(s, b, v, x);
    }
  }

  lemma ToldFromParts(s: Inst, t: Inst, i: nat, e: Effect)
    requires Told(s) && Moves(s, t, i, e) && Extends(s, t, i) && NodeOk(t, i) && Binding(t)
    requires forall p :: p in e.out ==> PacketOk(t, p)
    ensures Told(t)
  {
    forall p | p in t.sent ensures PacketOk(t, p) {
      if p in s.sent {
        PacketStays(s, t, i, p);
      }
    }
    forall j | 0 <= j < |t.nodes| ensures NodeOk(t, j) {
      if j != i {
        NodeStays(s, t, i, j);
      }
    }
  }

  lemma BindingStays(s: Inst, t: Inst, i: nat)
    requires Binding(s) && Extends(s, t, i) && NoNewOffers(s, t)
    ensures Binding(t)
  {
    forall b: nat, c: nat, w | 0 < b < c && Offered(t, c, w) ensures Only(t, b, w) {
      OnlyStays(s, t, i, b, w);
    }
  }

  // ---- handlers that neither count a promise nor vote ----

  lemma SubmitTold(s: Inst, t: Inst, i: nat, node: Node, m: Message)
    requires Told(s) && i < |s.nodes| && m.sequence == s.seqno
    requires node.acceptor == s.nodes[i].acceptor && node.learner == s.nodes[i].learner
    requires node.proposer == s.nodes[i].proposer.(denied := node.proposer.denied)
    requires node.timer.Some? ==> node.timer.value.sequence == s.seqno
    requires Moves(s, t, i, Submit(|s.nodes|, i, node, m))
    ensures Told(t)
  {
    var e := Submit(|s.nodes|, i, node, m);
    assert NodeOk(s, i);
    AcceptorKept(s, t, i, e);
    LearnerStays(s, t, i, i);
    NothingOffered(s, t, i, e);
    BindingStays(s, t, i);
    if Decided(node.learner) {
      ProposerStays(s, t, i);
    } else {
      OwnerNext(|s.nodes|, node.proposer.current);
    }
    ToldFromParts(s, t, i, e);
  }

  lemma DenialTold(s: Inst, t: Inst, i: nat, p: Packet)
    requires Told(s) && i < |s.nodes| && p in s.sent && p.msg.kind.DENIAL?
    requires Moves(s, t, i, HandleDenial(|s.nodes|, i, s.nodes[i], p.msg))
    ensures Told(t)
  {
    var n := |s.nodes|;
    var e := HandleDenial(n, i, s.nodes[i], p.msg);
    assert NodeOk(s, i) && PacketOk(s, p);
    var (q, resubmit) := OnDenial(n, s.nodes[i].proposer, p.msg);
    if resubmit.None? {
      AcceptorKept(s, t, i, e);
      LearnerStays(s, t, i, i);
      ProposerStays(s, t, i);
      NothingOffered(s, t, i, e);
      BindingStays(s, t, i);
      ToldFromParts(s, t, i, e);
    } else {
      SubmitTold(s, t, i, s.nodes[i].(proposer := q, timer := None), resubmit.value);
    }
  }

  lemma PrepareTold(recovery: bool, s: Inst, t: Inst, i: nat, p: Packet)
    requires Told(s) && i < |s.nodes| && p in s.sent && p.msg.kind.PREPARE?
    requires Moves(s, t, i, HandlePrepare(recovery, i, s.nodes[i], p.msg))
    ensures Told(t)
  {
    var e := HandlePrepare(recovery, i, s.nodes[i], p.msg);
    assert NodeOk(s, i) && PacketOk(s, p);
    QuietExtends(s, t, i, e);
    ProposerStays(s, t, i);
    LearnerStays(s, t, i, i);
    var x := s.nodes[i].acceptor;
    assert x.number > 0 ==> Voted(s, i, x.number, x.value);
    assert AcceptorInv(t, i);
    NothingOffered(s, t, i, e);
    BindingStays(s, t, i);
    PrepareAnswer(recovery, s, t, i, p);
    ToldFromParts(s, t, i, e);
  }

  lemma PrepareAnswer(recovery: bool, s: Inst, t: Inst, i: nat, p: Packet)
    requires Told(s) && i < |s.nodes| && p in s.sent && p.msg.kind.PREPARE?
    requires Moves(s, t, i, HandlePrepare(recovery, i, s.nodes[i], p.msg))
    requires Extends(s, t, i) && AcceptorInv(t, i) && LearnerOk(t, i)
    ensures PacketOk(t, HandlePrepare(recovery, i, s.nodes[i], p.msg).out[0])
  {
    assert NodeOk(s, i) && PacketOk(s, p);
    var x := t.nodes[i].acceptor;
    assert x.number > 0 ==> Voted(t, i, x.number, x.value);
  }

  // ---- voting ----

  lemma AcceptExtends(recovery: bool, s: Inst, t: Inst, i: nat, p: Packet)
    requires i < |s.nodes| && AcceptorInv(s, i) && p.msg.kind.ACCEPT? && PacketOk(s, p)
    requires Moves(s, t, i, HandleAccept(recovery, i, s.nodes[i], p.msg))
    ensures Extends(s, t, i) && AcceptorInv(t, i)
  {
    var x, y := s.nodes[i].acceptor, t.nodes[i].acceptor;
    var r := HandleAccept(recovery, i, s.nodes[i], p.msg).out[0];
    assert t.sent == s.sent + {r};
    assert x.number > 0 ==> Voted(s, i, x.number, x.value);
    forall a: nat, d: nat, u | Voted(t, a, d, u) && !Voted(s, a, d, u)
      ensures a == i && PrepareAtMost(s, a, d) && d == y.number
    {
    }
    if r.msg.kind.ACCEPTED? {
      assert Voted(t, i, y.number, y.value);
    }
  }

  lemma AcceptTold(recovery: bool, s: Inst, t: Inst, i: nat, p: Packet)
    requires Told(s) && i < |s.nodes| && p in s.sent && p.msg.kind.ACCEPT?
    requires Moves(s, t, i, HandleAccept(recovery, i, s.nodes[i], p.msg))
    ensures Told(t) && Extends(s, t, i)
  {
    var e := HandleAccept(recovery, i, s.nodes[i], p.msg);
    assert NodeOk(s, i) && PacketOk(s, p);
    AcceptExtends(recovery, s, t, i, p);
    ProposerStays(s, t, i);
    LearnerStays(s, t, i, i);
    NothingOffered(s, t, i, e);
    BindingStays(s, t, i);
    OfferedStays(s, t, p.msg.number, p.msg.value);
    ToldFromParts(s, t, i, e);
  }

  // ---- learning ----

  lemma InformTold(recovery: bool, s: Inst, t: Inst, i: nat, p: Packet)
    requires Told(s) && i < |s.nodes| && p in s.sent && p.msg.kind.INFORM?
    requires Moves(s, t, i, HandleInform(recovery, s.nodes[i], p.msg))
    ensures Told(t)
  {
    var e := HandleInform(recovery, s.nodes[i], p.msg);
    assert NodeOk(s, i) && PacketOk(s, p);
    AcceptorKept(s, t, i, e);
    ProposerStays(s, t, i);
    NothingOffered(s, t, i, e);
    BindingStays(s, t, i);
    ChosenStable(s, t, i, p.msg.number, p.msg.value);
    if s.nodes[i].learner.informed {
      LearnerStays(s, t, i, i);
    }
    ToldFromParts(s, t, i, e);
  }

  /** A majority of votes under one number, of whatever values, is a majority for the only one. */
  lemma MixedMajority(s: Inst, q: set<nat>, b: nat, v: ProposalValue)
    requires Told(s) && Numbers(s) && Offered(s, b, v) && Majority(|s.nodes|, q)
    requires forall a :: a in q ==> VotedAt(s, a, b)
    ensures Chosen(s, b, v)
  {
    forall x ensures !ClosedBy(s, x, b) {
      if Blocking(|s.nodes|, x) {
        MajorityMeetsBlocking(|s.nodes|, q, x);
        var a :| a in q && a in x;
        assert VotedAt(s, a, b);
        assert !Out(s, a, b);
      }
    }
    assert NumberOk(s, b);
    forall a | a in q ensures Voted(s, a, b, v) {
      var u :| Voted(s, a, b, u);
      VoteWasOffered(s, a, b, u);
    }
    assert AllVoted(s, q, b, v);
  }

  /** What must be said of learner state x. */
  ghost predicate LearnerSays(s: Inst, x: LearnerState) {
    && (!x.informed ==> forall a :: a in x.accepted ==> a < |s.nodes| && VotedAt(s, a, x.number))
    && (!x.informed && x.number > 0 ==> Offered(s, x.number, x.value))
    && (Decided(x) ==> Chosen(s, x.number, x.value))
  }

  lemma CountOk(s: Inst, i: nat, p: Packet)
    requires Told(s) && Numbers(s) && i < |s.nodes| && p in s.sent && p.msg.kind.ACCEPTED?
    requires !Decided(s.nodes[i].learner) && p.msg.number >= s.nodes[i].learner.number
    ensures LearnerSays(s, OnAccepted(|s.nodes|, s.nodes[i].learner, p.msg).0)
  {
    assert NodeOk(s, i) && PacketOk(s, p);
    var x, m := s.nodes[i].learner, p.msg;
    var y := OnAccepted(|s.nodes|, x, m).0;
    assert p == Packet(Owner(|s.nodes|, m.number), Message(ACCEPTED, s.seqno, m.fromId, m.number, m.value, m.number));
    assert Voted(s, m.fromId, m.number, m.value);
    assert VotedAt(s, m.fromId, m.number);
    forall a | a in y.accepted ensures a < |s.nodes| && VotedAt(s, a, y.number) {
      if a != m.fromId {
        assert VotedAt(s, a, x.number);
      }
    }
    assert Offered(s, y.number, y.value);
    if y.learned {
      MixedMajority(s, y.accepted, y.number, y.value);
    }
  }

  lemma LearnerMoves(s: Inst, t: Inst, i: nat)
    requires i < |t.nodes| == |s.nodes| && t.seqno == s.seqno && s.sent <= t.sent
    requires LearnerSays(s, t.nodes[i].learner)
    ensures LearnerOk(t, i)
  {
    var y := t.nodes[i].learner;
    if Decided(y) {
      var q :| AllVoted(s, q, y.number, y.value);
      forall a | a in q ensures Voted(t, a, y.number, y.value) {
        assert Voted(s, a, y.number, y.value);
      }
      assert AllVoted(t, q, y.number, y.value);
    }
    if !y.informed {
      forall a | a in y.accepted ensures VotedAt(t, a, y.number) {
        VotedAtStays(s, t, a, y.number);
      }
      if y.number > 0 {
        OfferedStays(s, t, y.number, y.value);
      }
    }
  }

  lemma AcceptedTold(s: Inst, t: Inst, i: nat, p: Packet)
    requires Told(s) && Numbers(s) && i < |s.nodes| && p in s.sent && p.msg.kind.ACCEPTED?
    requires Moves(s, t, i, HandleAccepted(|s.nodes|, i, s.nodes[i], p.msg))
    ensures Told(t)
  {
    var e := HandleAccepted(|s.nodes|, i, s.nodes[i], p.msg);
    assert NodeOk(s, i) && PacketOk(s, p);
    AcceptorKept(s, t, i, e);
    ProposerStays(s, t, i);
    NothingOffered(s, t, i, e);
    BindingStays(s, t, i);
    if Decided(s.nodes[i].learner) || p.msg.number < s.nodes[i].learner.number {
      LearnerStays(s, t, i, i);
    } else {
      CountOk(s, i, p);
      LearnerMoves(s, t, i);
    }
    ToldFromParts(s, t, i, e);
  }

  // ---- restart ----

  lemma RestartTold(s: Inst, t: Inst, i: nat)
    requires Told(s) && i < |s.nodes| && DiskInv(s.nodes[i])
    requires Moves(s, t, i, Quiet(Restart(|s.nodes|, i, s.nodes[i])))
    ensures Told(t)
  {
    var e := Quiet(Restart(|s.nodes|, i, s.nodes[i]));
    assert NodeOk(s, i);
    AcceptorKept(s, t, i, e);
    OwnerInit(|s.nodes|, i);
    NothingOffered(s, t, i, e);
    BindingStays(s, t, i);
    if s.nodes[i].learner.informed {
      ChosenStable(s, t, i, s.nodes[i].learner.number, s.nodes[i].learner.value);
    }
    ToldFromParts(s, t, i, e);
  }

  lemma IdleTold(s: Inst, t: Inst, i: nat)
    requires Told(s) && i < |s.nodes| && Moves(s, t, i, Quiet(s.nodes[i]))
    ensures Told(t)
  {
    assert NodeOk(s, i);
    AcceptorKept(s, t, i, Quiet(s.nodes[i]));
    ProposerStays(s, t, i);
    LearnerStays(s, t, i, i);
    NothingOffered(s, t, i, Quiet(s.nodes[i]));
    BindingStays(s, t, i);
    ToldFromParts(s, t, i, Quiet(s.nodes[i]));
  }
}
