/** Every handler preserves the invariant: one lemma per handler, each for an arbitrary server,
    packet and reachable-looking state. */
module InvariantSteps {
  import opened Wire
  import opened Roles
  import opened Consensus
  import opened Invariant

  /** t is s after server i finished a handler with effect e; packets in flight aside. */
  predicate Moves(s: Inst, t: Inst, i: nat, e: Effect) {
    && i < |s.nodes|
    && t.seqno == s.seqno
    && t.nodes == s.nodes[i := e.node]
    && t.sent == s.sent + SetOf(e.out)
  }

  predicate NoNewVotes(e: Effect) {
    forall p :: p in e.out ==> !p.msg.kind.ACCEPTED?
  }

  /** The invariant apart from the packets in flight. */
  ghost predicate CoreAt(s: Inst) {
    && |s.nodes| > 0
    && (forall p :: p in s.sent ==> PacketInv(s, p))
    && forall i :: 0 <= i < |s.nodes| ==> NodeInv(s, i)
  }

  lemma CoreFromParts(s: Inst, t: Inst, i: nat, e: Effect)
    requires CoreAt(s) && Moves(s, t, i, e) && Extends(s, t, i)
    requires NodeInv(t, i)
    requires forall p :: p in e.out ==> PacketInv(t, p)
    ensures CoreAt(t)
  {
    forall p | p in t.sent ensures PacketInv(t, p) {
      if p in s.sent {
        PacketStable(s, t, i, p);
      }
    }
    forall j | 0 <= j < |t.nodes| ensures NodeInv(t, j) {
      if j != i {
        NodeStable(s, t, i, j);
      }
    }
  }

  lemma QuietExtends(s: Inst, t: Inst, i: nat, e: Effect)
    requires Moves(s, t, i, e) && NoNewVotes(e)
    requires s.nodes[i].acceptor.prepare <= e.node.acceptor.prepare
    ensures Extends(s, t, i)
    ensures forall a: nat, d: nat, u :: Voted(t, a, d, u) ==> Voted(s, a, d, u)
  {
  }

  lemma AcceptorKept(s: Inst, t: Inst, i: nat, e: Effect)
    requires Moves(s, t, i, e) && NoNewVotes(e) && AcceptorInv(s, i)
    requires e.node.acceptor == s.nodes[i].acceptor
    ensures Extends(s, t, i) && AcceptorInv(t, i)
  {
    QuietExtends(s, t, i, e);
    var x := s.nodes[i].acceptor;
    assert x.number > 0 ==> Voted(s, i, x.number, x.value);
  }

  // ---- proposer ----

  lemma OwnerNext(n: nat, b: nat)
    ensures Owner(n, b + n) == Owner(n, b)
  {
  }

  lemma SubmitCore(s: Inst, t: Inst, i: nat, node: Node, m: Message)
    requires CoreAt(s) && i < |s.nodes| && m.sequence == s.seqno
    requires node.acceptor == s.nodes[i].acceptor && node.learner == s.nodes[i].learner
    requires node.timer.Some? ==> node.timer.value.sequence == s.seqno
    requires ProposerInv(s.(nodes := s.nodes[i := node]), i)
    requires Moves(s, t, i, Submit(|s.nodes|, i, node, m))
    ensures CoreAt(t)
  {
    var e := Submit(|s.nodes|, i, node, m);
    assert NodeInv(s, i);
    AcceptorKept(s, t, i, e);
    LearnerStable(s, t, i, i);
    if Decided(node.learner) {
      ProposerMoved(s.(nodes := s.nodes[i := node]), t, i);
    } else {
      FreshRound(t, i, node.proposer.current);
    }
    SubmitPackets(s, t, i, node, m);
    CoreFromParts(s, t, i, e);
  }

  lemma SubmitPackets(s: Inst, t: Inst, i: nat, node: Node, m: Message)
    requires i < |s.nodes| && m.sequence == s.seqno
    requires ProposerInv(s.(nodes := s.nodes[i := node]), i)
    requires Moves(s, t, i, Submit(|s.nodes|, i, node, m))
    ensures forall r :: r in Submit(|s.nodes|, i, node, m).out ==> PacketInv(t, r)
  {
    OwnerNext(|s.nodes|, node.proposer.current);
  }

  lemma FreshRound(t: Inst, i: nat, b: nat)
    requires i < |t.nodes| && Owner(|t.nodes|, b) == i
    requires var x := t.nodes[i].proposer;
             x.current == b + |t.nodes| && x.highestNumber == 0 && x.promised == {} && x.denied == {}
    ensures ProposerInv(t, i)
  {
    OwnerNext(|t.nodes|, b);
  }

  /** A proposer's invariant reads only the history and that proposer; the denials it counts
      are nobody else's business. */
  lemma ProposerMoved(u: Inst, t: Inst, i: nat)
    requires i < |u.nodes| == |t.nodes| && u.seqno == t.seqno && u.sent <= t.sent
    requires t.nodes[i].proposer == u.nodes[i].proposer.(denied := t.nodes[i].proposer.denied)
    requires forall a :: a in t.nodes[i].proposer.denied ==> a < |t.nodes|
    requires ProposerInv(u, i)
    ensures ProposerInv(t, i)
  {
    var x := u.nodes[i].proposer;
    forall a | a in x.promised ensures Absorbed(t, a, x.current, x.highestNumber) {
      var c: nat, v :| Promised(u, a, x.current, c, v) && c <= x.highestNumber;
      assert Promised(t, a, x.current, c, v);
    }
    if x.highestNumber > 0 {
      var a :| a in x.promised && Promised(u, a, x.current, x.highestNumber, x.highestValue);
      assert Promised(t, a, x.current, x.highestNumber, x.highestValue);
    }
  }

  /** Absorbing a promise for the current number keeps the proposer's bookkeeping right. */
  lemma AbsorbKeeps(s: Inst, u: Inst, i: nat, p: Packet)
    requires CoreAt(s) && i < |s.nodes| && p in s.sent && p.msg.kind.PROMISE?
    requires p.msg.extra == s.nodes[i].proposer.current
    requires |u.nodes| == |s.nodes| && u.seqno == s.seqno && s.sent <= u.sent
    requires var x, y := Absorb(s.nodes[i].proposer, p.msg), u.nodes[i].proposer;
             y == x || y == x.(majority := true)
    ensures ProposerInv(u, i)
  {
    assert NodeInv(s, i) && PacketInv(s, p);
    var x, y, m := s.nodes[i].proposer, u.nodes[i].proposer, p.msg;
    assert p == Packet(Owner(|s.nodes|, m.extra), Message(PROMISE, s.seqno, m.fromId, m.number, m.value, m.extra));
    assert Promised(u, m.fromId, x.current, m.number, m.value);
    forall a | a in y.promised ensures Absorbed(u, a, y.current, y.highestNumber) {
      if a != m.fromId {
        var c: nat, v :| Promised(s, a, x.current, c, v) && c <= x.highestNumber;
        assert Promised(u, a, x.current, c, v);
      }
    }
    if y.highestNumber > 0 && m.number <= x.highestNumber {
      var a :| a in x.promised && Promised(s, a, x.current, x.highestNumber, x.highestValue);
      assert Promised(u, a, y.current, y.highestNumber, y.highestValue);
    }
  }

  /** A majority of promises for b, with h the highest reported number, shows b safe. */
  lemma PromisesShow(s: Inst, i: nat)
    requires |s.nodes| > 0 && i < |s.nodes| && ProposerInv(s, i)
    requires forall p :: p in s.sent && p.msg.kind.PROMISE? ==> PacketInv(s, p)
    requires |s.nodes[i].proposer.promised| * 2 > |s.nodes|
    ensures var x := s.nodes[i].proposer; Safe(s, x.current, x.highestValue)
  {
    var x := s.nodes[i].proposer;
    var q, b, h := x.promised, x.current, x.highestNumber;
    forall a | a in q ensures PrepareAtLeast(s, a, b) && NoVotesBetween(s, a, h, b) {
      PromiseTells(s, a, b, h);
    }
    var w: nat := 0;
    if h > 0 {
      w :| w in q && Promised(s, w, b, h, x.highestValue);
      assert PromiseInv(s, Packet(Owner(|s.nodes|, b), Message(PROMISE, s.seqno, w, h, x.highestValue, b)));
    }
    assert Shows(s, q, w, h, b, x.highestValue);
  }

  lemma PromiseTells(s: Inst, a: nat, b: nat, h: nat)
    requires |s.nodes| > 0 && Absorbed(s, a, b, h)
    requires forall p :: p in s.sent && p.msg.kind.PROMISE? ==> PacketInv(s, p)
    ensures PrepareAtLeast(s, a, b) && NoVotesBetween(s, a, h, b)
  {
    var c: nat, v :| Promised(s, a, b, c, v) && c <= h;
    assert PromiseInv(s, Packet(Owner(|s.nodes|, b), Message(PROMISE, s.seqno, a, c, v, b)));
  }

  lemma PromiseCore(s: Inst, t: Inst, i: nat, p: Packet)
    requires CoreAt(s) && i < |s.nodes| && p in s.sent && p.msg.kind.PROMISE?
    requires p.msg.extra <= s.nodes[i].proposer.current
    requires Moves(s, t, i, HandlePromise(|s.nodes|, i, s.nodes[i], p.msg))
    ensures CoreAt(t)
  {
    var n := |s.nodes|;
    var e := HandlePromise(n, i, s.nodes[i], p.msg);
    assert NodeInv(s, i) && PacketInv(s, p);
    AcceptorKept(s, t, i, e);
    LearnerStable(s, t, i, i);
    if p.msg.extra < s.nodes[i].proposer.current {
      ProposerStable(s, t, i, i);
    } else {
      AbsorbKeeps(s, t, i, p);
      if OnPromise(n, s.nodes[i].proposer, p.msg).1.Some? {
        AcceptIsSafe(s, t, i, p);
      }
    }
    CoreFromParts(s, t, i, e);
  }

  lemma AcceptIsSafe(s: Inst, t: Inst, i: nat, p: Packet)
    requires CoreAt(s) && i < |s.nodes| && p in s.sent && p.msg.kind.PROMISE?
    requires p.msg.extra == s.nodes[i].proposer.current
    requires OnPromise(|s.nodes|, s.nodes[i].proposer, p.msg).1.Some?
    requires Moves(s, t, i, HandlePromise(|s.nodes|, i, s.nodes[i], p.msg))
    ensures forall r :: r in HandlePromise(|s.nodes|, i, s.nodes[i], p.msg).out ==> PacketInv(t, r)
  {
    var e := HandlePromise(|s.nodes|, i, s.nodes[i], p.msg);
    assert NodeInv(s, i) && PacketInv(s, p);
    MajorityIsSafe(s, t, i, p);
    forall r | r in e.out ensures PacketInv(t, r) {
      assert Packet(0, r.msg) in e.out;
      assert Proposed(t, r.msg.number, r.msg.value);
    }
  }

  /** All promises counted are in the history before the broadcast, and show the value safe. */
  lemma MajorityIsSafe(s: Inst, t: Inst, i: nat, p: Packet)
    requires CoreAt(s) && i < |s.nodes| && p in s.sent && p.msg.kind.PROMISE?
    requires p.msg.extra == s.nodes[i].proposer.current
    requires OnPromise(|s.nodes|, s.nodes[i].proposer, p.msg).1.Some?
    requires Moves(s, t, i, HandlePromise(|s.nodes|, i, s.nodes[i], p.msg))
    ensures Safe(t, t.nodes[i].proposer.current, t.nodes[i].proposer.highestValue)
  {
    var e := HandlePromise(|s.nodes|, i, s.nodes[i], p.msg);
    var u := s.(nodes := s.nodes[i := e.node]);
    AbsorbKeeps(s, u, i, p);
    SilentStep(s, u, i, Quiet(e.node));
    PromisesShow(u, i);
    QuietExtends(u, t, i, e);
    SafeStable(u, t, i, e.node.proposer.current, e.node.proposer.highestValue);
  }

  lemma SilentStep(s: Inst, u: Inst, i: nat, e: Effect)
    requires CoreAt(s) && Moves(s, u, i, e) && e.out == []
    requires e.node.acceptor == s.nodes[i].acceptor
    ensures forall r :: r in u.sent ==> PacketInv(u, r)
  {
    QuietExtends(s, u, i, e);
    forall r | r in u.sent ensures PacketInv(u, r) {
      PacketStable(s, u, i, r);
    }
  }

  lemma DenialCore(s: Inst, t: Inst, i: nat, p: Packet)
    requires CoreAt(s) && i < |s.nodes| && p in s.sent && p.msg.kind.DENIAL?
    requires Moves(s, t, i, HandleDenial(|s.nodes|, i, s.nodes[i], p.msg))
    ensures CoreAt(t)
  {
    var n := |s.nodes|;
    var e := HandleDenial(n, i, s.nodes[i], p.msg);
    assert NodeInv(s, i) && PacketInv(s, p);
    var (q, resubmit) := OnDenial(n, s.nodes[i].proposer, p.msg);
    if resubmit.None? {
      AcceptorKept(s, t, i, e);
      LearnerStable(s, t, i, i);
      ProposerMoved(s, t, i);
      CoreFromParts(s, t, i, e);
    } else {
      var node := s.nodes[i].(proposer := q, timer := None);
      ProposerMoved(s, s.(nodes := s.nodes[i := node]), i);
      SubmitCore(s, t, i, node, resubmit.value);
    }
  }

  // ---- acceptor ----

  lemma PrepareCore(recovery: bool, s: Inst, t: Inst, i: nat, p: Packet)
    requires CoreAt(s) && i < |s.nodes| && p in s.sent && p.msg.kind.PREPARE?
    requires Moves(s, t, i, HandlePrepare(recovery, i, s.nodes[i], p.msg))
    ensures CoreAt(t)
  {
    var e := HandlePrepare(recovery, i, s.nodes[i], p.msg);
    assert NodeInv(s, i) && PacketInv(s, p);
    QuietExtends(s, t, i, e);
    ProposerStable(s, t, i, i);
    LearnerStable(s, t, i, i);
    var x := s.nodes[i].acceptor;
    assert x.number > 0 ==> Voted(s, i, x.number, x.value);
    assert AcceptorInv(t, i);
    PrepareReply(recovery, s, t, i, p);
    CoreFromParts(s, t, i, e);
  }

  lemma PrepareReply(recovery: bool, s: Inst, t: Inst, i: nat, p: Packet)
    requires CoreAt(s) && i < |s.nodes| && p in s.sent && p.msg.kind.PREPARE?
    requires Moves(s, t, i, HandlePrepare(recovery, i, s.nodes[i], p.msg))
    requires Extends(s, t, i) && AcceptorInv(t, i) && LearnerInv(t, i)
    ensures PacketInv(t, HandlePrepare(recovery, i, s.nodes[i], p.msg).out[0])
  {
    assert NodeInv(s, i) && PacketInv(s, p);
    var x := t.nodes[i].acceptor;
    assert x.number > 0 ==> Voted(t, i, x.number, x.value);
  }

  /** Accepting is the one step that votes. */
  lemma AcceptCore(recovery: bool, s: Inst, t: Inst, i: nat, p: Packet)
    requires CoreAt(s) && i < |s.nodes| && p in s.sent && p.msg.kind.ACCEPT?
    requires Moves(s, t, i, HandleAccept(recovery, i, s.nodes[i], p.msg))
    ensures CoreAt(t)
  {
    var e := HandleAccept(recovery, i, s.nodes[i], p.msg);
    assert NodeInv(s, i) && PacketInv(s, p);
    AcceptVotes(recovery, s, t, i, p);
    ProposerStable(s, t, i, i);
    LearnerStable(s, t, i, i);
    assert Proposed(s, p.msg.number, p.msg.value);
    assert Proposed(t, p.msg.number, p.msg.value);
    CoreFromParts(s, t, i, e);
  }

  lemma AcceptVotes(recovery: bool, s: Inst, t: Inst, i: nat, p: Packet)
    requires i < |s.nodes| && AcceptorInv(s, i) && p.msg.kind.ACCEPT? && PacketInv(s, p)
    requires Moves(s, t, i, HandleAccept(recovery, i, s.nodes[i], p.msg))
    ensures Extends(s, t, i) && AcceptorInv(t, i)
  {
    var x, y := s.nodes[i].acceptor, t.nodes[i].acceptor;
    var r := HandleAccept(recovery, i, s.nodes[i], p.msg).out[0];
    assert t.sent == s.sent + {r};
    assert x.number > 0 ==> Voted(s, i, x.number, x.value);
    forall a: nat, d: nat, u | Voted(t, a, d, u) && !Voted(s, a, d, u)
      ensures a == i && PrepareAtMost(s, a, d) && d == y.number
    {
    }
    if r.msg.kind.ACCEPTED? {
      assert Voted(t, i, y.number, y.value);
    }
  }

  // ---- learner ----

  lemma AcceptedCore(s: Inst, t: Inst, i: nat, p: Packet)
    requires CoreAt(s) && OneValue(s) && i < |s.nodes| && p in s.sent && p.msg.kind.ACCEPTED?
    requires Moves(s, t, i, HandleAccepted(|s.nodes|, i, s.nodes[i], p.msg))
    ensures CoreAt(t)
  {
    var e := HandleAccepted(|s.nodes|, i, s.nodes[i], p.msg);
    assert NodeInv(s, i) && PacketInv(s, p);
    AcceptorKept(s, t, i, e);
    ProposerStable(s, t, i, i);
    if Decided(s.nodes[i].learner) || p.msg.number < s.nodes[i].learner.number {
      LearnerStable(s, t, i, i);
    } else {
      CountKeeps(s, t, i, p);
    }
    CoreFromParts(s, t, i, e);
  }

  /** The bits a learner sets always belong to servers that voted for what it is counting. */
  lemma CountKeeps(s: Inst, t: Inst, i: nat, p: Packet)
    requires CoreAt(s) && OneValue(s) && i < |s.nodes| && p in s.sent && p.msg.kind.ACCEPTED?
    requires !Decided(s.nodes[i].learner) && p.msg.number >= s.nodes[i].learner.number
    requires |t.nodes| == |s.nodes| && t.seqno == s.seqno && s.sent <= t.sent
    requires t.nodes[i].learner == OnAccepted(|s.nodes|, s.nodes[i].learner, p.msg).0
    ensures LearnerInv(t, i)
  {
    assert NodeInv(s, i) && PacketInv(s, p);
    var x, y, m := s.nodes[i].learner, t.nodes[i].learner, p.msg;
    assert p == Packet(Owner(|s.nodes|, m.number), Message(ACCEPTED, s.seqno, m.fromId, m.number, m.value, m.number));
    assert Voted(t, m.fromId, m.number, m.value);
    assert Proposed(s, m.number, m.value);
    assert Proposed(t, m.number, m.value);
    if m.number == x.number {
      assert Proposed(s, x.number, x.value);
    }
    forall a | a in y.accepted ensures a < |t.nodes| && Voted(t, a, y.number, y.value) {
      if a != m.fromId {
        assert Voted(s, a, x.number, x.value);
      }
    }
    if y.learned {
      assert AllVoted(t, y.accepted, y.number, y.value);
    }
  }

  lemma InformCore(recovery: bool, s: Inst, t: Inst, i: nat, p: Packet)
    requires CoreAt(s) && i < |s.nodes| && p in s.sent && p.msg.kind.INFORM?
    requires Moves(s, t, i, HandleInform(recovery, s.nodes[i], p.msg))
    ensures CoreAt(t)
  {
    var e := HandleInform(recovery, s.nodes[i], p.msg);
    assert NodeInv(s, i) && PacketInv(s, p);
    AcceptorKept(s, t, i, e);
    ProposerStable(s, t, i, i);
    ChosenStable(s, t, i, p.msg.number, p.msg.value);
    if s.nodes[i].learner.informed {
      LearnerStable(s, t, i, i);
    }
    CoreFromParts(s, t, i, e);
  }

  // ---- restart ----

  lemma OwnerInit(n: nat, i: nat)
    requires i < n
    ensures Owner(n, i + n) == i
  {
  }

  /** Coming back from the logs: the acceptor and an informed learner are as they were. */
  lemma RestartCore(s: Inst, t: Inst, i: nat)
    requires CoreAt(s) && i < |s.nodes| && DiskInv(s.nodes[i])
    requires Moves(s, t, i, Quiet(Restart(|s.nodes|, i, s.nodes[i])))
    ensures CoreAt(t)
  {
    var e := Quiet(Restart(|s.nodes|, i, s.nodes[i]));
    assert NodeInv(s, i);
    AcceptorKept(s, t, i, e);
    OwnerInit(|s.nodes|, i);
    if s.nodes[i].learner.informed {
      ChosenStable(s, t, i, s.nodes[i].learner.number, s.nodes[i].learner.value);
    }
    CoreFromParts(s, t, i, e);
  }
}
