/** The proposer's part in release builds: what a counted majority is worth, stray promises
    included, and why a second value under one number closes that number in small deployments. */
module LooseRounds {
  import opened Wire
  import opened Roles
  import opened Consensus
  import opened Invariant
  import opened InvariantSteps
  import opened Loose
  import opened LooseSteps

  // ---- what a majority of promises says ----

  /** Acceptor a has promised c or more, and voted for nothing between h and what it promised. */
  ghost predicate Says(s: Inst, a: nat, c: nat, h: nat) {
    exists e: nat :: e >= c && PrepareAtLeast(s, a, e) && NoVotesBetween(s, a, h, e)
  }

  ghost predicate Quorum(s: Inst, q: set<nat>, h: nat, w: ProposalValue, c: nat) {
    Majority(|s.nodes|, q) && (forall a :: a in q ==> Says(s, a, c, h)) && (h > 0 ==> Offered(s, h, w))
  }

  lemma HeededSays(s: Inst, a: nat, c: nat, h: nat)
    requires Told(s) && Heeded(s, a, c, h)
    ensures Says(s, a, c, h)
  {
    var e: nat, d: nat, v :| e >= c && d <= h && Promised(s, a, e, d, v);
    assert PromiseInv(s, Packet(Owner(|s.nodes|, e), Message(PROMISE, s.seqno, a, d, v, e)));
    assert NoVotesBetween(s, a, h, e);
  }

  lemma ReportedWasOffered(s: Inst, q: set<nat>, c: nat, h: nat, w: ProposalValue)
    requires Told(s) && h > 0 && Reported(s, q, c, h, w)
    ensures Offered(s, h, w)
  {
    var a, e: nat :| a in q && e >= c && Promised(s, a, e, h, w);
    assert PromiseInv(s, Packet(Owner(|s.nodes|, e), Message(PROMISE, s.seqno, a, h, w, e)));
    VoteWasOffered(s, a, h, w);
  }

  /** Whatever q's majority reports, lower numbers are left without a choice. */
  lemma QuorumBinds(s: Inst, q: set<nat>, h: nat, w: ProposalValue, c: nat, b: nat)
    requires Told(s) && Numbers(s) && Quorum(s, q, h, w, c) && 0 < b < c
    ensures Only(s, b, w)
  {
    MajorityBlocks(|s.nodes|, q);
    if h > b {
      assert Offered(s, h, w);
    } else if h == b && Closed(s, b) {
      var x :| ClosedBy(s, x, b);
      forall a | a in x ensures PrepareAtLeast(s, a, b + 1) && VotesOnly(s, a, b, w) {
        assert Out(s, a, b);
      }
      assert OnlyBy(s, x, b, w);
    } else {
      forall a | a in q ensures PrepareAtLeast(s, a, b + 1) && VotesOnly(s, a, b, w) {
        SaysOnly(s, a, h, w, c, b);
      }
      assert OnlyBy(s, q, b, w);
    }
  }

  lemma SaysOnly(s: Inst, a: nat, h: nat, w: ProposalValue, c: nat, b: nat)
    requires Told(s) && Numbers(s) && Says(s, a, c, h) && 0 < b < c && h <= b
    requires h == b ==> Offered(s, b, w) && !Closed(s, b)
    ensures PrepareAtLeast(s, a, b + 1) && VotesOnly(s, a, b, w)
  {
    var e: nat :| e >= c && PrepareAtLeast(s, a, e) && NoVotesBetween(s, a, h, e);
    forall u | Voted(s, a, b, u) ensures u == w {
      VoteWasOffered(s, a, b, u);
      assert NumberOk(s, b);
    }
  }

  // ---- counting ----

  /** The proposer after counting p, which may be for a number ahead of its own. */
  predicate Counts(s: Inst, t: Inst, i: nat, p: Packet) {
    && i < |s.nodes| == |t.nodes| && p in s.sent && p.msg.kind.PROMISE? && p.dst == i
    && p.msg.extra >= s.nodes[i].proposer.current
    && var x, y := Absorb(s.nodes[i].proposer, p.msg), t.nodes[i].proposer;
    y == x || y == x.(majority := true)
  }

  lemma CountHeeds(s: Inst, t: Inst, i: nat, p: Packet)
    requires Told(s) && Counts(s, t, i, p)
    ensures var y := t.nodes[i].proposer;
            && (forall a :: a in y.promised ==> Heeded(s, a, y.current, y.highestNumber))
            && (y.highestNumber > 0 ==> Reported(s, y.promised, y.current, y.highestNumber, y.highestValue))
  {
    assert NodeOk(s, i) && PacketOk(s, p);
    var x, y, m := s.nodes[i].proposer, t.nodes[i].proposer, p.msg;
    assert p == Packet(Owner(|s.nodes|, m.extra), Message(PROMISE, s.seqno, m.fromId, m.number, m.value, m.extra));
    assert Promised(s, m.fromId, m.extra, m.number, m.value);
    forall a | a in y.promised ensures Heeded(s, a, y.current, y.highestNumber) {
      if a != m.fromId {
        var e: nat, c: nat, v :| e >= x.current && c <= x.highestNumber && Promised(s, a, e, c, v);
        assert Promised(s, a, e, c, v) && c <= y.highestNumber;
      }
    }
    if y.highestNumber > 0 && m.number <= x.highestNumber {
      var a, e: nat :| a in x.promised && e >= x.current && Promised(s, a, e, x.highestNumber, x.highestValue);
      assert a in y.promised && Promised(s, a, e, y.highestNumber, y.highestValue);
    }
  }

  lemma CountOfProposer(s: Inst, t: Inst, i: nat, p: Packet)
    requires Told(s) && Counts(s, t, i, p) && t.seqno == s.seqno && s.sent <= t.sent
    ensures ProposerOk(t, i)
  {
    CountHeeds(s, t, i, p);
    assert NodeOk(s, i);
    var y := t.nodes[i].proposer;
    forall a | a in y.promised ensures Heeded(t, a, y.current, y.highestNumber) {
      HeededStays(s, t, a, y.current, y.highestNumber);
    }
    if y.highestNumber > 0 {
      var a, e: nat :| a in y.promised && e >= y.current && Promised(s, a, e, y.highestNumber, y.highestValue);
      assert Promised(t, a, e, y.highestNumber, y.highestValue);
    }
  }

  lemma CountedQuorum(s: Inst, t: Inst, i: nat, p: Packet)
    requires Told(s) && Counts(s, t, i, p) && |t.nodes[i].proposer.promised| * 2 > |s.nodes|
    ensures var y := t.nodes[i].proposer; Quorum(s, y.promised, y.highestNumber, y.highestValue, y.current)
  {
    CountHeeds(s, t, i, p);
    var y := t.nodes[i].proposer;
    forall a | a in y.promised ensures a < |s.nodes| && Says(s, a, y.current, y.highestNumber) {
      HeededSays(s, a, y.current, y.highestNumber);
    }
    if y.highestNumber > 0 {
      ReportedWasOffered(s, y.promised, y.current, y.highestNumber, y.highestValue);
    }
  }

  // ---- proposing ----

  /** Everything e sends is the proposal of (c, w). */
  predicate Offers(e: Effect, id: nat, seqno: nat, c: nat, w: ProposalValue) {
    forall r :: r in e.out ==> r.msg == Message(ACCEPT, seqno, id, c, w, r.msg.extra)
  }

  lemma NewOffer(s: Inst, t: Inst, i: nat, e: Effect, c: nat, w: ProposalValue)
    requires Moves(s, t, i, e) && Offers(e, i, s.seqno, c, w)
    ensures forall b: nat, v :: Offered(t, b, v) ==> Offered(s, b, v) || (b == c && v == w)
  {
    forall b: nat, v | Offered(t, b, v) ensures Offered(s, b, v) || (b == c && v == w) {
      var x: nat :| OfferedBy(t, b, v, x);
      assert OfferedBy(s, b, v, x) || (b == c && v == w);
    }
  }

  lemma OfferBinds(s: Inst, t: Inst, i: nat, e: Effect, q: set<nat>, h: nat, w: ProposalValue, c: nat)
    requires Told(s) && Numbers(s) && Moves(s, t, i, e) && Extends(s, t, i) && Offers(e, i, s.seqno, c, w)
    requires Quorum(s, q, h, w, c)
    ensures Binding(t)
  {
    NewOffer(s, t, i, e, c, w);
    forall b: nat, d: nat, v | 0 < b < d && Offered(t, d, v) ensures Only(t, b, v) {
      if !Offered(s, d, v) {
        QuorumBinds(s, q, h, w, c, b);
      }
      OnlyStays(s, t, i, b, v);
    }
  }

  lemma PromiseShape(n: nat, id: nat, x: Node, m: Message)
    requires n > 0 && m.extra >= x.proposer.current
    ensures var e := HandlePromise(n, id, x, m);
            var y := e.node.proposer;
            && (y == Absorb(x.proposer, m) || y == Absorb(x.proposer, m).(majority := true))
            && e.node.acceptor == x.acceptor && e.node.learner == x.learner
            && Offers(e, id, m.sequence, y.current, y.highestValue)
            && (e.out == [] ==> e.node.timer == x.timer && y.majority == x.proposer.majority)
            && (e.out != [] ==> !x.proposer.majority && y.majority && |y.promised| * 2 > n
                                && e.node.timer.Some? && e.node.timer.value.sequence == m.sequence
                                && Packet(0, e.node.timer.value) in e.out
                                && forall r :: r in e.out ==> r.dst < n)
  {
    var accept := OnPromise(n, x.proposer, m).1;
    if accept.Some? {
      assert Packet(0, accept.value.(fromId := id)) in Broadcast(n, accept.value.(fromId := id));
    }
  }

  lemma PromiseTold(s: Inst, t: Inst, i: nat, p: Packet)
    requires Told(s) && Numbers(s) && i < |s.nodes| && p in s.sent && p.msg.kind.PROMISE? && p.dst == i
    requires Moves(s, t, i, HandlePromise(|s.nodes|, i, s.nodes[i], p.msg))
    ensures Told(t)
  {
    var e := HandlePromise(|s.nodes|, i, s.nodes[i], p.msg);
    assert NodeOk(s, i) && PacketOk(s, p);
    if p.msg.extra < s.nodes[i].proposer.current {
      IdleTold(s, t, i);
    } else {
      PromiseShape(|s.nodes|, i, s.nodes[i], p.msg);
      AcceptorKept(s, t, i, e);
      LearnerStays(s, t, i, i);
      CountOfProposer(s, t, i, p);
      if e.out == [] {
        NothingOffered(s, t, i, e);
        BindingStays(s, t, i);
      } else {
        CountedQuorum(s, t, i, p);
        var y := t.nodes[i].proposer;
        OfferBinds(s, t, i, e, y.promised, y.highestNumber, y.highestValue, y.current);
        OfferIsOk(s, t, i, e, y.current, y.highestValue);
      }
      ToldFromParts(s, t, i, e);
    }
  }

  lemma OfferIsOk(s: Inst, t: Inst, i: nat, e: Effect, c: nat, w: ProposalValue)
    requires |s.nodes| > 0 && Moves(s, t, i, e) && Offers(e, i, s.seqno, c, w) && Owner(|s.nodes|, c) == i && c > 0
    requires forall r :: r in e.out ==> r.dst < |s.nodes|
    requires e.node.timer.Some? && Packet(0, e.node.timer.value) in e.out
    ensures forall r :: r in e.out ==> PacketOk(t, r)
  {
    var r := Packet(0, e.node.timer.value);
    assert OfferedBy(t, c, w, r.msg.extra);
    assert Offered(t, c, w);
  }
}
