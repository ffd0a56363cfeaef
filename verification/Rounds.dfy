/** Why two proposals never share a number. Without crashes the reason is that a proposer's
    numbers only grow; with crashes it restarts at an old number, and the reason is that every
    promise is made once and delivered once. */
module Rounds {
  import opened Wire
  import opened Roles
  import opened Consensus
  import opened Invariant
  import opened InvariantSteps

  predicate NoProposals(e: Effect) {
    forall p :: p in e.out ==> !p.msg.kind.ACCEPT?
  }

  lemma NoNewProposals(s: Inst, t: Inst, i: nat, e: Effect)
    requires Moves(s, t, i, e) && NoProposals(e)
    ensures forall b: nat, v :: Proposed(t, b, v) ==> Proposed(s, b, v)
    ensures OneValue(s) ==> OneValue(t)
  {
  }

  /** The first proposal for its number leaves at most one value per number. */
  lemma FirstProposal(s: Inst, t: Inst, i: nat, e: Effect, m: Message)
    requires Moves(s, t, i, e) && OneValue(s)
    requires forall p :: p in e.out ==> p.msg == m
    requires forall v :: !Proposed(s, m.number, v)
    ensures OneValue(t)
    ensures forall b: nat, v :: Proposed(t, b, v) ==> Proposed(s, b, v) || b == m.number
  {
    forall b: nat, v | Proposed(t, b, v) ensures Proposed(s, b, v) || (b == m.number && v == m.value) {
    }
  }

  // ---- no crashes: numbers only grow ----

  /** No packet mentions a round its proposer has not reached. */
  predicate NotAhead(s: Inst, p: Packet) {
    match p.msg.kind
    case PREPARE => p.msg.fromId < |s.nodes| && p.msg.number <= s.nodes[p.msg.fromId].proposer.current
    case ACCEPT => p.msg.fromId < |s.nodes| && p.msg.number <= s.nodes[p.msg.fromId].proposer.current
    case PROMISE => p.dst < |s.nodes| && ReplyAssertion(s.nodes[p.dst].proposer, p.msg)
    case DENIAL => p.dst < |s.nodes| && ReplyAssertion(s.nodes[p.dst].proposer, p.msg)
    case _ => true
  }

  /** The proposer of number b has moved past it or has already spent its majority. */
  predicate RoundOver(s: Inst, b: nat) {
    var o := Owner(|s.nodes|, b);
    && o < |s.nodes|
    && (b < s.nodes[o].proposer.current || (b == s.nodes[o].proposer.current && s.nodes[o].proposer.majority))
  }

  ghost predicate Growing(s: Inst) {
    && (forall p :: p in s.sent ==> NotAhead(s, p))
    && forall b: nat, v :: Proposed(s, b, v) ==> RoundOver(s, b)
  }

  /** From x to y a proposer's number does not fall, and within a number its flag does not. */
  predicate Advances(x: ProposerState, y: ProposerState) {
    x.current <= y.current && (x.current == y.current && x.majority ==> y.majority)
  }

  lemma GrowingStep(s: Inst, t: Inst, i: nat, e: Effect)
    requires Growing(s) && Moves(s, t, i, e) && NoProposals(e)
    requires Advances(s.nodes[i].proposer, e.node.proposer)
    requires forall p :: p in e.out ==> NotAhead(t, p)
    ensures Growing(t)
  {
    NoNewProposals(s, t, i, e);
    forall p | p in t.sent ensures NotAhead(t, p) {
      if p in s.sent {
        assert NotAhead(s, p);
      }
    }
    forall b: nat, v | Proposed(t, b, v) ensures RoundOver(t, b) {
      assert RoundOver(s, b);
    }
  }

  lemma SubmitGrows(s: Inst, t: Inst, i: nat, node: Node, m: Message)
    requires Growing(s) && i < |s.nodes|
    requires node.proposer == s.nodes[i].proposer.(denied := node.proposer.denied)
    requires Moves(s, t, i, Submit(|s.nodes|, i, node, m))
    ensures Growing(t)
    ensures OneValue(s) ==> OneValue(t)
  {
    var e := Submit(|s.nodes|, i, node, m);
    NoNewProposals(s, t, i, e);
    GrowingStep(s, t, i, e);
  }

  lemma DenialGrows(s: Inst, t: Inst, i: nat, p: Packet)
    requires Growing(s) && i < |s.nodes|
    requires Moves(s, t, i, HandleDenial(|s.nodes|, i, s.nodes[i], p.msg))
    ensures Growing(t)
    ensures OneValue(s) ==> OneValue(t)
  {
    var e := HandleDenial(|s.nodes|, i, s.nodes[i], p.msg);
    var (q, resubmit) := OnDenial(|s.nodes|, s.nodes[i].proposer, p.msg);
    if resubmit.Some? {
      SubmitGrows(s, t, i, s.nodes[i].(proposer := q, timer := None), resubmit.value);
    } else {
      NoNewProposals(s, t, i, e);
      GrowingStep(s, t, i, e);
    }
  }

  /** Replies and learner steps leave the proposer alone. */
  lemma OthersGrow(s: Inst, t: Inst, i: nat, e: Effect)
    requires Growing(s) && Moves(s, t, i, e) && NoProposals(e)
    requires e.node.proposer == s.nodes[i].proposer
    requires forall p :: p in e.out ==> NotAhead(s, p)
    ensures Growing(t)
    ensures OneValue(s) ==> OneValue(t)
  {
    NoNewProposals(s, t, i, e);
    forall p | p in e.out ensures NotAhead(t, p) {
      assert NotAhead(s, p);
    }
    GrowingStep(s, t, i, e);
  }

  lemma PromiseGrows(s: Inst, t: Inst, i: nat, p: Packet)
    requires CoreAt(s) && Growing(s) && OneValue(s) && i < |s.nodes| && p in s.sent && p.dst == i
    requires p.msg.kind.PROMISE?
    requires Moves(s, t, i, HandlePromise(|s.nodes|, i, s.nodes[i], p.msg))
    ensures Growing(t) && OneValue(t)
  {
    var e := HandlePromise(|s.nodes|, i, s.nodes[i], p.msg);
    assert NotAhead(s, p) && NodeInv(s, i);
    if OnPromise(|s.nodes|, s.nodes[i].proposer, p.msg).1.None? {
      NoNewProposals(s, t, i, e);
      GrowingStep(s, t, i, e);
    } else {
      var m := e.node.timer.value;
      forall v ensures !Proposed(s, m.number, v) {
        assert !RoundOver(s, m.number);
      }
      FirstProposal(s, t, i, e, m);
      ProposalGrows(s, t, i, e, m);
    }
  }

  lemma ProposalGrows(s: Inst, t: Inst, i: nat, e: Effect, m: Message)
    requires Growing(s) && Moves(s, t, i, e)
    requires forall p :: p in e.out ==> p.msg == m
    requires m.kind.ACCEPT? && m.fromId == i && Owner(|s.nodes|, m.number) == i
    requires m.number == e.node.proposer.current == s.nodes[i].proposer.current && e.node.proposer.majority
    requires forall b: nat, v :: Proposed(t, b, v) ==> Proposed(s, b, v) || b == m.number
    ensures Growing(t)
  {
    forall p | p in t.sent ensures NotAhead(t, p) {
      if p in s.sent {
        assert NotAhead(s, p);
      }
    }
    forall b: nat, v | Proposed(t, b, v) ensures RoundOver(t, b) {
      if b != m.number {
        assert RoundOver(s, b);
      }
    }
  }

  // ---- crashes: a promise is made once, delivered once ----

  predicate SamePromise(p: Packet, a: nat, b: nat) {
    p.msg.kind.PROMISE? && p.msg.fromId == a && p.msg.extra == b
  }

  ghost predicate MadeOnce(s: Inst) {
    && (forall p, r :: p in s.sent && r in s.sent && p.msg.kind.PROMISE? && SamePromise(r, p.msg.fromId, p.msg.extra)
          ==> p == r)
    && forall p :: p in s.flight && p.msg.kind.PROMISE? ==> s.flight[p] == 1
  }

  ghost predicate Undelivered(s: Inst) {
    forall p :: p in s.flight && p.msg.kind.PROMISE? ==> NotCounted(s, p.dst, p.msg.fromId, p.msg.extra)
  }

  /** Proposer o is not counting a towards number b. */
  predicate NotCounted(s: Inst, o: nat, a: nat, b: nat) {
    o < |s.nodes| && (s.nodes[o].proposer.current == b ==> a !in s.nodes[o].proposer.promised)
  }

  ghost predicate Gone(s: Inst, a: nat, b: nat) {
    forall p :: p in s.flight ==> !SamePromise(p, a, b)
  }

  /** Proposer of b is not at b with its majority still to come, or does not count a. */
  predicate Used(s: Inst, a: nat, b: nat) {
    var o := Owner(|s.nodes|, b);
    o < |s.nodes| && (s.nodes[o].proposer.majority || NotCounted(s, o, a, b))
  }

  /** Majority q's promises for b were made and are gone for good. */
  ghost predicate SpentBy(s: Inst, q: set<nat>, b: nat) {
    Majority(|s.nodes|, q) && forall a :: a in q ==> PrepareAtLeast(s, a, b) && Gone(s, a, b) && Used(s, a, b)
  }

  ghost predicate Spent(s: Inst, b: nat) {
    exists q :: SpentBy(s, q, b)
  }

  ghost predicate Once(s: Inst) {
    MadeOnce(s) && Undelivered(s) && forall b: nat, v :: Proposed(s, b, v) ==> Spent(s, b)
  }

  /** A step that neither promises, proposes, nor counts a promise. */
  predicate Calm(x: ProposerState, y: ProposerState) {
    y.promised == {} || (y.current == x.current && y.promised == x.promised && y.majority == x.majority)
  }

  predicate NoPromises(e: Effect) {
    forall p :: p in e.out ==> !p.msg.kind.PROMISE?
  }

  lemma SpentKept(s: Inst, t: Inst, b: nat)
    requires Spent(s, b)
    requires |t.nodes| == |s.nodes|
    requires forall a :: PrepareAtLeast(s, a, b) && Gone(s, a, b) && Used(s, a, b)
               ==> PrepareAtLeast(t, a, b) && Gone(t, a, b) && Used(t, a, b)
    ensures Spent(t, b)
  {
    var q :| SpentBy(s, q, b);
    assert SpentBy(t, q, b);
  }

  lemma CalmOnce(s: Inst, t: Inst, i: nat, e: Effect)
    requires Once(s) && OneValue(s) && Moves(s, t, i, e) && NoPromises(e) && NoProposals(e)
    requires t.flight == s.flight + multiset(e.out)
    requires Calm(s.nodes[i].proposer, e.node.proposer)
    requires s.nodes[i].acceptor.prepare <= e.node.acceptor.prepare
    ensures Once(t) && OneValue(t)
  {
    NoNewProposals(s, t, i, e);
    CalmMade(s, t, i, e);
    forall b: nat, v | Proposed(t, b, v) ensures Spent(t, b) {
      assert Proposed(s, b, v);
      SpentKept(s, t, b);
    }
  }

  lemma CalmMade(s: Inst, t: Inst, i: nat, e: Effect)
    requires MadeOnce(s) && Undelivered(s) && Moves(s, t, i, e) && NoPromises(e)
    requires t.flight == s.flight + multiset(e.out)
    requires Calm(s.nodes[i].proposer, e.node.proposer)
    ensures MadeOnce(t) && Undelivered(t)
    ensures forall a: nat, b: nat :: Gone(s, a, b) ==> Gone(t, a, b)
  {
    forall p | p in t.flight && p.msg.kind.PROMISE? ensures p in s.flight && t.flight[p] == s.flight[p] {
      assert p !in e.out;
    }
    forall p | p in t.flight && p.msg.kind.PROMISE? ensures NotCounted(t, p.dst, p.msg.fromId, p.msg.extra) {
      assert NotCounted(s, p.dst, p.msg.fromId, p.msg.extra);
    }
  }

  /** A fresh promise: its number is above everything this acceptor promised before. */
  lemma PrepareOnce(recovery: bool, s: Inst, t: Inst, i: nat, p: Packet)
    requires CoreAt(s) && Once(s) && OneValue(s) && i < |s.nodes| && p in s.sent && p.msg.kind.PREPARE?
    requires forall r :: r in s.flight ==> r in s.sent
    requires Moves(s, t, i, HandlePrepare(recovery, i, s.nodes[i], p.msg))
    requires t.flight == s.flight + multiset(HandlePrepare(recovery, i, s.nodes[i], p.msg).out)
    ensures Once(t) && OneValue(t)
  {
    var e := HandlePrepare(recovery, i, s.nodes[i], p.msg);
    var r := e.out[0];
    assert NodeInv(s, i) && PacketInv(s, p);
    if r.msg.kind.PROMISE? {
      NoNewProposals(s, t, i, e);
      PromiseIsNew(s, i, p.msg.number);
      PromiseMade(s, t, i, e, r);
      forall b: nat, v | Proposed(t, b, v) ensures Spent(t, b) {
        assert Proposed(s, b, v);
        SpentKept(s, t, b);
      }
    } else {
      CalmOnce(s, t, i, e);
    }
  }

  lemma PromiseIsNew(s: Inst, i: nat, b: nat)
    requires CoreAt(s) && i < |s.nodes| && s.nodes[i].acceptor.prepare < b
    ensures forall r :: r in s.sent ==> !SamePromise(r, i, b)
    ensures forall o: nat :: o < |s.nodes| ==> NotCounted(s, o, i, b)
  {
    forall r | r in s.sent ensures !SamePromise(r, i, b) {
      assert PacketInv(s, r);
    }
    forall o: nat | o < |s.nodes| ensures NotCounted(s, o, i, b) {
      assert NodeInv(s, o);
      var x := s.nodes[o].proposer;
      if x.current == b && i in x.promised {
        assert Absorbed(s, i, b, x.highestNumber);
        PromiseTells(s, i, b, x.highestNumber);
      }
    }
  }

  lemma PromiseMade(s: Inst, t: Inst, i: nat, e: Effect, r: Packet)
    requires Once(s) && Moves(s, t, i, e) && e.out == [r] && r.msg.kind.PROMISE? && r.msg.fromId == i
    requires forall p :: p in s.flight ==> p in s.sent
    requires forall p :: p in s.sent ==> !SamePromise(p, i, r.msg.extra)
    requires NotCounted(s, r.dst, i, r.msg.extra)
    requires s.nodes[i].acceptor.prepare < r.msg.extra <= e.node.acceptor.prepare
    requires e.node.proposer == s.nodes[i].proposer
    requires t.flight == s.flight + multiset(e.out)
    ensures MadeOnce(t) && Undelivered(t)
    ensures forall a: nat, b: nat ::
              PrepareAtLeast(s, a, b) && Gone(s, a, b) ==> PrepareAtLeast(t, a, b) && Gone(t, a, b)
  {
    assert t.flight == s.flight + multiset{r};
    assert r !in s.flight;
    forall p | p in t.flight && p.msg.kind.PROMISE? ensures NotCounted(t, p.dst, p.msg.fromId, p.msg.extra) {
      if p in s.flight {
        assert NotCounted(s, p.dst, p.msg.fromId, p.msg.extra);
      } else {
        assert p == r;
      }
    }
    forall a: nat, b: nat | PrepareAtLeast(s, a, b) && Gone(s, a, b) ensures PrepareAtLeast(t, a, b) && Gone(t, a, b) {
      forall p | p in t.flight ensures !SamePromise(p, a, b) {
        if p in s.flight {
          assert !SamePromise(p, a, b);
        } else {
          assert p == r;
        }
      }
    }
  }

  /** Counting a promise that is no longer in flight. */
  lemma PromiseOnce(s: Inst, t: Inst, i: nat, p: Packet)
    requires CoreAt(s) && Once(s) && OneValue(s) && i < |s.nodes| && p in s.sent && p.dst == i
    requires p.msg.kind.PROMISE? && p.msg.extra <= s.nodes[i].proposer.current
    requires forall r :: r in s.flight ==> r in s.sent
    requires Gone(s, p.msg.fromId, p.msg.extra)
    requires forall b: nat, v :: Proposed(s, b, v) ==> SpentApart(s, b, p)
    requires Moves(s, t, i, HandlePromise(|s.nodes|, i, s.nodes[i], p.msg))
    requires t.flight == s.flight + multiset(HandlePromise(|s.nodes|, i, s.nodes[i], p.msg).out)
    ensures Once(t) && OneValue(t)
  {
    var e := HandlePromise(|s.nodes|, i, s.nodes[i], p.msg);
    if p.msg.extra < s.nodes[i].proposer.current {
      CalmOnce(s, t, i, e);
    } else {
      CountedOnce(s, t, i, e, p);
      if e.out == [] {
        NoNewProposals(s, t, i, e);
        forall b: nat, v | Proposed(t, b, v) ensures Spent(t, b) {
          assert Proposed(s, b, v);
          StaysSpent(s, t, i, e, p, b);
        }
      } else {
        ProposalShape(|s.nodes|, i, s.nodes[i], p.msg);
        ProposedOnce(s, t, i, e, p);
      }
    }
  }

  /** Number b is spent by a majority that promise p, if it is for b, does not belong to. */
  ghost predicate SpentApart(s: Inst, b: nat, p: Packet) {
    exists q :: SpentBy(s, q, b) && (p.msg.extra == b ==> p.msg.fromId !in q)
  }

  lemma CountedOnce(s: Inst, t: Inst, i: nat, e: Effect, p: Packet)
    requires Once(s) && Moves(s, t, i, e) && NoPromises(e) && p.msg.kind.PROMISE?
    requires Gone(s, p.msg.fromId, p.msg.extra)
    requires var x, y := s.nodes[i].proposer, e.node.proposer;
             x.current == p.msg.extra == y.current && y.promised == x.promised + {p.msg.fromId}
    requires t.flight == s.flight + multiset(e.out)
    ensures MadeOnce(t) && Undelivered(t)
    ensures forall a: nat, b: nat :: Gone(s, a, b) ==> Gone(t, a, b)
  {
    forall r | r in t.flight && r.msg.kind.PROMISE? ensures r in s.flight && t.flight[r] == s.flight[r] {
      assert r !in e.out;
    }
    forall r | r in t.flight && r.msg.kind.PROMISE? ensures NotCounted(t, r.dst, r.msg.fromId, r.msg.extra) {
      assert NotCounted(s, r.dst, r.msg.fromId, r.msg.extra);
      assert !SamePromise(r, p.msg.fromId, p.msg.extra);
    }
  }

  lemma StaysSpent(s: Inst, t: Inst, i: nat, e: Effect, p: Packet, b: nat)
    requires Moves(s, t, i, e) && SpentApart(s, b, p)
    requires var x, y := s.nodes[i].proposer, e.node.proposer;
             && x.current == p.msg.extra == y.current && y.promised == x.promised + {p.msg.fromId}
             && (x.majority ==> y.majority)
    requires e.node.acceptor == s.nodes[i].acceptor
    requires forall a: nat, c: nat :: Gone(s, a, c) ==> Gone(t, a, c)
    ensures Spent(t, b)
  {
    var q :| SpentBy(s, q, b) && (p.msg.extra == b ==> p.msg.fromId !in q);
    forall a | a in q ensures PrepareAtLeast(t, a, b) && Gone(t, a, b) && Used(t, a, b) {
      assert PrepareAtLeast(s, a, b) && Gone(s, a, b) && Used(s, a, b);
    }
    assert SpentBy(t, q, b);
  }

  /** Two majorities of the same n servers share a member. */
  lemma {:induction false} Overlap(n: nat, q: set<nat>, r: set<nat>)
    requires Majority(n, q) && Majority(n, r)
    ensures exists a :: a in q && a in r
  {
    BelowIsSmall(n, q + r);
    assert |q + r| + |q * r| == |q| + |r|;
    assert q * r != {};
    var a :| a in q * r;
  }

  lemma {:induction false} BelowIsSmall(n: nat, q: set<nat>)
    requires forall a :: a in q ==> a < n
    ensures |q| <= n
  {
    if n == 0 {
      assert q == {};
    } else {
      BelowIsSmall(n - 1, q - {n - 1});
    }
  }

  /** The majority that completes a round was never used before, so the round is new. */
  lemma RoundIsNew(s: Inst, i: nat, b: nat, p: Packet)
    requires i < |s.nodes| && p.msg.kind.PROMISE? && p.msg.extra == b && Owner(|s.nodes|, b) == i
    requires s.nodes[i].proposer.current == b && !s.nodes[i].proposer.majority
    requires Majority(|s.nodes|, s.nodes[i].proposer.promised + {p.msg.fromId})
    ensures !SpentApart(s, b, p)
  {
    forall q | SpentBy(s, q, b) ensures p.msg.fromId in q {
      Overlap(|s.nodes|, q, s.nodes[i].proposer.promised + {p.msg.fromId});
    }
  }

  /** Promise m completes x's majority, and e proposes. */
  predicate Completes(n: nat, x: Node, e: Effect, m: Message) {
    && m.extra == x.proposer.current && !x.proposer.majority && e.node.proposer.majority
    && |x.proposer.promised + {m.fromId}| * 2 > n && e.node.acceptor == x.acceptor
    && e.node.proposer.current == x.proposer.current
    && e.node.proposer.promised == x.proposer.promised + {m.fromId}
    && e.node.timer.Some? && e.node.timer.value.number == m.extra
    && forall r :: r in e.out ==> r.msg == e.node.timer.value
  }

  lemma ProposalShape(n: nat, id: nat, x: Node, m: Message)
    requires m.extra == x.proposer.current && HandlePromise(n, id, x, m).out != []
    ensures Completes(n, x, HandlePromise(n, id, x, m), m)
  {
  }

  lemma ProposedOnce(s: Inst, t: Inst, i: nat, e: Effect, p: Packet)
    requires CoreAt(s) && Once(s) && OneValue(s) && i < |s.nodes| && p in s.sent && p.dst == i
    requires p.msg.kind.PROMISE? && p.msg.extra == s.nodes[i].proposer.current
    requires forall r :: r in s.flight ==> r in s.sent
    requires Gone(s, p.msg.fromId, p.msg.extra)
    requires forall b: nat, v :: Proposed(s, b, v) ==> SpentApart(s, b, p)
    requires Completes(|s.nodes|, s.nodes[i], e, p.msg)
    requires Moves(s, t, i, e)
    requires MadeOnce(t) && Undelivered(t)
    requires forall a: nat, b: nat :: Gone(s, a, b) ==> Gone(t, a, b)
    ensures Once(t) && OneValue(t)
  {
    var m := e.node.timer.value;
    assert NodeInv(s, i) && PacketInv(s, p);
    RoundIsNew(s, i, m.number, p);
    FirstProposal(s, t, i, e, m);
    SpendsPromises(s, t, i, e, p);
    forall c: nat, v | Proposed(t, c, v) ensures Spent(t, c) {
      if c != m.number {
        StaysSpent(s, t, i, e, p, c);
      }
    }
  }

  lemma SpendsPromises(s: Inst, t: Inst, i: nat, e: Effect, p: Packet)
    requires CoreAt(s) && Once(s) && i < |s.nodes| && p in s.sent && p.dst == i
    requires forall r :: r in s.flight ==> r in s.sent
    requires p.msg.kind.PROMISE? && p.msg.extra == s.nodes[i].proposer.current
    requires Gone(s, p.msg.fromId, p.msg.extra)
    requires Completes(|s.nodes|, s.nodes[i], e, p.msg)
    requires Moves(s, t, i, e)
    requires forall a: nat, b: nat :: Gone(s, a, b) ==> Gone(t, a, b)
    ensures Spent(t, p.msg.extra)
  {
    assert NodeInv(s, i) && PacketInv(s, p);
    PromisersVouch(s, i, p);
    SpentNow(s, t, i, e, s.nodes[i].proposer.promised + {p.msg.fromId}, p.msg.extra);
  }

  lemma SpentNow(s: Inst, t: Inst, i: nat, e: Effect, q: set<nat>, b: nat)
    requires i < |s.nodes| && Moves(s, t, i, e) && Owner(|s.nodes|, b) == i
    requires Majority(|s.nodes|, q) && e.node.proposer.majority && e.node.acceptor == s.nodes[i].acceptor
    requires forall a :: a in q ==> PrepareAtLeast(s, a, b) && Gone(s, a, b)
    requires forall a: nat, c: nat :: Gone(s, a, c) ==> Gone(t, a, c)
    ensures Spent(t, b)
  {
    forall a | a in q ensures PrepareAtLeast(t, a, b) && Gone(t, a, b) && Used(t, a, b) {
      assert PrepareAtLeast(s, a, b) && Gone(s, a, b);
    }
    assert SpentBy(t, q, b);
  }

  lemma PromisersVouch(s: Inst, i: nat, p: Packet)
    requires CoreAt(s) && Once(s) && i < |s.nodes| && p in s.sent && p.dst == i
    requires forall r :: r in s.flight ==> r in s.sent
    requires p.msg.kind.PROMISE? && p.msg.extra == s.nodes[i].proposer.current
    requires Gone(s, p.msg.fromId, p.msg.extra)
    ensures forall a :: a in s.nodes[i].proposer.promised + {p.msg.fromId}
              ==> PrepareAtLeast(s, a, p.msg.extra) && Gone(s, a, p.msg.extra)
  {
    assert NodeInv(s, i) && PacketInv(s, p);
    var x := s.nodes[i].proposer;
    forall a | a in x.promised ensures PrepareAtLeast(s, a, x.current) && Gone(s, a, x.current) {
      PromiseTells(s, a, x.current, x.highestNumber);
      forall r | r in s.flight ensures !SamePromise(r, a, x.current) {
        assert PacketInv(s, r);
        assert r.msg.kind.PROMISE? ==> NotCounted(s, r.dst, r.msg.fromId, r.msg.extra);
      }
    }
  }
}
