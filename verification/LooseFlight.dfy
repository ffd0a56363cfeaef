/** Promises in flight in release builds: each is made once and counted once, so two values under
    one number have no exact promise in common. */
module LooseFlight {
  import opened Wire
  import opened Roles
  import opened Consensus
  import opened Invariant
  import opened InvariantSteps
  import opened Rounds
  import opened Loose
  import opened LooseSteps
  import opened LooseRounds

  /** What is in flight and recorded about it. */
  ghost predicate Flying(s: Inst) {
    MadeOnce(s) && UndeliveredBut(s) && Numbers(s)
  }

  /** Nothing flies in t but what flew in s and what e sends. */
  predicate Flows(s: Inst, t: Inst, e: Effect) {
    t.flight <= s.flight + multiset(e.out)
  }

  // ---- what a step leaves alone ----

  /** A step that counts no promise: it forgets those counted, or keeps everything. */
  predicate Still(x: ProposerState, y: ProposerState) {
    || y.promised == {}
    || (y.current == x.current && y.promised == x.promised && y.majority == x.majority
        && y.highestNumber == x.highestNumber)
  }

  lemma NoteStays(s: Inst, t: Inst, i: nat, a: nat, b: nat)
    requires Extends(s, t, i) && PrepareAtLeast(s, a, b + 1)
    ensures PrepareAtLeast(t, a, b + 1) && (NoVoteAt(s, a, b) ==> NoVoteAt(t, a, b))
  {
    if NoVoteAt(s, a, b) {
      OutStays(s, t, i, a, b);
    }
  }

  lemma StrayStays(s: Inst, t: Inst, i: nat, o: nat, a: nat, b: nat)
    requires Extends(s, t, i) && StrayOnly(s, o, a, b)
    requires Still(s.nodes[o].proposer, t.nodes[o].proposer)
    ensures StrayOnly(t, o, a, b)
  {
    if t.nodes[o].proposer.current == b && a in t.nodes[o].proposer.promised {
      NoteStays(s, t, i, a, b);
    }
  }

  lemma PromisesKept(s: Inst, t: Inst, e: Effect)
    requires MadeOnce(s) && Flows(s, t, e) && NoPromises(e) && t.sent == s.sent + SetOf(e.out)
    ensures MadeOnce(t)
    ensures forall p :: p in t.flight && p.msg.kind.PROMISE? ==> p in s.flight
    ensures forall a: nat, b: nat :: Gone(s, a, b) ==> Gone(t, a, b)
  {
    forall p | p in t.flight && p.msg.kind.PROMISE? ensures p in s.flight && t.flight[p] == 1 {
      assert p !in e.out;
      assert t.flight[p] <= (s.flight + multiset(e.out))[p];
    }
  }

  lemma NumberStays(s: Inst, t: Inst, i: nat, b: nat)
    requires Extends(s, t, i) && NumberOk(s, b)
    requires forall v :: Offered(t, b, v) ==> Offered(s, b, v)
    requires forall a :: PrepareAtLeast(s, a, b) && UsedUp(s, a, b) ==> UsedUp(t, a, b)
    ensures NumberOk(t, b)
  {
    if Closed(s, b) {
      ClosedStays(s, t, i, b);
    } else {
      BackedStays(s, t, i, b);
    }
  }

  lemma BackedStays(s: Inst, t: Inst, i: nat, b: nat)
    requires Extends(s, t, i) && Backed(s, b)
    requires forall a :: PrepareAtLeast(s, a, b) && UsedUp(s, a, b) ==> UsedUp(t, a, b)
    ensures Backed(t, b)
  {
    var q, x :| BackedBy(s, q, x, b);
    forall a | a in x ensures Out(t, a, b) {
      OutStays(s, t, i, a, b);
    }
    forall a | a in q ensures PrepareAtLeast(t, a, b) && UsedUp(t, a, b) {
      assert PrepareAtLeast(s, a, b) && UsedUp(s, a, b);
    }
    assert BackedBy(t, q, x, b);
  }

  /** A step that neither promises, proposes, nor counts a promise. */
  lemma StillFlies(s: Inst, t: Inst, i: nat, e: Effect)
    requires Flying(s) && Moves(s, t, i, e) && Extends(s, t, i) && Flows(s, t, e)
    requires NoPromises(e) && NoProposals(e) && Still(s.nodes[i].proposer, e.node.proposer)
    ensures Flying(t)
  {
    PromisesKept(s, t, e);
    NothingOffered(s, t, i, e);
    forall p | p in t.flight && p.msg.kind.PROMISE? ensures StrayOnly(t, p.dst, p.msg.fromId, p.msg.extra) {
      StrayStays(s, t, i, p.dst, p.msg.fromId, p.msg.extra);
    }
    forall b: nat, v | Offered(t, b, v) ensures NumberOk(t, b) {
      forall a | UsedUp(s, a, b) ensures UsedUp(t, a, b) {
        StillUsed(s, t, i, a, b);
      }
      assert Offered(s, b, v);
      NumberStays(s, t, i, b);
    }
  }

  lemma StillUsed(s: Inst, t: Inst, i: nat, a: nat, b: nat)
    requires Extends(s, t, i) && UsedUp(s, a, b) && Gone(t, a, b) && i < |s.nodes|
    requires t.nodes == s.nodes[i := t.nodes[i]] && Still(s.nodes[i].proposer, t.nodes[i].proposer)
    ensures UsedUp(t, a, b)
  {
    var o := Owner(|s.nodes|, b);
    if s.nodes[o].proposer.majority {
      assert t.nodes[o].proposer.majority || t.nodes[o].proposer.promised == {};
    } else {
      StrayStays(s, t, i, o, a, b);
    }
  }

  // ---- a new promise ----

  lemma PromiseIsFresh(s: Inst, i: nat, b: nat)
    requires Told(s) && i < |s.nodes| && s.nodes[i].acceptor.prepare < b
    ensures forall r :: r in s.sent ==> !SamePromise(r, i, b)
    ensures forall o: nat :: o < |s.nodes| ==> NotCounted(s, o, i, b)
  {
    forall r | r in s.sent ensures !SamePromise(r, i, b) {
      assert PacketOk(s, r);
    }
    forall o: nat | o < |s.nodes| ensures NotCounted(s, o, i, b) {
      assert NodeOk(s, o);
      var x := s.nodes[o].proposer;
      if x.current == b && i in x.promised {
        HeededSays(s, i, b, x.highestNumber);
      }
    }
  }

  lemma PromiseFlies(s: Inst, t: Inst, i: nat, e: Effect, r: Packet)
    requires Told(s) && Flying(s) && Moves(s, t, i, e) && Extends(s, t, i) && Flows(s, t, e)
    requires forall p :: p in s.flight ==> p in s.sent
    requires e.out == [r] && r.msg.kind.PROMISE? && r.msg.fromId == i && r.dst < |s.nodes|
    requires s.nodes[i].acceptor.prepare < r.msg.extra && e.node.proposer == s.nodes[i].proposer
    ensures Flying(t)
  {
    PromiseIsFresh(s, i, r.msg.extra);
    NothingOffered(s, t, i, e);
    OneMoreFlies(s, t, e, r);
    forall p | p in t.flight && p.msg.kind.PROMISE? ensures StrayOnly(t, p.dst, p.msg.fromId, p.msg.extra) {
      if p != r {
        StrayStays(s, t, i, p.dst, p.msg.fromId, p.msg.extra);
      } else {
        assert NotCounted(s, r.dst, i, r.msg.extra);
      }
    }
    forall b: nat, v | Offered(t, b, v) ensures NumberOk(t, b) {
      forall a | PrepareAtLeast(s, a, b) && UsedUp(s, a, b) ensures UsedUp(t, a, b) {
        assert Gone(t, a, b);
        StillUsed(s, t, i, a, b);
      }
      assert Offered(s, b, v);
      NumberStays(s, t, i, b);
    }
  }

  lemma OneMoreFlies(s: Inst, t: Inst, e: Effect, r: Packet)
    requires MadeOnce(s) && Flows(s, t, e) && e.out == [r] && r.msg.kind.PROMISE? && t.sent == s.sent + SetOf(e.out)
    requires forall p :: p in s.flight ==> p in s.sent
    requires forall p :: p in s.sent ==> !SamePromise(p, r.msg.fromId, r.msg.extra)
    ensures MadeOnce(t)
    ensures forall p :: p in t.flight ==> p in s.flight || p == r
    ensures forall a: nat, b: nat :: Gone(s, a, b) && !SamePromise(r, a, b) ==> Gone(t, a, b)
  {
    assert r !in s.flight;
    forall p | p in t.flight ensures t.flight[p] <= s.flight[p] + (if p == r then 1 else 0) {
      assert t.flight[p] <= (s.flight + multiset{r})[p];
    }
  }

  // ---- counting a promise ----

  /** The step that delivers promise p to its proposer: p is no longer in flight. */
  ghost predicate CountStep(s: Inst, t: Inst, i: nat, e: Effect, p: Packet) {
    && Told(s) && Flying(s) && Moves(s, t, i, e) && Extends(s, t, i)
    && (forall r :: r in s.flight ==> r in s.sent)
    && p in s.flight && Counts(s, t, i, p)
    && t.flight <= s.flight - multiset{p} + multiset(e.out) && NoPromises(e)
    && e.node.acceptor == s.nodes[i].acceptor
    && (s.nodes[i].proposer.majority ==> e.node.proposer.majority)
  }

  lemma TakenIsGone(s: Inst, t: Inst, i: nat, e: Effect, p: Packet)
    requires CountStep(s, t, i, e, p)
    ensures MadeOnce(t) && Gone(t, p.msg.fromId, p.msg.extra)
    ensures forall r :: r in t.flight && r.msg.kind.PROMISE? ==> r in s.flight && r != p
    ensures forall a: nat, b: nat :: Gone(s, a, b) ==> Gone(t, a, b)
  {
    forall r | r in t.flight && r.msg.kind.PROMISE? ensures r in s.flight && r != p && t.flight[r] == 1 {
      assert r !in e.out;
      assert t.flight[r] <= (s.flight - multiset{p} + multiset(e.out))[r];
    }
  }

  /** Counting p, a promise above b, keeps what is said of everyone counted at b. */
  lemma CountKeepsStray(s: Inst, t: Inst, i: nat, e: Effect, p: Packet, o: nat, a: nat, b: nat)
    requires CountStep(s, t, i, e, p) && StrayOnly(s, o, a, b) && !SamePromise(p, a, b)
    ensures StrayOnly(t, o, a, b)
  {
    if o == i && t.nodes[i].proposer.current == b && a in t.nodes[i].proposer.promised {
      if a == p.msg.fromId {
        PromiseIsAhead(s, p, b);
      }
      NoteStays(s, t, i, a, b);
    } else if o != i && t.nodes[o].proposer.current == b && a in t.nodes[o].proposer.promised {
      NoteStays(s, t, i, a, b);
    }
  }

  /** A promise above b tells that its sender is past b, and whether it voted there. */
  lemma PromiseIsAhead(s: Inst, p: Packet, b: nat)
    requires Told(s) && p in s.sent && p.msg.kind.PROMISE? && p.msg.extra > b
    ensures PrepareAtLeast(s, p.msg.fromId, b + 1)
    ensures NoVoteAt(s, p.msg.fromId, b) || p.msg.number >= b
  {
    assert PromiseInv(s, p);
    if p.msg.number < b {
      forall u ensures !Voted(s, p.msg.fromId, b, u) {
      }
    }
  }

  lemma CountKeepsUsed(s: Inst, t: Inst, i: nat, e: Effect, p: Packet, a: nat, b: nat)
    requires CountStep(s, t, i, e, p) && UsedUp(s, a, b)
    ensures UsedUp(t, a, b)
  {
    TakenIsGone(s, t, i, e, p);
    var o := Owner(|s.nodes|, b);
    assert !SamePromise(p, a, b);
    if !s.nodes[o].proposer.majority {
      CountKeepsStray(s, t, i, e, p, o, a, b);
    }
  }

  lemma CountUndelivered(s: Inst, t: Inst, i: nat, e: Effect, p: Packet)
    requires CountStep(s, t, i, e, p)
    ensures MadeOnce(t) && UndeliveredBut(t)
  {
    TakenIsGone(s, t, i, e, p);
    forall r | r in t.flight && r.msg.kind.PROMISE? ensures StrayOnly(t, r.dst, r.msg.fromId, r.msg.extra) {
      assert r in s.flight && r in s.sent && p in s.sent;
      assert !SamePromise(p, r.msg.fromId, r.msg.extra);
      CountKeepsStray(s, t, i, e, p, r.dst, r.msg.fromId, r.msg.extra);
    }
  }

  /** A number whose values do not change in this step. */
  lemma CountKeepsNumber(s: Inst, t: Inst, i: nat, e: Effect, p: Packet, b: nat)
    requires CountStep(s, t, i, e, p) && NumberOk(s, b)
    requires forall v :: Offered(t, b, v) ==> Offered(s, b, v)
    ensures NumberOk(t, b)
  {
    forall a | UsedUp(s, a, b) ensures UsedUp(t, a, b) {
      CountKeepsUsed(s, t, i, e, p, a, b);
    }
    NumberStays(s, t, i, b);
  }

  lemma CountFlies(s: Inst, t: Inst, i: nat, e: Effect, p: Packet)
    requires CountStep(s, t, i, e, p) && NoProposals(e)
    ensures Flying(t)
  {
    CountUndelivered(s, t, i, e, p);
    NothingOffered(s, t, i, e);
    forall b: nat, v | Offered(t, b, v) ensures NumberOk(t, b) {
      assert Offered(s, b, v);
      CountKeepsNumber(s, t, i, e, p, b);
    }
  }

  // ---- proposing ----

  /** The step that completes a majority q with highest report h and proposes (c, w). */
  ghost predicate OfferStep(s: Inst, t: Inst, i: nat, e: Effect, p: Packet) {
    && CountStep(s, t, i, e, p)
    && Offers(e, i, s.seqno, t.nodes[i].proposer.current, t.nodes[i].proposer.highestValue)
    && !s.nodes[i].proposer.majority && t.nodes[i].proposer.majority
    && |t.nodes[i].proposer.promised| * 2 > |s.nodes|
  }

  /** Those counted by i that are out of number c, and the others. */
  ghost function Outs(s: Inst, q: set<nat>, c: nat): set<nat> {
    set a | a in q && Out(s, a, c)
  }

  /** Of the others, the promise for c itself was counted, and is used up now. */
  lemma CountedExactly(s: Inst, t: Inst, i: nat, e: Effect, p: Packet, a: nat)
    requires OfferStep(s, t, i, e, p)
    requires var y := t.nodes[i].proposer; y.highestNumber < y.current && a in y.promised && !Out(s, a, y.current)
    ensures var c := t.nodes[i].proposer.current; PrepareAtLeast(t, a, c) && UsedUp(t, a, c) && !UsedUp(s, a, c)
  {
    var c, x, y := t.nodes[i].proposer.current, s.nodes[i].proposer, t.nodes[i].proposer;
    assert NodeOk(s, i) && PacketOk(s, p);
    CountHeeds(s, t, i, p);
    HeededSays(s, a, c, y.highestNumber);
    CountUndelivered(s, t, i, e, p);
    assert Owner(|s.nodes|, c) == i;
    NotStray(s, t, i, e, p, a);
  }

  lemma NotStray(s: Inst, t: Inst, i: nat, e: Effect, p: Packet, a: nat)
    requires OfferStep(s, t, i, e, p) && MadeOnce(t) && UndeliveredBut(t)
    requires Owner(|s.nodes|, t.nodes[i].proposer.current) == i && p.msg.extra >= t.nodes[i].proposer.current
    requires var y := t.nodes[i].proposer;
             && y.highestNumber < y.current && a in y.promised && !Out(s, a, y.current)
             && y.current == s.nodes[i].proposer.current
    ensures var c := t.nodes[i].proposer.current; Gone(t, a, c) && UsedUp(t, a, c) && !UsedUp(s, a, c)
  {
    var c, y := t.nodes[i].proposer.current, t.nodes[i].proposer;
    NotOutLater(s, t, i, e, a, c);
    TakenIsGone(s, t, i, e, p);
    forall r | r in t.flight ensures !SamePromise(r, a, c) {
      assert r.msg.kind.PROMISE? ==> PacketOk(s, r);
      assert r.msg.kind.PROMISE? ==> StrayOnly(t, r.dst, r.msg.fromId, r.msg.extra);
    }
    if UsedUp(s, a, c) {
      assert StrayOnly(s, i, a, c);
      assert !SamePromise(p, a, c);
      CountKeepsStray(s, t, i, e, p, i, a, c);
    }
  }

  /** Proposing puts nobody out. */
  lemma NotOutLater(s: Inst, t: Inst, i: nat, e: Effect, a: nat, c: nat)
    requires Moves(s, t, i, e) && e.node.acceptor == s.nodes[i].acceptor && !Out(s, a, c)
    ensures !Out(t, a, c)
  {
    if NoVoteAt(t, a, c) {
      forall u ensures !Voted(s, a, c, u) {
        assert Voted(s, a, c, u) ==> Voted(t, a, c, u);
      }
      assert PrepareAtLeast(t, a, c + 1) ==> PrepareAtLeast(s, a, c + 1);
    }
  }

  /** The majority just counted backs its number. */
  lemma NowBacked(s: Inst, t: Inst, i: nat, e: Effect, p: Packet)
    requires OfferStep(s, t, i, e, p) && t.nodes[i].proposer.highestNumber < t.nodes[i].proposer.current
    ensures var y := t.nodes[i].proposer;
            BackedBy(t, y.promised - Outs(s, y.promised, y.current), Outs(s, y.promised, y.current), y.current)
  {
    var y := t.nodes[i].proposer;
    var x := Outs(s, y.promised, y.current);
    assert y.promised - x + x == y.promised;
    CountHeeds(s, t, i, p);
    forall a | a in x ensures Out(t, a, y.current) {
      OutStays(s, t, i, a, y.current);
    }
    forall a | a in y.promised - x ensures PrepareAtLeast(t, a, y.current) && UsedUp(t, a, y.current) {
      CountedExactly(s, t, i, e, p, a);
    }
  }

  /** A second value under a number that was backed before closes it, in small deployments. */
  lemma SecondCloses(s: Inst, t: Inst, i: nat, e: Effect, p: Packet)
    requires OfferStep(s, t, i, e, p) && Tight(|s.nodes|)
    requires var y := t.nodes[i].proposer; y.highestNumber < y.current && Backed(s, y.current)
    ensures Closed(t, t.nodes[i].proposer.current)
  {
    var y := t.nodes[i].proposer;
    var c, x := y.current, Outs(s, y.promised, y.current);
    NowBacked(s, t, i, e, p);
    var q', x' :| BackedBy(s, q', x', c);
    forall a | a in y.promised - x ensures a !in q' {
      CountedExactly(s, t, i, e, p, a);
    }
    OutsBlock(|s.nodes|, y.promised - x, x, q', x');
    forall a | a in x + x' ensures Out(t, a, c) {
      OutStays(s, t, i, a, c);
    }
    assert ClosedBy(t, x + x', c);
  }

  /** A proposal that adopted a value from above closes its own number, if it is the first there. */
  lemma AdoptedCloses(s: Inst, b: nat, w: ProposalValue)
    requires Told(s) && Only(s, b, w) && !Offered(s, b, w)
    ensures Closed(s, b)
  {
    var x :| OnlyBy(s, x, b, w);
    forall a | a in x ensures Out(s, a, b) {
      assert PrepareAtLeast(s, a, b + 1) && VotesOnly(s, a, b, w);
      forall u ensures !Voted(s, a, b, u) {
        if Voted(s, a, b, u) {
          VoteWasOffered(s, a, b, u);
        }
      }
    }
    assert ClosedBy(s, x, b);
  }

  lemma OfferedNumber(s: Inst, t: Inst, i: nat, e: Effect, p: Packet)
    requires OfferStep(s, t, i, e, p) && Tight(|s.nodes|)
    ensures NumberOk(t, t.nodes[i].proposer.current)
  {
    var y := t.nodes[i].proposer;
    var c, w, h := y.current, y.highestValue, y.highestNumber;
    NewOffer(s, t, i, e, c, w);
    CountedQuorum(s, t, i, p);
    assert NodeOk(s, i);
    if Offered(s, c, w) {
      CountKeepsNumber(s, t, i, e, p, c);
    } else if h > c {
      assert Only(s, c, w);
      AdoptedCloses(s, c, w);
      ClosedStays(s, t, i, c);
    } else {
      FirstOfItsValue(s, t, i, e, p);
    }
  }

  /** A value new under its number, adopted from below. */
  lemma FirstOfItsValue(s: Inst, t: Inst, i: nat, e: Effect, p: Packet)
    requires OfferStep(s, t, i, e, p) && Tight(|s.nodes|)
    requires var y := t.nodes[i].proposer; y.highestNumber < y.current && !Offered(s, y.current, y.highestValue)
    ensures NumberOk(t, t.nodes[i].proposer.current)
  {
    var c, w := t.nodes[i].proposer.current, t.nodes[i].proposer.highestValue;
    NewOffer(s, t, i, e, c, w);
    NowBacked(s, t, i, e, p);
    if v :| Offered(s, c, v) {
      assert NumberOk(s, c);
      if Closed(s, c) {
        ClosedStays(s, t, i, c);
      } else {
        SecondCloses(s, t, i, e, p);
      }
    }
  }

  lemma OfferFlies(s: Inst, t: Inst, i: nat, e: Effect, p: Packet)
    requires OfferStep(s, t, i, e, p) && Tight(|s.nodes|)
    ensures Flying(t)
  {
    CountUndelivered(s, t, i, e, p);
    NewOffer(s, t, i, e, t.nodes[i].proposer.current, t.nodes[i].proposer.highestValue);
    OfferedNumber(s, t, i, e, p);
    forall b: nat, v | Offered(t, b, v) ensures NumberOk(t, b) {
      if b != t.nodes[i].proposer.current {
        assert Offered(s, b, v);
        CountKeepsNumber(s, t, i, e, p, b);
      }
    }
  }
}
