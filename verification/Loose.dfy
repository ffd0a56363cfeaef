/** Release builds with the logs on: a restarted proposer may count promises for higher numbers of
    its former life (src/proposer.cpp:77-78), so two values can be proposed under one number. What
    then still holds, and what is enough for agreement. */
module Loose {
  import opened Wire
  import opened Roles
  import opened Consensus
  import opened Invariant
  import opened Rounds

  // ---- what the history says ----

  /** Value v was proposed under number b, whatever promise completed the majority. */
  ghost predicate Offered(s: Inst, b: nat, v: ProposalValue) {
    exists e: nat :: OfferedBy(s, b, v, e)
  }

  predicate OfferedBy(s: Inst, b: nat, v: ProposalValue, e: nat) {
    Packet(0, Message(ACCEPT, s.seqno, Owner(|s.nodes|, b), b, v, e)) in s.sent
  }

  ghost predicate OneValueAt(s: Inst, b: nat) {
    forall v, w :: Offered(s, b, v) && Offered(s, b, w) ==> v == w
  }

  ghost predicate VotesOnly(s: Inst, a: nat, b: nat, w: ProposalValue) {
    forall u :: Voted(s, a, b, u) ==> u == w
  }

  ghost predicate NoVoteAt(s: Inst, a: nat, b: nat) {
    forall u :: !Voted(s, a, b, u)
  }

  /** Acceptor a has not voted under number b and never will. */
  ghost predicate Out(s: Inst, a: nat, b: nat) {
    PrepareAtLeast(s, a, b + 1) && NoVoteAt(s, a, b)
  }

  /** Every majority of n servers has a member in x. */
  predicate Blocking(n: nat, x: set<nat>) {
    (forall a :: a in x ==> a < n) && 2 * |x| >= n
  }

  ghost predicate ClosedBy(s: Inst, x: set<nat>, b: nat) {
    Blocking(|s.nodes|, x) && forall a :: a in x ==> Out(s, a, b)
  }

  /** Nothing can be chosen under number b any more. */
  ghost predicate Closed(s: Inst, b: nat) {
    exists x :: ClosedBy(s, x, b)
  }

  ghost predicate OnlyBy(s: Inst, x: set<nat>, b: nat, w: ProposalValue) {
    Blocking(|s.nodes|, x) && forall a :: a in x ==> PrepareAtLeast(s, a, b + 1) && VotesOnly(s, a, b, w)
  }

  /** Nothing but w can be chosen under number b any more. */
  ghost predicate Only(s: Inst, b: nat, w: ProposalValue) {
    exists x :: OnlyBy(s, x, b, w)
  }

  // ---- whose promises a proposer has counted ----

  /** If proposer o, at number b, counts a, it does so for a promise above b: a can no longer vote
      under b, and has not, unless o has seen a number of at least b. */
  ghost predicate StrayOnly(s: Inst, o: nat, a: nat, b: nat) {
    && o < |s.nodes|
    && (s.nodes[o].proposer.current == b && a in s.nodes[o].proposer.promised ==>
          PrepareAtLeast(s, a, b + 1) && (NoVoteAt(s, a, b) || s.nodes[o].proposer.highestNumber >= b))
  }

  ghost predicate UndeliveredBut(s: Inst) {
    forall p :: p in s.flight && p.msg.kind.PROMISE? ==> StrayOnly(s, p.dst, p.msg.fromId, p.msg.extra)
  }

  /** a's promise for b itself is used up. */
  ghost predicate UsedUp(s: Inst, a: nat, b: nat) {
    var o := Owner(|s.nodes|, b);
    Gone(s, a, b) && o < |s.nodes| && (s.nodes[o].proposer.majority || StrayOnly(s, o, a, b))
  }

  /** A majority stood behind number b: those in x are out, the promises for b of those in q are
      used up. */
  ghost predicate BackedBy(s: Inst, q: set<nat>, x: set<nat>, b: nat) {
    && Majority(|s.nodes|, q + x)
    && (forall a :: a in x ==> Out(s, a, b))
    && forall a :: a in q ==> PrepareAtLeast(s, a, b) && UsedUp(s, a, b)
  }

  ghost predicate Backed(s: Inst, b: nat) {
    exists q, x :: BackedBy(s, q, x, b)
  }

  /** Under number b only one value was proposed, or nothing can be chosen. */
  ghost predicate NumberOk(s: Inst, b: nat) {
    Closed(s, b) || (Backed(s, b) && OneValueAt(s, b))
  }

  ghost predicate Numbers(s: Inst) {
    forall b: nat, v :: Offered(s, b, v) ==> NumberOk(s, b)
  }

  /** A proposal leaves no choice under lower numbers. */
  ghost predicate Binding(s: Inst) {
    forall b: nat, c: nat, w :: 0 < b < c && Offered(s, c, w) ==> Only(s, b, w)
  }

  // ---- the invariant ----

  ghost predicate PacketOk(s: Inst, p: Packet) {
    && p.dst < |s.nodes| && p.msg.fromId < |s.nodes| && p.msg.sequence == s.seqno
    && match p.msg.kind
       case PREPARE => p.msg.number >= 2 * |s.nodes| && p.msg.fromId == Owner(|s.nodes|, p.msg.number)
       case PROMISE => PromiseInv(s, p)
       case ACCEPT =>
         p.msg.fromId == Owner(|s.nodes|, p.msg.number) && p.msg.number > 0 && Offered(s, p.msg.number, p.msg.value)
       case ACCEPTED =>
         && p.dst == Owner(|s.nodes|, p.msg.number) && p.msg.extra == p.msg.number
         && p.msg.number > 0 && Offered(s, p.msg.number, p.msg.value)
       case INFORM => Chosen(s, p.msg.number, p.msg.value)
       case _ => true
  }

  /** Acceptor a's promise for b or above is in the history and reports a number of at most h. */
  ghost predicate Heeded(s: Inst, a: nat, b: nat, h: nat) {
    a < |s.nodes| && exists e: nat, c: nat, v :: e >= b && c <= h && Promised(s, a, e, c, v)
  }

  /** Somebody in q reported (h, v) in a promise for b or above. */
  ghost predicate Reported(s: Inst, q: set<nat>, b: nat, h: nat, v: ProposalValue) {
    exists a, e: nat :: a in q && e >= b && Promised(s, a, e, h, v)
  }

  ghost predicate ProposerOk(s: Inst, i: nat)
    requires i < |s.nodes|
  {
    var x := s.nodes[i].proposer;
    && x.current >= |s.nodes| && Owner(|s.nodes|, x.current) == i
    && (forall a :: a in x.promised ==> Heeded(s, a, x.current, x.highestNumber))
    && (x.highestNumber > 0 ==> Reported(s, x.promised, x.current, x.highestNumber, x.highestValue))
  }

  ghost predicate VotedAt(s: Inst, a: nat, b: nat) {
    exists u :: Voted(s, a, b, u)
  }

  ghost predicate LearnerOk(s: Inst, i: nat)
    requires i < |s.nodes|
  {
    var x := s.nodes[i].learner;
    && (!x.informed ==> forall a :: a in x.accepted ==> a < |s.nodes| && VotedAt(s, a, x.number))
    && (!x.informed && x.number > 0 ==> Offered(s, x.number, x.value))
    && (Decided(x) ==> Chosen(s, x.number, x.value))
  }

  ghost predicate NodeOk(s: Inst, i: nat)
    requires i < |s.nodes|
  {
    AcceptorInv(s, i) && ProposerOk(s, i) && LearnerOk(s, i) && TimerInv(s, i)
  }

  /** What does not look at the packets in flight. */
  ghost predicate Told(s: Inst) {
    && |s.nodes| > 0
    && (forall p :: p in s.sent ==> PacketOk(s, p))
    && (forall i :: 0 <= i < |s.nodes| ==> NodeOk(s, i))
    && Binding(s)
  }

  ghost predicate LooseInv(s: Inst) {
    && Told(s) && (forall p :: p in s.flight ==> p in s.sent)
    && MadeOnce(s) && UndeliveredBut(s) && Numbers(s)
    && forall i :: 0 <= i < |s.nodes| ==> DiskInv(s.nodes[i])
  }

  // ---- sizes ----

  lemma MajorityMeetsBlocking(n: nat, q: set<nat>, x: set<nat>)
    requires Majority(n, q) && Blocking(n, x)
    ensures exists a :: a in q && a in x
  {
    BelowIsSmall(n, q + x);
    assert |q + x| + |q * x| == |q| + |x|;
    assert q * x != {};
    var a :| a in q * x;
  }

  lemma MajorityBlocks(n: nat, q: set<nat>)
    requires Majority(n, q)
    ensures Blocking(n, q)
  {
  }

  /** The sizes for which two majorities that share only members who are out leave too few. */
  predicate Tight(n: nat) {
    n == 1 || n == 2 || n == 4
  }

  /** Two majorities q + x and r + y with q and r apart: x and y together block. */
  lemma OutsBlock(n: nat, q: set<nat>, x: set<nat>, r: set<nat>, y: set<nat>)
    requires Tight(n) && Majority(n, q + x) && Majority(n, r + y) && q !! r
    ensures Blocking(n, x + y)
  {
    var z := x + y;
    ApartFit(n, q - z, r - z, z);
    SmallUnion(q - z, z, q + x);
    SmallUnion(r - z, z, r + y);
  }

  lemma ApartFit(n: nat, a: set<nat>, b: set<nat>, c: set<nat>)
    requires a !! b && a !! c && b !! c && forall i :: i in a || i in b || i in c ==> i < n
    ensures |a| + |b| + |c| <= n
  {
    assert |a + b| == |a| + |b|;
    assert |a + b + c| == |a + b| + |c|;
    BelowIsSmall(n, a + b + c);
  }

  lemma SmallUnion(a: set<nat>, b: set<nat>, c: set<nat>)
    requires c <= a + b
    ensures |c| <= |a| + |b|
  {
    SubsetSize(c, a + b);
    assert |a + b| + |a * b| == |a| + |b|;
  }

  lemma {:induction false} SubsetSize(a: set<nat>, b: set<nat>)
    requires a <= b
    ensures |a| <= |b|
  {
    if a == {} {
    } else {
      var x :| x in a;
      SubsetSize(a - {x}, b - {x});
    }
  }

  // ---- agreement inside one state ----

  lemma VoteWasOffered(s: Inst, a: nat, b: nat, v: ProposalValue)
    requires Told(s) && Voted(s, a, b, v)
    ensures Offered(s, b, v) && b > 0 && a < |s.nodes|
  {
    assert PacketOk(s, Packet(Owner(|s.nodes|, b), Message(ACCEPTED, s.seqno, a, b, v, b)));
  }

  lemma ChosenIsOnly(s: Inst, b: nat, v: ProposalValue, w: ProposalValue)
    requires Chosen(s, b, v) && Only(s, b, w)
    ensures v == w
  {
    var q :| AllVoted(s, q, b, v);
    var x :| OnlyBy(s, x, b, w);
    MajorityMeetsBlocking(|s.nodes|, q, x);
    var a :| a in q && a in x;
    assert Voted(s, a, b, v) && VotesOnly(s, a, b, w);
  }

  lemma ChosenIsOpen(s: Inst, b: nat, v: ProposalValue)
    requires Chosen(s, b, v)
    ensures !Closed(s, b)
  {
    var q :| AllVoted(s, q, b, v);
    forall x ensures !ClosedBy(s, x, b) {
      if Blocking(|s.nodes|, x) {
        MajorityMeetsBlocking(|s.nodes|, q, x);
        var a :| a in q && a in x;
        assert Voted(s, a, b, v) && !Out(s, a, b);
      }
    }
  }

  lemma ChosenWasOffered(s: Inst, b: nat, v: ProposalValue)
    requires Told(s) && Chosen(s, b, v)
    ensures Offered(s, b, v) && b > 0
  {
    var q :| AllVoted(s, q, b, v);
    Overlap(|s.nodes|, q, q);
    var a :| a in q;
    VoteWasOffered(s, a, b, v);
  }

  lemma ChosenAgree(s: Inst, b: nat, v: ProposalValue, c: nat, w: ProposalValue)
    requires Told(s) && Numbers(s) && Chosen(s, b, v) && Chosen(s, c, w)
    ensures v == w
  {
    ChosenWasOffered(s, b, v);
    ChosenWasOffered(s, c, w);
    if b < c {
      ChosenIsOnly(s, b, v, w);
    } else if c < b {
      ChosenIsOnly(s, c, w, v);
    } else {
      ChosenIsOpen(s, b, v);
      assert NumberOk(s, b);
    }
  }
}
