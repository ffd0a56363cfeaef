/** The inductive invariant behind agreement, stated over what has been sent and what the
    roles hold. It is common to the crash-free and the crash-recovery environment. */
module Invariant {
  import opened Wire
  import opened Roles
  import opened Consensus

  /** The server whose proposer uses number b: numbers are dealt out modulo n. */
  function Owner(n: nat, b: nat): nat {
    if n == 0 || b < n then b else Owner(n, b - n)
  }

  lemma {:induction false} OwnerIsResidue(n: nat, b: nat)
    requires n > 0
    ensures Owner(n, b) == b % n
  {
    if b >= n {
      OwnerIsResidue(n, b - n);
      assert b % n == (b - n) % n by { ModStep(n, b); }
    }
  }

  lemma ModStep(n: nat, b: nat)
    requires 0 < n <= b
    ensures b % n == (b - n) % n
  {
    var q, r := (b - n) / n, (b - n) % n;
    assert b == (q + 1) * n + r;
    DivisionUnique(n, b, q + 1, r);
  }

  lemma DivisionUnique(n: nat, b: nat, q: nat, r: nat)
    requires r < n && b == q * n + r
    ensures b % n == r
  {
    assert (b / n - q) * n == r - b % n;
    SmallMultiple(n, b / n - q);
  }

  lemma SmallMultiple(n: nat, d: int)
    requires 0 - n < d * n < n
    ensures d == 0
  {
  }

  // ---- facts recorded in the history ----

  predicate Voted(s: Inst, a: nat, b: nat, v: ProposalValue) {
    Packet(Owner(|s.nodes|, b), Message(ACCEPTED, s.seqno, a, b, v, b)) in s.sent
  }

  /** An acceptor answered prepare number b, reporting proposal (c, v). */
  predicate Promised(s: Inst, a: nat, b: nat, c: nat, v: ProposalValue) {
    Packet(Owner(|s.nodes|, b), Message(PROMISE, s.seqno, a, c, v, b)) in s.sent
  }

  predicate Proposed(s: Inst, b: nat, v: ProposalValue) {
    Packet(0, Message(ACCEPT, s.seqno, Owner(|s.nodes|, b), b, v, b)) in s.sent
  }

  ghost predicate AllVoted(s: Inst, q: set<nat>, b: nat, v: ProposalValue) {
    Majority(|s.nodes|, q) && forall a :: a in q ==> Voted(s, a, b, v)
  }

  ghost predicate Chosen(s: Inst, b: nat, v: ProposalValue) {
    exists q :: AllVoted(s, q, b, v)
  }

  ghost predicate NoVotesBetween(s: Inst, a: nat, c: nat, b: nat) {
    forall d: nat, u :: Voted(s, a, d, u) ==> d <= c || b <= d
  }

  predicate PrepareAtLeast(s: Inst, a: nat, b: nat) {
    a < |s.nodes| && s.nodes[a].acceptor.prepare >= b
  }

  /** Property P2c of "Paxos Made Simple": majority q will never vote strictly between c and b,
      and either c is 0 or member w voted for v at c. */
  ghost predicate Shows(s: Inst, q: set<nat>, w: nat, c: nat, b: nat, v: ProposalValue) {
    && Majority(|s.nodes|, q)
    && c < b
    && (c > 0 ==> w in q && Voted(s, w, c, v))
    && forall a :: a in q ==> PrepareAtLeast(s, a, b) && NoVotesBetween(s, a, c, b)
  }

  ghost predicate Safe(s: Inst, b: nat, v: ProposalValue) {
    exists q, w, c :: Shows(s, q, w, c, b, v)
  }

  /** Two proposals that share a number share their value. */
  ghost predicate OneValue(s: Inst) {
    forall b, v, w :: Proposed(s, b, v) && Proposed(s, b, w) ==> v == w
  }

  // ---- packets ----

  ghost predicate PromiseInv(s: Inst, p: Packet) {
    && p.dst == Owner(|s.nodes|, p.msg.extra)
    && p.msg.number < p.msg.extra
    && p.msg.extra >= 2 * |s.nodes|
    && PrepareAtLeast(s, p.msg.fromId, p.msg.extra)
    && NoVotesBetween(s, p.msg.fromId, p.msg.number, p.msg.extra)
    && (p.msg.number > 0 ==> Voted(s, p.msg.fromId, p.msg.number, p.msg.value))
  }

  ghost predicate AcceptInv(s: Inst, p: Packet) {
    && p.msg.fromId == Owner(|s.nodes|, p.msg.number)
    && p.msg.extra == p.msg.number
    && p.msg.number >= 2 * |s.nodes|
    && Proposed(s, p.msg.number, p.msg.value)
    && Safe(s, p.msg.number, p.msg.value)
  }

  predicate AcceptedInv(s: Inst, p: Packet) {
    && p.dst == Owner(|s.nodes|, p.msg.number)
    && p.msg.extra == p.msg.number
    && p.msg.number >= 2 * |s.nodes|
    && Proposed(s, p.msg.number, p.msg.value)
  }

  ghost predicate PacketInv(s: Inst, p: Packet) {
    && p.dst < |s.nodes| && p.msg.fromId < |s.nodes| && p.msg.sequence == s.seqno
    && match p.msg.kind
       case PREPARE => p.msg.number >= 2 * |s.nodes| && p.msg.fromId == Owner(|s.nodes|, p.msg.number)
       case PROMISE => PromiseInv(s, p)
       case DENIAL => p.dst == Owner(|s.nodes|, p.msg.extra)
       case ACCEPT => AcceptInv(s, p)
       case ACCEPTED => AcceptedInv(s, p)
       case REJECTED => true
       case INFORM => Chosen(s, p.msg.number, p.msg.value)
       case _ => false
  }

  // ---- roles ----

  ghost predicate AcceptorInv(s: Inst, a: nat)
    requires a < |s.nodes|
  {
    var x := s.nodes[a].acceptor;
    && x.number <= x.prepare
    && (x.number > 0 ==> Voted(s, a, x.number, x.value))
    && forall d: nat, u :: Voted(s, a, d, u) ==> d <= x.number
  }

  /** Acceptor a's promise for b is in the history and reports a number of at most h. */
  ghost predicate Absorbed(s: Inst, a: nat, b: nat, h: nat) {
    a < |s.nodes| && exists c: nat, v :: Promised(s, a, b, c, v) && c <= h
  }

  ghost predicate ProposerInv(s: Inst, i: nat)
    requires i < |s.nodes|
  {
    var x := s.nodes[i].proposer;
    && x.current >= |s.nodes|
    && Owner(|s.nodes|, x.current) == i
    && (forall a :: a in x.promised ==> Absorbed(s, a, x.current, x.highestNumber))
    && (x.highestNumber > 0 ==>
          exists a :: a in x.promised && Promised(s, a, x.current, x.highestNumber, x.highestValue))
    && forall a :: a in x.denied ==> a < |s.nodes|
  }

  ghost predicate LearnerInv(s: Inst, i: nat)
    requires i < |s.nodes|
  {
    var x := s.nodes[i].learner;
    && (!x.informed ==> forall a :: a in x.accepted ==> a < |s.nodes| && Voted(s, a, x.number, x.value))
    && (!x.informed && x.number > 0 ==> Proposed(s, x.number, x.value))
    && (Decided(x) ==> Chosen(s, x.number, x.value))
  }

  predicate TimerInv(s: Inst, i: nat)
    requires i < |s.nodes|
  {
    s.nodes[i].timer.Some? ==> s.nodes[i].timer.value.sequence == s.seqno
  }

  /** The log slots hold exactly the acceptor's state and, once informed, the decision. */
  predicate DiskInv(x: Node) {
    && x.acceptor == (if x.acceptorSlot.Some? then x.acceptorSlot.value else INIT_ACCEPTOR)
    && (x.learnerSlot.Some? <==> x.learner.informed)
    && (x.learnerSlot.Some? ==> x.learnerSlot.value == Informed(x.learner.number, x.learner.value))
  }

  ghost predicate NodeInv(s: Inst, i: nat)
    requires i < |s.nodes|
  {
    AcceptorInv(s, i) && ProposerInv(s, i) && LearnerInv(s, i) && TimerInv(s, i)
  }

  ghost predicate Core(s: Inst) {
    && |s.nodes| > 0
    && (forall p :: p in s.flight ==> p in s.sent)
    && (forall p :: p in s.sent ==> PacketInv(s, p))
    && forall i :: 0 <= i < |s.nodes| ==> NodeInv(s, i)
  }

  // ---- what every event does to the recorded facts ----

  /** From s to t the history grows, prepare numbers do not fall, and the only new votes are
      server i's, at or above its old prepare number. */
  ghost predicate Extends(s: Inst, t: Inst, i: nat) {
    && |t.nodes| == |s.nodes| && t.seqno == s.seqno
    && s.sent <= t.sent
    && (forall a :: 0 <= a < |s.nodes| ==> s.nodes[a].acceptor.prepare <= t.nodes[a].acceptor.prepare)
    && (forall a: nat, d: nat, u :: Voted(t, a, d, u) ==>
          Voted(s, a, d, u) || (a == i && PrepareAtMost(s, a, d)))
  }

  predicate PrepareAtMost(s: Inst, a: nat, d: nat) {
    a < |s.nodes| && s.nodes[a].acceptor.prepare <= d
  }

  lemma NoVotesStable(s: Inst, t: Inst, i: nat, a: nat, c: nat, b: nat)
    requires Extends(s, t, i) && NoVotesBetween(s, a, c, b) && PrepareAtLeast(s, a, b)
    ensures NoVotesBetween(t, a, c, b) && PrepareAtLeast(t, a, b)
  {
    forall d: nat, u | Voted(t, a, d, u) ensures d <= c || b <= d {
      assert Voted(s, a, d, u) || PrepareAtMost(s, a, d);
    }
  }

  lemma ChosenStable(s: Inst, t: Inst, i: nat, b: nat, v: ProposalValue)
    requires Extends(s, t, i) && Chosen(s, b, v)
    ensures Chosen(t, b, v)
  {
    var q :| AllVoted(s, q, b, v);
    forall a | a in q ensures Voted(t, a, b, v) {
      assert Voted(s, a, b, v);
    }
    assert AllVoted(t, q, b, v);
  }

  lemma ShowsStable(s: Inst, t: Inst, i: nat, q: set<nat>, w: nat, c: nat, b: nat, v: ProposalValue)
    requires Extends(s, t, i) && Shows(s, q, w, c, b, v)
    ensures Shows(t, q, w, c, b, v)
  {
    forall a | a in q ensures PrepareAtLeast(t, a, b) && NoVotesBetween(t, a, c, b) {
      NoVotesStable(s, t, i, a, c, b);
    }
    if c > 0 {
      assert Voted(s, w, c, v);
    }
  }

  lemma SafeStable(s: Inst, t: Inst, i: nat, b: nat, v: ProposalValue)
    requires Extends(s, t, i) && Safe(s, b, v)
    ensures Safe(t, b, v)
  {
    var q, w, c :| Shows(s, q, w, c, b, v);
    ShowsStable(s, t, i, q, w, c, b, v);
  }

  /** What a packet told at sending time stays true. */
  lemma PacketStable(s: Inst, t: Inst, i: nat, p: Packet)
    requires Extends(s, t, i) && PacketInv(s, p)
    ensures PacketInv(t, p)
  {
    match p.msg.kind
    case PROMISE =>
      NoVotesStable(s, t, i, p.msg.fromId, p.msg.number, p.msg.extra);
      assert p.msg.number > 0 ==> Voted(s, p.msg.fromId, p.msg.number, p.msg.value);
    case ACCEPT =>
      SafeStable(s, t, i, p.msg.number, p.msg.value);
      assert Proposed(s, p.msg.number, p.msg.value);
    case ACCEPTED =>
      assert Proposed(s, p.msg.number, p.msg.value);
    case INFORM =>
      ChosenStable(s, t, i, p.msg.number, p.msg.value);
    case _ =>
  }

  lemma ProposerStable(s: Inst, t: Inst, i: nat, j: nat)
    requires Extends(s, t, i) && j < |s.nodes|
    requires t.nodes[j].proposer == s.nodes[j].proposer
    requires ProposerInv(s, j)
    ensures ProposerInv(t, j)
  {
    var x := s.nodes[j].proposer;
    forall a | a in x.promised ensures Absorbed(t, a, x.current, x.highestNumber) {
      AbsorbedStable(s, t, i, a, x.current, x.highestNumber);
    }
    if x.highestNumber > 0 {
      var a :| a in x.promised && Promised(s, a, x.current, x.highestNumber, x.highestValue);
      assert Promised(t, a, x.current, x.highestNumber, x.highestValue);
    }
  }

  lemma AbsorbedStable(s: Inst, t: Inst, i: nat, a: nat, b: nat, h: nat)
    requires Extends(s, t, i) && Absorbed(s, a, b, h)
    ensures Absorbed(t, a, b, h)
  {
    var c: nat, v :| Promised(s, a, b, c, v) && c <= h;
    assert Promised(t, a, b, c, v);
  }

  lemma LearnerStable(s: Inst, t: Inst, i: nat, j: nat)
    requires Extends(s, t, i) && j < |s.nodes|
    requires t.nodes[j].learner == s.nodes[j].learner
    requires LearnerInv(s, j)
    ensures LearnerInv(t, j)
  {
    var x := s.nodes[j].learner;
    if Decided(x) {
      ChosenStable(s, t, i, x.number, x.value);
    }
    if !x.informed {
      forall a | a in x.accepted ensures Voted(t, a, x.number, x.value) {
        assert Voted(s, a, x.number, x.value);
      }
      assert x.number > 0 ==> Proposed(s, x.number, x.value);
    }
  }

  lemma AcceptorStable(s: Inst, t: Inst, i: nat, j: nat)
    requires Extends(s, t, i) && j < |s.nodes| && j != i
    requires t.nodes[j].acceptor == s.nodes[j].acceptor
    requires AcceptorInv(s, j)
    ensures AcceptorInv(t, j)
  {
    var x := s.nodes[j].acceptor;
    assert x.number > 0 ==> Voted(s, j, x.number, x.value);
  }

  lemma NodeStable(s: Inst, t: Inst, i: nat, j: nat)
    requires Extends(s, t, i) && j < |s.nodes| && j != i
    requires t.nodes[j] == s.nodes[j]
    requires NodeInv(s, j)
    ensures NodeInv(t, j)
  {
    AcceptorStable(s, t, i, j);
    ProposerStable(s, t, i, j);
    LearnerStable(s, t, i, j);
  }
}
