/** Rounds of any number of servers: the steps that a whole range of servers takes one after the
    other, as single lemmas. */
module Crowd {
  import opened Wire
  import opened Roles
  import opened Consensus
  import opened Scenario

  /** The servers from lo to hi. */
  function Range(lo: nat, hi: nat): set<nat> {
    if hi <= lo then {} else Range(lo, hi - 1) + {hi - 1}
  }

  lemma {:induction false} RangeHas(lo: nat, hi: nat, a: nat)
    ensures a in Range(lo, hi) <==> lo <= a < hi
  {
    if hi <= lo {
    } else {
      RangeHas(lo, hi - 1, a);
    }
  }

  lemma {:induction false} RangeSize(lo: nat, hi: nat)
    requires lo <= hi
    ensures |Range(lo, hi)| == hi - lo
  {
    if lo == hi {
    } else {
      RangeSize(lo, hi - 1);
      RangeHas(lo, hi - 1, hi - 1);
    }
  }

  /** The packets of s stay in flight, but for the copies of m to the servers from lo to hi. */
  predicate KeepsBut(s: Inst, t: Inst, m: Message, lo: nat, hi: nat) {
    forall q :: q in s.flight && !(q.msg == m && lo <= q.dst < hi) ==> q in t.flight
  }

  predicate SameFrame(s: Inst, t: Inst) {
    |t.nodes| == |s.nodes| && t.seqno == s.seqno && t.submitted == s.submitted
  }

  /** Only the servers from lo to hi differ. */
  predicate OthersSame(s: Inst, t: Inst, lo: nat, hi: nat) {
    SameFrame(s, t) && forall a: nat :: a < |s.nodes| && !(lo <= a < hi) ==> t.nodes[a] == s.nodes[a]
  }

  /** x with acceptor state y, on disk if the logs are on. */
  function WithAcceptor(recovery: bool, x: Node, y: AcceptorState): Node {
    x.(acceptor := y, acceptorSlot := if recovery then Some(y) else x.acceptorSlot)
  }

  // ---- promising ----

  /** The servers from lo to hi can promise m. */
  predicate CanPromise(s: Inst, m: Message, was: nat, lo: nat, hi: nat) {
    && hi <= |s.nodes| && m.kind.PREPARE? && m.sequence == s.seqno && was < m.number
    && forall a: nat :: lo <= a < hi ==>
         s.nodes[a].acceptor == AcceptorState(was, 0, NO_VALUE) && !s.nodes[a].learner.informed
         && Packet(a, m) in s.flight
  }

  predicate PromisesOut(t: Inst, i: nat, b: nat, lo: nat, hi: nat) {
    forall a: nat :: lo <= a < hi ==> Packet(i, EmptyPromise(t.seqno, a, b)) in t.flight
  }

  /** From s to t the servers from lo to hi promised m. */
  predicate Promised(recovery: bool, s: Inst, t: Inst, m: Message, lo: nat, hi: nat) {
    && hi <= |s.nodes| && OthersSame(s, t, lo, hi)
    && (forall a: nat :: lo <= a < hi ==>
          t.nodes[a] == WithAcceptor(recovery, s.nodes[a], AcceptorState(m.number, 0, NO_VALUE)))
    && KeepsBut(s, t, m, lo, hi) && PromisesOut(t, m.fromId, m.number, lo, hi)
  }

  lemma NextPromised(recovery: bool, s: Inst, u: Inst, t: Inst, m: Message, lo: nat, a: nat)
    requires lo <= a < |s.nodes| && m.kind.PREPARE? && Promised(recovery, s, u, m, lo, a)
    requires t.seqno == u.seqno && t.submitted == u.submitted && Keeps(u, Packet(a, m), t)
    requires t.nodes == u.nodes[a := WithAcceptor(recovery, u.nodes[a], AcceptorState(m.number, 0, NO_VALUE))]
    requires Packet(m.fromId, EmptyPromise(u.seqno, a, m.number)) in t.flight
    ensures Promised(recovery, s, t, m, lo, a + 1)
  {
    forall b: nat | lo <= b < a + 1 ensures Packet(m.fromId, EmptyPromise(t.seqno, b, m.number)) in t.flight {
      if b < a {
        assert Packet(m.fromId, EmptyPromise(u.seqno, b, m.number)) in u.flight;
      }
    }
  }

  lemma OnePromises(cfg: Config, q: seq<Inst>, s: Inst, m: Message, was: nat, lo: nat, a: nat) returns (r: seq<Inst>)
    requires IsClientRun(cfg, q) && lo <= a && CanPromise(s, m, was, lo, a + 1)
    requires Promised(cfg.recovery, s, Last(q), m, lo, a)
    ensures Prolongs(cfg, q, r) && Promised(cfg.recovery, s, Last(r), m, lo, a + 1)
  {
    assert Packet(a, m) in s.flight;
    assert Packet(a, m) in Last(q).flight;
    r := PromiseFirst(cfg, q, a, m, was);
    NextPromised(cfg.recovery, s, Last(q), Last(r), m, lo, a);
  }

  lemma {:induction false} ManyPromise(cfg: Config, run: seq<Inst>, m: Message, was: nat, lo: nat, hi: nat)
    returns (r: seq<Inst>)
    requires IsClientRun(cfg, run) && lo <= hi && CanPromise(Last(run), m, was, lo, hi)
    ensures Prolongs(cfg, run, r) && Promised(cfg.recovery, Last(run), Last(r), m, lo, hi)
    decreases hi
  {
    if lo == hi {
      r := run;
      ClientRunIsRun(cfg, run);
    } else {
      var q := ManyPromise(cfg, run, m, was, lo, hi - 1);
      r := OnePromises(cfg, q, Last(run), m, was, lo, hi - 1);
      Chain(cfg, run, q, r);
    }
  }

  // ---- counting ----

  /** q is one of the promises for b that the servers from lo to hi made to i. */
  predicate IsPromiseOf(q: Packet, k: nat, i: nat, b: nat, lo: nat, hi: nat) {
    exists a: nat :: lo <= a < hi && q == Packet(i, EmptyPromise(k, a, b))
  }

  /** Of each counted promise one copy is gone; nothing else is. */
  predicate OneCopyLess(s: Inst, t: Inst, i: nat, b: nat, lo: nat, hi: nat) {
    && (forall q :: q in s.flight && !IsPromiseOf(q, s.seqno, i, b, lo, hi) ==> t.flight[q] >= s.flight[q])
    && forall q :: q in s.flight && s.flight[q] > 1 ==> t.flight[q] + 1 >= s.flight[q]
  }

  /** i can count an empty promise for b, which may be ahead of its number. */
  predicate CanCount(cfg: Config, s: Inst, i: nat, b: nat) {
    && i < |s.nodes|
    && var x := s.nodes[i].proposer;
    x.current <= b && (cfg.asserts ==> x.current == b) && x.highestNumber == 0 && !x.majority
  }

  lemma MoreEffect(n: nat, recovery: bool, i: nat, x: Node, m: Message)
    requires x.proposer.current <= m.extra && x.proposer.highestNumber == 0
    requires |x.proposer.promised + {m.fromId}| * 2 <= n && m.kind.PROMISE? && m.number == 0
    ensures Dispatch(n, recovery, i, x, m)
            == Quiet(x.(proposer := x.proposer.(promised := x.proposer.promised + {m.fromId})))
  {
  }

  /** A promise that is not yet enough. */
  lemma CountMore(cfg: Config, run: seq<Inst>, i: nat, a: nat, b: nat) returns (r: seq<Inst>)
    requires IsClientRun(cfg, run) && CanCount(cfg, Last(run), i, b)
    requires |Last(run).nodes[i].proposer.promised + {a}| * 2 <= |Last(run).nodes|
    requires Packet(i, EmptyPromise(Last(run).seqno, a, b)) in Last(run).flight
    ensures Prolongs(cfg, run, r) && r == run + [Last(r)]
    ensures var s, t := Last(run), Last(r);
            && t.seqno == s.seqno && t.submitted == s.submitted
            && t.flight == s.flight - multiset{Packet(i, EmptyPromise(s.seqno, a, b))}
            && t.nodes == s.nodes[i := s.nodes[i].(
                 proposer := s.nodes[i].proposer.(promised := s.nodes[i].proposer.promised + {a}))]
  {
    var p := Packet(i, EmptyPromise(Last(run).seqno, a, b));
    MoreEffect(|Last(run).nodes|, cfg.recovery, i, Last(run).nodes[i], p.msg);
    r := Grow(cfg, run, Deliver(p));
    assert Last(r).flight == Last(run).flight - multiset{p} + multiset([]);
  }

  /** From s to t proposer i counted the promises for b of the servers from lo to hi. */
  predicate Counted(s: Inst, t: Inst, i: nat, b: nat, lo: nat, hi: nat) {
    && i < |s.nodes| && SameFrame(s, t) && OneCopyLess(s, t, i, b, lo, hi)
    && t.nodes == s.nodes[i := s.nodes[i].(
         proposer := s.nodes[i].proposer.(promised := s.nodes[i].proposer.promised + Range(lo, hi)))]
  }

  lemma UnionSize(x: set<nat>, lo: nat, hi: nat)
    requires lo <= hi
    ensures |x + Range(lo, hi)| <= |x| + hi - lo
  {
    RangeSize(lo, hi);
    assert |x + Range(lo, hi)| + |x * Range(lo, hi)| == |x| + |Range(lo, hi)|;
  }

  lemma NextCounted(s: Inst, u: Inst, t: Inst, i: nat, b: nat, lo: nat, a: nat)
    requires lo <= a && Counted(s, u, i, b, lo, a) && t.seqno == u.seqno && t.submitted == u.submitted
    requires t.flight == u.flight - multiset{Packet(i, EmptyPromise(u.seqno, a, b))}
    requires t.nodes == u.nodes[i := u.nodes[i].(
               proposer := u.nodes[i].proposer.(promised := u.nodes[i].proposer.promised + {a}))]
    ensures Counted(s, t, i, b, lo, a + 1)
  {
    var x := s.nodes[i].proposer.promised;
    assert x + Range(lo, a) + {a} == x + Range(lo, a + 1);
    OneLess(s, u, t, i, b, lo, a + 1);
  }

  lemma OneCounts(cfg: Config, q: seq<Inst>, s: Inst, i: nat, b: nat, lo: nat, a: nat) returns (r: seq<Inst>)
    requires IsClientRun(cfg, q) && lo <= a && CanCount(cfg, s, i, b) && PromisesOut(s, i, b, lo, a + 1)
    requires |s.nodes[i].proposer.promised| + a + 1 - lo <= |s.nodes| / 2 && Counted(s, Last(q), i, b, lo, a)
    ensures Prolongs(cfg, q, r) && Counted(s, Last(r), i, b, lo, a + 1)
  {
    StillThere(s, Last(q), i, b, lo, a);
    UnionSize(s.nodes[i].proposer.promised, lo, a + 1);
    assert s.nodes[i].proposer.promised + Range(lo, a) + {a} == s.nodes[i].proposer.promised + Range(lo, a + 1);
    r := CountMore(cfg, q, i, a, b);
    NextCounted(s, Last(q), Last(r), i, b, lo, a);
  }

  /** The promise to be counted next has not been. */
  lemma StillThere(s: Inst, u: Inst, i: nat, b: nat, lo: nat, a: nat)
    requires lo <= a && PromisesOut(s, i, b, lo, a + 1) && Counted(s, u, i, b, lo, a)
    ensures Packet(i, EmptyPromise(u.seqno, a, b)) in u.flight
  {
    var p := Packet(i, EmptyPromise(s.seqno, a, b));
    assert !IsPromiseOf(p, s.seqno, i, b, lo, a);
  }

  lemma NoneCounted(cfg: Config, run: seq<Inst>, i: nat, b: nat, lo: nat)
    requires IsClientRun(cfg, run) && i < |Last(run).nodes|
    ensures Prolongs(cfg, run, run) && Counted(Last(run), Last(run), i, b, lo, lo)
  {
    ClientRunIsRun(cfg, run);
    var x := Last(run).nodes[i].proposer;
    assert x.(promised := x.promised + {}) == x;
  }

  /** i counts the promises for b of the servers from lo to hi, which are not yet enough. */
  lemma {:induction false} ManyCount(cfg: Config, run: seq<Inst>, i: nat, b: nat, lo: nat, hi: nat)
    returns (r: seq<Inst>)
    requires IsClientRun(cfg, run) && lo <= hi && CanCount(cfg, Last(run), i, b)
    requires PromisesOut(Last(run), i, b, lo, hi)
    requires |Last(run).nodes[i].proposer.promised| + hi - lo <= |Last(run).nodes| / 2
    ensures Prolongs(cfg, run, r) && Counted(Last(run), Last(r), i, b, lo, hi)
    decreases hi
  {
    if lo == hi {
      r := run;
      NoneCounted(cfg, run, i, b, lo);
    } else {
      var q := ManyCount(cfg, run, i, b, lo, hi - 1);
      r := OneCounts(cfg, q, Last(run), i, b, lo, hi - 1);
      Chain(cfg, run, q, r);
    }
  }

  lemma OneLess(s: Inst, u: Inst, t: Inst, i: nat, b: nat, lo: nat, hi: nat)
    requires lo < hi && OneCopyLess(s, u, i, b, lo, hi - 1) && u.seqno == s.seqno
    requires t.flight == u.flight - multiset{Packet(i, EmptyPromise(s.seqno, hi - 1, b))}
    ensures OneCopyLess(s, t, i, b, lo, hi)
  {
    var p := Packet(i, EmptyPromise(s.seqno, hi - 1, b));
    assert IsPromiseOf(p, s.seqno, i, b, lo, hi) && !IsPromiseOf(p, s.seqno, i, b, lo, hi - 1);
    forall q | q in s.flight ensures q != p ==> t.flight[q] == u.flight[q] {
    }
    forall q | q in s.flight && !IsPromiseOf(q, s.seqno, i, b, lo, hi) ensures t.flight[q] >= s.flight[q] {
      assert !IsPromiseOf(q, s.seqno, i, b, lo, hi - 1);
    }
  }

  // ---- accepting ----

  predicate CanAccept(s: Inst, m: Message, lo: nat, hi: nat) {
    && hi <= |s.nodes| && m.kind.ACCEPT? && m.number > 0
    && forall a: nat :: lo <= a < hi ==>
         s.nodes[a].acceptor.prepare <= m.number && !s.nodes[a].learner.informed && Packet(a, m) in s.flight
  }

  /** From s to t the servers from lo to hi accepted m. */
  predicate Accepted(recovery: bool, s: Inst, t: Inst, m: Message, lo: nat, hi: nat) {
    && hi <= |s.nodes| && OthersSame(s, t, lo, hi)
    && (forall a: nat :: lo <= a < hi ==>
          t.nodes[a] == WithAcceptor(recovery, s.nodes[a], AcceptorState(m.number, m.number, m.value)))
    && KeepsBut(s, t, m, lo, hi)
    && forall a: nat :: lo <= a < hi ==> Packet(m.fromId, Vote(a, m)) in t.flight
  }

  ghost predicate AllHeld(r: seq<Inst>, m: Message, lo: nat, hi: nat) {
    forall a: nat :: lo <= a < hi ==> HeldIn(r, a, m.number, m.value)
  }

  lemma NextAccepted(recovery: bool, s: Inst, u: Inst, t: Inst, m: Message, lo: nat, a: nat)
    requires lo <= a < |s.nodes| && m.kind.ACCEPT? && Accepted(recovery, s, u, m, lo, a)
    requires t.seqno == u.seqno && t.submitted == u.submitted && Keeps(u, Packet(a, m), t)
    requires t.nodes == u.nodes[a := WithAcceptor(recovery, u.nodes[a], AcceptorState(m.number, m.number, m.value))]
    requires Packet(m.fromId, Vote(a, m)) in t.flight
    ensures Accepted(recovery, s, t, m, lo, a + 1)
  {
    forall b: nat | lo <= b < a + 1 ensures Packet(m.fromId, Vote(b, m)) in t.flight {
      if b < a {
        assert Packet(m.fromId, Vote(b, m)) in u.flight;
      }
    }
  }

  lemma OneAccepts(cfg: Config, q: seq<Inst>, s: Inst, m: Message, lo: nat, a: nat) returns (r: seq<Inst>)
    requires IsClientRun(cfg, q) && lo <= a && CanAccept(s, m, lo, a + 1)
    requires Accepted(cfg.recovery, s, Last(q), m, lo, a)
    ensures Prolongs(cfg, q, r) && Accepted(cfg.recovery, s, Last(r), m, lo, a + 1)
    ensures HeldIn(r, a, m.number, m.value)
  {
    assert Packet(a, m) in s.flight;
    assert Packet(a, m) in Last(q).flight;
    r := AcceptNow(cfg, q, a, m);
    NextAccepted(cfg.recovery, s, Last(q), Last(r), m, lo, a);
  }

  lemma {:induction false} ManyAccept(cfg: Config, run: seq<Inst>, m: Message, lo: nat, hi: nat)
    returns (r: seq<Inst>)
    requires IsClientRun(cfg, run) && lo <= hi && CanAccept(Last(run), m, lo, hi)
    ensures Prolongs(cfg, run, r) && Accepted(cfg.recovery, Last(run), Last(r), m, lo, hi) && AllHeld(r, m, lo, hi)
    decreases hi
  {
    if lo == hi {
      r := run;
      ClientRunIsRun(cfg, run);
    } else {
      var q := ManyAccept(cfg, run, m, lo, hi - 1);
      r := OneAccepts(cfg, q, Last(run), m, lo, hi - 1);
      Chain(cfg, run, q, r);
      HeldOn(cfg, q, r, m, lo, hi - 1);
    }
  }

  lemma HeldOn(cfg: Config, q: seq<Inst>, r: seq<Inst>, m: Message, lo: nat, hi: nat)
    requires Prolongs(cfg, q, r) && AllHeld(q, m, lo, hi)
    ensures AllHeld(r, m, lo, hi)
  {
  }

  // ---- crashing, duplicating ----

  lemma {:induction false} ManyCrash(cfg: Config, run: seq<Inst>, lo: nat, hi: nat) returns (r: seq<Inst>)
    requires IsClientRun(cfg, run) && cfg.crashes && lo <= hi <= |Last(run).nodes|
    ensures Prolongs(cfg, run, r) && OthersSame(Last(run), Last(r), lo, hi) && Last(r).flight == Last(run).flight
    ensures forall a: nat :: lo <= a < hi ==>
              Last(r).nodes[a] == Restart(|Last(run).nodes|, a, Last(run).nodes[a])
    decreases hi
  {
    if lo == hi {
      r := run;
      ClientRunIsRun(cfg, run);
    } else {
      var q := ManyCrash(cfg, run, lo, hi - 1);
      r := CrashNow(cfg, q, hi - 1);
      Chain(cfg, run, q, r);
    }
  }

  /** A second copy of every promise for b that the servers from lo to hi made to i. */
  lemma {:induction false} ManyAgain(cfg: Config, run: seq<Inst>, i: nat, b: nat, lo: nat, hi: nat)
    returns (r: seq<Inst>)
    requires IsClientRun(cfg, run) && cfg.duplicates && lo <= hi && PromisesOut(Last(run), i, b, lo, hi)
    ensures Prolongs(cfg, run, r) && SameFrame(Last(run), Last(r)) && Last(r).nodes == Last(run).nodes
    ensures Last(run).flight <= Last(r).flight
    ensures forall a: nat :: lo <= a < hi ==> Last(r).flight[Packet(i, EmptyPromise(Last(r).seqno, a, b))] > 1
    decreases hi
  {
    if lo == hi {
      r := run;
      ClientRunIsRun(cfg, run);
    } else {
      var q := ManyAgain(cfg, run, i, b, lo, hi - 1);
      var p := Packet(i, EmptyPromise(Last(run).seqno, hi - 1, b));
      assert Last(run).flight[p] <= Last(q).flight[p];
      r := Again(cfg, q, p);
      Chain(cfg, run, q, r);
    }
  }

  // ---- learning ----

  /** Votes and decisions stay in flight. */
  predicate KeepsRest(s: Inst, t: Inst) {
    forall q :: q in s.flight && (q.msg.kind.ACCEPTED? || q.msg.kind.INFORM?) ==> q in t.flight
  }

  /** The votes of server 0 and of the servers from lo to hi for m are on their way to server 0. */
  predicate VotesOut(t: Inst, m: Message, lo: nat, hi: nat) {
    && Packet(0, Vote(0, m)) in t.flight
    && forall a: nat :: lo <= a < hi ==> Packet(0, Vote(a, m)) in t.flight
  }

  predicate IsVoteFor(q: Packet, v: ProposalValue) {
    q.dst == 0 && q.msg.kind.ACCEPTED? && q.msg.value == v
  }

  /** Whatever is no vote for v stays in flight. */
  predicate KeepsButVotes(s: Inst, t: Inst, v: ProposalValue) {
    forall q :: q in s.flight && !IsVoteFor(q, v) ==> q in t.flight
  }

  lemma VoteMoreEffect(n: nat, recovery: bool, x: Node, m: Message, q: set<nat>)
    requires x.learner == LearnerState(m.number, m.value, q, false, false) && |q + {m.fromId}| * 2 <= n
    requires m.kind.ACCEPTED?
    ensures Dispatch(n, recovery, 0, x, m)
            == Quiet(x.(learner := LearnerState(m.number, m.value, q + {m.fromId}, false, false)))
  {
  }

  /** A vote that is not yet enough. */
  lemma VoteMore(cfg: Config, run: seq<Inst>, m: Message, q: set<nat>) returns (r: seq<Inst>)
    requires IsClientRun(cfg, run) && 0 < |Last(run).nodes| && m.kind.ACCEPTED? && Packet(0, m) in Last(run).flight
    requires Last(run).nodes[0].learner == LearnerState(m.number, m.value, q, false, false)
    requires |q + {m.fromId}| * 2 <= |Last(run).nodes|
    ensures IsClientRun(cfg, r) && r == run + [Last(r)]
    ensures var s, t := Last(run), Last(r);
            && t.seqno == s.seqno && t.submitted == s.submitted && Keeps(s, Packet(0, m), t)
            && t.nodes == s.nodes[0 := s.nodes[0].(
                 learner := LearnerState(m.number, m.value, q + {m.fromId}, false, false))]
  {
    VoteMoreEffect(|Last(run).nodes|, cfg.recovery, Last(run).nodes[0], m, q);
    r := Grow(cfg, run, Deliver(Packet(0, m)));
    assert Last(r).flight == Last(run).flight - multiset{Packet(0, m)} + multiset([]);
  }

  /** Server 0 has counted its own vote for m and those of the servers from lo to hi. */
  predicate Tallied(s: Inst, t: Inst, m: Message, lo: nat, hi: nat) {
    && 0 < |s.nodes| && SameFrame(s, t) && KeepsButVotes(s, t, m.value)
    && t.nodes == s.nodes[0 := s.nodes[0].(
         learner := LearnerState(m.number, m.value, {0} + Range(lo, hi), false, false))]
  }

  lemma OneTallies(cfg: Config, q: seq<Inst>, s: Inst, m: Message, lo: nat, a: nat) returns (r: seq<Inst>)
    requires IsClientRun(cfg, q) && 1 <= lo <= a && (a + 2 - lo) * 2 <= |s.nodes| && Tallied(s, Last(q), m, lo, a)
    requires forall b: nat :: a <= b < a + 1 ==> Packet(0, Vote(b, m)) in Last(q).flight
    ensures IsClientRun(cfg, r) && q <= r && Tallied(s, Last(r), m, lo, a + 1)
    ensures forall b: nat :: b != a && Packet(0, Vote(b, m)) in Last(q).flight
              ==> Packet(0, Vote(b, m)) in Last(r).flight
  {
    var x := {0 as nat};
    assert x + Range(lo, a) + {a} == x + Range(lo, a + 1);
    UnionSize(x, lo, a + 1);
    r := VoteMore(cfg, q, Vote(a, m), x + Range(lo, a));
  }

  /** Server 0 counts its own vote and those of the servers from lo to hi, which are not enough. */
  lemma {:induction false} ManyVotes(cfg: Config, run: seq<Inst>, m: Message, lo: nat, hi: nat, all: nat)
    returns (r: seq<Inst>)
    requires IsClientRun(cfg, run) && 1 <= lo <= hi <= all && (hi + 1 - lo) * 2 <= |Last(run).nodes|
    requires 2 <= |Last(run).nodes| && Last(run).nodes[0].learner == INIT_LEARNER && m.number > 0
    requires VotesOut(Last(run), m, lo, all)
    ensures IsClientRun(cfg, r) && run <= r && Tallied(Last(run), Last(r), m, lo, hi)
    ensures forall a: nat :: hi <= a < all ==> Packet(0, Vote(a, m)) in Last(r).flight
    decreases hi
  {
    if lo == hi {
      r := VoteFirst(cfg, run, 0, Vote(0, m));
      assert {0 as nat} + Range(lo, lo) == {0};
    } else {
      var q := ManyVotes(cfg, run, m, lo, hi - 1, all);
      r := OneTallies(cfg, q, Last(run), m, lo, hi - 1);
    }
  }

  /** The last of those votes: server 0 has learned m's value. */
  lemma LearnMany(cfg: Config, run: seq<Inst>, m: Message, lo: nat, hi: nat) returns (r: seq<Inst>)
    requires IsClientRun(cfg, run) && 1 <= lo < hi && 2 <= |Last(run).nodes|
    requires (hi - lo) * 2 <= |Last(run).nodes| < (hi - lo + 1) * 2
    requires Last(run).nodes[0].learner == INIT_LEARNER && m.number > 0 && VotesOut(Last(run), m, lo, hi)
    ensures IsClientRun(cfg, r) && run <= r
    ensures SameFrame(Last(run), Last(r)) && KeepsButVotes(Last(run), Last(r), m.value)
    ensures SentToAll(Last(r), Decision(0, Vote(hi - 1, m)))
    ensures var s, t := Last(run), Last(r);
            && t.nodes[0] == s.nodes[0].(learner := t.nodes[0].learner, timer := None)
            && !t.nodes[0].learner.informed
            && forall a: nat :: 1 <= a < |s.nodes| ==> t.nodes[a] == s.nodes[a]
  {
    var q := ManyVotes(cfg, run, m, lo, hi - 1, hi);
    var x := {0 as nat} + Range(lo, hi - 1);
    TallySize(lo, hi);
    r := VoteLast(cfg, q, 0, Vote(hi - 1, m), x);
  }

  lemma TallySize(lo: nat, hi: nat)
    requires 1 <= lo < hi
    ensures |{0 as nat} + Range(lo, hi - 1) + {hi - 1}| == hi - lo + 1
  {
    RangeSize(lo, hi);
    RangeHas(lo, hi, 0);
    assert {0 as nat} + Range(lo, hi - 1) + {hi - 1} == {0} + Range(lo, hi);
  }
}
