/** Exactly when agreement and validity hold, for deployments of each size. */
module Sizes {
  import opened Wire
  import opened Roles
  import opened Consensus
  import opened Agreement
  import opened Validity
  import opened Scenario
  import opened Crowd
  import opened Loose
  import opened Release

  /** The least number of servers that is a majority. */
  function Most(n: nat): nat {
    n / 2 + 1
  }

  function Ask(k: nat, n: nat, v: ProposalValue): Message {
    Message(PREPARE, k, 0, 2 * n, v, 0)
  }

  function Offer(k: nat, n: nat, v: ProposalValue, extra: nat): Message {
    Message(ACCEPT, k, 0, 2 * n, v, extra)
  }

  /** Nobody has decided. */
  predicate Undecided(t: Inst, n: nat) {
    && |t.nodes| == n > 0
    && forall a: nat :: a < n ==> t.nodes[a].learner == INIT_LEARNER && t.nodes[a].learnerSlot.None?
  }

  predicate EmptyUpTo(t: Inst, b: nat, lo: nat, hi: nat) {
    hi <= |t.nodes| && forall a: nat :: lo <= a < hi ==> t.nodes[a].acceptor == AcceptorState(b, 0, NO_VALUE)
  }

  predicate OnDisk(t: Inst, recovery: bool, lo: nat, hi: nat) {
    && hi <= |t.nodes|
    && forall a: nat :: lo <= a < hi ==>
         t.nodes[a].acceptorSlot == if recovery then Some(t.nodes[a].acceptor) else None
  }

  /** Server 0 has not begun, and the first hi acceptors are new. */
  predicate Unasked(t: Inst, n: nat, hi: nat) {
    && Undecided(t, n) && EmptyUpTo(t, 0, 0, hi) && t.nodes[0].proposer.current == n
    && forall a: nat :: a < hi ==> t.nodes[a].acceptorSlot.None?
  }

  /** The promises for 2n of the first Most(n) servers are in flight. */
  predicate Asked(t: Inst, recovery: bool, n: nat, v: ProposalValue) {
    && Undecided(t, n) && EmptyUpTo(t, 2 * n, 0, Most(n)) && OnDisk(t, recovery, 0, Most(n))
    && t.nodes[0].proposer == ProposerState(2 * n, 0, v, {}, {}, false)
    && PromisesOut(t, 0, 2 * n, 0, Most(n))
  }

  lemma Asks(cfg: Config, run: seq<Inst>, v: ProposalValue) returns (r: seq<Inst>)
    requires IsClientRun(cfg, run) && Unasked(Last(run), cfg.n, Most(cfg.n)) && Most(cfg.n) <= cfg.n
    ensures Prolongs(cfg, run, r) && Asked(Last(r), cfg.recovery, cfg.n, v) && Last(r).seqno == Last(run).seqno
    ensures Last(r).submitted == Last(run).submitted + {v} && KeepsRest(Last(run), Last(r))
    ensures forall a: nat :: Most(cfg.n) <= a < cfg.n ==> Last(r).nodes[a] == Last(run).nodes[a]
  {
    var n, s := cfg.n, Last(run);
    var r1 := Begin(cfg, run, 0, v);
    assert Prepare(s, 0, v, 0) == Ask(s.seqno, n, v);
    r := ManyPromise(cfg, r1, Ask(s.seqno, n, v), 0, 0, Most(n));
    Chain(cfg, run, r1, r);
  }

  /** Server 0 counts the promises for b of a majority and proposes. */
  lemma CountsAll(cfg: Config, run: seq<Inst>, b: nat) returns (r: seq<Inst>)
    requires IsClientRun(cfg, run) && |Last(run).nodes| == cfg.n > 0 && CanCount(cfg, Last(run), 0, b)
    requires Last(run).nodes[0].proposer.promised == {} && PromisesOut(Last(run), 0, b, 0, Most(cfg.n))
    ensures Prolongs(cfg, run, r) && SameFrame(Last(run), Last(r)) && KeepsRest(Last(run), Last(r))
    ensures SentToAll(Last(r), Accept(Last(run), 0, b)) && Packet(0, Accept(Last(run), 0, b)) in Last(r).sent
    ensures var s, t := Last(run), Last(r);
            && t.nodes[0] == s.nodes[0].(proposer := t.nodes[0].proposer, timer := Some(Accept(s, 0, b)))
            && t.nodes[0].proposer.current == s.nodes[0].proposer.current
            && forall a: nat :: 1 <= a < cfg.n ==> t.nodes[a] == s.nodes[a]
    ensures forall a: nat :: a < Most(cfg.n) ==>
              var p := Packet(0, EmptyPromise(Last(run).seqno, a, b));
              Last(run).flight[p] > 1 ==> p in Last(r).flight
  {
    var m, s := Most(cfg.n), Last(run);
    var r1 := ManyCount(cfg, run, 0, b, 0, m - 1);
    var p := Packet(0, EmptyPromise(s.seqno, m - 1, b));
    assert !IsPromiseOf(p, s.seqno, 0, b, 0, m - 1);
    assert p in s.flight;
    RangeSize(0, m);
    assert {} + Range(0, m - 1) + {m - 1} == Range(0, m);
    r := CountLast(cfg, r1, 0, m - 1, b);
    Chain(cfg, run, r1, r);
    RestStays(s, Last(r1), Last(r), b, m);
    CopiesStay(s, Last(r1), Last(r), b, m);
  }

  lemma RestStays(s: Inst, u: Inst, t: Inst, b: nat, m: nat)
    requires m > 0 && OneCopyLess(s, u, 0, b, 0, m - 1)
    requires Keeps(u, Packet(0, EmptyPromise(s.seqno, m - 1, b)), t)
    ensures KeepsRest(s, t)
  {
    forall q | q in s.flight && (q.msg.kind.ACCEPTED? || q.msg.kind.INFORM?) ensures q in t.flight {
      assert !IsPromiseOf(q, s.seqno, 0, b, 0, m - 1);
    }
  }

  lemma CopiesStay(s: Inst, u: Inst, t: Inst, b: nat, m: nat)
    requires m > 0 && OneCopyLess(s, u, 0, b, 0, m - 1) && u.seqno == s.seqno
    requires var p := Packet(0, EmptyPromise(s.seqno, m - 1, b));
             Keeps(u, p, t) && (u.flight[p] > 1 ==> p in t.flight)
    ensures forall a: nat :: a < m ==>
              var p := Packet(0, EmptyPromise(s.seqno, a, b));
              s.flight[p] > 1 ==> p in t.flight
  {
    forall a: nat | a < m
      ensures var p := Packet(0, EmptyPromise(s.seqno, a, b)); s.flight[p] > 1 ==> p in t.flight
    {
      var p := Packet(0, EmptyPromise(s.seqno, a, b));
      if s.flight[p] > 1 {
        if a == m - 1 {
          assert !IsPromiseOf(p, s.seqno, 0, b, 0, m - 1);
        }
        assert u.flight[p] >= 1;
      }
    }
  }

  /** Server 0 has counted a majority and proposes v. */
  lemma Offers(cfg: Config, run: seq<Inst>, v: ProposalValue) returns (r: seq<Inst>)
    requires IsClientRun(cfg, run) && |Last(run).nodes| == cfg.n > 0
    requires Last(run).nodes[0].proposer == ProposerState(2 * cfg.n, 0, v, {}, {}, false)
    requires PromisesOut(Last(run), 0, 2 * cfg.n, 0, Most(cfg.n))
    ensures Prolongs(cfg, run, r) && SameFrame(Last(run), Last(r)) && KeepsRest(Last(run), Last(r))
    ensures SentToAll(Last(r), Offer(Last(r).seqno, cfg.n, v, 2 * cfg.n))
    ensures var s, t := Last(run), Last(r);
            && t.nodes[0] == s.nodes[0].(proposer := t.nodes[0].proposer, timer := t.nodes[0].timer)
            && t.nodes[0].proposer.current == 2 * cfg.n
            && t.nodes[0].timer == Some(Offer(s.seqno, cfg.n, v, 2 * cfg.n))
            && forall a: nat :: 1 <= a < cfg.n ==> t.nodes[a] == s.nodes[a]
    ensures forall a: nat :: a < Most(cfg.n) ==>
              var p := Packet(0, EmptyPromise(Last(run).seqno, a, 2 * cfg.n));
              Last(run).flight[p] > 1 ==> p in Last(r).flight
  {
    assert Accept(Last(run), 0, 2 * cfg.n) == Offer(Last(run).seqno, cfg.n, v, 2 * cfg.n);
    r := CountsAll(cfg, run, 2 * cfg.n);
  }

  lemma RangeIsChosen(n: nat, run: seq<Inst>, m: Message)
    requires n > 0 && AllHeld(run, m, 0, Most(n))
    ensures ChosenIn(n, run, m.number, m.value)
  {
    RangeSize(0, Most(n));
    forall a: nat | a in Range(0, Most(n)) ensures a < n && HeldIn(run, a, m.number, m.value) {
      RangeHas(0, Most(n), a);
    }
    assert MajorityHeld(n, run, Range(0, Most(n)), m.number, m.value);
  }

  // ---- without logs: the whole majority forgets ----

  lemma RoundOfAll(cfg: Config, run: seq<Inst>, v: ProposalValue) returns (r: seq<Inst>)
    requires IsClientRun(cfg, run) && Unasked(Last(run), cfg.n, Most(cfg.n)) && !cfg.recovery
    ensures Prolongs(cfg, run, r) && Undecided(Last(r), cfg.n) && OnDisk(Last(r), false, 0, Most(cfg.n))
    ensures Last(r).seqno == Last(run).seqno && Last(r).submitted == Last(run).submitted + {v}
    ensures AllHeld(r, Offer(Last(run).seqno, cfg.n, v, 2 * cfg.n), 0, Most(cfg.n))
    ensures KeepsRest(Last(run), Last(r))
    ensures VotesOut(Last(r), Offer(Last(run).seqno, cfg.n, v, 2 * cfg.n), 1, Most(cfg.n))
  {
    var r1 := Asks(cfg, run, v);
    var r2 := Offers(cfg, r1, v);
    r := ManyAccept(cfg, r2, Offer(Last(run).seqno, cfg.n, v, 2 * cfg.n), 0, Most(cfg.n));
    Chain(cfg, run, r1, r2);
    Chain(cfg, run, r2, r);
  }

  lemma ForgettingOfAny(cfg: Config, v: ProposalValue, w: ProposalValue) returns (run: seq<Inst>)
    requires cfg.n > 0 && cfg.crashes && !cfg.recovery
    ensures IsRun(cfg, run) && ChosenIn(cfg.n, run, 2 * cfg.n, v) && ChosenIn(cfg.n, run, 2 * cfg.n, w)
  {
    var n, m := cfg.n, Most(cfg.n);
    var r0 := StartRun(cfg);
    var r1 := RoundOfAll(cfg, r0, v);
    var r2 := ManyCrash(cfg, r1, 0, m);
    run := RoundOfAll(cfg, r2, w);
    Chain(cfg, r1, r2, run);
    HeldOn(cfg, r1, run, Offer(1, n, v, 2 * n), 0, m);
    RangeIsChosen(n, run, Offer(1, n, v, 2 * n));
    RangeIsChosen(n, run, Offer(1, n, w, 2 * n));
  }

  // ---- a duplicating network: the whole majority is heard twice ----

  /** Server 0 has proposed v, and a second copy of every promise is in flight. */
  lemma OfferedWithCopies(cfg: Config, v: ProposalValue) returns (r: seq<Inst>)
    requires cfg.n > 0 && cfg.crashes && cfg.recovery && cfg.duplicates
    ensures IsClientRun(cfg, r) && Undecided(Last(r), cfg.n) && Last(r).seqno == 1 && Last(r).submitted == {v}
    ensures EmptyUpTo(Last(r), 2 * cfg.n, 0, Most(cfg.n)) && OnDisk(Last(r), true, 0, Most(cfg.n))
    ensures SentToAll(Last(r), Offer(1, cfg.n, v, 2 * cfg.n)) && PromisesOut(Last(r), 0, 2 * cfg.n, 0, Most(cfg.n))
  {
    var r0 := StartRun(cfg);
    var r1 := Asks(cfg, r0, v);
    var r2 := ManyAgain(cfg, r1, 0, 2 * cfg.n, 0, Most(cfg.n));
    CopiesAsk(Last(r1), Last(r2), cfg.n, v);
    r := Offers(cfg, r2, v);
  }

  lemma CopiesAsk(s: Inst, t: Inst, n: nat, v: ProposalValue)
    requires Asked(s, true, n, v) && SameFrame(s, t) && t.nodes == s.nodes && s.flight <= t.flight
    ensures Asked(t, true, n, v)
  {
    forall a: nat | a < Most(n) ensures Packet(0, EmptyPromise(t.seqno, a, 2 * n)) in t.flight {
      assert Packet(0, EmptyPromise(s.seqno, a, 2 * n)) in s.flight;
    }
  }

  /** The majority accepts v; server 0 restarts and begins with w. */
  lemma BegunAgain(cfg: Config, v: ProposalValue, w: ProposalValue) returns (r: seq<Inst>)
    requires cfg.n > 0 && cfg.crashes && cfg.recovery && cfg.duplicates
    ensures IsClientRun(cfg, r) && AllHeld(r, Offer(1, cfg.n, v, 2 * cfg.n), 0, Most(cfg.n))
    ensures Undecided(Last(r), cfg.n) && Last(r).seqno == 1 && PromisesOut(Last(r), 0, 2 * cfg.n, 0, Most(cfg.n))
    ensures Last(r).submitted == {v, w} && VotesOut(Last(r), Offer(1, cfg.n, v, 2 * cfg.n), 1, Most(cfg.n))
    ensures Last(r).nodes[0].proposer == ProposerState(2 * cfg.n, 0, w, {}, {}, false)
    ensures forall a: nat :: a < Most(cfg.n) ==> Last(r).nodes[a].acceptor.prepare == 2 * cfg.n
  {
    var n, m := cfg.n, Most(cfg.n);
    var r3 := OfferedWithCopies(cfg, v);
    var r4 := ManyAccept(cfg, r3, Offer(1, n, v, 2 * n), 0, m);
    assert PromisesOut(Last(r4), 0, 2 * n, 0, m);
    var r5 := CrashNow(cfg, r4, 0);
    r := Begin(cfg, r5, 0, w);
    assert {v} + {w} == {v, w};
    Chain(cfg, r4, r5, r);
    HeldOn(cfg, r4, r, Offer(1, n, v, 2 * n), 0, m);
  }

  /** It counts the second copies and proposes w under the same number. */
  lemma OfferedAgain(cfg: Config, v: ProposalValue, w: ProposalValue) returns (r: seq<Inst>)
    requires cfg.n > 0 && cfg.crashes && cfg.recovery && cfg.duplicates
    ensures IsClientRun(cfg, r) && AllHeld(r, Offer(1, cfg.n, v, 2 * cfg.n), 0, Most(cfg.n))
    ensures CanAccept(Last(r), Offer(1, cfg.n, w, 2 * cfg.n), 0, Most(cfg.n))
    ensures Undecided(Last(r), cfg.n) && Last(r).seqno == 1 && Last(r).submitted == {v, w}
    ensures VotesOut(Last(r), Offer(1, cfg.n, v, 2 * cfg.n), 1, Most(cfg.n))
  {
    var r6 := BegunAgain(cfg, v, w);
    r := Offers(cfg, r6, w);
    HeldOn(cfg, r6, r, Offer(1, cfg.n, v, 2 * cfg.n), 0, Most(cfg.n));
  }

  /** The majority accepts w as well, and both sets of votes are in flight. */
  lemma AcceptedByCopies(cfg: Config, v: ProposalValue, w: ProposalValue) returns (run: seq<Inst>)
    requires cfg.n > 0 && cfg.crashes && cfg.recovery && cfg.duplicates
    ensures IsClientRun(cfg, run) && Undecided(Last(run), cfg.n)
    ensures Last(run).seqno == 1 && Last(run).submitted == {v, w}
    ensures var m, o := Offer(1, cfg.n, v, 2 * cfg.n), Offer(1, cfg.n, w, 2 * cfg.n);
            && AllHeld(run, m, 0, Most(cfg.n)) && AllHeld(run, o, 0, Most(cfg.n))
            && VotesOut(Last(run), m, 1, Most(cfg.n)) && VotesOut(Last(run), o, 1, Most(cfg.n))
  {
    var n, m := cfg.n, Most(cfg.n);
    var r := OfferedAgain(cfg, v, w);
    run := ManyAccept(cfg, r, Offer(1, n, w, 2 * n), 0, m);
    HeldOn(cfg, r, run, Offer(1, n, v, 2 * n), 0, m);
  }

  lemma DuplicationOfAny(cfg: Config, v: ProposalValue, w: ProposalValue) returns (run: seq<Inst>)
    requires cfg.n > 0 && cfg.crashes && cfg.recovery && cfg.duplicates
    ensures IsRun(cfg, run) && ChosenIn(cfg.n, run, 2 * cfg.n, v) && ChosenIn(cfg.n, run, 2 * cfg.n, w)
  {
    run := AcceptedByCopies(cfg, v, w);
    ClientRunIsRun(cfg, run);
    RangeIsChosen(cfg.n, run, Offer(1, cfg.n, v, 2 * cfg.n));
    RangeIsChosen(cfg.n, run, Offer(1, cfg.n, w, 2 * cfg.n));
  }

  // ---- a release build: stray promises complete a second majority ----

  /** How many strays are needed, so that with those never asked they make a majority. */
  function Strays(n: nat): (k: nat)
    requires n > 0
  {
    2 * Most(n) - n
  }

  /** The servers that promise nothing above 2n: server 0 and those from Strays(n) + 1 on. */
  predicate Lagging(t: Inst, n: nat) {
    && n > 0 && |t.nodes| == n
    && forall a: nat :: a < n && (a == 0 || Strays(n) < a) ==> t.nodes[a].acceptor.prepare <= 2 * n
  }

  /** Server 0 has proposed v and gone on to round 3n. */
  lemma GoneOn(cfg: Config, v: ProposalValue) returns (r: seq<Inst>)
    requires cfg.n > 0 && cfg.recovery
    ensures IsClientRun(cfg, r) && Undecided(Last(r), cfg.n) && Last(r).seqno == 1 && Last(r).submitted == {v}
    ensures EmptyUpTo(Last(r), 2 * cfg.n, 0, Most(cfg.n)) && OnDisk(Last(r), true, 0, Most(cfg.n))
    ensures EmptyUpTo(Last(r), 0, Most(cfg.n), cfg.n) && SentToAll(Last(r), Offer(1, cfg.n, v, 2 * cfg.n))
    ensures SentToAll(Last(r), Message(PREPARE, 1, 0, 3 * cfg.n, v, 2 * cfg.n))
  {
    var r0 := StartRun(cfg);
    var r1 := Asks(cfg, r0, v);
    var r2 := Offers(cfg, r1, v);
    r := Retry(cfg, r2, 0);
  }

  /** Strays(n) servers promised that round, and server 0 crashed. */
  lemma StraysLeft(cfg: Config, v: ProposalValue) returns (r: seq<Inst>)
    requires cfg.n > 2 && cfg.n != 4 && cfg.crashes && cfg.recovery
    ensures IsClientRun(cfg, r) && Undecided(Last(r), cfg.n) && Last(r).seqno == 1 && Last(r).submitted == {v}
    ensures Last(r).nodes[0].proposer == InitProposer(cfg.n, 0) && Lagging(Last(r), cfg.n)
    ensures EmptyUpTo(Last(r), 0, Most(cfg.n), cfg.n)
    ensures SentToAll(Last(r), Offer(1, cfg.n, v, 2 * cfg.n))
    ensures PromisesOut(Last(r), 0, 3 * cfg.n, 1, Strays(cfg.n) + 1)
  {
    var n, m, k := cfg.n, Most(cfg.n), Strays(cfg.n);
    var r3 := GoneOn(cfg, v);
    var r4 := ManyPromise(cfg, r3, Message(PREPARE, 1, 0, 3 * n, v, 2 * n), 2 * n, 1, k + 1);
    r := CrashNow(cfg, r4, 0);
  }

  /** Server 0 begins with w under the old number, and those never asked promise. */
  lemma RestAsked(cfg: Config, v: ProposalValue, w: ProposalValue) returns (r: seq<Inst>)
    requires cfg.n > 2 && cfg.n != 4 && cfg.crashes && cfg.recovery
    ensures IsClientRun(cfg, r) && Undecided(Last(r), cfg.n) && Last(r).seqno == 1 && Lagging(Last(r), cfg.n)
    ensures Last(r).submitted == {v, w}
    ensures Last(r).nodes[0].proposer == ProposerState(2 * cfg.n, 0, w, {}, {}, false)
    ensures SentToAll(Last(r), Offer(1, cfg.n, v, 2 * cfg.n))
    ensures PromisesOut(Last(r), 0, 3 * cfg.n, 1, Strays(cfg.n) + 1)
    ensures PromisesOut(Last(r), 0, 2 * cfg.n, Most(cfg.n), cfg.n)
  {
    var n, m := cfg.n, Most(cfg.n);
    var r5 := StraysLeft(cfg, v);
    var r6 := Begin(cfg, r5, 0, w);
    assert Prepare(Last(r5), 0, w, 0) == Ask(1, n, w);
    r := ManyPromise(cfg, r6, Ask(1, n, w), 0, m, n);
    assert {v} + {w} == {v, w};
  }

  /** It counts those promises, and all the strays but the last. */
  lemma OneStrayMissing(cfg: Config, v: ProposalValue, w: ProposalValue) returns (r: seq<Inst>)
    requires cfg.n > 2 && cfg.n != 4 && cfg.crashes && cfg.recovery && !cfg.asserts
    ensures IsClientRun(cfg, r) && Undecided(Last(r), cfg.n) && Last(r).seqno == 1 && Lagging(Last(r), cfg.n)
    ensures Last(r).submitted == {v, w} && SentToAll(Last(r), Offer(1, cfg.n, v, 2 * cfg.n))
    ensures Last(r).nodes[0].proposer == ProposerState(2 * cfg.n, 0, w,
              {} + Range(Most(cfg.n), cfg.n) + Range(1, Strays(cfg.n)), {}, false)
    ensures Packet(0, EmptyPromise(1, Strays(cfg.n), 3 * cfg.n)) in Last(r).flight
  {
    var n, m, k := cfg.n, Most(cfg.n), Strays(cfg.n);
    var r7 := RestAsked(cfg, v, w);
    var r8 := ManyCount(cfg, r7, 0, 2 * n, m, n);
    UnionSize({}, m, n);
    StraysStay(Last(r7), Last(r8), n, m, k);
    r := ManyCount(cfg, r8, 0, 3 * n, 1, k);
    StrayStays(Last(r7), Last(r8), Last(r), n, m, k, Offer(1, n, v, 2 * n));
  }

  /** Counting promises for 2n keeps those for 3n. */
  lemma StraysStay(s: Inst, t: Inst, n: nat, m: nat, k: nat)
    requires n > 0 && Counted(s, t, 0, 2 * n, m, n) && PromisesOut(s, 0, 3 * n, 1, k + 1)
    ensures PromisesOut(t, 0, 3 * n, 1, k + 1)
  {
    forall a: nat | 1 <= a < k + 1 ensures Packet(0, EmptyPromise(t.seqno, a, 3 * n)) in t.flight {
      var p := Packet(0, EmptyPromise(s.seqno, a, 3 * n));
      assert p in s.flight && !IsPromiseOf(p, s.seqno, 0, 2 * n, m, n);
    }
  }

  lemma StrayStays(s: Inst, u: Inst, t: Inst, n: nat, m: nat, k: nat, offer: Message)
    requires n > 0 && k > 0 && Counted(s, u, 0, 2 * n, m, n) && Counted(u, t, 0, 3 * n, 1, k)
    requires PromisesOut(u, 0, 3 * n, 1, k + 1) && SentToAll(s, offer) && offer.kind.ACCEPT?
    ensures Packet(0, EmptyPromise(t.seqno, k, 3 * n)) in t.flight && SentToAll(t, offer)
  {
    var p := Packet(0, EmptyPromise(u.seqno, k, 3 * n));
    assert p in u.flight && !IsPromiseOf(p, u.seqno, 0, 3 * n, 1, k);
    forall d: nat | d < |t.nodes| ensures Packet(d, offer) in t.flight {
      assert Packet(d, offer) in s.flight && !IsPromiseOf(Packet(d, offer), s.seqno, 0, 2 * n, m, n);
      assert Packet(d, offer) in u.flight && !IsPromiseOf(Packet(d, offer), u.seqno, 0, 3 * n, 1, k);
    }
  }

  /** The last stray makes a majority, and w is proposed under the number that v was. */
  lemma StraysCounted(cfg: Config, v: ProposalValue, w: ProposalValue) returns (r: seq<Inst>)
    requires cfg.n > 2 && cfg.n != 4 && cfg.crashes && cfg.recovery && !cfg.asserts
    ensures IsClientRun(cfg, r) && Undecided(Last(r), cfg.n) && Last(r).seqno == 1 && Lagging(Last(r), cfg.n)
    ensures Last(r).submitted == {v, w}
    ensures SentToAll(Last(r), Offer(1, cfg.n, v, 2 * cfg.n)) && SentToAll(Last(r), Offer(1, cfg.n, w, 3 * cfg.n))
  {
    var n, k := cfg.n, Strays(cfg.n);
    var r9 := OneStrayMissing(cfg, v, w);
    StraysSuffice(n, Last(r9).nodes[0].proposer.promised + {k});
    r := CountLast(cfg, r9, 0, k, 3 * n);
  }

  lemma StraysSuffice(n: nat, q: set<nat>)
    requires n > 2 && q == {} + Range(Most(n), n) + Range(1, Strays(n)) + {Strays(n)}
    ensures |q| * 2 > n
  {
    var m, k := Most(n), Strays(n);
    RangeSize(m, n);
    RangeSize(1, k + 1);
    forall a: nat ensures !(a in Range(m, n) && a in Range(1, k + 1)) {
      RangeHas(m, n, a);
      RangeHas(1, k + 1, a);
    }
    assert Range(m, n) !! Range(1, k + 1) && q == Range(m, n) + Range(1, k + 1);
  }

  /** The lagging servers accept proposal m. */
  lemma LaggingAccept(cfg: Config, run: seq<Inst>, m: Message) returns (r: seq<Inst>)
    requires IsClientRun(cfg, run) && cfg.n > 2 && cfg.n != 4 && Undecided(Last(run), cfg.n)
    requires Lagging(Last(run), cfg.n) && m.kind.ACCEPT? && m.number == 2 * cfg.n && SentToAll(Last(run), m)
    ensures Prolongs(cfg, run, r) && Undecided(Last(r), cfg.n) && Lagging(Last(r), cfg.n)
    ensures SameFrame(Last(run), Last(r)) && KeepsRest(Last(run), Last(r))
    ensures m.fromId == 0 ==> VotesOut(Last(r), m, Strays(cfg.n) + 1, cfg.n)
    ensures AllHeld(r, m, 0, 1) && AllHeld(r, m, Strays(cfg.n) + 1, cfg.n)
    ensures forall o: Message :: o != m && SentToAll(Last(run), o) ==> SentToAll(Last(r), o)
  {
    var k := Strays(cfg.n);
    var r1 := ManyAccept(cfg, run, m, 0, 1);
    r := ManyAccept(cfg, r1, m, k + 1, cfg.n);
    Chain(cfg, run, r1, r);
    HeldOn(cfg, r1, r, m, 0, 1);
  }

  lemma LaggingChose(n: nat, run: seq<Inst>, m: Message)
    requires n > 2 && n != 4 && AllHeld(run, m, 0, 1) && AllHeld(run, m, Strays(n) + 1, n)
    ensures ChosenIn(n, run, m.number, m.value)
  {
    var k := Strays(n);
    var q := {0 as nat} + Range(k + 1, n);
    RangeSize(k + 1, n);
    RangeHas(k + 1, n, 0);
    forall a: nat | a in q ensures a < n && HeldIn(run, a, m.number, m.value) {
      RangeHas(k + 1, n, a);
    }
    assert MajorityHeld(n, run, q, m.number, m.value);
  }

  /** They accept both proposals, and both sets of votes are in flight. */
  lemma AcceptedByLaggards(cfg: Config, v: ProposalValue, w: ProposalValue) returns (run: seq<Inst>)
    requires cfg.n > 2 && cfg.n != 4 && cfg.crashes && cfg.recovery && !cfg.asserts
    ensures IsClientRun(cfg, run) && Undecided(Last(run), cfg.n)
    ensures Last(run).seqno == 1 && Last(run).submitted == {v, w}
    ensures var m, o, k := Offer(1, cfg.n, v, 2 * cfg.n), Offer(1, cfg.n, w, 3 * cfg.n), Strays(cfg.n);
            && AllHeld(run, m, 0, 1) && AllHeld(run, m, k + 1, cfg.n) && VotesOut(Last(run), m, k + 1, cfg.n)
            && AllHeld(run, o, 0, 1) && AllHeld(run, o, k + 1, cfg.n) && VotesOut(Last(run), o, k + 1, cfg.n)
  {
    var n, k := cfg.n, Strays(cfg.n);
    var r := StraysCounted(cfg, v, w);
    var r1 := LaggingAccept(cfg, r, Offer(1, n, v, 2 * n));
    run := LaggingAccept(cfg, r1, Offer(1, n, w, 3 * n));
    HeldOn(cfg, r1, run, Offer(1, n, v, 2 * n), 0, 1);
    HeldOn(cfg, r1, run, Offer(1, n, v, 2 * n), k + 1, n);
  }

  lemma StraysOfAny(cfg: Config, v: ProposalValue, w: ProposalValue) returns (run: seq<Inst>)
    requires cfg.n > 2 && cfg.n != 4 && cfg.crashes && cfg.recovery && !cfg.asserts
    ensures IsRun(cfg, run) && ChosenIn(cfg.n, run, 2 * cfg.n, v) && ChosenIn(cfg.n, run, 2 * cfg.n, w)
  {
    run := AcceptedByLaggards(cfg, v, w);
    ClientRunIsRun(cfg, run);
    LaggingChose(cfg.n, run, Offer(1, cfg.n, v, 2 * cfg.n));
    LaggingChose(cfg.n, run, Offer(1, cfg.n, w, 3 * cfg.n));
  }

  // ---- exactly when, for each size ----

  ghost predicate AgreesAlways(cfg: Config) {
    forall run :: IsRun(cfg, run) ==> Agrees(cfg.n, run)
  }

  /** Agreement, deployment by deployment: it holds over all runs if and only if servers do not
      crash, or the logs are on, the network does not duplicate, and either the build keeps its
      assertions or there are one, two or four servers. */
  lemma AgreementOfEach(cfg: Config)
    requires cfg.n > 0
    ensures AgreesAlways(cfg)
       <==> (cfg.crashes ==> cfg.recovery && !cfg.duplicates && (cfg.asserts || Tight(cfg.n)))
  {
    if cfg.crashes ==> cfg.recovery && !cfg.duplicates && (cfg.asserts || Tight(cfg.n)) {
      forall run | IsRun(cfg, run) ensures Agrees(cfg.n, run) {
        if cfg.crashes && !cfg.asserts {
          TightAgreement(cfg, run);
        } else {
          AgreementHolds(cfg, run);
        }
      }
    } else {
      SomeRunDisagrees(cfg);
    }
  }

  lemma SomeRunDisagrees(cfg: Config)
    requires cfg.n > 0 && cfg.crashes
    requires !(cfg.recovery && !cfg.duplicates && (cfg.asserts || Tight(cfg.n)))
    ensures !AgreesAlways(cfg)
  {
    var v, w := ProposalValue(LOCK, 1, 0, 1), ProposalValue(LOCK, 1, 0, 2);
    var run: seq<Inst>;
    if !cfg.recovery {
      run := ForgettingOfAny(cfg, v, w);
    } else if cfg.duplicates {
      run := DuplicationOfAny(cfg, v, w);
    } else {
      run := StraysOfAny(cfg, v, w);
    }
    assert !Agrees(cfg.n, run);
  }

  // ---- validity ----

  ghost predicate ValidAlways(cfg: Config) {
    forall run, k: nat :: IsRun(cfg, run) && k < |run| ==> OnlySubmitted(run[k])
  }

  /** A majority has promised, and server 0 has restarted with nothing to propose. */
  lemma AskedAndGone(cfg: Config, v: ProposalValue) returns (r: seq<Inst>)
    requires cfg.n > 0 && cfg.crashes && !cfg.asserts
    ensures IsClientRun(cfg, r) && Last(r).seqno == 1 && Undecided(Last(r), cfg.n) && Last(r).submitted == {v}
    ensures Last(r).nodes[0].proposer == InitProposer(cfg.n, 0) && PromisesOut(Last(r), 0, 2 * cfg.n, 0, Most(cfg.n))
    ensures EmptyUpTo(Last(r), if cfg.recovery then 2 * cfg.n else 0, 0, 1)
    ensures EmptyUpTo(Last(r), 2 * cfg.n, 1, Most(cfg.n))
  {
    var r0 := StartRun(cfg);
    var r1 := Asks(cfg, r0, v);
    r := CrashNow(cfg, r1, 0);
  }

  /** It counts the promises all the same and proposes the default. */
  lemma DefaultOffered(cfg: Config, v: ProposalValue) returns (r: seq<Inst>)
    requires cfg.n > 0 && cfg.crashes && !cfg.asserts
    ensures IsClientRun(cfg, r) && Last(r).seqno == 1 && Undecided(Last(r), cfg.n) && Last(r).submitted == {v}
    ensures EmptyUpTo(Last(r), if cfg.recovery then 2 * cfg.n else 0, 0, 1)
    ensures EmptyUpTo(Last(r), 2 * cfg.n, 1, Most(cfg.n))
    ensures var m := Message(ACCEPT, 1, 0, cfg.n, NO_VALUE, 2 * cfg.n);
            && Last(r).nodes[0].proposer.current == cfg.n && Last(r).nodes[0].timer == Some(m)
            && Packet(0, m) in Last(r).sent
  {
    var r2 := AskedAndGone(cfg, v);
    assert Accept(Last(r2), 0, 2 * cfg.n) == Message(ACCEPT, 1, 0, cfg.n, NO_VALUE, 2 * cfg.n);
    r := CountsAll(cfg, r2, 2 * cfg.n);
  }

  lemma DefaultOfAny(cfg: Config, v: ProposalValue) returns (run: seq<Inst>)
    requires cfg.n > 0 && cfg.crashes && !cfg.asserts && v != NO_VALUE
    ensures IsRun(cfg, run) && |run| > 0 && !OnlySubmitted(Last(run))
  {
    run := DefaultOffered(cfg, v);
    ClientRunIsRun(cfg, run);
  }

  /** Validity, deployment by deployment: only submitted values travel if and only if servers do
      not crash or the build keeps its assertions. */
  lemma ValidityOfEach(cfg: Config)
    requires cfg.n > 0
    ensures ValidAlways(cfg) <==> (cfg.crashes ==> cfg.asserts)
  {
    if cfg.crashes ==> cfg.asserts {
      forall run, k: nat | IsRun(cfg, run) && k < |run| ensures OnlySubmitted(run[k]) {
        ValidityHolds(cfg, run, k);
      }
    } else {
      var run := DefaultOfAny(cfg, ProposalValue(LOCK, 1, 0, 1));
      assert !OnlySubmitted(run[|run| - 1]);
    }
  }
}
