/** What the learner's accepted bits mean in every state: votes for the number it was counting last.
    An INFORM replaces number and value and leaves the bits, so afterwards they are votes for what
    the learner holds exactly as far as the INFORM carried the number it was counting. */
module StaleBits {
  import opened Wire
  import opened Roles
  import opened Consensus
  import opened Safety
  import opened Agreement
  import opened Scenario

  // ---- what the bits mean ----

  function LearnerOf(run: seq<Inst>, k: nat, i: nat): LearnerState
    requires k < |run|
  {
    if i < |run[k].nodes| then run[k].nodes[i].learner else INIT_LEARNER
  }

  /** The number learner i was counting votes for when it was last not informed, up to state k. */
  function CountedNumber(run: seq<Inst>, k: nat, i: nat): nat
    requires k < |run|
  {
    if k > 0 && LearnerOf(run, k, i).informed then CountedNumber(run, k - 1, i) else LearnerOf(run, k, i).number
  }

  /** Every bit is a server that held proposal (b, v). */
  ghost predicate BitsHeld(run: seq<Inst>, l: LearnerState, b: nat, v: ProposalValue) {
    forall a :: a in l.accepted ==> HeldIn(run, a, b, v)
  }

  /** Becoming informed keeps the bits; once informed they stay, but for a restart, which clears
      them. */
  lemma InformKeepsBits(n: nat, recovery: bool, id: nat, x: Node, m: Message)
    ensures var l := Dispatch(n, recovery, id, x, m).node.learner;
            l.informed ==> l.accepted == x.learner.accepted && (x.learner.informed ==> l == x.learner)
  {
  }

  lemma EventKeepsBits(cfg: Config, s: Inst, e: Event, i: nat)
    requires Enabled(cfg, s, e) && i < |s.nodes|
    ensures var l, x := Apply(cfg, s, e).nodes[i].learner, s.nodes[i].learner;
            l.informed ==> l.accepted == {} || (l.accepted == x.accepted && (x.informed ==> l == x))
  {
    match e
    case Deliver(p) => InformKeepsBits(|s.nodes|, cfg.recovery, p.dst, s.nodes[p.dst], p.msg);
    case _ =>
  }

  lemma StepKeepsBits(cfg: Config, run: seq<Inst>, k: nat, i: nat)
    requires IsRun(cfg, run) && 0 < k < |run| && i < |run[k - 1].nodes| == |run[k].nodes|
    ensures var l, x := LearnerOf(run, k, i), LearnerOf(run, k - 1, i);
            l.informed ==> l.accepted == {} || (l.accepted == x.accepted && (x.informed ==> l == x))
  {
    var e := EventAt(cfg, run, k);
    EventKeepsBits(cfg, run[k - 1], e, i);
  }

  /** In every state the bits are votes for one proposal, with the number last counted. */
  lemma {:induction false} BitsAreOldVotes(cfg: Config, run: seq<Inst>, k: nat, i: nat)
    requires IsRun(cfg, run) && Sound(cfg) && k < |run| && i < cfg.n
    ensures exists v :: BitsHeld(run, LearnerOf(run, k, i), CountedNumber(run, k, i), v)
  {
    RunInv(cfg, run, k);
    var l := LearnerOf(run, k, i);
    if l.informed && k > 0 {
      RunInv(cfg, run, k - 1);
      BitsAreOldVotes(cfg, run, k - 1, i);
      StepKeepsBits(cfg, run, k, i);
      var v :| BitsHeld(run, LearnerOf(run, k - 1, i), CountedNumber(run, k - 1, i), v);
      assert BitsHeld(run, l, CountedNumber(run, k, i), v);
    } else {
      forall a | a in l.accepted ensures HeldIn(run, a, l.number, l.value) {
        BitsAreVotes(cfg, run, k, i, a);
      }
      assert BitsHeld(run, l, CountedNumber(run, k, i), l.value);
    }
  }

  /** So they are votes for what the learner holds, informed or not, restarted or not, if the
      number it holds is the number it counted. */
  lemma BitsAreVotesIfCounted(cfg: Config, run: seq<Inst>, k: nat, i: nat)
    requires IsRun(cfg, run) && Sound(cfg) && k < |run| && i < cfg.n
    requires CountedNumber(run, k, i) == LearnerOf(run, k, i).number
    ensures BitsHeld(run, LearnerOf(run, k, i), LearnerOf(run, k, i).number, LearnerOf(run, k, i).value)
  {
    var l := LearnerOf(run, k, i);
    RunInv(cfg, run, k);
    if l.informed {
      BitsAreOldVotes(cfg, run, k, i);
      var v :| BitsHeld(run, l, l.number, v);
      LearnersAreSound(cfg, run, k);
      forall a | a in l.accepted ensures HeldIn(run, a, l.number, l.value) {
        assert HeldIn(run, a, l.number, v);
        ChosenIsHeld(cfg, run, a, l.number, v, l.value);
      }
    } else {
      forall a | a in l.accepted ensures HeldIn(run, a, l.number, l.value) {
        BitsAreVotes(cfg, run, k, i, a);
      }
    }
  }

  /** Nobody ever held another value at a number at which one is chosen. */
  lemma ChosenIsHeld(cfg: Config, run: seq<Inst>, a: nat, b: nat, v: ProposalValue, w: ProposalValue)
    requires IsRun(cfg, run) && Sound(cfg) && HeldIn(run, a, b, v) && ChosenIn(cfg.n, run, b, w)
    ensures v == w
  {
    var s := run[|run| - 1];
    RunInv(cfg, run, |run| - 1);
    HeldIsVoted(cfg, run, a, b, v);
    VoteWasProposed(s, a, b, v);
    ChosenInIsChosen(cfg, run, b, w);
    ChosenWasProposed(s, b, w);
  }

  // ---- a run in which the numbers differ ----

  /** Server 1 has not gone past number 6. */
  predicate Low(s: Inst) {
    |s.nodes| == 3 && s.seqno == 1 && s.nodes[1].acceptor.number <= 6
  }

  ghost predicate StaysLow(run: seq<Inst>) {
    forall k :: 0 <= k < |run| ==> Low(run[k])
  }

  lemma StillLow(run: seq<Inst>, r: seq<Inst>)
    requires StaysLow(run) && |r| > 0 && r == run + [Last(r)] && Low(Last(r))
    ensures StaysLow(r)
  {
  }

  lemma LowNeverHeld(run: seq<Inst>, v: ProposalValue)
    requires StaysLow(run)
    ensures !HeldIn(run, 1, 7, v)
  {
    forall k | 0 <= k < |run| ensures !Holds(run[k], 1, 7, v) {
      assert Low(run[k]);
    }
  }

  // ---- the scenario: 17 events among three servers ----

  predicate Counting(s: Inst, l: LearnerState) {
    && |s.nodes| == 3 && s.nodes[0].learner == l
    && s.nodes[1].learner == INIT_LEARNER && s.nodes[2].learner == INIT_LEARNER
  }

  /** Server 0 proposes v at 6, promised by itself and server 1. */
  lemma RoundSix(cfg: Config, v: ProposalValue) returns (r: seq<Inst>)
    requires cfg.n == 3
    ensures IsClientRun(cfg, r) && StaysLow(r) && Counting(Last(r), INIT_LEARNER)
    ensures EmptyAt(Last(r), 0, 6) && EmptyAt(Last(r), 1, 6) && EmptyAt(Last(r), 2, 0)
    ensures Last(r).nodes[1].proposer == InitProposer(3, 1)
    ensures SentToAll(Last(r), Message(ACCEPT, 1, 0, 6, v, 6))
  {
    var r0 := StartRun(cfg);
    var r1 := Begin(cfg, r0, 0, v);
    StillLow(r0, r1);
    var m := Message(PREPARE, 1, 0, 6, v, 0);
    var r2 := PromiseFirst(cfg, r1, 0, m, 0);
    StillLow(r1, r2);
    var r3 := PromiseFirst(cfg, r2, 1, m, 0);
    StillLow(r2, r3);
    r := SixPromised(cfg, r3, v);
  }

  lemma SixPromised(cfg: Config, r3: seq<Inst>, v: ProposalValue) returns (r: seq<Inst>)
    requires IsClientRun(cfg, r3) && StaysLow(r3) && Counting(Last(r3), INIT_LEARNER)
    requires EmptyAt(Last(r3), 0, 6) && EmptyAt(Last(r3), 1, 6) && EmptyAt(Last(r3), 2, 0)
    requires Last(r3).nodes[0].proposer == ProposerState(6, 0, v, {}, {}, false)
    requires Last(r3).nodes[1].proposer == InitProposer(3, 1)
    requires Packet(0, EmptyPromise(1, 0, 6)) in Last(r3).flight && Packet(0, EmptyPromise(1, 1, 6)) in Last(r3).flight
    ensures IsClientRun(cfg, r) && StaysLow(r) && Counting(Last(r), INIT_LEARNER)
    ensures EmptyAt(Last(r), 0, 6) && EmptyAt(Last(r), 1, 6) && EmptyAt(Last(r), 2, 0)
    ensures Last(r).nodes[1].proposer == InitProposer(3, 1)
    ensures SentToAll(Last(r), Message(ACCEPT, 1, 0, 6, v, 6))
  {
    assert Low(Last(r3));
    var r4 := CountFirst(cfg, r3, 0, 0, 6);
    StillLow(r3, r4);
    assert {0 as nat} + {1} == {0, 1} && |{0 as nat, 1}| == 2;
    r := CountLast(cfg, r4, 0, 1, 6);
    StillLow(r4, r);
  }

  /** Server 1 accepts it, and server 0's learner sets bit 1 for number 6. */
  lemma BitOne(cfg: Config, v: ProposalValue) returns (r: seq<Inst>)
    requires cfg.n == 3
    ensures IsClientRun(cfg, r) && StaysLow(r) && Counting(Last(r), LearnerState(6, v, {1}, false, false))
    ensures EmptyAt(Last(r), 0, 6) && EmptyAt(Last(r), 2, 0)
    ensures Last(r).nodes[1].proposer == InitProposer(3, 1)
  {
    var r5 := RoundSix(cfg, v);
    assert Low(Last(r5));
    var m := Message(ACCEPT, 1, 0, 6, v, 6);
    var r6 := AcceptNow(cfg, r5, 1, m);
    StillLow(r5, r6);
    r := VoteFirst(cfg, r6, 0, Vote(1, m));
    StillLow(r6, r);
  }

  /** Server 1 starts round 7 with w; servers 0 and 2 promise. */
  lemma RoundSeven(cfg: Config, v: ProposalValue, w: ProposalValue) returns (r: seq<Inst>)
    requires cfg.n == 3
    ensures IsClientRun(cfg, r) && StaysLow(r) && Counting(Last(r), LearnerState(6, v, {1}, false, false))
    ensures EmptyAt(Last(r), 0, 7) && EmptyAt(Last(r), 2, 7)
    ensures Last(r).nodes[1].proposer == ProposerState(7, 0, w, {}, {}, false)
    ensures Packet(1, EmptyPromise(1, 0, 7)) in Last(r).flight && Packet(1, EmptyPromise(1, 2, 7)) in Last(r).flight
  {
    var r7 := BitOne(cfg, v);
    assert Low(Last(r7));
    assert Prepare(Last(r7), 1, w, 0) == Message(PREPARE, 1, 1, 7, w, 0);
    var r8 := Begin(cfg, r7, 1, w);
    assert Last(r8).nodes[1].proposer == ProposerState(7, 0, w, {}, {}, false);
    StillLow(r7, r8);
    r := SevenPromised(cfg, r8, v, w);
  }

  lemma SevenPromised(cfg: Config, r8: seq<Inst>, v: ProposalValue, w: ProposalValue) returns (r: seq<Inst>)
    requires IsClientRun(cfg, r8) && StaysLow(r8) && Counting(Last(r8), LearnerState(6, v, {1}, false, false))
    requires EmptyAt(Last(r8), 0, 6) && EmptyAt(Last(r8), 2, 0)
    requires Last(r8).nodes[1].proposer == ProposerState(7, 0, w, {}, {}, false)
    requires SentToAll(Last(r8), Message(PREPARE, 1, 1, 7, w, 0))
    ensures IsClientRun(cfg, r) && StaysLow(r) && Counting(Last(r), LearnerState(6, v, {1}, false, false))
    ensures EmptyAt(Last(r), 0, 7) && EmptyAt(Last(r), 2, 7)
    ensures Last(r).nodes[1].proposer == ProposerState(7, 0, w, {}, {}, false)
    ensures Packet(1, EmptyPromise(1, 0, 7)) in Last(r).flight && Packet(1, EmptyPromise(1, 2, 7)) in Last(r).flight
  {
    assert Low(Last(r8));
    var m := Message(PREPARE, 1, 1, 7, w, 0);
    var r9 := PromiseFirst(cfg, r8, 0, m, 6);
    StillLow(r8, r9);
    r := PromiseFirst(cfg, r9, 2, m, 0);
    StillLow(r9, r);
  }

  /** It counts both promises. */
  lemma SevenProposed(cfg: Config, v: ProposalValue, w: ProposalValue) returns (r: seq<Inst>)
    requires cfg.n == 3
    ensures IsClientRun(cfg, r) && StaysLow(r) && Counting(Last(r), LearnerState(6, v, {1}, false, false))
    ensures Last(r).nodes[0].acceptor.prepare <= 7 && Last(r).nodes[2].acceptor.prepare <= 7
    ensures !Last(r).nodes[0].learner.informed && !Last(r).nodes[2].learner.informed
    ensures SentToAll(Last(r), Message(ACCEPT, 1, 1, 7, w, 7))
  {
    var r10 := RoundSeven(cfg, v, w);
    assert Low(Last(r10));
    var r11 := CountFirst(cfg, r10, 1, 0, 7);
    StillLow(r10, r11);
    assert {0 as nat} + {2} == {0, 2} && |{0 as nat, 2}| == 2;
    r := CountLast(cfg, r11, 1, 2, 7);
    StillLow(r11, r);
  }

  /** Both accept w at 7. */
  lemma SevenAccepted(cfg: Config, v: ProposalValue, w: ProposalValue) returns (r: seq<Inst>)
    requires cfg.n == 3
    ensures IsClientRun(cfg, r) && StaysLow(r) && Counting(Last(r), LearnerState(6, v, {1}, false, false))
    ensures var m := Message(ACCEPT, 1, 1, 7, w, 7);
            Packet(1, Vote(0, m)) in Last(r).flight && Packet(1, Vote(2, m)) in Last(r).flight
  {
    var r12 := SevenProposed(cfg, v, w);
    var m := Message(ACCEPT, 1, 1, 7, w, 7);
    var r13 := AcceptNow(cfg, r12, 0, m);
    StillLow(r12, r13);
    r := AcceptNow(cfg, r13, 2, m);
    StillLow(r13, r);
  }

  /** Without any crash or duplicate, server 0's learner ends up informed of (7, w) with bit 1 set,
      and server 1 never held (7, w). */
  lemma InformedBitsGoStale(cfg: Config, v: ProposalValue, w: ProposalValue) returns (run: seq<Inst>)
    requires cfg.n == 3
    ensures IsRun(cfg, run) && |run| > 0 && |Last(run).nodes| == 3
    ensures var l := Last(run).nodes[0].learner;
            && l.informed && 1 in l.accepted && !HeldIn(run, 1, l.number, l.value)
            && CountedNumber(run, |run| - 1, 0) == 6 && l.number == 7
  {
    var r14 := SevenAccepted(cfg, v, w);
    assert Low(Last(r14));
    var m := Message(ACCEPT, 1, 1, 7, w, 7);
    var r15 := VoteFirst(cfg, r14, 1, Vote(0, m));
    StillLow(r14, r15);
    assert {0 as nat} + {2} == {0, 2} && |{0 as nat, 2}| == 2;
    var r16 := VoteLast(cfg, r15, 1, Vote(2, m), {0});
    StillLow(r15, r16);
    run := Hear(cfg, r16, 0, Decision(1, Vote(2, m)));
    StillLow(r16, run);
    LowNeverHeld(run, w);
    assert run[|run| - 2] == Last(r16);
    ClientRunIsRun(cfg, run);
  }
}
