/** Exactly when agreement and validity hold. Each way a deployment can be unsound has a run in
    which two different values are chosen for one instance. */
module Limits {
  import opened Wire
  import opened Roles
  import opened Consensus
  import opened Agreement
  import opened Validity
  import opened Scenario

  // ---- one server: forgetting promises, or hearing one twice ----

  /** The only server, as it is before its first round. */
  predicate Solo(s: Inst) {
    && |s.nodes| == 1
    && s.nodes[0].proposer.current == 1
    && s.nodes[0].learner == INIT_LEARNER
  }

  /** A lone server's round up to the promise in flight. */
  lemma SoloPrepares(cfg: Config, run: seq<Inst>, v: ProposalValue) returns (r: seq<Inst>)
    requires IsClientRun(cfg, run) && Solo(Last(run)) && Last(run).nodes[0].acceptor == INIT_ACCEPTOR
    ensures Prolongs(cfg, run, r)
    ensures var s, x := Last(r), Last(run).nodes[0];
            && s.seqno == Last(run).seqno && |s.nodes| == 1
            && s.nodes[0].learner == INIT_LEARNER && s.nodes[0].acceptor == AcceptorState(2, 0, NO_VALUE)
            && s.nodes[0].proposer == Fresh(1, x.proposer, v)
            && s.nodes[0].acceptorSlot == (if cfg.recovery then Some(s.nodes[0].acceptor) else x.acceptorSlot)
            && s.nodes[0].learnerSlot == x.learnerSlot
            && Packet(0, EmptyPromise(s.seqno, 0, 2)) in s.flight
  {
    var r1 := Begin(cfg, run, 0, v);
    r := PromiseFirst(cfg, r1, 0, Prepare(Last(run), 0, v, 0), 0);
    Chain(cfg, run, r1, r);
  }

  /** A lone server turns the promise for 2 into an accepted proposal. */
  lemma SoloAccepts(cfg: Config, run: seq<Inst>, v: ProposalValue) returns (r: seq<Inst>)
    requires IsClientRun(cfg, run) && |Last(run).nodes| == 1 && Last(run).nodes[0].learner == INIT_LEARNER
    requires var x := Last(run).nodes[0].proposer;
             x.current == 2 && x.highestNumber == 0 && x.highestValue == v && x.promised == {} && !x.majority
    requires Last(run).nodes[0].acceptor.prepare == 2
    requires Packet(0, EmptyPromise(Last(run).seqno, 0, 2)) in Last(run).flight
    ensures Prolongs(cfg, run, r) && HeldIn(r, 0, 2, v)
    ensures var s, x, p := Last(r), Last(run).nodes[0], Packet(0, EmptyPromise(Last(run).seqno, 0, 2));
            && s.seqno == Last(run).seqno && |s.nodes| == 1
            && s.nodes[0].learner == INIT_LEARNER
            && s.nodes[0].acceptorSlot == (if cfg.recovery then Some(AcceptorState(2, 2, v)) else x.acceptorSlot)
            && s.nodes[0].learnerSlot == x.learnerSlot
            && (Last(run).flight[p] > 1 ==> p in s.flight)
  {
    assert |{} + {0 as nat}| == 1;
    var r1 := CountLast(cfg, run, 0, 0, 2);
    r := AcceptNow(cfg, r1, 0, Accept(Last(run), 0, 2));
    Chain(cfg, run, r1, r);
  }

  lemma SoloChosen(run: seq<Inst>, b: nat, v: ProposalValue)
    requires HeldIn(run, 0, b, v)
    ensures ChosenIn(1, run, b, v)
  {
    assert MajorityHeld(1, run, {0}, b, v);
  }

  /** Crashing without logs: the acceptor forgets its promise and its vote. */
  lemma ForgettingDisagrees(cfg: Config, v: ProposalValue, w: ProposalValue) returns (run: seq<Inst>)
    requires cfg.n == 1 && cfg.crashes && !cfg.recovery
    ensures IsRun(cfg, run) && ChosenIn(1, run, 2, v) && ChosenIn(1, run, 2, w)
  {
    var r0 := StartRun(cfg);
    var r1 := SoloPrepares(cfg, r0, v);
    var r2 := SoloAccepts(cfg, r1, v);
    var r3 := CrashNow(cfg, r2, 0);
    var r4 := SoloPrepares(cfg, r3, w);
    run := SoloAccepts(cfg, r4, w);
    Chain(cfg, r2, r3, r4);
    Chain(cfg, r2, r4, run);
    SoloChosen(run, 2, v);
    SoloChosen(run, 2, w);
  }

  /** Crashing on a duplicating network: the second incarnation reuses number 2 and hears the
      first one's promise again. */
  lemma DuplicationDisagrees(cfg: Config, v: ProposalValue, w: ProposalValue) returns (run: seq<Inst>)
    requires cfg.n == 1 && cfg.crashes && cfg.recovery && cfg.duplicates
    ensures IsRun(cfg, run) && ChosenIn(1, run, 2, v) && ChosenIn(1, run, 2, w)
  {
    var r0 := StartRun(cfg);
    var r1 := SoloPrepares(cfg, r0, v);
    var p := Packet(0, EmptyPromise(Last(r1).seqno, 0, 2));
    var r2 := Again(cfg, r1, p);
    assert Last(r2).flight[p] > 1;
    var r3 := SoloAccepts(cfg, r2, v);
    var r4 := CrashNow(cfg, r3, 0);
    var r5 := Begin(cfg, r4, 0, w);
    run := SoloAccepts(cfg, r5, w);
    Chain(cfg, r3, r4, r5);
    Chain(cfg, r3, r5, run);
    SoloChosen(run, 2, v);
    SoloChosen(run, 2, w);
  }

  // ---- three servers: a promise for a number ahead, counted by a release build ----

  predicate Undecided(s: Inst) {
    |s.nodes| == 3 && forall j :: 0 <= j < 3 ==> s.nodes[j].learner == INIT_LEARNER && s.nodes[j].learnerSlot == None
  }

  /** First incarnation: servers 0 and 1 promise 6 to server 0, whose value is v. */
  lemma TwoPromises(cfg: Config, v: ProposalValue) returns (r: seq<Inst>)
    requires cfg.n == 3 && cfg.recovery
    ensures IsClientRun(cfg, r) && Undecided(Last(r)) && Last(r).seqno == 1 && Last(r).submitted == {v}
    ensures EmptyAt(Last(r), 0, 6) && EmptyAt(Last(r), 1, 6) && EmptyAt(Last(r), 2, 0)
    ensures Last(r).nodes[0].acceptorSlot == Some(AcceptorState(6, 0, NO_VALUE))
    ensures Last(r).nodes[0].proposer == ProposerState(6, 0, v, {}, {}, false)
    ensures Packet(0, EmptyPromise(1, 0, 6)) in Last(r).flight && Packet(0, EmptyPromise(1, 1, 6)) in Last(r).flight
    ensures Packet(2, Message(PREPARE, 1, 0, 6, v, 0)) in Last(r).flight
  {
    var r0 := StartRun(cfg);
    var r1 := Begin(cfg, r0, 0, v);
    var m := Message(PREPARE, 1, 0, 6, v, 0);
    var r2 := PromiseFirst(cfg, r1, 0, m, 0);
    r := PromiseFirst(cfg, r2, 1, m, 0);
  }

  /** Server 0 proposes v at 6. */
  lemma FirstProposal(cfg: Config, v: ProposalValue) returns (r: seq<Inst>)
    requires cfg.n == 3 && cfg.recovery
    ensures IsClientRun(cfg, r) && Undecided(Last(r)) && Last(r).seqno == 1 && Last(r).submitted == {v}
    ensures EmptyAt(Last(r), 0, 6) && EmptyAt(Last(r), 1, 6) && EmptyAt(Last(r), 2, 0)
    ensures Last(r).nodes[0].acceptorSlot == Some(AcceptorState(6, 0, NO_VALUE))
    ensures Last(r).nodes[0].proposer.current == 6
    ensures Last(r).nodes[0].timer == Some(Message(ACCEPT, 1, 0, 6, v, 6))
    ensures SentToAll(Last(r), Message(ACCEPT, 1, 0, 6, v, 6))
    ensures Packet(2, Message(PREPARE, 1, 0, 6, v, 0)) in Last(r).flight
  {
    var r3 := TwoPromises(cfg, v);
    var r4 := CountFirst(cfg, r3, 0, 0, 6);
    assert {0 as nat} + {1} == {0, 1} && |{0 as nat, 1}| == 2;
    r := CountLast(cfg, r4, 0, 1, 6);
  }

  /** Its timer fires: it starts round 9, server 1 promises, and then server 0 crashes. */
  lemma StrayPromise(cfg: Config, v: ProposalValue) returns (r: seq<Inst>)
    requires cfg.n == 3 && cfg.recovery && cfg.crashes
    ensures IsClientRun(cfg, r) && Undecided(Last(r)) && Last(r).seqno == 1 && Last(r).submitted == {v}
    ensures EmptyAt(Last(r), 0, 6) && EmptyAt(Last(r), 2, 0)
    ensures Last(r).nodes[0].proposer == InitProposer(3, 0)
    ensures SentToAll(Last(r), Message(ACCEPT, 1, 0, 6, v, 6))
    ensures Packet(2, Message(PREPARE, 1, 0, 6, v, 0)) in Last(r).flight
    ensures Packet(0, EmptyPromise(1, 1, 9)) in Last(r).flight
  {
    var r5 := FirstProposal(cfg, v);
    var r6 := Retry(cfg, r5, 0);
    var r7 := PromiseFirst(cfg, r6, 1, Message(PREPARE, 1, 0, 9, v, 6), 6);
    r := CrashNow(cfg, r7, 0);
  }

  /** Second incarnation: server 0 starts round 6 again with w, and server 2 promises. */
  lemma SecondRound(cfg: Config, v: ProposalValue, w: ProposalValue) returns (r: seq<Inst>)
    requires cfg.n == 3 && cfg.recovery && cfg.crashes
    ensures IsClientRun(cfg, r) && Undecided(Last(r)) && Last(r).seqno == 1 && Last(r).submitted == {v, w}
    ensures EmptyAt(Last(r), 0, 6) && EmptyAt(Last(r), 2, 6)
    ensures Last(r).nodes[0].proposer == ProposerState(6, 0, w, {2}, {}, false)
    ensures SentToAll(Last(r), Message(ACCEPT, 1, 0, 6, v, 6))
    ensures Packet(0, EmptyPromise(1, 1, 9)) in Last(r).flight
  {
    var r8 := StrayPromise(cfg, v);
    var r9 := Begin(cfg, r8, 0, w);
    var r10 := PromiseFirst(cfg, r9, 2, Message(PREPARE, 1, 0, 6, v, 0), 0);
    r := CountFirst(cfg, r10, 0, 2, 6);
  }

  /** The stray promise for 9 completes a majority for 6: w is proposed at 6 as well. */
  lemma SecondProposal(cfg: Config, v: ProposalValue, w: ProposalValue) returns (r: seq<Inst>)
    requires cfg.n == 3 && cfg.recovery && cfg.crashes && !cfg.asserts
    ensures IsClientRun(cfg, r) && Undecided(Last(r)) && Last(r).seqno == 1 && Last(r).submitted == {v, w}
    ensures EmptyAt(Last(r), 0, 6) && EmptyAt(Last(r), 2, 6)
    ensures SentToAll(Last(r), Message(ACCEPT, 1, 0, 6, v, 6))
    ensures SentToAll(Last(r), Message(ACCEPT, 1, 0, 6, w, 9))
  {
    var r11 := SecondRound(cfg, v, w);
    assert {2 as nat} + {1} == {1, 2} && |{1 as nat, 2}| == 2;
    r := CountLast(cfg, r11, 0, 1, 9);
  }

  /** Servers 0 and 2 accept the proposal m; other packets stay in flight. */
  lemma BothAccept(cfg: Config, run: seq<Inst>, m: Message) returns (r: seq<Inst>)
    requires IsClientRun(cfg, run) && Undecided(Last(run)) && m.kind.ACCEPT? && m.number == 6
    requires Last(run).nodes[0].acceptor.prepare == 6 && Last(run).nodes[2].acceptor.prepare == 6
    requires SentToAll(Last(run), m)
    ensures Prolongs(cfg, run, r) && Undecided(Last(r))
    ensures forall o :: o != m && SentToAll(Last(run), o) ==> SentToAll(Last(r), o)
    ensures Last(r).nodes[0].acceptor.prepare == 6 && Last(r).nodes[2].acceptor.prepare == 6
    ensures HeldIn(r, 0, 6, m.value) && HeldIn(r, 2, 6, m.value)
  {
    var r1 := AcceptNow(cfg, run, 0, m);
    r := AcceptNow(cfg, r1, 2, m);
    Chain(cfg, run, r1, r);
  }

  lemma TwoOfThree(run: seq<Inst>, b: nat, v: ProposalValue)
    requires HeldIn(run, 0, b, v) && HeldIn(run, 2, b, v)
    ensures ChosenIn(3, run, b, v)
  {
    var q: set<nat> := {0, 2};
    assert |q| == 2;
    assert MajorityHeld(3, run, q, b, v);
  }

  /** Crashing in a release build: the logs are on and nothing is duplicated, but a promise for
      a higher number counts towards the lower number the proposer restarted at. */
  lemma StrayPromiseDisagrees(cfg: Config, v: ProposalValue, w: ProposalValue) returns (run: seq<Inst>)
    requires cfg.n == 3 && cfg.crashes && cfg.recovery && !cfg.asserts
    ensures IsRun(cfg, run) && ChosenIn(3, run, 6, v) && ChosenIn(3, run, 6, w)
  {
    var r12 := SecondProposal(cfg, v, w);
    var m, o := Message(ACCEPT, 1, 0, 6, v, 6), Message(ACCEPT, 1, 0, 6, w, 9);
    var r14 := BothAccept(cfg, r12, m);
    run := BothAccept(cfg, r14, o);
    TwoOfThree(run, 6, v);
    TwoOfThree(run, 6, w);
  }

  // ---- exactly when ----

  /** Every run of every deployment with these options agrees, whatever its size. */
  ghost predicate AlwaysAgrees(recovery: bool, crashes: bool, duplicates: bool, asserts: bool) {
    forall n: nat, run :: IsRun(Config(n, recovery, crashes, duplicates, asserts), run) ==> Agrees(n, run)
  }

  /** Agreement holds over all runs if and only if servers do not crash, or the logs are on, the
      build keeps its assertions, and the network does not duplicate. */
  lemma AgreementExactly(recovery: bool, crashes: bool, duplicates: bool, asserts: bool)
    ensures AlwaysAgrees(recovery, crashes, duplicates, asserts)
       <==> (crashes ==> recovery && asserts && !duplicates)
  {
    if crashes ==> recovery && asserts && !duplicates {
      forall n: nat, run | IsRun(Config(n, recovery, crashes, duplicates, asserts), run) ensures Agrees(n, run) {
        AgreementHolds(Config(n, recovery, crashes, duplicates, asserts), run);
      }
    } else {
      SomeRunDisagrees(recovery, crashes, duplicates, asserts);
    }
  }

  lemma SomeRunDisagrees(recovery: bool, crashes: bool, duplicates: bool, asserts: bool)
    requires crashes && !(recovery && asserts && !duplicates)
    ensures !AlwaysAgrees(recovery, crashes, duplicates, asserts)
  {
    var v := ProposalValue(LOCK, 1, 0, 1);
    var w := ProposalValue(LOCK, 1, 0, 2);
    if !recovery {
      var run := ForgettingDisagrees(Config(1, recovery, crashes, duplicates, asserts), v, w);
      assert !Agrees(1, run);
    } else if duplicates {
      var run := DuplicationDisagrees(Config(1, recovery, crashes, duplicates, asserts), v, w);
      assert !Agrees(1, run);
    } else {
      var run := StrayPromiseDisagrees(Config(3, recovery, crashes, duplicates, asserts), v, w);
      assert !Agrees(3, run);
    }
  }

  // ---- validity, exactly when ----

  ghost predicate AlwaysValid(recovery: bool, crashes: bool, duplicates: bool, asserts: bool) {
    forall n: nat, run, k: nat ::
      IsRun(Config(n, recovery, crashes, duplicates, asserts), run) && k < |run| ==> OnlySubmitted(run[k])
  }

  /** A restarted proposer that has nothing to propose counts an old promise and proposes the
      default value. */
  lemma DefaultIsProposed(cfg: Config, v: ProposalValue) returns (run: seq<Inst>)
    requires cfg.n == 1 && cfg.crashes && !cfg.asserts && v != NO_VALUE
    ensures IsRun(cfg, run) && |run| > 0 && !OnlySubmitted(Last(run))
  {
    var r0 := StartRun(cfg);
    var r1 := Begin(cfg, r0, 0, v);
    var r2 := PromiseFirst(cfg, r1, 0, Prepare(Last(r0), 0, v, 0), 0);
    var r3 := CrashNow(cfg, r2, 0);
    assert |{} + {0 as nat}| == 1;
    run := CountLast(cfg, r3, 0, 0, 2);
    assert Last(run).submitted == {v};
    assert Packet(0, Accept(Last(r3), 0, 2)) in Last(run).sent;
  }

  /** Only submitted values travel, over all runs, if and only if servers do not crash or the
      build keeps its assertions. */
  lemma ValidityExactly(recovery: bool, crashes: bool, duplicates: bool, asserts: bool)
    ensures AlwaysValid(recovery, crashes, duplicates, asserts) <==> (crashes ==> asserts)
  {
    if crashes ==> asserts {
      forall n: nat, run, k: nat | IsRun(Config(n, recovery, crashes, duplicates, asserts), run) && k < |run|
        ensures OnlySubmitted(run[k])
      {
        ValidityHolds(Config(n, recovery, crashes, duplicates, asserts), run, k);
      }
    } else {
      var cfg := Config(1, recovery, crashes, duplicates, asserts);
      var run := DefaultIsProposed(cfg, ProposalValue(LOCK, 1, 0, 1));
      assert !OnlySubmitted(run[|run| - 1]);
    }
  }
}
