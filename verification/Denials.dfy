/** Denials that arrive after the decision (src/server.cpp:66-74): exactly when the resubmission
    they ask for comes back null, and a run that gets there without a crash or a duplicated packet. */
module Denials {
  import opened Wire
  import opened Roles
  import opened Consensus
  import opened Scenario

  /** The null pointer is used exactly if a denial for the current number completes a majority at
      a server that has decided. */
  lemma UsesNullExactly(n: nat, x: Node, m: Message)
    ensures UsesNull(n, x, m)
       <==> m.kind.DENIAL? && m.extra >= x.proposer.current
            && |x.proposer.denied + {m.fromId}| * 2 > n && Decided(x.learner)
  {
  }

  /** Acceptor a's refusal of number m.number. */
  function Refusal(a: nat, m: Message, prepare: nat): Message {
    m.(kind := DENIAL, number := prepare, extra := m.number, fromId := a)
  }

  lemma DenyEffect(n: nat, recovery: bool, a: nat, x: Node, m: Message)
    requires !x.learner.informed && m.number <= x.acceptor.prepare && m.kind.PREPARE?
    ensures Dispatch(n, recovery, a, x, m) == Effect(x, [Packet(m.fromId, Refusal(a, m, x.acceptor.prepare))], None)
  {
  }

  lemma Deny(cfg: Config, run: seq<Inst>, a: nat, m: Message) returns (r: seq<Inst>)
    requires IsClientRun(cfg, run) && a < |Last(run).nodes| && !Last(run).nodes[a].learner.informed
    requires m.number <= Last(run).nodes[a].acceptor.prepare
    requires Packet(a, m) in Last(run).flight && m.kind.PREPARE?
    ensures IsClientRun(cfg, r)
    ensures var s, t := Last(run), Last(r);
            && t.seqno == s.seqno && t.nodes == s.nodes && Keeps(s, Packet(a, m), t)
            && Packet(m.fromId, Refusal(a, m, s.nodes[a].acceptor.prepare)) in t.flight
  {
    DenyEffect(|Last(run).nodes|, cfg.recovery, a, Last(run).nodes[a], m);
    r := Grow(cfg, run, Deliver(Packet(a, m)));
    assert Last(r).flight == Last(run).flight - multiset{Packet(a, m)}
                             + multiset{Packet(m.fromId, Refusal(a, m, Last(run).nodes[a].acceptor.prepare))};
  }

  lemma CountDenial(cfg: Config, run: seq<Inst>, i: nat, m: Message) returns (r: seq<Inst>)
    requires IsClientRun(cfg, run) && i < |Last(run).nodes| && m.kind.DENIAL? && Packet(i, m) in Last(run).flight
    requires m.extra == Last(run).nodes[i].proposer.current
    requires |Last(run).nodes[i].proposer.denied + {m.fromId}| * 2 <= |Last(run).nodes|
    ensures IsClientRun(cfg, r)
    ensures var s, t := Last(run), Last(r);
            && Keeps(s, Packet(i, m), t)
            && t.nodes == s.nodes[i := s.nodes[i].(
                 proposer := s.nodes[i].proposer.(denied := s.nodes[i].proposer.denied + {m.fromId}))]
  {
    r := Grow(cfg, run, Deliver(Packet(i, m)));
    assert Last(r).flight == Last(run).flight - multiset{Packet(i, m)};
  }

  // ---- the scenario: two servers, 14 events ----

  function First(v: ProposalValue): Message {
    Message(PREPARE, 1, 0, 4, v, 0)
  }

  function Second(w: ProposalValue): Message {
    Message(PREPARE, 1, 1, 5, w, 0)
  }

  predicate TwoServers(s: Inst) {
    |s.nodes| == 2 && s.seqno == 1 && s.nodes[0].learner == INIT_LEARNER && s.nodes[1].learner == INIT_LEARNER
  }

  /** Both servers begin, and both acceptors promise 5 to server 1. */
  lemma BothBegin(cfg: Config, v: ProposalValue, w: ProposalValue) returns (r: seq<Inst>)
    requires cfg.n == 2
    ensures IsClientRun(cfg, r) && TwoServers(Last(r)) && EmptyAt(Last(r), 0, 5) && EmptyAt(Last(r), 1, 5)
    ensures Last(r).nodes[0].proposer == ProposerState(4, 0, v, {}, {}, false)
    ensures Last(r).nodes[1].proposer == ProposerState(5, 0, w, {}, {}, false)
    ensures SentToAll(Last(r), First(v))
    ensures Packet(1, EmptyPromise(1, 0, 5)) in Last(r).flight && Packet(1, EmptyPromise(1, 1, 5)) in Last(r).flight
  {
    var r0 := StartRun(cfg);
    var r1 := Begin(cfg, r0, 0, v);
    var r2 := Begin(cfg, r1, 1, w);
    var r3 := PromiseFirst(cfg, r2, 0, Second(w), 0);
    r := PromiseFirst(cfg, r3, 1, Second(w), 0);
  }

  predicate Refused(s: Inst, v: ProposalValue) {
    Packet(0, Refusal(0, First(v), 5)) in s.flight && Packet(0, Refusal(1, First(v), 5)) in s.flight
  }

  /** Server 0's round 4 comes too late at both. */
  lemma BothRefuse(cfg: Config, v: ProposalValue, w: ProposalValue) returns (r: seq<Inst>)
    requires cfg.n == 2
    ensures IsClientRun(cfg, r) && TwoServers(Last(r)) && EmptyAt(Last(r), 0, 5) && EmptyAt(Last(r), 1, 5)
    ensures Last(r).nodes[0].proposer == ProposerState(4, 0, v, {}, {}, false)
    ensures Last(r).nodes[1].proposer == ProposerState(5, 0, w, {}, {}, false)
    ensures Refused(Last(r), v)
    ensures Packet(1, EmptyPromise(1, 0, 5)) in Last(r).flight && Packet(1, EmptyPromise(1, 1, 5)) in Last(r).flight
  {
    var r4 := BothBegin(cfg, v, w);
    var r5 := Deny(cfg, r4, 0, First(v));
    r := Deny(cfg, r5, 1, First(v));
  }

  function Five(w: ProposalValue): Message {
    Message(ACCEPT, 1, 1, 5, w, 5)
  }

  /** Server 1 proposes at 5. */
  lemma SecondProposes(cfg: Config, v: ProposalValue, w: ProposalValue) returns (r: seq<Inst>)
    requires cfg.n == 2
    ensures IsClientRun(cfg, r) && TwoServers(Last(r)) && Refused(Last(r), v)
    ensures EmptyAt(Last(r), 0, 5) && EmptyAt(Last(r), 1, 5) && SentToAll(Last(r), Five(w))
    ensures Last(r).nodes[0].proposer == ProposerState(4, 0, v, {}, {}, false)
  {
    var r6 := BothRefuse(cfg, v, w);
    var r7 := CountFirst(cfg, r6, 1, 0, 5);
    assert {0 as nat} + {1} == {0, 1} && |{0 as nat, 1}| == 2;
    r := CountLast(cfg, r7, 1, 1, 5);
  }

  /** Both accept it. */
  lemma BothAcceptFive(cfg: Config, v: ProposalValue, w: ProposalValue) returns (r: seq<Inst>)
    requires cfg.n == 2
    ensures IsClientRun(cfg, r) && TwoServers(Last(r)) && Refused(Last(r), v)
    ensures Last(r).nodes[0].proposer == ProposerState(4, 0, v, {}, {}, false)
    ensures Packet(1, Vote(0, Five(w))) in Last(r).flight && Packet(1, Vote(1, Five(w))) in Last(r).flight
  {
    var r8 := SecondProposes(cfg, v, w);
    var r9 := AcceptNow(cfg, r8, 0, Five(w));
    r := AcceptNow(cfg, r9, 1, Five(w));
  }

  /** Server 1 learns, server 0 is informed, and both refusals are still in flight. */
  lemma DecidedFirst(cfg: Config, v: ProposalValue, w: ProposalValue) returns (r: seq<Inst>)
    requires cfg.n == 2
    ensures IsClientRun(cfg, r) && |Last(r).nodes| == 2 && Refused(Last(r), v)
    ensures Last(r).nodes[0].proposer == ProposerState(4, 0, v, {}, {}, false) && Decided(Last(r).nodes[0].learner)
  {
    var r10 := BothAcceptFive(cfg, v, w);
    var m := Five(w);
    var r11 := VoteFirst(cfg, r10, 1, Vote(0, m));
    assert {0 as nat} + {1} == {0, 1} && |{0 as nat, 1}| == 2;
    var r12 := VoteLast(cfg, r11, 1, Vote(1, m), {0});
    r := Hear(cfg, r12, 0, Decision(1, Vote(1, m)));
  }

  /** In any deployment of two servers, also one where nothing crashes and nothing is duplicated, a
      denial that makes server 0 use a null pointer can be delivered. */
  lemma NullIsUsed(cfg: Config, v: ProposalValue, w: ProposalValue) returns (run: seq<Inst>, p: Packet)
    requires cfg.n == 2
    ensures IsRun(cfg, run) && |Last(run).nodes| == 2
    ensures Enabled(cfg, Last(run), Deliver(p)) && p.dst == 0 && UsesNull(2, Last(run).nodes[0], p.msg)
  {
    var r13 := DecidedFirst(cfg, v, w);
    run := CountDenial(cfg, r13, 0, Refusal(0, First(v), 5));
    p := Packet(0, Refusal(1, First(v), 5));
    assert {} + {0 as nat} == {0} && {0 as nat} + {1} == {0, 1} && |{0 as nat, 1}| == 2;
    UsesNullExactly(2, Last(run).nodes[0], p.msg);
    ClientRunIsRun(cfg, run);
  }
}
