/** A command that nobody answers although nothing crashes and nothing is lost: two servers learn
    it at different numbers, and each hears the other's INFORM first. */
module Crossing {
  import opened Wire
  import opened Endpoint
  import opened Roles
  import opened Consensus
  import opened LockService
  import opened Executor
  import opened Cluster
  import opened Scenario
  import opened Aside
  import Pair
  import Solo

  // ---- promises of acceptors that have accepted ----

  /** The promise for b of an acceptor that has accepted v at number d. */
  function HeldPromise(k: nat, a: nat, d: nat, v: ProposalValue, b: nat): Message {
    Message(PROMISE, k, a, d, v, b)
  }

  lemma HeldEffect(n: nat, recovery: bool, a: nat, x: Node, m: Message, d: nat, v: ProposalValue)
    requires x.acceptor == AcceptorState(d, d, v) && !x.learner.informed && d < m.number && m.kind.PREPARE?
    ensures var y := AcceptorState(m.number, d, v);
            Dispatch(n, recovery, a, x, m)
            == Effect(x.(acceptor := y, acceptorSlot := if recovery then Some(y) else x.acceptorSlot),
                      [Packet(m.fromId, HeldPromise(m.sequence, a, d, v, m.number))], None)
  {
  }

  lemma PromiseHeld(cfg: Config, run: seq<Inst>, a: nat, m: Message, d: nat, v: ProposalValue) returns (r: seq<Inst>)
    requires IsClientRun(cfg, run) && a < |Last(run).nodes| && !Last(run).nodes[a].learner.informed
    requires Last(run).nodes[a].acceptor == AcceptorState(d, d, v) && d < m.number
    requires Packet(a, m) in Last(run).flight && m.kind.PREPARE? && m.sequence == Last(run).seqno
    ensures IsClientRun(cfg, r) && r == run + [Last(r)]
    ensures var s, t := Last(run), Last(r);
            var x := AcceptorState(m.number, d, v);
            && t.seqno == s.seqno && t.submitted == s.submitted && Keeps(s, Packet(a, m), t)
            && t.nodes == s.nodes[a := s.nodes[a].(acceptor := x,
                 acceptorSlot := if cfg.recovery then Some(x) else s.nodes[a].acceptorSlot)]
            && Packet(m.fromId, HeldPromise(s.seqno, a, d, v, m.number)) in t.flight
  {
    HeldEffect(|Last(run).nodes|, cfg.recovery, a, Last(run).nodes[a], m, d, v);
    r := Grow(cfg, run, Deliver(Packet(a, m)));
    assert Last(r).flight == Last(run).flight - multiset{Packet(a, m)}
                             + multiset{Packet(m.fromId, HeldPromise(Last(run).seqno, a, d, v, m.number))};
  }

  lemma AdoptEffect(n: nat, recovery: bool, i: nat, x: Node, m: Message)
    requires 2 <= n && x.proposer.current == m.extra && x.proposer.promised == {} && x.proposer.highestNumber < m.number
    requires m.kind.PROMISE?
    ensures Dispatch(n, recovery, i, x, m)
            == Quiet(x.(proposer := x.proposer.(highestNumber := m.number, highestValue := m.value,
                                                promised := {m.fromId})))
  {
    assert {} + {m.fromId} == {m.fromId};
  }

  /** The first promise: its value is adopted. */
  lemma CountAdopt(cfg: Config, run: seq<Inst>, i: nat, a: nat, d: nat, v: ProposalValue, b: nat)
    returns (r: seq<Inst>)
    requires IsClientRun(cfg, run) && i < |Last(run).nodes| && 2 <= |Last(run).nodes| && d > 0
    requires var x := Last(run).nodes[i].proposer;
             x.current == b && x.promised == {} && x.highestNumber == 0 && !x.majority
    requires Packet(i, HeldPromise(Last(run).seqno, a, d, v, b)) in Last(run).flight
    ensures IsClientRun(cfg, r) && r == run + [Last(r)]
    ensures var s, t, p := Last(run), Last(r), Packet(i, HeldPromise(Last(run).seqno, a, d, v, b));
            && t.seqno == s.seqno && t.submitted == s.submitted && Keeps(s, p, t)
            && t.nodes == s.nodes[i := s.nodes[i].(
                 proposer := s.nodes[i].proposer.(highestNumber := d, highestValue := v, promised := {a}))]
  {
    var p := Packet(i, HeldPromise(Last(run).seqno, a, d, v, b));
    AdoptEffect(|Last(run).nodes|, cfg.recovery, i, Last(run).nodes[i], p.msg);
    r := Grow(cfg, run, Deliver(p));
    assert Last(r).flight == Last(run).flight - multiset{p} + multiset([]);
  }

  lemma AgainEffect(n: nat, recovery: bool, i: nat, x: Node, m: Message)
    requires x.proposer.current == m.extra && x.proposer.highestNumber == m.number && !x.proposer.majority
    requires |x.proposer.promised + {m.fromId}| * 2 > n && m.kind.PROMISE?
    ensures var own := Message(ACCEPT, m.sequence, i, x.proposer.current, x.proposer.highestValue, m.extra);
            Dispatch(n, recovery, i, x, m)
            == Effect(x.(proposer := x.proposer.(promised := x.proposer.promised + {m.fromId}, majority := true),
                         timer := Some(own)), Broadcast(n, own), None)
  {
  }

  /** A further promise with the number already adopted completes the majority. */
  lemma CountAgain(cfg: Config, run: seq<Inst>, i: nat, a: nat, d: nat, v: ProposalValue, b: nat)
    returns (r: seq<Inst>)
    requires IsClientRun(cfg, run) && i < |Last(run).nodes|
    requires var x := Last(run).nodes[i].proposer;
             x.current == b && x.highestNumber == d && !x.majority && |x.promised + {a}| * 2 > |Last(run).nodes|
    requires Packet(i, HeldPromise(Last(run).seqno, a, d, v, b)) in Last(run).flight
    ensures IsClientRun(cfg, r) && r == run + [Last(r)]
    ensures var s, t, p := Last(run), Last(r), Packet(i, HeldPromise(Last(run).seqno, a, d, v, b));
            && t.seqno == s.seqno && t.submitted == s.submitted && Keeps(s, p, t)
            && t.nodes == s.nodes[i := s.nodes[i].(
                 proposer := s.nodes[i].proposer.(promised := s.nodes[i].proposer.promised + {a}, majority := true),
                 timer := Some(Accept(s, i, b)))]
            && SentToAll(t, Accept(s, i, b))
  {
    var s := Last(run);
    var p := Packet(i, HeldPromise(s.seqno, a, d, v, b));
    AgainEffect(|s.nodes|, cfg.recovery, i, s.nodes[i], p.msg);
    r := Grow(cfg, run, Deliver(p));
    BroadcastArrives(s, Last(r), Accept(s, i, b), multiset{p});
  }

  // ---- the run ----

  function Four(v: ProposalValue): Message {
    Message(ACCEPT, 1, 0, 4, v, 4)
  }

  function Five(v: ProposalValue): Message {
    Message(ACCEPT, 1, 1, 5, v, 5)
  }

  predicate Untold(t: Inst) {
    && |t.nodes| == 2 && t.seqno == 1
    && t.nodes[0].learner == INIT_LEARNER && t.nodes[1].learner == INIT_LEARNER
  }

  predicate HoldsFour(t: Inst, v: ProposalValue) {
    |t.nodes| == 2 && t.nodes[0].acceptor == t.nodes[1].acceptor == AcceptorState(4, 4, v)
  }

  ghost predicate VotesOut(t: Inst, i: nat, m: Message) {
    Packet(i, Vote(0, m)) in t.flight && Packet(i, Vote(1, m)) in t.flight
  }

  /** Both promise 4 to server 0. */
  lemma FourPromised(cfg: Config, v: ProposalValue) returns (r: seq<Inst>)
    requires cfg.n == 2
    ensures IsClientRun(cfg, r) && Untold(Last(r)) && Last(r).submitted == {v}
    ensures EmptyAt(Last(r), 0, 4) && EmptyAt(Last(r), 1, 4) && Last(r).nodes[1].proposer == InitProposer(2, 1)
    ensures Last(r).nodes[0].proposer == ProposerState(4, 0, v, {}, {}, false)
    ensures Packet(0, EmptyPromise(1, 0, 4)) in Last(r).flight && Packet(0, EmptyPromise(1, 1, 4)) in Last(r).flight
  {
    var m := Message(PREPARE, 1, 0, 4, v, 0);
    var r0 := StartRun(cfg);
    var r1 := Begin(cfg, r0, 0, v);
    var r2 := PromiseFirst(cfg, r1, 0, m, 0);
    r := PromiseFirst(cfg, r2, 1, m, 0);
  }

  /** Server 0 proposes v at 4. */
  lemma FourProposed(cfg: Config, v: ProposalValue) returns (r: seq<Inst>)
    requires cfg.n == 2
    ensures IsClientRun(cfg, r) && Untold(Last(r)) && Last(r).submitted == {v} && SentToAll(Last(r), Four(v))
    ensures EmptyAt(Last(r), 0, 4) && EmptyAt(Last(r), 1, 4) && Last(r).nodes[1].proposer == InitProposer(2, 1)
  {
    var r3 := FourPromised(cfg, v);
    var r4 := CountFirst(cfg, r3, 0, 0, 4);
    assert {0 as nat} + {1} == {0, 1} && |{0 as nat, 1}| == 2;
    r := CountLast(cfg, r4, 0, 1, 4);
  }

  /** Both accept it, and their votes are on the way to server 0. */
  lemma FourAccepted(cfg: Config, v: ProposalValue) returns (r: seq<Inst>)
    requires cfg.n == 2
    ensures IsClientRun(cfg, r) && Untold(Last(r)) && Last(r).submitted == {v} && HoldsFour(Last(r), v)
    ensures Last(r).nodes[1].proposer == InitProposer(2, 1) && VotesOut(Last(r), 0, Four(v))
  {
    var r5 := FourProposed(cfg, v);
    var r6 := AcceptNow(cfg, r5, 0, Four(v));
    r := AcceptNow(cfg, r6, 1, Four(v));
  }

  /** Server 1 asks for promises for 5 and gets two that carry v. */
  lemma FivePromised(cfg: Config, v: ProposalValue, w: ProposalValue) returns (r: seq<Inst>)
    requires cfg.n == 2
    ensures IsClientRun(cfg, r) && Untold(Last(r)) && Last(r).submitted == {v, w}
    ensures Last(r).nodes[0].acceptor == Last(r).nodes[1].acceptor == AcceptorState(5, 4, v)
    ensures Last(r).nodes[1].proposer == ProposerState(5, 0, w, {}, {}, false)
    ensures VotesOut(Last(r), 0, Four(v))
    ensures Packet(1, HeldPromise(1, 0, 4, v, 5)) in Last(r).flight
    ensures Packet(1, HeldPromise(1, 1, 4, v, 5)) in Last(r).flight
  {
    var m := Message(PREPARE, 1, 1, 5, w, 0);
    var r7 := FourAccepted(cfg, v);
    var r8 := Begin(cfg, r7, 1, w);
    var r9 := PromiseHeld(cfg, r8, 0, m, 4, v);
    r := PromiseHeld(cfg, r9, 1, m, 4, v);
    assert {v} + {w} == {v, w};
  }

  /** Server 1 proposes v at 5. */
  lemma FiveProposed(cfg: Config, v: ProposalValue, w: ProposalValue) returns (r: seq<Inst>)
    requires cfg.n == 2
    ensures IsClientRun(cfg, r) && Untold(Last(r)) && Last(r).submitted == {v, w}
    ensures Last(r).nodes[0].acceptor == Last(r).nodes[1].acceptor == AcceptorState(5, 4, v)
    ensures VotesOut(Last(r), 0, Four(v)) && SentToAll(Last(r), Five(v))
  {
    var r10 := FivePromised(cfg, v, w);
    var r11 := CountAdopt(cfg, r10, 1, 0, 4, v, 5);
    assert {0 as nat} + {1} == {0, 1} && |{0 as nat, 1}| == 2;
    r := CountAgain(cfg, r11, 1, 1, 4, v, 5);
  }

  lemma FiveAccepted(cfg: Config, v: ProposalValue, w: ProposalValue) returns (r: seq<Inst>)
    requires cfg.n == 2
    ensures IsClientRun(cfg, r) && Untold(Last(r)) && Last(r).submitted == {v, w}
    ensures VotesOut(Last(r), 0, Four(v)) && VotesOut(Last(r), 1, Five(v))
  {
    var r12 := FiveProposed(cfg, v, w);
    var r13 := AcceptNow(cfg, r12, 0, Five(v));
    r := AcceptNow(cfg, r13, 1, Five(v));
  }

  /** Both learn v, server 0 at 4 and server 1 at 5, and both INFORMs are in flight. */
  lemma BothLearn(cfg: Config, v: ProposalValue, w: ProposalValue) returns (r: seq<Inst>)
    requires cfg.n == 2
    ensures IsClientRun(cfg, r) && |Last(r).nodes| == 2 && Last(r).seqno == 1 && Last(r).submitted == {v, w}
    ensures NobodyHears(Last(r))
    ensures Packet(0, Decision(1, Vote(1, Five(v)))) in Last(r).flight
    ensures Packet(1, Decision(0, Vote(1, Four(v)))) in Last(r).flight
  {
    var r14 := FiveAccepted(cfg, v, w);
    var r15 := VoteFirst(cfg, r14, 1, Vote(0, Five(v)));
    assert {0 as nat} + {1} == {0, 1} && |{0 as nat, 1}| == 2;
    var r16 := VoteLast(cfg, r15, 1, Vote(1, Five(v)), {0});
    var r17 := VoteFirst(cfg, r16, 0, Vote(0, Four(v)));
    r := VoteLast(cfg, r17, 0, Vote(1, Four(v)), {0});
  }

  // ---- the history ----

  /** A new executor's first reply names the server its INFORM named. */
  lemma FirstIsSilent(amo: bool, id: nat, c: Message)
    requires c.value.operation.LOCK? && c.sequence == 1 && c.extra != id
    ensures var (x, out) := TryExecute(amo, FRESH_ENGINE, c); x.applied == [c.value] && AnswersSent(id, out) == []
  {
    var (x, out) := Advance(amo, FRESH_ENGINE, c);
    assert Drain(amo, x) == (x, []);
    assert |out| == 1 && out[0].extra == c.extra && out + [] == out;
    assert out[1..] == [];
  }

  /** Both INFORMs of the run are in flight, and nobody was told anything. */
  lemma BothInFlight(o: Options, from: Udp4, v: ProposalValue, w: ProposalValue) returns (h: seq<System>)
    requires o.cfg.n == 2 && v.clientId == w.clientId == Encode(from)
    ensures MuteSince(o, h, 0) && |Solo.Last(h).servers| == 2 && 1 in Solo.Last(h).insts
    ensures Solo.Last(h).servers[0].engine == Solo.Last(h).servers[1].engine == FRESH_ENGINE
    ensures var t := Solo.Last(h).insts[1];
            && |t.nodes| == 2 && NobodyHears(t)
            && Packet(0, Decision(1, Vote(1, Five(v)))) in t.flight
            && Packet(1, Decision(0, Vote(1, Four(v)))) in t.flight
  {
    Pair.BootOfTwo(o);
    EncodeIsStamped(from);
    var run := BothLearn(Calm(o.cfg), v, w);
    var h0 := [Boot(o)];
    h := TakeRun(o, h0, run, 1, 0);
    assert At(o, Solo.Last(h), 1) == Last(run);
    assert Untouched(Solo.Last(h0).servers[0], Solo.Last(h).servers[0]);
    assert Untouched(Solo.Last(h0).servers[1], Solo.Last(h).servers[1]);
  }

  /** In any deployment of two servers, also where nothing crashes or is duplicated, both servers
      can execute a command that has a reply, and no client is told anything. */
  lemma NobodyAnswers(o: Options, from: Udp4, v: ProposalValue, w: ProposalValue) returns (h: seq<System>)
    requires o.cfg.n == 2 && v.clientId == w.clientId == Encode(from) && v.operation.LOCK?
    ensures MuteSince(o, h, 0) && |Solo.Last(h).servers| == 2
    ensures forall j :: 0 <= j < 2 ==> Solo.Last(h).servers[j].engine.applied == [v]
    ensures ReplyTo(o.amo, [v], 0).Some?
  {
    var h1 := BothInFlight(o, from, v, w);
    var five, four := Decision(1, Vote(1, Five(v))), Decision(0, Vote(1, Four(v)));
    FirstIsSilent(o.amo, 0, five.(kind := COMMAND));
    var h2 := Pair.Hears(o, h1, 1, 0, five, 0);
    FirstIsSilent(o.amo, 1, four.(kind := COMMAND));
    h := Pair.Hears(o, h2, 1, 1, four, 0);
    assert [v][..0] == [];
  }
}
