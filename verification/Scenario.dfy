/** Building runs step by step: each lemma is one event, reduced to what a scenario needs. */
module Scenario {
  import opened Wire
  import opened Roles
  import opened Consensus

  // ---- runs that a client could cause ----

  function Request(k: nat, v: ProposalValue): Message {
    Message(SUBMIT, k, 0, 0, v, 0)
  }

  /** Submissions are plain requests to a server that has not decided. */
  predicate ByClient(s: Inst, e: Event) {
    e.Submission? ==> e.m == Request(s.seqno, e.m.value) && e.i < |s.nodes| && !Decided(s.nodes[e.i].learner)
  }

  ghost predicate ClientStep(cfg: Config, s: Inst, t: Inst) {
    exists e :: Enabled(cfg, s, e) && ByClient(s, e) && t == Apply(cfg, s, e)
  }

  ghost predicate ClientStepAt(cfg: Config, run: seq<Inst>, k: nat) {
    k + 1 < |run| && ClientStep(cfg, run[k], run[k + 1])
  }

  /** A run of one instance with such submissions only. */
  ghost predicate IsClientRun(cfg: Config, run: seq<Inst>) {
    && |run| > 0 && cfg.n > 0 && run[0] == Init(cfg.n, run[0].seqno)
    && forall k: nat :: k < |run| - 1 ==> ClientStepAt(cfg, run, k)
  }

  lemma ClientRunIsRun(cfg: Config, run: seq<Inst>)
    requires IsClientRun(cfg, run)
    ensures IsRun(cfg, run)
  {
    forall k | 0 <= k < |run| - 1 ensures Next(cfg, run[k], run[k + 1]) {
      assert ClientStepAt(cfg, run, k);
    }
  }

  // ---- growing runs ----

  function Last(run: seq<Inst>): Inst
    requires |run| > 0
  {
    run[|run| - 1]
  }

  /** Run r goes on from run q: nothing an acceptor held is forgotten. */
  ghost predicate Prolongs(cfg: Config, q: seq<Inst>, r: seq<Inst>) {
    && IsClientRun(cfg, r) && IsRun(cfg, r) && q <= r
    && forall a: nat, b: nat, v :: HeldIn(q, a, b, v) ==> HeldIn(r, a, b, v)
  }

  lemma Grow(cfg: Config, run: seq<Inst>, e: Event) returns (r: seq<Inst>)
    requires IsClientRun(cfg, run) && Enabled(cfg, Last(run), e) && ByClient(Last(run), e)
    ensures Prolongs(cfg, run, r) && r == run + [Last(r)] && Last(r) == Apply(cfg, Last(run), e)
    ensures forall a: nat, b: nat, v :: Holds(Last(r), a, b, v) ==> HeldIn(r, a, b, v)
  {
    r := run + [Apply(cfg, Last(run), e)];
    forall k: nat | k < |r| - 1 ensures ClientStepAt(cfg, r, k) {
      if k < |run| - 1 {
        assert ClientStepAt(cfg, run, k);
      }
    }
    ClientRunIsRun(cfg, r);
    forall a: nat, b: nat, v | HeldIn(run, a, b, v) ensures HeldIn(r, a, b, v) {
      var k :| 0 <= k < |run| && Holds(run[k], a, b, v);
      assert Holds(r[k], a, b, v);
    }
    forall a: nat, b: nat, v | Holds(Last(r), a, b, v) ensures HeldIn(r, a, b, v) {
      assert Holds(r[|r| - 1], a, b, v);
    }
  }

  predicate Keeps(s: Inst, p: Packet, t: Inst) {
    forall q :: q in s.flight && q != p ==> q in t.flight
  }

  predicate KeepsAll(s: Inst, t: Inst) {
    forall q :: q in s.flight ==> q in t.flight
  }

  predicate SentToAll(s: Inst, m: Message) {
    forall d: nat :: d < |s.nodes| ==> Packet(d, m) in s.flight
  }

  // ---- single steps, each reduced to what the scenarios need ----

  function Fresh(n: nat, x: ProposerState, v: ProposalValue): ProposerState {
    ProposerState(x.current + n, 0, v, {}, {}, false)
  }

  function Prepare(s: Inst, i: nat, v: ProposalValue, extra: nat): Message
    requires i < |s.nodes|
  {
    Message(PREPARE, s.seqno, i, s.nodes[i].proposer.current + |s.nodes|, v, extra)
  }

  lemma BroadcastArrives(s: Inst, t: Inst, m: Message, gone: multiset<Packet>)
    requires |t.nodes| == |s.nodes| && t.flight == s.flight - gone + multiset(Broadcast(|s.nodes|, m))
    ensures SentToAll(t, m)
  {
    forall d: nat | d < |s.nodes| ensures Packet(d, m) in t.flight {
      assert Packet(d, m) in Broadcast(|s.nodes|, m);
    }
  }

  /** A client's value v reaches server i. */
  lemma Begin(cfg: Config, run: seq<Inst>, i: nat, v: ProposalValue) returns (r: seq<Inst>)
    requires IsClientRun(cfg, run) && i < |Last(run).nodes| && !Decided(Last(run).nodes[i].learner)
    ensures Prolongs(cfg, run, r) && r == run + [Last(r)]
    ensures var s, t := Last(run), Last(r);
            && t.seqno == s.seqno && t.submitted == s.submitted + {v} && KeepsAll(s, t)
            && t.nodes == s.nodes[i := s.nodes[i].(proposer := Fresh(|s.nodes|, s.nodes[i].proposer, v),
                                                   timer := Some(Prepare(s, i, v, 0)))]
            && SentToAll(t, Prepare(s, i, v, 0))
  {
    var s := Last(run);
    r := Grow(cfg, run, Submission(i, Request(s.seqno, v)));
    BroadcastArrives(s, Last(r), Prepare(s, i, v, 0), multiset{});
  }

  /** Server i's deadline timer fires. */
  lemma Retry(cfg: Config, run: seq<Inst>, i: nat) returns (r: seq<Inst>)
    requires IsClientRun(cfg, run) && i < |Last(run).nodes| && !Decided(Last(run).nodes[i].learner)
    requires Last(run).nodes[i].timer.Some? && Last(run).nodes[i].timer.value.sequence == Last(run).seqno
    ensures Prolongs(cfg, run, r)
    ensures var s, t := Last(run), Last(r);
            var own := s.nodes[i].timer.value;
            && t.seqno == s.seqno && t.submitted == s.submitted && KeepsAll(s, t)
            && t.nodes == s.nodes[i := s.nodes[i].(proposer := Fresh(|s.nodes|, s.nodes[i].proposer, own.value),
                                                   timer := Some(Prepare(s, i, own.value, own.extra)))]
            && SentToAll(t, Prepare(s, i, own.value, own.extra))
  {
    var s := Last(run);
    var own := s.nodes[i].timer.value;
    r := Grow(cfg, run, Timer(i));
    BroadcastArrives(s, Last(r), Prepare(s, i, own.value, own.extra), multiset{});
  }

  /** An acceptor that has accepted nothing promises number b. */
  function EmptyPromise(k: nat, a: nat, b: nat): Message {
    Message(PROMISE, k, a, 0, NO_VALUE, b)
  }

  predicate EmptyAt(s: Inst, a: nat, b: nat) {
    a < |s.nodes| && s.nodes[a].acceptor == AcceptorState(b, 0, NO_VALUE)
  }

  lemma PromiseEffect(n: nat, recovery: bool, a: nat, x: Node, m: Message, was: nat)
    requires x.acceptor == AcceptorState(was, 0, NO_VALUE) && !x.learner.informed && was < m.number && m.kind.PREPARE?
    ensures var y := AcceptorState(m.number, 0, NO_VALUE);
            Dispatch(n, recovery, a, x, m)
            == Effect(x.(acceptor := y, acceptorSlot := if recovery then Some(y) else x.acceptorSlot),
                      [Packet(m.fromId, EmptyPromise(m.sequence, a, m.number))], None)
  {
  }

  lemma PromiseFirst(cfg: Config, run: seq<Inst>, a: nat, m: Message, was: nat) returns (r: seq<Inst>)
    requires IsClientRun(cfg, run) && EmptyAt(Last(run), a, was) && was < m.number
    requires !Last(run).nodes[a].learner.informed
    requires Packet(a, m) in Last(run).flight && m.kind.PREPARE? && m.sequence == Last(run).seqno
    ensures Prolongs(cfg, run, r) && r == run + [Last(r)]
    ensures var s, t := Last(run), Last(r);
            var x := AcceptorState(m.number, 0, NO_VALUE);
            && t.seqno == s.seqno && t.submitted == s.submitted && Keeps(s, Packet(a, m), t)
            && t.nodes == s.nodes[a := s.nodes[a].(acceptor := x,
                 acceptorSlot := if cfg.recovery then Some(x) else s.nodes[a].acceptorSlot)]
            && Packet(m.fromId, EmptyPromise(s.seqno, a, m.number)) in t.flight
  {
    PromiseEffect(|Last(run).nodes|, cfg.recovery, a, Last(run).nodes[a], m, was);
    r := Grow(cfg, run, Deliver(Packet(a, m)));
    assert Last(r).flight == Last(run).flight - multiset{Packet(a, m)}
                             + multiset{Packet(m.fromId, EmptyPromise(Last(run).seqno, a, m.number))};
  }

  lemma CountEffect(n: nat, recovery: bool, i: nat, x: Node, m: Message)
    requires 2 <= n && x.proposer.current <= m.extra && x.proposer.promised == {} && x.proposer.highestNumber == 0
    requires m.kind.PROMISE? && m.number == 0
    ensures Dispatch(n, recovery, i, x, m) == Quiet(x.(proposer := x.proposer.(promised := {m.fromId})))
  {
    assert {} + {m.fromId} == {m.fromId};
  }

  /** A first promise that is not yet enough, possibly one for a number ahead of i's. */
  lemma CountFirst(cfg: Config, run: seq<Inst>, i: nat, a: nat, b: nat) returns (r: seq<Inst>)
    requires IsClientRun(cfg, run) && i < |Last(run).nodes| && 2 <= |Last(run).nodes|
    requires var x := Last(run).nodes[i].proposer;
             && x.current <= b && (cfg.asserts ==> x.current == b)
             && x.promised == {} && x.highestNumber == 0 && !x.majority
    requires Packet(i, EmptyPromise(Last(run).seqno, a, b)) in Last(run).flight
    ensures Prolongs(cfg, run, r) && r == run + [Last(r)]
    ensures var s, t := Last(run), Last(r);
            && t.seqno == s.seqno && t.submitted == s.submitted
            && t.flight == s.flight - multiset{Packet(i, EmptyPromise(s.seqno, a, b))}
            && t.nodes == s.nodes[i := s.nodes[i].(proposer := s.nodes[i].proposer.(promised := {a}))]
  {
    var p := Packet(i, EmptyPromise(Last(run).seqno, a, b));
    CountEffect(|Last(run).nodes|, cfg.recovery, i, Last(run).nodes[i], p.msg);
    r := Grow(cfg, run, Deliver(p));
    assert Last(r).flight == Last(run).flight - multiset{p} + multiset([]);
  }

  function Accept(s: Inst, i: nat, extra: nat): Message
    requires i < |s.nodes|
  {
    Message(ACCEPT, s.seqno, i, s.nodes[i].proposer.current, s.nodes[i].proposer.highestValue, extra)
  }

  /** The promise that completes the majority, possibly one for a number ahead of i's. */
  lemma CountLast(cfg: Config, run: seq<Inst>, i: nat, a: nat, b: nat) returns (r: seq<Inst>)
    requires IsClientRun(cfg, run) && i < |Last(run).nodes|
    requires var x := Last(run).nodes[i].proposer;
             && x.current <= b && (cfg.asserts ==> x.current == b)
             && x.highestNumber == 0 && !x.majority && |x.promised + {a}| * 2 > |Last(run).nodes|
    requires Packet(i, EmptyPromise(Last(run).seqno, a, b)) in Last(run).flight
    ensures Prolongs(cfg, run, r) && r == run + [Last(r)]
    ensures var s, t, p := Last(run), Last(r), Packet(i, EmptyPromise(Last(run).seqno, a, b));
            && t.seqno == s.seqno && t.submitted == s.submitted && Keeps(s, p, t)
            && t.nodes == s.nodes[i := s.nodes[i].(
                 proposer := s.nodes[i].proposer.(promised := s.nodes[i].proposer.promised + {a}, majority := true),
                 timer := Some(Accept(s, i, b)))]
            && SentToAll(t, Accept(s, i, b)) && Packet(0, Accept(s, i, b)) in t.sent
            && (s.flight[p] > 1 ==> p in t.flight)
  {
    var s := Last(run);
    var p := Packet(i, EmptyPromise(s.seqno, a, b));
    var m := Accept(s, i, b);
    r := Grow(cfg, run, Deliver(p));
    BroadcastArrives(s, Last(r), m, multiset{p});
    assert Packet(0, m) in Broadcast(|s.nodes|, m);
  }

  /** Server a's answer to proposal m. */
  function Vote(a: nat, m: Message): Message {
    m.(kind := ACCEPTED, extra := m.number, fromId := a)
  }

  lemma VoteEffect(n: nat, recovery: bool, a: nat, x: Node, m: Message)
    requires !x.learner.informed && x.acceptor.prepare <= m.number && m.kind.ACCEPT?
    ensures var y := AcceptorState(m.number, m.number, m.value);
            Dispatch(n, recovery, a, x, m)
            == Effect(x.(acceptor := y, acceptorSlot := if recovery then Some(y) else x.acceptorSlot),
                      [Packet(m.fromId, Vote(a, m))], None)
  {
  }

  lemma AcceptNow(cfg: Config, run: seq<Inst>, a: nat, m: Message) returns (r: seq<Inst>)
    requires IsClientRun(cfg, run) && a < |Last(run).nodes|
    requires !Last(run).nodes[a].learner.informed && Last(run).nodes[a].acceptor.prepare <= m.number
    requires Packet(a, m) in Last(run).flight && m.kind.ACCEPT? && m.number > 0
    ensures Prolongs(cfg, run, r) && r == run + [Last(r)] && HeldIn(r, a, m.number, m.value)
    ensures Packet(m.fromId, Vote(a, m)) in Last(r).flight
    ensures var s, t := Last(run), Last(r);
            var x := AcceptorState(m.number, m.number, m.value);
            && t.seqno == s.seqno && t.submitted == s.submitted && Keeps(s, Packet(a, m), t)
            && t.nodes == s.nodes[a := s.nodes[a].(acceptor := x,
                 acceptorSlot := if cfg.recovery then Some(x) else s.nodes[a].acceptorSlot)]
  {
    VoteEffect(|Last(run).nodes|, cfg.recovery, a, Last(run).nodes[a], m);
    r := Grow(cfg, run, Deliver(Packet(a, m)));
    assert Last(r).flight == Last(run).flight - multiset{Packet(a, m)}
                             + multiset{Packet(m.fromId, Vote(a, m))};
    assert Holds(Last(r), a, m.number, m.value);
  }

  lemma VoteFirstEffect(n: nat, recovery: bool, i: nat, x: Node, m: Message)
    requires 2 <= n && !Decided(x.learner) && x.learner.number < m.number && m.kind.ACCEPTED?
    ensures Dispatch(n, recovery, i, x, m)
            == Quiet(x.(learner := LearnerState(m.number, m.value, {m.fromId}, false, false)))
  {
  }

  lemma VoteFirst(cfg: Config, run: seq<Inst>, i: nat, m: Message) returns (r: seq<Inst>)
    requires IsClientRun(cfg, run) && i < |Last(run).nodes| && 2 <= |Last(run).nodes|
    requires !Decided(Last(run).nodes[i].learner) && Last(run).nodes[i].learner.number < m.number
    requires Packet(i, m) in Last(run).flight && m.kind.ACCEPTED?
    ensures IsClientRun(cfg, r) && r == run + [Last(r)]
    ensures var s, t := Last(run), Last(r);
            && t.seqno == s.seqno && t.submitted == s.submitted && Keeps(s, Packet(i, m), t)
            && t.nodes == s.nodes[i := s.nodes[i].(
                 learner := LearnerState(m.number, m.value, {m.fromId}, false, false))]
  {
    VoteFirstEffect(|Last(run).nodes|, cfg.recovery, i, Last(run).nodes[i], m);
    r := Grow(cfg, run, Deliver(Packet(i, m)));
    assert Last(r).flight == Last(run).flight - multiset{Packet(i, m)} + multiset([]);
  }

  function Decision(i: nat, m: Message): Message {
    m.(kind := INFORM, fromId := i, extra := i)
  }

  lemma VoteLastEffect(n: nat, recovery: bool, i: nat, x: Node, m: Message, q: set<nat>)
    requires x.learner == LearnerState(m.number, m.value, q, false, false) && |q + {m.fromId}| * 2 > n
    requires m.kind.ACCEPTED?
    ensures Dispatch(n, recovery, i, x, m)
            == Effect(x.(timer := None, learner := LearnerState(m.number, m.value, q + {m.fromId}, true, false)),
                      Broadcast(n, Decision(i, m)), None)
  {
  }

  lemma VoteLast(cfg: Config, run: seq<Inst>, i: nat, m: Message, q: set<nat>) returns (r: seq<Inst>)
    requires IsClientRun(cfg, run) && i < |Last(run).nodes|
    requires Last(run).nodes[i].learner == LearnerState(m.number, m.value, q, false, false)
    requires |q + {m.fromId}| * 2 > |Last(run).nodes|
    requires Packet(i, m) in Last(run).flight && m.kind.ACCEPTED?
    ensures IsClientRun(cfg, r) && r == run + [Last(r)]
    ensures var s, t := Last(run), Last(r);
            && t.seqno == s.seqno && t.submitted == s.submitted
            && SentToAll(t, Decision(i, m)) && Keeps(s, Packet(i, m), t)
            && t.nodes == s.nodes[i := s.nodes[i].(timer := None,
                 learner := LearnerState(m.number, m.value, q + {m.fromId}, true, false))]
  {
    VoteLastEffect(|Last(run).nodes|, cfg.recovery, i, Last(run).nodes[i], m, q);
    r := Grow(cfg, run, Deliver(Packet(i, m)));
    BroadcastArrives(Last(run), Last(r), Decision(i, m), multiset{Packet(i, m)});
  }

  lemma VoteOnlyEffect(recovery: bool, x: Node, m: Message)
    requires !Decided(x.learner) && x.learner.number < m.number && m.kind.ACCEPTED?
    ensures Dispatch(1, recovery, 0, x, m)
            == Effect(x.(timer := None, learner := LearnerState(m.number, m.value, {m.fromId}, true, false)),
                      Broadcast(1, Decision(0, m)), None)
  {
  }

  /** A lone server's first vote is its last. */
  lemma VoteOnly(cfg: Config, run: seq<Inst>, m: Message) returns (r: seq<Inst>)
    requires IsClientRun(cfg, run) && |Last(run).nodes| == 1
    requires !Decided(Last(run).nodes[0].learner) && Last(run).nodes[0].learner.number < m.number
    requires Packet(0, m) in Last(run).flight && m.kind.ACCEPTED?
    ensures IsClientRun(cfg, r) && r == run + [Last(r)]
    ensures var s, t := Last(run), Last(r);
            && t.seqno == s.seqno && t.submitted == s.submitted && SentToAll(t, Decision(0, m))
            && t.nodes == s.nodes[0 := s.nodes[0].(timer := None,
                 learner := LearnerState(m.number, m.value, {m.fromId}, true, false))]
  {
    VoteOnlyEffect(cfg.recovery, Last(run).nodes[0], m);
    r := Grow(cfg, run, Deliver(Packet(0, m)));
    BroadcastArrives(Last(run), Last(r), Decision(0, m), multiset{Packet(0, m)});
  }

  lemma HearEffect(n: nat, recovery: bool, i: nat, x: Node, m: Message)
    requires !x.learner.informed && m.kind.INFORM?
    ensures Dispatch(n, recovery, i, x, m)
            == Effect(x.(timer := None,
                         learner := LearnerState(m.number, m.value, x.learner.accepted, x.learner.learned, true),
                         learnerSlot := if recovery then Some(Informed(m.number, m.value)) else x.learnerSlot),
                      [], Some(m.(kind := COMMAND)))
  {
  }

  lemma Hear(cfg: Config, run: seq<Inst>, i: nat, m: Message) returns (r: seq<Inst>)
    requires IsClientRun(cfg, run) && i < |Last(run).nodes| && !Last(run).nodes[i].learner.informed
    requires Packet(i, m) in Last(run).flight && m.kind.INFORM?
    ensures IsClientRun(cfg, r) && r == run + [Last(r)]
    ensures var s, t, x := Last(run), Last(r), Last(run).nodes[i];
            && t.seqno == s.seqno && t.submitted == s.submitted && Keeps(s, Packet(i, m), t)
            && t.nodes == s.nodes[i := x.(timer := None,
                 learner := LearnerState(m.number, m.value, x.learner.accepted, x.learner.learned, true),
                 learnerSlot := if cfg.recovery then Some(Informed(m.number, m.value)) else x.learnerSlot)]
  {
    HearEffect(|Last(run).nodes|, cfg.recovery, i, Last(run).nodes[i], m);
    r := Grow(cfg, run, Deliver(Packet(i, m)));
    assert Last(r).flight == Last(run).flight - multiset{Packet(i, m)} + multiset([]);
  }

  lemma CrashNow(cfg: Config, run: seq<Inst>, i: nat) returns (r: seq<Inst>)
    requires IsClientRun(cfg, run) && cfg.crashes && i < |Last(run).nodes|
    ensures Prolongs(cfg, run, r)
    ensures var s, t := Last(run), Last(r);
            && t.seqno == s.seqno && t.submitted == s.submitted && t.flight == s.flight
            && t.nodes == s.nodes[i := Restart(|s.nodes|, i, s.nodes[i])]
  {
    r := Grow(cfg, run, Crash(i));
  }

  lemma Again(cfg: Config, run: seq<Inst>, p: Packet) returns (r: seq<Inst>)
    requires IsClientRun(cfg, run) && cfg.duplicates && p in Last(run).flight
    ensures Prolongs(cfg, run, r)
    ensures Last(r) == Last(run).(flight := Last(run).flight + multiset{p})
  {
    r := Grow(cfg, run, Duplicate(p));
  }

  lemma Chain(cfg: Config, q: seq<Inst>, r: seq<Inst>, u: seq<Inst>)
    requires Prolongs(cfg, q, r) && Prolongs(cfg, r, u)
    ensures Prolongs(cfg, q, u)
  {
  }

  lemma StartRunOf(cfg: Config, s: nat) returns (run: seq<Inst>)
    requires cfg.n > 0
    ensures IsClientRun(cfg, run) && IsRun(cfg, run) && |run| == 1 && Last(run) == Init(cfg.n, s)
  {
    run := [Init(cfg.n, s)];
    ClientRunIsRun(cfg, run);
  }

  lemma StartRun(cfg: Config) returns (run: seq<Inst>)
    requires cfg.n > 0
    ensures IsClientRun(cfg, run) && IsRun(cfg, run) && |run| == 1 && Last(run) == Init(cfg.n, 1)
  {
    run := StartRunOf(cfg, 1);
  }
}
