/** A server that has learned a decision and missed its INFORM. Its proposer refuses to start
    another round (src/proposer.cpp:32-35) and its timer is off (src/learner.cpp:42), so only what
    is still in flight, or another server, can get it informed. */
module Marooned {
  import opened Wire
  import opened Roles
  import opened Consensus
  import opened Safety
  import opened Progress

  /** Server i has learned the decision without being informed of it; all the others are informed. */
  predicate Alone(s: Inst, i: nat) {
    && i < |s.nodes| && s.nodes[i].learner.learned && !s.nodes[i].learner.informed
    && forall j :: 0 <= j < |s.nodes| && j != i ==> s.nodes[j].learner.informed
  }

  /** An INFORM to i, or a PREPARE or ACCEPT of i's that another server will answer with one. */
  predicate Rescues(i: nat, p: Packet) {
    || (p.dst == i && p.msg.kind.INFORM?)
    || (p.dst != i && p.msg.fromId == i && (p.msg.kind.PREPARE? || p.msg.kind.ACCEPT?))
  }

  /** A promise that i's proposer would count. */
  predicate CountsFor(s: Inst, i: nat, p: Packet)
    requires i < |s.nodes|
  {
    p.dst == i && p.msg.kind.PROMISE? && p.msg.extra == s.nodes[i].proposer.current
  }

  /** A PREPARE from i to itself that it would promise. */
  predicate AsksItself(s: Inst, i: nat, p: Packet)
    requires i < |s.nodes|
  {
    && p.dst == i && p.msg.kind.PREPARE? && p.msg.fromId == i
    && p.msg.number == s.nodes[i].proposer.current && s.nodes[i].acceptor.prepare < p.msg.number
  }

  predicate SelfPromiseAhead(s: Inst, i: nat)
    requires i < |s.nodes|
  {
    exists p :: p in s.flight && AsksItself(s, i, p)
  }

  /** Everyone whose promise i has counted or may still count. */
  function Promisers(s: Inst, i: nat): set<nat>
    requires i < |s.nodes|
  {
    s.nodes[i].proposer.promised
    + (set p | p in s.flight && CountsFor(s, i, p) :: p.msg.fromId)
    + (if SelfPromiseAhead(s, i) then {i} else {})
  }

  /** i may yet complete a majority and propose, to others besides itself. */
  predicate MajorityAhead(s: Inst, i: nat)
    requires i < |s.nodes|
  {
    2 <= |s.nodes| && !s.nodes[i].proposer.majority && |Promisers(s, i)| * 2 > |s.nodes|
  }

  predicate RescueInFlight(s: Inst, i: nat) {
    exists p :: p in s.flight && p.dst < |s.nodes| && Rescues(i, p)
  }

  predicate Hope(s: Inst, i: nat)
    requires i < |s.nodes|
  {
    RescueInFlight(s, i) || MajorityAhead(s, i)
  }

  predicate Hopeless(s: Inst, i: nat) {
    Alone(s, i) && !Hope(s, i)
  }

  // ---- without hope it stays so ----

  /** From s to t nothing that could rescue i has appeared. */
  ghost predicate Calms(s: Inst, t: Inst, i: nat) {
    && |t.nodes| == |s.nodes| && i < |s.nodes|
    && (forall j :: 0 <= j < |s.nodes| ==> t.nodes[j].learner.informed == s.nodes[j].learner.informed)
    && t.nodes[i].learner.learned == s.nodes[i].learner.learned
    && (2 <= |s.nodes| ==> t.nodes[i].proposer.majority == s.nodes[i].proposer.majority)
    && (forall p :: p in t.flight && Rescues(i, p) ==> p in s.flight)
    && Promisers(t, i) <= Promisers(s, i)
  }

  lemma SubsetIsSmaller(a: set<nat>, b: set<nat>)
    requires a <= b
    ensures |a| <= |b|
  {
    assert b == a + (b - a);
  }

  lemma CalmStaysHopeless(s: Inst, t: Inst, i: nat)
    requires Hopeless(s, i) && Calms(s, t, i)
    ensures Hopeless(t, i)
  {
    SubsetIsSmaller(Promisers(t, i), Promisers(s, i));
  }

  /** The same with the packets and the proposer and acceptor of i spelled out. */
  lemma CalmsByParts(s: Inst, t: Inst, i: nat)
    requires |t.nodes| == |s.nodes| && i < |s.nodes|
    requires forall j :: 0 <= j < |s.nodes| ==> t.nodes[j].learner.informed == s.nodes[j].learner.informed
    requires t.nodes[i].learner.learned == s.nodes[i].learner.learned
    requires 2 <= |s.nodes| ==> t.nodes[i].proposer.majority == s.nodes[i].proposer.majority
    requires t.nodes[i].proposer.current == s.nodes[i].proposer.current
    requires t.nodes[i].proposer.promised <= Promisers(s, i)
    requires s.nodes[i].acceptor.prepare <= t.nodes[i].acceptor.prepare
    requires forall p :: p in t.flight ==> p in s.flight || Harmless(s, i, p)
    ensures Calms(s, t, i)
  {
    forall a | a in Promisers(t, i) ensures a in Promisers(s, i) {
      if a !in t.nodes[i].proposer.promised {
        if p :| p in t.flight && CountsFor(t, i, p) && p.msg.fromId == a {
          assert CountsFor(s, i, p);
        } else {
          var p :| p in t.flight && AsksItself(t, i, p);
          assert AsksItself(s, i, p);
        }
      }
    }
  }

  /** A packet that changes nothing for i: it rescues nobody, asks i for nothing in i's name, and
      is no countable promise but one that i was known to make. */
  predicate Harmless(s: Inst, i: nat, p: Packet)
    requires i < |s.nodes|
  {
    && !Rescues(i, p) && !(p.dst == i && p.msg.kind.PREPARE? && p.msg.fromId == i)
    && (CountsFor(s, i, p) ==> p.msg.fromId in Promisers(s, i))
  }

  /** An informed server answers requests with INFORM to the asker, and may only propose besides. */
  lemma InformedAnswers(n: nat, recovery: bool, j: nat, x: Node, m: Message)
    requires x.learner.informed
    ensures var e := Dispatch(n, recovery, j, x, m);
            && e.node.learner == x.learner
            && forall r :: r in e.out ==>
                 || (r.msg.kind.INFORM? && r.dst == m.fromId && (m.kind.PREPARE? || m.kind.ACCEPT?))
                 || (r.msg.kind.ACCEPT? && r.msg.fromId == j)
  {
  }

  lemma OtherDelivers(cfg: Config, s: Inst, p: Packet, i: nat)
    requires Hopeless(s, i) && Enabled(cfg, s, Deliver(p)) && p.dst != i
    ensures Calms(s, Apply(cfg, s, Deliver(p)), i)
  {
    var e := Dispatch(|s.nodes|, cfg.recovery, p.dst, s.nodes[p.dst], p.msg);
    assert !Rescues(i, p);
    InformedAnswers(|s.nodes|, cfg.recovery, p.dst, s.nodes[p.dst], p.msg);
    OtherMoves(s, Apply(cfg, s, Deliver(p)), p, e, i);
  }

  lemma OtherMoves(s: Inst, t: Inst, p: Packet, e: Effect, i: nat)
    requires i < |s.nodes| && p.dst < |s.nodes| && p.dst != i && !Rescues(i, p)
    requires e.node.learner == s.nodes[p.dst].learner
    requires forall r :: r in e.out ==>
               || (r.msg.kind.INFORM? && r.dst == p.msg.fromId && (p.msg.kind.PREPARE? || p.msg.kind.ACCEPT?))
               || (r.msg.kind.ACCEPT? && r.msg.fromId == p.dst)
    requires t.nodes == s.nodes[p.dst := e.node] && t.flight == s.flight - multiset{p} + multiset(e.out)
    ensures Calms(s, t, i)
  {
    CalmsByParts(s, t, i);
  }

  /** What a learned but uninformed server does with a message other than INFORM, when no promise
      completes a majority of several servers. */
  lemma LearnedAnswers(n: nat, recovery: bool, i: nat, x: Node, m: Message)
    requires x.learner.learned && !x.learner.informed && !m.kind.INFORM?
    requires m.kind.PROMISE? ==> m.extra <= x.proposer.current
    requires m.kind.PROMISE? && m.extra == x.proposer.current && 2 <= n
             ==> x.proposer.majority || |x.proposer.promised + {m.fromId}| * 2 <= n
    ensures var e := Dispatch(n, recovery, i, x, m);
            && e.node.learner == x.learner && e.node.proposer.current == x.proposer.current
            && x.acceptor.prepare <= e.node.acceptor.prepare
            && (2 <= n ==> e.node.proposer.majority == x.proposer.majority)
            && (e.node.proposer.promised == x.proposer.promised
                || (m.kind.PROMISE? && m.extra == x.proposer.current
                    && e.node.proposer.promised == x.proposer.promised + {m.fromId}))
            && forall r :: r in e.out ==>
                 || (r.msg.kind.ACCEPT? && n < 2 && r.dst < n)
                 || r.msg.kind.DENIAL? || r.msg.kind.ACCEPTED? || r.msg.kind.REJECTED?
                 || (r.msg.kind.PROMISE? && m.kind.PREPARE? && r.dst == m.fromId && r.msg.fromId == i
                     && r.msg.extra == m.number && x.acceptor.prepare < m.number)
  {
  }

  lemma OwnDelivery(cfg: Config, s: Inst, p: Packet, i: nat)
    requires Hopeless(s, i) && Enabled(cfg, s, Deliver(p)) && p.dst == i
    requires p.msg.kind.PROMISE? ==> ReplyAssertion(s.nodes[i].proposer, p.msg)
    ensures Calms(s, Apply(cfg, s, Deliver(p)), i)
  {
    var x, m := s.nodes[i], p.msg;
    assert !Rescues(i, p);
    if m.kind.PROMISE? && m.extra == x.proposer.current {
      assert CountsFor(s, i, p);
      SubsetIsSmaller(x.proposer.promised + {m.fromId}, Promisers(s, i));
    }
    LearnedAnswers(|s.nodes|, cfg.recovery, i, x, m);
    var e := Dispatch(|s.nodes|, cfg.recovery, i, x, m);
    forall r | r in e.out ensures Harmless(s, i, r) {
      if CountsFor(s, i, r) {
        assert AsksItself(s, i, p);
      }
    }
    CalmsByParts(s, Apply(cfg, s, Deliver(p)), i);
  }

  /** The server that asks for nothing more: submitting at a decided server only disarms. */
  lemma DecidedSubmits(cfg: Config, s: Inst, e: Event)
    requires Enabled(cfg, s, e)
    requires (e.Submission? && Decided(s.nodes[e.i].learner)) || (e.Timer? && Decided(s.nodes[e.i].learner))
    ensures var t := Apply(cfg, s, e);
            && t.flight == s.flight
            && t.nodes == s.nodes[e.i := if e.Timer? then s.nodes[e.i].(timer := None) else s.nodes[e.i]]
  {
    assert s.flight + multiset([]) == s.flight;
  }

  lemma SubmitCalms(cfg: Config, s: Inst, e: Event, i: nat)
    requires Hopeless(s, i) && Enabled(cfg, s, e) && (e.Submission? || e.Timer?)
    ensures Calms(s, Apply(cfg, s, e), i)
  {
    DecidedSubmits(cfg, s, e);
    CalmsByParts(s, Apply(cfg, s, e), i);
  }

  lemma NetworkCalms(cfg: Config, s: Inst, e: Event, i: nat)
    requires Hopeless(s, i) && Enabled(cfg, s, e) && (e.Drop? || e.Duplicate?)
    ensures Calms(s, Apply(cfg, s, e), i)
  {
    CalmsByParts(s, Apply(cfg, s, e), i);
  }

  lemma OtherCrashes(cfg: Config, s: Inst, j: nat, i: nat)
    requires Inv(cfg, s) && Sound(cfg) && Enabled(cfg, s, Crash(j)) && Hopeless(s, i) && j != i
    ensures Calms(s, Apply(cfg, s, Crash(j)), i)
  {
    CalmsByParts(s, Apply(cfg, s, Crash(j)), i);
  }

  /** No event but its own crash gives i hope again. */
  lemma EventStaysHopeless(cfg: Config, s: Inst, e: Event, i: nat)
    requires Inv(cfg, s) && Sound(cfg) && Enabled(cfg, s, e) && Hopeless(s, i) && e != Crash(i)
    ensures Hopeless(Apply(cfg, s, e), i)
  {
    match e {
      case Submission(j, m) => SubmitCalms(cfg, s, e, i);
      case Timer(j) => SubmitCalms(cfg, s, e, i);
      case Deliver(p) =>
        DeliverAsserted(cfg, s, p);
        if p.dst == i {
          OwnDelivery(cfg, s, p, i);
        } else {
          OtherDelivers(cfg, s, p, i);
        }
      case Crash(j) => OtherCrashes(cfg, s, j, i);
      case Drop(p) => NetworkCalms(cfg, s, e, i);
      case Duplicate(p) => NetworkCalms(cfg, s, e, i);
    }
    CalmStaysHopeless(s, Apply(cfg, s, e), i);
  }

  lemma {:induction false} HopelessNeverHears(cfg: Config, s: Inst, es: seq<Event>, t: Inst, i: nat)
    requires Inv(cfg, s) && Sound(cfg) && Hopeless(s, i) && Leads(cfg, s, es, t)
    ensures Hopeless(t, i)
    decreases es
  {
    if es == [] {
    } else {
      StepInv(cfg, s, es[0]);
      EventStaysHopeless(cfg, s, es[0], i);
      HopelessNeverHears(cfg, Apply(cfg, s, es[0]), es[1..], t, i);
    }
  }

  // ---- with hope it can be informed ----

  lemma RescueWorks(cfg: Config, s: Inst, i: nat)
    requires Alone(s, i) && RescueInFlight(s, i)
    ensures CanBeInformed(cfg, s, i)
  {
    var p :| p in s.flight && p.dst < |s.nodes| && Rescues(i, p);
    if p.dst == i {
      HearDecision(cfg, s, i, p.msg);
    } else {
      InformedHelps(cfg, s, i, p.dst, p.msg);
    }
  }

  /** A majority of counted promises has raised the flag. */
  predicate FlaggedIf(n: nat, x: ProposerState) {
    |x.promised| * 2 > n ==> x.majority
  }

  lemma DispatchFlags(n: nat, recovery: bool, id: nat, x: Node, m: Message)
    requires FlaggedIf(n, x.proposer)
    ensures FlaggedIf(n, Dispatch(n, recovery, id, x, m).node.proposer)
  {
  }

  lemma EventFlags(cfg: Config, s: Inst, e: Event)
    requires Enabled(cfg, s, e) && forall i :: 0 <= i < |s.nodes| ==> FlaggedIf(|s.nodes|, s.nodes[i].proposer)
    ensures forall i :: 0 <= i < |s.nodes| ==> FlaggedIf(|s.nodes|, Apply(cfg, s, e).nodes[i].proposer)
  {
    match e
    case Deliver(p) => DispatchFlags(|s.nodes|, cfg.recovery, p.dst, s.nodes[p.dst], p.msg);
    case _ =>
  }

  lemma {:induction false} MajorityIsFlagged(cfg: Config, run: seq<Inst>, k: nat)
    requires IsRun(cfg, run) && k < |run|
    ensures |run[k].nodes| == cfg.n
    ensures forall i :: 0 <= i < cfg.n ==> FlaggedIf(cfg.n, run[k].nodes[i].proposer)
  {
    if k == 0 {
    } else {
      MajorityIsFlagged(cfg, run, k - 1);
      var e := EventAt(cfg, run, k);
      EventFlags(cfg, run[k - 1], e);
    }
  }

  /** i promises itself; its promise is then in flight. */
  lemma SelfPromise(cfg: Config, s: Inst, i: nat, p: Packet)
    requires Alone(s, i) && p in s.flight && AsksItself(s, i, p)
    ensures Enabled(cfg, s, Deliver(p))
    ensures var t := Apply(cfg, s, Deliver(p));
            && Alone(t, i) && t.nodes[i].proposer == s.nodes[i].proposer && |t.nodes| == |s.nodes|
            && Promisers(s, i) <= Promisers(t, i) && !SelfPromiseAhead(t, i)
  {
    var x, m := s.nodes[i], p.msg;
    var r := Packet(i, m.(kind := PROMISE, number := x.acceptor.number, value := x.acceptor.value,
                          extra := m.number, fromId := i));
    var t := Apply(cfg, s, Deliver(p));
    assert t.flight == s.flight - multiset{p} + multiset{r};
    assert CountsFor(t, i, r) && r in t.flight;
    forall a | a in Promisers(s, i) ensures a in Promisers(t, i) {
      if a !in x.proposer.promised && a != i {
        var q :| q in s.flight && CountsFor(s, i, q) && q.msg.fromId == a;
        assert q in t.flight && CountsFor(t, i, q);
      }
    }
  }

  /** The promise that completes i's majority makes it propose, to the others too. */
  lemma CountLast(cfg: Config, s: Inst, i: nat, p: Packet)
    requires Alone(s, i) && p in s.flight && CountsFor(s, i, p) && !s.nodes[i].proposer.majority && 2 <= |s.nodes|
    requires |s.nodes[i].proposer.promised + {p.msg.fromId}| * 2 > |s.nodes|
    ensures Enabled(cfg, s, Deliver(p))
    ensures var t := Apply(cfg, s, Deliver(p)); Alone(t, i) && RescueInFlight(t, i)
  {
    var t := Apply(cfg, s, Deliver(p));
    var own := t.nodes[i].timer.value;
    var j: nat := if i == 0 then 1 else 0;
    assert t.flight == s.flight - multiset{p} + multiset(Broadcast(|s.nodes|, own));
    assert Packet(j, own) in Broadcast(|s.nodes|, own);
    assert Packet(j, own) in t.flight && Rescues(i, Packet(j, own));
  }

  /** Short of a majority nothing is lost by counting. */
  lemma CountMore(cfg: Config, s: Inst, i: nat, p: Packet)
    requires Alone(s, i) && p in s.flight && CountsFor(s, i, p) && !s.nodes[i].proposer.majority
    requires |s.nodes[i].proposer.promised + {p.msg.fromId}| * 2 <= |s.nodes|
    ensures Enabled(cfg, s, Deliver(p))
    ensures var t := Apply(cfg, s, Deliver(p));
            && Alone(t, i) && |t.nodes| == |s.nodes| && !t.nodes[i].proposer.majority
            && t.nodes[i].proposer.promised == s.nodes[i].proposer.promised + {p.msg.fromId}
            && Promisers(s, i) <= Promisers(t, i)
  {
    var t := Apply(cfg, s, Deliver(p));
    assert t.flight == s.flight - multiset{p};
    CountKeepsPromisers(s, t, i, p);
  }

  lemma CountKeepsPromisers(s: Inst, t: Inst, i: nat, p: Packet)
    requires i < |s.nodes| == |t.nodes| && p in s.flight && CountsFor(s, i, p)
    requires t.flight == s.flight - multiset{p} && t.nodes[i].acceptor == s.nodes[i].acceptor
    requires t.nodes[i].proposer.current == s.nodes[i].proposer.current
    requires t.nodes[i].proposer.promised == s.nodes[i].proposer.promised + {p.msg.fromId}
    ensures Promisers(s, i) <= Promisers(t, i)
  {
    forall a | a in Promisers(s, i) ensures a in Promisers(t, i) {
      if a !in t.nodes[i].proposer.promised {
        if q :| q in s.flight && CountsFor(s, i, q) && q.msg.fromId == a {
          assert q in t.flight && CountsFor(t, i, q);
        } else {
          var q :| q in s.flight && AsksItself(s, i, q);
          assert q in t.flight && AsksItself(t, i, q);
        }
      }
    }
  }

  lemma NextPromise(s: Inst, i: nat, q: set<nat>) returns (a: nat, p: Packet)
    requires i < |s.nodes| && q <= Promisers(s, i) && |q| * 2 > |s.nodes|
    requires FlaggedIf(|s.nodes|, s.nodes[i].proposer) && !s.nodes[i].proposer.majority
    ensures a in q && a !in s.nodes[i].proposer.promised && p in s.flight
    ensures (CountsFor(s, i, p) && p.msg.fromId == a) || AsksItself(s, i, p)
  {
    var x := s.nodes[i].proposer;
    if q <= x.promised {
      SubsetIsSmaller(q, x.promised);
    }
    a :| a in q && a !in x.promised;
    if r :| r in s.flight && CountsFor(s, i, r) && r.msg.fromId == a {
      p := r;
    } else {
      p :| p in s.flight && AsksItself(s, i, p);
    }
  }

  lemma {:induction false} MajorityWorks(cfg: Config, s: Inst, i: nat, q: set<nat>)
    requires Alone(s, i) && 2 <= |s.nodes| && !s.nodes[i].proposer.majority
    requires FlaggedIf(|s.nodes|, s.nodes[i].proposer)
    requires q <= Promisers(s, i) && |q| * 2 > |s.nodes|
    ensures CanBeInformed(cfg, s, i)
    decreases |q - s.nodes[i].proposer.promised|, if SelfPromiseAhead(s, i) then 1 else 0
  {
    var a, p := NextPromise(s, i, q);
    var t: Inst;
    if AsksItself(s, i, p) {
      SelfPromise(cfg, s, i, p);
      t := Apply(cfg, s, Deliver(p));
      MajorityWorks(cfg, t, i, q);
    } else if |s.nodes[i].proposer.promised + {a}| * 2 > |s.nodes| {
      CountLast(cfg, s, i, p);
      t := Apply(cfg, s, Deliver(p));
      RescueWorks(cfg, t, i);
    } else {
      CountMore(cfg, s, i, p);
      SmallerGap(q, s.nodes[i].proposer.promised, a);
      t := Apply(cfg, s, Deliver(p));
      MajorityWorks(cfg, t, i, q);
    }
    OneMore(cfg, s, Deliver(p), i);
  }

  lemma SmallerGap(q: set<nat>, x: set<nat>, a: nat)
    requires a in q && a !in x
    ensures |q - (x + {a})| < |q - x|
  {
    assert q - x == (q - (x + {a})) + {a};
  }

  /** Exactly when it can still be informed: a learned server whose fellows are all informed can
      hear of the decision if and only if an INFORM to it is in flight, or a PREPARE or ACCEPT of
      its own is on the way to another server, or the promises it counted together with those still
      in flight make a majority it has not used. */
  lemma HopeExactly(cfg: Config, run: seq<Inst>, i: nat)
    requires IsRun(cfg, run) && Sound(cfg) && Alone(run[|run| - 1], i)
    ensures CanBeInformed(cfg, run[|run| - 1], i) <==> Hope(run[|run| - 1], i)
  {
    var s := run[|run| - 1];
    RunInv(cfg, run, |run| - 1);
    if Hope(s, i) {
      MajorityIsFlagged(cfg, run, |run| - 1);
      HopeInforms(cfg, s, i);
    } else if CanBeInformed(cfg, s, i) {
      var t :| CanReach(cfg, s, t) && InformedAt(t, i);
      var es :| Leads(cfg, s, es, t);
      HopelessNeverHears(cfg, s, es, t, i);
      assert false;
    }
  }

  lemma HopeInforms(cfg: Config, s: Inst, i: nat)
    requires Alone(s, i) && Hope(s, i) && FlaggedIf(|s.nodes|, s.nodes[i].proposer)
    ensures CanBeInformed(cfg, s, i)
  {
    if RescueInFlight(s, i) {
      RescueWorks(cfg, s, i);
    } else {
      MajorityWorks(cfg, s, i, Promisers(s, i));
    }
  }
}
