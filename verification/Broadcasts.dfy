/** Whatever a server starts, it tells everybody: the message that its timer would send again went to
    every server under its current number, and what it has learned was announced to every server.
    In every run of every deployment. */
module Broadcasts {
  import opened Wire
  import opened Roles
  import opened Consensus
  import opened Replies
  import Safety

  /** Message m was sent to every server. */
  predicate WentToAll(s: Inst, m: Message) {
    forall d: nat :: d < |s.nodes| ==> Packet(d, m) in s.sent
  }

  /** The armed timer of server i holds a request under its own id and current number. */
  predicate TimerTells(s: Inst, i: nat) {
    i < |s.nodes| &&
    var x := s.nodes[i];
    x.timer.Some? ==> IsRequest(x.timer.value) && x.timer.value.fromId == i
                      && x.timer.value.number == x.proposer.current && WentToAll(s, x.timer.value)
  }

  /** m announces the decision of learner l, and names server i as the one to answer. */
  predicate Announces(m: Message, i: nat, l: LearnerState) {
    m.kind.INFORM? && m.number == l.number && m.value == l.value && m.fromId == i && m.extra == i
  }

  ghost predicate LearnerTells(s: Inst, i: nat) {
    i < |s.nodes| &&
    var l := s.nodes[i].learner;
    l.learned && !l.informed ==> exists m :: Announces(m, i, l) && WentToAll(s, m)
  }

  ghost predicate Told(s: Inst) {
    |s.nodes| > 0 && forall i :: 0 <= i < |s.nodes| ==> TimerTells(s, i) && LearnerTells(s, i)
  }

  // ---- one handler ----

  predicate OutToAll(n: nat, out: seq<Packet>, m: Message) {
    forall d: nat :: d < n ==> Packet(d, m) in out
  }

  /** A timer newly armed holds what everybody is sent; one not newly armed stays, unless it is off. */
  predicate Rearms(n: nat, id: nat, x: Node, y: Node, out: seq<Packet>) {
    || y.timer.None?
    || (y.timer == x.timer && y.proposer.current == x.proposer.current)
    || (IsRequest(y.timer.value) && y.timer.value.fromId == id && y.timer.value.number == y.proposer.current
        && OutToAll(n, out, y.timer.value))
  }

  ghost predicate Learns(n: nat, id: nat, x: LearnerState, y: LearnerState, out: seq<Packet>) {
    || y == x || y.informed || !y.learned
    || exists m :: Announces(m, id, y) && OutToAll(n, out, m)
  }

  lemma SubmitRearms(n: nat, id: nat, x: Node, m: Message)
    ensures var e := Submit(n, id, x, m); Rearms(n, id, x, e.node, e.out) && e.node.learner == x.learner
  {
  }

  lemma DispatchRearms(n: nat, recovery: bool, id: nat, x: Node, m: Message)
    ensures var e := Dispatch(n, recovery, id, x, m); Rearms(n, id, x, e.node, e.out)
  {
    match m.kind
    case PROMISE => PromiseRearms(n, id, x, m);
    case DENIAL => DenialRearms(n, id, x, m);
    case _ =>
  }

  lemma PromiseRearms(n: nat, id: nat, x: Node, m: Message)
    ensures var e := HandlePromise(n, id, x, m); Rearms(n, id, x, e.node, e.out)
  {
  }

  lemma DenialRearms(n: nat, id: nat, x: Node, m: Message)
    ensures var e := HandleDenial(n, id, x, m); Rearms(n, id, x, e.node, e.out)
  {
    var (p, resubmit) := OnDenial(n, x.proposer, m);
    if resubmit.Some? {
      SubmitRearms(n, id, x.(proposer := p, timer := None), resubmit.value);
    }
  }

  lemma DispatchLearns(n: nat, recovery: bool, id: nat, x: Node, m: Message)
    ensures var e := Dispatch(n, recovery, id, x, m); Learns(n, id, x.learner, e.node.learner, e.out)
  {
    if m.kind.ACCEPTED? {
      AcceptedLearns(n, id, x, m);
    }
  }

  lemma AcceptedLearns(n: nat, id: nat, x: Node, m: Message)
    ensures var e := HandleAccepted(n, id, x, m); Learns(n, id, x.learner, e.node.learner, e.out)
  {
    var (l, inform) := OnAccepted(n, x.learner, m);
    if inform.Some? {
      var own := inform.value.(fromId := id, extra := id);
      assert Announces(own, id, l) && OutToAll(n, Broadcast(n, own), own);
    }
  }

  // ---- events ----

  lemma StaysTold(s: Inst, t: Inst, i: nat)
    requires i < |s.nodes| == |t.nodes| && t.nodes[i] == s.nodes[i] && s.sent <= t.sent
    requires TimerTells(s, i) && LearnerTells(s, i)
    ensures TimerTells(t, i) && LearnerTells(t, i)
  {
    var l := s.nodes[i].learner;
    if l.learned && !l.informed {
      var m :| Announces(m, i, l) && WentToAll(s, m);
      assert WentToAll(t, m);
    }
  }

  lemma NewlyTold(s: Inst, t: Inst, i: nat, out: seq<Packet>)
    requires i < |s.nodes| == |t.nodes| && t.sent == s.sent + SetOf(out)
    requires TimerTells(s, i) && LearnerTells(s, i)
    requires Rearms(|s.nodes|, i, s.nodes[i], t.nodes[i], out)
    requires Learns(|s.nodes|, i, s.nodes[i].learner, t.nodes[i].learner, out)
    ensures TimerTells(t, i) && LearnerTells(t, i)
  {
    var x, l := s.nodes[i].learner, t.nodes[i].learner;
    if l.learned && !l.informed {
      if l == x {
        var m :| Announces(m, i, l) && WentToAll(s, m);
        assert WentToAll(t, m);
      } else {
        var m :| Announces(m, i, l) && OutToAll(|s.nodes|, out, m);
        assert WentToAll(t, m);
      }
    }
  }

  lemma ActorTold(cfg: Config, s: Inst, e: Event, i: nat)
    requires Enabled(cfg, s, e) && i < |s.nodes| && TimerTells(s, i) && LearnerTells(s, i)
    ensures TimerTells(Apply(cfg, s, e), i) && LearnerTells(Apply(cfg, s, e), i)
  {
    SentIsOut(cfg, s, e);
    var t, out := Apply(cfg, s, e), Out(cfg, s, e);
    if e.Submission? && e.i == i {
      SubmitRearms(|s.nodes|, i, s.nodes[i], e.m);
      NewlyTold(s, t, i, out);
    } else if e.Timer? && e.i == i {
      var x := s.nodes[i];
      SubmitRearms(|s.nodes|, i, x.(timer := None), x.timer.value.(kind := SUBMIT));
      NewlyTold(s, t, i, out);
    } else if e.Deliver? && e.p.dst == i {
      DispatchRearms(|s.nodes|, cfg.recovery, i, s.nodes[i], e.p.msg);
      DispatchLearns(|s.nodes|, cfg.recovery, i, s.nodes[i], e.p.msg);
      NewlyTold(s, t, i, out);
    } else if e != Crash(i) {
      StaysTold(s, t, i);
    }
  }

  lemma EventTold(cfg: Config, s: Inst, e: Event)
    requires Enabled(cfg, s, e) && Told(s)
    ensures Told(Apply(cfg, s, e))
  {
    SentIsOut(cfg, s, e);
    forall i: nat | i < |s.nodes| ensures TimerTells(Apply(cfg, s, e), i) && LearnerTells(Apply(cfg, s, e), i) {
      ActorTold(cfg, s, e, i);
    }
  }

  /** In every run, an armed timer holds a request that its server sent to everybody under its current
      number, and a server that has learned and not heard has announced it to everybody, naming itself. */
  lemma {:induction false} EverybodyIsTold(cfg: Config, run: seq<Inst>, k: nat)
    requires IsRun(cfg, run) && k < |run|
    ensures Told(run[k])
  {
    if k == 0 {
    } else {
      EverybodyIsTold(cfg, run, k - 1);
      var e := Safety.EventAt(cfg, run, k);
      EventTold(cfg, run[k - 1], e);
    }
  }
}
