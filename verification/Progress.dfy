/** An undecided server is never stuck for good: once it has begun an instance its timer is armed,
    and some finite series of timer firings and deliveries gets it informed. What can become of a
    server that has learned a decision without being informed of it is the subject of module
    Marooned. */
module Progress {
  import opened Wire
  import opened Roles
  import opened Consensus
  import opened Safety

  predicate Helpful(e: Event) {
    e.Timer? || e.Deliver?
  }

  /** Timer firings and deliveries es lead from s to t. */
  ghost predicate Leads(cfg: Config, s: Inst, es: seq<Event>, t: Inst)
    decreases es
  {
    if es == [] then s == t
    else Helpful(es[0]) && Enabled(cfg, s, es[0]) && Leads(cfg, Apply(cfg, s, es[0]), es[1..], t)
  }

  ghost predicate CanReach(cfg: Config, s: Inst, t: Inst) {
    exists es :: Leads(cfg, s, es, t)
  }

  ghost predicate CanBeInformed(cfg: Config, s: Inst, i: nat) {
    exists t :: CanReach(cfg, s, t) && InformedAt(t, i)
  }

  predicate DecidedAt(s: Inst, i: nat) {
    i < |s.nodes| && Decided(s.nodes[i].learner)
  }

  lemma AlreadyInformed(cfg: Config, s: Inst, i: nat)
    requires InformedAt(s, i)
    ensures CanBeInformed(cfg, s, i)
  {
    assert Leads(cfg, s, [], s);
    assert CanReach(cfg, s, s);
  }

  lemma PutFirst(cfg: Config, s: Inst, e: Event, u: Inst, es: seq<Event>, t: Inst)
    requires Helpful(e) && Enabled(cfg, s, e) && u == Apply(cfg, s, e) && Leads(cfg, u, es, t)
    ensures CanReach(cfg, s, t)
  {
    assert ([e] + es)[1..] == es;
    assert Leads(cfg, s, [e] + es, t);
  }

  lemma OneMore(cfg: Config, s: Inst, e: Event, i: nat)
    requires Helpful(e) && Enabled(cfg, s, e) && CanBeInformed(cfg, Apply(cfg, s, e), i)
    ensures CanBeInformed(cfg, s, i)
  {
    var t :| CanReach(cfg, Apply(cfg, s, e), t) && InformedAt(t, i);
    var es :| Leads(cfg, Apply(cfg, s, e), es, t);
    PutFirst(cfg, s, e, Apply(cfg, s, e), es, t);
  }

  lemma Backwards(cfg: Config, s: Inst, e: Event, i: nat)
    requires Helpful(e) && Enabled(cfg, s, e)
    ensures CanBeInformed(cfg, Apply(cfg, s, e), i) ==> CanBeInformed(cfg, s, i)
  {
    if CanBeInformed(cfg, Apply(cfg, s, e), i) {
      OneMore(cfg, s, e, i);
    }
  }

  // ---- an INFORM in flight ----

  lemma HearDecision(cfg: Config, u: Inst, i: nat, r: Message)
    requires i < |u.nodes| && Packet(i, r) in u.flight && r.kind.INFORM?
    ensures CanBeInformed(cfg, u, i)
  {
    var f := Deliver(Packet(i, r));
    AlreadyInformed(cfg, Apply(cfg, u, f), i);
    OneMore(cfg, u, f, i);
  }

  // ---- the timer is armed ----

  predicate ArmedIf(n: nat, x: Node) {
    2 * n <= x.proposer.current && !Decided(x.learner) ==> x.timer.Some?
  }

  lemma DispatchArms(n: nat, recovery: bool, id: nat, x: Node, m: Message)
    requires ArmedIf(n, x)
    ensures ArmedIf(n, Dispatch(n, recovery, id, x, m).node)
  {
  }

  lemma EventArms(cfg: Config, s: Inst, e: Event)
    requires Enabled(cfg, s, e) && forall i :: 0 <= i < |s.nodes| ==> ArmedIf(|s.nodes|, s.nodes[i])
    ensures forall i :: 0 <= i < |s.nodes| ==> ArmedIf(|s.nodes|, Apply(cfg, s, e).nodes[i])
  {
    match e
    case Deliver(p) => DispatchArms(|s.nodes|, cfg.recovery, p.dst, s.nodes[p.dst], p.msg);
    case _ =>
  }

  lemma {:induction false} TimerIsArmed(cfg: Config, run: seq<Inst>, k: nat)
    requires IsRun(cfg, run) && k < |run|
    ensures |run[k].nodes| == cfg.n
    ensures forall i :: 0 <= i < cfg.n ==> ArmedIf(cfg.n, run[k].nodes[i])
  {
    if k == 0 {
    } else {
      TimerIsArmed(cfg, run, k - 1);
      var e := EventAt(cfg, run, k);
      EventArms(cfg, run[k - 1], e);
    }
  }

  // ---- accepting and learning ----

  /** The servers below k that are not informed. */
  function Unheard(s: Inst, k: nat): set<nat> {
    if k == 0 then {}
    else if k - 1 < |s.nodes| && !s.nodes[k - 1].learner.informed then Unheard(s, k - 1) + {k - 1}
    else Unheard(s, k - 1)
  }

  /** From s to t nobody becomes informed. */
  predicate SameHearers(s: Inst, t: Inst) {
    && |t.nodes| == |s.nodes|
    && forall j :: 0 <= j < |s.nodes| ==> t.nodes[j].learner.informed == s.nodes[j].learner.informed
  }

  lemma {:induction false} UnheardStays(s: Inst, t: Inst, k: nat)
    requires SameHearers(s, t)
    ensures Unheard(t, k) == Unheard(s, k)
  {
    if k == 0 {
    } else {
      UnheardStays(s, t, k - 1);
    }
  }

  lemma {:induction false} UnheardBelow(s: Inst, k: nat, j: nat)
    ensures j in Unheard(s, k) <==> j < k && j < |s.nodes| && !s.nodes[j].learner.informed
  {
    if k == 0 {
    } else {
      UnheardBelow(s, k - 1, j);
    }
  }

  lemma UnheardNext(s: Inst, k: nat)
    requires k < |s.nodes|
    ensures s.nodes[k].learner.informed ==> Unheard(s, k + 1) == Unheard(s, k)
    ensures !s.nodes[k].learner.informed ==>
              Unheard(s, k + 1) == Unheard(s, k) + {k} && |Unheard(s, k + 1)| == |Unheard(s, k)| + 1
  {
    UnheardBelow(s, k, k);
  }

  /** Nobody who is not informed has promised above b. */
  predicate Open(s: Inst, b: nat) {
    forall j :: 0 <= j < |s.nodes| && !s.nodes[j].learner.informed ==> s.nodes[j].acceptor.prepare <= b
  }

  predicate InFlightFrom(s: Inst, k: nat, m: Message) {
    forall d: nat :: k <= d < |s.nodes| ==> Packet(d, m) in s.flight
  }

  /** What i's learner knows when it has counted the servers q for number b. */
  predicate Counted(l: LearnerState, b: nat, q: set<nat>) {
    !Decided(l) && if q == {} then l.number < b else l.number == b && l.accepted == q
  }

  /** Server i's proposal m is on its way to the servers from k up; i has counted those below that
      are not informed. */
  predicate Accepting(s: Inst, i: nat, m: Message, k: nat) {
    && i < |s.nodes| && k <= |s.nodes| && m.kind.ACCEPT? && m.fromId == i
    && Open(s, m.number) && InFlightFrom(s, k, m)
    && Counted(s.nodes[i].learner, m.number, Unheard(s, k))
  }

  function Vote(m: Message, k: nat): Message {
    m.(kind := ACCEPTED, extra := m.number, fromId := k)
  }

  // Each step below returns the state it leads to, and says that whoever can be informed there
  // can be informed here.

  lemma DeliverAccept(cfg: Config, s: Inst, i: nat, m: Message, k: nat, w: nat) returns (t: Inst)
    requires Accepting(s, i, m, k) && k < |s.nodes| && !s.nodes[k].learner.informed
    ensures SameHearers(s, t) && Voting(t, i, m, k)
    ensures CanBeInformed(cfg, t, w) ==> CanBeInformed(cfg, s, w)
  {
    var p := Packet(k, m);
    t := Apply(cfg, s, Deliver(p));
    assert t.flight == s.flight - multiset{p} + multiset{Packet(i, Vote(m, k))};
    UnheardStays(s, t, k);
    Backwards(cfg, s, Deliver(p), w);
  }

  lemma CountVote(n: nat, l: LearnerState, m: Message, q: set<nat>)
    requires Counted(l, m.number, q)
    ensures var (x, inform) := OnAccepted(n, l, m);
            if 2 * |q + {m.fromId}| > n then inform.Some? && inform.value.kind.INFORM?
            else inform.None? && Counted(x, m.number, q + {m.fromId}) && !x.informed
  {
    if q == {} {
      assert q + {m.fromId} == {m.fromId};
    }
  }

  /** Everything about a proposal being accepted, with k's vote on its way. */
  predicate Voting(s: Inst, i: nat, m: Message, k: nat) {
    && i < |s.nodes| && k < |s.nodes| && m.kind.ACCEPT? && m.fromId == i && !s.nodes[k].learner.informed
    && Open(s, m.number) && InFlightFrom(s, k + 1, m) && Packet(i, Vote(m, k)) in s.flight
    && Counted(s.nodes[i].learner, m.number, Unheard(s, k))
  }

  /** A vote v that completes no majority is counted and nothing is sent. */
  lemma CountsVote(cfg: Config, s: Inst, i: nat, v: Message, w: nat) returns (t: Inst)
    requires i < |s.nodes| && Packet(i, v) in s.flight && v.kind.ACCEPTED?
    requires OnAccepted(|s.nodes|, s.nodes[i].learner, v).1.None?
    ensures t.flight == s.flight - multiset{Packet(i, v)} && |t.nodes| == |s.nodes|
    ensures t.nodes == s.nodes[i := s.nodes[i].(learner := OnAccepted(|s.nodes|, s.nodes[i].learner, v).0)]
    ensures CanBeInformed(cfg, t, w) ==> CanBeInformed(cfg, s, w)
  {
    t := Apply(cfg, s, Deliver(Packet(i, v)));
    assert t.flight == s.flight - multiset{Packet(i, v)};
    Backwards(cfg, s, Deliver(Packet(i, v)), w);
  }

  lemma DeliverVote(cfg: Config, s: Inst, i: nat, m: Message, k: nat, w: nat) returns (t: Inst)
    requires Voting(s, i, m, k) && 2 * |Unheard(s, k + 1)| <= |s.nodes|
    ensures SameHearers(s, t) && Accepting(t, i, m, k + 1)
    ensures CanBeInformed(cfg, t, w) ==> CanBeInformed(cfg, s, w)
  {
    UnheardNext(s, k);
    CountVote(|s.nodes|, s.nodes[i].learner, Vote(m, k), Unheard(s, k));
    t := CountsVote(cfg, s, i, Vote(m, k), w);
    UnheardStays(s, t, k + 1);
  }

  /** The vote that completes a majority informs everyone. */
  lemma DeliverLastVote(cfg: Config, s: Inst, i: nat, m: Message, k: nat, w: nat) returns (t: Inst)
    requires Voting(s, i, m, k) && 2 * |Unheard(s, k + 1)| > |s.nodes|
    ensures |t.nodes| == |s.nodes| && InformSent(t)
    ensures CanBeInformed(cfg, t, w) ==> CanBeInformed(cfg, s, w)
  {
    var p := Packet(i, Vote(m, k));
    t := Apply(cfg, s, Deliver(p));
    UnheardNext(s, k);
    CountVote(|s.nodes|, s.nodes[i].learner, p.msg, Unheard(s, k));
    var inform := OnAccepted(|s.nodes|, s.nodes[i].learner, p.msg).1.value.(fromId := i, extra := i);
    AllGetIt(s.flight - multiset{p}, t, inform);
    Backwards(cfg, s, Deliver(p), w);
  }

  /** An INFORM is on its way to every server. */
  predicate InformSent(s: Inst) {
    forall h: nat :: h < |s.nodes| ==> InformTo(s, h)
  }

  predicate InformTo(s: Inst, h: nat) {
    exists p :: p in s.flight && p.dst == h && p.msg.kind.INFORM?
  }

  lemma AllGetIt(rest: multiset<Packet>, t: Inst, inform: Message)
    requires inform.kind.INFORM? && t.flight == rest + multiset(Broadcast(|t.nodes|, inform))
    ensures InformSent(t)
  {
    forall h: nat | h < |t.nodes| ensures InformTo(t, h) {
      assert Packet(h, inform) in Broadcast(|t.nodes|, inform);
      assert Packet(h, inform) in t.flight;
    }
  }

  /** Most servers are not informed. */
  predicate MostUnheard(s: Inst) {
    2 * |Unheard(s, |s.nodes|)| > |s.nodes|
  }

  lemma {:induction false} AcceptingInforms(cfg: Config, s: Inst, i: nat, m: Message, k: nat, w: nat)
    requires Accepting(s, i, m, k) && w < |s.nodes| && MostUnheard(s) && 2 * |Unheard(s, k)| <= |s.nodes|
    ensures CanBeInformed(cfg, s, w)
    decreases |s.nodes| - k
  {
    UnheardNext(s, k);
    if s.nodes[k].learner.informed {
      AcceptingInforms(cfg, s, i, m, k + 1, w);
    } else {
      var t := DeliverAccept(cfg, s, i, m, k, w);
      UnheardStays(s, t, |s.nodes|);
      VotingInforms(cfg, t, i, m, k, w);
    }
  }

  lemma MostStays(s: Inst, t: Inst, k: nat)
    requires SameHearers(s, t) && MostUnheard(s) && 2 * |Unheard(s, k)| <= |s.nodes|
    ensures MostUnheard(t) && 2 * |Unheard(t, k)| <= |t.nodes| && |t.nodes| == |s.nodes|
  {
    UnheardStays(s, t, k);
    UnheardStays(s, t, |s.nodes|);
  }

  /** The same vote, as the next stage of a round that most servers have yet to hear of. */
  lemma VoteGoesOn(cfg: Config, s: Inst, i: nat, m: Message, k: nat, w: nat) returns (t: Inst)
    requires Voting(s, i, m, k) && MostUnheard(s) && 2 * |Unheard(s, k + 1)| <= |s.nodes|
    ensures Accepting(t, i, m, k + 1) && MostUnheard(t) && 2 * |Unheard(t, k + 1)| <= |t.nodes|
    ensures |t.nodes| == |s.nodes| && (CanBeInformed(cfg, t, w) ==> CanBeInformed(cfg, s, w))
  {
    t := DeliverVote(cfg, s, i, m, k, w);
    MostStays(s, t, k + 1);
  }

  lemma {:induction false} VotingInforms(cfg: Config, t: Inst, i: nat, m: Message, k: nat, w: nat)
    requires Voting(t, i, m, k) && w < |t.nodes| && MostUnheard(t)
    ensures CanBeInformed(cfg, t, w)
    decreases |t.nodes| - k, 0
  {
    if 2 * |Unheard(t, k + 1)| > |t.nodes| {
      var u := DeliverLastVote(cfg, t, i, m, k, w);
      SentInforms(cfg, u, w);
    } else {
      var u := VoteGoesOn(cfg, t, i, m, k, w);
      AcceptingInforms(cfg, u, i, m, k + 1, w);
    }
  }

  lemma SentInforms(cfg: Config, u: Inst, w: nat)
    requires w < |u.nodes| && InformSent(u)
    ensures CanBeInformed(cfg, u, w)
  {
    assert InformTo(u, w);
    var p :| p in u.flight && p.dst == w && p.msg.kind.INFORM?;
    HearDecision(cfg, u, w, p.msg);
  }

  // ---- preparing ----

  /** i's proposer is collecting promises for b and has those of the servers q. */
  predicate Collected(x: ProposerState, b: nat, q: set<nat>) {
    x.current == b && !x.majority && x.promised == q
  }

  /** Server i's round m is on its way to the servers from k up; those below that are not informed
      have promised. */
  predicate Preparing(s: Inst, i: nat, m: Message, k: nat) {
    && i < |s.nodes| && k <= |s.nodes| && m.kind.PREPARE? && m.fromId == i
    && Open(s, m.number) && InFlightFrom(s, k, m)
    && (forall j :: k <= j < |s.nodes| && !s.nodes[j].learner.informed ==> s.nodes[j].acceptor.prepare < m.number)
    && Counted(s.nodes[i].learner, m.number, {})
    && Collected(s.nodes[i].proposer, m.number, Unheard(s, k))
  }

  function Promise(s: Inst, m: Message, k: nat): Message
    requires k < |s.nodes|
  {
    m.(kind := PROMISE, number := s.nodes[k].acceptor.number, value := s.nodes[k].acceptor.value,
       extra := m.number, fromId := k)
  }

  lemma DeliverPrepare(cfg: Config, s: Inst, i: nat, m: Message, k: nat, w: nat) returns (t: Inst)
    requires Preparing(s, i, m, k) && k < |s.nodes| && !s.nodes[k].learner.informed
    ensures SameHearers(s, t) && Expecting(t, i, m, k, Promise(s, m, k))
    ensures CanBeInformed(cfg, t, w) ==> CanBeInformed(cfg, s, w)
  {
    var p := Packet(k, m);
    t := Apply(cfg, s, Deliver(p));
    assert t.flight == s.flight - multiset{p} + multiset{Packet(i, Promise(s, m, k))};
    UnheardStays(s, t, k);
    Backwards(cfg, s, Deliver(p), w);
  }

  lemma CollectPromise(n: nat, x: ProposerState, r: Message, q: set<nat>)
    requires Collected(x, r.extra, q)
    ensures var (y, accept) := OnPromise(n, x, r);
            if 2 * |q + {r.fromId}| > n then
              accept.Some? && accept.value.kind.ACCEPT? && accept.value.number == r.extra
            else
              accept.None? && Collected(y, r.extra, q + {r.fromId})
  {
  }

  /** A round in preparation, with k's promise r on its way. */
  predicate Expecting(s: Inst, i: nat, m: Message, k: nat, r: Message) {
    && i < |s.nodes| && k < |s.nodes| && m.kind.PREPARE? && m.fromId == i && !s.nodes[k].learner.informed
    && Open(s, m.number) && InFlightFrom(s, k + 1, m)
    && (forall j :: k < j < |s.nodes| && !s.nodes[j].learner.informed ==> s.nodes[j].acceptor.prepare < m.number)
    && Counted(s.nodes[i].learner, m.number, {})
    && Collected(s.nodes[i].proposer, m.number, Unheard(s, k))
    && Packet(i, r) in s.flight && r.kind.PROMISE? && r.extra == m.number && r.fromId == k
  }

  /** A promise r that completes no majority is counted and nothing is sent. */
  lemma CountsPromise(cfg: Config, s: Inst, i: nat, r: Message, w: nat) returns (t: Inst)
    requires i < |s.nodes| && Packet(i, r) in s.flight && r.kind.PROMISE?
    requires r.extra == s.nodes[i].proposer.current && OnPromise(|s.nodes|, s.nodes[i].proposer, r).1.None?
    ensures t.flight == s.flight - multiset{Packet(i, r)} && |t.nodes| == |s.nodes|
    ensures t.nodes == s.nodes[i := s.nodes[i].(proposer := OnPromise(|s.nodes|, s.nodes[i].proposer, r).0)]
    ensures CanBeInformed(cfg, t, w) ==> CanBeInformed(cfg, s, w)
  {
    t := Apply(cfg, s, Deliver(Packet(i, r)));
    assert t.flight == s.flight - multiset{Packet(i, r)};
    Backwards(cfg, s, Deliver(Packet(i, r)), w);
  }

  lemma DeliverPromise(cfg: Config, s: Inst, i: nat, m: Message, k: nat, r: Message, w: nat) returns (t: Inst)
    requires Expecting(s, i, m, k, r) && 2 * |Unheard(s, k + 1)| <= |s.nodes|
    ensures SameHearers(s, t) && Preparing(t, i, m, k + 1)
    ensures CanBeInformed(cfg, t, w) ==> CanBeInformed(cfg, s, w)
  {
    UnheardNext(s, k);
    CollectPromise(|s.nodes|, s.nodes[i].proposer, r, Unheard(s, k));
    t := CountsPromise(cfg, s, i, r, w);
    UnheardStays(s, t, k + 1);
  }

  /** A promise r that completes a majority starts the second phase. */
  lemma StartsAccept(cfg: Config, s: Inst, i: nat, r: Message, w: nat) returns (t: Inst)
    requires i < |s.nodes| && Packet(i, r) in s.flight && r.kind.PROMISE?
    requires r.extra == s.nodes[i].proposer.current && OnPromise(|s.nodes|, s.nodes[i].proposer, r).1.Some?
    ensures var own := OnPromise(|s.nodes|, s.nodes[i].proposer, r).1.value.(fromId := i);
            && |t.nodes| == |s.nodes| && InFlightFrom(t, 0, own)
            && t.nodes == s.nodes[i := s.nodes[i].(proposer := OnPromise(|s.nodes|, s.nodes[i].proposer, r).0,
                                                   timer := Some(own))]
    ensures CanBeInformed(cfg, t, w) ==> CanBeInformed(cfg, s, w)
  {
    t := Apply(cfg, s, Deliver(Packet(i, r)));
    var own := OnPromise(|s.nodes|, s.nodes[i].proposer, r).1.value.(fromId := i);
    assert t.flight == s.flight - multiset{Packet(i, r)} + multiset(Broadcast(|s.nodes|, own));
    forall d: nat | d < |s.nodes| ensures Packet(d, own) in t.flight {
      assert Packet(d, own) in Broadcast(|s.nodes|, own);
    }
    Backwards(cfg, s, Deliver(Packet(i, r)), w);
  }

  lemma DeliverLastPromise(cfg: Config, s: Inst, i: nat, m: Message, k: nat, r: Message, w: nat) returns (t: Inst)
    requires Expecting(s, i, m, k, r) && 2 * |Unheard(s, k + 1)| > |s.nodes|
    ensures SameHearers(s, t) && t.nodes[i].timer.Some? && Accepting(t, i, t.nodes[i].timer.value, 0)
    ensures CanBeInformed(cfg, t, w) ==> CanBeInformed(cfg, s, w)
  {
    UnheardNext(s, k);
    CollectPromise(|s.nodes|, s.nodes[i].proposer, r, Unheard(s, k));
    t := StartsAccept(cfg, s, i, r, w);
  }

  /** An informed server's promise is not waited for. */
  lemma PreparingSkips(s: Inst, i: nat, m: Message, k: nat)
    requires Preparing(s, i, m, k) && k < |s.nodes| && s.nodes[k].learner.informed
    ensures Preparing(s, i, m, k + 1) && Unheard(s, k + 1) == Unheard(s, k)
  {
    UnheardNext(s, k);
  }

  /** While those passed so far are no majority, somebody is left to ask. */
  lemma SomeoneIsLeft(s: Inst, k: nat)
    requires MostUnheard(s) && 2 * |Unheard(s, k)| <= |s.nodes| && k <= |s.nodes|
    ensures k < |s.nodes|
  {
  }

  lemma {:induction false} PreparingInforms(cfg: Config, s: Inst, i: nat, m: Message, k: nat, w: nat)
    requires Preparing(s, i, m, k) && w < |s.nodes| && MostUnheard(s) && 2 * |Unheard(s, k)| <= |s.nodes|
    ensures CanBeInformed(cfg, s, w)
    decreases |s.nodes| - k
  {
    SomeoneIsLeft(s, k);
    if s.nodes[k].learner.informed {
      PreparingSkips(s, i, m, k);
      PreparingInforms(cfg, s, i, m, k + 1, w);
    } else {
      var t := DeliverPrepare(cfg, s, i, m, k, w);
      UnheardStays(s, t, |s.nodes|);
      ExpectingInforms(cfg, t, i, m, k, Promise(s, m, k), w);
    }
  }

  /** The same promise, as the next stage of a round that most servers have yet to hear of. */
  lemma PromiseGoesOn(cfg: Config, s: Inst, i: nat, m: Message, k: nat, r: Message, w: nat) returns (t: Inst)
    requires Expecting(s, i, m, k, r) && MostUnheard(s) && 2 * |Unheard(s, k + 1)| <= |s.nodes|
    ensures Preparing(t, i, m, k + 1) && MostUnheard(t) && 2 * |Unheard(t, k + 1)| <= |t.nodes|
    ensures |t.nodes| == |s.nodes| && (CanBeInformed(cfg, t, w) ==> CanBeInformed(cfg, s, w))
  {
    t := DeliverPromise(cfg, s, i, m, k, r, w);
    MostStays(s, t, k + 1);
  }

  /** The promise that completes a majority starts the second phase, which informs w. */
  lemma LastPromiseInforms(cfg: Config, s: Inst, i: nat, m: Message, k: nat, r: Message, w: nat)
    requires Expecting(s, i, m, k, r) && MostUnheard(s) && 2 * |Unheard(s, k + 1)| > |s.nodes| && w < |s.nodes|
    ensures CanBeInformed(cfg, s, w)
  {
    var t := DeliverLastPromise(cfg, s, i, m, k, r, w);
    UnheardStays(s, t, |s.nodes|);
    AcceptingInforms(cfg, t, i, t.nodes[i].timer.value, 0, w);
  }

  lemma {:induction false} ExpectingInforms(cfg: Config, t: Inst, i: nat, m: Message, k: nat, r: Message, w: nat)
    requires Expecting(t, i, m, k, r) && w < |t.nodes| && MostUnheard(t)
    ensures CanBeInformed(cfg, t, w)
    decreases |t.nodes| - k, 0
  {
    if 2 * |Unheard(t, k + 1)| <= |t.nodes| {
      var u := PromiseGoesOn(cfg, t, i, m, k, r, w);
      PreparingInforms(cfg, u, i, m, k + 1, w);
    } else {
      LastPromiseInforms(cfg, t, i, m, k, r, w);
    }
  }

  // ---- raising the number ----

  function Max(a: nat, b: nat): nat {
    if a < b then b else a
  }

  /** The largest number anybody has promised. */
  function HighestPrepare(nodes: seq<Node>): (h: nat)
    ensures forall j :: 0 <= j < |nodes| ==> nodes[j].acceptor.prepare <= h
  {
    if nodes == [] then 0
    else
      var h := HighestPrepare(nodes[1..]);
      assert forall j :: 1 <= j < |nodes| ==> nodes[j] == nodes[1..][j - 1];
      Max(nodes[0].acceptor.prepare, h)
  }

  lemma FireTimer(cfg: Config, s: Inst, i: nat)
    requires i < |s.nodes| && s.nodes[i].timer.Some? && !DecidedAt(s, i)
    ensures Enabled(cfg, s, Timer(i))
    ensures var t := Apply(cfg, s, Timer(i));
            && |t.nodes| == |s.nodes| && t.nodes[i].timer.Some?
            && var m := t.nodes[i].timer.value;
            && m.kind.PREPARE? && m.fromId == i && m.number == s.nodes[i].proposer.current + |s.nodes|
            && Collected(t.nodes[i].proposer, m.number, {})
            && InFlightFrom(t, 0, m)
            && forall j :: 0 <= j < |s.nodes| ==>
                 t.nodes[j].acceptor == s.nodes[j].acceptor && t.nodes[j].learner == s.nodes[j].learner
  {
    var t := Apply(cfg, s, Timer(i));
    var m := t.nodes[i].timer.value;
    forall d: nat | d < |s.nodes| ensures Packet(d, m) in t.flight {
      assert Packet(d, m) in Broadcast(|s.nodes|, m);
    }
  }

  /** While most servers are not informed, i's firings and one full round inform any server w. The
      measure is the gap between i's number and the largest number anybody holds. */
  lemma {:induction false} FiringInforms(cfg: Config, s: Inst, i: nat, h: nat, w: nat)
    requires w < |s.nodes| && i < |s.nodes| && s.nodes[i].timer.Some? && !DecidedAt(s, i) && Open(s, h)
    requires s.nodes[i].learner.number <= h && MostUnheard(s)
    ensures CanBeInformed(cfg, s, w)
    decreases if h < s.nodes[i].proposer.current then 0 else h - s.nodes[i].proposer.current + 1
  {
    FireTimer(cfg, s, i);
    var t := Apply(cfg, s, Timer(i));
    UnheardStays(s, t, |s.nodes|);
    var m := t.nodes[i].timer.value;
    if m.number <= h {
      FiringInforms(cfg, t, i, h, w);
    } else {
      PreparingInforms(cfg, t, i, m, 0, w);
    }
    OneMore(cfg, s, Timer(i), w);
  }

  /** An informed server answers a PREPARE or an ACCEPT with the decision. */
  lemma InformedHelps(cfg: Config, t: Inst, i: nat, j: nat, m: Message)
    requires i < |t.nodes| && j < |t.nodes| && t.nodes[j].learner.informed
    requires Packet(j, m) in t.flight && (m.kind.PREPARE? || m.kind.ACCEPT?) && m.fromId == i
    ensures CanBeInformed(cfg, t, i)
  {
    var e := Deliver(Packet(j, m));
    var u := Apply(cfg, t, e);
    var r := InformReply(t.nodes[j].learner, m);
    assert u.flight == t.flight - multiset{Packet(j, m)} + multiset{Packet(i, r)};
    HearDecision(cfg, u, i, r);
    OneMore(cfg, t, e, i);
  }

  /** i has begun the instance: its number has left the initial one. */
  predicate Begun(s: Inst, i: nat) {
    i < |s.nodes| && 2 * |s.nodes| <= s.nodes[i].proposer.current
  }

  /** Progress is always possible. In any state of any run, a server that has begun the instance
      and has not decided has its timer armed, and timer firings and deliveries alone can get it
      informed, so that its command reaches the executor. */
  lemma ProgressIsPossible(cfg: Config, run: seq<Inst>, i: nat)
    requires IsRun(cfg, run) && i < cfg.n
    ensures var s := run[|run| - 1];
            && |s.nodes| == cfg.n
            && (Begun(s, i) && !DecidedAt(s, i) ==> s.nodes[i].timer.Some? && CanBeInformed(cfg, s, i))
  {
    var s := run[|run| - 1];
    TimerIsArmed(cfg, run, |run| - 1);
    if Begun(s, i) && !DecidedAt(s, i) {
      if j: nat :| j < |s.nodes| && s.nodes[j].learner.informed {
        FireTimer(cfg, s, i);
        var t := Apply(cfg, s, Timer(i));
        InformedHelps(cfg, t, i, j, t.nodes[i].timer.value);
        OneMore(cfg, s, Timer(i), i);
      } else {
        AllUnheard(s, |s.nodes|);
        BegunInforms(cfg, run, i, i);
      }
    }
  }

  lemma {:induction false} AllUnheard(s: Inst, k: nat)
    requires k <= |s.nodes| && forall j :: 0 <= j < |s.nodes| ==> !s.nodes[j].learner.informed
    ensures |Unheard(s, k)| == k
  {
    if k == 0 {
    } else {
      AllUnheard(s, k - 1);
      UnheardNext(s, k - 1);
    }
  }

  /** While most servers are not informed, a begun and undecided server i can get every server w
      informed, also one that has learned the decision and can do nothing for itself. */
  lemma BegunInforms(cfg: Config, run: seq<Inst>, i: nat, w: nat)
    requires IsRun(cfg, run) && i < cfg.n && w < cfg.n
    requires var s := run[|run| - 1]; MostUnheard(s) && Begun(s, i) && !DecidedAt(s, i)
    ensures CanBeInformed(cfg, run[|run| - 1], w)
  {
    var s := run[|run| - 1];
    TimerIsArmed(cfg, run, |run| - 1);
    FiringInforms(cfg, s, i, Max(HighestPrepare(s.nodes), s.nodes[i].learner.number), w);
  }
}
