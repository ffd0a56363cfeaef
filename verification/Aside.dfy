/** Deciding one instance while nobody hears of it: a run of that instance is taken by the whole
    system, and nothing else in the system changes. */
module Aside {
  import opened Wire
  import opened Endpoint
  import opened Roles
  import opened Consensus
  import opened Validity
  import opened Cluster
  import opened Scenario
  import Agreement
  import Mirror
  import Solo

  /** The same deployment in calm weather. */
  function Calm(cfg: Config): Config {
    cfg.(crashes := false, duplicates := false)
  }

  predicate NobodyHears(t: Inst) {
    forall j :: 0 <= j < |t.nodes| ==> !t.nodes[j].learner.informed
  }

  /** The servers that have begun instance s are those whose next position it is. */
  predicate BegunInTurn(c: System, t: Inst, s: nat) {
    forall j: nat :: j < |t.nodes| && j < |c.servers| && 2 * |t.nodes| <= t.nodes[j].proposer.current
      ==> NextSlot(c, j) == s
  }

  /** What server v does not change while it takes part: executor, learner log, resubmissions. */
  predicate Untouched(v: Server, w: Server) {
    w.engine == v.engine && w.learnerFile == v.learnerFile && w.resubmits == v.resubmits
  }

  /** System d is system c but for instance s, which is t. */
  ghost predicate Differs(o: Options, c: System, d: System, s: nat, t: Inst) {
    && |d.servers| == |c.servers|
    && (forall j :: 0 <= j < |c.servers| ==> Untouched(c.servers[j], d.servers[j]))
    && At(o, d, s) == t
    && (forall r :: r in d.insts && r != s <==> r in c.insts && r != s)
    && forall r :: r in c.insts && r != s ==> d.insts[r] == c.insts[r]
  }

  // ---- histories in which no client is told anything ----

  /** From c to d in one step that answers nobody. */
  ghost predicate Mute(o: Options, c: System, d: System) {
    exists a :: CanDo(o, c, a) && d == Do(o, c, a) && AnswersOf(o, c, a) == []
  }

  ghost predicate MuteAt(o: Options, h: seq<System>, k: nat) {
    k + 1 < |h| && Mute(o, h[k], h[k + 1])
  }

  /** From state b of the history on, every step can be taken without an answer. */
  ghost predicate MuteSince(o: Options, h: seq<System>, b: nat) {
    IsHistory(o, h) && forall k: nat :: b <= k < |h| - 1 ==> MuteAt(o, h, k)
  }

  lemma MuteGoes(o: Options, h: seq<System>, a: Action, b: nat) returns (g: seq<System>)
    requires IsHistory(o, h) && CanDo(o, Solo.Last(h), a)
    ensures IsHistory(o, g) && g == h + [Do(o, Solo.Last(h), a)]
    ensures MuteSince(o, h, b) && AnswersOf(o, Solo.Last(h), a) == [] ==> MuteSince(o, g, b)
  {
    g := Solo.Then(o, h, a);
    if MuteSince(o, h, b) && AnswersOf(o, Solo.Last(h), a) == [] {
      forall k: nat | b <= k < |g| - 1 ensures MuteAt(o, g, k) {
        if k < |h| - 1 {
          assert MuteAt(o, h, k);
        }
      }
    }
  }

  // ---- looking back from a state in which nobody has heard ----

  lemma CalmEvent(cfg: Config, t: Inst, e: Event)
    requires Enabled(Calm(cfg), t, e)
    ensures Enabled(cfg, t, e) && Apply(cfg, t, e) == Apply(Calm(cfg), t, e)
    ensures !e.Crash? && !e.Duplicate?
  {
  }

  lemma StaysInformed(n: nat, recovery: bool, id: nat, x: Node, m: Message)
    ensures x.learner.informed || m.kind.INFORM? ==> Dispatch(n, recovery, id, x, m).node.learner.informed
  {
  }

  /** If nobody has heard after the event, nobody had before, and it delivered no INFORM. */
  lemma NobodyHeard(cfg: Config, t: Inst, e: Event)
    requires Enabled(cfg, t, e) && !e.Crash? && NobodyHears(Apply(cfg, t, e))
    ensures NobodyHears(t) && (e.Deliver? ==> !e.p.msg.kind.INFORM?)
  {
    var u := Apply(cfg, t, e);
    if e.Deliver? {
      StaysInformed(|t.nodes|, cfg.recovery, e.p.dst, t.nodes[e.p.dst], e.p.msg);
      assert !u.nodes[e.p.dst].learner.informed;
    }
    forall j | 0 <= j < |t.nodes| ensures !t.nodes[j].learner.informed {
      assert !u.nodes[j].learner.informed;
    }
  }

  lemma NumbersRise(cfg: Config, t: Inst, e: Event, j: nat)
    requires Enabled(cfg, t, e) && !e.Crash? && j < |t.nodes|
    ensures t.nodes[j].proposer.current <= Apply(cfg, t, e).nodes[j].proposer.current
  {
    Agreement.RoundsGoUp(cfg, t, e, j);
  }

  lemma SubmissionRises(cfg: Config, t: Inst, i: nat, m: Message)
    requires Enabled(cfg, t, Submission(i, m)) && !Decided(t.nodes[i].learner)
    ensures Apply(cfg, t, Submission(i, m)).nodes[i].proposer.current == t.nodes[i].proposer.current + |t.nodes|
  {
  }

  /** And whoever had begun before has begun after; a submission begins. */
  lemma WasInTurn(cfg: Config, c: System, t: Inst, e: Event, u: Inst, s: nat)
    requires Enabled(cfg, t, e) && u == Apply(cfg, t, e) && !e.Crash? && BegunInTurn(c, u, s) && ByClient(t, e)
    requires |c.servers| == |t.nodes| == |u.nodes|
    requires forall j :: 0 <= j < |t.nodes| ==> |t.nodes| <= t.nodes[j].proposer.current
    ensures BegunInTurn(c, t, s) && (e.Submission? ==> NextSlot(c, e.i) == s)
  {
    forall j: nat | j < |t.nodes| ensures t.nodes[j].proposer.current <= u.nodes[j].proposer.current {
      NumbersRise(cfg, t, e, j);
    }
    if e.Submission? {
      SubmissionRises(cfg, t, e.i, e.m);
    }
  }

  // ---- one event as one action ----

  lemma SubmissionAside(o: Options, c: System, d: System, s: nat, t: Inst, e: Event) returns (a: Action)
    requires Differs(o, c, d, s, t) && t.seqno == s && |c.servers| == |t.nodes| && Enabled(o.cfg, t, e)
    requires e.Submission? && ByClient(t, e) && NextSlot(c, e.i) == s && Stamped(e.m.value.clientId)
    ensures CanDo(o, d, a) && Differs(o, c, Do(o, d, a), s, Apply(o.cfg, t, e)) && AnswersOf(o, d, a) == []
  {
    var from := Decode(e.m.value.clientId);
    StampedExactly(e.m.value.clientId);
    assert Stamp(from, e.m) == e.m && ToSlot(e.m, s) == e.m;
    a := Client(e.i, from, e.m);
    assert Untouched(c.servers[e.i], d.servers[e.i]);
  }

  lemma Started(o: Options, c: System, d: System, s: nat, t: Inst)
    requires Differs(o, c, d, s, t) && t != Init(o.cfg.n, s)
    ensures s in d.insts && d.insts[s] == t
  {
  }

  lemma NoCommand(n: nat, recovery: bool, id: nat, x: Node, m: Message)
    requires !m.kind.INFORM?
    ensures Dispatch(n, recovery, id, x, m).command.None?
  {
  }

  lemma DeliveryAside(o: Options, c: System, d: System, s: nat, t: Inst, p: Packet) returns (a: Action)
    requires Differs(o, c, d, s, t) && |c.servers| == |t.nodes| && Enabled(o.cfg, t, Deliver(p))
    requires !p.msg.kind.INFORM?
    ensures CanDo(o, d, a) && Differs(o, c, Do(o, d, a), s, Apply(o.cfg, t, Deliver(p)))
    ensures AnswersOf(o, d, a) == []
  {
    Started(o, c, d, s, t);
    a := Receive(s, p);
    var e := Dispatch(|t.nodes|, o.cfg.recovery, p.dst, t.nodes[p.dst], p.msg);
    NoCommand(|t.nodes|, o.cfg.recovery, p.dst, t.nodes[p.dst], p.msg);
    Solo.ReceiveParts(o, d, s, p);
    assert Untouched(d.servers[p.dst], Solo.AfterEffect(o, p.dst, d.servers[p.dst], s, e));
  }

  lemma OtherAside(o: Options, c: System, d: System, s: nat, t: Inst, e: Event) returns (a: Action)
    requires Differs(o, c, d, s, t) && Enabled(o.cfg, t, e) && (e.Timer? || e.Drop?)
    ensures CanDo(o, d, a) && Differs(o, c, Do(o, d, a), s, Apply(o.cfg, t, e)) && AnswersOf(o, d, a) == []
  {
    Started(o, c, d, s, t);
    a := if e.Timer? then Expire(e.i, s) else Lose(s, e.p);
  }

  lemma EventAside(o: Options, c: System, d: System, s: nat, t: Inst, e: Event) returns (a: Action)
    requires Differs(o, c, d, s, t) && t.seqno == s && |c.servers| == |t.nodes|
    requires Enabled(Calm(o.cfg), t, e) && ByClient(t, e)
    requires e.Submission? ==> NextSlot(c, e.i) == s && Stamped(e.m.value.clientId)
    requires e.Deliver? ==> !e.p.msg.kind.INFORM?
    ensures CanDo(o, d, a) && Differs(o, c, Do(o, d, a), s, Apply(Calm(o.cfg), t, e)) && AnswersOf(o, d, a) == []
  {
    CalmEvent(o.cfg, t, e);
    match e
    case Submission(i, m) => a := SubmissionAside(o, c, d, s, t, e);
    case Deliver(p) => a := DeliveryAside(o, c, d, s, t, p);
    case Timer(i) => a := OtherAside(o, c, d, s, t, e);
    case Drop(p) => a := OtherAside(o, c, d, s, t, e);
  }

  // ---- the whole run ----

  lemma NumbersStart(cfg: Config, run: seq<Inst>)
    requires IsClientRun(cfg, run) && !cfg.crashes
    ensures var t := Last(run);
            |t.nodes| == cfg.n && forall j :: 0 <= j < cfg.n ==> cfg.n <= t.nodes[j].proposer.current
  {
    ClientRunIsRun(cfg, run);
    RunIsValid(cfg, run, |run| - 1);
    var t := Last(run);
    assert forall j :: 0 <= j < cfg.n ==> ValidNode(|t.nodes|, t.submitted, t.nodes[j]);
  }

  /** A run of an untouched instance in which nobody hears of a decision, its clients' values
      stamped and submitted in turn, can be taken by the system, and nobody is answered. */
  lemma {:induction false} TakeRun(o: Options, h: seq<System>, run: seq<Inst>, s: nat, b: nat)
    returns (g: seq<System>)
    requires IsHistory(o, h) && s !in Solo.Last(h).insts && |Solo.Last(h).servers| == o.cfg.n
    requires IsClientRun(Calm(o.cfg), run) && Last(run).seqno == s
    requires NobodyHears(Last(run)) && BegunInTurn(Solo.Last(h), Last(run), s)
    requires forall x :: x in Last(run).submitted ==> Stamped(x.clientId)
    ensures IsHistory(o, g) && h <= g && Differs(o, Solo.Last(h), Solo.Last(g), s, Last(run))
    ensures MuteSince(o, h, b) ==> MuteSince(o, g, b)
  {
    if |run| == 1 {
      g := h;
    } else {
      var c, t := Solo.Last(h), Last(run[..|run| - 1]);
      var e := Mirror.LastStep(Calm(o.cfg), run);
      Mirror.SubmittedGrows(Calm(o.cfg), t, e);
      NumbersStart(Calm(o.cfg), run[..|run| - 1]);
      NobodyHeard(Calm(o.cfg), t, e);
      WasInTurn(Calm(o.cfg), c, t, e, Last(run), s);
      var f := TakeRun(o, h, run[..|run| - 1], s, b);
      var a := EventAside(o, c, Solo.Last(f), s, t, e);
      g := MuteGoes(o, f, a, b);
    }
  }
}
