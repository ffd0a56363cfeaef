/** What a denied round resubmits (src/proposer.cpp:109-137): the value of a round that this server
    began itself with the number denied. It is the round now in progress exactly if servers do not
    crash: a restarted server takes its old numbers again, and denials of its former life bring back
    a value it has since given up. */
module Redone {
  import opened Wire
  import opened Roles
  import opened Consensus
  import opened Replies
  import opened Scenario
  import opened Crowd
  import opened Sizes
  import opened Denials
  import Safety

  // ---- in every deployment ----

  /** Server i asked everybody, or some, to promise b for value v. */
  ghost predicate AskedFor(s: Inst, i: nat, b: nat, v: ProposalValue) {
    exists q :: q in s.sent && q.msg.kind.PREPARE? && q.msg.fromId == i && q.msg.number == b && q.msg.value == v
  }

  /** A denial makes a server ask again exactly if it is not older than the current number,
      completes a majority of denials, and nothing is decided here. Everybody is asked, with the
      value denied, under the next number, and the timer holds what was sent. */
  lemma DenialAsksAgain(cfg: Config, s: Inst, p: Packet)
    requires Enabled(cfg, s, Deliver(p)) && p.msg.kind.DENIAL?
    ensures var x, y, out := s.nodes[p.dst], Apply(cfg, s, Deliver(p)).nodes[p.dst], Out(cfg, s, Deliver(p));
            if p.msg.extra >= x.proposer.current && |x.proposer.denied + {p.msg.fromId}| * 2 > |s.nodes|
               && !Decided(x.learner) then
              var m := Message(PREPARE, p.msg.sequence, p.dst, x.proposer.current + |s.nodes|, p.msg.value,
                               p.msg.extra);
              out == Broadcast(|s.nodes|, m) && y.timer == Some(m)
            else out == []
  {
  }

  /** The value asked for again is that of a round which this server began earlier, with the number
      that was denied. */
  lemma RedoneWasAsked(cfg: Config, run: seq<Inst>, k: nat, p: Packet, r: Packet)
    requires IsRun(cfg, run) && k < |run| && Enabled(cfg, run[k], Deliver(p)) && p.msg.kind.DENIAL?
    requires r in Out(cfg, run[k], Deliver(p))
    ensures r.msg.kind.PREPARE? && r.msg.fromId == p.dst && AskedFor(run[k], p.dst, p.msg.extra, r.msg.value)
    ensures p.dst < |Apply(cfg, run[k], Deliver(p)).nodes|
    ensures Apply(cfg, run[k], Deliver(p)).nodes[p.dst].timer == Some(r.msg)
  {
    DenialAsksAgain(cfg, run[k], p);
    DeniedWasAsked(cfg, run, k, p);
  }

  lemma DeniedWasAsked(cfg: Config, run: seq<Inst>, k: nat, p: Packet)
    requires IsRun(cfg, run) && k < |run| && p in run[k].flight && p.msg.kind.DENIAL?
    ensures AskedFor(run[k], p.dst, p.msg.extra, p.msg.value)
  {
    RepliesEcho(cfg, run, k);
    assert HasRequest(run[k], p);
  }

  // ---- the round in progress ----

  /** The value with which server i began the round it is in at state k: that of the PREPARE it last
      armed its timer with, as long as its number stays. */
  function Began(run: seq<Inst>, i: nat, k: nat): Option<ProposalValue>
    requires k < |run| && forall j :: 0 <= j < |run| ==> i < |run[j].nodes|
  {
    var x := run[k].nodes[i];
    if x.timer.Some? && x.timer.value.kind.PREPARE? then Some(x.timer.value.value)
    else if k > 0 && run[k - 1].nodes[i].proposer.current == x.proposer.current then Began(run, i, k - 1)
    else None
  }

  /** x goes on with its round in y. */
  predicate GoesOn(x: Node, y: Node) {
    && y.proposer.current == x.proposer.current
    && (y.timer == x.timer || y.timer.None? || !y.timer.value.kind.PREPARE?)
  }

  /** From x to y server id begins a new round, and sends what it arms its timer with. */
  predicate BeginsRound(n: nat, id: nat, x: Node, y: Node, out: seq<Packet>) {
    && y.proposer.current == x.proposer.current + n
    && y.timer.Some? && y.timer.value.kind.PREPARE?
    && forall r :: r in out ==> r.msg == y.timer.value && r.msg.number == y.proposer.current
  }

  predicate NoPrepare(out: seq<Packet>) {
    forall r :: r in out ==> !r.msg.kind.PREPARE?
  }

  lemma SubmitRounds(n: nat, id: nat, x: Node, m: Message)
    ensures var e := Submit(n, id, x, m);
            BeginsRound(n, id, x, e.node, e.out) || (GoesOn(x, e.node) && NoPrepare(e.out))
  {
  }

  lemma DispatchRounds(n: nat, recovery: bool, id: nat, x: Node, m: Message)
    ensures var e := Dispatch(n, recovery, id, x, m);
            BeginsRound(n, id, x, e.node, e.out) || (GoesOn(x, e.node) && NoPrepare(e.out))
  {
    match m.kind
    case PROMISE => PromiseRounds(n, id, x, m);
    case DENIAL => DenialRounds(n, id, x, m);
    case _ => RestRounds(n, recovery, id, x, m);
  }

  lemma PromiseRounds(n: nat, id: nat, x: Node, m: Message)
    ensures var e := HandlePromise(n, id, x, m); GoesOn(x, e.node) && NoPrepare(e.out)
  {
  }

  lemma DenialRounds(n: nat, id: nat, x: Node, m: Message)
    ensures var e := HandleDenial(n, id, x, m);
            BeginsRound(n, id, x, e.node, e.out) || (GoesOn(x, e.node) && NoPrepare(e.out))
  {
    var (p, resubmit) := OnDenial(n, x.proposer, m);
    if resubmit.Some? {
      SubmitRounds(n, id, x.(proposer := p, timer := None), resubmit.value);
    }
  }

  lemma RestRounds(n: nat, recovery: bool, id: nat, x: Node, m: Message)
    requires !m.kind.PROMISE? && !m.kind.DENIAL?
    ensures var e := Dispatch(n, recovery, id, x, m); GoesOn(x, e.node) && NoPrepare(e.out)
  {
  }

  /** Event e is server i's. */
  predicate ActedBy(e: Event, i: nat) {
    match e
    case Submission(j, m) => j == i
    case Timer(j) => j == i
    case Deliver(p) => p.dst == i
    case _ => false
  }

  lemma EventRounds(cfg: Config, s: Inst, e: Event, i: nat)
    requires Enabled(cfg, s, e) && ActedBy(e, i)
    ensures i < |s.nodes|
    ensures var x, y, out := s.nodes[i], Apply(cfg, s, e).nodes[i], Out(cfg, s, e);
            BeginsRound(|s.nodes|, i, x, y, out) || (GoesOn(x, y) && NoPrepare(out))
  {
    match e
    case Submission(j, m) => SubmitRounds(|s.nodes|, j, s.nodes[j], m);
    case Timer(j) => SubmitRounds(|s.nodes|, j, s.nodes[j].(timer := None), s.nodes[j].timer.value.(kind := SUBMIT));
    case Deliver(p) => DispatchRounds(|s.nodes|, cfg.recovery, p.dst, s.nodes[p.dst], p.msg);
    case _ =>
  }

  lemma SubmitOwn(n: nat, id: nat, x: Node, m: Message)
    ensures forall r :: r in Submit(n, id, x, m).out ==> r.msg.fromId == id
  {
  }

  lemma DispatchOwn(n: nat, recovery: bool, id: nat, x: Node, m: Message)
    ensures forall r :: r in Dispatch(n, recovery, id, x, m).out && r.msg.kind.PREPARE? ==> r.msg.fromId == id
  {
    if m.kind.DENIAL? {
      var (p, resubmit) := OnDenial(n, x.proposer, m);
      if resubmit.Some? {
        SubmitOwn(n, id, x.(proposer := p, timer := None), resubmit.value);
      }
    }
  }

  /** Another server's event leaves i alone and asks nothing in its name. */
  lemma OthersRounds(cfg: Config, s: Inst, e: Event, i: nat)
    requires Enabled(cfg, s, e) && !ActedBy(e, i) && !e.Crash? && i < |s.nodes|
    ensures Apply(cfg, s, e).nodes[i] == s.nodes[i]
    ensures forall r :: r in Out(cfg, s, e) && r.msg.kind.PREPARE? ==> r.msg.fromId != i
  {
    match e
    case Submission(j, m) => SubmitOwn(|s.nodes|, j, s.nodes[j], m);
    case Timer(j) => SubmitOwn(|s.nodes|, j, s.nodes[j].(timer := None), s.nodes[j].timer.value.(kind := SUBMIT));
    case Deliver(p) => DispatchOwn(|s.nodes|, cfg.recovery, p.dst, s.nodes[p.dst], p.msg);
    case _ =>
  }

  predicate AllOfSize(run: seq<Inst>, n: nat) {
    forall j :: 0 <= j < |run| ==> |run[j].nodes| == n
  }

  /** Server i has used no number above its current one, and that one for one value only. */
  ghost predicate OneRound(run: seq<Inst>, i: nat, k: nat)
    requires k < |run| && forall j :: 0 <= j < |run| ==> i < |run[j].nodes|
  {
    forall q :: q in run[k].sent && q.msg.kind.PREPARE? && q.msg.fromId == i ==>
      && q.msg.number <= run[k].nodes[i].proposer.current
      && (q.msg.number == run[k].nodes[i].proposer.current ==> Began(run, i, k) == Some(q.msg.value))
  }

  lemma StepOneRound(cfg: Config, run: seq<Inst>, i: nat, k: nat, e: Event)
    requires 0 < k < |run| && AllOfSize(run, cfg.n) && i < cfg.n && !e.Crash?
    requires Enabled(cfg, run[k - 1], e) && run[k] == Apply(cfg, run[k - 1], e) && OneRound(run, i, k - 1)
    ensures OneRound(run, i, k)
  {
    SentIsOut(cfg, run[k - 1], e);
    if ActedBy(e, i) {
      EventRounds(cfg, run[k - 1], e, i);
    } else {
      OthersRounds(cfg, run[k - 1], e, i);
    }
  }

  lemma NextOneRound(cfg: Config, run: seq<Inst>, i: nat, k: nat)
    requires IsRun(cfg, run) && !cfg.crashes && 0 < k < |run| && AllOfSize(run, cfg.n) && i < cfg.n
    requires OneRound(run, i, k - 1)
    ensures OneRound(run, i, k)
  {
    var e := Safety.EventAt(cfg, run, k);
    StepOneRound(cfg, run, i, k, e);
  }

  lemma {:induction false} RunOneRound(cfg: Config, run: seq<Inst>, i: nat, k: nat)
    requires IsRun(cfg, run) && !cfg.crashes && k < |run| && AllOfSize(run, cfg.n) && i < cfg.n
    ensures OneRound(run, i, k)
  {
    if k == 0 {
      StartsOneRound(cfg, run, i);
    } else {
      RunOneRound(cfg, run, i, k - 1);
      NextOneRound(cfg, run, i, k);
    }
  }

  lemma StartsOneRound(cfg: Config, run: seq<Inst>, i: nat)
    requires |run| > 0 && AllOfSize(run, cfg.n) && i < cfg.n && run[0].sent == {}
    ensures OneRound(run, i, 0)
  {
  }

  lemma RunOfSize(cfg: Config, run: seq<Inst>)
    requires IsRun(cfg, run)
    ensures AllOfSize(run, cfg.n)
  {
    forall j | 0 <= j < |run| ensures |run[j].nodes| == cfg.n {
      RunIsSigned(cfg, run, j);
    }
  }

  /** Whatever a denial makes a server ask for again is the value of the round it is in. */
  ghost predicate RedoesItsRound(cfg: Config, run: seq<Inst>) {
    forall k: nat, p, r ::
      k < |run| && Enabled(cfg, run[k], Deliver(p)) && p.msg.kind.DENIAL? && r in Out(cfg, run[k], Deliver(p)) ==>
        AllOfSize(run, cfg.n) && p.dst < cfg.n && Began(run, p.dst, k) == Some(r.msg.value)
  }

  lemma CrashFreeRedoes(cfg: Config, run: seq<Inst>, k: nat, p: Packet, r: Packet)
    requires IsRun(cfg, run) && !cfg.crashes && k < |run| && Enabled(cfg, run[k], Deliver(p)) && p.msg.kind.DENIAL?
    requires r in Out(cfg, run[k], Deliver(p)) && AllOfSize(run, cfg.n)
    ensures p.dst < cfg.n && Began(run, p.dst, k) == Some(r.msg.value)
  {
    DenialAsksAgain(cfg, run[k], p);
    DeniedWasAsked(cfg, run, k, p);
    RunOneRound(cfg, run, p.dst, k);
    var q :| q in run[k].sent && q.msg.kind.PREPARE? && q.msg.fromId == p.dst && q.msg.number == p.msg.extra
             && q.msg.value == p.msg.value;
  }

  // ---- a crash: denials of a former life ----

  /** The servers from lo to hi refused m, having promised b. */
  predicate RefusalsOut(t: Inst, m: Message, b: nat, lo: nat, hi: nat) {
    forall a: nat :: lo <= a < hi ==> Packet(0, Refusal(a, m, b)) in t.flight
  }

  predicate CanRefuse(s: Inst, m: Message, b: nat, lo: nat, hi: nat) {
    && hi <= |s.nodes| && m.kind.PREPARE? && m.fromId == 0 && m.number <= b
    && forall a: nat :: lo <= a < hi ==>
         s.nodes[a].acceptor.prepare == b && !s.nodes[a].learner.informed && Packet(a, m) in s.flight
  }

  lemma {:induction false} ManyRefuse(cfg: Config, run: seq<Inst>, m: Message, b: nat, lo: nat, hi: nat)
    returns (r: seq<Inst>)
    requires IsClientRun(cfg, run) && lo <= hi && CanRefuse(Last(run), m, b, lo, hi)
    ensures IsClientRun(cfg, r) && Last(r).nodes == Last(run).nodes && Last(r).seqno == Last(run).seqno
    ensures RefusalsOut(Last(r), m, b, lo, hi) && KeepsBut(Last(run), Last(r), m, lo, hi)
    decreases hi
  {
    if lo == hi {
      r := run;
    } else {
      var q := ManyRefuse(cfg, run, m, b, lo, hi - 1);
      assert Packet(hi - 1, m) in Last(run).flight;
      r := Deny(cfg, q, hi - 1, m);
      NextRefused(Last(q), Last(r), m, b, lo, hi);
    }
  }

  lemma NextRefused(s: Inst, t: Inst, m: Message, b: nat, lo: nat, hi: nat)
    requires lo < hi && m.kind.PREPARE? && RefusalsOut(s, m, b, lo, hi - 1) && Keeps(s, Packet(hi - 1, m), t)
    requires Packet(0, Refusal(hi - 1, m, b)) in t.flight
    ensures RefusalsOut(t, m, b, lo, hi)
  {
    forall a: nat | lo <= a < hi ensures Packet(0, Refusal(a, m, b)) in t.flight {
      if a < hi - 1 {
        assert Packet(0, Refusal(a, m, b)) in s.flight;
      }
    }
  }

  /** The proposer of server 0 with this many more denials counted. */
  function WithDenied(x: Node, q: set<nat>): Node {
    x.(proposer := x.proposer.(denied := x.proposer.denied + q))
  }

  /** Server 0 counts the refusals of the servers from lo to hi, which are not yet enough. */
  lemma {:induction false} ManyRefused(cfg: Config, run: seq<Inst>, m: Message, b: nat, lo: nat, hi: nat, all: nat)
    returns (r: seq<Inst>)
    requires IsClientRun(cfg, run) && lo <= hi <= all && 0 < |Last(run).nodes|
    requires RefusalsOut(Last(run), m, b, lo, all) && Last(run).nodes[0].proposer.current == m.number
    requires |Last(run).nodes[0].proposer.denied| + hi - lo <= |Last(run).nodes| / 2
    ensures IsClientRun(cfg, r) && RefusalsOut(Last(r), m, b, hi, all)
    ensures Last(r).nodes == Last(run).nodes[0 := WithDenied(Last(run).nodes[0], Range(lo, hi))]
    decreases hi
  {
    if lo == hi {
      r := run;
      assert WithDenied(Last(run).nodes[0], {}) == Last(run).nodes[0];
    } else {
      var q := ManyRefused(cfg, run, m, b, lo, hi - 1, all);
      r := OneRefused(cfg, q, Last(run), m, b, lo, hi, all);
    }
  }

  lemma OneRefused(cfg: Config, q: seq<Inst>, s: Inst, m: Message, b: nat, lo: nat, hi: nat, all: nat)
    returns (r: seq<Inst>)
    requires IsClientRun(cfg, q) && lo < hi <= all && 0 < |s.nodes| && s.nodes[0].proposer.current == m.number
    requires Last(q).nodes == s.nodes[0 := WithDenied(s.nodes[0], Range(lo, hi - 1))]
    requires RefusalsOut(Last(q), m, b, hi - 1, all)
    requires |s.nodes[0].proposer.denied| + hi - lo <= |s.nodes| / 2
    ensures IsClientRun(cfg, r) && RefusalsOut(Last(r), m, b, hi, all)
    ensures Last(r).nodes == s.nodes[0 := WithDenied(s.nodes[0], Range(lo, hi))]
  {
    var d := s.nodes[0].proposer.denied;
    UnionSize(d, lo, hi);
    assert d + Range(lo, hi - 1) + {hi - 1} == d + Range(lo, hi);
    assert Packet(0, Refusal(hi - 1, m, b)) in Last(q).flight;
    r := CountDenial(cfg, q, 0, Refusal(hi - 1, m, b));
    forall a: nat | hi <= a < all ensures Packet(0, Refusal(a, m, b)) in Last(r).flight {
      assert Packet(0, Refusal(a, m, b)) in Last(q).flight;
    }
  }

  /** Server 0 asked for v, restarted, and asks for w under the same number. */
  lemma AsksTwice(cfg: Config, v: ProposalValue, w: ProposalValue) returns (r: seq<Inst>)
    requires cfg.n > 0 && cfg.crashes
    ensures IsClientRun(cfg, r) && Last(r).seqno == 1 && Undecided(Last(r), cfg.n) && EmptyUpTo(Last(r), 0, 0, cfg.n)
    ensures Last(r).nodes[0].proposer == ProposerState(2 * cfg.n, 0, w, {}, {}, false)
    ensures Last(r).nodes[0].timer == Some(Ask(1, cfg.n, w))
    ensures SentToAll(Last(r), Ask(1, cfg.n, v)) && SentToAll(Last(r), Ask(1, cfg.n, w))
  {
    var r0 := StartRun(cfg);
    var r1 := Begin(cfg, r0, 0, v);
    assert Prepare(Last(r0), 0, v, 0) == Ask(1, cfg.n, v);
    var r2 := CrashNow(cfg, r1, 0);
    r := Begin(cfg, r2, 0, w);
    assert Prepare(Last(r2), 0, w, 0) == Ask(1, cfg.n, w);
  }

  /** A majority promises the second time, and refuses the first. */
  lemma RefusedTwice(cfg: Config, v: ProposalValue, w: ProposalValue) returns (r: seq<Inst>)
    requires cfg.n > 0 && cfg.crashes && v != w
    ensures IsClientRun(cfg, r) && Undecided(Last(r), cfg.n) && Last(r).nodes[0].timer == Some(Ask(1, cfg.n, w))
    ensures Last(r).nodes[0].proposer == ProposerState(2 * cfg.n, 0, w, {}, {}, false)
    ensures RefusalsOut(Last(r), Ask(1, cfg.n, v), 2 * cfg.n, 0, Most(cfg.n))
  {
    var n := cfg.n;
    var r3 := AsksTwice(cfg, v, w);
    var r4 := ManyPromise(cfg, r3, Ask(1, n, w), 0, 0, Most(n));
    assert CanRefuse(Last(r4), Ask(1, n, v), 2 * n, 0, Most(n)) by {
      forall a: nat | a < Most(n) ensures Packet(a, Ask(1, n, v)) in Last(r4).flight {
        assert Packet(a, Ask(1, n, v)) in Last(r3).flight;
      }
    }
    r := ManyRefuse(cfg, r4, Ask(1, n, v), 2 * n, 0, Most(n));
  }

  /** In any deployment that crashes, a denial makes a server ask for a value of its former life in
      place of the one whose round it is in. */
  lemma FormerLifeIsRedone(cfg: Config, v: ProposalValue, w: ProposalValue) returns (run: seq<Inst>, p: Packet)
    requires cfg.n > 0 && cfg.crashes && v != w
    ensures IsRun(cfg, run) && AllOfSize(run, cfg.n) && Enabled(cfg, Last(run), Deliver(p))
    ensures p.dst == 0 && p.msg.kind.DENIAL? && Began(run, 0, |run| - 1) == Some(w)
    ensures exists r :: r in Out(cfg, Last(run), Deliver(p)) && r.msg.value == v
  {
    var n, m := cfg.n, Most(cfg.n);
    var r5 := RefusedTwice(cfg, v, w);
    run := ManyRefused(cfg, r5, Ask(1, n, v), 2 * n, 0, m - 1, m);
    p := Packet(0, Refusal(m - 1, Ask(1, n, v), 2 * n));
    ClientRunIsRun(cfg, run);
    RunOfSize(cfg, run);
    RangeSize(0, m);
    assert {} + Range(0, m - 1) + {m - 1} == Range(0, m);
    DenialAsksAgain(cfg, Last(run), p);
    assert Packet(0, Message(PREPARE, 1, 0, 3 * n, v, 2 * n)) in Out(cfg, Last(run), Deliver(p));
  }

  // ---- exactly when ----

  ghost predicate AlwaysItsRound(cfg: Config) {
    forall run :: IsRun(cfg, run) ==> RedoesItsRound(cfg, run)
  }

  /** Deployment by deployment: what a denial resubmits is always the value of the round in progress
      if and only if servers do not crash, whatever the build, the logs or the network. */
  lemma OwnRoundOfEach(cfg: Config)
    requires cfg.n > 0
    ensures AlwaysItsRound(cfg) <==> !cfg.crashes
  {
    if cfg.crashes {
      var v, w := ProposalValue(LOCK, 1, 0, 1), ProposalValue(LOCK, 1, 0, 2);
      var run, p := FormerLifeIsRedone(cfg, v, w);
      assert !RedoesItsRound(cfg, run);
    } else {
      forall run | IsRun(cfg, run) ensures RedoesItsRound(cfg, run) {
        RunOfSize(cfg, run);
        forall k: nat, p, r | k < |run| && Enabled(cfg, run[k], Deliver(p)) && p.msg.kind.DENIAL?
                              && r in Out(cfg, run[k], Deliver(p))
          ensures p.dst < cfg.n && Began(run, p.dst, k) == Some(r.msg.value)
        {
          CrashFreeRedoes(cfg, run, k, p, r);
        }
      }
    }
  }
}
