/** What proposers and learners have counted, read off the events of a run, in every deployment: the
    promises and denials handled since the round began, the highest proposal reported among them, and
    the votes handled for the highest number since the server last started. */
module Tallies {
  import opened Wire
  import opened Roles
  import opened Consensus
  import opened Replies
  import opened Redone
  import Safety

  // ---- runs with the events that made them ----

  ghost predicate TraceAt(cfg: Config, run: seq<Inst>, evs: seq<Event>, k: nat) {
    k + 1 < |run| && k < |evs| && Enabled(cfg, run[k], evs[k]) && run[k + 1] == Apply(cfg, run[k], evs[k])
  }

  ghost predicate IsTrace(cfg: Config, run: seq<Inst>, evs: seq<Event>) {
    && |run| == |evs| + 1 && cfg.n > 0 && (exists s :: run[0] == Init(cfg.n, s))
    && forall k: nat :: k < |evs| ==> TraceAt(cfg, run, evs, k)
  }

  lemma TraceIsRun(cfg: Config, run: seq<Inst>, evs: seq<Event>)
    requires IsTrace(cfg, run, evs)
    ensures IsRun(cfg, run) && AllOfSize(run, cfg.n)
  {
    forall k | 0 <= k < |run| - 1 ensures Next(cfg, run[k], run[k + 1]) {
      assert TraceAt(cfg, run, evs, k);
    }
    RunOfSize(cfg, run);
  }

  /** Every run is the run of some events. */
  lemma {:induction false} RunHasTrace(cfg: Config, run: seq<Inst>) returns (evs: seq<Event>)
    requires IsRun(cfg, run)
    ensures IsTrace(cfg, run, evs)
  {
    if |run| == 1 {
      evs := [];
    } else {
      var front := run[..|run| - 1];
      forall k | 0 <= k < |front| - 1 ensures Next(cfg, front[k], front[k + 1]) {
        assert Next(cfg, run[k], run[k + 1]);
      }
      var before := RunHasTrace(cfg, front);
      var e := Safety.EventAt(cfg, run, |run| - 1);
      evs := before + [e];
      forall k: nat | k < |evs| ensures TraceAt(cfg, run, evs, k) {
        if k < |before| {
          assert TraceAt(cfg, front, before, k);
        }
      }
    }
  }

  // ---- proposers ----

  /** Event e makes server i handle a reply of this kind to a number of at least b. */
  predicate Hands(e: Event, i: nat, kind: MessageType, b: nat) {
    e.Deliver? && e.p.dst == i && e.p.msg.kind == kind && e.p.msg.extra >= b
  }

  /** Who sent the replies of this kind that i handled from step r on, before step k. */
  function Senders(evs: seq<Event>, i: nat, kind: MessageType, b: nat, r: nat, k: nat): set<nat> {
    set j: nat | r <= j < k && j < |evs| && Hands(evs[j], i, kind, b) :: evs[j].p.msg.fromId
  }

  /** The state in which server i's round began: its number changed, or it restarted. */
  function RoundStart(run: seq<Inst>, evs: seq<Event>, i: nat, k: nat): (r: nat)
    requires k < |run| && |run| == |evs| + 1 && forall j :: 0 <= j < |run| ==> i < |run[j].nodes|
    ensures r <= k
  {
    if k == 0 then 0
    else if evs[k - 1] == Crash(i) || run[k].nodes[i].proposer.current != run[k - 1].nodes[i].proposer.current then k
    else RoundStart(run, evs, i, k - 1)
  }

  /** The value a server proposes unless a promise reports another: that of the round's own PREPARE. */
  function OwnValue(began: Option<ProposalValue>): ProposalValue {
    if began.Some? then began.value else NO_VALUE
  }

  /** Some promise handled in these steps reported proposal (b, v). */
  predicate Reported(evs: seq<Event>, i: nat, current: nat, r: nat, k: nat, b: nat, v: ProposalValue) {
    exists j: nat :: r <= j < k && j < |evs| && Hands(evs[j], i, PROMISE, current)
                     && evs[j].p.msg.number == b && evs[j].p.msg.value == v
  }

  predicate NoneAbove(evs: seq<Event>, i: nat, current: nat, r: nat, k: nat, b: nat) {
    forall j: nat :: r <= j < k && j < |evs| && Hands(evs[j], i, PROMISE, current) ==> evs[j].p.msg.number <= b
  }

  /** Proposer x would propose the highest proposal reported in these steps, or else its own value. */
  predicate Proposes(x: ProposerState, evs: seq<Event>, i: nat, r: nat, k: nat, own: ProposalValue) {
    && NoneAbove(evs, i, x.current, r, k, x.highestNumber)
    && (if x.highestNumber == 0 then x.highestValue == own
        else Reported(evs, i, x.current, r, k, x.highestNumber, x.highestValue))
  }

  /** Proposer x has counted exactly the replies of steps r to k. */
  predicate HasCounted(n: nat, x: ProposerState, evs: seq<Event>, i: nat, r: nat, k: nat, own: ProposalValue) {
    && x.promised == Senders(evs, i, PROMISE, x.current, r, k)
    && x.denied == Senders(evs, i, DENIAL, x.current, r, k)
    && (x.majority <==> |x.promised| * 2 > n)
    && Proposes(x, evs, i, r, k, own)
  }

  /** What handling one message makes of a proposer that stays in its round. */
  predicate CountsOne(n: nat, x: ProposerState, y: ProposerState, kind: MessageType, m: Message) {
    if kind.PROMISE? && m.extra >= x.current then
      && y.current == x.current && y.denied == x.denied && y.promised == x.promised + {m.fromId}
      && y.highestNumber == (if m.number > x.highestNumber then m.number else x.highestNumber)
      && y.highestValue == (if m.number > x.highestNumber then m.value else x.highestValue)
      && (y.majority <==> x.majority || |y.promised| * 2 > n)
    else if kind.DENIAL? && m.extra >= x.current then y == x.(denied := x.denied + {m.fromId})
    else y == x
  }

  /** A round just begun: nothing is counted, and its own value is to be proposed. */
  predicate JustBegun(y: Node) {
    && y.timer.Some? && y.timer.value.kind.PREPARE?
    && y.proposer == ProposerState(y.proposer.current, 0, y.timer.value.value, {}, {}, false)
  }

  lemma SubmitCounts(n: nat, id: nat, x: Node, m: Message)
    requires n > 0
    ensures var y := Submit(n, id, x, m).node;
            (JustBegun(y) && y.proposer.current > x.proposer.current) || (y.proposer == x.proposer && GoesOn(x, y))
  {
  }

  lemma DispatchCounts(n: nat, recovery: bool, id: nat, x: Node, m: Message)
    requires n > 0
    ensures var y := Dispatch(n, recovery, id, x, m).node;
            || (JustBegun(y) && y.proposer.current > x.proposer.current)
            || (CountsOne(n, x.proposer, y.proposer, m.kind, m) && GoesOn(x, y))
  {
    if m.kind.DENIAL? {
      var (p, resubmit) := OnDenial(n, x.proposer, m);
      if resubmit.Some? {
        SubmitCounts(n, id, x.(proposer := p, timer := None), resubmit.value);
      }
    }
  }

  // ---- one step ----

  predicate AllReach(run: seq<Inst>, i: nat) {
    forall j :: 0 <= j < |run| ==> i < |run[j].nodes|
  }

  /** A round has a number above the one a restarted server begins with. */
  predicate NumbersTell(run: seq<Inst>, n: nat, i: nat, k: nat)
    requires k < |run| && AllReach(run, i)
  {
    var x := run[k].nodes[i].proposer;
    x.current >= i + n && (Began(run, i, k).Some? ==> x.current >= i + 2 * n)
  }

  lemma SendersNext(evs: seq<Event>, i: nat, kind: MessageType, b: nat, r: nat, k: nat)
    requires r <= k < |evs|
    ensures Senders(evs, i, kind, b, r, k + 1)
            == Senders(evs, i, kind, b, r, k) + if Hands(evs[k], i, kind, b) then {evs[k].p.msg.fromId} else {}
  {
  }

  lemma SendersNone(evs: seq<Event>, i: nat, kind: MessageType, b: nat, r: nat)
    ensures Senders(evs, i, kind, b, r, r) == {}
  {
  }

  /** What was reported stays reported, and one more promise may report. */
  lemma ReportsNext(evs: seq<Event>, i: nat, current: nat, r: nat, k: nat, b: nat, v: ProposalValue)
    requires r <= k < |evs|
    ensures Reported(evs, i, current, r, k, b, v) ==> Reported(evs, i, current, r, k + 1, b, v)
    ensures Hands(evs[k], i, PROMISE, current) && evs[k].p.msg.number == b && evs[k].p.msg.value == v
            ==> Reported(evs, i, current, r, k + 1, b, v)
  {
    if Reported(evs, i, current, r, k, b, v) {
      var j: nat :| r <= j < k && j < |evs| && Hands(evs[j], i, PROMISE, current)
                    && evs[j].p.msg.number == b && evs[j].p.msg.value == v;
      assert j < k + 1;
    }
  }

  /** One more promise. */
  lemma PromiseReports(x: ProposerState, y: ProposerState, evs: seq<Event>, i: nat, r: nat, k: nat, own: ProposalValue)
    requires r <= k < |evs| && Proposes(x, evs, i, r, k, own) && Hands(evs[k], i, PROMISE, x.current)
    requires var m := evs[k].p.msg;
             && y.current == x.current
             && y.highestNumber == (if m.number > x.highestNumber then m.number else x.highestNumber)
             && y.highestValue == (if m.number > x.highestNumber then m.value else x.highestValue)
    ensures Proposes(y, evs, i, r, k + 1, own)
  {
    ReportsNext(evs, i, x.current, r, k, y.highestNumber, y.highestValue);
  }

  lemma PromiseCounted(n: nat, x: ProposerState, y: ProposerState, evs: seq<Event>, i: nat, r: nat, k: nat,
                       own: ProposalValue)
    requires r <= k < |evs| && HasCounted(n, x, evs, i, r, k, own)
    requires Hands(evs[k], i, PROMISE, x.current) && CountsOne(n, x, y, PROMISE, evs[k].p.msg)
    ensures HasCounted(n, y, evs, i, r, k + 1, own)
  {
    SendersNext(evs, i, PROMISE, x.current, r, k);
    SendersNext(evs, i, DENIAL, x.current, r, k);
    PromiseReports(x, y, evs, i, r, k, own);
    MajorityGrows(n, x.promised, evs[k].p.msg.fromId);
  }

  lemma MajorityGrows(n: nat, q: set<nat>, a: nat)
    ensures |q| * 2 > n ==> |q + {a}| * 2 > n
  {
    if a !in q {
      assert |q + {a}| == |q| + 1;
    } else {
      assert q + {a} == q;
    }
  }

  /** Anything else. */
  lemma NoPromiseCounted(n: nat, x: ProposerState, y: ProposerState, evs: seq<Event>, i: nat, r: nat, k: nat,
                         own: ProposalValue)
    requires r <= k < |evs| && HasCounted(n, x, evs, i, r, k, own) && !Hands(evs[k], i, PROMISE, x.current)
    requires y == x.(denied := x.denied + if Hands(evs[k], i, DENIAL, x.current) then {evs[k].p.msg.fromId} else {})
    ensures HasCounted(n, y, evs, i, r, k + 1, own)
  {
    SendersNext(evs, i, PROMISE, x.current, r, k);
    SendersNext(evs, i, DENIAL, x.current, r, k);
    ReportsNext(evs, i, x.current, r, k, x.highestNumber, x.highestValue);
  }

  /** The proposer counts one more reply. */
  lemma OneMoreCounted(n: nat, x: ProposerState, y: ProposerState, evs: seq<Event>, i: nat, r: nat, k: nat,
                       own: ProposalValue)
    requires r <= k < |evs| && HasCounted(n, x, evs, i, r, k, own)
    requires evs[k].Deliver? && evs[k].p.dst == i && CountsOne(n, x, y, evs[k].p.msg.kind, evs[k].p.msg)
    ensures HasCounted(n, y, evs, i, r, k + 1, own)
  {
    if Hands(evs[k], i, PROMISE, x.current) {
      PromiseCounted(n, x, y, evs, i, r, k, own);
    } else {
      assert x.denied + {} == x.denied;
      NoPromiseCounted(n, x, y, evs, i, r, k, own);
    }
  }

  lemma FreshCounted(n: nat, x: ProposerState, evs: seq<Event>, i: nat, r: nat, own: ProposalValue)
    requires x == ProposerState(x.current, 0, own, {}, {}, false)
    ensures HasCounted(n, x, evs, i, r, r, own)
  {
    SendersNone(evs, i, PROMISE, x.current, r);
    SendersNone(evs, i, DENIAL, x.current, r);
  }

  lemma BeganStays(run: seq<Inst>, i: nat, k: nat)
    requires k + 1 < |run| && AllReach(run, i) && GoesOn(run[k].nodes[i], run[k + 1].nodes[i])
    ensures Began(run, i, k + 1) == Began(run, i, k)
  {
  }

  ghost predicate Counts(cfg: Config, run: seq<Inst>, evs: seq<Event>, i: nat, k: nat) {
    && k < |run| && |run| == |evs| + 1 && AllReach(run, i)
    && HasCounted(cfg.n, run[k].nodes[i].proposer, evs, i, RoundStart(run, evs, i, k), k,
                  OwnValue(Began(run, i, k)))
    && NumbersTell(run, cfg.n, i, k)
  }

  /** The server stays in its round, and handles a message or none. */
  lemma StaysInRound(cfg: Config, run: seq<Inst>, evs: seq<Event>, i: nat, k: nat)
    requires Counts(cfg, run, evs, i, k) && k < |evs| && evs[k] != Crash(i)
    requires GoesOn(run[k].nodes[i], run[k + 1].nodes[i])
    requires if evs[k].Deliver? && evs[k].p.dst == i
             then CountsOne(cfg.n, run[k].nodes[i].proposer, run[k + 1].nodes[i].proposer,
                            evs[k].p.msg.kind, evs[k].p.msg)
             else run[k + 1].nodes[i].proposer == run[k].nodes[i].proposer
    ensures Counts(cfg, run, evs, i, k + 1)
  {
    BeganStays(run, i, k);
    var r, own := RoundStart(run, evs, i, k), OwnValue(Began(run, i, k));
    if evs[k].Deliver? && evs[k].p.dst == i {
      OneMoreCounted(cfg.n, run[k].nodes[i].proposer, run[k + 1].nodes[i].proposer, evs, i, r, k, own);
    } else {
      assert run[k].nodes[i].proposer.denied + {} == run[k].nodes[i].proposer.denied;
      NoPromiseCounted(cfg.n, run[k].nodes[i].proposer, run[k + 1].nodes[i].proposer, evs, i, r, k, own);
    }
  }

  lemma BeginsNext(cfg: Config, run: seq<Inst>, evs: seq<Event>, i: nat, k: nat)
    requires Counts(cfg, run, evs, i, k) && k < |evs| && JustBegun(run[k + 1].nodes[i])
    requires run[k + 1].nodes[i].proposer.current >= run[k].nodes[i].proposer.current + cfg.n && cfg.n > 0
    ensures Counts(cfg, run, evs, i, k + 1)
  {
    var y := run[k + 1].nodes[i].proposer;
    FreshCounted(cfg.n, y, evs, i, k + 1, y.highestValue);
  }

  lemma CrashesNext(cfg: Config, run: seq<Inst>, evs: seq<Event>, i: nat, k: nat)
    requires Counts(cfg, run, evs, i, k) && k < |evs| && evs[k] == Crash(i) && cfg.n > 0
    requires run[k + 1].nodes[i].proposer == InitProposer(cfg.n, i) && run[k + 1].nodes[i].timer.None?
    ensures Counts(cfg, run, evs, i, k + 1)
  {
    FreshCounted(cfg.n, run[k + 1].nodes[i].proposer, evs, i, k + 1, NO_VALUE);
  }

  lemma ActorCounts(cfg: Config, s: Inst, e: Event, i: nat)
    requires Enabled(cfg, s, e) && ActedBy(e, i) && |s.nodes| == cfg.n > 0
    ensures i < |s.nodes|
    ensures var x, y := s.nodes[i], Apply(cfg, s, e).nodes[i];
            || (JustBegun(y) && y.proposer.current >= x.proposer.current + cfg.n)
            || (GoesOn(x, y) && if e.Deliver? then CountsOne(cfg.n, x.proposer, y.proposer, e.p.msg.kind, e.p.msg)
                                else y.proposer == x.proposer)
  {
    EventRounds(cfg, s, e, i);
    match e
    case Submission(j, m) => SubmitCounts(cfg.n, j, s.nodes[j], m);
    case Timer(j) => SubmitCounts(cfg.n, j, s.nodes[j].(timer := None), s.nodes[j].timer.value.(kind := SUBMIT));
    case Deliver(p) => DispatchCounts(cfg.n, cfg.recovery, p.dst, s.nodes[p.dst], p.msg);
    case _ =>
  }

  lemma StepCounts(cfg: Config, run: seq<Inst>, evs: seq<Event>, i: nat, k: nat)
    requires Counts(cfg, run, evs, i, k) && TraceAt(cfg, run, evs, k) && |run[k].nodes| == cfg.n > 0
    ensures Counts(cfg, run, evs, i, k + 1)
  {
    if evs[k] == Crash(i) {
      CrashesNext(cfg, run, evs, i, k);
    } else if ActedBy(evs[k], i) {
      ActorCounts(cfg, run[k], evs[k], i);
      if JustBegun(run[k + 1].nodes[i])
         && run[k + 1].nodes[i].proposer.current >= run[k].nodes[i].proposer.current + cfg.n {
        BeginsNext(cfg, run, evs, i, k);
      } else {
        StaysInRound(cfg, run, evs, i, k);
      }
    } else {
      assert run[k + 1].nodes[i] == run[k].nodes[i];
      StaysInRound(cfg, run, evs, i, k);
    }
  }

  lemma StartCounts(cfg: Config, run: seq<Inst>, evs: seq<Event>, i: nat)
    requires IsTrace(cfg, run, evs) && AllReach(run, i) && i < cfg.n
    ensures Counts(cfg, run, evs, i, 0)
  {
    FreshCounted(cfg.n, run[0].nodes[i].proposer, evs, i, 0, NO_VALUE);
  }

  /** Exactly what a proposer has counted, in every run of every deployment. Its promised and denied
      sets are the senders of the promises and denials handled since its round began and not older
      than its number; it has its majority exactly when the promises make one; and it proposes the
      highest proposal they reported, or its own round's value if they reported none. */
  lemma {:induction false} CountsExactly(cfg: Config, run: seq<Inst>, evs: seq<Event>, i: nat, k: nat)
    requires IsTrace(cfg, run, evs) && k < |run| && i < cfg.n
    ensures Counts(cfg, run, evs, i, k)
  {
    TraceIsRun(cfg, run, evs);
    if k == 0 {
      StartCounts(cfg, run, evs, i);
    } else {
      CountsExactly(cfg, run, evs, i, k - 1);
      assert TraceAt(cfg, run, evs, k - 1);
      StepCounts(cfg, run, evs, i, k - 1);
    }
  }

  // ---- what is proposed ----

  /** A proposal goes out exactly when a promise completes the majority: to everybody, under the
      proposer's number, with the value it has counted up to. Nothing else makes a server propose. */
  lemma ProposesOnce(cfg: Config, s: Inst, e: Event)
    requires Enabled(cfg, s, e)
    ensures e.Deliver? && e.p.msg.kind.PROMISE? ==>
              var i := e.p.dst;
              var x, y := s.nodes[i].proposer, Apply(cfg, s, e).nodes[i].proposer;
              if y.majority && !x.majority then
                exists m :: Out(cfg, s, e) == Broadcast(|s.nodes|, m) && IsProposal(m, i, y)
                            && Apply(cfg, s, e).nodes[i].timer == Some(m)
              else Out(cfg, s, e) == []
    ensures !(e.Deliver? && e.p.msg.kind.PROMISE?) ==> forall r :: r in Out(cfg, s, e) ==> !r.msg.kind.ACCEPT?
  {
    match e
    case Submission(i, m) => SubmitsNoProposal(|s.nodes|, i, s.nodes[i], m);
    case Timer(i) =>
      SubmitsNoProposal(|s.nodes|, i, s.nodes[i].(timer := None), s.nodes[i].timer.value.(kind := SUBMIT));
    case Deliver(p) =>
      if p.msg.kind.PROMISE? {
        PromiseProposes(|s.nodes|, p.dst, s.nodes[p.dst], p.msg);
      } else {
        RestProposeNothing(|s.nodes|, cfg.recovery, p.dst, s.nodes[p.dst], p.msg);
      }
    case _ =>
  }

  predicate IsProposal(m: Message, i: nat, y: ProposerState) {
    m.kind.ACCEPT? && m.fromId == i && m.number == y.current && m.value == y.highestValue
  }

  lemma SubmitsNoProposal(n: nat, id: nat, x: Node, m: Message)
    ensures forall r :: r in Submit(n, id, x, m).out ==> !r.msg.kind.ACCEPT?
  {
  }

  lemma PromiseProposes(n: nat, id: nat, x: Node, m: Message)
    ensures var e := HandlePromise(n, id, x, m);
            if e.node.proposer.majority && !x.proposer.majority then
              exists own :: e.out == Broadcast(n, own) && IsProposal(own, id, e.node.proposer)
                            && e.node.timer == Some(own)
            else e.out == []
  {
    var (p, accept) := OnPromise(n, x.proposer, m);
    if accept.Some? {
      var own := accept.value.(fromId := id);
      assert HandlePromise(n, id, x, m).out == Broadcast(n, own) && IsProposal(own, id, p);
    }
  }

  lemma RestProposeNothing(n: nat, recovery: bool, id: nat, x: Node, m: Message)
    requires !m.kind.PROMISE?
    ensures forall r :: r in Dispatch(n, recovery, id, x, m).out ==> !r.msg.kind.ACCEPT?
  {
    if m.kind.DENIAL? {
      var (p, resubmit) := OnDenial(n, x.proposer, m);
      if resubmit.Some? {
        SubmitsNoProposal(n, id, x.(proposer := p, timer := None), resubmit.value);
      }
    }
  }
}
