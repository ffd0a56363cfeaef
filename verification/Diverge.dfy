/** Exactly when the servers' command lists agree. Each way a deployment can be unsound has a
    history in which two lists differ at the first position. */
module Diverge {
  import opened Wire
  import opened Endpoint
  import opened Roles
  import opened Consensus
  import opened Safety
  import opened Cluster
  import opened Consistency
  import opened Scenario
  import opened Limits
  import opened Mirror

  /** Of any two servers' command lists, at any two moments, one is a prefix of the other. */
  ghost predicate Replicates(run: seq<System>) {
    forall k: nat, i: nat, l: nat, j: nat ::
      k < |run| && l < |run| && i < |run[k].servers| && j < |run[l].servers| ==>
        || run[k].servers[i].engine.applied <= run[l].servers[j].engine.applied
        || run[l].servers[j].engine.applied <= run[k].servers[i].engine.applied
  }

  /** Over every history of every deployment with these options, whatever its size. */
  ghost predicate AlwaysReplicates(recovery: bool, crashes: bool, duplicates: bool, asserts: bool) {
    forall n: nat, amo: bool, run ::
      IsHistory(Options(Config(n, recovery, crashes, duplicates, asserts), amo), run) ==> Replicates(run)
  }

  predicate HearsAt(run: seq<Inst>, k: nat, i: nat, v: ProposalValue) {
    k < |run| && i < |run[k].nodes| && run[k].nodes[i].learner.informed && run[k].nodes[i].learner.value == v
  }

  /** Two servers, or one at two moments, informed of different values for one position: their
      command lists differ. */
  lemma HearingDiverges(o: Options, run: seq<Inst>, k: nat, i: nat, v: ProposalValue, l: nat, j: nat, w: ProposalValue)
    returns (h: seq<System>)
    requires IsClientRun(o.cfg, run) && Last(run).seqno == 1
    requires forall x :: x in Last(run).submitted ==> Stamped(x.clientId)
    requires HearsAt(run, k, i, v) && HearsAt(run, l, j, w) && v != w
    ensures IsHistory(o, h) && !Replicates(h)
  {
    h := Lift(o, run);
    assert Mirrors(o, h[k], run[k]) && Mirrors(o, h[l], run[l]);
    assert h[k].servers[i].engine.applied == [v] && h[l].servers[j].engine.applied == [w];
    assert [v][0] != [w][0];
  }

  // ---- forgetting: one server, no logs ----

  predicate Blank(s: Inst) {
    && Limits.Solo(s) && s.nodes[0].acceptor == INIT_ACCEPTOR
    && s.nodes[0].acceptorSlot.None? && s.nodes[0].learnerSlot.None?
  }

  /** A lone server without logs decides v and hears it. */
  lemma SoloHears(cfg: Config, run: seq<Inst>, v: ProposalValue) returns (r: seq<Inst>)
    requires IsClientRun(cfg, run) && Blank(Last(run)) && !cfg.recovery
    ensures IsClientRun(cfg, r) && run <= r && HearsAt(r, |r| - 1, 0, v)
    ensures var x := Last(r).nodes[0]; |Last(r).nodes| == 1 && x.acceptorSlot.None? && x.learnerSlot.None?
    ensures Last(r).submitted == Last(run).submitted + {v} && Last(r).seqno == Last(run).seqno
  {
    var s := Last(run);
    var r1 := Begin(cfg, run, 0, v);
    var r2 := PromiseFirst(cfg, r1, 0, Prepare(s, 0, v, 0), 0);
    assert |{} + {0 as nat}| == 1;
    var r3 := CountLast(cfg, r2, 0, 0, 2);
    var m := Message(ACCEPT, s.seqno, 0, 2, v, 2);
    var r4 := AcceptNow(cfg, r3, 0, m);
    var r5 := VoteOnly(cfg, r4, Vote(0, m));
    r := Hear(cfg, r5, 0, Decision(0, Vote(0, m)));
  }

  lemma ForgettingDiverges(o: Options, v: ProposalValue, w: ProposalValue) returns (h: seq<System>)
    requires o.cfg.n == 1 && o.cfg.crashes && !o.cfg.recovery && v != w
    requires Stamped(v.clientId) && Stamped(w.clientId)
    ensures IsHistory(o, h) && !Replicates(h)
  {
    var r0 := StartRun(o.cfg);
    var r1 := SoloHears(o.cfg, r0, v);
    var r2 := CrashNow(o.cfg, r1, 0);
    var r3 := SoloHears(o.cfg, r2, w);
    assert HearsAt(r3, |r1| - 1, 0, v);
    h := HearingDiverges(o, r3, |r1| - 1, 0, v, |r3| - 1, 0, w);
  }

  // ---- one number proposed twice: both proposals are accepted, learned and heard ----

  /** Servers 0 and b can accept server 0's proposal m, and nobody has decided. */
  predicate Acceptable(s: Inst, n: nat, b: nat, m: Message) {
    && 2 <= n <= 3 && |s.nodes| == n && 1 <= b < n
    && (forall j :: 0 <= j < n ==> s.nodes[j].learner == INIT_LEARNER && s.nodes[j].learnerSlot.None?)
    && s.nodes[0].acceptor.prepare == m.number && s.nodes[b].acceptor.prepare == m.number
    && m.kind.ACCEPT? && m.fromId == 0 && m.number > 0
  }

  /** Broadcasts other than m that are not votes stay in flight. */
  ghost predicate OthersStay(s: Inst, t: Inst, m: Message) {
    |t.nodes| == |s.nodes| && forall k: Message :: !k.kind.ACCEPTED? && k != m && SentToAll(s, k) ==> SentToAll(t, k)
  }

  /** Two of at most three servers. */
  lemma TwoAreEnough(b: nat)
    requires b == 1 || b == 2
    ensures {0 as nat} + {b} == {0, b} && |{0 as nat, b}| == 2
  {
  }

  /** Servers 0 and b accept m. */
  lemma BothVote(cfg: Config, run: seq<Inst>, b: nat, m: Message) returns (r: seq<Inst>)
    requires IsClientRun(cfg, run) && Acceptable(Last(run), cfg.n, b, m) && SentToAll(Last(run), m)
    ensures IsClientRun(cfg, r) && run <= r
    ensures Last(r).submitted == Last(run).submitted && Last(r).seqno == Last(run).seqno
    ensures Acceptable(Last(r), cfg.n, b, m) && OthersStay(Last(run), Last(r), m)
    ensures Packet(0, Vote(0, m)) in Last(r).flight && Packet(0, Vote(b, m)) in Last(r).flight
    ensures cfg.recovery ==> Last(r).nodes[0].acceptorSlot == Some(Last(r).nodes[0].acceptor)
  {
    var r1 := AcceptNow(cfg, run, 0, m);
    r := AcceptNow(cfg, r1, b, m);
  }

  /** Server 0 counts both votes. */
  lemma CountBoth(cfg: Config, run: seq<Inst>, b: nat, m: Message) returns (r: seq<Inst>)
    requires IsClientRun(cfg, run) && Acceptable(Last(run), cfg.n, b, m)
    requires Packet(0, Vote(0, m)) in Last(run).flight && Packet(0, Vote(b, m)) in Last(run).flight
    ensures IsClientRun(cfg, r) && run <= r
    ensures Last(r).submitted == Last(run).submitted && Last(r).seqno == Last(run).seqno
    ensures OthersStay(Last(run), Last(r), m) && SentToAll(Last(r), Decision(0, Vote(b, m)))
    ensures var x, y := Last(run).nodes[0], Last(r).nodes[0];
            && y.acceptor == x.acceptor && y.acceptorSlot == x.acceptorSlot && y.learnerSlot == x.learnerSlot
            && !y.learner.informed
            && forall j :: 1 <= j < |Last(r).nodes| ==> Last(r).nodes[j] == Last(run).nodes[j]
  {
    TwoAreEnough(b);
    var r3 := VoteFirst(cfg, run, 0, Vote(0, m));
    r := VoteLast(cfg, r3, 0, Vote(b, m), {0});
  }

  lemma Learned(cfg: Config, run: seq<Inst>, b: nat, m: Message) returns (r: seq<Inst>)
    requires IsClientRun(cfg, run) && Acceptable(Last(run), cfg.n, b, m) && SentToAll(Last(run), m) && cfg.recovery
    ensures IsClientRun(cfg, r) && run <= r
    ensures Last(r).submitted == Last(run).submitted && Last(r).seqno == Last(run).seqno
    ensures OthersStay(Last(run), Last(r), m) && SentToAll(Last(r), Decision(0, Vote(b, m)))
    ensures var t := Last(r);
            && |t.nodes| == cfg.n && t.nodes[0].acceptorSlot == Some(t.nodes[0].acceptor)
            && t.nodes[0].learnerSlot.None? && !t.nodes[0].learner.informed
            && t.nodes[0].acceptor.prepare == t.nodes[b].acceptor.prepare == m.number
            && forall j :: 1 <= j < |t.nodes| ==> t.nodes[j].learner == INIT_LEARNER && t.nodes[j].learnerSlot.None?
  {
    var r2 := BothVote(cfg, run, b, m);
    r := CountBoth(cfg, r2, b, m);
  }

  /** Server 0 learns m, crashes before it hears, and learns o at the same number. */
  lemma LearnedTwice(cfg: Config, run: seq<Inst>, b: nat, m: Message, o: Message) returns (r: seq<Inst>)
    requires IsClientRun(cfg, run) && Acceptable(Last(run), cfg.n, b, m) && Acceptable(Last(run), cfg.n, b, o)
    requires SentToAll(Last(run), m) && SentToAll(Last(run), o) && m != o && cfg.recovery && cfg.crashes
    ensures IsClientRun(cfg, r) && Last(r).submitted == Last(run).submitted && |Last(r).nodes| == cfg.n
    ensures Last(r).seqno == Last(run).seqno
    ensures SentToAll(Last(r), Decision(0, Vote(b, m))) && SentToAll(Last(r), Decision(0, Vote(b, o)))
    ensures !Last(r).nodes[0].learner.informed && !Last(r).nodes[b].learner.informed
  {
    var r1 := Learned(cfg, run, b, m);
    var r2 := CrashNow(cfg, r1, 0);
    assert Acceptable(Last(r2), cfg.n, b, o);
    assert forall k: Message :: SentToAll(Last(r1), k) ==> SentToAll(Last(r2), k);
    r := Learned(cfg, r2, b, o);
  }

  lemma HeardTwice(o: Options, run: seq<Inst>, b: nat, m: Message, p: Message) returns (h: seq<System>)
    requires IsClientRun(o.cfg, run) && Acceptable(Last(run), o.cfg.n, b, m) && Acceptable(Last(run), o.cfg.n, b, p)
    requires SentToAll(Last(run), m) && SentToAll(Last(run), p) && m.value != p.value && Last(run).seqno == 1
    requires o.cfg.recovery && o.cfg.crashes && forall x :: x in Last(run).submitted ==> Stamped(x.clientId)
    ensures IsHistory(o, h) && !Replicates(h)
  {
    var r1 := LearnedTwice(o.cfg, run, b, m, p);
    assert Packet(0, Decision(0, Vote(b, m))) in Last(r1).flight;
    assert Packet(b, Decision(0, Vote(b, p))) in Last(r1).flight;
    var r2 := Hear(o.cfg, r1, 0, Decision(0, Vote(b, m)));
    var r3 := Hear(o.cfg, r2, b, Decision(0, Vote(b, p)));
    h := HearingDiverges(o, r3, |r3| - 1, 0, m.value, |r3| - 1, b, p.value);
  }

  // ---- a duplicating network: two servers ----

  /** Both servers promise 4 to server 0, and a second copy of both promises is in flight. */
  lemma PromisedTwice(cfg: Config, v: ProposalValue) returns (r: seq<Inst>)
    requires cfg.n == 2 && cfg.duplicates && cfg.recovery
    ensures IsClientRun(cfg, r) && Last(r).seqno == 1 && Last(r).submitted == {v} && |Last(r).nodes| == 2
    ensures EmptyAt(Last(r), 0, 4) && EmptyAt(Last(r), 1, 4)
    ensures forall j :: 0 <= j < 2 ==> Last(r).nodes[j].learner == INIT_LEARNER && Last(r).nodes[j].learnerSlot.None?
    ensures Last(r).nodes[0].acceptorSlot == Some(Last(r).nodes[0].acceptor)
    ensures Last(r).nodes[0].proposer == ProposerState(4, 0, v, {}, {}, false)
    ensures Last(r).flight[Packet(0, EmptyPromise(1, 0, 4))] > 1 && Last(r).flight[Packet(0, EmptyPromise(1, 1, 4))] > 1
  {
    var m := Message(PREPARE, 1, 0, 4, v, 0);
    var r0 := StartRun(cfg);
    assert Prepare(Last(r0), 0, v, 0) == m;
    var r1 := Begin(cfg, r0, 0, v);
    var r2 := PromiseFirst(cfg, r1, 0, m, 0);
    var r3 := PromiseFirst(cfg, r2, 1, m, 0);
    var r4 := Again(cfg, r3, Packet(0, EmptyPromise(1, 0, 4)));
    r := Again(cfg, r4, Packet(0, EmptyPromise(1, 1, 4)));
  }

  /** A restart of server 0 that leaves the network alone, and a second request. */
  lemma ProposedTwice(cfg: Config, v: ProposalValue, w: ProposalValue) returns (r: seq<Inst>)
    requires cfg.n == 2 && cfg.duplicates && cfg.recovery && cfg.crashes
    ensures IsClientRun(cfg, r) && Last(r).submitted == {v, w} && Last(r).seqno == 1
    ensures var m, o := Message(ACCEPT, 1, 0, 4, v, 4), Message(ACCEPT, 1, 0, 4, w, 4);
            && SentToAll(Last(r), m) && SentToAll(Last(r), o)
            && Acceptable(Last(r), 2, 1, m) && Acceptable(Last(r), 2, 1, o)
  {
    var r1 := PromisedTwice(cfg, v);
    TwoAreEnough(1);
    var r2 := CountFirst(cfg, r1, 0, 0, 4);
    var r3 := CountLast(cfg, r2, 0, 1, 4);
    var r4 := CrashNow(cfg, r3, 0);
    r := ProposedAgain(cfg, r4, v, w);
  }

  lemma ProposedAgain(cfg: Config, run: seq<Inst>, v: ProposalValue, w: ProposalValue) returns (r: seq<Inst>)
    requires IsClientRun(cfg, run) && cfg.n == 2 && Last(run).submitted == {v} && Last(run).seqno == 1
    requires EmptyAt(Last(run), 0, 4) && EmptyAt(Last(run), 1, 4) && |Last(run).nodes| == 2
    requires forall j :: 0 <= j < 2 ==>
                           Last(run).nodes[j].learner == INIT_LEARNER && Last(run).nodes[j].learnerSlot.None?
    requires Last(run).nodes[0].proposer == InitProposer(2, 0)
    requires Packet(0, EmptyPromise(1, 0, 4)) in Last(run).flight
    requires Packet(0, EmptyPromise(1, 1, 4)) in Last(run).flight
    requires SentToAll(Last(run), Message(ACCEPT, 1, 0, 4, v, 4))
    ensures IsClientRun(cfg, r) && Last(r).submitted == {v, w} && Last(r).seqno == 1
    ensures var m, o := Message(ACCEPT, 1, 0, 4, v, 4), Message(ACCEPT, 1, 0, 4, w, 4);
            && SentToAll(Last(r), m) && SentToAll(Last(r), o)
            && Acceptable(Last(r), 2, 1, m) && Acceptable(Last(r), 2, 1, o)
  {
    TwoAreEnough(1);
    var r5 := Begin(cfg, run, 0, w);
    var r6 := CountFirst(cfg, r5, 0, 0, 4);
    r := CountLast(cfg, r6, 0, 1, 4);
    assert {v} + {w} == {v, w};
  }

  lemma DuplicationDiverges(o: Options, v: ProposalValue, w: ProposalValue) returns (h: seq<System>)
    requires o.cfg.n == 2 && o.cfg.crashes && o.cfg.recovery && o.cfg.duplicates && v != w
    requires Stamped(v.clientId) && Stamped(w.clientId)
    ensures IsHistory(o, h) && !Replicates(h)
  {
    var r := ProposedTwice(o.cfg, v, w);
    h := HeardTwice(o, r, 1, Message(ACCEPT, 1, 0, 4, v, 4), Message(ACCEPT, 1, 0, 4, w, 4));
  }

  // ---- a release build: three servers ----

  lemma StrayPromiseDiverges(o: Options, v: ProposalValue, w: ProposalValue) returns (h: seq<System>)
    requires o.cfg.n == 3 && o.cfg.crashes && o.cfg.recovery && !o.cfg.asserts && v != w
    requires Stamped(v.clientId) && Stamped(w.clientId)
    ensures IsHistory(o, h) && !Replicates(h)
  {
    var r := SecondProposal(o.cfg, v, w);
    h := HeardTwice(o, r, 2, Message(ACCEPT, 1, 0, 6, v, 6), Message(ACCEPT, 1, 0, 6, w, 9));
  }

  // ---- exactly when ----

  /** The servers' command lists agree over all histories if and only if servers do not crash, or
      the logs are on, the build keeps its assertions, and the network does not duplicate. */
  lemma ReplicationExactly(recovery: bool, crashes: bool, duplicates: bool, asserts: bool)
    ensures AlwaysReplicates(recovery, crashes, duplicates, asserts)
       <==> (crashes ==> recovery && asserts && !duplicates)
  {
    if crashes ==> recovery && asserts && !duplicates {
      forall n: nat, amo: bool, run |
        IsHistory(Options(Config(n, recovery, crashes, duplicates, asserts), amo), run)
        ensures Replicates(run)
      {
        SoundReplicates(Options(Config(n, recovery, crashes, duplicates, asserts), amo), run);
      }
    } else {
      SomeHistoryDiverges(recovery, crashes, duplicates, asserts);
    }
  }

  lemma SoundReplicates(o: Options, run: seq<System>)
    requires IsHistory(o, run) && Sound(o.cfg)
    ensures Replicates(run)
  {
    forall k: nat, i: nat, l: nat, j: nat |
      k < |run| && l < |run| && i < |run[k].servers| && j < |run[l].servers|
      ensures || run[k].servers[i].engine.applied <= run[l].servers[j].engine.applied
              || run[l].servers[j].engine.applied <= run[k].servers[i].engine.applied
    {
      StateMachineReplication(o, run, k, i, l, j);
    }
  }

  lemma SomeHistoryDiverges(recovery: bool, crashes: bool, duplicates: bool, asserts: bool)
    requires crashes && !(recovery && asserts && !duplicates)
    ensures !AlwaysReplicates(recovery, crashes, duplicates, asserts)
  {
    var v, w := ProposalValue(LOCK, 1, 0, 1), ProposalValue(LOCK, 1, 0, 2);
    if !recovery {
      var h := ForgettingDiverges(Options(Config(1, recovery, crashes, duplicates, asserts), false), v, w);
    } else if duplicates {
      var h := DuplicationDiverges(Options(Config(2, recovery, crashes, duplicates, asserts), false), v, w);
    } else {
      var h := StrayPromiseDiverges(Options(Config(3, recovery, crashes, duplicates, asserts), false), v, w);
    }
  }
}
