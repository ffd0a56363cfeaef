/** Histories of two servers, of which server 1 takes the requests: a position that server 0 never
    hears of, and what a restart makes of the position after it. */
module Pair {
  import opened Wire
  import opened Endpoint
  import opened Roles
  import opened Consensus
  import opened Safety
  import opened LogFile
  import opened LockService
  import opened Executor
  import opened Cluster
  import opened Records
  import opened Replication
  import opened Scenario
  import opened Aside
  import opened Stall
  import Solo

  // ---- one round of two ----

  function FirstRound(s: nat, v: ProposalValue): Message {
    Message(PREPARE, s, 1, 5, v, 0)
  }

  function Proposal(s: nat, v: ProposalValue): Message {
    Message(ACCEPT, s, 1, 5, v, 5)
  }

  /** The INFORM that server 1 broadcasts. */
  function News(s: nat, v: ProposalValue): Message {
    Decision(1, Vote(1, Proposal(s, v)))
  }

  /** Nobody of the two has counted anything yet, and server 0 has not begun. */
  predicate Quietly(t: Inst, s: nat, v: ProposalValue) {
    && |t.nodes| == 2 && t.seqno == s && t.submitted == {v}
    && t.nodes[0].learner == INIT_LEARNER && t.nodes[1].learner == INIT_LEARNER
    && t.nodes[0].proposer.current == 2
  }

  lemma BothPromise(cfg: Config, s: nat, v: ProposalValue) returns (r: seq<Inst>)
    requires cfg.n == 2
    ensures IsClientRun(cfg, r) && Quietly(Last(r), s, v) && EmptyAt(Last(r), 0, 5) && EmptyAt(Last(r), 1, 5)
    ensures Last(r).nodes[1].proposer == ProposerState(5, 0, v, {}, {}, false)
    ensures Packet(1, EmptyPromise(s, 0, 5)) in Last(r).flight && Packet(1, EmptyPromise(s, 1, 5)) in Last(r).flight
  {
    var r0 := StartRunOf(cfg, s);
    var r1 := Begin(cfg, r0, 1, v);
    var r2 := PromiseFirst(cfg, r1, 0, FirstRound(s, v), 0);
    r := PromiseFirst(cfg, r2, 1, FirstRound(s, v), 0);
  }

  lemma Proposes(cfg: Config, s: nat, v: ProposalValue) returns (r: seq<Inst>)
    requires cfg.n == 2
    ensures IsClientRun(cfg, r) && Quietly(Last(r), s, v) && EmptyAt(Last(r), 0, 5) && EmptyAt(Last(r), 1, 5)
    ensures SentToAll(Last(r), Proposal(s, v))
  {
    var r3 := BothPromise(cfg, s, v);
    var r4 := CountFirst(cfg, r3, 1, 0, 5);
    assert {0 as nat} + {1} == {0, 1} && |{0 as nat, 1}| == 2;
    r := CountLast(cfg, r4, 1, 1, 5);
  }

  lemma BothAccept(cfg: Config, s: nat, v: ProposalValue) returns (r: seq<Inst>)
    requires cfg.n == 2
    ensures IsClientRun(cfg, r) && Quietly(Last(r), s, v)
    ensures Packet(1, Vote(0, Proposal(s, v))) in Last(r).flight && Packet(1, Vote(1, Proposal(s, v))) in Last(r).flight
  {
    var r5 := Proposes(cfg, s, v);
    var r6 := AcceptNow(cfg, r5, 0, Proposal(s, v));
    r := AcceptNow(cfg, r6, 1, Proposal(s, v));
  }

  /** Server 1 has learned v, its INFORM is on the way to both, and nobody has heard. */
  lemma Learns(cfg: Config, s: nat, v: ProposalValue) returns (r: seq<Inst>)
    requires cfg.n == 2
    ensures IsClientRun(cfg, r) && Last(r).seqno == s && Last(r).submitted == {v} && |Last(r).nodes| == 2
    ensures NobodyHears(Last(r)) && Last(r).nodes[0].proposer.current == 2 && SentToAll(Last(r), News(s, v))
  {
    var r7 := BothAccept(cfg, s, v);
    var r8 := VoteFirst(cfg, r7, 1, Vote(0, Proposal(s, v)));
    assert {0 as nat} + {1} == {0, 1} && |{0 as nat, 1}| == 2;
    r := VoteLast(cfg, r8, 1, Vote(1, Proposal(s, v)), {0});
  }

  // ---- hearing ----

  /** Server i hears the INFORM m of instance s: the command goes to its executor and its log. */
  lemma Hears(o: Options, h: seq<System>, s: nat, i: nat, m: Message, b: nat) returns (g: seq<System>)
    requires IsHistory(o, h) && s in Solo.Last(h).insts && i < |Solo.Last(h).servers| && m.kind.INFORM?
    requires var t := Solo.Last(h).insts[s];
             i < |t.nodes| && !t.nodes[i].learner.informed && Packet(i, m) in t.flight
    ensures IsHistory(o, g) && g == h + [Solo.Last(g)]
    ensures var c, d := Solo.Last(h), Solo.Last(g);
            && |d.servers| == |c.servers|
            && (forall j :: 0 <= j < |c.servers| && j != i ==> d.servers[j] == c.servers[j])
            && var v, w := c.servers[i], d.servers[i];
            && w.engine == TryExecute(o.amo, v.engine, m.(kind := COMMAND)).0
            && w.learnerFile == (if o.cfg.recovery
                                 then WriteLog(v.learnerFile, s, Informed(m.number, m.value), ZERO_INFORMED)
                                 else v.learnerFile)
    ensures var c, d := Solo.Last(h), Solo.Last(g);
            && d.insts.Keys == c.insts.Keys && (forall r :: r in c.insts && r != s ==> d.insts[r] == c.insts[r])
            && |d.insts[s].nodes| == |c.insts[s].nodes| && Keeps(c.insts[s], Packet(i, m), d.insts[s])
            && forall j :: 0 <= j < |c.insts[s].nodes| && j != i ==> d.insts[s].nodes[j] == c.insts[s].nodes[j]
    ensures var c := Solo.Last(h);
            MuteSince(o, h, b) && AnswersSent(i, TryExecute(o.amo, c.servers[i].engine, m.(kind := COMMAND)).1) == []
            ==> MuteSince(o, g, b)
  {
    var c := Solo.Last(h);
    var t, p := c.insts[s], Packet(i, m);
    HearEffect(|t.nodes|, o.cfg.recovery, i, t.nodes[i], m);
    g := MuteGoes(o, h, Receive(s, p), b);
    Solo.ReceiveParts(o, c, s, p);
    var e := Dispatch(|t.nodes|, o.cfg.recovery, i, t.nodes[i], m);
    DecideMoves(o.amo, i, LogWrites(o.cfg.recovery, c.servers[i], s, e), e.command);
  }

  // ---- a hole in the log ----

  /** A round of instance s in which server 1 learns v, taken by the whole system. */
  lemma Decides(o: Options, h: seq<System>, s: nat, from: Udp4, v: ProposalValue, b: nat)
    returns (g: seq<System>)
    requires IsHistory(o, h) && o.cfg.n == 2 && |Solo.Last(h).servers| == 2 && v.clientId == Encode(from)
    requires s > 0 && s !in Solo.Last(h).insts && Solo.Last(h).servers[1].engine.executed + 1 == s
    ensures IsHistory(o, g) && h <= g && s in Solo.Last(g).insts && (MuteSince(o, h, b) ==> MuteSince(o, g, b))
    ensures var t := Solo.Last(g).insts[s]; |t.nodes| == 2 && NobodyHears(t) && SentToAll(t, News(s, v))
    ensures Differs(o, Solo.Last(h), Solo.Last(g), s, Solo.Last(g).insts[s])
  {
    var run := Learns(Calm(o.cfg), s, v);
    EncodeIsStamped(from);
    g := TakeRun(o, h, run, s, b);
    assert Packet(0, News(s, v)) in Last(run).flight;
    assert At(o, Solo.Last(g), s) == Last(run);
  }

  lemma BootOfTwo(o: Options)
    requires o.cfg.n == 2
    ensures var c := Boot(o);
            |c.servers| == 2 && c.insts == map[] && c.servers[0] == FreshServer() && c.servers[1] == FreshServer()
    ensures IsHistory(o, [Boot(o)])
  {
  }

  /** Server 1 has decided and executed position 1; server 0 has heard of nothing. */
  lemma OneAhead(o: Options, from: Udp4, v: ProposalValue) returns (h: seq<System>)
    requires o.cfg.n == 2 && v.clientId == Encode(from)
    ensures IsHistory(o, h) && |Solo.Last(h).servers| == 2 && Solo.Last(h).insts.Keys == {1}
    ensures var c := Solo.Last(h);
            && c.servers[0].engine == FRESH_ENGINE && c.servers[0].learnerFile == File([], 0)
            && c.servers[1].engine == TryExecute(o.amo, FRESH_ENGINE, News(1, v).(kind := COMMAND)).0
            && c.servers[1].engine.executed == 1 && c.servers[1].engine.waiting == map[]
            && (o.cfg.recovery ==>
                  c.servers[1].learnerFile == WriteLog(File([], 0), 1, Informed(5, v), ZERO_INFORMED))
            && |c.insts[1].nodes| == 2 && !c.insts[1].nodes[0].learner.informed
            && Packet(0, News(1, v)) in c.insts[1].flight
  {
    BootOfTwo(o);
    var g := Decides(o, [Boot(o)], 1, from, v, 0);
    assert Packet(1, News(1, v)) in Solo.Last(g).insts[1].flight;
    h := Hears(o, g, 1, 1, News(1, v), 0);
    Solo.NextExecutes(o.amo, FRESH_ENGINE, News(1, v).(kind := COMMAND));
  }

  lemma SecondAlone(x: Informed)
    ensures var f := WriteLog(File([], 0), 2, x, ZERO_INFORMED);
            f == Reopen(f) && Logged(f, 2) && !Logged(f, 1) && HasGap(f) && MinFrom(f, 1) == 0
  {
    var f := WriteLog(File([], 0), 2, x, ZERO_INFORMED);
    assert !Logged(f, 1);
  }

  /** Server 0 hears of position 2 before position 1, which server 1 has executed. */
  lemma HearsSecondFirst(o: Options, from: Udp4, v: ProposalValue, w: ProposalValue) returns (h: seq<System>)
    requires o.cfg.n == 2 && o.cfg.recovery && v.clientId == w.clientId == Encode(from)
    ensures IsHistory(o, h) && |Solo.Last(h).servers| == 2 && Solo.Last(h).servers[1].engine.executed == 1
    ensures Solo.Last(h).servers[0].learnerFile == WriteLog(File([], 0), 2, Informed(5, w), ZERO_INFORMED)
  {
    var h2 := OneAhead(o, from, v);
    var h3 := Decides(o, h2, 2, from, w, 0);
    assert Untouched(Solo.Last(h2).servers[0], Solo.Last(h3).servers[0]);
    assert Untouched(Solo.Last(h2).servers[1], Solo.Last(h3).servers[1]);
    assert Packet(0, News(2, w)) in Solo.Last(h3).insts[2].flight;
    h := Hears(o, h3, 2, 0, News(2, w), 0);
  }

  /** A hole arises: then server 0 restarts. It has executed nothing and is stuck at position 2. */
  lemma HoleSticks(o: Options, from: Udp4, v: ProposalValue, w: ProposalValue)
    returns (run: seq<System>, k: nat)
    requires o.cfg.n == 2 && o.cfg.crashes && Sound(o.cfg) && v.clientId == w.clientId == Encode(from)
    ensures IsHistory(o, run) && k + 1 == |run| - 1 && |run[k].servers| == 2 && |run[k + 1].servers| == 2
    ensures run[k].servers[1].engine.executed == 1 && Restarts(o, run[k], run[k + 1], 0)
    ensures var l := Reopen(run[k].servers[0].learnerFile); HasGap(l) && Logged(l, 2) && !Logged(l, 1)
    ensures run[k + 1].servers[0].engine.executed == 0 && Stuck(o, run[k + 1], 0, 2)
  {
    var h := HearsSecondFirst(o, from, v, w);
    k := |h| - 1;
    run := Solo.Then(o, h, Reboot(0));
    SecondAlone(Informed(5, w));
    HistoryIsGood(o, h, k);
    HoleLeft(o, run[k], run[k + 1]);
  }

  lemma HoleLeft(o: Options, c: System, d: System)
    requires GoodSystem(o, c) && Sound(o.cfg) && Restarts(o, c, d, 0) && o.cfg.n == 2
    requires var l := Reopen(c.servers[0].learnerFile); Logged(l, 2) && !Logged(l, 1) && MinFrom(l, 1) == 0
    ensures |d.servers| == 2 && d.servers[0].engine.executed == 0 && Stuck(o, d, 0, 2)
  {
    RestartLeavesStuck(o, c, 0, 2);
    RecoveredCount(o, c.servers[0]);
  }

  // ---- a repeat that nobody answers ----

  /** What executing the first command leaves in the cache: a reply that names c.extra. */
  lemma FirstCached(amo: bool, c: Message)
    requires Guarded(amo, c.value) && c.value.operation.LOCK?
    ensures var x := Advance(amo, FRESH_ENGINE, c).0;
            && x.executed == 1 && x.waiting == map[] && x.applied == [c.value]
            && Caches(x, KeyOf(c.value), c.extra)
  {
  }

  predicate Caches(e: Engine, key: Key, extra: nat) {
    key in e.cache && e.cache[key].Some? && e.cache[key].value.extra == extra
  }

  lemma FirstTaken(amo: bool, c: Message)
    requires Guarded(amo, c.value) && c.value.operation.LOCK? && c.sequence == 1
    ensures TryExecute(amo, FRESH_ENGINE, c).0 == Advance(amo, FRESH_ENGINE, c).0
  {
    var x := Advance(amo, FRESH_ENGINE, c).0;
    assert Drain(amo, x) == (x, []);
  }

  /** A repeat whose remembered reply names another server is executed in silence. */
  lemma RepeatIsSilent(amo: bool, id: nat, e: Engine, c: Message, extra: nat)
    requires Guarded(amo, c.value) && Caches(e, KeyOf(c.value), extra) && extra != id
    requires e.waiting == map[] && c.sequence == e.executed + 1
    ensures var (x, out) := TryExecute(amo, e, c);
            && x.executed == e.executed + 1 && x.applied == e.applied + [c.value] && AnswersSent(id, out) == []
  {
    var (x, out) := Advance(amo, e, c);
    assert Drain(amo, x) == (x, []);
    assert out == [e.cache[KeyOf(c.value)].value] && out + [] == out;
    assert out[1..] == [];
  }

  lemma FirstReplayed(amo: bool, v: ProposalValue)
    ensures var f := WriteLog(File([], 0), 1, Informed(5, v), ZERO_INFORMED);
            && Reopen(f) == f && MinFrom(f, 1) == 1 && Logged(f, 1)
            && Replay(amo, f, 1) == Advance(amo, FRESH_ENGINE, Replayed(1, Informed(5, v))).0
  {
    var f := WriteLog(File([], 0), 1, Informed(5, v), ZERO_INFORMED);
    assert Logged(f, 1) && !Logged(f, 2);
    assert MinFrom(f, 2) == 1;
    assert Replay(amo, f, 0) == FRESH_ENGINE;
  }

  /** Both servers have executed v at position 1, and remember that server 1 was named. */
  lemma BothExecuted(o: Options, from: Udp4, v: ProposalValue) returns (h: seq<System>)
    requires o.cfg.n == 2 && v.clientId == Encode(from) && Guarded(o.amo, v) && v.operation.LOCK?
    ensures IsHistory(o, h) && |Solo.Last(h).servers| == 2 && Solo.Last(h).insts.Keys == {1}
    ensures var c := Solo.Last(h);
            && (forall j :: 0 <= j < 2 ==> ExecutedFirst(c.servers[j].engine, v, 1))
            && (o.cfg.recovery ==>
                  c.servers[1].learnerFile == WriteLog(File([], 0), 1, Informed(5, v), ZERO_INFORMED))
  {
    var g := OneAhead(o, from, v);
    FirstTaken(o.amo, News(1, v).(kind := COMMAND));
    FirstCached(o.amo, News(1, v).(kind := COMMAND));
    h := Hears(o, g, 1, 0, News(1, v), 0);
  }

  predicate ExecutedFirst(e: Engine, v: ProposalValue, extra: nat) {
    e.executed == 1 && e.waiting == map[] && e.applied == [v] && Caches(e, KeyOf(v), extra)
  }

  /** Server 1 restarts, and remembers that server 0 was named. */
  lemma ForgetsWhom(o: Options, h: seq<System>, v: ProposalValue) returns (g: seq<System>)
    requires IsHistory(o, h) && o.cfg.crashes && o.cfg.recovery && |Solo.Last(h).servers| == 2
    requires Guarded(o.amo, v) && v.operation.LOCK?
    requires Solo.Last(h).servers[1].learnerFile == WriteLog(File([], 0), 1, Informed(5, v), ZERO_INFORMED)
    ensures IsHistory(o, g) && g == h + [Solo.Last(g)] && |Solo.Last(g).servers| == 2
    ensures Solo.Last(g).insts.Keys == Solo.Last(h).insts.Keys
    ensures Restarts(o, Solo.Last(h), Solo.Last(g), 1)
    ensures Solo.Last(g).servers[0] == Solo.Last(h).servers[0]
    ensures ExecutedFirst(Solo.Last(g).servers[1].engine, v, 0)
  {
    FirstReplayed(o.amo, v);
    FirstCached(o.amo, Replayed(1, Informed(5, v)));
    g := Solo.Then(o, h, Reboot(1));
  }

  /** The repeat of v is decided at position 2; both servers execute it and neither answers. */
  lemma BothSilent(o: Options, h: seq<System>, from: Udp4, v: ProposalValue, b: nat) returns (g: seq<System>)
    requires MuteSince(o, h, b) && o.cfg.n == 2 && |Solo.Last(h).servers| == 2 && Solo.Last(h).insts.Keys == {1}
    requires v.clientId == Encode(from) && Guarded(o.amo, v)
    requires ExecutedFirst(Solo.Last(h).servers[0].engine, v, 1)
    requires ExecutedFirst(Solo.Last(h).servers[1].engine, v, 0)
    ensures MuteSince(o, g, b) && h <= g && |Solo.Last(g).servers| == 2
    ensures forall j :: 0 <= j < 2 ==> Solo.Last(g).servers[j].engine.applied == [v, v]
  {
    var g1 := Decides(o, h, 2, from, v, b);
    assert Untouched(Solo.Last(h).servers[0], Solo.Last(g1).servers[0]);
    assert Untouched(Solo.Last(h).servers[1], Solo.Last(g1).servers[1]);
    var m := News(2, v);
    assert Packet(0, m) in Solo.Last(g1).insts[2].flight && Packet(1, m) in Solo.Last(g1).insts[2].flight;
    RepeatIsSilent(o.amo, 1, Solo.Last(g1).servers[1].engine, m.(kind := COMMAND), 0);
    var g2 := Hears(o, g1, 2, 1, m, b);
    RepeatIsSilent(o.amo, 0, Solo.Last(g2).servers[0].engine, m.(kind := COMMAND), 1);
    g := Hears(o, g2, 2, 0, m, b);
  }

  /** A repeat that nobody answers. After position 1 is executed by both, server 1 restarts; the
      client, whose reply may have been lost, repeats its command, which is decided at position 2
      and executed by both, and from the restart on nobody is told anything. */
  lemma RepeatIsUnanswered(o: Options, from: Udp4, v: ProposalValue) returns (h: seq<System>, k: nat)
    requires o.cfg.n == 2 && o.cfg.crashes && o.cfg.recovery
    requires v.clientId == Encode(from) && Guarded(o.amo, v) && v.operation.LOCK?
    ensures MuteSince(o, h, k + 1) && k + 1 < |h| && Restarts(o, h[k], h[k + 1], 1)
    ensures |h[k].servers| == 2 && |Solo.Last(h).servers| == 2
    ensures forall j :: 0 <= j < 2 ==> h[k].servers[j].engine.applied == [v]
    ensures forall j :: 0 <= j < 2 ==> Solo.Last(h).servers[j].engine.applied == [v, v]
  {
    var g := BothExecuted(o, from, v);
    k := |g| - 1;
    var g1 := ForgetsWhom(o, g, v);
    h := BothSilent(o, g1, from, v, k + 1);
  }
}
