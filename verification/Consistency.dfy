/** The system-wide theorems, over every history of a sound deployment: clients, losses,
    reorderings, and either duplications or crashes. */
module Consistency {
  import opened Wire
  import opened Roles
  import opened Endpoint
  import opened Consensus
  import opened Invariant
  import opened Safety
  import opened Agreement
  import opened Validity
  import opened LogFile
  import opened LockService
  import opened Executor
  import opened Cluster
  import opened Records
  import opened Replication

  // ---- decisions never change ----

  /** Some majority chose v for instance s. */
  ghost predicate Decreed(o: Options, c: System, s: nat, v: ProposalValue) {
    s > 0 && exists b: nat :: Chosen(At(o, c, s), b, v)
  }

  lemma HeardIsDecreed(o: Options, c: System, i: nat, s: nat, v: ProposalValue)
    requires GoodSystem(o, c) && Heard(o, c, i, s, v)
    ensures Decreed(o, c, s, v)
  {
    AtIsGood(o, c, s);
    assert NodeInv(At(o, c, s), i);
    assert Chosen(At(o, c, s), At(o, c, s).nodes[i].learner.number, v);
  }

  lemma DecreedOnce(o: Options, c: System, s: nat, v: ProposalValue, w: ProposalValue)
    requires GoodSystem(o, c) && Decreed(o, c, s, v) && Decreed(o, c, s, w)
    ensures v == w
  {
    AtIsGood(o, c, s);
    var a: nat :| Chosen(At(o, c, s), a, v);
    var b: nat :| Chosen(At(o, c, s), b, w);
    ChosenAgree(At(o, c, s), a, v, b, w);
  }

  predicate GrowsFrom(t: Inst, u: Inst) {
    t.sent <= u.sent && |u.nodes| == |t.nodes| && u.seqno == t.seqno
  }

  ghost predicate Outgrows(o: Options, c: System, d: System) {
    forall s: nat :: s > 0 ==> GrowsFrom(At(o, c, s), At(o, d, s))
  }

  lemma DecreedStays(o: Options, c: System, d: System, s: nat, v: ProposalValue)
    requires Outgrows(o, c, d) && Decreed(o, c, s, v)
    ensures Decreed(o, d, s, v)
  {
    var t, u := At(o, c, s), At(o, d, s);
    assert GrowsFrom(t, u);
    var b: nat :| Chosen(t, b, v);
    var q :| AllVoted(t, q, b, v);
    forall a | a in q ensures Voted(u, a, b, v) {
      assert Voted(t, a, b, v);
    }
    assert AllVoted(u, q, b, v);
    assert Chosen(u, b, v);
  }

  lemma InstanceOutgrows(o: Options, c: System, d: System, s: nat, e: Event)
    requires Enabled(o.cfg, At(o, c, s), e)
    requires d.insts == c.insts[s := Apply(o.cfg, At(o, c, s), e)]
    ensures Outgrows(o, c, d)
  {
    EventGrows(o.cfg, At(o, c, s), e);
    forall r: nat | r > 0 ensures GrowsFrom(At(o, c, r), At(o, d, r)) {
    }
  }

  lemma RebootOutgrows(o: Options, c: System, i: nat)
    requires CanDo(o, c, Reboot(i)) && GoodSystem(o, c)
    ensures Outgrows(o, c, Do(o, c, Reboot(i)))
  {
    var d := Do(o, c, Reboot(i));
    forall s | s in c.insts ensures i < |c.insts[s].nodes| {
      assert GoodInst(o, c.insts[s], s);
    }
    RebootShape(o, c, i);
    forall r: nat | r > 0 ensures GrowsFrom(At(o, c, r), At(o, d, r)) {
      if r in c.insts {
        assert Restarted(o, c.insts[r], d.insts[r], i);
        EventGrows(o.cfg, c.insts[r], Crash(i));
      }
    }
  }

  lemma SubmitOutgrows(o: Options, c: System, i: nat, m: Message)
    requires i < |c.servers| && SubmitOpen(o, c, i)
    ensures Outgrows(o, c, SubmitAt(o, c, i, m))
  {
    var s := NextSlot(c, i);
    InstanceOutgrows(o, c, SubmitAt(o, c, i, m), s, Submission(i, ToSlot(m, s)));
  }

  lemma ClientOutgrows(o: Options, c: System, i: nat, from: Udp4, m: Message)
    requires CanDo(o, c, Client(i, from, m))
    ensures Outgrows(o, c, Do(o, c, Client(i, from, m)))
  {
    var w := Stamp(from, m);
    var x := c.(clients := c.clients + {w.value});
    SubmitOutgrows(o, x, i, w);
    SameInstances(o, c, x, SubmitAt(o, x, i, w));
  }

  lemma ResubmitOutgrows(o: Options, c: System, i: nat, m: Message)
    requires CanDo(o, c, Resubmit(i, m))
    ensures Outgrows(o, c, Do(o, c, Resubmit(i, m)))
  {
    var v := c.servers[i];
    var x := SetServer(c, i, v.(resubmits := v.resubmits - multiset{m}, expected := v.expected - {m.sequence}));
    ResubmitShape(o, c, i, m);
    SubmitOutgrows(o, x, i, m);
    SameInstances(o, c, x, SubmitAt(o, x, i, m));
  }

  lemma SameInstances(o: Options, c: System, x: System, d: System)
    requires x.insts == c.insts && Outgrows(o, x, d)
    ensures Outgrows(o, c, d)
  {
    forall r: nat | r > 0 ensures GrowsFrom(At(o, c, r), At(o, d, r)) {
      assert GrowsFrom(At(o, x, r), At(o, d, r));
    }
  }

  lemma ActionOutgrows(o: Options, c: System, a: Action)
    requires GoodSystem(o, c) && CanDo(o, c, a)
    ensures Outgrows(o, c, Do(o, c, a))
  {
    match a
    case Client(i, from, m) => ClientOutgrows(o, c, i, from, m);
    case Resubmit(i, m) => ResubmitOutgrows(o, c, i, m);
    case Reboot(i) => RebootOutgrows(o, c, i);
    case Receive(s, p) => InstanceOutgrows(o, c, Do(o, c, a), s, Deliver(p));
    case Expire(i, s) => InstanceOutgrows(o, c, Do(o, c, a), s, Timer(i));
    case Lose(s, p) => InstanceOutgrows(o, c, Do(o, c, a), s, Drop(p));
    case Copy(s, p) => InstanceOutgrows(o, c, Do(o, c, a), s, Duplicate(p));
  }

  lemma HistoryOutgrows(o: Options, run: seq<System>, k: nat)
    requires IsHistory(o, run) && Sound(o.cfg) && 0 < k < |run|
    ensures Outgrows(o, run[k - 1], run[k])
  {
    HistoryIsGood(o, run, k - 1);
    assert StepAt(o, run, k - 1);
    StepOutgrows(o, run[k - 1], run[k]);
  }

  lemma StepOutgrows(o: Options, c: System, d: System)
    requires GoodSystem(o, c) && Step(o, c, d)
    ensures Outgrows(o, c, d)
  {
    var a :| CanDo(o, c, a) && d == Do(o, c, a);
    ActionOutgrows(o, c, a);
  }

  lemma {:induction false} DecreedForever(o: Options, run: seq<System>, k: nat, l: nat, s: nat, v: ProposalValue)
    requires IsHistory(o, run) && Sound(o.cfg) && k <= l < |run| && Decreed(o, run[k], s, v)
    ensures Decreed(o, run[l], s, v)
    decreases l
  {
    if k < l {
      DecreedForever(o, run, k, l - 1, s, v);
      HistoryOutgrows(o, run, l);
      DecreedStays(o, run[l - 1], run[l], s, v);
    }
  }

  // ---- replicated state machine ----

  lemma AppliedIsHeard(o: Options, c: System, i: nat, m: nat)
    requires GoodSystem(o, c) && i < |c.servers| && m < |c.servers[i].engine.applied|
    ensures Heard(o, c, i, m + 1, c.servers[i].engine.applied[m])
  {
    assert GoodServer(o, c, i);
  }

  lemma AppliedIsDecreedHere(o: Options, c: System, i: nat, m: nat)
    requires GoodSystem(o, c) && i < |c.servers| && m < |c.servers[i].engine.applied|
    ensures Decreed(o, c, m + 1, c.servers[i].engine.applied[m])
  {
    AppliedIsHeard(o, c, i, m);
    HeardIsDecreed(o, c, i, m + 1, c.servers[i].engine.applied[m]);
  }

  /** What server i has executed is, position by position, what was chosen. */
  lemma AppliedIsDecreed(o: Options, run: seq<System>, k: nat, i: nat, m: nat)
    requires IsHistory(o, run) && Sound(o.cfg) && k < |run| && i < |run[k].servers|
    requires m < |run[k].servers[i].engine.applied|
    ensures Decreed(o, run[|run| - 1], m + 1, run[k].servers[i].engine.applied[m])
  {
    var v := run[k].servers[i].engine.applied[m];
    assert Decreed(o, run[k], m + 1, v) by {
      HistoryIsGood(o, run, k);
      AppliedIsDecreedHere(o, run[k], i, m);
    }
    DecreedForever(o, run, k, |run| - 1, m + 1, v);
  }

  lemma {:induction false} SameUpTo(a: seq<ProposalValue>, b: seq<ProposalValue>)
    requires forall m :: 0 <= m < |a| && m < |b| ==> a[m] == b[m]
    ensures a <= b || b <= a
  {
  }

  lemma PositionsAgree(o: Options, run: seq<System>, k: nat, i: nat, l: nat, j: nat, m: nat)
    requires IsHistory(o, run) && Sound(o.cfg) && k < |run| && l < |run|
    requires i < |run[k].servers| && j < |run[l].servers|
    requires m < |run[k].servers[i].engine.applied| && m < |run[l].servers[j].engine.applied|
    ensures run[k].servers[i].engine.applied[m] == run[l].servers[j].engine.applied[m]
  {
    var v, w := run[k].servers[i].engine.applied[m], run[l].servers[j].engine.applied[m];
    AppliedIsDecreed(o, run, k, i, m);
    AppliedIsDecreed(o, run, l, j, m);
    HistoryIsGood(o, run, |run| - 1);
    DecreedOnce(o, run[|run| - 1], m + 1, v, w);
  }

  lemma EngineIsFold(o: Options, run: seq<System>, k: nat, i: nat)
    requires IsHistory(o, run) && Sound(o.cfg) && k < |run| && i < |run[k].servers|
    ensures var x := run[k].servers[i].engine; |x.applied| == x.executed && View(x) == Run(o.amo, x.applied)
  {
    HistoryIsGood(o, run, k);
    assert GoodServer(o, run[k], i);
  }

  /** Replicated state machine. Of any two servers, at any two moments of a history, one has
      executed a prefix of what the other has executed; and each server's lock table and reply
      cache are what the lock machine makes of the commands it executed. */
  lemma StateMachineReplication(o: Options, run: seq<System>, k: nat, i: nat, l: nat, j: nat)
    requires IsHistory(o, run) && Sound(o.cfg) && k < |run| && l < |run|
    requires i < |run[k].servers| && j < |run[l].servers|
    ensures var x, y := run[k].servers[i].engine, run[l].servers[j].engine;
            && (x.applied <= y.applied || y.applied <= x.applied)
            && |x.applied| == x.executed && View(x) == Run(o.amo, x.applied)
  {
    var x, y := run[k].servers[i].engine, run[l].servers[j].engine;
    forall m | 0 <= m < |x.applied| && m < |y.applied| ensures x.applied[m] == y.applied[m] {
      PositionsAgree(o, run, k, i, l, j, m);
    }
    SameUpTo(x.applied, y.applied);
    EngineIsFold(o, run, k, i);
  }

  /** Two servers that have executed equally many commands are in the same state. */
  lemma SameCountSameState(o: Options, run: seq<System>, k: nat, i: nat, l: nat, j: nat)
    requires IsHistory(o, run) && Sound(o.cfg) && k < |run| && l < |run|
    requires i < |run[k].servers| && j < |run[l].servers|
    requires run[k].servers[i].engine.executed == run[l].servers[j].engine.executed
    ensures View(run[k].servers[i].engine) == View(run[l].servers[j].engine)
  {
    StateMachineReplication(o, run, k, i, l, j);
    StateMachineReplication(o, run, l, j, k, i);
    PrefixOfSameLength(run[k].servers[i].engine.applied, run[l].servers[j].engine.applied);
  }

  /** Whoever answers the command at a position, and whenever, gives the same reply. */
  lemma AnswersAgree(o: Options, run: seq<System>, k: nat, i: nat, l: nat, j: nat, m: nat)
    requires IsHistory(o, run) && Sound(o.cfg) && k < |run| && l < |run|
    requires i < |run[k].servers| && j < |run[l].servers|
    requires m < |run[k].servers[i].engine.applied| && m < |run[l].servers[j].engine.applied|
    ensures ReplyTo(o.amo, run[k].servers[i].engine.applied, m) == ReplyTo(o.amo, run[l].servers[j].engine.applied, m)
  {
    StateMachineReplication(o, run, k, i, l, j);
    PrefixAnswers(o.amo, run[k].servers[i].engine.applied, run[l].servers[j].engine.applied, m);
  }

  lemma PrefixAnswers(amo: bool, x: seq<ProposalValue>, y: seq<ProposalValue>, m: nat)
    requires m < |x| && m < |y| && (x <= y || y <= x)
    ensures ReplyTo(amo, x, m) == ReplyTo(amo, y, m)
  {
    assert x[..m] == y[..m];
  }

  lemma PrefixOfSameLength(x: seq<ProposalValue>, y: seq<ProposalValue>)
    requires |x| == |y| && (x <= y || y <= x)
    ensures x == y
  {
  }

  /** Every executed command was submitted by a client, under that client's own address. */
  lemma OnlyClientCommands(o: Options, run: seq<System>, k: nat, i: nat)
    requires IsHistory(o, run) && Sound(o.cfg) && k < |run| && i < |run[k].servers|
    ensures forall m :: 0 <= m < |run[k].servers[i].engine.applied| ==>
              run[k].servers[i].engine.applied[m] in run[k].clients
    ensures FromEndpoints(run[k].servers[i].engine.applied)
  {
    HistoryIsGood(o, run, k);
    AppliedByClients(o, run[k], i);
  }

  lemma AppliedByClients(o: Options, c: System, i: nat)
    requires GoodSystem(o, c) && i < |c.servers|
    ensures forall m :: 0 <= m < |c.servers[i].engine.applied| ==> c.servers[i].engine.applied[m] in c.clients
    ensures FromEndpoints(c.servers[i].engine.applied)
  {
    var h := c.servers[i].engine.applied;
    forall m: nat | m < |h| ensures h[m] in c.clients {
      AppliedByClient(o, c, i, m);
    }
    ClientsAreEndpoints(c, h);
  }

  lemma AppliedByClient(o: Options, c: System, i: nat, m: nat)
    requires GoodSystem(o, c) && i < |c.servers| && m < |c.servers[i].engine.applied|
    ensures c.servers[i].engine.applied[m] in c.clients
  {
    AppliedIsHeard(o, c, i, m);
    HeardIsSubmitted(o, c, i, m + 1, c.servers[i].engine.applied[m]);
  }

  lemma ClientsAreEndpoints(c: System, h: seq<ProposalValue>)
    requires GoodClients(c) && forall m: nat :: m < |h| ==> h[m] in c.clients
    ensures FromEndpoints(h)
  {
  }

  lemma HeardIsSubmitted(o: Options, c: System, i: nat, s: nat, v: ProposalValue)
    requires GoodSystem(o, c) && Heard(o, c, i, s, v)
    ensures v in c.clients
  {
    AtIsGood(o, c, s);
    var t := At(o, c, s);
    assert ValidNode(|t.nodes|, t.submitted, t.nodes[i]);
    assert s in c.insts;
  }

  /** The lock discipline of the running system: on every server each object is taken and
      released in strict alternation, released only by its taker, and the lock table says who
      has it. Repeats, when the option is on, count once. */
  lemma LocksAreDisciplined(o: Options, run: seq<System>, k: nat, i: nat, object': nat)
    requires IsHistory(o, run) && Sound(o.cfg) && k < |run| && i < |run[k].servers|
    ensures var e := run[k].servers[i].engine;
            var h := if o.amo then Dedup(e.applied) else e.applied;
            Explains(Grants(h, object'), View(e), object')
  {
    var e := run[k].servers[i].engine;
    StateMachineReplication(o, run, k, i, k, i);
    OnlyClientCommands(o, run, k, i);
    if o.amo {
      DedupDiscipline(e.applied, object');
    } else {
      Discipline(e.applied, object');
    }
  }

  // ---- recovery ----

  /** Recovery. A restarted server has executed everything it had executed before the crash if
      and only if it had executed nothing or some slot the scan visits is unlogged; and its state
      is the lock machine run over what it replayed. */
  lemma RecoveryKeepsExecuted(o: Options, run: seq<System>, k: nat, i: nat)
    requires IsHistory(o, run) && Sound(o.cfg) && k < |run| && i < |run[k].servers| && o.cfg.recovery
    ensures var v := run[k].servers[i];
            var x, y := v.engine, Recover(o, v).engine;
            && (x.applied <= y.applied <==> x.executed == 0 || HasGap(Reopen(v.learnerFile)))
            && y.executed == MinFrom(Reopen(v.learnerFile), 1) == |y.applied|
            && View(y) == Run(o.amo, y.applied)
  {
    HistoryIsGood(o, run, k);
    RecoveredExecuted(o, run[k], i);
  }

  lemma RecoveredExecuted(o: Options, c: System, i: nat)
    requires GoodSystem(o, c) && o.cfg.recovery && i < |c.servers|
    ensures var v := c.servers[i];
            var x, y := v.engine, Recover(o, v).engine;
            && (x.applied <= y.applied <==> x.executed == 0 || HasGap(Reopen(v.learnerFile)))
            && y.executed == MinFrom(Reopen(v.learnerFile), 1) == |y.applied|
            && View(y) == Run(o.amo, y.applied)
  {
    var v := c.servers[i];
    var l := Reopen(v.learnerFile);
    MinFromIsMin(l, 1);
    ReplayFollows(o.amo, l, MinFrom(l, 1));
    ExecutedIsLogged(o, c, i);
    assert forall s: nat :: Logged(v.learnerFile, s) ==> Logged(l, s);
    PrefixSurvives(l, v.engine.executed, MinFrom(l, 1));
    LoggedPrefix(l, v.engine.applied, MinFrom(l, 1));
  }

  /** A sequence whose values are all logged is a prefix of what is replayed exactly if it is not
      longer. */
  lemma LoggedPrefix(l: File<Informed>, applied: seq<ProposalValue>, k: nat)
    requires forall s :: 1 <= s <= k ==> Logged(l, s)
    requires forall s :: 1 <= s <= |applied| ==> Logged(l, s) && l.slots[s].state.value == applied[s - 1]
    ensures applied <= LoggedValues(l, k) <==> |applied| <= k
  {
    if |applied| <= k {
      var r := LoggedValues(l, k);
      forall j | 0 <= j < |applied| ensures applied[j] == r[j] {
        assert Logged(l, j + 1);
        assert r[j + 1 - 1] == l.slots[j + 1].state.value && applied[j + 1 - 1] == l.slots[j + 1].state.value;
      }
    }
  }

  lemma ExecutedIsLogged(o: Options, c: System, i: nat)
    requires GoodSystem(o, c) && o.cfg.recovery && i < |c.servers|
    ensures var v := c.servers[i];
            && |v.engine.applied| == v.engine.executed
            && forall s :: 1 <= s <= v.engine.executed ==>
                 Logged(v.learnerFile, s) && v.learnerFile.slots[s].state.value == v.engine.applied[s - 1]
  {
    assert GoodServer(o, c, i);
    var e := c.servers[i].engine;
    forall s | 1 <= s <= e.executed
      ensures Logged(c.servers[i].learnerFile, s) && c.servers[i].learnerFile.slots[s].state.value == e.applied[s - 1]
    {
      assert Heard(o, c, i, s - 1 + 1, e.applied[s - 1]);
      HeardIsLogged(o, c, i, s, e.applied[s - 1]);
    }
  }

  /** The deadline timer's own check, which drops a timer whose sequence is already executed,
      never matters: the learner has decided by then, so the resubmission would be dropped too. */
  lemma TimerCheckIsRedundant(o: Options, run: seq<System>, k: nat, i: nat, s: nat)
    requires IsHistory(o, run) && Sound(o.cfg) && k < |run|
    requires CanDo(o, run[k], Expire(i, s)) && i < |run[k].servers| && s <= run[k].servers[i].engine.executed
    ensures var t := run[k].insts[s];
            Apply(o.cfg, t, Timer(i)) == t.(nodes := t.nodes[i := t.nodes[i].(timer := None)])
  {
    var c := run[k];
    HistoryIsGood(o, run, k);
    assert GoodServer(o, c, i) && GoodInst(o, c.insts[s], s);
    assert Heard(o, c, i, s - 1 + 1, c.servers[i].engine.applied[s - 1]);
    var t := c.insts[s];
    assert t.sent + SetOf([]) == t.sent && t.flight + multiset([]) == t.flight;
  }
}
