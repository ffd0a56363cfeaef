/** A missed INFORM stalls a whole server: what is hopeless for one instance is hopeless for
    everything after it, until that server restarts. */
module Missed {
  import opened Endpoint
  import opened Wire
  import opened Consensus
  import opened Safety
  import opened Cluster
  import opened Projection
  import opened Records
  import opened Replication
  import opened Marooned
  import opened Solo
  import opened Stall

  /** Server i will not be informed of instance s. */
  predicate MaroonedAt(o: Options, c: System, i: nat, s: nat) {
    s > 0 && i < |c.servers| && Hopeless(At(o, c, s), i)
  }

  lemma MoveStaysMarooned(o: Options, c: System, d: System, i: nat, s: nat)
    requires GoodSystem(o, c) && Sound(o.cfg) && MaroonedAt(o, c, i, s) && |d.servers| == |c.servers|
    requires InstMoves(o.cfg, At(o, c, s), At(o, d, s), i)
    ensures MaroonedAt(o, d, i, s)
  {
    var t, u := At(o, c, s), At(o, d, s);
    AtIsGood(o, c, s);
    if u != t {
      var e :| e != Crash(i) && Enabled(o.cfg, t, e) && u == Apply(o.cfg, t, e);
      EventStaysHopeless(o.cfg, t, e, i);
    }
  }

  lemma StepStaysMarooned(o: Options, c: System, d: System, i: nat, s: nat)
    requires GoodSystem(o, c) && GoodSystem(o, d) && Sound(o.cfg) && MaroonedAt(o, c, i, s) && MovesWithout(o, c, d, i)
    ensures MaroonedAt(o, d, i, s)
  {
    var a :| a != Reboot(i) && CanDo(o, c, a) && d == Do(o, c, a);
    ActionMoves(o, c, a, i, s);
    MoveStaysMarooned(o, c, d, i, s);
  }

  lemma NextStaysMarooned(o: Options, run: seq<System>, k: nat, l: nat, j: nat, i: nat, s: nat)
    requires IsHistory(o, run) && Sound(o.cfg) && k <= j < l && StaysUp(o, run, k, l, i) && MaroonedAt(o, run[j], i, s)
    ensures MaroonedAt(o, run[j + 1], i, s)
  {
    assert MovesAt(o, run, j, i);
    HistoryIsGood(o, run, j);
    HistoryIsGood(o, run, j + 1);
    StepStaysMarooned(o, run[j], run[j + 1], i, s);
  }

  lemma {:induction false} MaroonedForever(o: Options, run: seq<System>, k: nat, l: nat, j: nat, i: nat, s: nat)
    requires IsHistory(o, run) && Sound(o.cfg) && k <= j <= l && StaysUp(o, run, k, l, i) && MaroonedAt(o, run[k], i, s)
    ensures MaroonedAt(o, run[j], i, s)
    decreases j
  {
    if k == j {
    } else {
      MaroonedForever(o, run, k, l, j - 1, i, s);
      NextStaysMarooned(o, run, k, l, j - 1, i, s);
    }
  }

  /** A server has executed only what it was informed of. */
  lemma ExecutedIsHeard(o: Options, c: System, i: nat, s: nat)
    requires GoodSystem(o, c) && i < |c.servers|
    ensures 1 <= s <= c.servers[i].engine.executed ==> InformedAt(At(o, c, s), i)
  {
    assert GoodServer(o, c, i);
    var e := c.servers[i].engine;
    if 1 <= s <= e.executed {
      assert Heard(o, c, i, s - 1 + 1, e.applied[s - 1]);
    }
  }

  /** A server that missed its INFORM, with no hope left, never executes that far while it stays
      up; and once it has executed everything before, it can take no request either. */
  lemma MissedServerStalls(o: Options, run: seq<System>, k: nat, l: nat, i: nat, s: nat)
    requires IsHistory(o, run) && Sound(o.cfg) && k <= l && StaysUp(o, run, k, l, i) && MaroonedAt(o, run[k], i, s)
    ensures i < |run[l].servers| && run[l].servers[i].engine.executed < s
    ensures run[l].servers[i].engine.executed + 1 == s ==> !SubmitOpen(o, run[l], i)
  {
    MaroonedForever(o, run, k, l, l, i, s);
    HistoryIsGood(o, run, l);
    ExecutedIsHeard(o, run[l], i, s);
    MaroonedIsClosed(o, run[l], i, s);
  }

  lemma MaroonedIsClosed(o: Options, c: System, i: nat, s: nat)
    requires MaroonedAt(o, c, i, s)
    ensures c.servers[i].engine.executed + 1 == s ==> !SubmitOpen(o, c, i)
  {
  }

  // ---- it happens ----

  /** One lost INFORM, and no crash: a lone server that learned its first decision is marooned. */
  lemma InformGetsLost(o: Options, from: Udp4, v: ProposalValue) returns (run: seq<System>)
    requires o.cfg.n == 1 && v.clientId == Encode(from)
    ensures IsHistory(o, run) && MaroonedAt(o, Last(run), 0, 1)
    ensures Last(run).insts.Keys == {1} && Last(run).insts[1].flight == multiset{}
    ensures |Last(run).insts[1].nodes| == 1 && Last(run).insts[1].nodes[0].timer.None?
    ensures |Last(run).servers| == 1 && Last(run).servers[0].engine.executed == 0
    ensures Last(run).servers[0].resubmits == multiset{}
  {
    BootIsReady(o);
    var q := Learns(o, [Boot(o)], 0, from, v);
    var p := Packet(0, MessageOf(1, v, 5));
    run := Then(o, q, Lose(1, p));
    var t := Last(run).insts[1];
    assert t.flight == multiset{};
    assert Last(run).insts.Keys == {1};
    assert At(o, Last(run), 1) == t && Alone(t, 0);
  }

  /** And if servers do not crash, nothing whatever can happen any more. */
  lemma LoneServerHalts(o: Options, from: Udp4, v: ProposalValue) returns (run: seq<System>)
    requires o.cfg.n == 1 && !o.cfg.crashes && v.clientId == Encode(from)
    ensures IsHistory(o, run) && |Last(run).servers| == 1 && Last(run).servers[0].engine.executed == 0
    ensures forall a :: !CanDo(o, Last(run), a)
  {
    run := InformGetsLost(o, from, v);
    var c := Last(run);
    assert At(o, c, 1) == c.insts[1];
    forall a ensures !CanDo(o, c, a) {
      NothingToDo(o, c, a);
    }
  }

  lemma NothingToDo(o: Options, c: System, a: Action)
    requires !o.cfg.crashes && |c.servers| == 1 && MaroonedAt(o, c, 0, 1) && c.servers[0].engine.executed == 0
    requires c.insts.Keys == {1} && c.insts[1].flight == multiset{} && |c.insts[1].nodes| == 1
    requires c.insts[1].nodes[0].timer.None? && c.servers[0].resubmits == multiset{}
    ensures !CanDo(o, c, a)
  {
    MaroonedIsClosed(o, c, 0, 1);
  }
}
