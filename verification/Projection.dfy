/** Seen from one instance, every history is a run: whatever the system does, the instance stays as
    it is or takes one event. */
module Projection {
  import opened Wire
  import opened Consensus
  import opened Cluster
  import opened Records

  /** Instance t stays as it is or takes an event that is not i's crash. */
  ghost predicate InstMoves(cfg: Config, t: Inst, u: Inst, i: nat) {
    u == t || exists e :: e != Crash(i) && Enabled(cfg, t, e) && u == Apply(cfg, t, e)
  }

  lemma OneEventMoves(o: Options, c: System, d: System, r: nat, e: Event, i: nat, s: nat)
    requires Enabled(o.cfg, At(o, c, r), e) && e != Crash(i)
    requires d.insts == c.insts[r := Apply(o.cfg, At(o, c, r), e)]
    ensures InstMoves(o.cfg, At(o, c, s), At(o, d, s), i)
  {
  }

  lemma SubmitMoves(o: Options, c: System, x: System, j: nat, m: Message, i: nat, s: nat)
    requires x.insts == c.insts && j < |x.servers| && SubmitOpen(o, x, j)
    ensures InstMoves(o.cfg, At(o, c, s), At(o, SubmitAt(o, x, j, m), s), i)
  {
    var r := NextSlot(x, j);
    assert At(o, x, r) == At(o, c, r);
    OneEventMoves(o, c, SubmitAt(o, x, j, m), r, Submission(j, ToSlot(m, r)), i, s);
  }

  lemma RebootMoves(o: Options, c: System, d: System, j: nat, i: nat, s: nat)
    requires Rebooted(o, c, d, j) && j != i
    ensures InstMoves(o.cfg, At(o, c, s), At(o, d, s), i)
  {
    if s in c.insts {
      assert Restarted(o, c.insts[s], d.insts[s], j);
    }
  }

  /** Every instance has as many shares as there are servers. */
  predicate Sized(c: System) {
    forall s :: s in c.insts ==> |c.insts[s].nodes| == |c.servers|
  }

  lemma ActionMoves(o: Options, c: System, a: Action, i: nat, s: nat)
    requires Sized(c) && CanDo(o, c, a) && a != Reboot(i)
    ensures InstMoves(o.cfg, At(o, c, s), At(o, Do(o, c, a), s), i)
  {
    match a
    case Client(j, from, m) =>
      var w := Stamp(from, m);
      ClientShape(o, c, j, from, m);
      SubmitMoves(o, c, c.(clients := c.clients + {w.value}), j, w, i, s);
    case Resubmit(j, m) =>
      var v := c.servers[j];
      var w := v.(resubmits := v.resubmits - multiset{m}, expected := v.expected - {m.sequence});
      ResubmitShape(o, c, j, m);
      SubmitMoves(o, c, SetServer(c, j, w), j, m, i, s);
    case Reboot(j) =>
      RebootShape(o, c, j);
      RebootMoves(o, c, Do(o, c, a), j, i, s);
    case Expire(j, r) => OneEventMoves(o, c, Do(o, c, a), r, Timer(j), i, s);
    case Receive(r, p) => OneEventMoves(o, c, Do(o, c, a), r, Deliver(p), i, s);
    case Lose(r, p) => OneEventMoves(o, c, Do(o, c, a), r, Drop(p), i, s);
    case Copy(r, p) => OneEventMoves(o, c, Do(o, c, a), r, Duplicate(p), i, s);
  }

  lemma PlainIsSized(o: Options, c: System)
    requires Plain(o, c)
    ensures Sized(c)
  {
    forall s | s in c.insts ensures |c.insts[s].nodes| == |c.servers| {
      assert PlainInst(o, c.insts[s], s);
    }
  }

  /** Any action, seen from instance s. */
  lemma ActionIsEvent(o: Options, c: System, a: Action, s: nat)
    requires Plain(o, c) && CanDo(o, c, a)
    ensures At(o, Do(o, c, a), s) == At(o, c, s) || Next(o.cfg, At(o, c, s), At(o, Do(o, c, a), s))
  {
    var i: nat := if a.Reboot? then a.i + 1 else 0;
    PlainIsSized(o, c);
    ActionMoves(o, c, a, i, s);
  }

  ghost predicate Places(o: Options, h: seq<System>, s: nat, run: seq<Inst>, at: seq<nat>) {
    |at| == |h| && forall k :: 0 <= k < |h| ==> at[k] < |run| && run[at[k]] == At(o, h[k], s)
  }

  lemma RunGrows(cfg: Config, run: seq<Inst>, u: Inst)
    requires IsRun(cfg, run) && Next(cfg, run[|run| - 1], u)
    ensures IsRun(cfg, run + [u])
  {
    var r := run + [u];
    forall k | 0 <= k < |r| - 1 ensures Next(cfg, r[k], r[k + 1]) {
      if k < |run| - 1 {
        assert Next(cfg, run[k], run[k + 1]);
      }
    }
  }

  lemma LastEvent(o: Options, h: seq<System>, s: nat)
    requires IsHistory(o, h) && Logs(o.cfg) && |h| > 1
    ensures var t, u := At(o, h[|h| - 2], s), At(o, h[|h| - 1], s); u == t || Next(o.cfg, t, u)
  {
    HistoryIsPlain(o, h, |h| - 2);
    var a := ActionAt(o, h, |h| - 1);
    ActionIsEvent(o, h[|h| - 2], a, s);
  }

  /** One more state of the history: one more state of the run, or none. */
  lemma PlacesNext(o: Options, h: seq<System>, s: nat, front: seq<Inst>, places: seq<nat>)
    returns (run: seq<Inst>, at: seq<nat>)
    requires |h| > 1 && IsRun(o.cfg, front) && Places(o, h[..|h| - 1], s, front, places)
    requires places[|h| - 2] == |front| - 1
    requires var t, u := At(o, h[|h| - 2], s), At(o, h[|h| - 1], s); u == t || Next(o.cfg, t, u)
    ensures IsRun(o.cfg, run) && Places(o, h, s, run, at) && at[|h| - 1] == |run| - 1
  {
    var u := At(o, h[|h| - 1], s);
    assert front[|front| - 1] == At(o, h[..|h| - 1][|h| - 2], s);
    if u == front[|front| - 1] {
      run, at := front, places + [|front| - 1];
    } else {
      RunGrows(o.cfg, front, u);
      run, at := front + [u], places + [|front|];
    }
    forall k | 0 <= k < |h| ensures at[k] < |run| && run[at[k]] == At(o, h[k], s) {
      if k < |h| - 1 {
        assert h[..|h| - 1][k] == h[k];
      }
    }
  }

  /** Every history contains a run of each instance, which passes through the instance's states. */
  lemma {:induction false} Project(o: Options, h: seq<System>, s: nat) returns (run: seq<Inst>, at: seq<nat>)
    requires IsHistory(o, h) && Logs(o.cfg)
    ensures IsRun(o.cfg, run) && Places(o, h, s, run, at) && at[|h| - 1] == |run| - 1
  {
    if |h| == 1 {
      run, at := [Init(o.cfg.n, s)], [0];
    } else {
      HistoryFront(o, h);
      LastEvent(o, h, s);
      var front, places := Project(o, h[..|h| - 1], s);
      run, at := PlacesNext(o, h, s, front, places);
    }
  }
}
