/** Exactly when the servers' command lists agree, for deployments of each size. */
module Ledgers {
  import opened Wire
  import opened Endpoint
  import opened Consensus
  import opened Safety
  import opened Cluster
  import opened Records
  import opened Projection
  import opened Scenario
  import opened Crowd
  import opened Sizes
  import opened Loose
  import Agreement
  import Consistency
  import Diverge
  import Release
  import Solo

  // ---- why they agree ----

  /** Deployments of one instance whose learners agree. */
  predicate LearnersAgreeIn(cfg: Config) {
    Sound(cfg) || Release.TightlyRun(cfg)
  }

  lemma HeardAlike(o: Options, h: seq<System>, k: nat, i: nat, l: nat, j: nat, s: nat,
                   v: ProposalValue, w: ProposalValue)
    requires IsHistory(o, h) && Logs(o.cfg) && LearnersAgreeIn(o.cfg) && k < |h| && l < |h|
    requires Heard(o, h[k], i, s, v) && Heard(o, h[l], j, s, w)
    ensures v == w
  {
    var run, at := Project(o, h, s);
    assert run[at[k]] == At(o, h[k], s) && run[at[l]] == At(o, h[l], s);
    if Sound(o.cfg) {
      Agreement.LearnersAgree(o.cfg, run, at[k], i, at[l], j);
    } else {
      Release.TightLearnersAgree(o.cfg, run, at[k], i, at[l], j);
    }
  }

  /** What one server has heard it has heard for good. */
  lemma {:induction false} HeardForGood(o: Options, h: seq<System>, k: nat, l: nat, i: nat, s: nat, v: ProposalValue)
    requires IsHistory(o, h) && Logs(o.cfg) && k <= l < |h| && Heard(o, h[k], i, s, v)
    ensures Heard(o, h[l], i, s, v)
    decreases l
  {
    if k == l {
    } else {
      HeardForGood(o, h, k, l - 1, i, s, v);
      HistoryIsPlain(o, h, l - 1);
      var a := ActionAt(o, h, l);
      StaysHeard(o, h[l - 1], a, i, s, v);
    }
  }

  lemma StaysHeard(o: Options, c: System, a: Action, i: nat, s: nat, v: ProposalValue)
    requires Plain(o, c) && Logs(o.cfg) && CanDo(o, c, a) && Heard(o, c, i, s, v)
    ensures Heard(o, Do(o, c, a), i, s, v)
  {
    var t, u := At(o, c, s), At(o, Do(o, c, a), s);
    AtIsPlain(o, c, s);
    ActionIsEvent(o, c, a, s);
    if u != t {
      var e :| Enabled(o.cfg, t, e) && u == Apply(o.cfg, t, e);
      HeardStays(o, t, e, i, v);
    }
  }

  /** A lone server hears one value for each position, whatever else may happen. */
  lemma LoneHearsAlike(o: Options, h: seq<System>, k: nat, l: nat, s: nat, v: ProposalValue, w: ProposalValue)
    requires IsHistory(o, h) && Logs(o.cfg) && k < |h| && l < |h|
    requires Heard(o, h[k], 0, s, v) && Heard(o, h[l], 0, s, w)
    ensures v == w
  {
    var j := if k < l then l else k;
    HeardForGood(o, h, k, j, 0, s, v);
    HeardForGood(o, h, l, j, 0, s, w);
  }

  lemma AppliedWasHeard(o: Options, h: seq<System>, k: nat, i: nat, m: nat)
    requires IsHistory(o, h) && Logs(o.cfg) && k < |h| && i < |h[k].servers| && m < |h[k].servers[i].engine.applied|
    ensures i < o.cfg.n && Heard(o, h[k], i, m + 1, h[k].servers[i].engine.applied[m])
  {
    HistoryIsPlain(o, h, k);
    assert PlainServer(o, h[k], i);
  }

  lemma PlacesAgree(o: Options, h: seq<System>, k: nat, i: nat, l: nat, j: nat, m: nat)
    requires IsHistory(o, h) && Logs(o.cfg) && (o.cfg.n == 1 || LearnersAgreeIn(o.cfg)) && k < |h| && l < |h|
    requires i < |h[k].servers| && j < |h[l].servers|
    requires m < |h[k].servers[i].engine.applied| && m < |h[l].servers[j].engine.applied|
    ensures h[k].servers[i].engine.applied[m] == h[l].servers[j].engine.applied[m]
  {
    AppliedWasHeard(o, h, k, i, m);
    AppliedWasHeard(o, h, l, j, m);
    var v, w := h[k].servers[i].engine.applied[m], h[l].servers[j].engine.applied[m];
    if o.cfg.n == 1 {
      LoneHearsAlike(o, h, k, l, m + 1, v, w);
    } else {
      HeardAlike(o, h, k, i, l, j, m + 1, v, w);
    }
  }

  lemma ListsAgree(o: Options, h: seq<System>)
    requires IsHistory(o, h) && Logs(o.cfg) && (o.cfg.n == 1 || LearnersAgreeIn(o.cfg))
    ensures Diverge.Replicates(h)
  {
    forall k: nat, i: nat, l: nat, j: nat | k < |h| && l < |h| && i < |h[k].servers| && j < |h[l].servers|
      ensures || h[k].servers[i].engine.applied <= h[l].servers[j].engine.applied
              || h[l].servers[j].engine.applied <= h[k].servers[i].engine.applied
    {
      var x, y := h[k].servers[i].engine.applied, h[l].servers[j].engine.applied;
      forall m | 0 <= m < |x| && m < |y| ensures x[m] == y[m] {
        PlacesAgree(o, h, k, i, l, j, m);
      }
      Consistency.SameUpTo(x, y);
    }
  }

  // ---- why they do not ----

  /** Votes for two values are in flight to server 0, and nobody has decided. */
  predicate TwoMajorities(t: Inst, n: nat, m: Message, p: Message, lo: nat) {
    && 2 <= n && Undecided(t, n) && 1 <= lo && lo + n / 2 <= n && m.number > 0 && p.number > 0
    && m.value != p.value
    && VotesOut(t, m, lo, lo + n / 2) && VotesOut(t, p, lo, lo + n / 2)
  }

  /** Server 0 learns m's value, restarts before it hears, and learns p's. */
  lemma LearnsBoth(cfg: Config, run: seq<Inst>, m: Message, p: Message, lo: nat) returns (r: seq<Inst>)
    requires IsClientRun(cfg, run) && cfg.crashes && TwoMajorities(Last(run), cfg.n, m, p, lo)
    ensures IsClientRun(cfg, r) && SameFrame(Last(run), Last(r)) && |Last(r).nodes| == cfg.n
    ensures !Last(r).nodes[0].learner.informed && !Last(r).nodes[1].learner.informed
    ensures SentToAll(Last(r), Decision(0, Vote(lo + cfg.n / 2 - 1, m)))
    ensures SentToAll(Last(r), Decision(0, Vote(lo + cfg.n / 2 - 1, p)))
  {
    var hi := lo + cfg.n / 2;
    var news := Decision(0, Vote(hi - 1, m));
    var r1 := LearnMany(cfg, run, m, lo, hi);
    var r2 := CrashNow(cfg, r1, 0);
    VotesStay(Last(run), Last(r1), m.value, p, lo, hi);
    assert VotesOut(Last(r2), p, lo, hi);
    r := LearnMany(cfg, r2, p, lo, hi);
    forall d: nat | d < cfg.n ensures Packet(d, news) in Last(r).flight {
      assert Packet(d, news) in Last(r1).flight;
    }
  }

  lemma VotesStay(s: Inst, t: Inst, v: ProposalValue, p: Message, lo: nat, hi: nat)
    requires KeepsButVotes(s, t, v) && p.value != v && VotesOut(s, p, lo, hi)
    ensures VotesOut(t, p, lo, hi)
  {
  }

  /** So two servers hear different values. */
  lemma TwoHear(o: Options, run: seq<Inst>, m: Message, p: Message, a: nat) returns (h: seq<System>)
    requires IsClientRun(o.cfg, run) && |Last(run).nodes| == o.cfg.n >= 2 && Last(run).seqno == 1
    requires forall x :: x in Last(run).submitted ==> Stamped(x.clientId)
    requires !Last(run).nodes[0].learner.informed && !Last(run).nodes[1].learner.informed
    requires SentToAll(Last(run), Decision(0, Vote(a, m))) && SentToAll(Last(run), Decision(0, Vote(a, p)))
    requires m.value != p.value
    ensures IsHistory(o, h) && !Diverge.Replicates(h)
  {
    assert Packet(0, Decision(0, Vote(a, m))) in Last(run).flight;
    assert Packet(1, Decision(0, Vote(a, p))) in Last(run).flight;
    var r1 := Hear(o.cfg, run, 0, Decision(0, Vote(a, m)));
    var r2 := Hear(o.cfg, r1, 1, Decision(0, Vote(a, p)));
    h := Diverge.HearingDiverges(o, r2, |r2| - 1, 0, m.value, |r2| - 1, 1, p.value);
  }

  lemma MajoritiesDiverge(o: Options, run: seq<Inst>, m: Message, p: Message, lo: nat) returns (h: seq<System>)
    requires IsClientRun(o.cfg, run) && o.cfg.crashes && TwoMajorities(Last(run), o.cfg.n, m, p, lo)
    requires Last(run).seqno == 1 && forall x :: x in Last(run).submitted ==> Stamped(x.clientId)
    ensures IsHistory(o, h) && !Diverge.Replicates(h)
  {
    var r := LearnsBoth(o.cfg, run, m, p, lo);
    h := TwoHear(o, r, m, p, lo + o.cfg.n / 2 - 1);
  }

  lemma DuplicationDivergesAny(o: Options, v: ProposalValue, w: ProposalValue) returns (h: seq<System>)
    requires o.cfg.n >= 2 && o.cfg.crashes && o.cfg.recovery && o.cfg.duplicates && v != w
    requires Stamped(v.clientId) && Stamped(w.clientId)
    ensures IsHistory(o, h) && !Diverge.Replicates(h)
  {
    var n := o.cfg.n;
    var run := AcceptedByCopies(o.cfg, v, w);
    h := MajoritiesDiverge(o, run, Offer(1, n, v, 2 * n), Offer(1, n, w, 2 * n), 1);
  }

  lemma StraysDivergeAny(o: Options, v: ProposalValue, w: ProposalValue) returns (h: seq<System>)
    requires o.cfg.n > 2 && o.cfg.n != 4 && o.cfg.crashes && o.cfg.recovery && !o.cfg.asserts && v != w
    requires Stamped(v.clientId) && Stamped(w.clientId)
    ensures IsHistory(o, h) && !Diverge.Replicates(h)
  {
    var n := o.cfg.n;
    var run := AcceptedByLaggards(o.cfg, v, w);
    h := MajoritiesDiverge(o, run, Offer(1, n, v, 2 * n), Offer(1, n, w, 3 * n), Strays(n) + 1);
  }

  /** Server 0 has learned v, and the whole majority, without logs, has restarted. */
  lemma LearnedAndForgotten(cfg: Config, v: ProposalValue) returns (r: seq<Inst>)
    requires cfg.n >= 2 && cfg.crashes && !cfg.recovery
    ensures IsClientRun(cfg, r) && Unasked(Last(r), cfg.n, Most(cfg.n)) && Last(r).seqno == 1
    ensures Last(r).submitted == {v}
    ensures SentToAll(Last(r), Decision(0, Vote(cfg.n / 2, Offer(1, cfg.n, v, 2 * cfg.n))))
  {
    var n := cfg.n;
    var r0 := StartRun(cfg);
    var r1 := RoundOfAll(cfg, r0, v);
    var r2 := LearnMany(cfg, r1, Offer(1, n, v, 2 * n), 1, Most(n));
    r := ManyCrash(cfg, r2, 0, Most(n));
  }

  lemma ForgettingDivergesAny(o: Options, v: ProposalValue, w: ProposalValue) returns (h: seq<System>)
    requires o.cfg.n >= 2 && o.cfg.crashes && !o.cfg.recovery && v != w
    requires Stamped(v.clientId) && Stamped(w.clientId)
    ensures IsHistory(o, h) && !Diverge.Replicates(h)
  {
    var n := o.cfg.n;
    var m, p := Offer(1, n, v, 2 * n), Offer(1, n, w, 2 * n);
    var r3 := LearnedAndForgotten(o.cfg, v);
    var r4 := RoundOfAll(o.cfg, r3, w);
    var r5 := LearnMany(o.cfg, r4, p, 1, Most(n));
    NewsStays(Last(r3), Last(r4), Last(r5), n, Decision(0, Vote(n / 2, m)), w);
    assert {v} + {w} == {v, w};
    h := TwoHear(o, r5, m, p, n / 2);
  }

  lemma NewsStays(s: Inst, u: Inst, t: Inst, n: nat, news: Message, w: ProposalValue)
    requires |s.nodes| == |u.nodes| == |t.nodes| == n && news.kind.INFORM? && SentToAll(s, news)
    requires KeepsRest(s, u) && KeepsButVotes(u, t, w)
    ensures SentToAll(t, news)
  {
    forall d: nat | d < n ensures Packet(d, news) in t.flight {
      assert Packet(d, news) in s.flight;
    }
  }

  // ---- exactly when, for each size ----

  ghost predicate ReplicatesAlways(o: Options) {
    forall h :: IsHistory(o, h) ==> Diverge.Replicates(h)
  }

  /** Replication, deployment by deployment: the servers' command lists agree over all histories if
      and only if servers do not crash, or the logs are on and either there is one server, or the
      network does not duplicate and the build keeps its assertions or there are two or four. */
  lemma ReplicationOfEach(o: Options)
    requires o.cfg.n > 0
    ensures ReplicatesAlways(o)
       <==> (o.cfg.crashes ==>
               o.cfg.recovery && (o.cfg.n == 1 || (!o.cfg.duplicates && (o.cfg.asserts || Tight(o.cfg.n)))))
  {
    var cfg := o.cfg;
    if cfg.crashes ==> cfg.recovery && (cfg.n == 1 || (!cfg.duplicates && (cfg.asserts || Tight(cfg.n)))) {
      forall h | IsHistory(o, h) ensures Diverge.Replicates(h) {
        ListsAgree(o, h);
      }
    } else {
      SomeHistoryDiverges(o);
    }
  }

  lemma SomeHistoryDiverges(o: Options)
    requires o.cfg.n > 0 && o.cfg.crashes
    requires !(o.cfg.recovery && (o.cfg.n == 1 || (!o.cfg.duplicates && (o.cfg.asserts || Tight(o.cfg.n)))))
    ensures !ReplicatesAlways(o)
  {
    var v, w := ProposalValue(LOCK, 1, 0, 1), ProposalValue(LOCK, 1, 0, 2);
    var h: seq<System>;
    if o.cfg.n == 1 {
      h := Diverge.ForgettingDiverges(o, v, w);
    } else if !o.cfg.recovery {
      h := ForgettingDivergesAny(o, v, w);
    } else if o.cfg.duplicates {
      h := DuplicationDivergesAny(o, v, w);
    } else {
      h := StraysDivergeAny(o, v, w);
    }
  }
}
