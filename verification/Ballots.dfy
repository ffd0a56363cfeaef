/** What a learner has counted, read off the events of a run, in every deployment: the votes handled
    since the server last started, for the highest number among them. */
module Ballots {
  import opened Wire
  import opened Roles
  import opened Consensus
  import opened Tallies

  predicate HandsVote(e: Event, i: nat) {
    e.Deliver? && e.p.dst == i && e.p.msg.kind.ACCEPTED?
  }

  /** The state in which server i last started. */
  function LastStart(evs: seq<Event>, i: nat, k: nat): (r: nat)
    requires k <= |evs|
    ensures r <= k
  {
    if k == 0 then 0 else if evs[k - 1] == Crash(i) then k else LastStart(evs, i, k - 1)
  }

  /** Whose votes for number b server i handled from step r on, before step k. */
  function Voters(evs: seq<Event>, i: nat, b: nat, r: nat, k: nat): set<nat> {
    set j: nat | r <= j < k && j < |evs| && HandsVote(evs[j], i) && evs[j].p.msg.number == b :: evs[j].p.msg.fromId
  }

  predicate NoVoteAbove(evs: seq<Event>, i: nat, r: nat, k: nat, b: nat) {
    forall j: nat :: r <= j < k && j < |evs| && HandsVote(evs[j], i) ==> evs[j].p.msg.number <= b
  }

  /** The first of these votes for number b was for value v. */
  predicate FirstVote(evs: seq<Event>, i: nat, r: nat, k: nat, b: nat, v: ProposalValue) {
    exists j: nat :: r <= j < k && j < |evs| && HandsVote(evs[j], i) && evs[j].p.msg.number == b
                     && evs[j].p.msg.value == v && Voters(evs, i, b, r, j) == {}
  }

  /** Learner l has counted exactly the votes of steps r to k. */
  predicate HasTallied(l: LearnerState, evs: seq<Event>, i: nat, r: nat, k: nat) {
    && NoVoteAbove(evs, i, r, k, l.number) && l.accepted == Voters(evs, i, l.number, r, k)
    && (if l.number == 0 then l.value == NO_VALUE else FirstVote(evs, i, r, k, l.number, l.value))
  }

  /** An undecided learner has counted every vote and they are no majority; one that learned has
      counted those up to some step, and they are one. */
  ghost predicate Tells(n: nat, l: LearnerState, evs: seq<Event>, i: nat, r: nat, k: nat) {
    && (!Decided(l) ==> HasTallied(l, evs, i, r, k) && |l.accepted| * 2 <= n)
    && (l.learned && !l.informed ==>
          |l.accepted| * 2 > n && exists m: nat :: r <= m <= k && HasTallied(l, evs, i, r, m))
  }

  lemma VotersNext(evs: seq<Event>, i: nat, b: nat, r: nat, k: nat)
    requires r <= k < |evs|
    ensures Voters(evs, i, b, r, k + 1)
            == Voters(evs, i, b, r, k)
               + if HandsVote(evs[k], i) && evs[k].p.msg.number == b then {evs[k].p.msg.fromId} else {}
  {
  }

  lemma VotersAbove(evs: seq<Event>, i: nat, b: nat, r: nat, k: nat, c: nat)
    requires NoVoteAbove(evs, i, r, k, b) && b < c
    ensures Voters(evs, i, c, r, k) == {}
  {
  }

  lemma FirstVoteStays(evs: seq<Event>, i: nat, r: nat, k: nat, b: nat, v: ProposalValue)
    requires FirstVote(evs, i, r, k, b, v)
    ensures FirstVote(evs, i, r, k + 1, b, v)
  {
    var j: nat :| r <= j < k && j < |evs| && HandsVote(evs[j], i) && evs[j].p.msg.number == b
                  && evs[j].p.msg.value == v && Voters(evs, i, b, r, j) == {};
    assert j < k + 1;
  }

  /** A vote counts, restarts the count, or is too old. */
  predicate CountsVote(l: LearnerState, k: LearnerState, m: Message) {
    if m.number < l.number then k == l
    else if m.number == l.number then
      k.number == l.number && k.value == l.value && k.accepted == l.accepted + {m.fromId}
    else k.number == m.number && k.value == m.value && k.accepted == {m.fromId}
  }

  lemma OneMoreVote(l: LearnerState, y: LearnerState, evs: seq<Event>, i: nat, r: nat, k: nat)
    requires r <= k < |evs| && HasTallied(l, evs, i, r, k)
    requires HandsVote(evs[k], i) && CountsVote(l, y, evs[k].p.msg)
    ensures HasTallied(y, evs, i, r, k + 1)
  {
    var m := evs[k].p.msg;
    VotersNext(evs, i, y.number, r, k);
    if m.number > l.number {
      VotersAbove(evs, i, l.number, r, k, m.number);
      assert FirstVote(evs, i, r, k + 1, y.number, y.value);
    } else if l.number > 0 {
      FirstVoteStays(evs, i, r, k, l.number, l.value);
    }
  }

  lemma NoVote(l: LearnerState, evs: seq<Event>, i: nat, r: nat, k: nat)
    requires r <= k < |evs| && HasTallied(l, evs, i, r, k) && !HandsVote(evs[k], i)
    ensures HasTallied(l, evs, i, r, k + 1)
  {
    VotersNext(evs, i, l.number, r, k);
    if l.number > 0 {
      FirstVoteStays(evs, i, r, k, l.number, l.value);
    }
  }

  /** What one message makes of a learner that has not been informed. */
  lemma DispatchTallies(n: nat, recovery: bool, id: nat, x: Node, m: Message)
    requires !x.learner.informed
    ensures var l, y := x.learner, Dispatch(n, recovery, id, x, m).node.learner;
            && (m.kind.ACCEPTED? && !l.learned ==>
                  CountsVote(l, y, m) && !y.informed && (y.learned ==> |y.accepted| * 2 > n)
                  && (!y.learned ==> |y.accepted| * 2 <= n || y == l))
            && (!m.kind.ACCEPTED? || l.learned ==> y == l || y.informed)
  {
  }

  lemma EventTallies(cfg: Config, s: Inst, e: Event, i: nat)
    requires Enabled(cfg, s, e) && e != Crash(i) && i < |s.nodes| && !(e.Deliver? && e.p.dst == i)
    ensures Apply(cfg, s, e).nodes[i].learner == s.nodes[i].learner
  {
  }

  ghost predicate TellsAt(cfg: Config, run: seq<Inst>, evs: seq<Event>, i: nat, k: nat) {
    && k < |run| && |run| == |evs| + 1 && i < |run[k].nodes|
    && Tells(cfg.n, run[k].nodes[i].learner, evs, i, LastStart(evs, i, k), k)
  }

  lemma SameLearner(n: nat, l: LearnerState, evs: seq<Event>, i: nat, r: nat, k: nat)
    requires r <= k < |evs| && Tells(n, l, evs, i, r, k) && (HandsVote(evs[k], i) ==> Decided(l))
    ensures Tells(n, l, evs, i, r, k + 1)
  {
    if !Decided(l) {
      NoVote(l, evs, i, r, k);
    }
  }

  lemma VoteTells(n: nat, l: LearnerState, y: LearnerState, evs: seq<Event>, i: nat, r: nat, k: nat)
    requires r <= k < |evs| && Tells(n, l, evs, i, r, k) && !Decided(l) && HandsVote(evs[k], i)
    requires CountsVote(l, y, evs[k].p.msg) && !y.informed && (y.learned ==> |y.accepted| * 2 > n)
    requires !y.learned ==> |y.accepted| * 2 <= n || y == l
    ensures Tells(n, y, evs, i, r, k + 1)
  {
    OneMoreVote(l, y, evs, i, r, k);
  }

  lemma StepTells(cfg: Config, run: seq<Inst>, evs: seq<Event>, i: nat, k: nat)
    requires TellsAt(cfg, run, evs, i, k) && TraceAt(cfg, run, evs, k) && |run[k].nodes| == cfg.n
    ensures TellsAt(cfg, run, evs, i, k + 1)
  {
    var l, y, r := run[k].nodes[i].learner, run[k + 1].nodes[i].learner, LastStart(evs, i, k);
    if evs[k] == Crash(i) {
      assert Voters(evs, i, 0, k + 1, k + 1) == {};
    } else if evs[k].Deliver? && evs[k].p.dst == i && !l.informed {
      DispatchTallies(cfg.n, cfg.recovery, i, run[k].nodes[i], evs[k].p.msg);
      if HandsVote(evs[k], i) && !l.learned {
        VoteTells(cfg.n, l, y, evs, i, r, k);
      } else if y == l {
        SameLearner(cfg.n, l, evs, i, r, k);
      }
    } else if !(evs[k].Deliver? && evs[k].p.dst == i) {
      EventTallies(cfg, run[k], evs[k], i);
      SameLearner(cfg.n, l, evs, i, r, k);
    } else {
      InformedStays(cfg, run[k], evs[k]);
    }
  }

  lemma InformedStays(cfg: Config, s: Inst, e: Event)
    requires Enabled(cfg, s, e) && e.Deliver? && s.nodes[e.p.dst].learner.informed
    ensures Apply(cfg, s, e).nodes[e.p.dst].learner == s.nodes[e.p.dst].learner
  {
  }

  /** Exactly what a learner has counted, in every run of every deployment. While it is undecided its
      number is the highest voted for since it started, its value that of the first such vote, and its
      bits are the senders of all of them and no majority; when it has learned they are one. */
  lemma {:induction false} TalliesExactly(cfg: Config, run: seq<Inst>, evs: seq<Event>, i: nat, k: nat)
    requires IsTrace(cfg, run, evs) && k < |run| && i < cfg.n
    ensures TellsAt(cfg, run, evs, i, k)
  {
    TraceIsRun(cfg, run, evs);
    if k == 0 {
      assert Voters(evs, i, 0, 0, 0) == {};
    } else {
      TalliesExactly(cfg, run, evs, i, k - 1);
      assert TraceAt(cfg, run, evs, k - 1);
      StepTells(cfg, run, evs, i, k - 1);
    }
  }
}
