/** Who answers whom, over whole histories of any deployment, crashes and all: at every step the
    answers sent are exactly those that the first INFORMs taken call for. */
module Answering {
  import opened Wire
  import opened Roles
  import opened LogFile
  import opened Executor
  import opened Cluster
  import opened Records
  import opened Tellers

  /** The command that action a hands to server i's executor. */
  function Handed(o: Options, c: System, a: Action, i: nat): Option<Message>
    requires CanDo(o, c, a)
  {
    match a
    case Receive(s, p) =>
      var t := c.insts[s];
      if p.dst == i then Dispatch(|t.nodes|, o.cfg.recovery, p.dst, t.nodes[p.dst], p.msg).command else None
    case _ => None
  }

  /** An executor moves by the commands handed to it, and a restart replays the log. */
  lemma EngineMoves(o: Options, c: System, a: Action, i: nat)
    requires CanDo(o, c, a) && i < |c.servers|
    ensures |Do(o, c, a).servers| == |c.servers|
    ensures var e, command := c.servers[i].engine, Handed(o, c, a, i);
            Do(o, c, a).servers[i].engine
            == if a == Reboot(i) then Recover(o, c.servers[i]).engine
               else if command.Some? then TryExecute(o.amo, e, command.value).0
               else e
  {
    match a
    case Receive(s, p) =>
      var t := c.insts[s];
      var e := Dispatch(|t.nodes|, o.cfg.recovery, p.dst, t.nodes[p.dst], p.msg);
      DecideMoves(o.amo, p.dst, LogWrites(o.cfg.recovery, c.servers[p.dst], s, e), e.command);
    case _ =>
  }

  // ---- histories with the actions that made them ----

  ghost predicate TracedAt(o: Options, h: seq<System>, acts: seq<Action>, k: nat) {
    k + 1 < |h| && k < |acts| && CanDo(o, h[k], acts[k]) && h[k + 1] == Do(o, h[k], acts[k])
  }

  ghost predicate Traced(o: Options, h: seq<System>, acts: seq<Action>) {
    && |h| == |acts| + 1 && o.cfg.n > 0 && h[0] == Boot(o)
    && forall k: nat :: k < |acts| ==> TracedAt(o, h, acts, k)
  }

  /** Every history is the history of some actions. */
  lemma {:induction false} HistoryHasTrace(o: Options, h: seq<System>) returns (acts: seq<Action>)
    requires IsHistory(o, h)
    ensures Traced(o, h, acts)
  {
    if |h| == 1 {
      acts := [];
    } else {
      var g := h[..|h| - 1];
      HistoryFront(o, h);
      var front := HistoryHasTrace(o, g);
      var a := ActionAt(o, h, |h| - 1);
      acts := front + [a];
      forall k: nat | k < |acts| ensures TracedAt(o, h, acts, k) {
        if k < |front| {
          assert TracedAt(o, g, front, k);
        }
      }
    }
  }

  lemma {:induction false} ServersStay(o: Options, h: seq<System>, acts: seq<Action>, k: nat)
    requires Traced(o, h, acts) && k < |h|
    ensures |h[k].servers| == o.cfg.n
  {
    if k == 0 {
    } else {
      ServersStay(o, h, acts, k - 1);
      assert TracedAt(o, h, acts, k - 1);
      EngineMoves(o, h[k - 1], acts[k - 1], 0);
    }
  }

  /** What server v's restart takes from its log. */
  function Kept(o: Options, v: Server): map<nat, Message> {
    var l := Reopen(v.learnerFile);
    AllReplayed(l, if o.cfg.recovery then MinFrom(l, 1) else 0)
  }

  /** The commands that server i took, position by position; a restart leaves those of the log. */
  function HeraldsAfter(o: Options, c: System, a: Action, i: nat, who: map<nat, Message>): map<nat, Message>
    requires CanDo(o, c, a) && i < |c.servers|
  {
    var command := Handed(o, c, a, i);
    if a == Reboot(i) then Kept(o, c.servers[i])
    else if command.Some? then Heralds(c.servers[i].engine, who, command.value)
    else who
  }

  ghost function WhoAt(o: Options, h: seq<System>, acts: seq<Action>, i: nat, k: nat): map<nat, Message>
    requires Traced(o, h, acts) && k < |h| && i < o.cfg.n
  {
    if k == 0 then map[]
    else
      assert TracedAt(o, h, acts, k - 1);
      ServersStay(o, h, acts, k - 1);
      HeraldsAfter(o, h[k - 1], acts[k - 1], i, WhoAt(o, h, acts, i, k - 1))
  }

  lemma WhoAfter(o: Options, h: seq<System>, acts: seq<Action>, i: nat, k: nat)
    requires Traced(o, h, acts) && k < |acts| && i < o.cfg.n
    ensures CanDo(o, h[k], acts[k]) && h[k + 1] == Do(o, h[k], acts[k]) && i < |h[k].servers|
    ensures WhoAt(o, h, acts, i, k + 1) == HeraldsAfter(o, h[k], acts[k], i, WhoAt(o, h, acts, i, k))
  {
    assert TracedAt(o, h, acts, k);
    ServersStay(o, h, acts, k);
  }

  ghost predicate GoodTeller(o: Options, c: System, i: nat, who: map<nat, Message>) {
    i < |c.servers| && Follows(o.amo, c.servers[i].engine) && Heralded(c.servers[i].engine, who)
  }

  lemma RecoveredTeller(o: Options, v: Server)
    ensures Follows(o.amo, Recover(o, v).engine) && Heralded(Recover(o, v).engine, Kept(o, v))
  {
    var l := Reopen(v.learnerFile);
    var min := if o.cfg.recovery then MinFrom(l, 1) else 0;
    MinFromIsMin(l, 1);
    ReplayFollows(o.amo, l, min);
    ReplayHeralded(o.amo, l, min, min);
  }

  lemma ActionTells(o: Options, c: System, a: Action, i: nat, who: map<nat, Message>)
    requires CanDo(o, c, a) && GoodTeller(o, c, i, who)
    ensures GoodTeller(o, Do(o, c, a), i, HeraldsAfter(o, c, a, i, who))
    ensures a.Receive? && a.p.dst == i ==>
              && c.servers[i].engine.applied <= Do(o, c, a).servers[i].engine.applied
              && AnswersOf(o, c, a)
                 == ToldFrom(o.amo, i, Do(o, c, a).servers[i].engine.applied, HeraldsAfter(o, c, a, i, who),
                             |c.servers[i].engine.applied|)
  {
    EngineMoves(o, c, a, i);
    if a == Reboot(i) {
      RecoveredTeller(o, c.servers[i]);
    } else if Handed(o, c, a, i).Some? {
      var command := Handed(o, c, a, i).value;
      TryExecuteFollows(o.amo, c.servers[i].engine, command);
      TellsExactly(o.amo, i, c.servers[i].engine, who, command);
    }
  }

  lemma {:induction false} AlwaysGoodTeller(o: Options, h: seq<System>, acts: seq<Action>, i: nat, k: nat)
    requires Traced(o, h, acts) && k < |h| && i < o.cfg.n
    ensures GoodTeller(o, h[k], i, WhoAt(o, h, acts, i, k))
  {
    if k == 0 {
    } else {
      AlwaysGoodTeller(o, h, acts, i, k - 1);
      assert TracedAt(o, h, acts, k - 1);
      ActionTells(o, h[k - 1], acts[k - 1], i, WhoAt(o, h, acts, i, k - 1));
    }
  }

  /** Exactly who is answered, in every history of every deployment. When server i handles a
      message, it answers, in order, each command it newly executes that has a reply and whose
      teller it is: the server named by the first INFORM that i took for the command, or for the
      command it repeats, since i last started. The datagram is under i's own id, and carries the
      sequence of the command whose reply it is. */
  lemma AnswersExactly(o: Options, h: seq<System>, acts: seq<Action>, i: nat, k: nat)
    requires Traced(o, h, acts) && k < |acts| && i < o.cfg.n && acts[k].Receive? && acts[k].p.dst == i
    ensures |h[k].servers| == |h[k + 1].servers| == o.cfg.n && CanDo(o, h[k], acts[k])
    ensures var x, y := h[k].servers[i].engine.applied, h[k + 1].servers[i].engine.applied;
            && x <= y
            && AnswersOf(o, h[k], acts[k]) == ToldFrom(o.amo, i, y, WhoAt(o, h, acts, i, k + 1), |x|)
  {
    ServersStay(o, h, acts, k);
    ServersStay(o, h, acts, k + 1);
    assert TracedAt(o, h, acts, k);
    AlwaysGoodTeller(o, h, acts, i, k);
    ActionTells(o, h[k], acts[k], i, WhoAt(o, h, acts, i, k));
  }

  // ---- a teller is settled until the next restart ----

  /** Server i does not restart between states r and k. */
  predicate StaysOn(acts: seq<Action>, i: nat, r: nat, k: nat) {
    forall j :: r <= j < k && j < |acts| ==> acts[j] != Reboot(i)
  }

  lemma ExecutedGrows(amo: bool, e: Engine, c: Message)
    requires Follows(amo, e)
    ensures e.executed <= TryExecute(amo, e, c).0.executed
  {
    TryExecuteFollows(amo, e, c);
    TryExecuteAnswers(amo, e, c);
  }

  lemma StepSettles(o: Options, c: System, a: Action, i: nat, who: map<nat, Message>, s: nat)
    requires CanDo(o, c, a) && GoodTeller(o, c, i, who) && a != Reboot(i) && s <= c.servers[i].engine.executed
    ensures Herald(HeraldsAfter(o, c, a, i, who), s) == Herald(who, s)
    ensures |Do(o, c, a).servers| == |c.servers|
    ensures c.servers[i].engine.executed <= Do(o, c, a).servers[i].engine.executed
  {
    EngineMoves(o, c, a, i);
    if Handed(o, c, a, i).Some? {
      ExecutedGrows(o.amo, c.servers[i].engine, Handed(o, c, a, i).value);
    }
  }

  lemma {:induction false} HeraldStays(o: Options, h: seq<System>, acts: seq<Action>, i: nat, r: nat, k: nat, s: nat)
    requires Traced(o, h, acts) && r <= k < |h| && i < o.cfg.n && StaysOn(acts, i, r, k)
    requires |h[r].servers| == o.cfg.n && s <= h[r].servers[i].engine.executed
    ensures Herald(WhoAt(o, h, acts, i, k), s) == Herald(WhoAt(o, h, acts, i, r), s)
    ensures |h[k].servers| == o.cfg.n && s <= h[k].servers[i].engine.executed
    decreases k
  {
    if k == r {
    } else {
      HeraldStays(o, h, acts, i, r, k - 1, s);
      assert TracedAt(o, h, acts, k - 1);
      AlwaysGoodTeller(o, h, acts, i, k - 1);
      StepSettles(o, h[k - 1], acts[k - 1], i, WhoAt(o, h, acts, i, k - 1), s);
    }
  }

  /** A repeat of a command that server i had executed by state r, and whose teller then was
      another, is not answered by i while it stays up, however often it comes. */
  lemma SilentWhileUp(o: Options, h: seq<System>, acts: seq<Action>, i: nat, r: nat, k: nat, m: nat)
    requires Traced(o, h, acts) && r <= k < |h| && i < o.cfg.n && StaysOn(acts, i, r, k)
    requires |h[r].servers| == |h[k].servers| == o.cfg.n && m < |h[k].servers[i].engine.applied|
    requires var j := Source(o.amo, h[k].servers[i].engine.applied, m);
             j < h[r].servers[i].engine.executed && Named(WhoAt(o, h, acts, i, r), j + 1) != i
    ensures Told(o.amo, i, h[k].servers[i].engine.applied, WhoAt(o, h, acts, i, k), m) == []
  {
    var j := Source(o.amo, h[k].servers[i].engine.applied, m);
    HeraldStays(o, h, acts, i, r, k, j + 1);
    OthersTellNothing(o.amo, i, h[k].servers[i].engine.applied, WhoAt(o, h, acts, i, k), m);
  }

  lemma OthersTellNothing(amo: bool, i: nat, h: seq<ProposalValue>, who: map<nat, Message>, m: nat)
    requires m < |h| && Named(who, Source(amo, h, m) + 1) != i
    ensures Told(amo, i, h, who, m) == []
  {
  }

  lemma KeptNamesZero(o: Options, v: Server, s: nat)
    ensures Named(Kept(o, v), s) == 0
  {
  }

  /** So a server other than 0 that restarts answers no repeat of what it replayed. */
  lemma RestartSilences(o: Options, h: seq<System>, acts: seq<Action>, i: nat, r: nat, k: nat, m: nat)
    requires Traced(o, h, acts) && r + 1 <= k < |h| && 0 < i < o.cfg.n
    requires acts[r] == Reboot(i) && StaysOn(acts, i, r + 1, k)
    requires |h[r + 1].servers| == |h[k].servers| == o.cfg.n && m < |h[k].servers[i].engine.applied|
    requires Source(o.amo, h[k].servers[i].engine.applied, m) < h[r + 1].servers[i].engine.executed
    ensures Told(o.amo, i, h[k].servers[i].engine.applied, WhoAt(o, h, acts, i, k), m) == []
  {
    assert TracedAt(o, h, acts, r);
    KeptNamesZero(o, h[r].servers[i], Source(o.amo, h[k].servers[i].engine.applied, m) + 1);
    SilentWhileUp(o, h, acts, i, r + 1, k, m);
  }
}
