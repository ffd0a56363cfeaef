/** The server that is named answers. A server that asks, is told the decision in reply, and takes
    that reply first, answers the client as soon as it executes the command, in every history of
    every deployment. */
module Owed {
  import opened Wire
  import opened Endpoint
  import opened Consensus
  import opened LockService
  import opened Executor
  import opened Cluster
  import opened Replies
  import opened Tellers
  import opened Answering
  import opened Signatures

  /** Position s is executed or kept waiting. */
  predicate Covered(e: Engine, s: nat) {
    s <= e.executed || s in e.waiting
  }

  lemma {:induction false} DrainCovers(amo: bool, e: Engine, s: nat)
    requires Covered(e, s)
    ensures Covered(Drain(amo, e).0, s)
    decreases |e.waiting|
  {
    var next := e.executed + 1;
    if next in e.waiting {
      DrainCovers(amo, Advance(amo, e.(waiting := e.waiting - {next}), e.waiting[next]).0, s);
    }
  }

  lemma TryExecuteCovers(amo: bool, e: Engine, c: Message, s: nat)
    requires Covered(e, s) || s == c.sequence
    ensures Covered(TryExecute(amo, e, c).0, s)
  {
    if c.sequence == e.executed + 1 {
      DrainCovers(amo, Advance(amo, e, c).0, s);
    }
  }

  /** While the server stays up, what it has taken it has taken. */
  lemma StepCovers(o: Options, c: System, a: Action, i: nat, who: map<nat, Message>, s: nat)
    requires CanDo(o, c, a) && a != Reboot(i) && i < |c.servers| && Covered(c.servers[i].engine, s)
    ensures |Do(o, c, a).servers| == |c.servers| && Covered(Do(o, c, a).servers[i].engine, s)
    ensures Herald(HeraldsAfter(o, c, a, i, who), s) == Herald(who, s)
  {
    EngineMoves(o, c, a, i);
    if Handed(o, c, a, i).Some? {
      TryExecuteCovers(o.amo, c.servers[i].engine, Handed(o, c, a, i).value, s);
    }
  }

  lemma {:induction false} CoveredStays(o: Options, h: seq<System>, acts: seq<Action>, i: nat, r: nat, k: nat, s: nat)
    requires Traced(o, h, acts) && r <= k < |h| && i < o.cfg.n && StaysOn(acts, i, r, k)
    requires i < |h[r].servers| && Covered(h[r].servers[i].engine, s)
    ensures i < |h[k].servers| && Covered(h[k].servers[i].engine, s)
    ensures Herald(WhoAt(o, h, acts, i, k), s) == Herald(WhoAt(o, h, acts, i, r), s)
    decreases k
  {
    if k == r {
    } else {
      CoveredStays(o, h, acts, i, r, k - 1, s);
      assert TracedAt(o, h, acts, k - 1);
      StepCovers(o, h[k - 1], acts[k - 1], i, WhoAt(o, h, acts, i, k - 1), s);
    }
  }

  /** Server i, whose learner had not heard of position s, takes the INFORM m for it. */
  predicate TakesFirst(o: Options, c: System, a: Action, i: nat, s: nat, m: Message) {
    && CanDo(o, c, a) && a == Receive(s, Packet(i, m)) && m.kind.INFORM?
    && !InformedAt(At(o, c, s), i)
  }

  lemma TakingHands(o: Options, c: System, a: Action, i: nat, s: nat, m: Message)
    requires TakesFirst(o, c, a, i, s, m) && SignedSystem(o, c)
    ensures Handed(o, c, a, i) == Some(m.(kind := COMMAND)) && m.sequence == s && s > 0
  {
    assert SignedInst(o, c.insts[s], s);
  }

  lemma TakingCounts(o: Options, c: System, a: Action, i: nat, s: nat, m: Message, who: map<nat, Message>)
    requires SignedSystem(o, c) && Attends(o, c, i) && GoodTeller(o, c, i, who) && TakesFirst(o, c, a, i, s, m)
    ensures s > 0 && Herald(HeraldsAfter(o, c, a, i, who), s) == m.(kind := COMMAND)
    ensures i < |Do(o, c, a).servers| && Covered(Do(o, c, a).servers[i].engine, s)
  {
    TakingHands(o, c, a, i, s, m);
    HeldIsKnown(o, c, i, s);
    EngineMoves(o, c, a, i);
    TryExecuteCovers(o.amo, c.servers[i].engine, m.(kind := COMMAND), s);
  }

  lemma JustTaken(o: Options, h: seq<System>, acts: seq<Action>, i: nat, k: nat, s: nat, m: Message)
    requires Traced(o, h, acts) && k + 1 < |h| && i < o.cfg.n && TakesFirst(o, h[k], acts[k], i, s, m)
    ensures s > 0 && i < |h[k + 1].servers| && Covered(h[k + 1].servers[i].engine, s)
    ensures Herald(WhoAt(o, h, acts, i, k + 1), s) == m.(kind := COMMAND)
  {
    HistoryIsSigned(o, h, acts, k);
    AlwaysAttends(o, h, acts, i, k);
    AlwaysGoodTeller(o, h, acts, i, k);
    TakingCounts(o, h[k], acts[k], i, s, m, WhoAt(o, h, acts, i, k));
    WhoAfter(o, h, acts, i, k);
  }

  /** What was taken first is what counts from then on. */
  lemma FirstCounts(o: Options, h: seq<System>, acts: seq<Action>, i: nat, k: nat, l: nat, s: nat, m: Message)
    requires Traced(o, h, acts) && k < l < |h| && i < o.cfg.n && StaysOn(acts, i, k, l)
    requires TakesFirst(o, h[k], acts[k], i, s, m)
    ensures s > 0 && Herald(WhoAt(o, h, acts, i, l), s) == m.(kind := COMMAND)
  {
    JustTaken(o, h, acts, i, k, s, m);
    CoveredStays(o, h, acts, i, k + 1, l, s);
  }

  lemma {:induction false} ToldFromHas(amo: bool, id: nat, h: seq<ProposalValue>, who: map<nat, Message>,
                                      k: nat, m: nat)
    requires k <= m < |h|
    ensures forall t :: t in Told(amo, id, h, who, m) ==> t in ToldFrom(amo, id, h, who, k)
    decreases |h| - k
  {
    if k < m {
      ToldFromHas(amo, id, h, who, k + 1, m);
    }
  }

  /** In step l server i executes position s. */
  predicate Executes(h: seq<System>, i: nat, l: nat, s: nat) {
    && l + 1 < |h| && i < |h[l].servers| && i < |h[l + 1].servers|
    && h[l].servers[i].engine.executed < s <= h[l + 1].servers[i].engine.executed
    && s <= |h[l + 1].servers[i].engine.applied|
  }

  /** The client behind command m is told its reply, by server i, for position m + 1. */
  predicate Satisfied(amo: bool, i: nat, g: seq<ProposalValue>, m: nat, number: nat, answers: seq<(Udp4, Message)>)
    requires m < |g| && ReplyTo(amo, g, m).Some?
  {
    var v := ReplyTo(amo, g, m).value;
    (Decode(v.clientId), Message(RESPONSE, m + 1, i, number, v, i)) in answers
  }

  /** Only an INFORM makes a server execute, while it stays up. */
  lemma ExecutesOnReceipt(o: Options, h: seq<System>, acts: seq<Action>, i: nat, l: nat, s: nat)
    requires Traced(o, h, acts) && l < |acts| && Executes(h, i, l, s) && acts[l] != Reboot(i)
    ensures acts[l].Receive? && acts[l].p.dst == i
  {
    assert TracedAt(o, h, acts, l);
    EngineMoves(o, h[l], acts[l], i);
  }

  lemma ToldOnExecuting(o: Options, h: seq<System>, acts: seq<Action>, i: nat, l: nat, s: nat)
    requires Traced(o, h, acts) && l < |acts| && i < o.cfg.n && Executes(h, i, l, s) && acts[l] != Reboot(i)
    ensures CanDo(o, h[l], acts[l])
    ensures var x, y := h[l].servers[i].engine.executed, h[l + 1].servers[i].engine.applied;
            x <= |y| && AnswersOf(o, h[l], acts[l]) == ToldFrom(o.amo, i, y, WhoAt(o, h, acts, i, l + 1), x)
  {
    ExecutesOnReceipt(o, h, acts, i, l, s);
    AnswersExactly(o, h, acts, i, l);
    AlwaysGoodTeller(o, h, acts, i, l);
  }

  lemma NamedIsTold(amo: bool, i: nat, g: seq<ProposalValue>, who: map<nat, Message>, k: nat, m: nat, number: nat)
    requires k <= m < |g| && ReplyTo(amo, g, m).Some? && Source(amo, g, m) == m
    requires Herald(who, m + 1).extra == i && Herald(who, m + 1).number == number
    ensures Satisfied(amo, i, g, m, number, ToldFrom(amo, i, g, who, k))
  {
    ToldFromHas(amo, i, g, who, k, m);
    var v := ReplyTo(amo, g, m).value;
    assert (Decode(v.clientId), Message(RESPONSE, m + 1, i, number, v, i)) in Told(amo, i, g, who, m);
  }

  /** Whoever takes an INFORM that names it, before any other for that position, and stays up, tells
      the client when it executes the command, provided there is a reply and it is no repeat. */
  lemma NamedAnswers(o: Options, h: seq<System>, acts: seq<Action>, i: nat, k: nat, l: nat, s: nat, m: Message)
    requires Traced(o, h, acts) && k <= l < |acts| && i < o.cfg.n && StaysOn(acts, i, k, l + 1)
    requires TakesFirst(o, h[k], acts[k], i, s, m) && m.extra == i && Executes(h, i, l, s)
    requires s > 0 && ReplyTo(o.amo, h[l + 1].servers[i].engine.applied, s - 1).Some?
    requires Source(o.amo, h[l + 1].servers[i].engine.applied, s - 1) == s - 1
    ensures CanDo(o, h[l], acts[l])
    ensures Satisfied(o.amo, i, h[l + 1].servers[i].engine.applied, s - 1, m.number, AnswersOf(o, h[l], acts[l]))
  {
    FirstCounts(o, h, acts, i, k, l + 1, s, m);
    ToldOnExecuting(o, h, acts, i, l, s);
    NamedIsTold(o.amo, i, h[l + 1].servers[i].engine.applied, WhoAt(o, h, acts, i, l + 1),
                h[l].servers[i].engine.executed, s - 1, m.number);
  }

  /** In step j an informed server handles the request p that server i sent for position s, and r is
      what it sends. */
  predicate RepliesTo(o: Options, c: System, a: Action, i: nat, s: nat, p: Packet, r: Packet) {
    && CanDo(o, c, a) && a == Receive(s, p) && IsRequest(p.msg) && p.msg.fromId == i
    && InformedAt(c.insts[s], p.dst) && r in Out(o.cfg, c.insts[s], Deliver(p))
  }

  /** A server that asked, and takes the reply of an informed server first, answers the client. */
  lemma AskerAnswers(o: Options, h: seq<System>, acts: seq<Action>, i: nat, j: nat, k: nat, l: nat, s: nat,
                     p: Packet, r: Packet)
    requires Traced(o, h, acts) && j < k <= l < |acts| && i < o.cfg.n && StaysOn(acts, i, k, l + 1)
    requires RepliesTo(o, h[j], acts[j], i, s, p, r)
    requires acts[k] == Receive(s, r) && !InformedAt(At(o, h[k], s), i) && Executes(h, i, l, s)
    requires s > 0 && ReplyTo(o.amo, h[l + 1].servers[i].engine.applied, s - 1).Some?
    requires Source(o.amo, h[l + 1].servers[i].engine.applied, s - 1) == s - 1
    ensures r.dst == i && CanDo(o, h[l], acts[l])
    ensures Satisfied(o.amo, i, h[l + 1].servers[i].engine.applied, s - 1, r.msg.number, AnswersOf(o, h[l], acts[l]))
  {
    InformedAnswers(o.cfg, h[j].insts[s], p);
    assert TracedAt(o, h, acts, k) && r == Packet(i, r.msg);
    NamedAnswers(o, h, acts, i, k, l, s, r.msg);
  }
}
