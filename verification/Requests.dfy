/** What clients asked for, read off the actions of a history: every request is stamped with the
    address it came from and proposed as it was sent, every executed command and every answer goes
    back to one (src/server.cpp:182-216, 332-358). */
module Requests {
  import opened Wire
  import opened Endpoint
  import opened Roles
  import opened Consensus
  import opened LockService
  import opened Cluster
  import opened Records
  import opened Tellers
  import opened Answering
  import opened Signatures
  import Honest

  /** Value v is what the client behind action a asked for, under its own address. */
  predicate IsRequestOf(a: Action, v: ProposalValue) {
    && a.Client?
    && v.operation == a.m.value.operation && v.target == a.m.value.target
    && v.clientOnce == a.m.value.clientOnce && v.clientId == Encode(a.from)
  }

  /** Some client asked for v before state k. */
  ghost predicate Requested(acts: seq<Action>, k: nat, v: ProposalValue) {
    exists j :: 0 <= j < k && j < |acts| && IsRequestOf(acts[j], v)
  }

  lemma ClientsAfter(o: Options, c: System, a: Action, v: ProposalValue)
    requires SignedSystem(o, c) && CanDo(o, c, a)
    ensures v in Do(o, c, a).clients <==> v in c.clients || IsRequestOf(a, v)
  {
    match a
    case Client(i, from, m) => ClientShape(o, c, i, from, m);
    case Resubmit(i, m) => ResubmitShape(o, c, i, m);
    case Reboot(i) => RebootSigned(o, c, i);
    case _ =>
  }

  /** The clients' values that the system remembers are exactly those asked for. */
  lemma {:induction false} ClientsAsked(o: Options, h: seq<System>, acts: seq<Action>, k: nat, v: ProposalValue)
    requires Traced(o, h, acts) && k < |h|
    ensures v in h[k].clients <==> Requested(acts, k, v)
  {
    if k == 0 {
    } else {
      ClientsAsked(o, h, acts, k - 1, v);
      HistoryIsSigned(o, h, acts, k - 1);
      assert TracedAt(o, h, acts, k - 1);
      ClientsAfter(o, h[k - 1], acts[k - 1], v);
      RequestedAfter(acts, k, v);
    }
  }

  lemma RequestedAfter(acts: seq<Action>, k: nat, v: ProposalValue)
    requires 0 < k <= |acts|
    ensures Requested(acts, k, v) <==> Requested(acts, k - 1, v) || IsRequestOf(acts[k - 1], v)
  {
    if Requested(acts, k - 1, v) {
      var j :| 0 <= j < k - 1 && IsRequestOf(acts[j], v);
      assert IsRequestOf(acts[j], v);
    }
  }

  // ---- a request is proposed as it was sent ----

  predicate OnlyAt(o: Options, c: System, d: System, s: nat) {
    forall r :: r in c.insts.Keys + d.insts.Keys && r != s ==> At(o, d, r) == At(o, c, r)
  }

  /** Every server is asked by server i for a promise for v, and i's timer will ask for the same. */
  predicate EverybodyIsAsked(n: nat, t: Inst, u: Inst, i: nat, v: ProposalValue, extra: nat) {
    && i < |t.nodes| == |u.nodes| == n
    && var ask := Message(PREPARE, t.seqno, i, t.nodes[i].proposer.current + n, v, extra);
    u.flight == t.flight + multiset(Broadcast(n, ask)) && u.nodes[i].timer == Some(ask)
  }

  /** From c to d server i proposes v for the position after the last it executed, and does nothing
      to any other position. */
  predicate Proposes(o: Options, c: System, d: System, i: nat, v: ProposalValue, extra: nat) {
    && i < |c.servers|
    && var s := c.servers[i].engine.executed + 1;
    At(o, c, s).seqno == s && EverybodyIsAsked(o.cfg.n, At(o, c, s), At(o, d, s), i, v, extra) && OnlyAt(o, c, d, s)
  }

  lemma SubmissionAsks(cfg: Config, t: Inst, i: nat, m: Message)
    requires Enabled(cfg, t, Submission(i, m)) && !Decided(t.nodes[i].learner)
    ensures EverybodyIsAsked(|t.nodes|, t, Apply(cfg, t, Submission(i, m)), i, m.value, m.extra)
  {
  }

  lemma SubmissionGoesOut(o: Options, x: System, i: nat, m: Message)
    requires SignedSystem(o, x) && i < |x.servers| && SubmitOpen(o, x, i)
    ensures Proposes(o, x, SubmitAt(o, x, i, m), i, m.value, m.extra)
  {
    var s := NextSlot(x, i);
    AtIsSigned(o, x, s);
    SubmitParts(o, x, i, m);
    SubmissionAsks(o.cfg, At(o, x, s), i, ToSlot(m, s));
  }

  lemma ProposesAlike(o: Options, c: System, x: System, d: System, i: nat, v: ProposalValue, extra: nat)
    requires Proposes(o, x, d, i, v, extra) && x.insts == c.insts && i < |c.servers|
    requires c.servers[i].engine == x.servers[i].engine
    ensures Proposes(o, c, d, i, v, extra)
  {
  }

  /** A client's request is proposed as it was sent, under the client's own address. */
  lemma RequestGoesOut(o: Options, c: System, a: Action, v: ProposalValue)
    requires SignedSystem(o, c) && CanDo(o, c, a) && IsRequestOf(a, v)
    ensures Proposes(o, c, Do(o, c, a), a.i, v, a.m.extra)
  {
    ClientShape(o, c, a.i, a.from, a.m);
    var w := Stamp(a.from, a.m);
    var x := c.(clients := c.clients + {w.value});
    SubmissionGoesOut(o, x, a.i, w);
    ProposesAlike(o, c, x, Do(o, c, a), a.i, v, a.m.extra);
  }

  /** A resubmission goes out the same way, with the value it was queued with. */
  lemma ResubmissionGoesOut(o: Options, c: System, i: nat, m: Message)
    requires SignedSystem(o, c) && CanDo(o, c, Resubmit(i, m))
    ensures Proposes(o, c, Do(o, c, Resubmit(i, m)), i, m.value, m.extra)
  {
    var v := c.servers[i];
    var x := SetServer(c, i, v.(resubmits := v.resubmits - multiset{m}, expected := v.expected - {m.sequence}));
    ResubmitShape(o, c, i, m);
    SubmissionGoesOut(o, x, i, m);
    ProposesAlike(o, c, x, Do(o, c, Resubmit(i, m)), i, m.value, m.extra);
  }

  // ---- every executed command was asked for ----

  ghost predicate OnlyRequested(h: seq<System>, acts: seq<Action>) {
    forall k: nat, i: nat, m: nat ::
      k < |h| && i < |h[k].servers| && m < |h[k].servers[i].engine.applied|
      ==> Requested(acts, k, h[k].servers[i].engine.applied[m])
  }

  lemma RequestedIsHonest(o: Options, h: seq<System>, acts: seq<Action>)
    requires Traced(o, h, acts)
    ensures OnlyRequested(h, acts) <==> Honest.OnlyClients(h)
  {
    forall k: nat, i: nat, m: nat | k < |h| && i < |h[k].servers| && m < |h[k].servers[i].engine.applied|
      ensures var v := h[k].servers[i].engine.applied[m]; Requested(acts, k, v) <==> v in h[k].clients
    {
      ClientsAsked(o, h, acts, k, h[k].servers[i].engine.applied[m]);
    }
  }

  ghost predicate AlwaysRequested(o: Options) {
    forall h, acts :: Traced(o, h, acts) ==> OnlyRequested(h, acts)
  }

  /** Deployment by deployment: every command that any server executes was asked for earlier, by a
      client at the very address it carries, if and only if servers do not crash or the build keeps
      its assertions. */
  lemma RequestedOfEach(o: Options)
    requires o.cfg.n > 0
    ensures AlwaysRequested(o) <==> (o.cfg.crashes ==> o.cfg.asserts)
  {
    Honest.OnlyClientsOfEach(o);
    if Honest.AlwaysHonest(o) {
      forall h, acts | Traced(o, h, acts) ensures OnlyRequested(h, acts) {
        TracedIsHistory(o, h, acts);
        RequestedIsHonest(o, h, acts);
      }
    } else {
      var h :| IsHistory(o, h) && !Honest.OnlyClients(h);
      var acts := HistoryHasTrace(o, h);
      RequestedIsHonest(o, h, acts);
    }
  }

  // ---- every answer was asked for ----

  /** A reply has the outcome in place of the operation of the command it answers, and is the same
      for a repeat. */
  lemma ReplyIsToSource(amo: bool, h: seq<ProposalValue>, m: nat)
    requires m < |h| && ReplyTo(amo, h, m).Some?
    ensures var j := Source(amo, h, m); j <= m && ReplyTo(amo, h, j) == ReplyTo(amo, h, m)
    ensures var v, r := h[Source(amo, h, m)], ReplyTo(amo, h, m).value;
            r.(operation := v.operation) == v && (v.operation.LOCK? || v.operation.UNLOCK?)
  {
    SourceIsInside(amo, h, m);
    if Guarded(amo, h[m]) && Answered(h[..m], KeyOf(h[m])) {
      FirstIsFirst(h[..m], KeyOf(h[m]));
      var j := FirstOf(h[..m], KeyOf(h[m]));
      assert h[..m][..j] == h[..j];
      RepeatsAnswerAlike(h, j, m);
      FirstReply(amo, h, j);
    } else {
      FirstReply(amo, h, m);
    }
  }

  lemma FirstReply(amo: bool, h: seq<ProposalValue>, m: nat)
    requires m < |h| && ReplyTo(amo, h, m).Some? && !(Guarded(amo, h[m]) && Answered(h[..m], KeyOf(h[m])))
    ensures var v, r := h[m], ReplyTo(amo, h, m).value;
            r.(operation := v.operation) == v && (v.operation.LOCK? || v.operation.UNLOCK?)
  {
    if amo {
      RepliesAreAnswers(h[..m], KeyOf(h[m]));
    }
  }

  lemma {:induction false} FirstIsFirst(h: seq<ProposalValue>, key: Key)
    requires Answered(h, key)
    ensures var j := FirstOf(h, key);
            j < |h| && Guarded(true, h[j]) && Cacheable(h[j]) && KeyOf(h[j]) == key && !Answered(h[..j], key)
  {
    var g := h[..|h| - 1];
    if Answered(g, key) {
      FirstIsFirst(g, key);
      assert g[..FirstOf(g, key)] == h[..FirstOf(g, key)];
    }
  }

  lemma InJoin<T>(a: seq<T>, b: seq<T>, x: T)
    requires x in a + b && x !in a
    ensures x in b
  {
  }

  lemma {:induction false} ToldIsFrom(amo: bool, id: nat, h: seq<ProposalValue>, who: map<nat, Message>, k: nat,
                                     x: (Udp4, Message))
    returns (m: nat)
    requires k <= |h| && x in ToldFrom(amo, id, h, who, k)
    ensures k <= m < |h| && x in Told(amo, id, h, who, m)
    decreases |h| - k
  {
    assert k < |h|;
    var a, b := Told(amo, id, h, who, k), ToldFrom(amo, id, h, who, k + 1);
    assert ToldFrom(amo, id, h, who, k) == a + b;
    if x in a {
      m := k;
    } else {
      InJoin(a, b, x);
      m := ToldIsFrom(amo, id, h, who, k + 1, x);
    }
  }

  /** Datagram r to address `to` answers the request of action a: it goes to where the request came
      from, and repeats its object and counter. */
  predicate AnswersRequest(a: Action, to: Udp4, r: Message) {
    && a.Client? && a.from == to && r.kind.RESPONSE?
    && IsRequestOf(a, r.value.(operation := a.m.value.operation))
    && (a.m.value.operation.LOCK? || a.m.value.operation.UNLOCK?)
  }

  ghost predicate WasAsked(acts: seq<Action>, k: nat, to: Udp4, r: Message) {
    exists j :: 0 <= j < k && j < |acts| && AnswersRequest(acts[j], to, r)
  }

  lemma ToldAnswers(amo: bool, i: nat, g: seq<ProposalValue>, who: map<nat, Message>, m: nat, x: (Udp4, Message),
                    a: Action)
    requires m < |g| && x in Told(amo, i, g, who, m) && Source(amo, g, m) < |g|
    requires IsRequestOf(a, g[Source(amo, g, m)])
    ensures AnswersRequest(a, x.0, x.1) && x.1.fromId == i
  {
    ReplyIsToSource(amo, g, m);
    RoundTrip(a.from);
  }

  lemma ToldWasAsked(amo: bool, i: nat, g: seq<ProposalValue>, who: map<nat, Message>, m: nat, x: (Udp4, Message),
                     acts: seq<Action>, k: nat)
    requires m < |g| && x in Told(amo, i, g, who, m) && Source(amo, g, m) < |g|
    requires Requested(acts, k, g[Source(amo, g, m)])
    ensures WasAsked(acts, k, x.0, x.1) && x.1.fromId == i
  {
    var j :| 0 <= j < k && j < |acts| && IsRequestOf(acts[j], g[Source(amo, g, m)]);
    ToldAnswers(amo, i, g, who, m, x, acts[j]);
  }

  lemma SourceIsInside(amo: bool, h: seq<ProposalValue>, m: nat)
    requires m < |h|
    ensures Source(amo, h, m) < |h|
  {
    if Guarded(amo, h[m]) && Answered(h[..m], KeyOf(h[m])) {
      FirstIsInside(h[..m], KeyOf(h[m]));
    }
  }

  /** Every answer ever sent goes to a client that asked, and repeats what it asked for. */
  lemma EveryAnswerWasAsked(o: Options, h: seq<System>, acts: seq<Action>, k: nat, x: (Udp4, Message))
    requires Traced(o, h, acts) && (o.cfg.crashes ==> o.cfg.asserts) && k < |acts|
    requires CanDo(o, h[k], acts[k]) && x in AnswersOf(o, h[k], acts[k])
    ensures acts[k].Receive? && WasAsked(acts, k, x.0, x.1) && x.1.fromId == acts[k].p.dst
  {
    var i := acts[k].p.dst;
    HistoryIsSigned(o, h, acts, k);
    AnswersExactly(o, h, acts, i, k);
    RequestedOfEach(o);
    var y, who := h[k + 1].servers[i].engine.applied, WhoAt(o, h, acts, i, k + 1);
    var m := ToldIsFrom(o.amo, i, y, who, |h[k].servers[i].engine.applied|, x);
    SourceIsInside(o.amo, y, m);
    assert Requested(acts, k + 1, y[Source(o.amo, y, m)]);
    RequestedAfter(acts, k + 1, y[Source(o.amo, y, m)]);
    ToldWasAsked(o.amo, i, y, who, m, x, acts, k);
  }
}
