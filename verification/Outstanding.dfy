/** What servers expect and queue, exactly, in every history of every deployment. */
module Outstanding {
  import opened Wire
  import opened Roles
  import opened LogFile
  import opened Executor
  import opened Cluster
  import opened Records
  import opened Tellers
  import opened Answering
  import opened Signatures
  import opened Expecting

  // ---- responses are under the id of the server they name ----

  predicate OwnEngine(e: Engine) {
    && (forall s :: s in e.waiting ==> e.waiting[s].fromId == e.waiting[s].extra)
    && forall k :: k in e.cache && e.cache[k].Some? ==> e.cache[k].value.fromId == e.cache[k].value.extra
  }

  lemma AdvanceOwn(amo: bool, e: Engine, c: Message)
    requires OwnEngine(e) && c.fromId == c.extra
    ensures OwnEngine(Advance(amo, e, c).0) && OwnNames(Advance(amo, e, c).1)
  {
  }

  lemma {:induction false} DrainOwn(amo: bool, e: Engine)
    requires OwnEngine(e)
    ensures OwnEngine(Drain(amo, e).0) && OwnNames(Drain(amo, e).1)
    decreases |e.waiting|
  {
    var next := e.executed + 1;
    if next in e.waiting {
      AdvanceOwn(amo, e.(waiting := e.waiting - {next}), e.waiting[next]);
      DrainOwn(amo, Advance(amo, e.(waiting := e.waiting - {next}), e.waiting[next]).0);
    }
  }

  lemma TryExecuteOwn(amo: bool, e: Engine, c: Message)
    requires OwnEngine(e) && c.fromId == c.extra
    ensures OwnEngine(TryExecute(amo, e, c).0) && OwnNames(TryExecute(amo, e, c).1)
  {
    if c.sequence == e.executed + 1 {
      AdvanceOwn(amo, e, c);
      DrainOwn(amo, Advance(amo, e, c).0);
    }
  }

  lemma {:induction false} ReplayOwn(amo: bool, f: File<Informed>, k: nat)
    requires forall i :: 1 <= i <= k ==> Logged(f, i)
    ensures OwnEngine(Replay(amo, f, k))
  {
    if k == 0 {
    } else {
      ReplayOwn(amo, f, k - 1);
      ReplayStep(amo, f, k);
      AdvanceOwn(amo, Replay(amo, f, k - 1), Replayed(k, f.slots[k].state));
    }
  }

  lemma HandedIsOwn(o: Options, c: System, a: Action, i: nat)
    requires SignedSystem(o, c) && CanDo(o, c, a) && Handed(o, c, a, i).Some?
    ensures var m := Handed(o, c, a, i).value; m.fromId == m.extra
  {
    match a
    case Receive(s, p) => assert SignedInst(o, c.insts[s], s);
    case _ =>
  }

  lemma ActionOwn(o: Options, c: System, a: Action, i: nat)
    requires SignedSystem(o, c) && CanDo(o, c, a) && i < |c.servers| && OwnEngine(c.servers[i].engine)
    ensures i < |Do(o, c, a).servers| && OwnEngine(Do(o, c, a).servers[i].engine)
  {
    EngineMoves(o, c, a, i);
    if a == Reboot(i) {
      var l := Reopen(c.servers[i].learnerFile);
      MinFromIsMin(l, 1);
      ReplayOwn(o.amo, l, if o.cfg.recovery then MinFrom(l, 1) else 0);
    } else if Handed(o, c, a, i).Some? {
      HandedIsOwn(o, c, a, i);
      TryExecuteOwn(o.amo, c.servers[i].engine, Handed(o, c, a, i).value);
    }
  }

  lemma {:induction false} AlwaysOwn(o: Options, h: seq<System>, acts: seq<Action>, i: nat, k: nat)
    requires Traced(o, h, acts) && k < |h| && i < o.cfg.n
    ensures i < |h[k].servers| && OwnEngine(h[k].servers[i].engine)
  {
    if k == 0 {
    } else {
      AlwaysOwn(o, h, acts, i, k - 1);
      HistoryIsSigned(o, h, acts, k - 1);
      assert TracedAt(o, h, acts, k - 1);
      ActionOwn(o, h[k - 1], acts[k - 1], i);
    }
  }

  // ---- one action ----

  /** What a received packet makes of server i's expectations and queue. */
  lemma ReceiptMoves(o: Options, c: System, a: Action, i: nat)
    requires CanDo(o, c, a) && i < |c.servers| && a.Receive? && a.p.dst == i
    ensures i < |Do(o, c, a).servers|
    ensures var v, w, command := c.servers[i], Do(o, c, a).servers[i], Handed(o, c, a, i);
            var rs := if command.Some? then TryExecute(o.amo, v.engine, command.value).1 else [];
            && AnswersOf(o, c, a) == AnswersSent(i, rs)
            && exists x: Server :: x.expected == v.expected && x.resubmits == v.resubmits
                                   && w == RespondAll(i, x, rs)
  {
    var t := c.insts[a.s];
    var e := Dispatch(|t.nodes|, o.cfg.recovery, i, t.nodes[i], a.p.msg);
    var x := LogWrites(o.cfg.recovery, c.servers[i], a.s, e);
    LogWritesKeeps(o.cfg.recovery, c.servers[i], a.s, e);
    if e.command.Some? {
      var y := x.(engine := TryExecute(o.amo, x.engine, e.command.value).0);
      assert y.expected == c.servers[i].expected && y.resubmits == c.servers[i].resubmits;
    }
  }

  /** From e to f: what is expected at s stays unless it is settled, and gives way to nothing. */
  predicate Expects(e: map<nat, ProposalValue>, f: map<nat, ProposalValue>, s: nat, settled: bool,
                    submitted: Option<ProposalValue>)
  {
    && (s in f <==> (s in e && !settled) || submitted.Some?)
    && (s in e && !settled ==> s in f && f[s] == e[s])
    && ((s !in e || settled) && submitted.Some? ==> s in f && f[s] == submitted.value)
  }

  /** What action a submits at server i for position s. */
  function SubmittedAt(c: System, a: Action, i: nat, s: nat): Option<ProposalValue> {
    if Submits(c, a, i, s) then Some(Submitted(a)) else None
  }

  lemma ClientExpects(o: Options, c: System, a: Action, i: nat, s: nat)
    requires CanDo(o, c, a) && i < |c.servers| && a.Client?
    ensures i < |Do(o, c, a).servers|
    ensures Expects(c.servers[i].expected, Do(o, c, a).servers[i].expected, s, false, SubmittedAt(c, a, i, s))
  {
    ClientShape(o, c, a.i, a.from, a.m);
    SubmitParts(o, c.(clients := c.clients + {Stamp(a.from, a.m).value}), a.i, Stamp(a.from, a.m));
  }

  lemma ResubmitExpects(o: Options, c: System, a: Action, i: nat, s: nat)
    requires CanDo(o, c, a) && i < |c.servers| && a.Resubmit?
    ensures i < |Do(o, c, a).servers|
    ensures Expects(c.servers[i].expected, Do(o, c, a).servers[i].expected, s,
                    Settles(o, c, a, i, s), SubmittedAt(c, a, i, s))
  {
    var v, m := c.servers[a.i], a.m;
    ResubmitShape(o, c, a.i, m);
    SubmitParts(o, SetServer(c, a.i, v.(resubmits := v.resubmits - multiset{m},
                                        expected := v.expected - {m.sequence})), a.i, m);
  }

  /** Exactly what server i expects at s after action a. */
  lemma ActionExpects(o: Options, c: System, a: Action, i: nat, s: nat)
    requires SignedSystem(o, c) && CanDo(o, c, a) && i < |c.servers|
    ensures i < |Do(o, c, a).servers|
    ensures Expects(c.servers[i].expected, Do(o, c, a).servers[i].expected, s,
                    Settles(o, c, a, i, s), SubmittedAt(c, a, i, s))
  {
    match a
    case Receive(r, p) =>
      if p.dst == i {
        ReceiptExpects(o, c, a, i, s);
      }
    case Client(j, from, m) => ClientExpects(o, c, a, i, s);
    case Resubmit(j, m) => ResubmitExpects(o, c, a, i, s);
    case Reboot(j) => RebootSigned(o, c, j);
    case _ =>
  }

  lemma ReceiptExpects(o: Options, c: System, a: Action, i: nat, s: nat)
    requires CanDo(o, c, a) && i < |c.servers| && a.Receive? && a.p.dst == i
    ensures i < |Do(o, c, a).servers|
    ensures var e, f := c.servers[i].expected, Do(o, c, a).servers[i].expected;
            && (s in f <==> s in e && !AnswersAt(AnswersOf(o, c, a), s))
            && (s in f ==> f[s] == e[s])
  {
    ReceiptMoves(o, c, a, i);
    var v, w, command := c.servers[i], Do(o, c, a).servers[i], Handed(o, c, a, i);
    var rs := if command.Some? then TryExecute(o.amo, v.engine, command.value).1 else [];
    var x: Server :| x.expected == v.expected && x.resubmits == v.resubmits && w == RespondAll(i, x, rs);
    RespondAllSettles(i, x, rs, s);
  }

  lemma ReceiptQueues(o: Options, c: System, a: Action, i: nat, q: Message)
    requires SignedSystem(o, c) && CanDo(o, c, a) && i < |c.servers| && OwnEngine(c.servers[i].engine)
    requires a.Receive? && a.p.dst == i
    ensures i < |Do(o, c, a).servers|
    ensures Do(o, c, a).servers[i].resubmits[q]
            == c.servers[i].resubmits[q]
               + if Displaces(c.servers[i].expected, AnswersOf(o, c, a), q) then 1 else 0
  {
    ReceiptMoves(o, c, a, i);
    var v, w, command := c.servers[i], Do(o, c, a).servers[i], Handed(o, c, a, i);
    if command.Some? {
      HandedIsOwn(o, c, a, i);
      TryExecuteOwn(o.amo, v.engine, command.value);
    }
    var rs := if command.Some? then TryExecute(o.amo, v.engine, command.value).1 else [];
    var x: Server :| x.expected == v.expected && x.resubmits == v.resubmits && w == RespondAll(i, x, rs);
    RespondAllQueues(i, x, rs, q);
  }

  /** The queue changes by receipts, by the resubmissions taken from it, and by restarts only. */
  lemma QueueMoves(o: Options, c: System, a: Action, i: nat)
    requires SignedSystem(o, c) && CanDo(o, c, a) && i < |c.servers| && !(a.Receive? && a.p.dst == i)
    ensures i < |Do(o, c, a).servers|
    ensures Do(o, c, a).servers[i].resubmits
            == if a == Reboot(i) then multiset{}
               else if a.Resubmit? && a.i == i then c.servers[i].resubmits - multiset{a.m}
               else c.servers[i].resubmits
  {
    match a
    case Client(j, from, m) => ClientShape(o, c, j, from, m);
    case Resubmit(j, m) => ResubmitShape(o, c, j, m);
    case Reboot(j) => RebootSigned(o, c, j);
    case _ =>
  }

  /** Exactly what is queued for resubmission, in every history of every deployment: handling a
      message adds, for each position that it makes the server answer first, the command expected
      there if the one answered is not that client's or has another counter. */
  lemma QueuedExactly(o: Options, h: seq<System>, acts: seq<Action>, i: nat, k: nat, q: Message)
    requires Traced(o, h, acts) && k < |acts| && i < o.cfg.n
    ensures i < |h[k].servers| && i < |h[k + 1].servers| && CanDo(o, h[k], acts[k])
    ensures acts[k].Receive? && acts[k].p.dst == i ==>
              h[k + 1].servers[i].resubmits[q]
              == h[k].servers[i].resubmits[q]
                 + if Displaces(h[k].servers[i].expected, AnswersOf(o, h[k], acts[k]), q) then 1 else 0
    ensures !(acts[k].Receive? && acts[k].p.dst == i) ==>
              h[k + 1].servers[i].resubmits
              == if acts[k] == Reboot(i) then multiset{}
                 else if acts[k].Resubmit? && acts[k].i == i then h[k].servers[i].resubmits - multiset{acts[k].m}
                 else h[k].servers[i].resubmits
  {
    assert TracedAt(o, h, acts, k);
    HistoryIsSigned(o, h, acts, k);
    AlwaysOwn(o, h, acts, i, k);
    if acts[k].Receive? && acts[k].p.dst == i {
      ReceiptQueues(o, h[k], acts[k], i, q);
    } else {
      QueueMoves(o, h[k], acts[k], i);
    }
  }

  // ---- what is outstanding, of submissions and settlements at given steps ----

  /** Something settles after step j, up to step k. */
  predicate SettledBy(settles: set<nat>, j: nat, k: int) {
    exists t :: t in settles && j < t <= k
  }

  /** In state k the submission of step j is the first that is not settled since: nothing settled it
      after step j, and whatever was submitted before was settled by then. */
  predicate IsOutstanding(submits: set<nat>, settles: set<nat>, k: nat, j: nat) {
    && j in submits && j < k && !SettledBy(settles, j, k - 1)
    && forall b :: b in submits && b < j ==> SettledBy(settles, b, j)
  }

  lemma SettledSplit(settles: set<nat>, j: nat, k: nat)
    requires j < k
    ensures SettledBy(settles, j, k) <==> SettledBy(settles, j, k - 1) || k in settles
  {
    if SettledBy(settles, j, k) {
      var t :| t in settles && j < t <= k;
      assert t == k || t <= k - 1;
    }
    if SettledBy(settles, j, k - 1) {
      var t :| t in settles && j < t <= k - 1;
      assert t <= k;
    }
  }

  lemma SettledEither(settles: set<nat>, a: nat, b: nat, k: int)
    requires a < b
    ensures SettledBy(settles, a, k) ==> SettledBy(settles, a, b) || SettledBy(settles, b, k)
  {
    if SettledBy(settles, a, k) {
      var t :| t in settles && a < t <= k;
      assert t <= b || b < t;
    }
  }

  /** Of the submissions not settled before state k there is a first one. */
  lemma {:induction false} FirstOutstanding(submits: set<nat>, settles: set<nat>, k: nat, b: nat) returns (j: nat)
    requires b in submits && b < k && !SettledBy(settles, b, k - 1)
    ensures IsOutstanding(submits, settles, k, j)
    decreases b
  {
    if a :| a in submits && a < b && !SettledBy(settles, a, b) {
      SettledEither(settles, a, b, k - 1);
      j := FirstOutstanding(submits, settles, k, a);
    } else {
      j := b;
    }
  }

  /** An old submission is outstanding after step k if it was and the step does not settle it. */
  lemma OldOutstanding(submits: set<nat>, settles: set<nat>, k: nat, j: nat)
    requires j < k
    ensures IsOutstanding(submits, settles, k + 1, j) <==> IsOutstanding(submits, settles, k, j) && k !in settles
  {
    SettledSplit(settles, j, k);
  }

  /** A new one is outstanding if the step settles the old one or there was none. */
  lemma NewOutstanding(submits: set<nat>, settles: set<nat>, k: nat)
    requires k in submits
    ensures IsOutstanding(submits, settles, k + 1, k)
       <==> k in settles || !exists j: nat :: IsOutstanding(submits, settles, k, j)
  {
    if k in settles {
      forall b | b in submits && b < k ensures SettledBy(settles, b, k) {
        SettledSplit(settles, b, k);
      }
    } else if j: nat :| IsOutstanding(submits, settles, k, j) {
      SettledSplit(settles, j, k);
    } else if b :| b in submits && b < k && !SettledBy(settles, b, k) {
      SettledSplit(settles, b, k);
      var j := FirstOutstanding(submits, settles, k, b);
    }
  }

  // ---- what is expected, read off the actions ----

  /** The steps in which server i submits for position s. */
  function SubmitSteps(h: seq<System>, acts: seq<Action>, i: nat, s: nat): set<nat> {
    set j: nat | j < |acts| && j < |h| && Submits(h[j], acts[j], i, s)
  }

  /** The steps that settle what it expects there. */
  ghost function SettleSteps(o: Options, h: seq<System>, acts: seq<Action>, i: nat, s: nat): set<nat> {
    set t: nat | t < |acts| && TracedAt(o, h, acts, t) && Settles(o, h[t], acts[t], i, s)
  }

  /** In state k the submission of step j is server i's first for position s not settled since. */
  ghost predicate OutstandingAt(o: Options, h: seq<System>, acts: seq<Action>, i: nat, s: nat, k: nat, j: nat) {
    IsOutstanding(SubmitSteps(h, acts, i, s), SettleSteps(o, h, acts, i, s), k, j)
  }

  /** Server i expects at s what was submitted in step j. */
  predicate ExpectsOf(h: seq<System>, acts: seq<Action>, i: nat, s: nat, k: nat, j: nat) {
    && k < |h| && i < |h[k].servers| && j < |acts| && s in h[k].servers[i].expected
    && h[k].servers[i].expected[s] == Submitted(acts[j])
  }

  /** Exactly the outstanding submission is expected. */
  ghost predicate ExpectedExactly(o: Options, h: seq<System>, acts: seq<Action>, i: nat, s: nat, k: nat) {
    && k < |h| && i < |h[k].servers|
    && (s in h[k].servers[i].expected <==> exists j: nat :: OutstandingAt(o, h, acts, i, s, k, j))
    && forall j: nat :: OutstandingAt(o, h, acts, i, s, k, j) ==> ExpectsOf(h, acts, i, s, k, j)
  }

  /** Step k, seen from position s of server i. */
  ghost predicate StepExpects(o: Options, h: seq<System>, acts: seq<Action>, i: nat, s: nat, k: nat) {
    && k + 1 < |h| && k < |acts| && i < |h[k].servers| && i < |h[k + 1].servers|
    && (k in SubmitSteps(h, acts, i, s) <==> Submits(h[k], acts[k], i, s))
    && Expects(h[k].servers[i].expected, h[k + 1].servers[i].expected, s,
               k in SettleSteps(o, h, acts, i, s), SubmittedAt(h[k], acts[k], i, s))
  }

  /** If step k leaves something expected at s, its submission is outstanding. */
  lemma ExpectedIsOutstanding(o: Options, h: seq<System>, acts: seq<Action>, i: nat, s: nat, k: nat, l: nat)
    requires StepExpects(o, h, acts, i, s, k) && ExpectedExactly(o, h, acts, i, s, k)
    requires l == k + 1 && s in h[l].servers[i].expected
    ensures exists j: nat :: OutstandingAt(o, h, acts, i, s, l, j)
  {
    var submits, settles := SubmitSteps(h, acts, i, s), SettleSteps(o, h, acts, i, s);
    if s in h[k].servers[i].expected && k !in settles {
      var j: nat :| OutstandingAt(o, h, acts, i, s, k, j);
      OldOutstanding(submits, settles, k, j);
      assert OutstandingAt(o, h, acts, i, s, l, j);
    } else {
      NewOutstanding(submits, settles, k);
      if j: nat :| IsOutstanding(submits, settles, k, j) {
        assert OutstandingAt(o, h, acts, i, s, k, j);
      }
      assert OutstandingAt(o, h, acts, i, s, l, k);
    }
  }

  /** And what is outstanding after it is expected. */
  lemma OutstandingIsExpected(o: Options, h: seq<System>, acts: seq<Action>, i: nat, s: nat, k: nat, j: nat)
    requires StepExpects(o, h, acts, i, s, k) && ExpectedExactly(o, h, acts, i, s, k)
    requires OutstandingAt(o, h, acts, i, s, k + 1, j)
    ensures ExpectsOf(h, acts, i, s, k + 1, j)
  {
    var submits, settles := SubmitSteps(h, acts, i, s), SettleSteps(o, h, acts, i, s);
    if j < k {
      OldOutstanding(submits, settles, k, j);
      assert OutstandingAt(o, h, acts, i, s, k, j) && ExpectsOf(h, acts, i, s, k, j);
    } else {
      NewOutstanding(submits, settles, k);
      if b: nat :| OutstandingAt(o, h, acts, i, s, k, b) {
        assert IsOutstanding(submits, settles, k, b);
      }
    }
  }

  lemma ExpectedNext(o: Options, h: seq<System>, acts: seq<Action>, i: nat, s: nat, k: nat, l: nat)
    requires StepExpects(o, h, acts, i, s, k) && ExpectedExactly(o, h, acts, i, s, k) && l == k + 1
    ensures ExpectedExactly(o, h, acts, i, s, l)
  {
    if s in h[l].servers[i].expected {
      ExpectedIsOutstanding(o, h, acts, i, s, k, l);
    }
    forall j: nat | OutstandingAt(o, h, acts, i, s, l, j) ensures ExpectsOf(h, acts, i, s, l, j) {
      OutstandingIsExpected(o, h, acts, i, s, k, j);
    }
  }

  lemma StepOfTrace(o: Options, h: seq<System>, acts: seq<Action>, i: nat, s: nat, k: nat)
    requires Traced(o, h, acts) && k < |acts| && i < |h[k].servers| && SignedSystem(o, h[k])
    ensures StepExpects(o, h, acts, i, s, k)
  {
    assert TracedAt(o, h, acts, k);
    ActionExpects(o, h[k], acts[k], i, s);
  }

  /** Exactly what is expected, in every history of every deployment: at each position, the value
      that server i first submitted there and that is not settled since. */
  lemma {:induction false} ExpectsExactly(o: Options, h: seq<System>, acts: seq<Action>, i: nat, s: nat, k: nat)
    requires Traced(o, h, acts) && k < |h| && i < o.cfg.n
    ensures ExpectedExactly(o, h, acts, i, s, k)
  {
    if k == 0 {
    } else {
      ExpectsExactly(o, h, acts, i, s, k - 1);
      HistoryIsSigned(o, h, acts, k - 1);
      StepOfTrace(o, h, acts, i, s, k - 1);
      ExpectedNext(o, h, acts, i, s, k - 1, k);
    }
  }
}
