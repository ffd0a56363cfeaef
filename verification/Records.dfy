/** What every server keeps in step, whatever deployment it is in, as long as servers that crash
    have their logs on: the executor holds what the learners have heard, and the files hold the
    slots. */
module Records {
  import opened Wire
  import opened Roles
  import opened Endpoint
  import opened Consensus
  import opened Invariant
  import opened Safety
  import opened LogFile
  import opened LockService
  import opened Executor
  import opened Cluster
  import opened Sequences

  /** Servers that may crash have the logs on. */
  predicate Logs(cfg: Config) {
    cfg.crashes ==> cfg.recovery
  }

  // ---- instances ----

  predicate PlainInst(o: Options, t: Inst, s: nat) {
    && s > 0 && t.seqno == s && |t.nodes| == o.cfg.n && InSequence(t)
    && (o.cfg.recovery ==> forall i :: 0 <= i < |t.nodes| ==> DiskInv(t.nodes[i]))
  }

  predicate PlainInsts(o: Options, c: System) {
    forall s :: s in c.insts ==> PlainInst(o, c.insts[s], s)
  }

  lemma AtIsPlain(o: Options, c: System, s: nat)
    requires PlainInsts(o, c) && s > 0
    ensures PlainInst(o, At(o, c, s), s)
  {
  }

  lemma RestartKeepsDisk(n: nat, id: nat, x: Node)
    requires DiskInv(x)
    ensures DiskInv(Restart(n, id, x))
  {
  }

  lemma EventKeepsDisks(o: Options, t: Inst, e: Event)
    requires o.cfg.recovery && Enabled(o.cfg, t, e) && forall i :: 0 <= i < |t.nodes| ==> DiskInv(t.nodes[i])
    ensures forall i :: 0 <= i < |t.nodes| ==> DiskInv(Apply(o.cfg, t, e).nodes[i])
  {
    match e
    case Deliver(p) => DispatchDisk(|t.nodes|, p.dst, t.nodes[p.dst], p.msg);
    case Crash(i) => RestartKeepsDisk(|t.nodes|, i, t.nodes[i]);
    case _ =>
  }

  lemma EventKeepsPlain(o: Options, t: Inst, s: nat, e: Event)
    requires PlainInst(o, t, s) && Enabled(o.cfg, t, e)
    ensures PlainInst(o, Apply(o.cfg, t, e), s)
  {
    EventInSequence(o.cfg, t, e);
    if o.cfg.recovery {
      EventKeepsDisks(o, t, e);
    }
  }

  // ---- what a server has heard ----

  /** Server i's learner of instance s is informed of v. */
  predicate Heard(o: Options, c: System, i: nat, s: nat, v: ProposalValue) {
    s > 0 &&
    var t := At(o, c, s);
    i < |t.nodes| && t.nodes[i].learner.informed && t.nodes[i].learner.value == v
  }

  predicate HeardAt(t: Inst, i: nat, v: ProposalValue) {
    i < |t.nodes| && t.nodes[i].learner.informed && t.nodes[i].learner.value == v
  }

  /** Once informed, always informed of the same value: restarts included. */
  lemma HeardStays(o: Options, t: Inst, e: Event, i: nat, v: ProposalValue)
    requires Logs(o.cfg) && PlainInst(o, t, t.seqno) && Enabled(o.cfg, t, e) && HeardAt(t, i, v)
    ensures HeardAt(Apply(o.cfg, t, e), i, v)
  {
    match e
    case Deliver(p) => DispatchIsFaithful(|t.nodes|, o.cfg.recovery, p.dst, t.nodes[p.dst], p.msg);
    case _ =>
  }

  // ---- the log files ----

  ghost predicate SlotAgrees<T>(f: File<T>, s: nat, slot: Option<T>) {
    && (slot.Some? <==> Logged(f, s))
    && (slot.Some? && s < |f.slots| ==> f.slots[s].state == slot.value)
  }

  ghost predicate FilesAgree(o: Options, c: System, i: nat)
    requires i < |c.servers|
  {
    && WellFormed(c.servers[i].acceptorFile) && WellFormed(c.servers[i].learnerFile)
    && forall s: nat :: s > 0 ==> InstFilesAgree(At(o, c, s), c.servers[i], i, s)
  }

  ghost predicate InstFilesAgree(t: Inst, v: Server, i: nat, s: nat) {
    && i < |t.nodes|
    && SlotAgrees(v.acceptorFile, s, t.nodes[i].acceptorSlot)
    && SlotAgrees(v.learnerFile, s, t.nodes[i].learnerSlot)
  }

  lemma WriteAgrees<T>(f: File<T>, i: nat, x: T, zero: T)
    requires WellFormed(f) && i > 0
    ensures var g := WriteLog(f, i, x, zero);
            && WellFormed(g) && SlotAgrees(g, i, Some(x))
            && forall s: nat, slot :: s != i && SlotAgrees(f, s, slot) ==> SlotAgrees(g, s, slot)
  {
    var g := WriteLog(f, i, x, zero);
    WriteIsUpdate(f, i, x, zero);
    assert Contents(g) == Contents(f)[i := x];
    forall s: nat, slot | s != i && SlotAgrees(f, s, slot) ensures SlotAgrees(g, s, slot) {
      assert s in Contents(g) <==> s in Contents(f);
      if s in Contents(f) {
        assert Contents(g)[s] == Contents(f)[s];
      }
    }
    assert i in Contents(g) && Contents(g)[i] == x;
  }

  /** Effect e changes x's slots exactly as it writes the logs, and keeps what x's learner knows. */
  predicate Faithful(recovery: bool, x: Node, e: Effect, s: nat) {
    && e.node.acceptorSlot == (if recovery && Answers(e) then Some(e.node.acceptor) else x.acceptorSlot)
    && e.node.learnerSlot == (if recovery && e.command.Some?
                              then Some(Informed(e.node.learner.number, e.node.learner.value)) else x.learnerSlot)
    && (e.command.Some? ==> e.out == [])
    && (x.learner.informed ==> e.node.learner == x.learner)
    && (e.command.Some? ==> e.command.value.sequence == s && e.node.learner.informed
                            && e.node.learner.value == e.command.value.value)
  }

  lemma DispatchIsFaithful(n: nat, recovery: bool, id: nat, x: Node, m: Message)
    ensures Faithful(recovery, x, Dispatch(n, recovery, id, x, m), m.sequence)
  {
    if m.kind.PROMISE? {
      BroadcastsDoNotAnswer(n, id, x, m);
    } else if m.kind.DENIAL? {
      BroadcastsDoNotAnswer(n, id, x, m);
    } else if m.kind.ACCEPTED? {
      BroadcastsDoNotAnswer(n, id, x, m);
    }
  }

  /** The log writes of a handler are exactly the changes of its two slots. */
  lemma LogWritesAgree(recovery: bool, t: Inst, v: Server, s: nat, i: nat, e: Effect)
    requires s > 0 && InstFilesAgree(t, v, i, s) && Faithful(recovery, t.nodes[i], e, s)
    requires WellFormed(v.acceptorFile) && WellFormed(v.learnerFile)
    ensures var w := LogWrites(recovery, v, s, e);
            && WellFormed(w.acceptorFile) && WellFormed(w.learnerFile)
            && SlotAgrees(w.acceptorFile, s, e.node.acceptorSlot)
            && SlotAgrees(w.learnerFile, s, e.node.learnerSlot)
            && (forall r: nat, slot ::
                  r != s && SlotAgrees(v.acceptorFile, r, slot) ==> SlotAgrees(w.acceptorFile, r, slot))
            && (forall r: nat, slot ::
                  r != s && SlotAgrees(v.learnerFile, r, slot) ==> SlotAgrees(w.learnerFile, r, slot))
  {
    WriteAgrees(v.acceptorFile, s, e.node.acceptor, INIT_ACCEPTOR);
    WriteAgrees(v.learnerFile, s, Informed(e.node.learner.number, e.node.learner.value), ZERO_INFORMED);
  }

  lemma BroadcastsDoNotAnswer(n: nat, id: nat, x: Node, m: Message)
    ensures !Answers(HandlePromise(n, id, x, m)) && !Answers(HandleDenial(n, id, x, m))
    ensures !Answers(HandleAccepted(n, id, x, m))
  {
    NoAnswerIn(HandlePromise(n, id, x, m));
    NoAnswerIn(HandleDenial(n, id, x, m));
    NoAnswerIn(HandleAccepted(n, id, x, m));
  }

  lemma NoAnswerIn(e: Effect)
    requires forall p :: p in e.out ==> !p.msg.kind.PROMISE? && !p.msg.kind.ACCEPTED?
    ensures !Answers(e)
  {
  }

  // ---- what holds of every server ----

  ghost predicate GoodEngine(o: Options, c: System, i: nat, e: Engine) {
    Follows(o.amo, e) && Vouched((s: nat, v: ProposalValue) => Heard(o, c, i, s, v), e)
  }

  ghost predicate PlainServer(o: Options, c: System, i: nat) {
    && i < |c.servers|
    && GoodEngine(o, c, i, c.servers[i].engine)
    && (o.cfg.recovery ==> FilesAgree(o, c, i))
  }

  ghost predicate Plain(o: Options, c: System) {
    && o.cfg.n > 0 && |c.servers| == o.cfg.n
    && PlainInsts(o, c)
    && forall i :: 0 <= i < |c.servers| ==> PlainServer(o, c, i)
  }

  lemma BootIsPlain(o: Options)
    requires o.cfg.n > 0
    ensures Plain(o, Boot(o))
  {
  }

  /** From t to u, server i keeps its log slots and whatever it was informed of. */
  predicate PreservesAt(t: Inst, u: Inst, i: nat) {
    && |u.nodes| == |t.nodes| && i < |t.nodes|
    && u.nodes[i].acceptorSlot == t.nodes[i].acceptorSlot
    && u.nodes[i].learnerSlot == t.nodes[i].learnerSlot
    && (t.nodes[i].learner.informed ==>
          u.nodes[i].learner.informed && u.nodes[i].learner.value == t.nodes[i].learner.value)
  }

  ghost predicate Preserves(o: Options, c: System, d: System, i: nat) {
    forall s: nat :: s > 0 ==> PreservesAt(At(o, c, s), At(o, d, s), i)
  }

  predicate SameRecords(v: Server, w: Server) {
    w.engine == v.engine && w.acceptorFile == v.acceptorFile && w.learnerFile == v.learnerFile
  }

  /** A server whose executor and files do not change. */
  lemma PlainKept(o: Options, c: System, d: System, i: nat)
    requires PlainServer(o, c, i) && Preserves(o, c, d, i) && i < |d.servers|
    requires SameRecords(c.servers[i], d.servers[i])
    ensures PlainServer(o, d, i)
  {
    var e := c.servers[i].engine;
    forall s: nat, v | Heard(o, c, i, s, v) ensures Heard(o, d, i, s, v) {
      assert PreservesAt(At(o, c, s), At(o, d, s), i);
    }
    EngineKept(o, c, d, i, e);
    if o.cfg.recovery {
      forall s: nat | s > 0 ensures InstFilesAgree(At(o, d, s), d.servers[i], i, s) {
        assert InstFilesAgree(At(o, c, s), c.servers[i], i, s);
        assert PreservesAt(At(o, c, s), At(o, d, s), i);
      }
    }
  }

  lemma EngineKept(o: Options, c: System, d: System, i: nat, e: Engine)
    requires GoodEngine(o, c, i, e)
    requires forall s: nat, v :: Heard(o, c, i, s, v) ==> Heard(o, d, i, s, v)
    ensures GoodEngine(o, d, i, e)
  {
    forall k | 0 <= k < |e.applied| ensures Heard(o, d, i, k + 1, e.applied[k]) {
      assert Heard(o, c, i, k + 1, e.applied[k]);
    }
    forall s | s in e.waiting ensures Heard(o, d, i, s, e.waiting[s].value) {
      assert Heard(o, c, i, s, e.waiting[s].value);
    }
  }

  /** An event of one instance preserves every server's share of it, except that delivery moves
      the destination's slots. */
  lemma EventPreserves(o: Options, t: Inst, e: Event, i: nat)
    requires Logs(o.cfg) && PlainInst(o, t, t.seqno) && Enabled(o.cfg, t, e) && i < |t.nodes|
    requires e.Deliver? ==> e.p.dst != i
    ensures PreservesAt(t, Apply(o.cfg, t, e), i)
  {
    match e
    case Crash(j) =>
      assert DiskInv(t.nodes[i]);
    case _ =>
  }

  /** Instance s is u after event e; only a delivery's destination may have moved its slots. */
  ghost predicate Moved(o: Options, c: System, s: nat, e: Event, u: Inst) {
    && s > 0 && PlainInst(o, u, s)
    && forall i: nat :: i < o.cfg.n && (e.Deliver? ==> e.p.dst != i) ==> PreservesAt(At(o, c, s), u, i)
  }

  lemma EventMoves(o: Options, c: System, s: nat, e: Event)
    requires PlainInsts(o, c) && Logs(o.cfg) && s > 0 && Enabled(o.cfg, At(o, c, s), e)
    ensures Moved(o, c, s, e, Apply(o.cfg, At(o, c, s), e))
  {
    AtIsPlain(o, c, s);
    EventKeepsPlain(o, At(o, c, s), s, e);
    forall i: nat | i < o.cfg.n && (e.Deliver? ==> e.p.dst != i)
      ensures PreservesAt(At(o, c, s), Apply(o.cfg, At(o, c, s), e), i)
    {
      EventPreserves(o, At(o, c, s), e, i);
    }
  }

  /** One instance takes an event; no other instance changes. */
  lemma OneInstance(o: Options, c: System, d: System, s: nat, e: Event, u: Inst)
    requires PlainInsts(o, c) && Moved(o, c, s, e, u) && d.insts == c.insts[s := u]
    ensures PlainInsts(o, d)
    ensures forall i: nat :: i < o.cfg.n && (e.Deliver? ==> e.p.dst != i) ==> Preserves(o, c, d, i)
  {
    forall i: nat, r: nat | i < o.cfg.n && (e.Deliver? ==> e.p.dst != i) && r > 0
      ensures PreservesAt(At(o, c, r), At(o, d, r), i)
    {
      AtIsPlain(o, c, r);
    }
  }

  /** Executors and files stay; one instance takes an event that is not a delivery. */
  lemma FilesUntouched(o: Options, c: System, d: System, s: nat, e: Event, u: Inst)
    requires Plain(o, c) && Moved(o, c, s, e, u) && !e.Deliver?
    requires d.insts == c.insts[s := u] && |d.servers| == |c.servers|
    requires forall i :: 0 <= i < |c.servers| ==> SameRecords(c.servers[i], d.servers[i])
    ensures Plain(o, d)
  {
    OneInstance(o, c, d, s, e, u);
    forall i: nat | i < |d.servers| ensures PlainServer(o, d, i) {
      assert PlainServer(o, c, i) && SameRecords(c.servers[i], d.servers[i]);
      PlainKept(o, c, d, i);
    }
  }

  /** What a submission moves: one instance, and what server i expects. */
  lemma SubmitParts(o: Options, x: System, i: nat, m: Message)
    requires i < |x.servers| && SubmitOpen(o, x, i)
    ensures var s, v, d := NextSlot(x, i), x.servers[i], SubmitAt(o, x, i, m);
            var e := Submission(i, ToSlot(m, s));
            && s > 0 && Enabled(o.cfg, At(o, x, s), e)
            && d.insts == x.insts[s := Apply(o.cfg, At(o, x, s), e)] && d.clients == x.clients
            && d.servers == x.servers[i := v.(expected := Expect(v.expected, s, m.value))]
  {
  }

  lemma SubmitIsPlain(o: Options, c: System, x: System, i: nat, m: Message)
    requires Plain(o, c) && Logs(o.cfg) && x.insts == c.insts && |x.servers| == |c.servers|
    requires forall j :: 0 <= j < |c.servers| ==> SameRecords(c.servers[j], x.servers[j])
    requires i < |x.servers| && SubmitOpen(o, x, i)
    ensures Plain(o, SubmitAt(o, x, i, m))
  {
    var s := NextSlot(x, i);
    var e := Submission(i, ToSlot(m, s));
    assert At(o, x, s) == At(o, c, s);
    SubmitParts(o, x, i, m);
    EventMoves(o, c, s, e);
    FilesUntouched(o, c, SubmitAt(o, x, i, m), s, e, Apply(o.cfg, At(o, c, s), e));
  }

  lemma ClientShape(o: Options, c: System, i: nat, from: Udp4, m: Message)
    requires CanDo(o, c, Client(i, from, m))
    ensures var w := Stamp(from, m);
            var x := c.(clients := c.clients + {w.value});
            SubmitOpen(o, x, i) && Do(o, c, Client(i, from, m)) == SubmitAt(o, x, i, w)
  {
  }

  lemma ResubmitShape(o: Options, c: System, i: nat, m: Message)
    requires CanDo(o, c, Resubmit(i, m))
    ensures var v := c.servers[i];
            var x := SetServer(c, i, v.(resubmits := v.resubmits - multiset{m}, expected := v.expected - {m.sequence}));
            SubmitOpen(o, x, i) && Do(o, c, Resubmit(i, m)) == SubmitAt(o, x, i, m)
  {
  }

  // ---- receiving ----

  lemma LogWritesKeeps(recovery: bool, v: Server, s: nat, e: Effect)
    ensures var w := LogWrites(recovery, v, s, e);
            w.engine == v.engine && w.expected == v.expected && w.resubmits == v.resubmits
  {
  }

  /** What effect e at server i in instance s makes of the system: instance u, server w. */
  ghost predicate Delivered(o: Options, c: System, d: System, s: nat, i: nat, u: Inst, e: Effect) {
    && s in c.insts && i < |c.servers| && i < |c.insts[s].nodes|
    && Faithful(o.cfg.recovery, c.insts[s].nodes[i], e, s)
    && u.nodes == c.insts[s].nodes[i := e.node]
    && d.insts == c.insts[s := u] && d.clients == c.clients
    && d.servers == c.servers[i := Decide(o.amo, i, LogWrites(o.cfg.recovery, c.servers[i], s, e), e.command)]
  }

  lemma ReceiveShape(o: Options, c: System, s: nat, p: Packet)
    requires CanDo(o, c, Receive(s, p)) && p.msg.sequence == s
    ensures var t := c.insts[s];
            Delivered(o, c, Do(o, c, Receive(s, p)), s, p.dst, Apply(o.cfg, t, Deliver(p)),
                      Dispatch(|t.nodes|, o.cfg.recovery, p.dst, t.nodes[p.dst], p.msg))
  {
    var t := c.insts[s];
    DispatchIsFaithful(|t.nodes|, o.cfg.recovery, p.dst, t.nodes[p.dst], p.msg);
  }

  /** Answering clients does not move the records. */
  lemma RespondAllRecords(id: nat, v: Server, rs: seq<Message>)
    ensures SameRecords(v, RespondAll(id, v, rs))
    decreases |rs|
  {
    if rs == [] {
    } else {
      RespondAllRecords(id, if rs[0].extra == id then Respond(v, rs[0]) else v, rs[1..]);
    }
  }

  /** What a command handed over makes of a server's records. */
  lemma DecideMoves(amo: bool, id: nat, v: Server, command: Option<Message>)
    ensures var w := Decide(amo, id, v, command);
            && w.engine == (if command.Some? then TryExecute(amo, v.engine, command.value).0 else v.engine)
            && w.acceptorFile == v.acceptorFile && w.learnerFile == v.learnerFile
  {
    if command.Some? {
      var (e, rs) := TryExecute(amo, v.engine, command.value);
      RespondAllRecords(id, v.(engine := e), rs);
    }
  }

  lemma DecideIsGood(o: Options, d: System, i: nat, v: Server, command: Option<Message>)
    requires GoodEngine(o, d, i, v.engine)
    requires command.Some? ==> Heard(o, d, i, command.value.sequence, command.value.value)
    ensures GoodEngine(o, d, i, Decide(o.amo, i, v, command).engine)
  {
    DecideMoves(o.amo, i, v, command);
    if command.Some? {
      TryExecuteFollows(o.amo, v.engine, command.value);
      TryExecuteVouched(o.amo, (s: nat, x: ProposalValue) => Heard(o, d, i, s, x), v.engine, command.value);
    }
  }

  lemma ReceiverIsPlain(o: Options, c: System, d: System, s: nat, i: nat, u: Inst, e: Effect)
    requires Plain(o, c) && Delivered(o, c, d, s, i, u, e)
    ensures PlainServer(o, d, i)
  {
    assert PlainServer(o, c, i) && PlainInst(o, c.insts[s], s);
    EngineKept(o, c, d, i, c.servers[i].engine);
    LogWritesKeeps(o.cfg.recovery, c.servers[i], s, e);
    DecideIsGood(o, d, i, LogWrites(o.cfg.recovery, c.servers[i], s, e), e.command);
    if o.cfg.recovery {
      ReceiverFiles(o, c, d, s, i, u, e);
    }
  }

  lemma ReceiverFiles(o: Options, c: System, d: System, s: nat, i: nat, u: Inst, e: Effect)
    requires Plain(o, c) && o.cfg.recovery && Delivered(o, c, d, s, i, u, e)
    ensures FilesAgree(o, d, i)
  {
    var t, v := c.insts[s], c.servers[i];
    assert PlainServer(o, c, i) && PlainInst(o, t, s);
    assert InstFilesAgree(At(o, c, s), v, i, s);
    var w := LogWrites(o.cfg.recovery, v, s, e);
    LogWritesAgree(o.cfg.recovery, t, v, s, i, e);
    DecideMoves(o.amo, i, w, e.command);
    forall r: nat | r > 0 ensures InstFilesAgree(At(o, d, r), w, i, r) {
      assert InstFilesAgree(At(o, c, r), v, i, r);
      WrittenAgree(o, c, d, s, i, u, e, w, r);
    }
    SameFilesAgree(o, d, w, i);
  }

  lemma WrittenAgree(o: Options, c: System, d: System, s: nat, i: nat, u: Inst, e: Effect, w: Server, r: nat)
    requires s in c.insts && i < |c.servers| && i < |c.insts[s].nodes| && d.insts == c.insts[s := u]
    requires u.nodes == c.insts[s].nodes[i := e.node] && InstFilesAgree(At(o, c, r), c.servers[i], i, r)
    requires SlotAgrees(w.acceptorFile, s, e.node.acceptorSlot) && SlotAgrees(w.learnerFile, s, e.node.learnerSlot)
    requires forall q: nat, slot ::
               q != s && SlotAgrees(c.servers[i].acceptorFile, q, slot) ==> SlotAgrees(w.acceptorFile, q, slot)
    requires forall q: nat, slot ::
               q != s && SlotAgrees(c.servers[i].learnerFile, q, slot) ==> SlotAgrees(w.learnerFile, q, slot)
    ensures InstFilesAgree(At(o, d, r), w, i, r)
  {
  }

  lemma SameFilesAgree(o: Options, d: System, w: Server, i: nat)
    requires i < |d.servers| && WellFormed(w.acceptorFile) && WellFormed(w.learnerFile)
    requires d.servers[i].acceptorFile == w.acceptorFile && d.servers[i].learnerFile == w.learnerFile
    requires forall r: nat :: r > 0 ==> InstFilesAgree(At(o, d, r), w, i, r)
    ensures FilesAgree(o, d, i)
  {
    forall r: nat | r > 0 ensures InstFilesAgree(At(o, d, r), d.servers[i], i, r) {
      assert InstFilesAgree(At(o, d, r), w, i, r);
    }
  }

  lemma ReceiveIsPlain(o: Options, c: System, s: nat, p: Packet)
    requires Plain(o, c) && Logs(o.cfg) && CanDo(o, c, Receive(s, p))
    ensures Plain(o, Do(o, c, Receive(s, p)))
  {
    var t, d := c.insts[s], Do(o, c, Receive(s, p));
    assert PlainInst(o, t, s);
    ReceiveShape(o, c, s, p);
    EventMoves(o, c, s, Deliver(p));
    OneInstance(o, c, d, s, Deliver(p), Apply(o.cfg, t, Deliver(p)));
    ReceivedIsPlain(o, c, d, s, p, Apply(o.cfg, t, Deliver(p)),
                    Dispatch(|t.nodes|, o.cfg.recovery, p.dst, t.nodes[p.dst], p.msg));
  }

  lemma ReceivedIsPlain(o: Options, c: System, d: System, s: nat, p: Packet, u: Inst, e: Effect)
    requires Plain(o, c) && Delivered(o, c, d, s, p.dst, u, e) && PlainInsts(o, d)
    requires forall i: nat :: i < o.cfg.n && p.dst != i ==> Preserves(o, c, d, i)
    ensures Plain(o, d)
  {
    ReceiverIsPlain(o, c, d, s, p.dst, u, e);
    forall j: nat | j < |d.servers| && j != p.dst ensures PlainServer(o, d, j) {
      assert PlainServer(o, c, j) && Preserves(o, c, d, j);
      PlainKept(o, c, d, j);
    }
  }

  // ---- restarting ----

  /** The values logged for instances 1 to k. */
  function LoggedValues(f: File<Informed>, k: nat): (r: seq<ProposalValue>)
    requires forall i :: 1 <= i <= k ==> Logged(f, i)
    ensures |r| == k && forall s :: 1 <= s <= k ==> Logged(f, s) && r[s - 1] == f.slots[s].state.value
  {
    if k == 0 then []
    else
      assert Logged(f, k);
      LoggedValues(f, k - 1) + [f.slots[k].state.value]
  }

  /** Replaying is the lock machine run over the logged values. */
  lemma {:induction false} ReplayFollows(amo: bool, f: File<Informed>, k: nat)
    requires forall i :: 1 <= i <= k ==> Logged(f, i)
    ensures var e := Replay(amo, f, k);
            && e.executed == k && e.waiting == map[]
            && e.applied == LoggedValues(f, k) && View(e) == Run(amo, LoggedValues(f, k))
  {
    if k == 0 {
    } else {
      ReplayFollows(amo, f, k - 1);
      assert Logged(f, k);
      var x := f.slots[k].state;
      assert LoggedValues(f, k) == LoggedValues(f, k - 1) + [x.value];
      NextFollows(amo, Replay(amo, f, k - 1), Replayed(k, x), LoggedValues(f, k - 1));
    }
  }

  lemma NextFollows(amo: bool, e: Engine, c: Message, h: seq<ProposalValue>)
    requires |h| == e.executed && e.waiting == map[] && e.applied == h && View(e) == Run(amo, h)
    ensures var x := Advance(amo, e, c).0;
            && x.executed == e.executed + 1 && x.waiting == map[]
            && x.applied == h + [c.value] && View(x) == Run(amo, h + [c.value])
  {
    AdvanceFollows(amo, e, c);
  }

  /** A logged slot is a decision its restarted learner knows. */
  lemma LoggedIsHeard(o: Options, c: System, i: nat, s: nat)
    requires Plain(o, c) && o.cfg.recovery && i < |c.servers| && s > 0
    requires Logged(c.servers[i].learnerFile, s)
    ensures Heard(o, c, i, s, c.servers[i].learnerFile.slots[s].state.value)
  {
    AtIsPlain(o, c, s);
    assert PlainServer(o, c, i);
    assert InstFilesAgree(At(o, c, s), c.servers[i], i, s);
    assert DiskInv(At(o, c, s).nodes[i]);
  }

  lemma HeardIsLogged(o: Options, c: System, i: nat, s: nat, v: ProposalValue)
    requires Plain(o, c) && o.cfg.recovery && i < |c.servers| && Heard(o, c, i, s, v)
    ensures Logged(c.servers[i].learnerFile, s) && c.servers[i].learnerFile.slots[s].state.value == v
  {
    AtIsPlain(o, c, s);
    assert PlainServer(o, c, i);
    assert InstFilesAgree(At(o, c, s), c.servers[i], i, s);
    assert DiskInv(At(o, c, s).nodes[i]);
  }

  lemma RecoveredEngineIsGood(o: Options, c: System, i: nat)
    requires Plain(o, c) && o.cfg.recovery && i < |c.servers|
    ensures GoodEngine(o, c, i, Recover(o, c.servers[i]).engine)
  {
    var l := Reopen(c.servers[i].learnerFile);
    var k := MinFrom(l, 1);
    MinFromIsMin(l, 1);
    forall s: nat | 1 <= s <= k ensures Logged(l, s) && Heard(o, c, i, s, l.slots[s].state.value) {
      assert Logged(l, s);
      LoggedIsHeard(o, c, i, s);
    }
    ReplayVouched(o.amo, (s: nat, v: ProposalValue) => Heard(o, c, i, s, v), l, k);
  }

  /** Whatever vouches for the logged values vouches for the replayed engine. */
  lemma ReplayVouched(amo: bool, ok: (nat, ProposalValue) -> bool, f: File<Informed>, k: nat)
    requires forall s :: 1 <= s <= k ==> Logged(f, s) && ok(s, f.slots[s].state.value)
    ensures Follows(amo, Replay(amo, f, k)) && Vouched(ok, Replay(amo, f, k))
  {
    ReplayFollows(amo, f, k);
    var vs := LoggedValues(f, k);
    forall j | 0 <= j < k ensures ok(j + 1, vs[j]) {
      assert Logged(f, j + 1) && vs[j + 1 - 1] == f.slots[j + 1].state.value;
    }
  }

  /** u is instance t after server i restarted. */
  predicate Restarted(o: Options, t: Inst, u: Inst, i: nat) {
    Enabled(o.cfg, t, Crash(i)) && u == Apply(o.cfg, t, Crash(i))
  }

  lemma RebootShape(o: Options, c: System, i: nat)
    requires CanDo(o, c, Reboot(i)) && forall s :: s in c.insts ==> i < |c.insts[s].nodes|
    ensures var d := Do(o, c, Reboot(i));
            && d.insts.Keys == c.insts.Keys && d.clients == c.clients
            && d.servers == c.servers[i := Recover(o, c.servers[i])]
            && forall s :: s in c.insts ==> Restarted(o, c.insts[s], d.insts[s], i)
  {
  }

  /** d is c after server j restarted. */
  ghost predicate Rebooted(o: Options, c: System, d: System, j: nat) {
    && j < |c.servers| && d.insts.Keys == c.insts.Keys
    && d.servers == c.servers[j := Recover(o, c.servers[j])]
    && forall r :: r in c.insts ==> Restarted(o, c.insts[r], d.insts[r], j)
  }

  lemma RebootIs(o: Options, c: System, j: nat)
    requires Plain(o, c) && CanDo(o, c, Reboot(j))
    ensures Rebooted(o, c, Do(o, c, Reboot(j)), j)
  {
    forall r | r in c.insts ensures j < |c.insts[r].nodes| {
      assert PlainInst(o, c.insts[r], r);
    }
    RebootShape(o, c, j);
  }

  /** All of server i's instances restart; every server keeps slots and decisions. */
  lemma RebootInstances(o: Options, c: System, d: System, i: nat)
    requires Plain(o, c) && Logs(o.cfg) && o.cfg.crashes && i < |c.servers|
    requires d.insts.Keys == c.insts.Keys && forall s :: s in c.insts ==> Restarted(o, c.insts[s], d.insts[s], i)
    ensures PlainInsts(o, d) && forall j: nat :: j < o.cfg.n ==> Preserves(o, c, d, j)
  {
    forall s | s in c.insts ensures PlainInst(o, d.insts[s], s) {
      assert PlainInst(o, c.insts[s], s) && Restarted(o, c.insts[s], d.insts[s], i);
      EventKeepsPlain(o, c.insts[s], s, Crash(i));
    }
    forall j: nat, s: nat | j < o.cfg.n && s > 0 ensures PreservesAt(At(o, c, s), At(o, d, s), j) {
      AtIsPlain(o, c, s);
      if s in c.insts {
        assert Restarted(o, c.insts[s], d.insts[s], i);
        EventPreserves(o, c.insts[s], Crash(i), j);
      }
    }
  }

  lemma RebootIsPlain(o: Options, c: System, i: nat)
    requires Plain(o, c) && Logs(o.cfg) && CanDo(o, c, Reboot(i))
    ensures Plain(o, Do(o, c, Reboot(i)))
  {
    var d := Do(o, c, Reboot(i));
    forall s | s in c.insts ensures i < |c.insts[s].nodes| {
      assert PlainInst(o, c.insts[s], s);
    }
    RebootShape(o, c, i);
    RebootInstances(o, c, d, i);
    RestartedIsPlain(o, c, d, i);
    forall j: nat | j < |d.servers| && j != i ensures PlainServer(o, d, j) {
      assert PlainServer(o, c, j) && Preserves(o, c, d, j);
      PlainKept(o, c, d, j);
    }
  }

  lemma RestartedIsPlain(o: Options, c: System, d: System, i: nat)
    requires Plain(o, c) && o.cfg.recovery && i < |c.servers| && Preserves(o, c, d, i)
    requires i < |d.servers| && d.servers[i] == Recover(o, c.servers[i])
    ensures PlainServer(o, d, i)
  {
    RecoveredEngineIsGood(o, c, i);
    forall s: nat, v | Heard(o, c, i, s, v) ensures Heard(o, d, i, s, v) {
      assert PreservesAt(At(o, c, s), At(o, d, s), i);
    }
    EngineKept(o, c, d, i, d.servers[i].engine);
    assert PlainServer(o, c, i);
    forall s: nat | s > 0 ensures InstFilesAgree(At(o, d, s), d.servers[i], i, s) {
      assert InstFilesAgree(At(o, c, s), c.servers[i], i, s);
      assert PreservesAt(At(o, c, s), At(o, d, s), i);
    }
  }

  // ---- every history ----

  lemma ClientIsPlain(o: Options, c: System, i: nat, from: Udp4, m: Message)
    requires Plain(o, c) && Logs(o.cfg) && CanDo(o, c, Client(i, from, m))
    ensures Plain(o, Do(o, c, Client(i, from, m)))
  {
    var w := Stamp(from, m);
    ClientShape(o, c, i, from, m);
    SubmitIsPlain(o, c, c.(clients := c.clients + {w.value}), i, w);
  }

  lemma ResubmitIsPlain(o: Options, c: System, i: nat, m: Message)
    requires Plain(o, c) && Logs(o.cfg) && CanDo(o, c, Resubmit(i, m))
    ensures Plain(o, Do(o, c, Resubmit(i, m)))
  {
    var v := c.servers[i];
    var w := v.(resubmits := v.resubmits - multiset{m}, expected := v.expected - {m.sequence});
    ResubmitShape(o, c, i, m);
    SubmitIsPlain(o, c, SetServer(c, i, w), i, m);
  }

  lemma QuietIsPlain(o: Options, c: System, s: nat, e: Event)
    requires Plain(o, c) && Logs(o.cfg) && s in c.insts && Enabled(o.cfg, c.insts[s], e) && !e.Deliver?
    ensures Plain(o, SetAt(c, s, Apply(o.cfg, c.insts[s], e)))
  {
    assert PlainInst(o, c.insts[s], s);
    EventMoves(o, c, s, e);
    FilesUntouched(o, c, SetAt(c, s, Apply(o.cfg, c.insts[s], e)), s, e, Apply(o.cfg, c.insts[s], e));
  }

  lemma ActionIsPlain(o: Options, c: System, a: Action)
    requires Plain(o, c) && Logs(o.cfg) && CanDo(o, c, a)
    ensures Plain(o, Do(o, c, a))
  {
    match a
    case Client(i, from, m) => ClientIsPlain(o, c, i, from, m);
    case Resubmit(i, m) => ResubmitIsPlain(o, c, i, m);
    case Receive(s, p) => ReceiveIsPlain(o, c, s, p);
    case Reboot(i) => RebootIsPlain(o, c, i);
    case Expire(i, s) => QuietIsPlain(o, c, s, Timer(i));
    case Lose(s, p) => QuietIsPlain(o, c, s, Drop(p));
    case Copy(s, p) => QuietIsPlain(o, c, s, Duplicate(p));
  }

  lemma ActionAt(o: Options, run: seq<System>, k: nat) returns (a: Action)
    requires IsHistory(o, run) && 0 < k < |run|
    ensures CanDo(o, run[k - 1], a) && run[k] == Do(o, run[k - 1], a)
  {
    assert StepAt(o, run, k - 1);
    a :| CanDo(o, run[k - 1], a) && run[k] == Do(o, run[k - 1], a);
  }

  lemma HistoryFront(o: Options, h: seq<System>)
    requires IsHistory(o, h) && |h| > 1
    ensures IsHistory(o, h[..|h| - 1])
  {
    var g := h[..|h| - 1];
    forall k: nat | k < |g| - 1 ensures StepAt(o, g, k) {
      assert StepAt(o, h, k);
    }
  }

  lemma {:induction false} HistoryIsPlain(o: Options, run: seq<System>, k: nat)
    requires IsHistory(o, run) && Logs(o.cfg) && k < |run|
    ensures Plain(o, run[k])
  {
    if k == 0 {
      BootIsPlain(o);
    } else {
      HistoryIsPlain(o, run, k - 1);
      var a := ActionAt(o, run, k);
      ActionIsPlain(o, run[k - 1], a);
    }
  }
}
