/** The whole system: n servers, each with its share of every consensus instance, its log files,
    its executor and its pending client requests. */
module Cluster {
  import opened Wire
  import opened Roles
  import opened Endpoint
  import opened Consensus
  import opened LogFile
  import opened Executor

  /** `expected` and `resubmits` are seq_to_expected_values and the requests whose random resubmit
      timer is running. */
  datatype Server = Server(
    engine: Engine, acceptorFile: File<AcceptorState>, learnerFile: File<Informed>,
    expected: map<nat, ProposalValue>, resubmits: multiset<Message>)

  /** Instances are created on first use; `clients` is history: every value stamped so far. */
  datatype System = System(insts: map<nat, Inst>, servers: seq<Server>, clients: set<ProposalValue>)

  datatype Options = Options(cfg: Config, amo: bool)

  datatype Action =
    | Client(i: nat, from: Udp4, m: Message)
    | Resubmit(i: nat, m: Message)
    | Expire(i: nat, s: nat)
    | Receive(s: nat, p: Packet)
    | Lose(s: nat, p: Packet)
    | Copy(s: nat, p: Packet)
    | Reboot(i: nat)

  function FreshServer(): Server {
    Server(FRESH_ENGINE, File([], 0), File([], 0), map[], multiset{})
  }

  function Boot(o: Options): System {
    System(map[], seq(o.cfg.n, (i: nat) => FreshServer()), {})
  }

  /** Instances::get_instance. */
  function At(o: Options, c: System, s: nat): Inst {
    if s in c.insts then c.insts[s] else Init(o.cfg.n, s)
  }

  /** A request at server i goes to the instance after the last one it executed. */
  function NextSlot(c: System, i: nat): nat
    requires i < |c.servers|
  {
    c.servers[i].engine.executed + 1
  }

  function Stamp(from: Udp4, m: Message): Message {
    m.(value := m.value.(clientId := Encode(from)))
  }

  function ToSlot(m: Message, s: nat): Message {
    m.(kind := SUBMIT, sequence := s)
  }

  /** `emplace` keeps the value already expected at that sequence, if any. */
  function Expect(expected: map<nat, ProposalValue>, s: nat, v: ProposalValue): map<nat, ProposalValue> {
    if s in expected then expected else expected[s := v]
  }

  /** PaxosServer::response: a reply that is not the expected command's sends that one back. */
  function Respond(v: Server, r: Message): Server {
    if r.sequence in v.expected then
      var want := v.expected[r.sequence];
      var w := v.(expected := v.expected - {r.sequence});
      if want.clientId != r.value.clientId || want.clientOnce != r.value.clientOnce then
        w.(resubmits := w.resubmits + multiset{r.(value := want)})
      else w
    else v
  }

  /** Only the responsible server answers the client. */
  function RespondAll(id: nat, v: Server, rs: seq<Message>): Server
    decreases |rs|
  {
    if rs == [] then v
    else RespondAll(id, if rs[0].extra == id then Respond(v, rs[0]) else v, rs[1..])
  }

  /** The datagram with response r: it goes to the client its value names, under the server's id. */
  function Answer(id: nat, r: Message): (Udp4, Message) {
    (Decode(r.value.clientId), r.(fromId := id))
  }

  /** The answers to a list of responses, in order: those this server is responsible for. */
  function AnswersSent(id: nat, rs: seq<Message>): seq<(Udp4, Message)>
    decreases |rs|
  {
    if rs == [] then []
    else (if rs[0].extra == id then [Answer(id, rs[0])] else []) + AnswersSent(id, rs[1..])
  }

  /** An answer reaches the very endpoint whose address the command was stamped with. */
  lemma AnswerReachesItsClient(id: nat, r: Message, from: Udp4)
    requires r.value.clientId == Encode(from)
    ensures Answer(id, r).0 == from
  {
    RoundTrip(from);
  }

  /** What a decided command makes this server tell clients. */
  function AnswersTo(amo: bool, id: nat, v: Server, command: Option<Message>): seq<(Udp4, Message)> {
    if command.None? then [] else AnswersSent(id, TryExecute(amo, v.engine, command.value).1)
  }

  /** A decided command reaches the executor. */
  function Decide(amo: bool, id: nat, v: Server, command: Option<Message>): Server {
    if command.None? then v
    else
      var (e, rs) := TryExecute(amo, v.engine, command.value);
      RespondAll(id, v.(engine := e), rs)
  }

  /** The log writes a handler makes before its reply leaves. */
  function LogWrites(recovery: bool, v: Server, s: nat, e: Effect): Server {
    if recovery && Answers(e) then
      v.(acceptorFile := WriteLog(v.acceptorFile, s, e.node.acceptor, INIT_ACCEPTOR))
    else if recovery && e.command.Some? then
      var x := Informed(e.node.learner.number, e.node.learner.value);
      v.(learnerFile := WriteLog(v.learnerFile, s, x, ZERO_INFORMED))
    else v
  }

  predicate CanDo(o: Options, c: System, a: Action) {
    match a
    case Client(i, from, m) => i < |c.servers| && SubmitOpen(o, c, i)
    case Resubmit(i, m) => i < |c.servers| && m in c.servers[i].resubmits && SubmitOpen(o, c, i)
    case Expire(i, s) => s in c.insts && Enabled(o.cfg, c.insts[s], Timer(i))
    case Receive(s, p) => s in c.insts && p.dst < |c.servers| && Enabled(o.cfg, c.insts[s], Deliver(p))
    case Lose(s, p) => s in c.insts && Enabled(o.cfg, c.insts[s], Drop(p))
    case Copy(s, p) => s in c.insts && Enabled(o.cfg, c.insts[s], Duplicate(p))
    case Reboot(i) => o.cfg.crashes && i < |c.servers|
  }

  /** The submit loop ends only if the next instance, which carries its own number, is undecided
      at this server; otherwise the server reads the same sequence for ever and takes no step. */
  predicate SubmitOpen(o: Options, c: System, i: nat)
    requires i < |c.servers|
  {
    var t := At(o, c, NextSlot(c, i));
    i < |t.nodes| && t.seqno == NextSlot(c, i) && !Decided(t.nodes[i].learner)
  }

  function SetAt(c: System, s: nat, t: Inst): System {
    c.(insts := c.insts[s := t])
  }

  function SetServer(c: System, i: nat, v: Server): System
    requires i < |c.servers|
  {
    c.(servers := c.servers[i := v])
  }

  /** Submit m at server i: PREPARE goes out and the value is expected back at that sequence. */
  function SubmitAt(o: Options, c: System, i: nat, m: Message): System
    requires i < |c.servers| && SubmitOpen(o, c, i)
  {
    var s := NextSlot(c, i);
    var v := c.servers[i];
    SetServer(SetAt(c, s, Apply(o.cfg, At(o, c, s), Submission(i, ToSlot(m, s)))), i,
              v.(expected := Expect(v.expected, s, m.value)))
  }

  /** The command recovery replays for instance s. */
  function Replayed(s: nat, l: Informed): Message {
    Message(UNDEFINED_TYPE, s, 0, l.number, l.value, 0)
  }

  /** PaxosServer::recover replays instances 1..k from the learner log. */
  function Replay(amo: bool, f: File<Informed>, k: nat): Engine
    requires forall i :: 1 <= i <= k ==> Logged(f, i)
  {
    if k == 0 then FRESH_ENGINE
    else
      assert Logged(f, k);
      Advance(amo, Replay(amo, f, k - 1), Replayed(k, f.slots[k].state)).0
  }

  /** The restarted process sees the true file sizes. */
  function Reopen<T>(f: File<T>): File<T> {
    File(f.slots, |f.slots|)
  }

  function Recover(o: Options, v: Server): Server {
    var a, l := Reopen(v.acceptorFile), Reopen(v.learnerFile);
    var min := if o.cfg.recovery then MinFrom(l, 1) else 0;
    MinFromIsMin(l, 1);
    Server(Replay(o.amo, l, min), a, l, map[], multiset{})
  }

  function Do(o: Options, c: System, a: Action): System
    requires CanDo(o, c, a)
  {
    match a
    case Client(i, from, m) =>
      var w := Stamp(from, m);
      SubmitAt(o, c.(clients := c.clients + {w.value}), i, w)
    case Resubmit(i, m) =>
      var v := c.servers[i];
      var w := v.(resubmits := v.resubmits - multiset{m}, expected := v.expected - {m.sequence});
      SubmitAt(o, SetServer(c, i, w), i, m)
    case Expire(i, s) => SetAt(c, s, Apply(o.cfg, c.insts[s], Timer(i)))
    case Receive(s, p) =>
      var t := c.insts[s];
      var e := Dispatch(|t.nodes|, o.cfg.recovery, p.dst, t.nodes[p.dst], p.msg);
      var v := LogWrites(o.cfg.recovery, c.servers[p.dst], s, e);
      SetServer(SetAt(c, s, Apply(o.cfg, t, Deliver(p))), p.dst, Decide(o.amo, p.dst, v, e.command))
    case Lose(s, p) => SetAt(c, s, Apply(o.cfg, c.insts[s], Drop(p)))
    case Copy(s, p) => SetAt(c, s, Apply(o.cfg, c.insts[s], Duplicate(p)))
    case Reboot(i) =>
      SetServer(c, i, Recover(o, c.servers[i])).(insts :=
        map s | s in c.insts ::
          if Enabled(o.cfg, c.insts[s], Crash(i)) then Apply(o.cfg, c.insts[s], Crash(i)) else c.insts[s])
  }

  /** What clients are told while action a is taken. */
  function AnswersOf(o: Options, c: System, a: Action): seq<(Udp4, Message)>
    requires CanDo(o, c, a)
  {
    match a
    case Receive(s, p) =>
      var t := c.insts[s];
      var e := Dispatch(|t.nodes|, o.cfg.recovery, p.dst, t.nodes[p.dst], p.msg);
      AnswersTo(o.amo, p.dst, c.servers[p.dst], e.command)
    case _ => []
  }

  ghost predicate Step(o: Options, c: System, d: System) {
    exists a :: CanDo(o, c, a) && d == Do(o, c, a)
  }

  ghost predicate IsHistory(o: Options, run: seq<System>) {
    && |run| > 0 && o.cfg.n > 0
    && run[0] == Boot(o)
    && forall k: nat :: k < |run| - 1 ==> StepAt(o, run, k)
  }

  ghost predicate StepAt(o: Options, run: seq<System>, k: nat) {
    k + 1 < |run| && Step(o, run[k], run[k + 1])
  }
}
