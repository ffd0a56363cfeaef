/** The three roles of one consensus instance on one server, as functions on values
    (src/proposer.cpp, src/acceptor.cpp, src/learner.cpp), and the per-instance part of the
    message dispatch (src/server.cpp). Each function is one atomic handler. */
module Roles {
  import opened Wire

  datatype ProposerState = ProposerState(
    current: nat, highestNumber: nat, highestValue: ProposalValue,
    promised: set<nat>, denied: set<nat>, majority: bool)

  datatype AcceptorState = AcceptorState(prepare: nat, number: nat, value: ProposalValue)

  datatype LearnerState = LearnerState(
    number: nat, value: ProposalValue, accepted: set<nat>, learned: bool, informed: bool)

  /** What the learner log keeps of an informed learner. */
  datatype Informed = Informed(number: nat, value: ProposalValue)

  /** One server's share of one instance. `timer` is the message the armed deadline timer will
      resubmit; the two slots are this instance's records in the server's log files. */
  datatype Node = Node(
    proposer: ProposerState, acceptor: AcceptorState, learner: LearnerState, timer: Option<Message>,
    acceptorSlot: Option<AcceptorState>, learnerSlot: Option<Informed>)

  /** A handler's new state, the packets it sends, and the command it hands to the executor. */
  datatype Effect = Effect(node: Node, out: seq<Packet>, command: Option<Message>)

  function InitProposer(n: nat, id: nat): ProposerState {
    ProposerState(id + n, 0, NO_VALUE, {}, {}, false)
  }

  const INIT_ACCEPTOR := AcceptorState(0, 0, NO_VALUE)
  const ZERO_INFORMED := Informed(0, NO_VALUE)
  const INIT_LEARNER := LearnerState(0, NO_VALUE, {}, false, false)

  function InitNode(n: nat, id: nat): Node {
    Node(InitProposer(n, id), INIT_ACCEPTOR, INIT_LEARNER, None, None, None)
  }

  // ---- proposer ----

  predicate Decided(l: LearnerState) {
    l.learned || l.informed
  }

  function OnSubmit(n: nat, p: ProposerState, l: LearnerState, m: Message): (ProposerState, Option<Message>) {
    if Decided(l) then
      (p, None)
    else
      var number := p.current + n;
      (ProposerState(number, 0, m.value, {}, {}, false), Some(m.(kind := PREPARE, number := number)))
  }

  /** The assertion both reply handlers open with; it is compiled out of release builds. */
  predicate ReplyAssertion(p: ProposerState, m: Message) {
    m.extra <= p.current
  }

  function Absorb(p: ProposerState, m: Message): ProposerState {
    if m.number > p.highestNumber then
      p.(highestNumber := m.number, highestValue := m.value, promised := p.promised + {m.fromId})
    else
      p.(promised := p.promised + {m.fromId})
  }

  function OnPromise(n: nat, p: ProposerState, m: Message): (ProposerState, Option<Message>) {
    if m.extra < p.current then
      (p, None)
    else
      var q := Absorb(p, m);
      if |q.promised| * 2 > n && !q.majority then
        (q.(majority := true), Some(m.(kind := ACCEPT, number := q.current, value := q.highestValue)))
      else
        (q, None)
  }

  function OnDenial(n: nat, p: ProposerState, m: Message): (ProposerState, Option<Message>) {
    if m.extra < p.current then
      (p, None)
    else
      var q := p.(denied := p.denied + {m.fromId});
      if |q.denied| * 2 > n then
        (q, Some(m.(kind := SUBMIT, number := q.current)))
      else
        (q, None)
  }

  // ---- acceptor ----

  /** An informed server answers any phase with the decision, naming the asker as responsible. */
  function InformReply(l: LearnerState, m: Message): Message {
    m.(kind := INFORM, number := l.number, value := l.value, extra := m.fromId)
  }

  function OnPrepare(a: AcceptorState, l: LearnerState, m: Message): (AcceptorState, Message) {
    if l.informed then
      (a, InformReply(l, m))
    else if m.number <= a.prepare then
      (a, m.(kind := DENIAL, number := a.prepare, extra := m.number))
    else
      (a.(prepare := m.number), m.(kind := PROMISE, number := a.number, value := a.value, extra := m.number))
  }

  function OnAccept(a: AcceptorState, l: LearnerState, m: Message): (AcceptorState, Message) {
    if l.informed then
      (a, InformReply(l, m))
    else if m.number < a.prepare then
      (a, m.(kind := REJECTED, number := a.prepare, extra := m.number))
    else
      (AcceptorState(m.number, m.number, m.value), m.(kind := ACCEPTED, extra := m.number))
  }

  // ---- learner ----

  function Count(l: LearnerState, m: Message): LearnerState {
    if m.number > l.number then
      l.(number := m.number, value := m.value, accepted := {m.fromId})
    else
      l.(accepted := l.accepted + {m.fromId})
  }

  function OnAccepted(n: nat, l: LearnerState, m: Message): (LearnerState, Option<Message>) {
    if Decided(l) || m.number < l.number then
      (l, None)
    else
      var k := Count(l, m);
      if |k.accepted| * 2 > n then
        (k.(learned := true), Some(m.(kind := INFORM, number := k.number, value := k.value)))
      else
        (k, None)
  }

  function OnInform(l: LearnerState, m: Message): (LearnerState, Option<Message>) {
    if l.informed then
      (l, None)
    else
      (l.(number := m.number, value := m.value, informed := true), Some(m.(kind := COMMAND)))
  }

  // ---- sending, timers and logging around the handlers ----

  /** Proposer::prepare and Proposer::accept: broadcast under the server's own id and re-arm. */
  function SendAndArm(n: nat, id: nat, node: Node, m: Message): Effect {
    var own := m.(fromId := id);
    Effect(node.(timer := Some(own)), Broadcast(n, own), None)
  }

  function Quiet(node: Node): Effect {
    Effect(node, [], None)
  }

  function Submit(n: nat, id: nat, node: Node, m: Message): Effect {
    var (p, prepare) := OnSubmit(n, node.proposer, node.learner, m);
    if prepare.None? then Quiet(node)
    else SendAndArm(n, id, node.(proposer := p), prepare.value)
  }

  /** The deadline timer fires: it is no longer armed, and its message is submitted again. */
  function Timeout(n: nat, id: nat, node: Node): Effect
    requires node.timer.Some?
  {
    Submit(n, id, node.(timer := None), node.timer.value.(kind := SUBMIT))
  }

  function HandlePromise(n: nat, id: nat, node: Node, m: Message): Effect {
    var (p, accept) := OnPromise(n, node.proposer, m);
    if accept.None? then Quiet(node.(proposer := p))
    else SendAndArm(n, id, node.(proposer := p), accept.value)
  }

  function HandleDenial(n: nat, id: nat, node: Node, m: Message): Effect {
    var (p, resubmit) := OnDenial(n, node.proposer, m);
    if resubmit.None? then Quiet(node.(proposer := p))
    else Submit(n, id, node.(proposer := p, timer := None), resubmit.value)
  }

  /** The DENIAL branch hands what on_submit returns to prepare without looking: this message makes
      it use a null pointer. The model takes no further step. */
  predicate UsesNull(n: nat, x: Node, m: Message) {
    && m.kind.DENIAL?
    && var (p, resubmit) := OnDenial(n, x.proposer, m);
    resubmit.Some? && OnSubmit(n, p, x.learner, resubmit.value).1.None?
  }

  /** The reply's sender is this server, except for INFORM, which keeps the asker's id. */
  function Reply(id: nat, to: nat, m: Message): Packet {
    Packet(to, if m.kind.INFORM? then m else m.(fromId := id))
  }

  function HandlePrepare(recovery: bool, id: nat, node: Node, m: Message): Effect {
    var (a, reply) := OnPrepare(node.acceptor, node.learner, m);
    var slot := if recovery && reply.kind.PROMISE? then Some(a) else node.acceptorSlot;
    Effect(node.(acceptor := a, acceptorSlot := slot), [Reply(id, m.fromId, reply)], None)
  }

  function HandleAccept(recovery: bool, id: nat, node: Node, m: Message): Effect {
    var (a, reply) := OnAccept(node.acceptor, node.learner, m);
    var slot := if recovery && reply.kind.ACCEPTED? then Some(a) else node.acceptorSlot;
    Effect(node.(acceptor := a, acceptorSlot := slot), [Reply(id, m.fromId, reply)], None)
  }

  function HandleAccepted(n: nat, id: nat, node: Node, m: Message): Effect {
    var (l, inform) := OnAccepted(n, node.learner, m);
    if inform.None? then Quiet(node.(learner := l))
    else Effect(node.(learner := l, timer := None),
                Broadcast(n, inform.value.(fromId := id, extra := id)), None)
  }

  function HandleInform(recovery: bool, node: Node, m: Message): Effect {
    var (l, command) := OnInform(node.learner, m);
    if command.None? then Quiet(node.(learner := l))
    else
      var slot := if recovery then Some(Informed(l.number, l.value)) else node.learnerSlot;
      Effect(node.(learner := l, timer := None, learnerSlot := slot), [], command)
  }

  /** PaxosServer::dispatch_received_message for one instance. REJECTED and anything else that
      the outer switch does not route is dropped. */
  function Dispatch(n: nat, recovery: bool, id: nat, node: Node, m: Message): Effect {
    match m.kind
    case PREPARE => HandlePrepare(recovery, id, node, m)
    case PROMISE => HandlePromise(n, id, node, m)
    case DENIAL => HandleDenial(n, id, node, m)
    case ACCEPT => HandleAccept(recovery, id, node, m)
    case ACCEPTED => HandleAccepted(n, id, node, m)
    case INFORM => HandleInform(recovery, node, m)
    case _ => Quiet(node)
  }

  /** The effect sends one promise or one vote: the acceptor's state was logged first. */
  predicate Answers(e: Effect) {
    |e.out| == 1 && (e.out[0].msg.kind.PROMISE? || e.out[0].msg.kind.ACCEPTED?)
  }

  // ---- restart ----

  /** Acceptor::recover_from_state and Learner::recover_from_state on freshly built roles. */
  function Restart(n: nat, id: nat, node: Node): Node {
    Node(
      InitProposer(n, id),
      match node.acceptorSlot case Some(a) => a case None => INIT_ACCEPTOR,
      match node.learnerSlot case Some(l) => LearnerState(l.number, l.value, {}, true, true) case None => INIT_LEARNER,
      None, node.acceptorSlot, node.learnerSlot)
  }
}
