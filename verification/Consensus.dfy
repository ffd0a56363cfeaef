/** One consensus instance as a state machine: n servers' shares of it, the packets in flight,
    and the events that move it. */
module Consensus {
  import opened Wire
  import opened Roles

  /** The deployment. `recovery` is the need_recovery option; `crashes` and `duplicates` say what
      the environment may do; `asserts` is false in a release build (NDEBUG). Packets may always
      be lost and reordered. */
  datatype Config = Config(n: nat, recovery: bool, crashes: bool, duplicates: bool, asserts: bool)

  /** `sent` and `submitted` are history: every packet and every client value so far. */
  datatype Inst = Inst(
    seqno: nat, nodes: seq<Node>, flight: multiset<Packet>,
    sent: set<Packet>, submitted: set<ProposalValue>)

  datatype Event =
    | Submission(i: nat, m: Message)
    | Timer(i: nat)
    | Deliver(p: Packet)
    | Drop(p: Packet)
    | Duplicate(p: Packet)
    | Crash(i: nat)

  function Init(n: nat, seqno: nat): (s: Inst)
    ensures |s.nodes| == n
  {
    Inst(seqno, seq(n, (i: nat) => InitNode(n, i)), multiset{}, {}, {})
  }

  function SetOf(out: seq<Packet>): set<Packet> {
    set p | p in out
  }

  /** Server i ends a handler: its new node is stored and its packets take flight. */
  function Finish(s: Inst, i: nat, e: Effect): Inst
    requires i < |s.nodes|
  {
    s.(nodes := s.nodes[i := e.node],
       flight := s.flight + multiset(e.out),
       sent := s.sent + SetOf(e.out))
  }

  /** A debug build aborts instead of handling this packet. Aborting is a crash: it is Drop
      followed by Crash, and needs `crashes`. */
  predicate Aborts(cfg: Config, node: Node, m: Message) {
    cfg.asserts && (m.kind.PROMISE? || m.kind.DENIAL?) && !ReplyAssertion(node.proposer, m)
  }

  predicate Enabled(cfg: Config, s: Inst, e: Event) {
    match e
    case Submission(i, m) => i < |s.nodes| && m.sequence == s.seqno
    case Timer(i) => i < |s.nodes| && s.nodes[i].timer.Some?
    case Deliver(p) => p in s.flight && p.dst < |s.nodes| && !Aborts(cfg, s.nodes[p.dst], p.msg)
    case Drop(p) => p in s.flight
    case Duplicate(p) => cfg.duplicates && p in s.flight
    case Crash(i) => cfg.crashes && i < |s.nodes|
  }

  function Take(s: Inst, p: Packet): Inst {
    s.(flight := s.flight - multiset{p})
  }

  function Apply(cfg: Config, s: Inst, e: Event): Inst
    requires Enabled(cfg, s, e)
  {
    var n := |s.nodes|;
    match e
    case Submission(i, m) =>
      Finish(s.(submitted := s.submitted + {m.value}), i, Submit(n, i, s.nodes[i], m))
    case Timer(i) =>
      Finish(s, i, Timeout(n, i, s.nodes[i]))
    case Deliver(p) =>
      Finish(Take(s, p), p.dst, Dispatch(n, cfg.recovery, p.dst, s.nodes[p.dst], p.msg))
    case Drop(p) => Take(s, p)
    case Duplicate(p) => s.(flight := s.flight + multiset{p})
    case Crash(i) => s.(nodes := s.nodes[i := Restart(n, i, s.nodes[i])])
  }

  ghost predicate Next(cfg: Config, s: Inst, t: Inst) {
    exists e :: Enabled(cfg, s, e) && t == Apply(cfg, s, e)
  }

  /** A finite execution from the initial state, as the list of states passed through. */
  ghost predicate IsRun(cfg: Config, run: seq<Inst>) {
    && |run| > 0
    && cfg.n > 0
    && (exists k :: run[0] == Init(cfg.n, k))
    && forall k :: 0 <= k < |run| - 1 ==> Next(cfg, run[k], run[k + 1])
  }

  predicate Majority(n: nat, q: set<nat>) {
    (forall a :: a in q ==> a < n) && |q| * 2 > n
  }

  predicate InformedAt(s: Inst, i: nat) {
    i < |s.nodes| && s.nodes[i].learner.informed
  }

  /** Server a's acceptor holds proposal (b, v) in state s. */
  predicate Holds(s: Inst, a: nat, b: nat, v: ProposalValue) {
    a < |s.nodes| && b > 0 && s.nodes[a].acceptor.number == b && s.nodes[a].acceptor.value == v
  }

  /** Server a's acceptor held (b, v) at some point of the run. */
  ghost predicate HeldIn(run: seq<Inst>, a: nat, b: nat, v: ProposalValue) {
    exists k :: 0 <= k < |run| && Holds(run[k], a, b, v)
  }

  ghost predicate MajorityHeld(n: nat, run: seq<Inst>, q: set<nat>, b: nat, v: ProposalValue) {
    Majority(n, q) && forall a :: a in q ==> HeldIn(run, a, b, v)
  }

  /** A majority accepted (b, v), each member at some point of the run: v is chosen. */
  ghost predicate ChosenIn(n: nat, run: seq<Inst>, b: nat, v: ProposalValue) {
    exists q :: MajorityHeld(n, run, q, b, v)
  }

  /** Consensus: whatever numbers carry them, two chosen values are the same. */
  ghost predicate Agrees(n: nat, run: seq<Inst>) {
    forall b, c, v, w :: ChosenIn(n, run, b, v) && ChosenIn(n, run, c, w) ==> v == w
  }
}
