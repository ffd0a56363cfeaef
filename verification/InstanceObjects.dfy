/** One instance on one server as an object that owns its three roles and its timer, and the
    table that creates instances on first use (src/instance.hpp, src/instance.cpp). */
module InstanceObjects {
  import opened Wire
  import opened Roles
  import opened LogFile
  import opened RoleObjects

  function SlotOf<T>(f: File<T>, i: nat): Option<T> {
    if Logged(f, i) then Some(f.slots[i].state) else None
  }

  class Instance {
    const seqno: nat
    const n: nat
    const id: nat
    const recovery: bool
    const proposer: Proposer
    const acceptor: Acceptor
    const learner: Learner
    const log: Logger
    var timer: Option<Message>

    ghost predicate Valid()
      reads log
    {
      seqno > 0 && proposer.n == n && learner.n == n && log.Valid()
    }

    /** This server's share of the instance, log slots included. */
    function Share(): Node
      reads this, proposer, acceptor, learner, log
    {
      Node(proposer.State(), acceptor.State(), learner.State(), timer,
           SlotOf(log.AcceptorFile(), seqno), SlotOf(log.LearnerFile(), seqno))
    }

    function Parts(): set<object> {
      {this, proposer, acceptor, learner}
    }

    constructor (seqno: nat, n: nat, id: nat, recovery: bool, log: Logger)
      requires seqno > 0 && log.Valid()
      ensures Valid() && fresh(this) && fresh(proposer) && fresh(acceptor) && fresh(learner)
      ensures this.seqno == seqno && this.n == n && this.id == id && this.recovery == recovery && this.log == log
      ensures proposer.State() == InitProposer(n, id) && acceptor.State() == INIT_ACCEPTOR
      ensures learner.State() == INIT_LEARNER && timer == None
    {
      this.seqno, this.n, this.id, this.recovery, this.log := seqno, n, id, recovery, log;
      proposer := new Proposer(n, id);
      acceptor := new Acceptor();
      learner := new Learner(n);
      timer := None;
    }

    method SendAndArm(m: Message) returns (out: seq<Packet>)
      modifies `timer
      ensures timer == Some(m.(fromId := id)) && out == Broadcast(n, m.(fromId := id))
    {
      timer := Some(m.(fromId := id));
      out := Broadcast(n, m.(fromId := id));
    }

    method Submit(m: Message) returns (out: seq<Packet>)
      requires Valid()
      modifies this, proposer
      ensures Valid() && Effect(Share(), out, None) == Roles.Submit(n, id, old(Share()), m)
    {
      out := [];
      var prepare := proposer.OnSubmit(learner, m);
      if prepare.Some? {
        out := SendAndArm(prepare.value);
      }
    }

    method OnTimeout() returns (out: seq<Packet>)
      requires Valid() && timer.Some?
      modifies this, proposer
      ensures Valid() && Effect(Share(), out, None) == Roles.Timeout(n, id, old(Share()))
    {
      var resubmit := timer.value.(kind := SUBMIT);
      timer := None;
      out := Submit(resubmit);
    }

    method HandlePromise(m: Message) returns (out: seq<Packet>)
      requires Valid() && m.fromId < n
      modifies this, proposer
      ensures Valid() && Effect(Share(), out, None) == Roles.HandlePromise(n, id, old(Share()), m)
    {
      out := [];
      var accept := proposer.OnPromise(m);
      if accept.Some? {
        timer := None;
        out := SendAndArm(accept.value);
      }
    }

    method HandleDenial(m: Message) returns (out: seq<Packet>)
      requires Valid() && m.fromId < n
      modifies this, proposer
      ensures Valid() && Effect(Share(), out, None) == Roles.HandleDenial(n, id, old(Share()), m)
    {
      out := [];
      var resubmit := proposer.OnDenial(m);
      if resubmit.Some? {
        timer := None;
        out := Submit(resubmit.value);
      }
    }

    method HandleAccepted(m: Message) returns (out: seq<Packet>)
      requires Valid() && m.fromId < n
      modifies this, learner
      ensures Valid() && Effect(Share(), out, None) == Roles.HandleAccepted(n, id, old(Share()), m)
    {
      out := [];
      var inform := learner.OnAccepted(m);
      if inform.Some? {
        timer := None;
        out := Broadcast(n, inform.value.(fromId := id, extra := id));
      }
    }

    method HandlePrepare(m: Message) returns (out: seq<Packet>)
      requires Valid()
      modifies acceptor, log`acceptorSlots, log`acceptorLogSize
      ensures Valid() && Effect(Share(), out, None) == Roles.HandlePrepare(recovery, id, old(Share()), m)
      ensures log.AcceptorFile()
              == AcceptorFileAfter(recovery, old(log.AcceptorFile()), seqno, Effect(Share(), out, None))
    {
      var reply := acceptor.OnPrepare(learner, log, recovery, seqno, m);
      out := [Packet(m.fromId, if reply.kind.INFORM? then reply else reply.(fromId := id))];
      WriteMovesSlot(old(log.AcceptorFile()), seqno, acceptor.State(), INIT_ACCEPTOR);
    }

    method HandleAccept(m: Message) returns (out: seq<Packet>)
      requires Valid()
      modifies acceptor, log`acceptorSlots, log`acceptorLogSize
      ensures Valid() && Effect(Share(), out, None) == Roles.HandleAccept(recovery, id, old(Share()), m)
      ensures log.AcceptorFile()
              == AcceptorFileAfter(recovery, old(log.AcceptorFile()), seqno, Effect(Share(), out, None))
    {
      var reply := acceptor.OnAccept(learner, log, recovery, seqno, m);
      out := [Packet(m.fromId, if reply.kind.INFORM? then reply else reply.(fromId := id))];
      WriteMovesSlot(old(log.AcceptorFile()), seqno, acceptor.State(), INIT_ACCEPTOR);
    }

    method HandleInform(m: Message) returns (command: Option<Message>)
      requires Valid()
      modifies this, learner, log`learnerSlots, log`learnerLogSize
      ensures Valid() && Effect(Share(), [], command) == Roles.HandleInform(recovery, old(Share()), m)
      ensures log.LearnerFile()
              == LearnerFileAfter(recovery, old(log.LearnerFile()), seqno, Effect(Share(), [], command))
    {
      command := learner.OnInform(log, recovery, seqno, m);
      if command.Some? {
        timer := None;
      }
      WriteMovesSlot(old(log.LearnerFile()), seqno, Informed(m.number, m.value), ZERO_INFORMED);
    }

    /** The per-instance switch. A received message leaves this share, the packets sent, the
        command handed on, and both log files exactly as the model's effect says. */
    method Dispatch(m: Message) returns (out: seq<Packet>, command: Option<Message>)
      requires Valid() && m.fromId < n
      modifies this, proposer, acceptor, learner, log
      ensures Valid() && Effect(Share(), out, command) == Roles.Dispatch(n, recovery, id, old(Share()), m)
      ensures log.AcceptorFile()
              == AcceptorFileAfter(recovery, old(log.AcceptorFile()), seqno, Effect(Share(), out, command))
      ensures log.LearnerFile()
              == LearnerFileAfter(recovery, old(log.LearnerFile()), seqno, Effect(Share(), out, command))
    {
      out, command := [], None;
      match m.kind {
        case PREPARE => out := HandlePrepare(m);
        case PROMISE => out := HandlePromise(m);
        case DENIAL => out := HandleDenial(m);
        case ACCEPT => out := HandleAccept(m);
        case ACCEPTED => out := HandleAccepted(m);
        case INFORM => command := HandleInform(m);
        case _ =>
      }
    }
  }

  /** The acceptor log after a handler's writes. */
  function AcceptorFileAfter(recovery: bool, f: File<AcceptorState>, s: nat, e: Effect): File<AcceptorState> {
    if recovery && Answers(e) then WriteLog(f, s, e.node.acceptor, INIT_ACCEPTOR) else f
  }

  function LearnerFileAfter(recovery: bool, f: File<Informed>, s: nat, e: Effect): File<Informed> {
    if recovery && e.command.Some?
    then WriteLog(f, s, Informed(e.node.learner.number, e.node.learner.value), ZERO_INFORMED) else f
  }

  lemma WriteMovesSlot<T>(f: File<T>, i: nat, x: T, zero: T)
    requires WellFormed(f) && i > 0
    ensures SlotOf(WriteLog(f, i, x, zero), i) == Some(x)
  {
    WriteIsUpdate(f, i, x, zero);
    assert i in Contents(WriteLog(f, i, x, zero));
    assert Contents(WriteLog(f, i, x, zero))[i] == x;
  }

  lemma WriteKeepsSlot<T>(f: File<T>, i: nat, x: T, zero: T, t: nat)
    requires WellFormed(f) && i > 0 && t != i
    ensures SlotOf(WriteLog(f, i, x, zero), t) == SlotOf(f, t)
  {
  }

  /** The share of an instance nobody has used yet, given what the logs hold for it. */
  function FreshShare(n: nat, id: nat, a: File<AcceptorState>, l: File<Informed>, s: nat): Node {
    Node(InitProposer(n, id), INIT_ACCEPTOR, INIT_LEARNER, None, SlotOf(a, s), SlotOf(l, s))
  }

  class Instances {
    const n: nat
    const id: nat
    const recovery: bool
    const log: Logger
    var table: map<nat, Instance>
    ghost var Repr: set<object>

    /** Every instance sits at its own number and shares nothing but the log. */
    ghost predicate Valid()
      reads this, log
    {
      && log.Valid() && this !in Repr && log !in Repr
      && (forall s :: s in table ==> Owned(s, table[s]) && table[s].Parts() <= Repr)
      && forall s, t :: s in table && t in table && s != t ==> Apart(table[s], table[t])
    }

    ghost predicate Owned(s: nat, x: Instance) {
      && s > 0 && x.seqno == s && x.n == n && x.id == id && x.recovery == recovery && x.log == log
      && x.proposer.n == n && x.learner.n == n
    }

    ghost predicate Apart(x: Instance, y: Instance) {
      x != y && x.proposer != y.proposer && x.acceptor != y.acceptor && x.learner != y.learner
    }

    constructor (n: nat, id: nat, recovery: bool, log: Logger)
      requires log.Valid()
      ensures Valid() && table == map[] && Repr == {}
      ensures this.n == n && this.id == id && this.recovery == recovery && this.log == log
    {
      this.n, this.id, this.recovery, this.log := n, id, recovery, log;
      table := map[];
      Repr := {};
    }

    /** The share of instance s, used or not. */
    ghost function ShareOf(s: nat): Node
      requires Valid()
      reads this, Repr, log
    {
      if s in table then table[s].Share() else FreshShare(n, id, log.AcceptorFile(), log.LearnerFile(), s)
    }

    /** Files an instance that shares nothing with those in the table. */
    method Insert(s: nat, x: Instance)
      requires Valid() && s !in table && Owned(s, x)
      requires this !in x.Parts() && log !in x.Parts() && x.Parts() !! Repr
      modifies this
      ensures Valid() && table == old(table)[s := x] && Repr == old(Repr) + x.Parts()
    {
      forall t | t in table ensures Apart(x, table[t]) && Apart(table[t], x) {
        assert table[t].Parts() <= Repr;
      }
      table := table[s := x];
      Repr := Repr + x.Parts();
    }

    method Create(s: nat) returns (x: Instance)
      requires Valid() && s > 0 && s !in table
      modifies this
      ensures Valid() && table == old(table)[s := x] && Repr == old(Repr) + x.Parts()
      ensures fresh(x) && fresh(x.proposer) && fresh(x.acceptor) && fresh(x.learner)
      ensures x.Share() == FreshShare(n, id, log.AcceptorFile(), log.LearnerFile(), s)
    {
      x := new Instance(s, n, id, recovery, log);
      Insert(s, x);
    }

    /** Finds instance s, creating it on first use; that changes no server's share of anything. */
    method GetInstance(s: nat) returns (x: Instance)
      requires Valid() && s > 0
      modifies this
      ensures Valid() && s in table && x == table[s] && x.Valid()
      ensures table == old(table)[s := x] && table.Keys == old(table.Keys) + {s} && fresh(Repr - old(Repr))
      ensures forall t :: t > 0 ==> ShareOf(t) == old(ShareOf(t))
      ensures s in old(table) ==> x == old(table)[s]
      ensures s !in old(table) ==> fresh(x) && fresh(x.proposer) && fresh(x.acceptor) && fresh(x.learner)
                                   && x.Share() == FreshShare(n, id, log.AcceptorFile(), log.LearnerFile(), s)
    {
      if s in table {
        x := table[s];
      } else {
        x := Create(s);
        forall t | t > 0 ensures ShareOf(t) == old(ShareOf(t)) {
          if t in old(table) {
            assert t != s && table[t] == old(table[t]);
          }
        }
      }
    }

    /** What the model's handler does when m arrives. */
    ghost function EffectOf(m: Message): Effect
      requires Valid()
      reads this, Repr, log
    {
      Roles.Dispatch(n, recovery, id, ShareOf(m.sequence), m)
    }

    /** The share of every other instance stays as it was: distinct objects, distinct log slots. */
    method DeliverTo(m: Message) returns (out: seq<Packet>, command: Option<Message>)
      requires Valid() && m.fromId < n && m.sequence in table
      modifies Repr, log
      ensures Valid()
      ensures Effect(ShareOf(m.sequence), out, command) == old(EffectOf(m))
      ensures log.AcceptorFile() == AcceptorFileAfter(recovery, old(log.AcceptorFile()), m.sequence, old(EffectOf(m)))
      ensures log.LearnerFile() == LearnerFileAfter(recovery, old(log.LearnerFile()), m.sequence, old(EffectOf(m)))
      ensures forall t :: t > 0 && t != m.sequence ==> ShareOf(t) == old(ShareOf(t))
    {
      ghost var e := EffectOf(m);
      var x := table[m.sequence];
      out, command := x.Dispatch(m);
      forall t | t > 0 && t != m.sequence ensures ShareOf(t) == old(ShareOf(t)) {
        WriteKeepsSlot(old(log.AcceptorFile()), m.sequence, e.node.acceptor, INIT_ACCEPTOR, t);
        WriteKeepsSlot(old(log.LearnerFile()), m.sequence,
                       Informed(e.node.learner.number, e.node.learner.value), ZERO_INFORMED, t);
        if t in table {
          assert Apart(table[t], x);
        }
      }
    }

    /** A message reaches its instance, which takes the model's step and logs what it must. */
    method Deliver(m: Message) returns (out: seq<Packet>, command: Option<Message>)
      requires Valid() && m.fromId < n && m.sequence > 0
      modifies this, Repr, log
      ensures Valid() && fresh(Repr - old(Repr))
      ensures Effect(ShareOf(m.sequence), out, command) == old(EffectOf(m))
      ensures log.AcceptorFile() == AcceptorFileAfter(recovery, old(log.AcceptorFile()), m.sequence, old(EffectOf(m)))
      ensures log.LearnerFile() == LearnerFileAfter(recovery, old(log.LearnerFile()), m.sequence, old(EffectOf(m)))
      ensures forall t :: t > 0 && t != m.sequence ==> ShareOf(t) == old(ShareOf(t))
    {
      var x := GetInstance(m.sequence);
      out, command := DeliverTo(m);
    }

    /** A request is submitted at instance s. */
    method SubmitTo(s: nat, m: Message) returns (out: seq<Packet>)
      requires Valid() && s > 0
      modifies this, Repr
      ensures Valid() && fresh(Repr - old(Repr))
      ensures Effect(ShareOf(s), out, None) == Roles.Submit(n, id, old(ShareOf(s)), m)
      ensures forall t :: t > 0 && t != s ==> ShareOf(t) == old(ShareOf(t))
    {
      var x := GetInstance(s);
      label Found:
      out := x.Submit(m);
      forall t | t > 0 && t != s ensures ShareOf(t) == old@Found(ShareOf(t)) {
        if t in table {
          assert Apart(table[t], x);
        }
      }
    }

    /** The deadline timer of instance s fires. */
    method Expire(s: nat) returns (out: seq<Packet>)
      requires Valid() && s in table && table[s].timer.Some?
      modifies Repr
      ensures Valid() && Effect(ShareOf(s), out, None) == Roles.Timeout(n, id, old(ShareOf(s)))
      ensures forall t :: t > 0 && t != s ==> ShareOf(t) == old(ShareOf(t))
    {
      var x := table[s];
      out := x.OnTimeout();
      forall t | t > 0 && t != s ensures ShareOf(t) == old(ShareOf(t)) {
        if t in table {
          assert Apart(table[t], x);
        }
      }
    }

    method Disarm(s: nat)
      requires Valid() && s in table
      modifies Repr
      ensures Valid() && ShareOf(s) == old(ShareOf(s)).(timer := None)
      ensures forall t :: t > 0 && t != s ==> ShareOf(t) == old(ShareOf(t))
    {
      var x := table[s];
      x.timer := None;
      forall t | t > 0 && t != s ensures ShareOf(t) == old(ShareOf(t)) {
        if t in table {
          assert Apart(table[t], x);
        }
      }
    }

    /** The recovery scan hands a logged acceptor state to its instance. */
    method RestoreAcceptor(s: nat, x: AcceptorState)
      requires Valid() && s > 0
      modifies this, if s in table then {table[s].acceptor} else {}
      ensures Valid() && s in table && table == old(table)[s := table[s]]
      ensures table.Keys == old(table.Keys) + {s} && fresh(Repr - old(Repr))
      ensures s in old(table) ==> table[s] == old(table)[s]
      ensures s !in old(table) ==> Built(table[s]) && table[s].learner.State() == INIT_LEARNER
      ensures forall t :: t in old(table) && t != s ==> Kept(table[t])
      ensures table[s].acceptor.State() == x
    {
      var inst := GetInstance(s);
      inst.acceptor.RecoverFromState(x);
    }

    method RestoreLearner(s: nat, x: Informed)
      requires Valid() && s > 0
      modifies this, if s in table then {table[s].learner} else {}
      ensures Valid() && s in table && table == old(table)[s := table[s]]
      ensures table.Keys == old(table.Keys) + {s} && fresh(Repr - old(Repr))
      ensures s in old(table) ==> table[s] == old(table)[s]
      ensures s !in old(table) ==> Built(table[s]) && table[s].acceptor.State() == INIT_ACCEPTOR
      ensures s in old(table) ==> unchanged(table[s], table[s].proposer, table[s].acceptor)
      ensures forall t :: t in old(table) && t != s ==> Kept(table[t])
      ensures table[s].learner.State()
              == LearnerState(x.number, x.value,
                              if s in old(table) then old(table[s].learner.acceptedAcceptors) else {}, true, true)
    {
      var inst := GetInstance(s);
      inst.learner.RecoverFromState(x);
    }

    /** Built since the method was entered, proposer and timer untouched. */
    twostate predicate Built(new x: Instance)
      reads x, x.proposer
    {
      && fresh(x) && fresh(x.proposer) && fresh(x.acceptor) && fresh(x.learner)
      && Untouched(x)
    }

    twostate predicate Kept(x: Instance)
      reads x.Parts()
    {
      unchanged(x, x.proposer, x.acceptor, x.learner)
    }

    predicate Untouched(x: Instance)
      reads x, x.proposer
    {
      x.timer == None && x.proposer.State() == InitProposer(n, id)
    }
  }
}
