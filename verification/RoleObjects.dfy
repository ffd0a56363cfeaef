/** The roles as the objects they are: fields updated in place by one handler at a time, each
    handler proved equal to its function in module Roles. */
module RoleObjects {
  import opened Wire
  import opened Roles
  import opened LogFile

  /** The two log files of a server (src/logger.hpp). Sizes are counted in slots. */
  class Logger {
    var acceptorSlots: seq<Slot<AcceptorState>>
    var acceptorLogSize: nat
    var learnerSlots: seq<Slot<Informed>>
    var learnerLogSize: nat

    function AcceptorFile(): File<AcceptorState>
      reads this
    {
      File(acceptorSlots, acceptorLogSize)
    }

    function LearnerFile(): File<Informed>
      reads this
    {
      File(learnerSlots, learnerLogSize)
    }

    ghost predicate Valid()
      reads this
    {
      WellFormed(AcceptorFile()) && WellFormed(LearnerFile())
    }

    /** Opening files that already exist: their recorded sizes are their sizes. */
    constructor (acceptors: seq<Slot<AcceptorState>>, learners: seq<Slot<Informed>>)
      ensures Valid()
      ensures AcceptorFile() == File(acceptors, |acceptors|) && LearnerFile() == File(learners, |learners|)
    {
      acceptorSlots, acceptorLogSize := acceptors, |acceptors|;
      learnerSlots, learnerLogSize := learners, |learners|;
    }

    method AppendAcceptorAsNeed(i: nat)
      requires Valid()
      modifies `acceptorSlots, `acceptorLogSize
      ensures Valid() && AcceptorFile() == AppendAsNeed(old(AcceptorFile()), i, INIT_ACCEPTOR)
    {
      if i >= acceptorLogSize {
        acceptorSlots := acceptorSlots + Zeros(BLOCKS, INIT_ACCEPTOR);
        acceptorLogSize := |acceptorSlots|;
      }
    }

    method AppendLearnerAsNeed(i: nat)
      requires Valid()
      modifies `learnerSlots, `learnerLogSize
      ensures Valid() && LearnerFile() == AppendAsNeed(old(LearnerFile()), i, ZERO_INFORMED)
    {
      if i >= learnerLogSize {
        learnerSlots := learnerSlots + Zeros(BLOCKS, ZERO_INFORMED);
        learnerLogSize := |learnerSlots|;
      }
    }

    /** The whole file is determined, and as a map it is the old one updated at i. */
    method WriteAcceptorLog(i: nat, x: AcceptorState)
      requires Valid() && i > 0
      modifies `acceptorSlots, `acceptorLogSize
      ensures Valid() && AcceptorFile() == WriteLog(old(AcceptorFile()), i, x, INIT_ACCEPTOR)
      ensures Contents(AcceptorFile()) == old(Contents(AcceptorFile()))[i := x]
    {
      WriteIsUpdate(AcceptorFile(), i, x, INIT_ACCEPTOR);
      AppendAcceptorAsNeed(i);
      acceptorSlots := PutAt(acceptorSlots, i, Slot(i, x), INIT_ACCEPTOR);
    }

    method WriteLearnerLog(i: nat, x: Informed)
      requires Valid() && i > 0
      modifies `learnerSlots, `learnerLogSize
      ensures Valid() && LearnerFile() == WriteLog(old(LearnerFile()), i, x, ZERO_INFORMED)
      ensures Contents(LearnerFile()) == old(Contents(LearnerFile()))[i := x]
    {
      WriteIsUpdate(LearnerFile(), i, x, ZERO_INFORMED);
      AppendLearnerAsNeed(i);
      learnerSlots := PutAt(learnerSlots, i, Slot(i, x), ZERO_INFORMED);
    }

    /** A slot carries its own number exactly if the file read as a map has it. */
    method ReadAcceptorLog(i: nat) returns (r: Slot<AcceptorState>)
      requires i < |acceptorSlots|
      ensures r == acceptorSlots[i]
      ensures i > 0 ==> (r.sequence == i <==> i in Contents(AcceptorFile()))
      ensures i > 0 && r.sequence == i ==> Contents(AcceptorFile())[i] == r.state
    {
      r := acceptorSlots[i];
    }

    method ReadLearnerLog(i: nat) returns (r: Slot<Informed>)
      requires i < |learnerSlots|
      ensures r == learnerSlots[i]
      ensures i > 0 ==> (r.sequence == i <==> i in Contents(LearnerFile()))
      ensures i > 0 && r.sequence == i ==> Contents(LearnerFile())[i] == r.state
    {
      r := learnerSlots[i];
    }
  }

  class Learner {
    const n: nat
    var highestAcceptedNumber: nat
    var highestAcceptedValue: ProposalValue
    var acceptedAcceptors: set<nat>
    var learnedMajority: bool
    var informed: bool

    function State(): LearnerState
      reads this
    {
      LearnerState(highestAcceptedNumber, highestAcceptedValue, acceptedAcceptors, learnedMajority, informed)
    }

    constructor (n: nat)
      ensures this.n == n && State() == INIT_LEARNER
    {
      this.n := n;
      highestAcceptedNumber, highestAcceptedValue := 0, NO_VALUE;
      acceptedAcceptors, learnedMajority, informed := {}, false, false;
    }

    method RecoverFromState(x: Informed)
      modifies this
      ensures State() == LearnerState(x.number, x.value, old(acceptedAcceptors), true, true)
    {
      highestAcceptedNumber := x.number;
      highestAcceptedValue := x.value;
      learnedMajority := true;
      informed := true;
    }

    method OnAccepted(m: Message) returns (inform: Option<Message>)
      requires m.fromId < n
      modifies this
      ensures (State(), inform) == Roles.OnAccepted(n, old(State()), m)
    {
      if learnedMajority || informed || m.number < highestAcceptedNumber {
        return None;
      }
      if m.number > highestAcceptedNumber {
        highestAcceptedNumber := m.number;
        highestAcceptedValue := m.value;
        acceptedAcceptors := {};
      }
      acceptedAcceptors := acceptedAcceptors + {m.fromId};
      if |acceptedAcceptors| * 2 > n {
        learnedMajority := true;
        inform := Some(m.(kind := INFORM, number := highestAcceptedNumber, value := highestAcceptedValue));
      } else {
        inform := None;
      }
    }

    /** The decision reaches the log before anything is executed. */
    method OnInform(log: Logger, recovery: bool, seqno: nat, m: Message) returns (command: Option<Message>)
      requires log.Valid() && seqno > 0
      modifies this, log`learnerSlots, log`learnerLogSize
      ensures log.Valid() && (State(), command) == Roles.OnInform(old(State()), m)
      ensures log.LearnerFile() == if recovery && command.Some?
                                   then WriteLog(old(log.LearnerFile()), seqno, Informed(m.number, m.value),
                                                 ZERO_INFORMED)
                                   else old(log.LearnerFile())
    {
      if informed {
        return None;
      }
      informed := true;
      highestAcceptedNumber := m.number;
      highestAcceptedValue := m.value;
      if recovery {
        log.WriteLearnerLog(seqno, Informed(highestAcceptedNumber, highestAcceptedValue));
      }
      command := Some(m.(kind := COMMAND));
    }
  }

  class Acceptor {
    var highestPrepareNumber: nat
    var highestAcceptedNumber: nat
    var highestAcceptedValue: ProposalValue

    function State(): AcceptorState
      reads this
    {
      AcceptorState(highestPrepareNumber, highestAcceptedNumber, highestAcceptedValue)
    }

    constructor ()
      ensures State() == INIT_ACCEPTOR
    {
      highestPrepareNumber, highestAcceptedNumber, highestAcceptedValue := 0, 0, NO_VALUE;
    }

    method RecoverFromState(x: AcceptorState)
      modifies this
      ensures State() == x
    {
      highestPrepareNumber := x.prepare;
      highestAcceptedNumber := x.number;
      highestAcceptedValue := x.value;
    }

    /** A promise is on disk before it can be sent. */
    method OnPrepare(learner: Learner, log: Logger, recovery: bool, seqno: nat, m: Message) returns (reply: Message)
      requires log.Valid() && seqno > 0
      modifies this, log`acceptorSlots, log`acceptorLogSize
      ensures log.Valid() && (State(), reply) == Roles.OnPrepare(old(State()), learner.State(), m)
      ensures log.AcceptorFile() == if recovery && reply.kind.PROMISE?
                                    then WriteLog(old(log.AcceptorFile()), seqno, State(), INIT_ACCEPTOR)
                                    else old(log.AcceptorFile())
    {
      if learner.informed {
        return m.(kind := INFORM, number := learner.highestAcceptedNumber, value := learner.highestAcceptedValue,
                  extra := m.fromId);
      }
      if m.number <= highestPrepareNumber {
        return m.(kind := DENIAL, number := highestPrepareNumber, extra := m.number);
      }
      highestPrepareNumber := m.number;
      if recovery {
        log.WriteAcceptorLog(seqno, AcceptorState(highestPrepareNumber, highestAcceptedNumber, highestAcceptedValue));
      }
      reply := m.(kind := PROMISE, number := highestAcceptedNumber, value := highestAcceptedValue, extra := m.number);
    }

    /** A vote is on disk before it can be sent. */
    method OnAccept(learner: Learner, log: Logger, recovery: bool, seqno: nat, m: Message) returns (reply: Message)
      requires log.Valid() && seqno > 0
      modifies this, log`acceptorSlots, log`acceptorLogSize
      ensures log.Valid() && (State(), reply) == Roles.OnAccept(old(State()), learner.State(), m)
      ensures log.AcceptorFile() == if recovery && reply.kind.ACCEPTED?
                                    then WriteLog(old(log.AcceptorFile()), seqno, State(), INIT_ACCEPTOR)
                                    else old(log.AcceptorFile())
    {
      if learner.informed {
        return m.(kind := INFORM, number := learner.highestAcceptedNumber, value := learner.highestAcceptedValue,
                  extra := m.fromId);
      }
      if m.number < highestPrepareNumber {
        return m.(kind := REJECTED, number := highestPrepareNumber, extra := m.number);
      }
      highestPrepareNumber := m.number;
      highestAcceptedNumber := m.number;
      highestAcceptedValue := m.value;
      if recovery {
        log.WriteAcceptorLog(seqno, AcceptorState(highestPrepareNumber, highestAcceptedNumber, highestAcceptedValue));
      }
      reply := m.(kind := ACCEPTED, extra := m.number);
    }
  }

  class Proposer {
    const n: nat
    var highestAcceptedNumber: nat
    var highestAcceptedValue: ProposalValue
    var currentNumber: nat
    var promisedAcceptors: set<nat>
    var deniedAcceptors: set<nat>
    var haveMajority: bool

    function State(): ProposerState
      reads this
    {
      ProposerState(currentNumber, highestAcceptedNumber, highestAcceptedValue,
                    promisedAcceptors, deniedAcceptors, haveMajority)
    }

    constructor (n: nat, id: nat)
      ensures this.n == n && State() == InitProposer(n, id)
    {
      this.n := n;
      currentNumber := id + n;
      highestAcceptedNumber, highestAcceptedValue := 0, NO_VALUE;
      promisedAcceptors, deniedAcceptors, haveMajority := {}, {}, false;
    }

    method GetNextProposalNumber() returns (b: nat)
      modifies `currentNumber
      ensures b == currentNumber == old(currentNumber) + n
    {
      currentNumber := currentNumber + n;
      b := currentNumber;
    }

    method OnSubmit(learner: Learner, m: Message) returns (prepare: Option<Message>)
      modifies this
      ensures (State(), prepare) == Roles.OnSubmit(n, old(State()), learner.State(), m)
    {
      if learner.learnedMajority || learner.informed {
        return None;
      }
      highestAcceptedNumber := 0;
      highestAcceptedValue := m.value;
      var b := GetNextProposalNumber();
      promisedAcceptors := {};
      deniedAcceptors := {};
      haveMajority := false;
      prepare := Some(m.(kind := PREPARE, number := b));
    }

    /** What a build without assertions does; a build with them aborts first unless
        `ReplyAssertion` holds. */
    method OnPromise(m: Message) returns (accept: Option<Message>)
      requires m.fromId < n
      modifies this
      ensures (State(), accept) == Roles.OnPromise(n, old(State()), m)
    {
      if m.extra < currentNumber {
        return None;
      }
      if m.number > highestAcceptedNumber {
        highestAcceptedNumber := m.number;
        highestAcceptedValue := m.value;
      }
      promisedAcceptors := promisedAcceptors + {m.fromId};
      accept := None;
      if |promisedAcceptors| * 2 > n {
        if !haveMajority {
          haveMajority := true;
          accept := Some(m.(kind := ACCEPT, number := currentNumber, value := highestAcceptedValue));
        }
      }
    }

    method OnDenial(m: Message) returns (resubmit: Option<Message>)
      requires m.fromId < n
      modifies this
      ensures (State(), resubmit) == Roles.OnDenial(n, old(State()), m)
    {
      if m.extra < currentNumber {
        return None;
      }
      deniedAcceptors := deniedAcceptors + {m.fromId};
      if |deniedAcceptors| * 2 > n {
        resubmit := Some(m.(kind := SUBMIT, number := currentNumber));
      } else {
        resubmit := None;
      }
    }
  }
}
