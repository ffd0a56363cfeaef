/** One server process as an object (src/server.hpp, src/server.cpp): the executor and the request
    bookkeeping are fields updated in place, each method proved equal to its function in modules
    Executor and Cluster. */
module ServerObjects {
  import opened Wire
  import opened Endpoint
  import opened Roles
  import opened LogFile
  import opened LockService
  import opened Executor
  import opened Cluster
  import opened RoleObjects
  import opened InstanceObjects
  import opened RecoveryObjects

  /** The first element of an ordered set. */
  lemma {:induction false} LeastKey(keys: set<nat>) returns (k: nat)
    requires keys != {}
    ensures k in keys && forall j :: j in keys ==> k <= j
    decreases |keys|
  {
    var some :| some in keys;
    var rest := keys - {some};
    if rest == {} {
      k := some;
      assert forall j :: j in keys ==> j == some || j in rest;
    } else {
      var least := LeastKey(rest);
      k := if some < least then some else least;
      assert forall j :: j in keys ==> j == some || j in rest;
    }
  }

  /** What draining e yields after some responses were already collected. */
  function Rest(amo: bool, e: Engine, collected: seq<Message>): (Engine, seq<Message>) {
    (Drain(amo, e).0, collected + Drain(amo, e).1)
  }

  lemma RestBegins(amo: bool, e: Engine)
    ensures Rest(amo, e, []) == Drain(amo, e)
  {
    assert [] + Drain(amo, e).1 == Drain(amo, e).1;
  }

  lemma RestEnds(amo: bool, e: Engine, collected: seq<Message>)
    requires e.executed + 1 !in e.waiting
    ensures Rest(amo, e, collected) == (e, collected)
  {
    assert collected + [] == collected;
  }

  lemma RestMoves(amo: bool, e: Engine, collected: seq<Message>)
    requires e.executed + 1 in e.waiting
    ensures var next := e.executed + 1;
            var (x, out) := Advance(amo, e.(waiting := e.waiting - {next}), e.waiting[next]);
            Rest(amo, e, collected) == Rest(amo, x, collected + out)
  {
    var next := e.executed + 1;
    var (x, out) := Advance(amo, e.(waiting := e.waiting - {next}), e.waiting[next]);
    assert collected + (out + Drain(amo, x).1) == collected + out + Drain(amo, x).1;
  }

  class PaxosServer {
    const n: nat
    const id: nat
    const atMostOnce: bool
    const recovery: bool
    const log: Logger
    const instances: Instances
    var executedCmdSeq: nat
    var cmdMinSet: map<nat, Message>
    var objectLockState: map<nat, bv64>
    var clientOpsToResponse: map<Key, Option<Message>>
    var seqToExpectedValues: map<nat, ProposalValue>
    var pendingResubmits: multiset<Message>
    ghost var applied: seq<ProposalValue>

    ghost function Engine(): Engine
      reads this
    {
      Executor.Engine(executedCmdSeq, cmdMinSet, objectLockState, clientOpsToResponse, applied)
    }

    ghost function State(): Server
      reads this, log
    {
      Server(Engine(), log.AcceptorFile(), log.LearnerFile(), seqToExpectedValues, pendingResubmits)
    }

    /** Everything that waits comes after k. */
    ghost predicate WaitsAfter(k: nat)
      reads `cmdMinSet
    {
      forall s :: s in cmdMinSet ==> s > k
    }

    constructor (n: nat, id: nat, atMostOnce: bool, recovery: bool, log: Logger)
      requires log.Valid()
      ensures this.n == n && this.id == id && this.log == log
      ensures this.atMostOnce == atMostOnce && this.recovery == recovery
      ensures State() == Server(FRESH_ENGINE, log.AcceptorFile(), log.LearnerFile(), map[], multiset{})
      ensures fresh(instances) && instances.table == map[] && instances.Repr == {}
    {
      this.n, this.id, this.atMostOnce, this.recovery, this.log := n, id, atMostOnce, recovery, log;
      instances := new Instances(n, id, recovery, log);
      executedCmdSeq, cmdMinSet, objectLockState, clientOpsToResponse := 0, map[], map[], map[];
      seqToExpectedValues, pendingResubmits, applied := map[], multiset{}, [];
    }

    /** The lock table, the remembered replies and the reply, for every command. */
    method ExecuteCommand(command: Message) returns (response: Option<Message>)
      modifies `objectLockState, `clientOpsToResponse, `applied
      ensures (Engine(), response) == Executor.ExecuteCommand(atMostOnce, old(Engine()), command)
    {
      var v := command.value;
      var key := (v.clientId, v.clientOnce);
      applied := applied + [v];
      var once := atMostOnce && IsRegisteredPort(PortOf(v.clientId));
      if once && key in clientOpsToResponse {
        return clientOpsToResponse[key];
      }
      response := None;
      match v.operation {
        case LOCK =>
          if v.target !in objectLockState {
            objectLockState := objectLockState[v.target := UNUSED];
          }
          var holder := objectLockState[v.target];
          var outcome := LOCK_FAILED;
          if holder == UNUSED {
            objectLockState := objectLockState[v.target := v.clientId];
            outcome := LOCK_SUCCEED;
          } else if holder == v.clientId {
            outcome := LOCK_AGAIN;
          }
          response := Some(command.(kind := RESPONSE, value := v.(operation := outcome)));
        case UNLOCK =>
          if v.target !in objectLockState {
            objectLockState := objectLockState[v.target := UNUSED];
          }
          var holder := objectLockState[v.target];
          var outcome := UNLOCK_FAILED;
          if holder == UNUSED {
            outcome := UNLOCK_RELEASED;
          } else if holder == v.clientId {
            outcome := UNLOCK_SUCCEED;
            objectLockState := objectLockState[v.target := UNUSED];
          }
          response := Some(command.(kind := RESPONSE, value := v.(operation := outcome)));
        case NOOPS =>
        case _ => return;
      }
      if once {
        clientOpsToResponse := clientOpsToResponse[key := response];
      }
    }

    /** Executes one command as the next of the log, and collects its response. */
    method ExecuteNext(command: Message) returns (responses: seq<Message>)
      modifies `objectLockState, `clientOpsToResponse, `applied, `executedCmdSeq
      ensures (Engine(), responses) == Advance(atMostOnce, old(Engine()), command)
    {
      var response := ExecuteCommand(command);
      executedCmdSeq := executedCmdSeq + 1;
      responses := [];
      if response.Some? {
        responses := [response.value];
      }
    }

    /** The ordered set's first element. */
    method FirstWaiting() returns (first: nat)
      requires cmdMinSet != map[]
      ensures first in cmdMinSet && forall s :: s in cmdMinSet ==> first <= s
    {
      ghost var least := LeastKey(cmdMinSet.Keys);
      first :| first in cmdMinSet && forall s :: s in cmdMinSet ==> first <= s;
    }

    /** Takes the first waiting command off the ordered set, over and over, while it is the next. */
    method DrainWaiting() returns (responses: seq<Message>)
      requires WaitsAfter(executedCmdSeq)
      modifies `cmdMinSet, `objectLockState, `clientOpsToResponse, `applied, `executedCmdSeq
      ensures WaitsAfter(executedCmdSeq + 1) && (Engine(), responses) == Drain(atMostOnce, old(Engine()))
    {
      responses := [];
      RestBegins(atMostOnce, Engine());
      while cmdMinSet != map[]
        invariant WaitsAfter(executedCmdSeq)
        invariant Rest(atMostOnce, Engine(), responses) == old(Drain(atMostOnce, Engine()))
        decreases |cmdMinSet|
      {
        var first := FirstWaiting();
        if first != executedCmdSeq + 1 {
          break;
        }
        RestMoves(atMostOnce, Engine(), responses);
        var command := cmdMinSet[first];
        cmdMinSet := cmdMinSet - {first};
        var more := ExecuteNext(command);
        responses := responses + more;
      }
      RestEnds(atMostOnce, Engine(), responses);
    }

    method TryExecuteCommands(command: Message) returns (responses: seq<Message>)
      requires WaitsAfter(executedCmdSeq + 1)
      modifies `cmdMinSet, `objectLockState, `clientOpsToResponse, `applied, `executedCmdSeq
      ensures WaitsAfter(executedCmdSeq + 1) && (Engine(), responses) == TryExecute(atMostOnce, old(Engine()), command)
    {
      responses := [];
      if command.sequence == executedCmdSeq + 1 {
        responses := ExecuteNext(command);
        var more := DrainWaiting();
        responses := responses + more;
      } else if command.sequence <= executedCmdSeq {
      } else if command.sequence !in cmdMinSet {
        cmdMinSet := cmdMinSet[command.sequence := command];
      }
    }

    /** Sends the response to its client; what was expected at that sequence comes back if another
        command took its place. */
    method Response(r: Message) returns (answer: (Udp4, Message), resubmit: Option<Message>)
      modifies `seqToExpectedValues
      ensures answer == Answer(id, r)
      ensures State().(resubmits := pendingResubmits + multiset(AsSeq(resubmit))) == Respond(old(State()), r)
    {
      resubmit := None;
      if r.sequence in seqToExpectedValues {
        var expected := seqToExpectedValues[r.sequence];
        if expected.clientId != r.value.clientId || expected.clientOnce != r.value.clientOnce {
          resubmit := Some(r.(value := expected));
        }
        seqToExpectedValues := seqToExpectedValues - {r.sequence};
      }
      answer := (Decode(r.value.clientId), r.(fromId := id));
    }

    method RespondIfResponsible(r: Message) returns (sent: seq<(Udp4, Message)>)
      modifies `seqToExpectedValues, `pendingResubmits
      ensures State() == if r.extra == id then Respond(old(State()), r) else old(State())
      ensures sent == if r.extra == id then [Answer(id, r)] else []
    {
      sent := [];
      if r.extra == id {
        var answer, resubmit := Response(r);
        sent := [answer];
        if resubmit.Some? {
          pendingResubmits := pendingResubmits + multiset{resubmit.value};
        }
      }
    }

    method RespondToAll(responses: seq<Message>) returns (sent: seq<(Udp4, Message)>)
      modifies `seqToExpectedValues, `pendingResubmits
      ensures State() == RespondAll(id, old(State()), responses)
      ensures sent == AnswersSent(id, responses)
    {
      sent := [];
      for k := 0 to |responses|
        invariant RespondAll(id, State(), responses[k..]) == RespondAll(id, old(State()), responses)
        invariant sent + AnswersSent(id, responses[k..]) == AnswersSent(id, responses)
      {
        var more := RespondIfResponsible(responses[k]);
        assert responses[k..][1..] == responses[k + 1..];
        sent := sent + more;
      }
    }

    /** The INFORM branch, once the learner has handed over a command. */
    method ExecuteAndRespond(command: Option<Message>) returns (sent: seq<(Udp4, Message)>)
      requires WaitsAfter(executedCmdSeq + 1)
      modifies this
      ensures WaitsAfter(executedCmdSeq + 1) && State() == Decide(atMostOnce, id, old(State()), command)
      ensures sent == AnswersTo(atMostOnce, id, old(State()), command)
    {
      sent := [];
      if command.Some? {
        var responses := TryExecuteCommands(command.value);
        sent := RespondToAll(responses);
      }
    }

    ghost predicate Valid()
      reads this, instances, log
    {
      && instances.log == log && instances.n == n && instances.id == id && instances.recovery == recovery
      && instances.Valid() && this !in instances.Repr
      && WaitsAfter(executedCmdSeq + 1)
    }

    /** Routes a consensus message: the instance takes the model's step, what it logs is on disk,
        and a command it hands over is executed and answered. */
    method DispatchPaxosMessage(m: Message) returns (out: seq<Packet>, sent: seq<(Udp4, Message)>)
      requires Valid() && m.fromId < n && m.sequence > 0
      modifies this, instances, instances.Repr, log
      ensures Valid()
      ensures var e := old(instances.EffectOf(m));
              && instances.ShareOf(m.sequence) == e.node && out == e.out
              && State() == Decide(atMostOnce, id, LogWrites(recovery, old(State()), m.sequence, e), e.command)
              && sent == AnswersTo(atMostOnce, id, old(State()), e.command)
      ensures forall t :: t > 0 && t != m.sequence ==> instances.ShareOf(t) == old(instances.ShareOf(t))
    {
      ghost var e := instances.EffectOf(m);
      var command;
      out, command := instances.Deliver(m);
      AnswerOrCommand(n, recovery, id, old(instances.ShareOf(m.sequence)), m);
      assert State() == LogWrites(recovery, old(State()), m.sequence, e);
      sent := ExecuteAndRespond(command);
    }

    /** A request goes to the instance after the last executed one. The source's loop tries again
        while that instance is decided here; it is left at the first try or not at all. */
    method SubmitNext(m: Message) returns (out: seq<Packet>)
      requires Valid() && !Decided(instances.ShareOf(executedCmdSeq + 1).learner)
      modifies `seqToExpectedValues, instances, instances.Repr
      ensures Valid()
      ensures var s := old(executedCmdSeq) + 1;
              && Effect(instances.ShareOf(s), out, None) == Roles.Submit(n, id, old(instances.ShareOf(s)), ToSlot(m, s))
              && seqToExpectedValues == Expect(old(seqToExpectedValues), s, m.value)
      ensures forall t :: t > 0 && t != old(executedCmdSeq) + 1 ==> instances.ShareOf(t) == old(instances.ShareOf(t))
    {
      var s := executedCmdSeq + 1;
      out := instances.SubmitTo(s, m.(kind := SUBMIT, sequence := s));
      if s !in seqToExpectedValues {
        seqToExpectedValues := seqToExpectedValues[s := m.value];
      }
    }

    /** A client's request: its value is stamped with the address it came from. */
    method DispatchSubmit(m: Message, from: Udp4) returns (out: seq<Packet>)
      requires Valid() && !Decided(instances.ShareOf(executedCmdSeq + 1).learner)
      modifies `seqToExpectedValues, instances, instances.Repr
      ensures Valid()
      ensures var s, w := old(executedCmdSeq) + 1, Stamp(from, m);
              && Effect(instances.ShareOf(s), out, None) == Roles.Submit(n, id, old(instances.ShareOf(s)), ToSlot(w, s))
              && seqToExpectedValues == Expect(old(seqToExpectedValues), s, w.value)
      ensures forall t :: t > 0 && t != old(executedCmdSeq) + 1 ==> instances.ShareOf(t) == old(instances.ShareOf(t))
    {
      var stamped := m.(value := m.value.(clientId := Encode(from)));
      out := SubmitNext(stamped);
    }

    /** A pending resubmission's random delay is over. */
    method ResubmitNow(m: Message) returns (out: seq<Packet>)
      requires Valid() && m in pendingResubmits && !Decided(instances.ShareOf(executedCmdSeq + 1).learner)
      modifies `seqToExpectedValues, `pendingResubmits, instances, instances.Repr
      ensures Valid()
      ensures var s := old(executedCmdSeq) + 1;
              && Effect(instances.ShareOf(s), out, None) == Roles.Submit(n, id, old(instances.ShareOf(s)), ToSlot(m, s))
              && seqToExpectedValues == Expect(old(seqToExpectedValues) - {m.sequence}, s, m.value)
              && pendingResubmits == old(pendingResubmits) - multiset{m}
      ensures forall t :: t > 0 && t != old(executedCmdSeq) + 1 ==> instances.ShareOf(t) == old(instances.ShareOf(t))
    {
      pendingResubmits := pendingResubmits - multiset{m};
      seqToExpectedValues := seqToExpectedValues - {m.sequence};
      label Forgotten:
      assert Valid() && forall t :: t > 0 ==> instances.ShareOf(t) == old(instances.ShareOf(t));
      out := SubmitNext(m);
      assert forall t :: t > 0 && t != old(executedCmdSeq) + 1 ==>
               instances.ShareOf(t) == old@Forgotten(instances.ShareOf(t));
    }

    /** The deadline timer of instance s fires. What is already executed is not submitted again. */
    method TimerFires(s: nat) returns (out: seq<Packet>)
      requires Valid() && s in instances.table && instances.table[s].timer.Some?
      modifies instances.Repr
      ensures Valid()
      ensures var x := old(instances.ShareOf(s));
              Effect(instances.ShareOf(s), out, None)
              == if x.timer.value.sequence <= executedCmdSeq then Quiet(x.(timer := None)) else Timeout(n, id, x)
      ensures forall t :: t > 0 && t != s ==> instances.ShareOf(t) == old(instances.ShareOf(t))
    {
      if instances.table[s].timer.value.sequence <= executedCmdSeq {
        instances.Disarm(s);
        out := [];
      } else {
        out := instances.Expire(s);
      }
    }

    /** The command that instance i's restored learner holds is the one on disk. */
    method LearnedCommand(i: nat) returns (command: Message)
      requires Valid() && Logged(log.LearnerFile(), i) && log.learnerLogSize == |log.learnerSlots|
      requires Rebuilt(instances, log.AcceptorFile(), log.acceptorLogSize, log.LearnerFile(), log.learnerLogSize)
      requires instances.table.Keys
               == Found(log.AcceptorFile(), log.acceptorLogSize, log.LearnerFile(), log.learnerLogSize)
      ensures command == Replayed(i, log.learnerSlots[i].state)
    {
      assert i in instances.table.Keys;
      var x := instances.table[i];
      assert RebuiltAt(instances, x, i, log.AcceptorFile(), log.acceptorLogSize, log.LearnerFile(), log.learnerLogSize);
      command := Message(UNDEFINED_TYPE, i, 0, x.learner.highestAcceptedNumber, x.learner.highestAcceptedValue, 0);
    }

    /** The replay loop of recover: executed_cmd_seq moves once, at the end. */
    method ReplayPrefix(min: nat)
      requires Valid() && Engine() == FRESH_ENGINE
      requires Rebuilt(instances, log.AcceptorFile(), log.acceptorLogSize, log.LearnerFile(), log.learnerLogSize)
      requires instances.table.Keys
               == Found(log.AcceptorFile(), log.acceptorLogSize, log.LearnerFile(), log.learnerLogSize)
      requires log.learnerLogSize == |log.learnerSlots|
      requires forall s :: 1 <= s <= min ==> Logged(log.LearnerFile(), s)
      modifies this`objectLockState, this`clientOpsToResponse, this`applied, this`executedCmdSeq
      ensures Valid() && Engine() == Replay(atMostOnce, log.LearnerFile(), min)
    {
      ghost var f := log.LearnerFile();
      var i := 1;
      while i <= min
        invariant 1 <= i <= min + 1
        invariant Engine() == Replay(atMostOnce, f, i - 1).(executed := 0)
      {
        assert Logged(f, i);
        ReplayNext(atMostOnce, f, i);
        var command := LearnedCommand(i);
        var response := ExecuteCommand(command);
        i := i + 1;
      }
      executedCmdSeq := min;
      ReplayCounts(atMostOnce, f, min);
    }

    /** What a restarted process does before it serves: it reads the logs back and replays the
        logged prefix. */
    method Recover(ghost o: Options)
      requires Valid() && instances.table == map[] && instances.Repr == {}
      requires log.acceptorLogSize == |log.acceptorSlots| && log.learnerLogSize == |log.learnerSlots|
      requires State() == Server(FRESH_ENGINE, log.AcceptorFile(), log.LearnerFile(), map[], multiset{})
      requires o.amo == atMostOnce && o.cfg.recovery == recovery
      modifies this, instances
      ensures Valid() && State() == Cluster.Recover(o, old(State()))
      ensures recovery ==> forall s :: s > 0 ==> instances.ShareOf(s) == Restart(n, id, old(instances.ShareOf(s)))
    {
      MinFromIsMin(log.LearnerFile(), 1);
      if recovery {
        var found, holes, min, max := RecoverFromLog(log, instances);
        if found {
          ReplayPrefix(min);
        }
        forall s | s > 0
          ensures instances.ShareOf(s) == Restart(n, id, FreshShare(n, id, log.AcceptorFile(), log.LearnerFile(), s))
        {
          RebuiltIsRestart(instances, s);
        }
      }
    }
  }

  lemma {:induction false} ReplayCounts(amo: bool, f: File<Informed>, k: nat)
    requires forall s :: 1 <= s <= k ==> Logged(f, s)
    ensures Replay(amo, f, k).executed == k && Replay(amo, f, k).waiting == map[]
  {
    if k == 0 {
    } else {
      assert Logged(f, k);
      ReplayCounts(amo, f, k - 1);
    }
  }

  /** Executing without counting and counting at the end is the same replay. */
  lemma ReplayNext(amo: bool, f: File<Informed>, k: nat)
    requires k > 0 && Logged(f, k) && forall s :: 1 <= s <= k ==> Logged(f, s)
    ensures ExecuteCommand(amo, Replay(amo, f, k - 1).(executed := 0), Replayed(k, f.slots[k].state)).0
            == Replay(amo, f, k).(executed := 0)
  {
    assert Logged(f, k);
  }

  /** No handler both answers for the acceptor and hands a command on. */
  lemma AnswerOrCommand(n: nat, recovery: bool, id: nat, x: Node, m: Message)
    ensures var e := Roles.Dispatch(n, recovery, id, x, m); !(Answers(e) && e.command.Some?)
  {
  }
}
