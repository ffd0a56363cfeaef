/** Rebuilding a server's instances from its log files (Logger::recover_from_log). */
module RecoveryObjects {
  import opened Roles
  import opened LogFile
  import opened RoleObjects
  import opened InstanceObjects

  function RecoveredAcceptor(f: File<AcceptorState>, s: nat, i: nat): AcceptorState {
    if s < i && Logged(f, s) then f.slots[s].state else INIT_ACCEPTOR
  }

  function RecoveredLearner(f: File<Informed>, s: nat, i: nat): LearnerState {
    if s < i && Logged(f, s) then LearnerState(f.slots[s].state.number, f.slots[s].state.value, {}, true, true)
    else INIT_LEARNER
  }

  /** Every instance is as freshly built, but for acceptors below i and learners below j, which
      are restored from the files. */
  ghost predicate Rebuilt(instances: Instances, a: File<AcceptorState>, i: nat, l: File<Informed>, j: nat)
    reads instances, instances.Repr
  {
    forall s :: s in instances.table ==>
      instances.table[s].Parts() <= instances.Repr && RebuiltAt(instances, instances.table[s], s, a, i, l, j)
  }

  ghost predicate RebuiltAt(instances: Instances, x: Instance, s: nat,
                            a: File<AcceptorState>, i: nat, l: File<Informed>, j: nat)
    reads x.Parts()
  {
    && instances.Untouched(x)
    && x.acceptor.State() == RecoveredAcceptor(a, s, i)
    && x.learner.State() == RecoveredLearner(l, s, j)
  }

  /** The instances that recovery touches: slots below i of one file and below j of the other. */
  function Found(a: File<AcceptorState>, i: nat, l: File<Informed>, j: nat): set<nat> {
    (set s: nat | s < i && Logged(a, s)) + (set s: nat | s < j && Logged(l, s))
  }

  lemma FoundNext(a: File<AcceptorState>, i: nat, l: File<Informed>, j: nat)
    ensures Found(a, i, l, j + 1) == if Logged(l, j) then Found(a, i, l, j) + {j} else Found(a, i, l, j)
    ensures Found(a, i + 1, l, j) == if Logged(a, i) then Found(a, i, l, j) + {i} else Found(a, i, l, j)
  {
  }

  lemma AppendIncreasing(holes: seq<nat>, x: nat)
    requires Increasing(holes) && forall h :: h in holes ==> h < x
    ensures Increasing(holes + [x])
  {
    forall j, k | 0 <= j < k < |holes + [x]| ensures (holes + [x])[j] < (holes + [x])[k] {
      assert holes[j] in holes;
    }
  }

  /** The first learner loop: the longest logged prefix, but 0 when nothing is missing. */
  method ScanPrefix(log: Logger) returns (min: nat)
    requires log.Valid()
    ensures IsMinSequence(log.LearnerFile(), min) && min == MinFrom(log.LearnerFile(), 1)
  {
    MinFromIsMin(log.LearnerFile(), 1);
    min := 0;
    var i := 1;
    while i < log.learnerLogSize
      invariant i > 0 && min == 0
      invariant MinFrom(log.LearnerFile(), 1) == MinFrom(log.LearnerFile(), i)
      invariant forall s :: 1 <= s < i ==> Logged(log.LearnerFile(), s)
    {
      var slot := log.ReadLearnerLog(i);
      if slot.sequence != i {
        min := i - 1;
        return;
      }
      i := i + 1;
    }
  }

  /** After slots 1..j - 1: max is the last one logged, and the gaps before it are all found. */
  ghost predicate ScannedTo(l: File<Informed>, holes: seq<nat>, max: nat, j: nat) {
    && (max == 0 || Logged(l, max))
    && (forall s :: max < s < j ==> !Logged(l, s))
    && AreHoles(l, holes, max)
  }

  /** The inner loop of the second learner loop: the sequences after `last` up to `max`. */
  method PushHoles(log: Logger, before: seq<nat>, last: nat, max: nat) returns (holes: seq<nat>)
    requires last < max && ScannedTo(log.LearnerFile(), before, last, max) && Logged(log.LearnerFile(), max)
    ensures ScannedTo(log.LearnerFile(), holes, max, max + 1)
  {
    holes := before;
    var k := last + 1;
    while k < max
      invariant last < k <= max
      invariant AreHoles(log.LearnerFile(), holes, k)
    {
      AppendIncreasing(holes, k);
      holes := holes + [k];
      k := k + 1;
    }
  }

  lemma SkipAcceptor(instances: Instances, a: File<AcceptorState>, l: File<Informed>, i: nat)
    requires Rebuilt(instances, a, i, l, 0) && !Logged(a, i)
    ensures Rebuilt(instances, a, i + 1, l, 0)
  {
    forall s | s in instances.table ensures RebuiltAt(instances, instances.table[s], s, a, i + 1, l, 0) {
      assert RebuiltAt(instances, instances.table[s], s, a, i, l, 0);
    }
  }

  lemma SkipLearner(instances: Instances, a: File<AcceptorState>, i: nat, l: File<Informed>, j: nat)
    requires Rebuilt(instances, a, i, l, j) && !Logged(l, j)
    ensures Rebuilt(instances, a, i, l, j + 1)
  {
    forall s | s in instances.table ensures RebuiltAt(instances, instances.table[s], s, a, i, l, j + 1) {
      assert RebuiltAt(instances, instances.table[s], s, a, i, l, j);
    }
  }

  lemma AcceptorRoundDone(instances: Instances, a: File<AcceptorState>, i: nat, l: File<Informed>)
    requires instances.Valid() && i in instances.table
    requires RebuiltAt(instances, instances.table[i], i, a, i + 1, l, 0)
    requires forall s :: s in instances.table && s != i ==> RebuiltAt(instances, instances.table[s], s, a, i, l, 0)
    ensures Rebuilt(instances, a, i + 1, l, 0)
  {
    forall s | s in instances.table ensures RebuiltAt(instances, instances.table[s], s, a, i + 1, l, 0) {
      assert s != i ==> RebuiltAt(instances, instances.table[s], s, a, i, l, 0);
    }
  }

  /** One round of the acceptor loop that finds a logged slot. */
  method RestoreAcceptorSlot(instances: Instances, a: File<AcceptorState>, l: File<Informed>, i: nat)
    requires instances.Valid() && i > 0 && Logged(a, i)
    requires i !in instances.table && Rebuilt(instances, a, i, l, 0)
    modifies instances
    ensures instances.Valid() && Rebuilt(instances, a, i + 1, l, 0)
    ensures instances.table.Keys == old(instances.table.Keys) + {i}
    ensures fresh(instances.Repr - old(instances.Repr))
  {
    instances.RestoreAcceptor(i, a.slots[i].state);
    forall s | s in instances.table && s != i ensures RebuiltAt(instances, instances.table[s], s, a, i, l, 0) {
      assert old(RebuiltAt(instances, instances.table[s], s, a, i, l, 0));
      assert instances.Kept(instances.table[s]);
    }
    AcceptorRoundDone(instances, a, i, l);
  }

  lemma LearnerRoundDone(instances: Instances, a: File<AcceptorState>, i: nat, l: File<Informed>, j: nat)
    requires instances.Valid() && j in instances.table
    requires RebuiltAt(instances, instances.table[j], j, a, i, l, j + 1)
    requires forall s :: s in instances.table && s != j ==> RebuiltAt(instances, instances.table[s], s, a, i, l, j)
    ensures Rebuilt(instances, a, i, l, j + 1)
  {
    forall s | s in instances.table ensures RebuiltAt(instances, instances.table[s], s, a, i, l, j + 1) {
      assert s != j ==> RebuiltAt(instances, instances.table[s], s, a, i, l, j);
    }
  }

  /** One round of the second learner loop that finds a logged slot. */
  method RestoreLearnerSlot(instances: Instances, a: File<AcceptorState>, l: File<Informed>, i: nat, j: nat)
    requires instances.Valid() && j > 0 && Logged(l, j)
    requires Rebuilt(instances, a, i, l, j)
    requires j !in instances.table ==> !(j < i && Logged(a, j))
    modifies instances, instances.Repr
    ensures instances.Valid() && Rebuilt(instances, a, i, l, j + 1)
    ensures instances.table.Keys == old(instances.table.Keys) + {j}
    ensures fresh(instances.Repr - old(instances.Repr))
  {
    assert j in instances.table ==> RebuiltAt(instances, instances.table[j], j, a, i, l, j);
    instances.RestoreLearner(j, l.slots[j].state);
    forall s | s in instances.table && s != j ensures RebuiltAt(instances, instances.table[s], s, a, i, l, j) {
      assert old(RebuiltAt(instances, instances.table[s], s, a, i, l, j));
      assert instances.Kept(instances.table[s]);
    }
    LearnerRoundDone(instances, a, i, l, j);
  }

  /** One round of the acceptor loop. */
  method AcceptorRound(log: Logger, instances: Instances, a: File<AcceptorState>, l: File<Informed>, i: nat)
    requires instances.Valid() && log.AcceptorFile() == a && 0 < i < |a.slots|
    requires Rebuilt(instances, a, i, l, 0) && instances.table.Keys == Found(a, i, l, 0)
    modifies instances
    ensures instances.Valid() && fresh(instances.Repr - old(instances.Repr))
    ensures Rebuilt(instances, a, i + 1, l, 0) && instances.table.Keys == Found(a, i + 1, l, 0)
  {
    FoundNext(a, i, l, 0);
    var slot := log.ReadAcceptorLog(i);
    if slot.sequence == i {
      assert Logged(a, i) && i !in Found(a, i, l, 0);
      RestoreAcceptorSlot(instances, a, l, i);
    } else {
      SkipAcceptor(instances, a, l, i);
    }
  }

  /** The acceptor loop. */
  method RestoreAcceptors(log: Logger, instances: Instances)
    requires log.Valid() && instances.Valid() && instances.table == map[] && instances.Repr == {}
    requires log.acceptorLogSize == |log.acceptorSlots|
    modifies instances
    ensures instances.Valid() && fresh(instances.Repr)
    ensures Rebuilt(instances, log.AcceptorFile(), log.acceptorLogSize, log.LearnerFile(), 0)
    ensures instances.table.Keys == Found(log.AcceptorFile(), log.acceptorLogSize, log.LearnerFile(), 0)
  {
    var a, l := log.AcceptorFile(), log.LearnerFile();
    var i := 1;
    while i < log.acceptorLogSize
      invariant 0 < i && (i <= log.acceptorLogSize || i == 1)
      invariant instances.Valid() && fresh(instances.Repr)
      invariant Rebuilt(instances, a, i, l, 0) && instances.table.Keys == Found(a, i, l, 0)
    {
      AcceptorRound(log, instances, a, l, i);
      i := i + 1;
    }
  }

  lemma SkipScan(l: File<Informed>, holes: seq<nat>, max: nat, j: nat)
    requires ScannedTo(l, holes, max, j) && !Logged(l, j)
    ensures ScannedTo(l, holes, max, j + 1)
  {
  }

  /** The part of a round of the second learner loop that restores a role. */
  method RestoreLearnerIfLogged(log: Logger, instances: Instances, a: File<AcceptorState>, i: nat,
                                l: File<Informed>, j: nat)
    returns (logged: bool)
    requires instances.Valid() && log !in instances.Repr && log.LearnerFile() == l && 0 < j < |l.slots|
    requires Rebuilt(instances, a, i, l, j) && instances.table.Keys == Found(a, i, l, j)
    modifies instances, instances.Repr
    ensures instances.Valid() && fresh(instances.Repr - old(instances.Repr))
    ensures logged <==> Logged(l, j)
    ensures Rebuilt(instances, a, i, l, j + 1) && instances.table.Keys == Found(a, i, l, j + 1)
  {
    FoundNext(a, i, l, j);
    var slot := log.ReadLearnerLog(j);
    logged := slot.sequence == j;
    if logged {
      assert j !in instances.table.Keys ==> j !in Found(a, i, l, j);
      RestoreLearnerSlot(instances, a, l, i, j);
    } else {
      SkipLearner(instances, a, i, l, j);
    }
  }

  /** The part that does the bookkeeping of holes. */
  method ScanSlot(log: Logger, logged: bool, before: seq<nat>, last: nat, j: nat) returns (holes: seq<nat>, max: nat)
    requires last < j && ScannedTo(log.LearnerFile(), before, last, j) && (logged <==> Logged(log.LearnerFile(), j))
    ensures max <= j && ScannedTo(log.LearnerFile(), holes, max, j + 1)
  {
    if logged {
      holes := PushHoles(log, before, last, j);
      max := j;
    } else {
      SkipScan(log.LearnerFile(), before, last, j);
      holes, max := before, last;
    }
  }

  /** One round of the second learner loop. */
  method LearnerRound(log: Logger, instances: Instances, a: File<AcceptorState>, i: nat, l: File<Informed>,
                      before: seq<nat>, last: nat, j: nat)
    returns (holes: seq<nat>, max: nat)
    requires instances.Valid() && log !in instances.Repr && log.LearnerFile() == l
    requires 0 < j < |l.slots| && last < j
    requires Rebuilt(instances, a, i, l, j) && ScannedTo(l, before, last, j)
    requires instances.table.Keys == Found(a, i, l, j)
    modifies instances, instances.Repr
    ensures instances.Valid() && fresh(instances.Repr - old(instances.Repr))
    ensures max <= j && ScannedTo(l, holes, max, j + 1)
    ensures Rebuilt(instances, a, i, l, j + 1) && instances.table.Keys == Found(a, i, l, j + 1)
  {
    var logged := RestoreLearnerIfLogged(log, instances, a, i, l, j);
    holes, max := ScanSlot(log, logged, before, last, j);
  }

  /** The second learner loop. */
  method RestoreLearners(log: Logger, instances: Instances) returns (holes: seq<nat>, max: nat)
    requires log.Valid() && instances.Valid() && log !in instances.Repr
    requires log.acceptorLogSize == |log.acceptorSlots| && log.learnerLogSize == |log.learnerSlots|
    requires Rebuilt(instances, log.AcceptorFile(), log.acceptorLogSize, log.LearnerFile(), 0)
    requires instances.table.Keys == Found(log.AcceptorFile(), log.acceptorLogSize, log.LearnerFile(), 0)
    modifies instances, instances.Repr
    ensures instances.Valid() && fresh(instances.Repr - old(instances.Repr))
    ensures IsMaxSequence(log.LearnerFile(), max) && AreHoles(log.LearnerFile(), holes, max)
    ensures Rebuilt(instances, log.AcceptorFile(), log.acceptorLogSize, log.LearnerFile(), log.learnerLogSize)
    ensures instances.table.Keys
            == Found(log.AcceptorFile(), log.acceptorLogSize, log.LearnerFile(), log.learnerLogSize)
  {
    var a, i, l := log.AcceptorFile(), log.acceptorLogSize, log.LearnerFile();
    holes, max := [], 0;
    var j := 1;
    SkipLearner(instances, a, i, l, 0);
    assert Found(a, i, l, 0) == Found(a, i, l, 1);
    while j < log.learnerLogSize
      invariant 0 < j && (j <= log.learnerLogSize || j == 1) && max < j
      invariant log.LearnerFile() == l && instances.Valid() && fresh(instances.Repr - old(instances.Repr))
      invariant ScannedTo(l, holes, max, j)
      invariant Rebuilt(instances, a, i, l, j)
      invariant instances.table.Keys == Found(a, i, l, j)
    {
      holes, max := LearnerRound(log, instances, a, i, l, holes, max, j);
      j := j + 1;
    }
  }

  /** The whole scan on a freshly started server: the three results are exact, and every logged
      slot, and no other, has become an instance's state. */
  method RecoverFromLog(log: Logger, instances: Instances) returns (found: bool, holes: seq<nat>, min: nat, max: nat)
    requires log.Valid() && instances.Valid() && instances.table == map[] && instances.Repr == {}
    requires log.acceptorLogSize == |log.acceptorSlots| && log.learnerLogSize == |log.learnerSlots|
    modifies instances
    ensures instances.Valid() && fresh(instances.Repr)
    ensures found <==> log.acceptorLogSize != 0 || log.learnerLogSize != 0
    ensures found ==> IsMinSequence(log.LearnerFile(), min) && min == MinFrom(log.LearnerFile(), 1)
    ensures found ==> IsMaxSequence(log.LearnerFile(), max) && AreHoles(log.LearnerFile(), holes, max)
    ensures Rebuilt(instances, log.AcceptorFile(), log.acceptorLogSize, log.LearnerFile(), log.learnerLogSize)
    ensures instances.table.Keys
            == Found(log.AcceptorFile(), log.acceptorLogSize, log.LearnerFile(), log.learnerLogSize)
  {
    found, holes, min, max := false, [], 0, 0;
    if log.acceptorLogSize == 0 && log.learnerLogSize == 0 {
      return;
    }
    found := true;
    RestoreAcceptors(log, instances);
    min := ScanPrefix(log);
    holes, max := RestoreLearners(log, instances);
  }

  /** Rebuilding is restarting: every instance's share, used or not, is what the model's restart
      makes of the logged slots. */
  lemma RebuiltIsRestart(instances: Instances, s: nat)
    requires instances.Valid() && s > 0
    requires var a, l := instances.log.AcceptorFile(), instances.log.LearnerFile();
             && a.recorded == |a.slots| && l.recorded == |l.slots|
             && Rebuilt(instances, a, a.recorded, l, l.recorded)
             && instances.table.Keys == Found(a, a.recorded, l, l.recorded)
    ensures instances.ShareOf(s) == Restart(instances.n, instances.id,
              FreshShare(instances.n, instances.id, instances.log.AcceptorFile(), instances.log.LearnerFile(), s))
  {
    var a, l := instances.log.AcceptorFile(), instances.log.LearnerFile();
    if s in instances.table {
      assert RebuiltAt(instances, instances.table[s], s, a, a.recorded, l, l.recorded);
    } else {
      assert s !in Found(a, a.recorded, l, l.recorded);
    }
  }
}
