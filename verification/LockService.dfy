/** The replicated lock table and its reply cache (PaxosServer::execute_command), as a machine
    that consumes proposal values one after the other. */
module LockService {
  import opened Wire
  import opened Endpoint

  /** A client's operation: its id and its per-client counter. */
  type Key = (bv64, nat)

  datatype Machine = Machine(locks: map<nat, bv64>, replies: map<Key, Option<ProposalValue>>)

  const FRESH_MACHINE := Machine(map[], map[])

  function KeyOf(v: ProposalValue): Key {
    (v.clientId, v.clientOnce)
  }

  /** At-most-once applies to clients on registered ports when the option is on. */
  predicate Guarded(amo: bool, v: ProposalValue) {
    amo && IsRegisteredPort(PortOf(v.clientId))
  }

  /** A lookup that also inserts the sentinel for an object never seen before. */
  function Touch(locks: map<nat, bv64>, o: nat): (r: map<nat, bv64>)
    ensures o in r
  {
    if o in locks then locks else locks[o := UNUSED]
  }

  function LockOutcome(holder: bv64, client: bv64): Operation {
    if holder == UNUSED then LOCK_SUCCEED else if holder == client then LOCK_AGAIN else LOCK_FAILED
  }

  function UnlockOutcome(holder: bv64, client: bv64): Operation {
    if holder == UNUSED then UNLOCK_RELEASED else if holder == client then UNLOCK_SUCCEED else UNLOCK_FAILED
  }

  /** The lock table after v, and the reply: the value with its operation replaced by the
      outcome. NOOPS and unknown operations do nothing and have no reply. */
  function ApplyLock(locks: map<nat, bv64>, v: ProposalValue): (map<nat, bv64>, Option<ProposalValue>) {
    match v.operation
    case LOCK =>
      var l := Touch(locks, v.target);
      var outcome := LockOutcome(l[v.target], v.clientId);
      (if outcome.LOCK_SUCCEED? then l[v.target := v.clientId] else l, Some(v.(operation := outcome)))
    case UNLOCK =>
      var l := Touch(locks, v.target);
      var outcome := UnlockOutcome(l[v.target], v.clientId);
      (if outcome.UNLOCK_SUCCEED? then l[v.target := UNUSED] else l, Some(v.(operation := outcome)))
    case _ => (locks, None)
  }

  /** The operations whose reply is remembered. */
  predicate Cacheable(v: ProposalValue) {
    v.operation.LOCK? || v.operation.UNLOCK? || v.operation.NOOPS?
  }

  function Execute(amo: bool, m: Machine, v: ProposalValue): (Machine, Option<ProposalValue>) {
    if Guarded(amo, v) && KeyOf(v) in m.replies then
      (m, m.replies[KeyOf(v)])
    else
      var (locks, reply) := ApplyLock(m.locks, v);
      (Machine(locks, if Guarded(amo, v) && Cacheable(v) then m.replies[KeyOf(v) := reply] else m.replies), reply)
  }

  /** The machine after a whole history. */
  function Run(amo: bool, h: seq<ProposalValue>): Machine {
    if h == [] then FRESH_MACHINE else Execute(amo, Run(amo, h[..|h| - 1]), h[|h| - 1]).0
  }

  /** What the k-th command of a history is answered. */
  function ReplyTo(amo: bool, h: seq<ProposalValue>, k: nat): Option<ProposalValue>
    requires k < |h|
  {
    Execute(amo, Run(amo, h[..k]), h[k]).1
  }

  lemma RunAppend(amo: bool, h: seq<ProposalValue>, v: ProposalValue)
    ensures Run(amo, h + [v]) == Execute(amo, Run(amo, h), v).0
  {
    assert (h + [v])[..|h|] == h;
  }

  // ---- at most once ----

  /** Some command of h has this key and leaves a remembered reply. */
  predicate Answered(h: seq<ProposalValue>, key: Key) {
    exists j :: 0 <= j < |h| && Guarded(true, h[j]) && Cacheable(h[j]) && KeyOf(h[j]) == key
  }

  /** Command k of h repeats an earlier answered one. */
  predicate Repeat(h: seq<ProposalValue>, k: nat)
    requires k < |h|
  {
    Guarded(true, h[k]) && Answered(h[..k], KeyOf(h[k]))
  }

  /** The history with every repeat removed. */
  function Dedup(h: seq<ProposalValue>): (r: seq<ProposalValue>) {
    if h == [] then []
    else
      var r := Dedup(h[..|h| - 1]);
      if Repeat(h, |h| - 1) then r else r + [h[|h| - 1]]
  }

  lemma {:induction false} RepliesAreAnswers(h: seq<ProposalValue>, key: Key)
    ensures key in Run(true, h).replies <==> Answered(h, key)
  {
    if h == [] {
    } else {
      var g, v := h[..|h| - 1], h[|h| - 1];
      RepliesAreAnswers(g, key);
      assert forall j :: 0 <= j < |g| ==> g[j] == h[j];
      if Answered(h, key) && !Answered(g, key) {
        assert KeyOf(v) == key && Cacheable(v);
        RepliesAreAnswers(g, KeyOf(v));
      }
      if Answered(g, key) {
        var j :| 0 <= j < |g| && Guarded(true, g[j]) && Cacheable(g[j]) && KeyOf(g[j]) == key;
        assert KeyOf(h[j]) == key;
      }
    }
  }

  /** At-most-once equivalence: with the cache, a history leaves the lock table that the history
      without its repeats leaves in a server that has no cache at all. */
  lemma {:induction false} AtMostOnce(h: seq<ProposalValue>)
    ensures Run(true, h).locks == Run(false, Dedup(h)).locks
  {
    if h == [] {
    } else {
      var g, v := h[..|h| - 1], h[|h| - 1];
      AtMostOnce(g);
      RepliesAreAnswers(g, KeyOf(v));
      if !Repeat(h, |h| - 1) {
        RunAppend(false, Dedup(g), v);
      }
    }
  }

  /** A command that is not a repeat is answered as the cache-free server answers it after the
      deduplicated history before it. */
  lemma FirstsAnswerPlainly(h: seq<ProposalValue>, k: nat)
    requires k < |h| && !Repeat(h, k)
    ensures ReplyTo(true, h, k) == Execute(false, Run(false, Dedup(h[..k])), h[k]).1
  {
    AtMostOnce(h[..k]);
    RepliesAreAnswers(h[..k], KeyOf(h[k]));
  }

  /** Every repeat is answered exactly as the first command with its key was. */
  lemma {:induction false} RepeatsAnswerAlike(h: seq<ProposalValue>, j: nat, k: nat)
    requires j < k < |h| && Guarded(true, h[j]) && Cacheable(h[j]) && KeyOf(h[j]) == KeyOf(h[k])
    requires !Answered(h[..j], KeyOf(h[j]))
    ensures Repeat(h, k) && ReplyTo(true, h, k) == ReplyTo(true, h, j)
  {
    assert h[..k][j] == h[j];
    RepliesAreAnswers(h[..j], KeyOf(h[j]));
    assert h[..j + 1][..j] == h[..j];
    assert Run(true, h[..j + 1]).replies[KeyOf(h[j])] == ReplyTo(true, h, j);
    ReplyStays(h, j + 1, k, KeyOf(h[j]));
  }

  lemma {:induction false} ReplyStays(h: seq<ProposalValue>, j: nat, k: nat, key: Key)
    requires j <= k <= |h| && key in Run(true, h[..j]).replies
    ensures key in Run(true, h[..k]).replies && Run(true, h[..k]).replies[key] == Run(true, h[..j]).replies[key]
    decreases k
  {
    if j < k {
      ReplyStays(h, j, k - 1, key);
      assert h[..k][..k - 1] == h[..k - 1];
    }
  }

  predicate DistinctKeys(h: seq<ProposalValue>) {
    forall j, k :: 0 <= j < k < |h| ==> KeyOf(h[j]) != KeyOf(h[k])
  }

  /** Nothing but LOCK, UNLOCK and NOOPS from registered-port clients. */
  predicate AllGuarded(h: seq<ProposalValue>) {
    forall j :: 0 <= j < |h| ==> Guarded(true, h[j]) && Cacheable(h[j])
  }

  predicate KeyIn(r: seq<ProposalValue>, key: Key) {
    exists j :: 0 <= j < |r| && KeyOf(r[j]) == key
  }

  /** What is left after deduplication has exactly the keys of the whole history. */
  lemma {:induction false} DedupKeepsKeys(h: seq<ProposalValue>, key: Key)
    requires AllGuarded(h)
    ensures KeyIn(Dedup(h), key) <==> Answered(h, key)
  {
    if h == [] {
    } else {
      var g, v := h[..|h| - 1], h[|h| - 1];
      DedupKeepsKeys(g, key);
      AnsweredGrows(g, v, key);
      assert h == g + [v];
      if !Repeat(h, |h| - 1) {
        KeyInGrows(Dedup(g), v, key);
      }
    }
  }

  lemma AnsweredGrows(g: seq<ProposalValue>, v: ProposalValue, key: Key)
    requires Guarded(true, v) && Cacheable(v)
    ensures Answered(g + [v], key) <==> Answered(g, key) || KeyOf(v) == key
  {
    var h := g + [v];
    if Answered(g, key) {
      var j :| 0 <= j < |g| && Guarded(true, g[j]) && Cacheable(g[j]) && KeyOf(g[j]) == key;
      assert h[j] == g[j];
    }
    assert h[|g|] == v;
  }

  lemma KeyInGrows(r: seq<ProposalValue>, v: ProposalValue, key: Key)
    ensures KeyIn(r + [v], key) <==> KeyIn(r, key) || KeyOf(v) == key
  {
    var q := r + [v];
    if KeyIn(r, key) {
      var j :| 0 <= j < |r| && KeyOf(r[j]) == key;
      assert q[j] == r[j];
    }
    assert q[|r|] == v;
  }

  /** For such histories deduplication keeps one command per key, and it is the first: command k
      is kept if and only if no earlier command has its key. */
  lemma {:induction false} DedupKeepsFirsts(h: seq<ProposalValue>)
    requires AllGuarded(h)
    ensures DistinctKeys(Dedup(h))
    ensures h != [] ==> var k := |h| - 1;
              Dedup(h) == if KeyIn(h[..k], KeyOf(h[k])) then Dedup(h[..k]) else Dedup(h[..k]) + [h[k]]
  {
    if h == [] {
    } else {
      var g, v := h[..|h| - 1], h[|h| - 1];
      DedupKeepsFirsts(g);
      DedupKeepsKeys(g, KeyOf(v));
      AnsweredIsKeyIn(g, KeyOf(v));
    }
  }

  lemma AnsweredIsKeyIn(h: seq<ProposalValue>, key: Key)
    requires AllGuarded(h)
    ensures Answered(h, key) <==> KeyIn(h, key)
  {
  }

  // ---- lock discipline ----

  /** One change of hands of an object. */
  datatype Grant = Taken(client: bv64) | Released(client: bv64)

  /** What command v and its reply add to the changes of hands of object o. */
  function Granted(g: seq<Grant>, o: nat, v: ProposalValue, reply: Option<ProposalValue>): seq<Grant> {
    if reply == None || v.target != o then g
    else if reply.value.operation.LOCK_SUCCEED? then g + [Taken(v.clientId)]
    else if reply.value.operation.UNLOCK_SUCCEED? then g + [Released(v.clientId)]
    else g
  }

  /** The changes of hands of object o over a history, read off the replies alone. */
  function Grants(h: seq<ProposalValue>, o: nat): seq<Grant> {
    if h == [] then []
    else
      var k := |h| - 1;
      Granted(Grants(h[..k], o), o, h[k], ReplyTo(false, h, k))
  }

  /** Who holds an object after these changes of hands. */
  function HolderAfter(g: seq<Grant>): bv64 {
    if g != [] && g[|g| - 1].Taken? then g[|g| - 1].client else UNUSED
  }

  /** Taken and released strictly alternate, beginning with taken, and whoever releases is the
      one who took. */
  predicate Alternate(g: seq<Grant>) {
    && (forall k :: 0 <= k < |g| ==> (g[k].Taken? <==> k % 2 == 0))
    && forall k :: 0 < k < |g| && g[k].Released? ==> g[k].client == g[k - 1].client
  }

  /** Every client id of the history came from an endpoint. */
  predicate FromEndpoints(h: seq<ProposalValue>) {
    forall k :: 0 <= k < |h| ==> Stamped(h[k].clientId)
  }

  function HolderIn(m: Machine, o: nat): bv64 {
    if o in m.locks then m.locks[o] else UNUSED
  }

  /** The changes of hands g explain who holds object o in machine m. */
  predicate Explains(g: seq<Grant>, m: Machine, o: nat) {
    && Alternate(g)
    && HolderIn(m, o) == HolderAfter(g)
    && forall k :: 0 <= k < |g| ==> g[k].client != UNUSED
  }

  /** One more change of hands, when it is the other kind's turn and a release is the taker's. */
  lemma AlternateGrows(g: seq<Grant>, x: Grant)
    requires Alternate(g) && (x.Taken? <==> HolderAfter(g) == UNUSED)
    requires x.Released? ==> x.client == HolderAfter(g)
    requires forall k :: 0 <= k < |g| ==> g[k].client != UNUSED
    ensures Alternate(g + [x])
  {
    var r := g + [x];
    if g != [] {
      assert g[|g| - 1].Taken? <==> (|g| - 1) % 2 == 0;
    }
    assert x.Taken? <==> |g| % 2 == 0;
    forall k | 0 <= k < |r| ensures r[k].Taken? <==> k % 2 == 0 {
      if k < |g| {
        assert r[k] == g[k];
      }
    }
  }

  /** A LOCK of o: taken if o was free, and nothing changes hands otherwise. */
  lemma LockStep(g: seq<Grant>, m: Machine, o: nat, v: ProposalValue)
    requires Explains(g, m, o) && v.clientId != UNUSED && v.operation.LOCK? && v.target == o
    ensures var (n, reply) := Execute(false, m, v); Explains(Granted(g, o, v, reply), n, o)
  {
    if HolderIn(m, o) == UNUSED {
      AlternateGrows(g, Taken(v.clientId));
    }
  }

  /** An UNLOCK of o: released if the asker held it, and nothing changes hands otherwise. */
  lemma UnlockStep(g: seq<Grant>, m: Machine, o: nat, v: ProposalValue)
    requires Explains(g, m, o) && v.clientId != UNUSED && v.operation.UNLOCK? && v.target == o
    ensures var (n, reply) := Execute(false, m, v); Explains(Granted(g, o, v, reply), n, o)
  {
    if HolderIn(m, o) == v.clientId {
      AlternateGrows(g, Released(v.clientId));
    }
  }

  /** Any other command leaves o alone. */
  lemma OtherStep(g: seq<Grant>, m: Machine, o: nat, v: ProposalValue)
    requires v.target != o || !(v.operation.LOCK? || v.operation.UNLOCK?)
    ensures var (n, reply) := Execute(false, m, v); Granted(g, o, v, reply) == g && HolderIn(n, o) == HolderIn(m, o)
  {
  }

  lemma DisciplineStep(g: seq<Grant>, m: Machine, o: nat, v: ProposalValue)
    requires Explains(g, m, o) && v.clientId != UNUSED
    ensures var (n, reply) := Execute(false, m, v); Explains(Granted(g, o, v, reply), n, o)
  {
    if v.target == o && v.operation.LOCK? {
      LockStep(g, m, o, v);
    } else if v.target == o && v.operation.UNLOCK? {
      UnlockStep(g, m, o, v);
    } else {
      OtherStep(g, m, o, v);
    }
  }

  /** Lock discipline, and the lock table is what the changes of hands say. */
  lemma {:induction false} Discipline(h: seq<ProposalValue>, o: nat)
    requires FromEndpoints(h)
    ensures Explains(Grants(h, o), Run(false, h), o)
  {
    if h == [] {
    } else {
      var k := |h| - 1;
      Discipline(h[..k], o);
      StampedExactly(h[k].clientId);
      DisciplineStep(Grants(h[..k], o), Run(false, h[..k]), o, h[k]);
    }
  }

  /** Every reply is decided by who holds the object at that moment: failure means somebody else
      holds it, "again" that the asker does, success that it is free to take or the asker's to
      release. */
  lemma RepliesTellTheHolder(h: seq<ProposalValue>, k: nat)
    requires FromEndpoints(h) && k < |h| && (h[k].operation.LOCK? || h[k].operation.UNLOCK?)
    ensures var holder := HolderAfter(Grants(h[..k], h[k].target));
            var reply := ReplyTo(false, h, k);
            && reply.Some? && reply.value == h[k].(operation := reply.value.operation)
            && (reply.value.operation == LOCK_FAILED <==>
                  h[k].operation.LOCK? && holder != UNUSED && holder != h[k].clientId)
            && (reply.value.operation == LOCK_AGAIN <==> h[k].operation.LOCK? && holder == h[k].clientId)
            && (reply.value.operation == LOCK_SUCCEED <==> h[k].operation.LOCK? && holder == UNUSED)
            && (reply.value.operation == UNLOCK_SUCCEED <==> h[k].operation.UNLOCK? && holder == h[k].clientId)
            && (reply.value.operation == UNLOCK_FAILED <==>
                  h[k].operation.UNLOCK? && holder != UNUSED && holder != h[k].clientId)
            && (reply.value.operation == UNLOCK_RELEASED <==> h[k].operation.UNLOCK? && holder == UNUSED)
  {
    Discipline(h[..k], h[k].target);
    StampedExactly(h[k].clientId);
  }

  /** The discipline of the commands a server with the cache actually applies. */
  lemma DedupDiscipline(h: seq<ProposalValue>, o: nat)
    requires FromEndpoints(h)
    ensures Explains(Grants(Dedup(h), o), Run(true, h), o)
  {
    DedupFromEndpoints(h);
    AtMostOnce(h);
    Discipline(Dedup(h), o);
  }

  lemma {:induction false} DedupFromEndpoints(h: seq<ProposalValue>)
    requires FromEndpoints(h)
    ensures FromEndpoints(Dedup(h))
  {
    if h == [] {
    } else {
      DedupFromEndpoints(h[..|h| - 1]);
    }
  }
}
