/** In-order execution (PaxosServer::try_execute_commands): decided commands arrive in any order
    and are applied in sequence order, the early ones waiting in an ordered set. */
module Executor {
  import opened Wire
  import opened LockService

  /** `waiting` is cmd_min_set: its comparator looks only at the sequence, so it holds at most
      one command per sequence. `applied` is history: the values executed so far, in order. */
  datatype Engine = Engine(
    executed: nat, waiting: map<nat, Message>,
    locks: map<nat, bv64>, cache: map<Key, Option<Message>>,
    applied: seq<ProposalValue>)

  const FRESH_ENGINE := Engine(0, map[], map[], map[], [])

  function Response(c: Message, v: ProposalValue): Message {
    c.(kind := RESPONSE, value := v)
  }

  /** A remembered reply is sent again as it was first sent, old sequence number included. */
  function ExecuteCommand(amo: bool, e: Engine, c: Message): (Engine, Option<Message>) {
    var log := e.applied + [c.value];
    if Guarded(amo, c.value) && KeyOf(c.value) in e.cache then
      (e.(applied := log), e.cache[KeyOf(c.value)])
    else
      var (locks, reply) := ApplyLock(e.locks, c.value);
      var response := if reply.Some? then Some(Response(c, reply.value)) else None;
      var cache := if Guarded(amo, c.value) && Cacheable(c.value)
                   then e.cache[KeyOf(c.value) := response] else e.cache;
      (e.(locks := locks, cache := cache, applied := log), response)
  }

  function AsSeq(m: Option<Message>): seq<Message> {
    if m.Some? then [m.value] else []
  }

  /** Execute c as the next command of the log. */
  function Advance(amo: bool, e: Engine, c: Message): (r: (Engine, seq<Message>))
    ensures r.0.executed == e.executed + 1 && r.0.waiting == e.waiting
  {
    var (x, response) := ExecuteCommand(amo, e, c);
    (x.(executed := e.executed + 1), AsSeq(response))
  }

  /** Keep going while the next command is already waiting. */
  function Drain(amo: bool, e: Engine): (Engine, seq<Message>)
    decreases |e.waiting|
  {
    var next := e.executed + 1;
    if next in e.waiting then
      var (x, out) := Advance(amo, e.(waiting := e.waiting - {next}), e.waiting[next]);
      var (y, more) := Drain(amo, x);
      (y, out + more)
    else
      (e, [])
  }

  function TryExecute(amo: bool, e: Engine, c: Message): (Engine, seq<Message>) {
    if c.sequence == e.executed + 1 then
      var (x, out) := Advance(amo, e, c);
      var (y, more) := Drain(amo, x);
      (y, out + more)
    else if c.sequence <= e.executed || c.sequence in e.waiting then
      (e, [])
    else
      (e.(waiting := e.waiting[c.sequence := c]), [])
  }

  // ---- the engine is the lock machine run over its log ----

  function ValueOf(m: Option<Message>): Option<ProposalValue> {
    if m.Some? then Some(m.value.value) else None
  }

  /** The part of the state clients can observe: locks, and remembered replies by value. */
  function View(e: Engine): Machine {
    Machine(e.locks, map k | k in e.cache :: ValueOf(e.cache[k]))
  }

  lemma ViewIgnoresWaiting(e: Engine, w: map<nat, Message>)
    ensures View(e.(waiting := w)) == View(e)
  {
  }

  lemma ExecuteRefines(amo: bool, e: Engine, c: Message)
    ensures var (x, response) := ExecuteCommand(amo, e, c);
            var (m, reply) := Execute(amo, View(e), c.value);
            View(x) == m && ValueOf(response) == reply
  {
  }

  ghost predicate Follows(amo: bool, e: Engine) {
    && |e.applied| == e.executed
    && View(e) == Run(amo, e.applied)
    && forall s :: s in e.waiting ==> s > e.executed + 1 && e.waiting[s].sequence == s
  }

  /** Between an execution and the drain that follows it, the next command may be waiting. */
  ghost predicate Draining(amo: bool, e: Engine) {
    && |e.applied| == e.executed
    && View(e) == Run(amo, e.applied)
    && forall s :: s in e.waiting ==> s > e.executed && e.waiting[s].sequence == s
  }

  lemma AdvanceFollows(amo: bool, e: Engine, c: Message)
    requires |e.applied| == e.executed && View(e) == Run(amo, e.applied)
    ensures var x := Advance(amo, e, c).0;
            && x.applied == e.applied + [c.value]
            && |x.applied| == x.executed && View(x) == Run(amo, x.applied)
  {
    ExecuteRefines(amo, e, c);
    RunAppend(amo, e.applied, c.value);
  }

  lemma {:induction false} DrainFollows(amo: bool, e: Engine)
    requires Draining(amo, e)
    ensures Follows(amo, Drain(amo, e).0)
    decreases |e.waiting|
  {
    var next := e.executed + 1;
    if next in e.waiting {
      var f := e.(waiting := e.waiting - {next});
      ViewIgnoresWaiting(e, e.waiting - {next});
      AdvanceFollows(amo, f, e.waiting[next]);
      DrainFollows(amo, Advance(amo, f, e.waiting[next]).0);
    }
  }

  lemma TryExecuteFollows(amo: bool, e: Engine, c: Message)
    requires Follows(amo, e)
    ensures Follows(amo, TryExecute(amo, e, c).0)
  {
    if c.sequence == e.executed + 1 {
      AdvanceFollows(amo, e, c);
      DrainFollows(amo, Advance(amo, e, c).0);
    } else {
      ViewIgnoresWaiting(e, e.waiting[c.sequence := c]);
    }
  }

  // ---- whatever vouches for the inputs vouches for the log ----

  /** Every applied and every waiting value is one that ok admits at its sequence. */
  ghost predicate Vouched(ok: (nat, ProposalValue) -> bool, e: Engine) {
    && (forall k :: 0 <= k < |e.applied| ==> ok(k + 1, e.applied[k]))
    && forall s :: s in e.waiting ==> ok(s, e.waiting[s].value)
  }

  lemma AdvanceVouched(amo: bool, ok: (nat, ProposalValue) -> bool, e: Engine, c: Message)
    requires Vouched(ok, e) && |e.applied| == e.executed && ok(e.executed + 1, c.value)
    ensures Vouched(ok, Advance(amo, e, c).0)
    ensures e.applied <= Advance(amo, e, c).0.applied
  {
    var x := Advance(amo, e, c).0;
    assert x.applied == e.applied + [c.value];
  }

  lemma {:induction false} DrainVouched(amo: bool, ok: (nat, ProposalValue) -> bool, e: Engine)
    requires Vouched(ok, e) && Draining(amo, e)
    ensures Vouched(ok, Drain(amo, e).0)
    ensures e.applied <= Drain(amo, e).0.applied
    decreases |e.waiting|
  {
    var next := e.executed + 1;
    if next in e.waiting {
      var f := e.(waiting := e.waiting - {next});
      ViewIgnoresWaiting(e, e.waiting - {next});
      assert ok(next, e.waiting[next].value);
      AdvanceVouched(amo, ok, f, e.waiting[next]);
      AdvanceFollows(amo, f, e.waiting[next]);
      DrainVouched(amo, ok, Advance(amo, f, e.waiting[next]).0);
    }
  }

  lemma TryExecuteVouched(amo: bool, ok: (nat, ProposalValue) -> bool, e: Engine, c: Message)
    requires Vouched(ok, e) && Follows(amo, e) && ok(c.sequence, c.value)
    ensures Vouched(ok, TryExecute(amo, e, c).0)
    ensures e.applied <= TryExecute(amo, e, c).0.applied
  {
    if c.sequence == e.executed + 1 {
      AdvanceVouched(amo, ok, e, c);
      AdvanceFollows(amo, e, c);
      DrainVouched(amo, ok, Advance(amo, e, c).0);
    }
  }

  // ---- what clients are told ----

  function ValuesOf(ms: seq<Message>): seq<ProposalValue> {
    seq(|ms|, (i: nat) requires i < |ms| => ms[i].value)
  }

  function AsValues(v: Option<ProposalValue>): seq<ProposalValue> {
    if v.Some? then [v.value] else []
  }

  /** The replies to the commands of h from position k on, in order, where there is a reply. */
  function RepliesFrom(amo: bool, h: seq<ProposalValue>, k: nat): seq<ProposalValue>
    requires k <= |h|
    decreases |h| - k
  {
    if k == |h| then [] else AsValues(ReplyTo(amo, h, k)) + RepliesFrom(amo, h, k + 1)
  }

  lemma ValuesOfJoin(a: seq<Message>, b: seq<Message>)
    ensures ValuesOf(a + b) == ValuesOf(a) + ValuesOf(b)
  {
  }

  lemma AdvanceAnswers(amo: bool, e: Engine, c: Message)
    requires View(e) == Run(amo, e.applied)
    ensures ValuesOf(Advance(amo, e, c).1) == AsValues(Execute(amo, Run(amo, e.applied), c.value).1)
  {
    ExecuteRefines(amo, e, c);
  }

  /** One command executed, and what follows answered: h is the list executed in the end. */
  lemma AnswersJoin(amo: bool, e: Engine, c: Message, more: seq<Message>, h: seq<ProposalValue>)
    requires View(e) == Run(amo, e.applied)
    requires e.applied + [c.value] <= h && ValuesOf(more) == RepliesFrom(amo, h, |e.applied| + 1)
    ensures ValuesOf(Advance(amo, e, c).1 + more) == RepliesFrom(amo, h, |e.applied|)
  {
    var k := |e.applied|;
    AdvanceAnswers(amo, e, c);
    assert h[..k] == e.applied && h[k] == (e.applied + [c.value])[k];
    ValuesOfJoin(Advance(amo, e, c).1, more);
  }

  /** The engine after one drained command. */
  function Drained(amo: bool, e: Engine): Engine
    requires e.executed + 1 in e.waiting
  {
    Advance(amo, e.(waiting := e.waiting - {e.executed + 1}), e.waiting[e.executed + 1]).0
  }

  lemma DrainedFollows(amo: bool, e: Engine)
    requires Draining(amo, e) && e.executed + 1 in e.waiting
    ensures var x := Drained(amo, e);
            Draining(amo, x) && |x.waiting| < |e.waiting| && x.applied == e.applied + [e.waiting[e.executed + 1].value]
  {
    var f := e.(waiting := e.waiting - {e.executed + 1});
    ViewIgnoresWaiting(e, f.waiting);
    AdvanceFollows(amo, f, e.waiting[e.executed + 1]);
  }

  lemma {:induction false} DrainAnswers(amo: bool, e: Engine)
    requires Draining(amo, e)
    ensures var (y, out) := Drain(amo, e);
            e.applied <= y.applied && ValuesOf(out) == RepliesFrom(amo, y.applied, |e.applied|)
    decreases |e.waiting|
  {
    var next := e.executed + 1;
    if next in e.waiting {
      DrainedFollows(amo, e);
      DrainAnswers(amo, Drained(amo, e));
      DrainedAnswers(amo, e, Drain(amo, Drained(amo, e)).0, Drain(amo, Drained(amo, e)).1);
    }
  }

  lemma DrainedAnswers(amo: bool, e: Engine, y: Engine, more: seq<Message>)
    requires Draining(amo, e) && e.executed + 1 in e.waiting
    requires Drained(amo, e).applied <= y.applied
    requires ValuesOf(more) == RepliesFrom(amo, y.applied, |Drained(amo, e).applied|)
    ensures var c := e.waiting[e.executed + 1];
            var out := Advance(amo, e.(waiting := e.waiting - {e.executed + 1}), c).1 + more;
            e.applied <= y.applied && ValuesOf(out) == RepliesFrom(amo, y.applied, |e.applied|)
  {
    DrainedFollows(amo, e);
    var f := e.(waiting := e.waiting - {e.executed + 1});
    ViewIgnoresWaiting(e, f.waiting);
    AnswersJoin(amo, f, e.waiting[e.executed + 1], more, y.applied);
  }

  /** The responses an arrival yields are, in order, the replies that the lock machine gives to
      the commands newly executed. */
  lemma TryExecuteAnswers(amo: bool, e: Engine, c: Message)
    requires Follows(amo, e)
    ensures var (y, out) := TryExecute(amo, e, c);
            e.applied <= y.applied && ValuesOf(out) == RepliesFrom(amo, y.applied, |e.applied|)
  {
    if c.sequence == e.executed + 1 {
      AdvanceFollows(amo, e, c);
      var x := Advance(amo, e, c).0;
      DrainAnswers(amo, x);
      AnswersJoin(amo, e, c, Drain(amo, x).1, Drain(amo, x).0.applied);
    }
  }

  // ---- the reorder buffer ----

  /** Commands in the order they arrive at a server. */
  function Feed(amo: bool, cs: seq<Message>): Engine {
    if cs == [] then FRESH_ENGINE else TryExecute(amo, Feed(amo, cs[..|cs| - 1]), cs[|cs| - 1]).0
  }

  /** The log positions that have arrived; sequences start at 1. */
  function Received(cs: seq<Message>): set<nat> {
    set c | c in cs && c.sequence > 0 :: c.sequence
  }

  /** Any two arrivals with the same sequence carry the value the log has there. */
  ghost predicate FromLog(log: nat -> ProposalValue, cs: seq<Message>) {
    forall c :: c in cs ==> c.value == log(c.sequence)
  }

  function Prefix(log: nat -> ProposalValue, k: nat): seq<ProposalValue> {
    seq(k, (i: nat) => log(i + 1))
  }

  /** The engine has executed exactly the longest consecutive prefix received, its waiting set is
      exactly the rest, and its state is the lock machine run over that prefix. */
  ghost predicate Buffers(amo: bool, log: nat -> ProposalValue, e: Engine, received: set<nat>) {
    && (forall s :: 1 <= s <= e.executed ==> s in received)
    && e.executed + 1 !in received
    && e.waiting.Keys == (set s | s in received && s > e.executed)
    && (forall s :: s in e.waiting ==> e.waiting[s].value == log(s))
    && e.applied == Prefix(log, e.executed)
    && View(e) == Run(amo, Prefix(log, e.executed))
  }

  /** One drained command: what held of e holds of x, one position further. */
  lemma DrainStep(amo: bool, log: nat -> ProposalValue, e: Engine, received: set<nat>)
    requires Drainable(amo, log, e, received) && e.executed + 1 in e.waiting
    ensures var next := e.executed + 1;
            Drainable(amo, log, Advance(amo, e.(waiting := e.waiting - {next}), e.waiting[next]).0, received)
  {
    var next := e.executed + 1;
    var f := e.(waiting := e.waiting - {next});
    ViewIgnoresWaiting(e, e.waiting - {next});
    AdvanceFollows(amo, f, e.waiting[next]);
    PrefixGrows(log, e.executed);
  }

  lemma PrefixGrows(log: nat -> ProposalValue, k: nat)
    ensures Prefix(log, k + 1) == Prefix(log, k) + [log(k + 1)]
  {
  }

  /** What Buffers says, but the next position may have been received. */
  ghost predicate Drainable(amo: bool, log: nat -> ProposalValue, e: Engine, received: set<nat>) {
    && Draining(amo, e)
    && (forall s :: 1 <= s <= e.executed ==> s in received)
    && e.waiting.Keys == (set s | s in received && s > e.executed)
    && (forall s :: s in e.waiting ==> e.waiting[s].value == log(s))
    && e.applied == Prefix(log, e.executed)
  }

  lemma {:induction false} DrainBuffers(amo: bool, log: nat -> ProposalValue, e: Engine, received: set<nat>)
    requires Drainable(amo, log, e, received)
    ensures Buffers(amo, log, Drain(amo, e).0, received)
    decreases |e.waiting|
  {
    var next := e.executed + 1;
    if next in e.waiting {
      DrainStep(amo, log, e, received);
      DrainBuffers(amo, log, Advance(amo, e.(waiting := e.waiting - {next}), e.waiting[next]).0, received);
    } else {
      assert next !in received;
    }
  }

  lemma NextDrains(amo: bool, log: nat -> ProposalValue, e: Engine, received: set<nat>, c: Message)
    requires Buffers(amo, log, e, received) && Follows(amo, e) && c.value == log(c.sequence)
    requires c.sequence == e.executed + 1
    ensures Drainable(amo, log, Advance(amo, e, c).0, received + {c.sequence})
  {
    AdvanceFollows(amo, e, c);
    PrefixGrows(log, e.executed);
  }

  lemma StepBuffers(amo: bool, log: nat -> ProposalValue, e: Engine, received: set<nat>, c: Message)
    requires Buffers(amo, log, e, received) && Follows(amo, e) && c.value == log(c.sequence)
    ensures Buffers(amo, log, TryExecute(amo, e, c).0, if c.sequence > 0 then received + {c.sequence} else received)
  {
    if c.sequence == e.executed + 1 {
      NextDrains(amo, log, e, received, c);
      DrainBuffers(amo, log, Advance(amo, e, c).0, received + {c.sequence});
    } else {
      ViewIgnoresWaiting(e, e.waiting[c.sequence := c]);
    }
  }

  lemma ReceivedGrows(g: seq<Message>, c: Message)
    ensures Received(g + [c]) == if c.sequence > 0 then Received(g) + {c.sequence} else Received(g)
  {
  }

  lemma NothingReceived(amo: bool, log: nat -> ProposalValue)
    ensures Follows(amo, FRESH_ENGINE) && Buffers(amo, log, FRESH_ENGINE, {})
  {
  }

  /** Reorder-buffer refinement, for every arrival order with losses and duplicates. */
  lemma {:induction false} ReorderBuffer(amo: bool, log: nat -> ProposalValue, cs: seq<Message>)
    requires FromLog(log, cs)
    ensures Follows(amo, Feed(amo, cs)) && Buffers(amo, log, Feed(amo, cs), Received(cs))
  {
    if cs == [] {
      NothingReceived(amo, log);
      assert Received(cs) == {};
    } else {
      var g, c := cs[..|cs| - 1], cs[|cs| - 1];
      ReorderBuffer(amo, log, g);
      StepBuffers(amo, log, Feed(amo, g), Received(g), c);
      TryExecuteFollows(amo, Feed(amo, g), c);
      assert cs == g + [c];
      ReceivedGrows(g, c);
    }
  }

  /** Confluence: two servers that received the same positions, in any orders, with any
      duplicates, have executed the same prefix, wait for the same rest, and hold the same lock
      table and the same replies. */
  lemma ArrivalOrderDoesNotMatter(amo: bool, log: nat -> ProposalValue, cs: seq<Message>, ds: seq<Message>)
    requires FromLog(log, cs) && FromLog(log, ds) && Received(cs) == Received(ds)
    ensures var x, y := Feed(amo, cs), Feed(amo, ds);
            && x.executed == y.executed && x.waiting.Keys == y.waiting.Keys
            && x.applied == y.applied && View(x) == View(y)
  {
    ReorderBuffer(amo, log, cs);
    ReorderBuffer(amo, log, ds);
    var x, y := Feed(amo, cs), Feed(amo, ds);
    assert !(x.executed < y.executed) && !(y.executed < x.executed);
  }
}
