/** Who answers a client, and with what (src/server.cpp:124-134, 252-263). A server answers a command
    if the INFORM that first brought it named this server; a repeat is answered by whoever answered
    the first command with its key, and with that one's reply, sequence included. After a restart
    every replayed command names server 0. */
module Tellers {
  import opened Wire
  import opened Endpoint
  import opened Roles
  import opened LogFile
  import opened LockService
  import opened Executor
  import opened Cluster
  import opened Records

  /** The command first taken for position s: an INFORM, or what recovery replayed. */
  function Herald(who: map<nat, Message>, s: nat): Message {
    if s in who then who[s] else Message(UNDEFINED_TYPE, s, 0, 0, NO_VALUE, 0)
  }

  /** Which server it named. */
  function Named(who: map<nat, Message>, s: nat): nat {
    Herald(who, s).extra
  }

  /** The first command of h that has this key and leaves a remembered reply. */
  function FirstOf(h: seq<ProposalValue>, key: Key): nat {
    if h == [] then 0
    else if Answered(h[..|h| - 1], key) then FirstOf(h[..|h| - 1], key)
    else |h| - 1
  }

  /** The command whose reply answers command m: itself, or the one it repeats. */
  function Source(amo: bool, h: seq<ProposalValue>, m: nat): nat
    requires m < |h|
  {
    if Guarded(amo, h[m]) && Answered(h[..m], KeyOf(h[m])) then FirstOf(h[..m], KeyOf(h[m])) else m
  }

  /** The server whose task it is to answer command m. */
  function Teller(amo: bool, h: seq<ProposalValue>, who: map<nat, Message>, m: nat): nat
    requires m < |h|
  {
    Named(who, Source(amo, h, m) + 1)
  }

  /** The datagrams that server id sends about command m, and to whom. */
  function Told(amo: bool, id: nat, h: seq<ProposalValue>, who: map<nat, Message>, m: nat): seq<(Udp4, Message)>
    requires m < |h|
  {
    var reply, s := ReplyTo(amo, h, m), Source(amo, h, m) + 1;
    if reply.Some? && Teller(amo, h, who, m) == id
    then [(Decode(reply.value.clientId), Message(RESPONSE, s, id, Herald(who, s).number, reply.value, id))]
    else []
  }

  function ToldFrom(amo: bool, id: nat, h: seq<ProposalValue>, who: map<nat, Message>, k: nat)
    : seq<(Udp4, Message)>
    requires k <= |h|
    decreases |h| - k
  {
    if k == |h| then [] else Told(amo, id, h, who, k) + ToldFrom(amo, id, h, who, k + 1)
  }

  // ---- the engine knows who was named ----

  /** Response r is to position s, and names whom the command taken for s named. */
  predicate Bears(r: Message, who: map<nat, Message>, s: nat) {
    && r.kind.RESPONSE? && r.sequence == s
    && r.number == Herald(who, s).number && r.extra == Named(who, s) && r.fromId == Herald(who, s).fromId
  }

  /** c is the command taken for position s. */
  predicate NextHerald(who: map<nat, Message>, s: nat, c: Message) {
    c == Herald(who, s) && c.sequence == s
  }

  /** A remembered reply is the one to the first command with its key. */
  predicate KeyHeralded(e: Engine, who: map<nat, Message>, k: Key) {
    k in e.cache && e.cache[k].Some? ==> Bears(e.cache[k].value, who, FirstOf(e.applied, k) + 1)
  }

  ghost predicate CacheHeralded(e: Engine, who: map<nat, Message>) {
    forall k: Key :: KeyHeralded(e, who, k)
  }

  ghost predicate Heralded(e: Engine, who: map<nat, Message>) {
    CacheHeralded(e, who) && forall s :: s in e.waiting ==> e.waiting[s] == Herald(who, s)
  }

  /** Exactly the keys of answered commands are remembered. */
  ghost predicate Remembers(amo: bool, e: Engine) {
    forall k :: k in e.cache <==> amo && Answered(e.applied, k)
  }

  lemma ViewRemembers(amo: bool, e: Engine)
    requires View(e) == Run(amo, e.applied)
    ensures Remembers(amo, e)
  {
    assert View(e).replies.Keys == e.cache.Keys;
    if amo {
      forall k ensures k in e.cache <==> Answered(e.applied, k) {
        RepliesAreAnswers(e.applied, k);
      }
    } else {
      NothingRemembered(e.applied);
    }
  }

  lemma {:induction false} NothingRemembered(h: seq<ProposalValue>)
    ensures Run(false, h).replies == map[]
  {
    if h == [] {
    } else {
      NothingRemembered(h[..|h| - 1]);
    }
  }

  lemma FirstOfStays(h: seq<ProposalValue>, v: ProposalValue, key: Key)
    ensures (h + [v])[..|h|] == h
    ensures Answered(h, key) ==> FirstOf(h + [v], key) == FirstOf(h, key) && Answered(h + [v], key)
    ensures !Answered(h, key) ==> FirstOf(h + [v], key) == |h|
  {
    assert (h + [v])[..|h|] == h;
    if Answered(h, key) {
      var j :| 0 <= j < |h| && Guarded(true, h[j]) && Cacheable(h[j]) && KeyOf(h[j]) == key;
      assert (h + [v])[j] == h[j];
    }
  }

  /** Which command's reply answers the last command of a list. */
  lemma SourceOfLast(amo: bool, h: seq<ProposalValue>, v: ProposalValue)
    ensures Source(amo, h + [v], |h|) == if Guarded(amo, v) && Answered(h, KeyOf(v)) then FirstOf(h, KeyOf(v)) else |h|
  {
    var g := h + [v];
    assert g[..|h|] == h;
    assert g[|h|] == v;
  }

  /** What executing c makes of the entry for key k. */
  lemma KeyStaysHeralded(amo: bool, e: Engine, c: Message, who: map<nat, Message>, k: Key)
    requires KeyHeralded(e, who, k) && Remembers(amo, e) && NextHerald(who, |e.applied| + 1, c)
    ensures KeyHeralded(ExecuteCommand(amo, e, c).0, who, k)
  {
    var x := ExecuteCommand(amo, e, c).0;
    FirstOfStays(e.applied, c.value, k);
    assert k in e.cache ==> k in x.cache && x.cache[k] == e.cache[k];
  }

  lemma ExecuteHeralded(amo: bool, e: Engine, c: Message, who: map<nat, Message>)
    requires Heralded(e, who) && Remembers(amo, e) && NextHerald(who, |e.applied| + 1, c)
    ensures Heralded(ExecuteCommand(amo, e, c).0, who)
  {
    forall k: Key ensures KeyHeralded(ExecuteCommand(amo, e, c).0, who, k) {
      assert KeyHeralded(e, who, k);
      KeyStaysHeralded(amo, e, c, who, k);
    }
  }

  lemma ResponseNames(amo: bool, e: Engine, c: Message, who: map<nat, Message>)
    requires KeyHeralded(e, who, KeyOf(c.value)) && Remembers(amo, e) && NextHerald(who, |e.applied| + 1, c)
    ensures var response := ExecuteCommand(amo, e, c).1;
            response.Some? ==> Bears(response.value, who, Source(amo, e.applied + [c.value], |e.applied|) + 1)
  {
    SourceOfLast(amo, e.applied, c.value);
  }

  /** One command executed: what is remembered, and who is to tell of it. */
  lemma AdvanceHeralded(amo: bool, e: Engine, c: Message, who: map<nat, Message>)
    requires Heralded(e, who) && View(e) == Run(amo, e.applied) && |e.applied| == e.executed
    requires NextHerald(who, e.executed + 1, c)
    ensures var (x, out) := Advance(amo, e, c);
            && Heralded(x, who)
            && forall r :: r in out ==> Bears(r, who, Source(amo, e.applied + [c.value], e.executed) + 1)
  {
    ViewRemembers(amo, e);
    ExecuteHeralded(amo, e, c, who);
    assert KeyHeralded(e, who, KeyOf(c.value));
    ResponseNames(amo, e, c, who);
    CountIgnored(ExecuteCommand(amo, e, c).0, e.executed + 1, who);
  }

  lemma CountIgnored(e: Engine, k: nat, who: map<nat, Message>)
    requires Heralded(e, who)
    ensures Heralded(e.(executed := k), who)
  {
    forall key: Key ensures KeyHeralded(e.(executed := k), who, key) {
      assert KeyHeralded(e, who, key);
    }
  }

  // ---- what is sent ----

  lemma {:induction false} SentJoin(id: nat, a: seq<Message>, b: seq<Message>)
    ensures AnswersSent(id, a + b) == AnswersSent(id, a) + AnswersSent(id, b)
    decreases |a|
  {
    if a == [] {
      assert a + b == b;
    } else {
      SentJoin(id, a[1..], b);
      assert (a + b)[1..] == a[1..] + b;
    }
  }

  /** What is told of command k depends on the commands up to k only. */
  lemma ToldIsPrefix(amo: bool, id: nat, g: seq<ProposalValue>, h: seq<ProposalValue>, who: map<nat, Message>, k: nat)
    requires k < |g| && g <= h
    ensures Told(amo, id, h, who, k) == Told(amo, id, g, who, k)
  {
    assert h[..k] == g[..k] && h[k] == g[k];
  }

  lemma AdvanceTells(amo: bool, id: nat, e: Engine, c: Message, who: map<nat, Message>)
    requires Heralded(e, who) && View(e) == Run(amo, e.applied) && |e.applied| == e.executed
    requires NextHerald(who, e.executed + 1, c)
    ensures AnswersSent(id, Advance(amo, e, c).1) == Told(amo, id, e.applied + [c.value], who, e.executed)
  {
    AdvanceHeralded(amo, e, c, who);
    AdvanceAnswers(amo, e, c);
    OneTold(amo, id, e.applied, c.value, who, Advance(amo, e, c).1);
  }

  /** What one response makes this server send. */
  lemma OneSent(id: nat, r: Message, who: map<nat, Message>, s: nat)
    requires Bears(r, who, s)
    ensures AnswersSent(id, [r])
            == if Named(who, s) == id
               then [(Decode(r.value.clientId), Message(RESPONSE, s, id, Herald(who, s).number, r.value, id))] else []
  {
    assert [r][1..] == [];
  }

  lemma OneTold(amo: bool, id: nat, h: seq<ProposalValue>, v: ProposalValue, who: map<nat, Message>, out: seq<Message>)
    requires |out| <= 1 && ValuesOf(out) == AsValues(Execute(amo, Run(amo, h), v).1)
    requires forall r :: r in out ==> Bears(r, who, Source(amo, h + [v], |h|) + 1)
    ensures AnswersSent(id, out) == Told(amo, id, h + [v], who, |h|)
  {
    assert (h + [v])[..|h|] == h && (h + [v])[|h|] == v;
    assert |ValuesOf(out)| == |out|;
    if out != [] {
      assert out[0] in out && out == [out[0]] && ValuesOf(out)[0] == out[0].value;
      OneSent(id, out[0], who, Source(amo, h + [v], |h|) + 1);
    }
  }

  /** One command executed, then the rest: h is the list executed in the end. */
  lemma TellsJoin(amo: bool, id: nat, e: Engine, c: Message, who: map<nat, Message>, more: seq<Message>,
                  h: seq<ProposalValue>)
    requires Heralded(e, who) && View(e) == Run(amo, e.applied) && |e.applied| == e.executed
    requires NextHerald(who, e.executed + 1, c) && e.applied + [c.value] <= h
    requires AnswersSent(id, more) == ToldFrom(amo, id, h, who, |e.applied| + 1)
    ensures AnswersSent(id, Advance(amo, e, c).1 + more) == ToldFrom(amo, id, h, who, |e.applied|)
  {
    AdvanceTells(amo, id, e, c, who);
    ToldIsPrefix(amo, id, e.applied + [c.value], h, who, |e.applied|);
    SentJoin(id, Advance(amo, e, c).1, more);
  }

  lemma DrainedHeralded(amo: bool, e: Engine, who: map<nat, Message>)
    requires Draining(amo, e) && Heralded(e, who) && e.executed + 1 in e.waiting
    ensures Heralded(Drained(amo, e), who)
  {
    var f := e.(waiting := e.waiting - {e.executed + 1});
    WithoutNext(amo, e, f, who);
    AdvanceHeralded(amo, f, e.waiting[e.executed + 1], who);
  }

  lemma WaitingIgnored(e: Engine, f: Engine, who: map<nat, Message>)
    requires Heralded(e, who) && f == e.(waiting := f.waiting)
    requires forall s :: s in f.waiting ==> f.waiting[s] == Herald(who, s)
    ensures Heralded(f, who)
  {
    forall k: Key ensures KeyHeralded(f, who, k) {
      assert KeyHeralded(e, who, k);
    }
  }

  lemma {:induction false} DrainTells(amo: bool, id: nat, e: Engine, who: map<nat, Message>)
    requires Draining(amo, e) && Heralded(e, who)
    ensures var (y, out) := Drain(amo, e);
            && e.applied <= y.applied && Heralded(y, who)
            && AnswersSent(id, out) == ToldFrom(amo, id, y.applied, who, |e.applied|)
    decreases |e.waiting|
  {
    var next := e.executed + 1;
    if next in e.waiting {
      DrainedFollows(amo, e);
      DrainedHeralded(amo, e, who);
      DrainTells(amo, id, Drained(amo, e), who);
      DrainedTells(amo, id, e, who, Drain(amo, Drained(amo, e)).0.applied, Drain(amo, Drained(amo, e)).1);
    }
  }

  lemma DrainedTells(amo: bool, id: nat, e: Engine, who: map<nat, Message>, h: seq<ProposalValue>, more: seq<Message>)
    requires Draining(amo, e) && Heralded(e, who) && e.executed + 1 in e.waiting && Drained(amo, e).applied <= h
    requires AnswersSent(id, more) == ToldFrom(amo, id, h, who, |Drained(amo, e).applied|)
    ensures var f := e.(waiting := e.waiting - {e.executed + 1});
            e.applied <= h && AnswersSent(id, Advance(amo, f, e.waiting[e.executed + 1]).1 + more)
                              == ToldFrom(amo, id, h, who, |e.applied|)
  {
    DrainedFollows(amo, e);
    var f := e.(waiting := e.waiting - {e.executed + 1});
    WithoutNext(amo, e, f, who);
    TellsJoin(amo, id, f, e.waiting[e.executed + 1], who, more, h);
  }

  /** Taking the next command out of the waiting set. */
  lemma WithoutNext(amo: bool, e: Engine, f: Engine, who: map<nat, Message>)
    requires Draining(amo, e) && Heralded(e, who) && e.executed + 1 in e.waiting
    requires f == e.(waiting := e.waiting - {e.executed + 1})
    ensures Heralded(f, who) && View(f) == Run(amo, f.applied) && |f.applied| == f.executed
    ensures NextHerald(who, f.executed + 1, e.waiting[e.executed + 1])
  {
    ViewIgnoresWaiting(e, f.waiting);
    WaitingIgnored(e, f, who);
  }

  // ---- one arrival ----

  /** An arrival counts if its position is neither executed nor waiting. */
  function Heralds(e: Engine, who: map<nat, Message>, c: Message): map<nat, Message> {
    if c.sequence <= e.executed || c.sequence in e.waiting then who else who[c.sequence := c]
  }

  lemma {:induction false} FirstIsInside(h: seq<ProposalValue>, key: Key)
    requires Answered(h, key)
    ensures FirstOf(h, key) < |h|
  {
    if Answered(h[..|h| - 1], key) {
      FirstIsInside(h[..|h| - 1], key);
    }
  }

  lemma ArrivalHeralded(amo: bool, e: Engine, who: map<nat, Message>, c: Message)
    requires Follows(amo, e) && Heralded(e, who)
    ensures Heralded(e, Heralds(e, who, c))
  {
    ViewRemembers(amo, e);
    forall k: Key ensures KeyHeralded(e, Heralds(e, who, c), k) {
      assert KeyHeralded(e, who, k);
      if k in e.cache {
        FirstIsInside(e.applied, k);
      }
    }
  }

  lemma NextTells(amo: bool, id: nat, e: Engine, w: map<nat, Message>, c: Message)
    requires Follows(amo, e) && Heralded(e, w) && c.sequence == e.executed + 1 && NextHerald(w, c.sequence, c)
    ensures var (y, out) := TryExecute(amo, e, c);
            && e.applied <= y.applied && Heralded(y, w)
            && AnswersSent(id, out) == ToldFrom(amo, id, y.applied, w, |e.applied|)
  {
    AdvanceFollows(amo, e, c);
    AdvanceHeralded(amo, e, c, w);
    var x := Advance(amo, e, c).0;
    DrainTells(amo, id, x, w);
    TellsJoin(amo, id, e, c, w, Drain(amo, x).1, Drain(amo, x).0.applied);
  }

  /** Exactly what a server tells clients when a command arrives: of every command newly executed
      that has a reply, in order, those whose teller it is. */
  lemma TellsExactly(amo: bool, id: nat, e: Engine, who: map<nat, Message>, c: Message)
    requires Follows(amo, e) && Heralded(e, who)
    ensures var (y, out) := TryExecute(amo, e, c);
            var w := Heralds(e, who, c);
            && e.applied <= y.applied && Heralded(y, w)
            && AnswersSent(id, out) == ToldFrom(amo, id, y.applied, w, |e.applied|)
  {
    var w := Heralds(e, who, c);
    ArrivalHeralded(amo, e, who, c);
    if c.sequence == e.executed + 1 {
      NextTells(amo, id, e, w, c);
    } else if c.sequence > e.executed && c.sequence !in e.waiting {
      var f := e.(waiting := e.waiting[c.sequence := c]);
      WaitingIgnored(e, f, w);
    }
  }

  // ---- after a restart ----

  /** What recovery takes for positions 1 to k: the commands in the log, which name server 0. */
  function AllReplayed(f: File<Informed>, k: nat): map<nat, Message> {
    map s: nat | 1 <= s <= k && Logged(f, s) ::
      Message(UNDEFINED_TYPE, s, 0, f.slots[s].state.number, f.slots[s].state.value, 0)
  }

  lemma LastReplayed(amo: bool, f: File<Informed>, k: nat, e: Engine, who: map<nat, Message>)
    requires k > 0 && forall i :: 1 <= i <= k ==> Logged(f, i)
    requires e == Replay(amo, f, k - 1) && Heralded(e, who) && Logged(f, k)
    requires NextHerald(who, k, Replayed(k, f.slots[k].state))
    ensures Heralded(Replay(amo, f, k), who)
  {
    ReplayView(amo, f, k - 1, e);
    ReplayStep(amo, f, k);
    StaysHeralded(amo, e, Replayed(k, f.slots[k].state), who);
  }

  lemma StaysHeralded(amo: bool, e: Engine, c: Message, who: map<nat, Message>)
    requires Heralded(e, who) && View(e) == Run(amo, e.applied) && |e.applied| == e.executed
    requires NextHerald(who, e.executed + 1, c)
    ensures Heralded(Advance(amo, e, c).0, who)
  {
    AdvanceHeralded(amo, e, c, who);
  }

  lemma ReplayStep(amo: bool, f: File<Informed>, k: nat)
    requires k > 0 && forall i :: 1 <= i <= k ==> Logged(f, i)
    ensures Logged(f, k)
    ensures Replay(amo, f, k) == Advance(amo, Replay(amo, f, k - 1), Replayed(k, f.slots[k].state)).0
  {
    assert Logged(f, k);
  }

  lemma ReplayView(amo: bool, f: File<Informed>, k: nat, e: Engine)
    requires (forall i :: 1 <= i <= k ==> Logged(f, i)) && e == Replay(amo, f, k)
    ensures View(e) == Run(amo, e.applied) && |e.applied| == e.executed == k && e.waiting == map[]
  {
    ReplayFollows(amo, f, k);
  }

  /** The engine after any replay remembers the replies to what the log held. */
  lemma {:induction false} ReplayHeralded(amo: bool, f: File<Informed>, k: nat, all: nat)
    requires k <= all && forall i :: 1 <= i <= all ==> Logged(f, i)
    ensures Heralded(Replay(amo, f, k), AllReplayed(f, all))
  {
    if k == 0 {
    } else {
      assert Logged(f, k);
      ReplayHeralded(amo, f, k - 1, all);
      LastReplayed(amo, f, k, Replay(amo, f, k - 1), AllReplayed(f, all));
    }
  }
}
