/** What a server still expects, and what it queues for resubmission (src/server.cpp:134-170, 196-215,
    332-358), read off the actions of a history. A position expects the first value submitted there
    that has not been settled since; an answer for the position, a resubmission queued from it and a
    restart settle it. An answer to another client's command, or to another of the same client's,
    queues the expected one again. */
module Expecting {
  import opened Wire
  import opened Endpoint
  import opened Cluster

  // ---- submitting and settling ----

  /** Action a submits a value at server i, for the position after the last it executed. */
  predicate Submits(c: System, a: Action, i: nat, s: nat) {
    && ((a.Client? && a.i == i) || (a.Resubmit? && a.i == i))
    && i < |c.servers| && s == c.servers[i].engine.executed + 1
  }

  /** The value it submits: a client's, under the client's own address, or the one queued. */
  function Submitted(a: Action): ProposalValue {
    match a
    case Client(i, from, m) => ProposalValue(m.value.operation, m.value.target, Encode(from), m.value.clientOnce)
    case Resubmit(i, m) => m.value
    case _ => NO_VALUE
  }

  /** One of these datagrams answers position s. */
  predicate AnswersAt(answers: seq<(Udp4, Message)>, s: nat) {
    exists t :: 0 <= t < |answers| && answers[t].1.sequence == s
  }

  /** Action a settles what server i expects at s. */
  predicate Settles(o: Options, c: System, a: Action, i: nat, s: nat)
    requires CanDo(o, c, a)
  {
    match a
    case Receive(r, p) => p.dst == i && AnswersAt(AnswersOf(o, c, a), s)
    case Resubmit(j, m) => j == i && m.sequence == s
    case Reboot(j) => j == i
    case _ => false
  }

  // ---- answering clients ----

  lemma {:induction false} RespondAllSettles(id: nat, v: Server, rs: seq<Message>, s: nat)
    ensures var w := RespondAll(id, v, rs);
            && (s in w.expected <==> s in v.expected && !AnswersAt(AnswersSent(id, rs), s))
            && (s in w.expected ==> w.expected[s] == v.expected[s])
    decreases |rs|
  {
    if rs == [] {
    } else if rs[0].extra == id {
      RespondAllSettles(id, Respond(v, rs[0]), rs[1..], s);
      AnswersAtJoin(Answer(id, rs[0]), AnswersSent(id, rs[1..]), s);
    } else {
      RespondAllSettles(id, v, rs[1..], s);
      assert AnswersSent(id, rs) == AnswersSent(id, rs[1..]);
    }
  }

  lemma AnswersAtJoin(x: (Udp4, Message), rest: seq<(Udp4, Message)>, s: nat)
    ensures AnswersAt([x] + rest, s) <==> x.1.sequence == s || AnswersAt(rest, s)
  {
    var all := [x] + rest;
    assert all[0] == x;
    if AnswersAt(rest, s) {
      var t :| 0 <= t < |rest| && rest[t].1.sequence == s;
      assert all[t + 1] == rest[t];
    }
    if AnswersAt(all, s) && x.1.sequence != s {
      var t :| 0 <= t < |all| && all[t].1.sequence == s;
      assert all[t] == rest[t - 1];
    }
  }

  /** No earlier one of these datagrams answers the same position. */
  predicate FirstAt(answers: seq<(Udp4, Message)>, t: nat)
    requires t < |answers|
  {
    forall u :: 0 <= u < t ==> answers[u].1.sequence != answers[t].1.sequence
  }

  /** Reply r is not to the command expected: another client's, or with another counter. */
  predicate Mismatch(want: ProposalValue, r: Message) {
    want.clientId != r.value.clientId || want.clientOnce != r.value.clientOnce
  }

  /** Datagram t queues q: it is the first to answer its position, another command is expected there,
      and q is the datagram's message with that command. */
  predicate Queues(expected: map<nat, ProposalValue>, answers: seq<(Udp4, Message)>, t: nat, q: Message)
    requires t < |answers|
  {
    var r := answers[t].1;
    && FirstAt(answers, t) && r.sequence in expected
    && Mismatch(expected[r.sequence], r) && q == r.(value := expected[r.sequence])
  }

  predicate Displaces(expected: map<nat, ProposalValue>, answers: seq<(Udp4, Message)>, q: Message) {
    exists t :: 0 <= t < |answers| && Queues(expected, answers, t, q)
  }

  lemma DisplacesJoin(e: map<nat, ProposalValue>, x: (Udp4, Message), rest: seq<(Udp4, Message)>, q: Message)
    ensures var r := x.1;
            Displaces(e, [x] + rest, q)
            <==> (r.sequence in e && Mismatch(e[r.sequence], r) && q == r.(value := e[r.sequence]))
                 || Displaces(e - {r.sequence}, rest, q)
  {
    var all, r := [x] + rest, x.1;
    assert all[0] == x;
    if r.sequence in e && Mismatch(e[r.sequence], r) && q == r.(value := e[r.sequence]) {
      assert Queues(e, all, 0, q);
    }
    if Displaces(e - {r.sequence}, rest, q) {
      var t :| 0 <= t < |rest| && Queues(e - {r.sequence}, rest, t, q);
      LaterQueues(e, x, rest, t, q);
    }
    if Displaces(e, all, q) {
      var t :| 0 <= t < |all| && Queues(e, all, t, q);
      if t > 0 {
        LaterQueued(e, x, rest, t - 1, q);
      }
    }
  }

  lemma LaterQueues(e: map<nat, ProposalValue>, x: (Udp4, Message), rest: seq<(Udp4, Message)>, t: nat, q: Message)
    requires t < |rest| && Queues(e - {x.1.sequence}, rest, t, q)
    ensures Displaces(e, [x] + rest, q)
  {
    var all := [x] + rest;
    assert all[t + 1] == rest[t];
    forall u | 0 <= u < t + 1 ensures all[u].1.sequence != all[t + 1].1.sequence {
      if u > 0 {
        assert all[u] == rest[u - 1];
      }
    }
    assert Queues(e, all, t + 1, q);
  }

  lemma LaterQueued(e: map<nat, ProposalValue>, x: (Udp4, Message), rest: seq<(Udp4, Message)>, t: nat, q: Message)
    requires t < |rest| && Queues(e, [x] + rest, t + 1, q)
    ensures Displaces(e - {x.1.sequence}, rest, q)
  {
    var all := [x] + rest;
    assert all[t + 1] == rest[t] && all[0] == x;
    forall u | 0 <= u < t ensures rest[u].1.sequence != rest[t].1.sequence {
      assert all[u + 1] == rest[u];
    }
    assert Queues(e - {x.1.sequence}, rest, t, q);
  }

  /** Responses under the id of the server they name. */
  predicate OwnNames(rs: seq<Message>) {
    forall r :: r in rs ==> r.fromId == r.extra
  }

  lemma {:induction false} RespondAllQueues(id: nat, v: Server, rs: seq<Message>, q: Message)
    requires OwnNames(rs)
    ensures RespondAll(id, v, rs).resubmits[q]
            == v.resubmits[q] + if Displaces(v.expected, AnswersSent(id, rs), q) then 1 else 0
    decreases |rs|
  {
    if rs == [] {
    } else {
      assert rs[0] in rs && forall r :: r in rs[1..] ==> r in rs;
      if rs[0].extra == id {
        RespondAllQueues(id, Respond(v, rs[0]), rs[1..], q);
        DisplacesJoin(v.expected, Answer(id, rs[0]), AnswersSent(id, rs[1..]), q);
        RespondQueues(id, v, rs[0], AnswersSent(id, rs[1..]), q);
      } else {
        RespondAllQueues(id, v, rs[1..], q);
        assert AnswersSent(id, rs) == AnswersSent(id, rs[1..]);
      }
    }
  }

  /** One response: what it queues is not queued by a later one. */
  lemma RespondQueues(id: nat, v: Server, r: Message, rest: seq<(Udp4, Message)>, q: Message)
    requires r.extra == id && r.fromId == id
    ensures var w := Respond(v, r);
            var now := r.sequence in v.expected && Mismatch(v.expected[r.sequence], r)
                       && q == r.(value := v.expected[r.sequence]);
            && Answer(id, r).1 == r && w.expected == v.expected - {r.sequence}
            && w.resubmits[q] == v.resubmits[q] + (if now then 1 else 0)
            && (now ==> !Displaces(w.expected, rest, q))
  {
  }
}
