/** Which commands count as repeats, in numbers: the ports whose clients are remembered, the operations
    that are, and what a repeat is answered otherwise (src/server.cpp:247-263, 317-329). */
module Repeats {
  import opened Wire
  import opened Endpoint
  import opened LockService

  function LockBy(from: Udp4, target: nat, once: nat): ProposalValue {
    ProposalValue(LOCK, target, Encode(from), once)
  }

  lemma GuardedByPort(amo: bool, from: Udp4, v: ProposalValue)
    requires v.clientId == Encode(from)
    ensures Guarded(amo, v) <==> amo && 1024 <= from.port <= 49151
  {
    RoundTrip(from);
  }

  lemma LastReply(amo: bool, h: seq<ProposalValue>, v: ProposalValue)
    ensures ReplyTo(amo, h + [v], |h|) == Execute(amo, Run(amo, h), v).1
  {
    assert (h + [v])[..|h|] == h && (h + [v])[|h|] == v;
  }

  /** A client that takes a lock and repeats its command is told once more that it took it, if at most
      once is on and its port is one of 1024 to 49151; and otherwise that it holds it already. */
  lemma RepeatTellsThePort(amo: bool, h: seq<ProposalValue>, from: Udp4, target: nat, once: nat)
    requires var v := LockBy(from, target, once);
             ReplyTo(amo, h + [v], |h|) == Some(v.(operation := LOCK_SUCCEED)) && !Answered(h, KeyOf(v))
    ensures var v := LockBy(from, target, once);
            ReplyTo(amo, h + [v] + [v], |h| + 1)
            == Some(v.(operation := if amo && 1024 <= from.port <= 49151 then LOCK_SUCCEED else LOCK_AGAIN))
  {
    var v := LockBy(from, target, once);
    GuardedByPort(amo, from, v);
    RoundTrip(from);
    if amo {
      RepliesAreAnswers(h, KeyOf(v));
    }
    LastReply(amo, h, v);
    RunAppend(amo, h, v);
    LastReply(amo, h + [v], v);
  }

  /** A command that is neither LOCK nor UNLOCK nor NOOPS changes nothing, whoever sends it: every
      later command is answered as if it had not been there. */
  lemma OthersChangeNothing(amo: bool, h: seq<ProposalValue>, x: ProposalValue)
    requires !x.operation.LOCK? && !x.operation.UNLOCK? && !x.operation.NOOPS?
    ensures Run(amo, h + [x]) == Run(amo, h)
    ensures forall v :: ReplyTo(amo, h + [x] + [v], |h| + 1) == ReplyTo(amo, h + [v], |h|)
  {
    RunAppend(amo, h, x);
    forall v ensures ReplyTo(amo, h + [x] + [v], |h| + 1) == ReplyTo(amo, h + [v], |h|) {
      SameReply(amo, h + [x], h, v);
    }
  }

  lemma SameReply(amo: bool, g: seq<ProposalValue>, h: seq<ProposalValue>, v: ProposalValue)
    requires Run(amo, g) == Run(amo, h)
    ensures ReplyTo(amo, g + [v], |g|) == ReplyTo(amo, h + [v], |h|)
  {
    LastReply(amo, g, v);
    LastReply(amo, h, v);
  }

  /** A NOOPS from a registered port has no reply and takes its key: no later command with that key
      has one either. */
  lemma NoOpsTakeTheKey(h: seq<ProposalValue>, from: Udp4, x: ProposalValue, v: ProposalValue)
    requires x.operation.NOOPS? && x.clientId == Encode(from) && 1024 <= from.port <= 49151
    requires !Answered(h, KeyOf(x)) && KeyOf(v) == KeyOf(x)
    ensures ReplyTo(true, h + [x], |h|) == None && ReplyTo(true, h + [x] + [v], |h| + 1) == None
  {
    GuardedByPort(true, from, x);
    GuardedByPort(true, from, v);
    RepliesAreAnswers(h, KeyOf(x));
    LastReply(true, h, x);
    RunAppend(true, h, x);
    LastReply(true, h + [x], v);
  }
}
