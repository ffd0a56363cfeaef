/** The datagrams the servers exchange (src/message.hpp). Unsigned 32-bit fields are modelled
    as unbounded naturals: proposal and sequence numbers are assumed not to wrap. */
module Wire {

  datatype Option<+T> = None | Some(value: T)

  datatype Operation =
    | UNDEFINED | ELECT_LEADER | LOCK | UNLOCK | NOOPS
    | LOCK_SUCCEED | UNLOCK_SUCCEED | LOCK_FAILED | LOCK_AGAIN | UNLOCK_FAILED | UNLOCK_RELEASED

  datatype ProposalValue =
    ProposalValue(operation: Operation, target: nat, clientId: bv64, clientOnce: nat)

  /** The value a default-constructed or zero-filled record holds. */
  const NO_VALUE := ProposalValue(UNDEFINED, 0, 0, 0)

  datatype MessageType =
    | UNDEFINED_TYPE | PREPARE | PROMISE | DENIAL | ACCEPT | ACCEPTED | REJECTED | INFORM | SUBMIT | COMMAND | RESPONSE

  /** `extra` is the union field: the prepare number in PROMISE and DENIAL, the accept number in
      ACCEPTED and REJECTED, the responsible server in INFORM. Handlers rewrite a received
      message in place, so a field nobody assigns keeps the value it arrived with. */
  datatype Message = Message(
    kind: MessageType, sequence: nat, fromId: nat, number: nat, value: ProposalValue, extra: nat)

  /** A message on its way to server `dst`. */
  datatype Packet = Packet(dst: nat, msg: Message)

  /** One copy for every server. */
  function Broadcast(n: nat, m: Message): (out: seq<Packet>)
    ensures |out| == n
    ensures forall p :: p in out <==> p.dst < n && p.msg == m
  {
    var out := seq(n, (d: nat) => Packet(d, m));
    assert forall d: nat :: d < n ==> out[d] == Packet(d, m);
    out
  }
}
