/** Client identifiers: an IPv4 address and a UDP port packed into 64 bits (util/network.cpp). */
module Endpoint {

  datatype Udp4 = Udp4(ip: bv32, port: bv16)

  /** The number that stands for "nobody holds this lock" (all ones). */
  const UNUSED: bv64 := 0xFFFF_FFFF_FFFF_FFFF

  function Encode(e: Udp4): bv64 {
    ((e.ip as bv64) << 32) | (e.port as bv64)
  }

  function AddressOf(c: bv64): bv32 {
    (c >> 32) as bv32
  }

  /** The 32-bit low half is narrowed to a 16-bit port. */
  function PortOf(c: bv64): bv16 {
    (c & 0xFFFF) as bv16
  }

  function Decode(c: bv64): Udp4 {
    Udp4(AddressOf(c), PortOf(c))
  }

  predicate IsRegisteredPort(port: bv16) {
    1024 <= port <= 49151
  }

  lemma HighHalf(ip: bv64, port: bv64)
    requires ip < 0x1_0000_0000 && port < 0x1_0000
    ensures ((ip << 32) | port) >> 32 == ip
  {
  }

  lemma LowHalf(ip: bv64, port: bv64)
    requires ip < 0x1_0000_0000 && port < 0x1_0000
    ensures ((ip << 32) | port) & 0xFFFF == port
    ensures ((ip << 32) | port) & 0xFFFF_0000 == 0
  {
  }

  lemma Halves(ip: bv64, port: bv64)
    requires ip < 0x1_0000_0000 && port < 0x1_0000
    ensures ((ip << 32) | port) >> 32 == ip && ((ip << 32) | port) & 0xFFFF_FFFF == port
  {
  }

  /** The address is in the upper 32 bits and the port in the lower. */
  lemma AddressAbovePort(e: Udp4)
    ensures Encode(e) >> 32 == e.ip as bv64 && Encode(e) & 0xFFFF_FFFF == e.port as bv64
  {
    Halves(e.ip as bv64, e.port as bv64);
  }

  /** Packing loses nothing, and no endpoint packs to the sentinel. */
  lemma RoundTrip(e: Udp4)
    ensures Decode(Encode(e)) == e
    ensures Encode(e) != UNUSED
  {
    HighHalf(e.ip as bv64, e.port as bv64);
    LowHalf(e.ip as bv64, e.port as bv64);
  }

  /** A 64-bit number is some endpoint's id. */
  predicate Stamped(c: bv64) {
    c & 0xFFFF_0000 == 0
  }

  lemma Repack(c: bv64)
    requires Stamped(c)
    ensures ((c >> 32) << 32) | (c & 0xFFFF) == c
    ensures c != UNUSED
  {
  }

  lemma EncodeIsStamped(e: Udp4)
    ensures Stamped(Encode(e))
  {
    LowHalf(e.ip as bv64, e.port as bv64);
  }

  /** The ids of endpoints are exactly the numbers whose bits 16 to 31 are zero, and unpacking
      inverts packing on exactly those. */
  lemma StampedExactly(c: bv64)
    ensures Stamped(c) <==> Encode(Decode(c)) == c
    ensures Stamped(c) <==> exists e: Udp4 :: Encode(e) == c
    ensures Stamped(c) ==> c != UNUSED
  {
    EncodeIsStamped(Decode(c));
    if Stamped(c) {
      Repack(c);
    }
    forall e: Udp4 | Encode(e) == c ensures Stamped(c) {
      EncodeIsStamped(e);
    }
  }
}
