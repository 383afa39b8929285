/** Network addresses as both DNS checking and the metadata resolver compare them. */
module NetAddr {
  import opened Basics

  /** A 4-byte IPv4 address or a 16-byte IPv6 address. */
  type Addr = a: seq<Byte> | |a| == 4 || |a| == 16 witness [0, 0, 0, 0]

  const MAPPED_PREFIX: seq<Byte> := [0, 0, 0, 0, 0, 0, 0, 0, 0, 0, 255, 255]

  /** An IPv4 address wrapped as IPv4-in-IPv6. */
  predicate Mapped(a: Addr) {
    |a| == 16 && a[..12] == MAPPED_PREFIX
  }

  /** The 4-byte form of a wrapped IPv4 address; every other address is itself. */
  function Unmap(a: Addr): (r: Addr)
    ensures !Mapped(r)
    ensures Mapped(a) <==> r != a
    ensures Mapped(a) ==> MAPPED_PREFIX + r == a
  {
    if Mapped(a) then a[12..] else a
  }

  /** Reads a resolver's raw bytes: only 4 or 16 of them make an address. */
  function ToAddr(raw: seq<Byte>): Option<Addr> {
    if |raw| == 4 || |raw| == 16 then Some(Unmap(raw)) else None
  }
}
