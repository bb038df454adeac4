/** The two addresses of a block, written octet by octet with masks and shifts. */
module IpAddresses {
  /** The third and the fourth octet, as the source masks and shifts them. */
  function Third(ipId: bv32): bv32 { (ipId & 0xFF00) >> 8 }

  function Fourth(ipId: bv32): bv32 { ipId & 0xFF }

  /** The address 10.231.third.fourth as one number. */
  function Address(ipId: bv32): bv32 {
    0x0AE7_0000 | (Third(ipId) << 8) | Fourth(ipId)
  }

  function TapIpId(id: bv32): bv32 { 4 * id + 1 }

  function VmIpId(id: bv32): bv32 { 4 * id + 2 }

  /** The /30 block of an address, section 3.1 of RFC 4632. */
  function Prefix30(address: bv32): bv32 {
    address & 0xFFFF_FFFC
  }

  function HostPart(address: bv32): bv32 {
    address & 3
  }

  /** Two octets hold any number of sixteen bits. */
  lemma NothingIsTruncated(ipId: bv32)
    requires ipId <= 0xFFFF
    ensures Third(ipId) <= 255 && Fourth(ipId) <= 255
    ensures (Third(ipId) << 8) + Fourth(ipId) == ipId
  {
    assert Third(ipId) <= 255 && Fourth(ipId) <= 255;
  }

  lemma AddressIsPlain(ipId: bv32)
    requires ipId <= 0xFFFF
    ensures Address(ipId) == 0x0AE7_0000 | ipId
  {
  }

  lemma InRange(id: bv32)
    requires 2 <= id <= 16383
    ensures TapIpId(id) == (id << 2) | 1 && VmIpId(id) == (id << 2) | 2
    ensures TapIpId(id) <= 0xFFFF && VmIpId(id) <= 0xFFFF
  {
  }

  lemma TapAddressIs(id: bv32)
    requires 2 <= id <= 16383
    ensures Address(TapIpId(id)) == 0x0AE7_0000 | ((id << 2) | 1)
  {
    InRange(id);
    AddressIsPlain(TapIpId(id));
  }

  lemma VmAddressIs(id: bv32)
    requires 2 <= id <= 16383
    ensures Address(VmIpId(id)) == 0x0AE7_0000 | ((id << 2) | 2)
  {
    InRange(id);
    AddressIsPlain(VmIpId(id));
  }

  lemma LowBits(tap: bv32, vm: bv32, id: bv32)
    requires id <= 16383
    requires tap == 0x0AE7_0000 | ((id << 2) | 1) && vm == 0x0AE7_0000 | ((id << 2) | 2)
    ensures Prefix30(tap) == 0x0AE7_0000 | (id << 2) == Prefix30(vm)
    ensures HostPart(tap) == 1 && HostPart(vm) == 2
  {
  }

  /** The two addresses are the two hosts of one /30 block, which gives the id back. */
  lemma HostsOfOneBlock(id: bv32)
    requires 2 <= id <= 16383
    ensures Prefix30(Address(TapIpId(id))) == 0x0AE7_0000 | (id << 2) == Prefix30(Address(VmIpId(id)))
    ensures HostPart(Address(TapIpId(id))) == 1 && HostPart(Address(VmIpId(id))) == 2
  {
    TapAddressIs(id);
    VmAddressIs(id);
    LowBits(Address(TapIpId(id)), Address(VmIpId(id)), id);
  }

  /** Different ids have different blocks, so no address of one is an address of the other. */
  lemma BlocksAreDisjoint(id: bv32, other: bv32)
    requires 2 <= id <= 16383 && 2 <= other <= 16383 && id != other
    ensures Prefix30(Address(TapIpId(id))) != Prefix30(Address(TapIpId(other)))
    ensures {Address(TapIpId(id)), Address(VmIpId(id))} !! {Address(TapIpId(other)), Address(VmIpId(other))}
  {
    HostsOfOneBlock(id);
    HostsOfOneBlock(other);
    DistinctShifted(id, other);
  }

  lemma DistinctShifted(id: bv32, other: bv32)
    requires id <= 16383 && other <= 16383 && id != other
    ensures 0x0AE7_0000 | (id << 2) != 0x0AE7_0000 | (other << 2)
  {
  }
}
