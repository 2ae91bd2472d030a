/** Packets, lists of packets, and the bytes they put on the wire (includes/data_packets.h). */
module Packets {

  datatype Option<+T> = None | Some(value: T)

  type Byte = b: int | 0 <= b < 256

  /** `Unknown` stands for every enum value other than the two the sender knows. */
  datatype DataType = MemoryLocation | FileDescriptor | Unknown

  /** `data` is the whole buffer or file behind `data_ptr`. */
  datatype Packet = Packet(kind: DataType, data: seq<Byte>, size: nat, offset: nat)

  /** What the sender demands of its callers: the slice lies inside the buffer. */
  predicate InBounds(p: Packet) {
    p.offset + p.size <= |p.data|
  }

  type DataPacket = p: Packet | InBounds(p) witness Packet(MemoryLocation, [], 0, 0)

  type PacketList = seq<DataPacket>

  /** The bytes one packet asks to be sent. */
  function Slice(p: DataPacket): seq<Byte> {
    p.data[p.offset..p.offset + p.size]
  }

  function ListBytes(l: PacketList): seq<Byte> {
    if l == [] then [] else ListBytes(l[..|l| - 1]) + Slice(l[|l| - 1])
  }

  function StreamBytes(ls: seq<PacketList>): seq<Byte> {
    if ls == [] then [] else StreamBytes(ls[..|ls| - 1]) + ListBytes(ls[|ls| - 1])
  }

  lemma ListBytesStep(l: PacketList, i: nat)
    requires i < |l|
    ensures ListBytes(l[..i + 1]) == ListBytes(l[..i]) + Slice(l[i])
  {
    assert l[..i + 1][..i] == l[..i];
  }

  lemma StreamBytesSnoc(ls: seq<PacketList>, l: PacketList)
    ensures StreamBytes(ls + [l]) == StreamBytes(ls) + ListBytes(l)
  {
    assert (ls + [l])[..|ls|] == ls;
  }

  /** A kernel call that takes `n` bytes at the cursor extends the sent part of the slice. */
  lemma SliceExtends(p: DataPacket, done: nat, n: nat)
    requires done + n <= p.size
    ensures Slice(p)[..done] + p.data[p.offset + done..p.offset + done + n] == Slice(p)[..done + n]
  {
  }

  lemma {:induction false} ListBytesPrefix(l: PacketList, i: nat)
    requires i <= |l|
    ensures ListBytes(l[..i]) <= ListBytes(l)
    decreases |l| - i
  {
    if i < |l| {
      ListBytesStep(l, i);
      ListBytesPrefix(l, i + 1);
    } else {
      assert l[..i] == l;
    }
  }

  lemma {:induction false} StreamBytesPrefix(ls: seq<PacketList>, i: nat)
    requires i <= |ls|
    ensures StreamBytes(ls[..i]) <= StreamBytes(ls)
    decreases |ls| - i
  {
    if i < |ls| {
      assert ls[..i + 1][..i] == ls[..i];
      StreamBytesPrefix(ls, i + 1);
    } else {
      assert ls[..i] == ls;
    }
  }
}
