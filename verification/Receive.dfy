/** The receive path that gathers a header, a look-ahead and a residual transfer into one frame. */
module Receive {
  import opened Bytes
  import opened Gather
  import opened IpHeader

  /** An NDIS buffer: a stretch of the packet's own memory. */
  datatype Region = Region(start: nat, length: nat)

  /** Which allocations succeed, and the status of the residual transfer. */
  datatype Environment = Environment(packetOk: bool, bufferOk: bool, residualOk: bool, transferOk: bool, frameOk: bool)

  /** `PassedUp`: indicated to the protocol above unseen. `Dropped`: freed. `Captured`: handed to the clients. */
  datatype Outcome = PassedUp | Dropped | Captured(frame: seq<byte>)

  ghost predicate InMemory(chain: seq<Region>, memory: seq<byte>) {
    forall k :: 0 <= k < |chain| ==> chain[k].start + chain[k].length <= |memory|
  }

  /** The buffer chain as the gather routine sees it. */
  function Contents(chain: seq<Region>, memory: seq<byte>): (contents: seq<seq<byte>>)
    requires forall k :: 0 <= k < |chain| ==> chain[k].start + chain[k].length <= |memory|
    ensures |contents| == |chain|
    ensures forall k :: 0 <= k < |chain| ==> contents[k] == memory[chain[k].start..chain[k].start + chain[k].length]
  {
    if chain == [] then []
    else [memory[chain[0].start..chain[0].start + chain[0].length]] + Contents(chain[1..], memory)
  }

  /** `NDISHK_PACKET`: a packet with room for one frame, and its buffer chain. */
  class HkPacket {
    const iBuffer: array<byte>
    var chain: seq<Region>

    ghost predicate Valid()
      reads this
    {
      iBuffer.Length == MAX_ETHER_SIZE
      && forall k :: 0 <= k < |chain| ==> chain[k].start + chain[k].length <= MAX_ETHER_SIZE
    }

    constructor ()
      ensures Valid() && chain == [] && fresh(iBuffer)
    {
      iBuffer := new byte[MAX_ETHER_SIZE](_ => 0);
      chain := [];
    }

    /** `NdisChainBufferAtFront`. */
    method ChainAtFront(r: Region)
      requires Valid() && r.start + r.length <= MAX_ETHER_SIZE
      modifies this
      ensures Valid() && chain == [r] + old(chain)
    {
      chain := [r] + chain;
    }

    /** `NdisUnchainBufferAtFront`, then `NdisChainBufferAtBack`. */
    method Rotate()
      requires Valid() && chain != []
      modifies this
      ensures Valid() && chain == old(chain)[1..] + [old(chain)[0]]
    {
      var front := chain[0];
      chain := chain[1..];
      chain := chain + [front];
    }

    /** Copy the indicated header and look-ahead to the front of the memory. */
    method CopyIndicated(header: seq<byte>, lookAhead: seq<byte>)
      requires Valid() && |header| + |lookAhead| <= MAX_ETHER_SIZE
      modifies iBuffer
      ensures iBuffer[..|header| + |lookAhead|] == header + lookAhead
    {
      CopyIn(iBuffer, 0, header);
      CopyIn(iBuffer, |header|, lookAhead);
    }

    /** `NdisTransferData` with a synchronous result: the residual goes to the front of the chain. */
    method TransferData(data: seq<byte>)
      requires Valid() && chain != [] && |data| == chain[0].length
      modifies iBuffer
      ensures Valid() && iBuffer[..] == WriteAt(old(iBuffer[..]), chain[0].start, data)
    {
      CopyIn(iBuffer, chain[0].start, data);
    }
  }

  /** `PtReceive` on a frame indicated as a header, a look-ahead (the first bytes of the packet) and a promise of the
      rest. The frame handed to clients is exactly header, look-ahead and residual in wire order, never longer than
      an Ethernet frame; and it is handed to them whenever it fits and nothing fails. */
  method PtReceive(header: seq<byte>, lookAhead: seq<byte>, packet: seq<byte>, env: Environment) returns (r: Outcome)
    requires lookAhead <= packet
    ensures r.Captured? ==> r.frame == header + packet && |r.frame| <= MAX_ETHER_SIZE
    ensures r.Captured? <==>
              && |header| + |packet| <= MAX_ETHER_SIZE && env.packetOk && env.bufferOk && env.frameOk
              && (|lookAhead| < |packet| ==> env.residualOk && env.transferOk)
    ensures r.PassedUp? <==>
              || |header| + |packet| > MAX_ETHER_SIZE || !env.packetOk || !env.bufferOk
              || (|lookAhead| < |packet| && !env.residualOk)
  {
    var dataSize := |header| + |packet|;
    var residual := 0;
    if dataSize > MAX_ETHER_SIZE {
      return PassedUp;
    }
    if |lookAhead| < |packet| {
      residual := |packet| - |lookAhead|;
    }
    if !env.packetOk || !env.bufferOk {
      return PassedUp;
    }
    var p := new HkPacket();
    p.ChainAtFront(Region(0, dataSize - residual));
    p.CopyIndicated(header, lookAhead);
    if residual > 0 {
      if !env.residualOk {
        return PassedUp;
      }
      p.ChainAtFront(Region(|header| + |lookAhead|, residual));
      if !env.transferOk {
        return Dropped;
      }
      p.TransferData(packet[|lookAhead|..]);
      assert lookAhead + packet[|lookAhead|..] == packet;
    }
    assert p.iBuffer[..dataSize] == header + packet;
    if !env.frameOk {
      return Dropped;
    }
    r := TransferComplete(p, header + packet, |header| + |lookAhead|);
  }

  /** The synchronous half of `PtTransferDataComplete`: rotate the chain and gather it. `split` is where the residual
      begins. */
  method TransferComplete(p: HkPacket, ghost frame: seq<byte>, ghost split: nat) returns (r: Outcome)
    requires p.Valid() && |frame| <= MAX_ETHER_SIZE && split <= |frame| && p.iBuffer[..|frame|] == frame
    requires p.chain == if split == |frame| then [Region(0, |frame|)]
                        else [Region(split, |frame| - split), Region(0, split)]
    modifies p
    ensures r == Captured(frame)
  {
    p.Rotate();
    var contents := Contents(p.chain, p.iBuffer[..]);
    RotatedIsFrame(p.chain, p.iBuffer[..], frame, split);
    var length := ChainLength(p.chain);
    var out := new byte[length](_ => 0);
    var size := ReadOnPacket(contents, out, length, 0);
    assert out[..size] == frame;
    r := Captured(out[..size]);
  }

  /** `NdisQueryPacketLength`. */
  function ChainLength(chain: seq<Region>): nat {
    if chain == [] then 0 else chain[0].length + ChainLength(chain[1..])
  }

  lemma FlattenTwo(a: seq<byte>, b: seq<byte>)
    ensures Flatten([a]) == a && Flatten([a, b]) == a + b
  {
    assert Flatten([a]) == a + [];
    assert [a, b][1..] == [b];
    assert Flatten([b]) == b + [];
  }

  lemma LengthTwo(a: Region, b: Region)
    ensures ChainLength([a]) == a.length && ChainLength([a, b]) == a.length + b.length
  {
    assert [a, b][1..] == [b];
    assert ChainLength([b]) == b.length;
  }

  /** The rotated chain, read front to back, is the frame. */
  lemma RotatedIsFrame(chain: seq<Region>, memory: seq<byte>, frame: seq<byte>, split: nat)
    requires InMemory(chain, memory) && split <= |frame| <= |memory| && memory[..|frame|] == frame
    requires chain == if split == |frame| then [Region(0, |frame|)]
                      else [Region(0, split), Region(split, |frame| - split)]
    ensures Flatten(Contents(chain, memory)) == frame && ChainLength(chain) == |frame|
  {
    assert memory[0..split] == frame[..split] && memory[split..|frame|] == frame[split..];
    FlattenTwo(frame[..split], frame[split..]);
    LengthTwo(Region(0, split), Region(split, |frame| - split));
    assert frame[..split] + frame[split..] == frame;
    if split == |frame| {
      assert Contents(chain, memory) == [frame[..split]];
    } else {
      assert Contents(chain, memory) == [frame[..split], frame[split..]];
    }
  }
}
