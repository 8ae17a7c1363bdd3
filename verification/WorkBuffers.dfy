/** The work buffers and the reassembly queue as the program keeps them: objects moved between lists and written in
    place. Each operation is proved to do what the state machine of `Reassembly` does. */
module WorkBuffers {
  import opened Bytes
  import opened Checksum
  import opened IpHeader
  import opened Datagram
  import opened Lists
  import R = Reassembly

  /** Which list a buffer's links are on: they serve one list at a time. */
  datatype Home = Nowhere | Free | Queued | Lent

  /** `DATA_LIST`: a work buffer. */
  class DataList {
    ghost var home: Home
    var ID: word
    var protocol: byte
    var srcIP: dword
    var destIP: dword
    var ttl: byte
    var totallen: word
    var bLast: bool
    var fragments: seq<Piece>
    var info: Info
    var references: nat
    const bits: array<bool>
    const finalbuf: array<byte>

    ghost predicate Valid() {
      finalbuf.Length == WORKBUF && bits.Length == BITMAP_SIZE
    }

    ghost function Abs(): (d: Datagram)
      requires Valid()
      reads this, bits, finalbuf
      ensures Shaped(d)
    {
      Datagram(Key(ID, protocol, srcIP, destIP), ttl, finalbuf[..], bits[..], totallen, bLast, fragments, info)
    }

    /** A buffer from the system pool, zeroed. */
    constructor ()
      ensures Valid() && fresh(bits) && fresh(finalbuf)
      ensures Abs() == Fresh(Key(0, 0, 0, 0), 0) && home == Nowhere
    {
      home := Nowhere;
      ID, protocol, srcIP, destIP, ttl, totallen, bLast := 0, 0, 0, 0, 0, 0, false;
      fragments, info, references := [], NO_INFO, 0;
      bits := new bool[BITMAP_SIZE](_ => false);
      finalbuf := new byte[WORKBUF](_ => 0);
    }

    /** A recycled buffer, zeroed. */
    method Zero()
      requires Valid()
      modifies this, bits, finalbuf
      ensures Abs() == Fresh(Key(0, 0, 0, 0), 0) && home == old(home)
    {
      ID, protocol, srcIP, destIP, ttl, totallen, bLast := 0, 0, 0, 0, 0, 0, false;
      fragments, info, references := [], NO_INFO, 0;
      forall i | 0 <= i < bits.Length { bits[i] := false; }
      forall i | 0 <= i < finalbuf.Length { finalbuf[i] := 0; }
    }

    /** `RtlCopyMemory` into the buffer. */
    method CopyIn(at: nat, data: seq<byte>)
      requires at + |data| <= finalbuf.Length
      modifies finalbuf
      ensures finalbuf[..] == WriteAt(old(finalbuf[..]), at, data)
    {
      forall i | 0 <= i < |data| { finalbuf[at + i] := data[i]; }
    }

    /** `RtlSetBits`. */
    method MarkBits(start: nat, count: nat)
      requires start + count <= bits.Length
      modifies bits
      ensures bits[..] == SetBits(old(bits[..]), start, count)
    {
      forall i | start <= i < start + count { bits[i] := true; }
    }

    /** `RtlAreBitsSet` from bit 0. */
    method AreBitsSet(count: nat) returns (all: bool)
      requires Valid()
      ensures all <==> 0 < count <= bits.Length && forall b :: 0 <= b < count ==> bits[b]
    {
      if count == 0 || count > bits.Length {
        return false;
      }
      for b := 0 to count
        invariant forall j :: 0 <= j < b ==> bits[j]
      {
        if !bits[b] {
          return false;
        }
      }
      return true;
    }

    method CopyInfo(i: Info)
      modifies this`info
      ensures info == i
    {
      info := i;
    }

    /** The very first fragment of a known datagram. */
    method PlaceFirst(f: Piece)
      requires Valid() && Placeable(f) && f.offset == 0
      modifies this, bits, finalbuf
      ensures Abs() == Merge(old(Abs()), f) && references == old(references) && home == old(home)
    {
      fragments := [f] + fragments;
      CopyInfo(f.request.info);
      CopyIn(0, f.mac);
      CopyIn(8 * f.offset + ETHER_HDR_SIZE, f.header + f.payload);
      MarkBits(f.offset, f.total / 8);
    }

    /** A middle fragment of a known datagram. */
    method PlaceMiddle(f: Piece)
      requires Valid() && Placeable(f) && f.offset > 0 && f.more
      modifies this, bits, finalbuf
      ensures Abs() == Merge(old(Abs()), f) && references == old(references) && home == old(home)
    {
      fragments := [f] + fragments;
      CopyIn(0, f.mac);
      CopyIn(8 * f.offset + IP_HDR_SIZE + ETHER_HDR_SIZE, f.payload);
      MarkBits(f.offset, (|f.payload| + IP_HDR_SIZE) / 8);
    }

    /** The last fragment of a known datagram: it brings the total length. */
    method PlaceLast(f: Piece)
      requires Valid() && Placeable(f) && !f.more
      modifies this, bits, finalbuf
      ensures Abs() == Merge(old(Abs()), f) && references == old(references) && home == old(home)
    {
      fragments := [f] + fragments;
      bLast := true;
      totallen := (8 * f.offset + f.total) % WORKBUFSIZE;
      CopyIn(0, f.mac);
      CopyIn(8 * f.offset + IP_HDR_SIZE + ETHER_HDR_SIZE, f.payload);
      assert finalbuf[..] == Merge(old(Abs()), f).finalbuf;
      MarkBits(f.offset, (|f.payload| + IP_HDR_SIZE) / 8);
    }

    /** A fragment of a known datagram: first, middle or last. */
    method Place(f: Piece)
      requires Valid() && Placeable(f)
      modifies this, bits, finalbuf
      ensures Abs() == Merge(old(Abs()), f) && references == old(references) && home == old(home)
    {
      if f.more {
        if f.offset == 0 {
          PlaceFirst(f);
        } else {
          PlaceMiddle(f);
        }
      } else {
        PlaceLast(f);
      }
    }

    /** Label a zeroed buffer with the datagram it will hold. */
    method Label(key: Key, newTtl: byte)
      requires Valid() && Abs() == Fresh(Key(0, 0, 0, 0), 0)
      modifies this
      ensures Abs() == Fresh(key, newTtl) && references == old(references) && home == old(home)
    {
      ID, protocol, srcIP, destIP := key.id, key.protocol, key.source, key.dest;
      bLast := false;
      ttl := newTtl;
    }

    method PlaceNewFirst(f: Piece)
      requires Valid() && Placeable(f) && f.offset == 0
      modifies this, finalbuf
      ensures Abs() == old(Abs()).(finalbuf := Merge(old(Abs()), f).finalbuf, info := f.request.info)
      ensures references == old(references) && home == old(home)
    {
      CopyInfo(f.request.info);
      CopyIn(0, f.mac);
      CopyIn(ETHER_HDR_SIZE, f.header + f.payload);
    }

    method PlaceNewLater(f: Piece)
      requires Valid() && Placeable(f) && f.offset > 0
      modifies this, finalbuf
      ensures Abs() == old(Abs()).(finalbuf := Merge(old(Abs()), f).finalbuf,
                                   last := if f.more then false else true,
                                   totallen := Merge(old(Abs()), f).totallen)
      ensures references == old(references) && home == old(home)
    {
      if f.more {
        bLast := false;
      } else {
        totallen := (8 * f.offset + f.total) % WORKBUFSIZE;
        bLast := true;
      }
      CopyIn(0, f.mac);
      CopyIn(8 * f.offset + IP_HDR_SIZE + ETHER_HDR_SIZE, f.payload);
    }

    /** The first fragment to arrive, in a labelled buffer. */
    method PlaceNew(f: Piece)
      requires Valid() && Placeable(f) && Abs() == Fresh(f.key, f.ttl)
      modifies this, bits, finalbuf
      ensures Abs() == Merge(old(Abs()), f) && references == old(references) && home == old(home)
    {
      if f.offset == 0 {
        PlaceNewFirst(f);
      } else {
        PlaceNewLater(f);
      }
      fragments := [f] + fragments;
      MarkBits(f.offset, f.total / 8);
    }

    /** `PrepareIpHeader`: new length, no fragment bits, and the checksum over the result. */
    method PrepareIpHeader()
      requires Valid()
      modifies finalbuf
      ensures finalbuf[..] == Prepared(old(finalbuf[..]), totallen)
    {
      finalbuf[24], finalbuf[25] := 0, 0;
      finalbuf[16], finalbuf[17] := HighByte(totallen), LowByte(totallen);
      finalbuf[20], finalbuf[21] := 0, 0;
      assert finalbuf[..] == Blanked(old(finalbuf[..]), totallen);
      var sum := GetChecksum(finalbuf, ETHER_HDR_SIZE, IP_HDR_SIZE);
      assert finalbuf[ETHER_HDR_SIZE..ETHER_HDR_SIZE + IP_HDR_SIZE] == finalbuf[..][ETHER_HDR_SIZE..HEADERS_SIZE];
      finalbuf[24], finalbuf[25] := LowByte(sum), HighByte(sum);
    }

    /** The buffer becomes a request of its own, with one reference. */
    method Finish()
      requires Valid()
      modifies this, finalbuf
      ensures Abs() == R.Finished(old(Abs())) && references == 1 && home == old(home)
    {
      PrepareIpHeader();
      info := info.(reqFlags := info.reqFlags | R.FL_REQUEST_REASSEMBLED);
      references := 1;
    }

    method CountDown()
      requires Valid() && ttl > 0
      modifies this`ttl
      ensures Abs() == old(Abs()).(ttl := old(ttl) - 1)
    {
      ttl := ttl - 1;
    }
  }

  /** `g_leDatagrQueueHead`, `g_FreeDatagramWorkBufList`, the delivered buffers clients still reference, and
      `gAllocCounter`. `model` is the state these stand for, with the logs of what left the queue. */
  class Reassembler {
    var queue: seq<DataList>
    var freeList: seq<DataList>
    var loaned: seq<DataList>
    var gAllocCounter: nat
    ghost var model: R.State
    ghost var buffers: set<DataList>
    ghost var Repr: set<object>

    /** No two buffers share storage, each is on the list its home names, once, and the lists hold what `model`
        says. */
    ghost predicate Valid()
      reads this, Repr
    {
      && Storage()
      && On(queue, Queued) && On(freeList, Free) && On(loaned, Lent)
      && |model.queue| == |queue| && (forall k :: 0 <= k < |queue| ==> queue[k].Abs() == model.queue[k])
      && |model.loaned| == |loaned|
      && (forall k :: 0 <= k < |loaned| ==> R.Loan(loaned[k].Abs(), loaned[k].references) == model.loaned[k])
      && model.free == |freeList| && model.created == gAllocCounter
    }

    ghost predicate Storage()
      reads this
    {
      && this !in Repr
      && (forall d :: d in buffers ==> d in Repr && d.bits in Repr && d.finalbuf in Repr && d.Valid())
      && (forall a, b :: a in buffers && b in buffers && a != b ==> a.bits != b.bits && a.finalbuf != b.finalbuf)
    }

    ghost predicate On(ds: seq<DataList>, home: Home)
      requires Storage()
      reads this, Repr
    {
      && (forall i :: 0 <= i < |ds| ==> ds[i] in buffers && ds[i].home == home)
      && (forall i, j :: 0 <= i < j < |ds| ==> ds[i] != ds[j])
    }

    /** Buffer `d` is ours and on no list. */
    ghost predicate Detached(d: DataList)
      requires Storage()
      reads this, Repr
    {
      d in buffers && d.home == Nowhere
    }

    constructor ()
      ensures Valid() && fresh(Repr) && model == R.INIT
    {
      queue, freeList, loaned, gAllocCounter := [], [], [], 0;
      buffers, Repr, model := {}, {}, R.INIT;
    }

    method TakeFree() returns (d: DataList)
      requires Valid() && |freeList| > 0
      modifies this, Repr
      ensures Valid() && Repr == old(Repr)
      ensures Detached(d) && d.Abs() == Fresh(Key(0, 0, 0, 0), 0)
      ensures model == old(model).(free := old(model.free) - 1)
    {
      d := freeList[0];
      freeList := freeList[1..];
      d.home := Nowhere;
      d.Zero();
      model := model.(free := model.free - 1);
    }

    /** Take ownership of a buffer nobody else holds. */
    method Adopt(d: DataList)
      requires Valid() && d.Valid() && d !in Repr && d.bits !in Repr && d.finalbuf !in Repr && d.home == Nowhere
      requires this !in {d as object, d.bits, d.finalbuf}
      modifies this
      ensures Valid() && Repr == old(Repr) + {d, d.bits, d.finalbuf} && Detached(d)
      ensures model == old(model).(created := old(model.created) + 1)
    {
      gAllocCounter := gAllocCounter + 1;
      buffers := buffers + {d};
      Repr := Repr + {d, d.bits, d.finalbuf};
      model := model.(created := model.created + 1);
    }

    method NewBuffer() returns (d: DataList)
      requires Valid()
      modifies this
      ensures Valid() && fresh(Repr - old(Repr))
      ensures Detached(d) && d.Abs() == Fresh(Key(0, 0, 0, 0), 0)
      ensures model == old(model).(created := old(model.created) + 1)
    {
      d := new DataList();
      Adopt(d);
    }

    /** `ruleAllocDatagramWorkBuffer`: a free buffer if there is one, else a new one while the limit allows. */
    method AllocWorkBuffer(poolOk: bool) returns (d: DataList?)
      requires Valid()
      modifies this, Repr
      ensures Valid() && fresh(Repr - old(Repr))
      ensures d != null <==> R.BufferAvailable(old(model), poolOk)
      ensures d == null ==> model == old(model)
      ensures d != null ==>
                && Detached(d) && d.Abs() == Fresh(Key(0, 0, 0, 0), 0)
                && model == R.Allocated(old(model))
    {
      if |freeList| > 0 {
        d := TakeFree();
      } else if gAllocCounter > R.MAX_WORKBUFFER_COUNT {
        d := null;
      } else if poolOk {
        d := NewBuffer();
      } else {
        d := null;
      }
    }

    /** `ruleRecycleDatagramWorkBuffer`. */
    method Recycle(d: DataList)
      requires Valid() && Detached(d)
      modifies this, d`home
      ensures Valid() && Repr == old(Repr) && model == old(model).(free := old(model.free) + 1)
    {
      d.home := Free;
      freeList := freeList + [d];
      model := model.(free := model.free + 1);
    }

    /** `RemoveEntryList` on the datagram queue. */
    method Unlink(k: nat) returns (d: DataList)
      requires Valid() && k < |queue|
      modifies this, Repr
      ensures Valid() && Repr == old(Repr) && d == old(queue[k])
      ensures Detached(d) && d.Abs() == old(model.queue[k])
      ensures model == old(model).(queue := RemoveAt(old(model.queue), k))
    {
      d := queue[k];
      d.home := Nowhere;
      queue := RemoveAt(queue, k);
      model := model.(queue := RemoveAt(model.queue, k));
    }

    /** `InsertTailList` on the datagram queue. */
    method Enqueue(d: DataList)
      requires Valid() && Detached(d)
      modifies this, d`home
      ensures Valid() && Repr == old(Repr)
      ensures model == old(model).(queue := old(model.queue) + [old(d.Abs())])
    {
      d.home := Queued;
      queue := queue + [d];
      model := model.(queue := model.queue + [d.Abs()]);
    }

    /** Place a fragment in the buffer at position `k` of the queue. */
    method PlaceAt(k: nat, f: Piece)
      requires Valid() && k < |queue| && Placeable(f)
      modifies this, Repr
      ensures Valid() && Repr == old(Repr) && queue == old(queue)
      ensures model == old(model).(queue := old(model.queue)[k := Merge(old(model.queue[k]), f)])
    {
      queue[k].Place(f);
      model := model.(queue := model.queue[k := queue[k].Abs()]);
    }

    /** `FWFreeCloneRequest` on the last reference: the fragments are freed and the buffer recycled. */
    method FreeAndRecycle(d: DataList)
      requires Valid() && Detached(d)
      modifies this, d`home
      ensures Valid() && Repr == old(Repr)
      ensures model == old(model).(free := old(model.free) + 1,
                                   freed := old(model.freed) + R.RequestsOf(d.fragments))
      ensures d.fragments == old(d.fragments)
    {
      model := model.(freed := model.freed + R.RequestsOf(d.fragments));
      Recycle(d);
    }

    /** The buffer stays with the clients that cloned it. */
    method Lend(d: DataList)
      requires Valid() && Detached(d)
      modifies this, d`home
      ensures Valid() && Repr == old(Repr)
      ensures model == old(model).(loaned := old(model.loaned) + [R.Loan(old(d.Abs()), old(d.references))])
    {
      d.home := Lent;
      loaned := loaned + [d];
      model := model.(loaned := model.loaned + [R.Loan(d.Abs(), d.references)]);
    }

    /** Finish the buffer, offer it, and drop the delivery's own reference. */
    method Offer(d: DataList, direction: nat, clones: nat)
      requires Valid() && Detached(d)
      modifies this, d, d.finalbuf
      ensures Valid() && Repr == old(Repr)
      ensures model == R.Offered(old(model), old(d.Abs()), direction, clones)
    {
      FinishAndCount(d, clones);
      model := model.(delivered := model.delivered + [R.Delivered(old(d.Abs()), direction)]);
      FreeOrLend(d);
    }

    /** The last reference frees the request; otherwise the clients keep it. */
    method FreeOrLend(d: DataList)
      requires Valid() && Detached(d)
      modifies this, d`home
      ensures Valid() && Repr == old(Repr)
      ensures model == if old(d.references) == 0
                       then old(model).(free := old(model.free) + 1,
                                        freed := old(model.freed) + R.RequestsOf(old(d.fragments)))
                       else old(model).(loaned := old(model.loaned) + [R.Loan(old(d.Abs()), old(d.references))])
    {
      if d.references == 0 {
        FreeAndRecycle(d);
      } else {
        Lend(d);
      }
    }

    /** The delivering half of `Verify`. */
    method DeliverAt(k: nat, direction: nat, clones: nat)
      requires Valid() && k < |queue|
      modifies this, Repr
      ensures Valid() && Repr == old(Repr)
      ensures Shaped(old(model.queue[k]))
      ensures model == R.Deliver(old(model), k, old(model.queue[k]), direction, clones)
    {
      var d := Unlink(k);
      Offer(d, direction, clones);
    }

    /** Clients take `clones` references while the finished request is offered; then its own is dropped. */
    method FinishAndCount(d: DataList, clones: nat)
      requires Valid() && Detached(d)
      modifies d, d.finalbuf
      ensures Valid() && Detached(d) && d.Abs() == R.Finished(old(d.Abs())) && d.references == clones
    {
      d.Finish();
      d.references := d.references + clones;
      d.references := d.references - 1;
    }

    /** `Verify`, called once the last fragment is known. */
    method Verify(k: nat, direction: nat, clones: nat)
      requires Valid() && k < |queue|
      modifies this, Repr
      ensures Valid() && Repr == old(Repr)
      ensures Shaped(old(model.queue[k]))
      ensures model == if AllBitsSet(old(model.queue[k]))
                       then R.Deliver(old(model), k, old(model.queue[k]), direction, clones)
                       else old(model)
    {
      var complete := queue[k].AreBitsSet(queue[k].totallen / 8);
      assert complete <==> AllBitsSet(queue[k].Abs());
      if complete {
        DeliverAt(k, direction, clones);
      }
    }

    /** A fragment of the datagram at position `k`. */
    method AnalyzeQueued(k: nat, f: Piece, clones: nat)
      requires Valid() && k < |queue|
      requires 8 * f.offset + f.total <= WORKBUFSIZE ==> Placeable(f)
      modifies this, Repr
      ensures Valid() && Repr == old(Repr)
      ensures R.AllShaped(old(model.queue))
      ensures model == R.AnalyzeQueued(old(model), k, f, clones)
    {
      assert R.AllShaped(model.queue) by { ModelShaped(); }
      if 8 * f.offset + f.total > WORKBUFSIZE {
        var d := Unlink(k);
        model := model.(abandoned := model.abandoned + R.RequestsOf([f] + d.fragments));
        Recycle(d);
      } else {
        PlaceAt(k, f);
        R.DeliverUpdated(old(model), k, model.queue[k], f.request.direction, clones);
        if queue[k].bLast {
          Verify(k, f.request.direction, clones);
        }
      }
    }

    lemma ModelShaped()
      requires Valid()
      ensures R.AllShaped(model.queue)
    {
      forall k | 0 <= k < |model.queue|
        ensures Shaped(model.queue[k])
      {
        assert queue[k].Abs() == model.queue[k];
      }
    }

    /** The first fragment of its datagram to arrive. */
    method AnalyzeNew(f: Piece, poolOk: bool)
      requires Valid()
      requires 8 * f.offset + f.total <= WORKBUFSIZE ==> Placeable(f)
      modifies this, Repr
      ensures Valid() && fresh(Repr - old(Repr))
      ensures R.AllShaped(old(model.queue))
      ensures model == R.AnalyzeNew(old(model), f, poolOk)
    {
      assert R.AllShaped(model.queue) by { ModelShaped(); }
      var d: DataList? := null;
      if 8 * f.offset + f.total <= WORKBUFSIZE {
        d := AllocWorkBuffer(poolOk);
      }
      if d == null {
        model := model.(abandoned := model.abandoned + multiset{f.request});
      } else {
        PlaceInNew(d, f);
        Enqueue(d);
      }
    }

    method PlaceInNew(d: DataList, f: Piece)
      requires Valid() && Detached(d) && Placeable(f) && d.Abs() == Fresh(Key(0, 0, 0, 0), 0)
      modifies d, d.bits, d.finalbuf
      ensures Valid() && Detached(d) && d.Abs() == Merge(Fresh(f.key, f.ttl), f)
    {
      d.Label(f.key, f.ttl);
      d.PlaceNew(f);
    }

    /** `Analyze`: decode the fragment, look for its datagram, and add to it or start it. */
    method Analyze(r: Request, poolOk: bool, clones: nat)
      requires Valid() && WellFormed(r)
      modifies this, Repr
      ensures Valid() && fresh(Repr - old(Repr))
      ensures R.AllShaped(old(model.queue))
      ensures model == R.Analyze(old(model), r, poolOk, clones)
    {
      assert R.AllShaped(model.queue) by { ModelShaped(); }
      var f := Decode(r);
      if |f.header| > IP_HDR_SIZE {
        model := model.(abandoned := model.abandoned + multiset{r});
        return;
      }
      var k := 0;
      while k < |queue|
        invariant k <= |queue| && Valid()
        invariant R.Find(model.queue, f.key, k) == R.Find(model.queue, f.key, 0)
      {
        assert queue[k].Abs() == model.queue[k];
        if queue[k].ID == f.key.id && queue[k].protocol == f.key.protocol
           && queue[k].destIP == f.key.dest && queue[k].srcIP == f.key.source {
          AnalyzeQueued(k, f, clones);
          return;
        }
        k := k + 1;
      }
      AnalyzeNew(f, poolOk);
    }

    /** One pass of the ageing thread over the queue, starting over after each expiry. */
    method Age()
      requires Valid()
      modifies this, Repr
      ensures Valid() && Repr == old(Repr)
      ensures R.AllShaped(old(model.queue))
      ensures model == R.Age(old(model))
    {
      assert R.AllShaped(model.queue) by { ModelShaped(); }
      var i: nat := 0;
      ghost var freed, recycled := multiset{}, 0;
      R.AgeStarts(model);
      while i < |queue|
        invariant Valid() && Repr == old(Repr)
        invariant R.AgeReached(old(model), model, i, freed, recycled)
        decreases |queue|, |queue| - i
      {
        R.AgeContinues(old(model), model, i, freed, recycled);
        if model.queue[i].ttl == 0 {
          freed, recycled := freed + R.RequestsOf(model.queue[i].fragments), recycled + 1;
        }
        i := AgeAt(i);
      }
      R.AgeEnds(old(model), model, freed, recycled);
    }

    /** The body of the ageing loop: expire the datagram and start over, or count it down and move on. */
    method AgeAt(i: nat) returns (next: nat)
      requires Valid() && i < |queue|
      modifies this, Repr
      ensures Valid() && Repr == old(Repr) && i < |old(model.queue)|
      ensures model == R.AgeAt(old(model), i)
      ensures if old(model.queue[i]).ttl == 0 then next == 0 && |queue| == old(|queue|) - 1
              else next == i + 1 && |queue| == old(|queue|)
    {
      assert queue[i].Abs() == model.queue[i];
      if queue[i].ttl == 0 {
        ExpireAt(i);
        next := 0;
      } else {
        CountDownAt(i);
        next := i + 1;
      }
    }

    /** Remove, free the fragments, recycle. */
    method ExpireAt(i: nat)
      requires Valid() && i < |queue|
      modifies this, Repr
      ensures Valid() && Repr == old(Repr) && |queue| == old(|queue|) - 1
      ensures model == old(model).(queue := RemoveAt(old(model.queue), i), free := old(model.free) + 1,
                                   freed := old(model.freed) + R.RequestsOf(old(model.queue[i]).fragments))
    {
      var d := Unlink(i);
      FreeAndRecycle(d);
    }

    method CountDownAt(i: nat)
      requires Valid() && i < |queue| && model.queue[i].ttl > 0
      modifies this, Repr
      ensures Valid() && Repr == old(Repr) && |queue| == old(|queue|)
      ensures model == old(model).(queue := old(model.queue)[i := old(model.queue[i]).(ttl := old(model.queue[i]).ttl - 1)])
    {
      assert queue[i].Abs() == model.queue[i];
      queue[i].CountDown();
      model := model.(queue := model.queue[i := queue[i].Abs()]);
    }

    /** `FWCloneRequest` on a delivered request. */
    method Clone(i: nat)
      requires Valid()
      modifies this, Repr
      ensures Valid() && Repr == old(Repr) && model == R.Clone(old(model), i)
    {
      if i < |loaned| {
        SetReferences(i, loaned[i].references + 1);
      }
    }

    method SetReferences(i: nat, references: nat)
      requires Valid() && i < |loaned|
      modifies this, Repr
      ensures Valid() && Repr == old(Repr)
      ensures model == old(model).(loaned := R.WithReferences(old(model.loaned), i, references))
    {
      loaned[i].references := references;
      model := model.(loaned := R.WithReferences(model.loaned, i, references));
    }

    /** `FWFreeCloneRequest` on a delivered request. */
    method Release(i: nat)
      requires Valid()
      modifies this, Repr
      ensures Valid() && Repr == old(Repr) && model == R.Release(old(model), i)
    {
      if i < |loaned| {
        if loaned[i].references > 1 {
          SetReferences(i, loaned[i].references - 1);
        } else {
          var d := Unlend(i);
          FreeAndRecycle(d);
        }
      }
    }

    method Unlend(i: nat) returns (d: DataList)
      requires Valid() && i < |loaned|
      modifies this, Repr
      ensures Valid() && Repr == old(Repr)
      ensures Detached(d) && d.Abs() == old(model.loaned[i].datagram)
      ensures model == old(model).(loaned := RemoveAt(old(model.loaned), i))
    {
      d := loaned[i];
      d.home := Nowhere;
      loaned := RemoveAt(loaned, i);
      model := model.(loaned := RemoveAt(model.loaned, i));
    }

    method Perform(e: R.Event)
      requires Valid() && R.ValidEvent(e)
      modifies this, Repr
      ensures Valid() && fresh(Repr - old(Repr))
      ensures R.AllShaped(old(model.queue))
      ensures model == R.Step(old(model), e)
    {
      assert R.AllShaped(model.queue) by { ModelShaped(); }
      match e
      case Arrive(r, poolOk, clones) => Analyze(r, poolOk, clones);
      case Tick => Age();
      case CloneLoan(i) => Clone(i);
      case ReleaseLoan(i) => Release(i);
    }

    /** Any sequence of arrivals, ticks, clones and releases takes the objects where the state machine goes, so
        everything proved of its runs holds of them. */
    method PerformAll(es: seq<R.Event>)
      requires Valid() && R.ValidEvents(es) && R.Good(model)
      modifies this, Repr
      ensures Valid() && R.Good(model)
      ensures R.AllShaped(old(model.queue))
      ensures model == R.Run(old(model), es)
    {
      assert R.AllShaped(model.queue) by { ModelShaped(); }
      for n := 0 to |es|
        invariant Valid() && fresh(Repr - old(Repr))
        invariant model == R.Run(old(model), es[..n])
      {
        assert es[..n + 1][..n] == es[..n];
        Perform(es[n]);
      }
      assert es[..|es|] == es;
      R.RunKeepsGood(old(model), es);
    }
  }
}
