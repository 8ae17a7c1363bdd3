# Verified model of the packet filters

`ansfltr` intercepts packets between the protocols and the adapters of a machine; `ansfw` is a client of it that
reassembles fragments, finds the process behind a packet, holds back connection requests, and offers packets to clients
of its own. This project models the parts of the two drivers whose correctness is not obvious and proves what they
guarantee. `dafny verify dfyconfig.toml` checks all of it.

| file | what it models |
|---|---|
| `Bytes.dfy`, `Checksum.dfy`, `IpHeader.dfy` | byte order, the header checksum, the fields and checks of a captured frame |
| `Datagram.dfy`, `Split.dfy` | one work buffer: what it holds, what its arrival bitmap proves |
| `Reassembly.dfy`, `ReassemblyRuns.dfy` | the queue of datagrams, the pool, ageing and delivery as a state machine, and what holds over every run |
| `WorkBuffers.dfy` | the same as objects updated in place, proved against the state machine |
| `Loans.dfy` | who holds a delivered datagram, what becomes of every fragment, how many buffers there are |
| `RoundTrip.dfy` | fragmenting a payload into frames, and reassembling them |
| `Gather.dfy`, `Receive.dfy` | the scatter/gather copy and the receive path that rotates a packet's buffers |
| `Connections.dfy` | the table that maps connections to processes |
| `ControlDevice.dfy` | creation and deletion of the control device |
| `OidRequests.dfy`, `OidHistory.dfy` | OID requests, power states and unbinding; the same told from what was issued and has run |
| `PendedIrps.dfy`, `IrpFates.dfy` | ownership of the IRPs the firewall holds back; how each of them ends |
| `References.dfy`, `Ledgers.dfy` | reference counts of both layers; the same told from what clients and threads did |
| `ClientChain.dfy` | the callback chains of both layers, which clients can stop and resume |
| `Lists.dfy`, `Multisets.dfy` | helpers |

Where several threads meet, a region under a lock, or one interlocked operation, is one step of a state machine, and a
theorem about `Run` is about every interleaving of the steps. The classes update the program's fields in place, one
method per region; their contracts say which step of the state machine they make, so the theorems about runs hold of
them. In `Reassembly.dfy` a step is a whole event of the queue, whose lock is held throughout.

Seven promises turn out not to hold as made, and are stated with the exact condition instead, and a run that fails:

- The arrival bitmap counts a fragment's header as payload, so a fragment claims two blocks past its end. Reassembly is
  exact for a split if and only if the pieces between the first and the last bring at least 24 bytes each
  (`Split.BitmapExactIff`). `RoundTrip.ShortPieceIsMissed` gives the frames that fail for every other split.
- An IRP handed to clients is disposed of exactly once if and only if no two injections of it overlap
  (`PendedIrps.DisposedOnceIff`): the pointer is tested, used and cleared without a lock
  (`PendedIrps.OverlapSendsTwice`, `PendedIrps.OverlapFaults`).
- `SendPacket` (ansfltr/vista/filter.c:747-774) uses the handle of an open adapter if and only if the adapter was not closed
  between the locked read of the handle and the call of NDIS (`References.CallUsesOpenAdapterIff`); nothing keeps it open
  (`References.ClosedAdapterIsUsed`).
- A connection just added is the one a lookup finds if and only if it was inserted, or the entry taken over for it was not
  outranked before (`Connections.InsertedIsFound`, `Connections.UpdatedIsFoundIff`, `Connections.OutrankedHappens`).
- The assertion at the head of `PtRequestComplete` (ansfltr/nt/protocol.c:716) holds if and only if the request was
  forwarded (`OidRequests.AssertedOutstandingIff`); queued requests are failed through the same routine
  (`OidRequests.PowerDownDrains`, `OidRequests.UnbindDrains`).
- A request goes on to be forwarded with the lower edge at D0 if and only if no capabilities query was completed since the
  lower edge was announced to have powered down (`OidRequests.ForwardedAtD0Iff`): its completion writes D0 over the states of
  both edges (`OidRequests.ForwardedWhileDown`).
- The size guard of reassembly keeps what it copies inside the work buffer if and only if the fragment is the first or its
  total length covers its header (`Datagram.WritesStayInsideIff`), which the checks before it do not ask for (`RoundTrip.ShortTotalIsAccepted`).

Two more limits: a tick can take more than one unit of TTL from a
datagram (`Reassembly.TickCanCostTwo`), and a datagram of exactly 65536 bytes is stored with length 0 and never completes
(`Datagram.FullRangeNeverCompletes`).

Assumptions: NDIS issues one OID request at a time; a client's callback returns STATUS_SUCCESS or an error and clients
drop only references they took; the two drivers stay connected during a run; a fragment's total length is at least its
header length; `RtlAreBitsSet` answers FALSE for an empty range. Memory running out, the answers of clients, the system
pool and NDIS are parameters of the steps.

## Model

| member | source | states |
|---|---|---|
| `Bytes.SwapOfHostLoad` | ansfw/reassembly.c:255-258 | `ntohs` of the little-endian load of two wire bytes is their big-endian value |
| `Bytes.SwapLongOfHostLoad` | ansfw/reassembly.c:261-262 | `ntohl` of the load of four wire bytes is their big-endian value |
| `Bytes.SwapInvolution` | ansfw/reassembly.c:207 | the swap that reads a field in host order also writes it back in network order |
| `IpHeader.Classify` | ansfw/tcpip.c:146-220 | a frame is taken for IPv4 exactly when it fits an Ethernet frame, has the IPv4 type, a whole IP header, and does not end before its total length; and then for a fragment exactly when it has an offset or the more-fragments bit |
| `IpHeader.FragmentMask` | ansfw/tcpip.c:215 | the mask 0x3FFF is non-zero exactly when the offset is non-zero or more fragments follow |
| `IpHeader.DecodeSplitsFrame` | ansfw/reassembly.c:252-264 | the link header, IP header and payload reassembly works on are the captured frame up to its total length |
| `IpHeader.PreparedHeaderIsValid` | ansfw/reassembly.c:202-210 | the rewritten header has the reassembled total as length, no fragment bits, and words that sum to 0xFFFF (section 3.1 of RFC 791); all bytes outside the three rewritten fields are those of the frame |
| `IpHeader.PreparedChecksumOnTheWire` | ansfw/reassembly.c:209 | the checksum bytes stored natively are, on the wire, those of the checksum computed over big-endian words |
| `IpHeader.PrefixKeepsHeader` | ansfw/reassembly.c:523 | cutting the buffer to the reported size keeps the header valid |
| `Checksum.OnesSumIsResidue` | ansfw/reassembly.c:215-226 | the one's-complement sum of RFC 1071 section 1 is the plain sum folded to 1..0xFFFF (0 only for 0) |
| `Checksum.TwoFoldsReduce` | ansfw/reassembly.c:223-225 | for every 32-bit accumulator, two folds and a complement give the complement of its one's-complement residue |
| `Checksum.AccumulatorIsExact` | ansfw/reassembly.c:215-225 | for up to 65537 words the accumulator does not wrap and the result is the complement of the one's-complement sum |
| `Checksum.BoundIsTight` | ansfw/reassembly.c:215-225 | a buffer of 65538 words exists for which the accumulator wraps and the result is not the checksum |
| `Checksum.SumWords` | ansfw/reassembly.c:215-222 | the loop leaves the 32-bit accumulated sum of the words, an odd tail byte counting as a word padded with zero |
| `Checksum.GetChecksum` | ansfw/reassembly.c:213-226 | for every buffer of up to 131074 bytes the routine returns the RFC 1071 checksum of the host-order words |
| `Checksum.ShortBufferChecksum` | ansfw/reassembly.c:213-226 | for such buffers the accumulated, folded value is that checksum |
| `Checksum.ByteOrderIndependence` | ansfw/reassembly.c:213-226 | swapping the bytes of all words swaps the bytes of the one's-complement sum (section 2(B) of RFC 1071) |
| `Checksum.NativeStoreIsWireChecksum` | ansfw/reassembly.c:209 | computed on host-order words and stored natively, the checksum leaves the bytes of the network-order checksum, odd lengths included |
| `Checksum.ChecksumCloses` | ansfw/reassembly.c:206-209 | writing the complement of the sum where the word was zero makes the whole sum 0xFFFF |
| `Datagram.MergeIsFaithful` | ansfw/reassembly.c:290-388 | placing a fragment keeps the buffer saying what its fragments say: bytes (latest arrival wins), header, claimed bits, length, last flag, request fields |
| `Datagram.VerifyMeansComplete` | ansfw/reassembly.c:501-503 | the bitmap test, once the last fragment is known, answers exactly whether the fragments that arrived are complete |
| `Datagram.CompleteUpToTwoBlocks` | ansfw/reassembly.c:306-308 | for any fragments: complete means every block was received or starts fewer than 16 bytes past the end of a received fragment, because the 20-byte header is counted in what a fragment claims |
| `Datagram.FirstFragmentDescribes` | ansfw/reassembly.c:439-450 | the reported request fields and IP header are those of one and the same first fragment |
| `Datagram.LengthFromLast` | ansfw/reassembly.c:379 | the total length is the end of one of the last fragments, in 16 bits |
| `Datagram.FullRangeNeverCompletes` | ansfw/reassembly.c:379 | a datagram that ends at byte 65536 gets length 0 in 16 bits and never completes |
| `Datagram.WritesStayInside` | ansfw/reassembly.c:302-308 | every byte and bit a placed fragment writes is inside the 65550-byte buffer and the 8192-bit map |
| `Datagram.WritesStayInsideIff` | ansfw/reassembly.c:322-340 | for every fragment that passes the size guard, total length below the header length included: the bytes copied and the bits set, with the length wrapped to 16 bits as the program does, stay inside if and only if the total length covers the header or the offset is 0 |
| `Split.PieceClaims` | ansfw/reassembly.c:338-340 | a piece of a split sets the bits of its own blocks and of the two after them |
| `Split.AllArrivedIsComplete` | ansfw/reassembly.c:498-503 | when every piece of a split has arrived, in any order with any duplicates, the bitmap test passes |
| `Split.CompleteOnlyWhenAllArrived` | ansfw/reassembly.c:498-503 | when the middle pieces bring at least 24 bytes each, the bitmap test passes only once every piece has arrived |
| `Split.SmallMiddlePieceIsNotMissed` | ansfw/reassembly.c:498-503 | for every split with a shorter middle piece, the test passes as soon as the others have arrived, in any order with any duplicates: the two-block slack is attained |
| `Split.BitmapExactIff` | ansfw/reassembly.c:498-503 | the test is exact for all arrivals of a split if and only if its middle pieces bring at least 24 bytes each (first and last piece may be shorter) |
| `Split.PiecesRestorePayload` | ansfw/reassembly.c:302-304 | the bytes of an arrived piece are in the buffer at their place in the payload |
| `Split.PayloadRestored` | ansfw/reassembly.c:379-387 | once every piece has arrived the buffer holds the payload |
| `Reassembly.ScanAges` | ansfw/reassembly.c:114-145 | a tick keeps order and contents of the survivors; each loses at least one unit of TTL, and at most one more per datagram expired |
| `Reassembly.ScanFrees` | ansfw/reassembly.c:120-137 | a tick frees exactly the fragments of the datagrams it expires |
| `Reassembly.TickCanCostTwo` | ansfw/reassembly.c:136-137 | a tick with an expiry behind a datagram takes two units from it: "one per tick" would be false |
| `Reassembly.StepConserves` | ansfw/reassembly.c:252-532 | each event leaves every request accounted for: queued, with a delivered datagram, freed, or abandoned |
| `Reassembly.RunConserves` | ansfw/reassembly.c:252-532 | over every run the requests queued, delivered and still referenced, freed and abandoned are exactly those that arrived, with multiplicity |
| `Reassembly.RunKeepsGood` | ansfw/reassembly.c:155-200 | over every run: queued buffers say what their fragments say, keys are distinct, no complete datagram waits, every delivery is sound, and the work buffers queued, on loan and free are all those ever allocated, at most 101 |
| `Reassembly.DeliveredIsSound` | ansfw/reassembly.c:505-523 | what is delivered is a valid header over the bytes of a complete set of fragments, of size total + 14 |
| `ReassemblyRuns.OwnArrival` | ansfw/reassembly.c:277-394 | a fragment of a datagram is delivered with it at once if it completes it, and otherwise added to it |
| `ReassemblyRuns.OtherArrival` | ansfw/reassembly.c:277-285 | a fragment with another key leaves the datagram as it was |
| `ReassemblyRuns.NotDeliveredBefore` | ansfw/reassembly.c:252-532 | until its fragments are complete a datagram is not delivered, whatever other traffic, ticks and clients do |
| `ReassemblyRuns.DeliveredAtCompletion` | ansfw/reassembly.c:252-532 | it is delivered, once, exactly at the arrival that completes it |
| `ReassemblyRuns.ExactReassembly` | ansfw/reassembly.c:252-532 | for every payload, every split whose middle pieces bring at least 24 bytes, and every order of arrival with duplicates among other traffic: delivered exactly at the arrival of the last missing piece, with the payload from byte 34 on |
| `ReassemblyRuns.ShortPieceDeliveredEarly` | ansfw/reassembly.c:498-506 | in every run in which all pieces but a shorter middle one arrive, in any order, with duplicates and among other traffic, some arrival before that piece delivers the datagram without it |
| `ReassemblyRuns.DeliveryDescribedByFirst` | ansfw/reassembly.c:295-301 | a delivery carries the addresses, ports, PID and header fields of one of its own first fragments, plus the reassembled flag |
| `ReassemblyRuns.TickLowersTtl` | ansfw/reassembly.c:119-140 | a tick a datagram survives lowers its TTL |
| `ReassemblyRuns.TtlBoundsTicks` | ansfw/reassembly.c:119-140 | while a datagram stays queued, its TTL and the ticks seen so far never exceed the TTL it started with |
| `ReassemblyRuns.BoundedLifetime` | ansfw/reassembly.c:119-140 | a datagram queued with TTL t is gone within t + 1 ticks, whatever happens in between |
| `ReassemblyRuns.NewDatagramIsQueued` | ansfw/reassembly.c:402-481 | the first fragment of a datagram to arrive, while a buffer is free or at most 100 have been made and memory lasts, queues it with the TTL of byte 22 of its own frame |
| `ReassemblyRuns.LaterFragmentKeepsTtl` | ansfw/reassembly.c:286-394 | a later fragment that does not complete the datagram is added to it and leaves it queued with the same TTL |
| `ReassemblyRuns.ScanSpares` | ansfw/reassembly.c:114-145 | a tick spares every datagram that has a unit of TTL for the pass and one more for each datagram the tick expires, and takes no more than that |
| `ReassemblyRuns.OutlivesTicks` | ansfw/reassembly.c:109-149 | the lower bound on the lifetime: an incomplete datagram stays queued, collecting its fragments, until the ticks, and the expiries of others at them, have used up its TTL, whatever else arrives and whatever clients do |
| `RoundTrip.DecodeOfFrame` | ansfw/reassembly.c:252-264 | decoding the frame built for a fragment gives back its key, TTL, offset, more-fragments bit and payload |
| `RoundTrip.ArrivedIffOrdered` | ansfw/reassembly.c:277-287 | a piece put on the wire, and no other, has arrived |
| `RoundTrip.WaitsForMissing` | ansfw/reassembly.c:277-394 | while a piece is missing the datagram waits in the queue and nothing is delivered |
| `RoundTrip.FragmentAndReassemble` | ansfw/reassembly.c:252-532 | round trip: any payload cut into frames (middle pieces of at least 24 bytes), sent in any order with repetitions, is delivered once, when the last missing piece arrives, and the delivery holds the payload |
| `RoundTrip.ReassembleAmidTicks` | ansfw/reassembly.c:109-149 | the same with ticks of the ageing thread in between, as many as the TTL of the frames: delivered once, with the payload, when the last missing piece arrives |
| `RoundTrip.ShortPieceIsMissed` | ansfw/reassembly.c:498-506 | the failing input: for every payload, every split and every middle piece of less than 24 bytes, frames of the other pieces are given whose arrival, from the empty queue, delivers the datagram with zeros where the piece belongs |
| `RoundTrip.EarlyDeliveryHappens` | ansfw/reassembly.c:498-506 | such a run exists: 24 bytes in three frames of 8, delivered after two of them with a payload that was never sent |
| `RoundTrip.ShortTotalIsAccepted` | ansfw/tcpip.c:160-215 | a frame whose total length does not cover its header is taken for a fragment, and what is copied for it does not stay inside the buffer |
| `Loans.LoansAreHeld` | ansfw/callbacks.c:337-378 | over every run a delivered datagram is on loan, with its buffer and fragments, exactly while somebody holds it, and its references are the clones taken while it was offered plus later clones minus releases |
| `Loans.LastHolderFrees` | ansfw/callbacks.c:348-369 | so with n holders n - 1 releases take nothing away, and the n-th frees the fragments and gives the buffer back |
| `Loans.FragmentsDropped` | ansfw/reassembly.c:322-332 | exactly what is dropped without being freed: a fragment with IP options; one that ends past the largest datagram, with all that arrived of it; one that needs a buffer when there is none |
| `Loans.FragmentsKept` | ansfw/reassembly.c:498-532 | nothing else is; a completed datagram nobody keeps is freed with all its fragments |
| `Loans.TickFrees` | ansfw/reassembly.c:120-137 | a tick drops nothing: what it takes from the queue it frees |
| `Loans.PoolIsPeak` | ansfw/reassembly.c:155-191 | the work buffers ever made are as many as were in use at once at the most, never more than 101 |
| `WorkBuffers.DataList.Zero` | ansfw/reassembly.c:168-169 | a reused buffer is as good as a new one: all bytes and bits cleared |
| `WorkBuffers.DataList.AreBitsSet` | ansfw/reassembly.c:503 | the answer is whether the range is not empty and all its bits are set |
| `WorkBuffers.DataList.PlaceFirst` | ansfw/reassembly.c:295-308 | in place, the first fragment of a known datagram leaves the buffer in the state of `Merge` |
| `WorkBuffers.DataList.PlaceMiddle` | ansfw/reassembly.c:322-340 | the same for a middle fragment |
| `WorkBuffers.DataList.PlaceLast` | ansfw/reassembly.c:362-387 | the same for a last fragment, which sets the length |
| `WorkBuffers.DataList.PlaceNew` | ansfw/reassembly.c:428-481 | the same for the first fragment to arrive, in a freshly labelled buffer |
| `WorkBuffers.DataList.PrepareIpHeader` | ansfw/reassembly.c:202-210 | the header is rewritten in place to the prepared header |
| `WorkBuffers.Reassembler.AllocWorkBuffer` | ansfw/reassembly.c:155-191 | a free buffer, else a new one while the count is at most 100 and memory lasts, else none; zeroed either way |
| `WorkBuffers.Reassembler.Recycle` | ansfw/reassembly.c:193-200 | the buffer goes to the free list |
| `WorkBuffers.Reassembler.Verify` | ansfw/reassembly.c:498-532 | a buffer whose bits are all set is unlinked, finished, offered and released; any other is left |
| `WorkBuffers.Reassembler.AnalyzeQueued` | ansfw/reassembly.c:286-394 | objects and lists change as the state machine says for a fragment of a known datagram, with the exits that abandon it |
| `WorkBuffers.Reassembler.AnalyzeNew` | ansfw/reassembly.c:402-493 | the same for the first fragment of a datagram |
| `WorkBuffers.Reassembler.Analyze` | ansfw/reassembly.c:230-496 | the same for any request, including the search of the queue |
| `WorkBuffers.Reassembler.Age` | ansfw/reassembly.c:109-149 | the ageing loop, which starts over after each expiry, ends and does what a tick does |
| `WorkBuffers.Reassembler.Clone` | ansfw/callbacks.c:337-346 | a client takes one more reference on a delivered datagram |
| `WorkBuffers.Reassembler.Release` | ansfw/callbacks.c:348-369 | a client drops one; the last drop frees the fragments and recycles the buffer |
| `WorkBuffers.Reassembler.PerformAll` | ansfw/reassembly.c:230-532 | any sequence of events takes the objects where the state machine goes, and the invariant holds of them |
| `Gather.ReadOnPacket` | ansfltr/nt/Util.c:156-271 | for any chain (empty buffers included), offset and count: exactly the bytes of the flattened packet from the offset on, as many as there are up to the count, with that count reported, the rest of the destination untouched |
| `Gather.NextData` | ansfltr/nt/Util.c:200-225 | the inner loop stops at the next buffer that has data, having skipped nothing, or at the end of the packet |
| `Gather.ReadFromBuffer` | ansfltr/nt/Util.c:227-269 | one buffer: what the offset still asks for is skipped, then what the count still asks for is copied |
| `Receive.PtReceive` | ansfltr/nt/protocol.c:1231-1405 | the captured frame is header followed by the whole packet, at most 1514 bytes; a frame is captured exactly when it fits and nothing fails, and indicated to the protocol above unseen exactly when it does not fit or there is no memory for it |
| `Receive.TransferComplete` | ansfltr/nt/protocol.c:1047-1064 | after the rotation the gather yields the frame |
| `Receive.RotatedIsFrame` | ansfltr/nt/protocol.c:1051-1056 | the chain with the residual moved from the front to the back reads as the frame |
| `Connections.BestInIsBest` | ansfw/vista/connections.c:208-325 | one scan finds the matching entry that is least in (specificity rank, position), or that none matches |
| `Connections.BestIsUnique` | ansfw/vista/connections.c:208-325 | there is only one such entry |
| `Connections.Table.GetPidFromLocalInfo` | ansfw/vista/connections.c:200-328 | the passes in order of specificity return the PID of that entry, 0 when no entry matches |
| `Connections.ConnectedAnswers` | ansfw/vista/connections.c:210-257 | a connection to the peer answers before any socket bound to nobody: on the very local address first, else on the wildcard address, the first in the table of each |
| `Connections.ListenerAnswers` | ansfw/vista/connections.c:259-300 | without a connection to the peer the first socket bound to nobody on the very local address answers, else the first on the wildcard address |
| `Connections.RawAnswers` | ansfw/vista/connections.c:302-325 | for other protocols the first entry of the protocol itself with the remote address answers, else the first of number 255 |
| `Connections.AnswerFits` | ansfw/vista/connections.c:200-328 | the answer is the PID of an entry that fits in the plain sense, and 0 when none does |
| `Connections.AddConnects` | ansfw/vista/connections.c:76-113 | the first entry on the protocol and port that is bound to nobody, on the same or the wildcard address, keeps its local address and gets peer and owner; if there is none a new entry goes to the head |
| `Connections.AddKeepsConsistent` | ansfw/vista/connections.c:78-113 | an add keeps at most one unbound entry per protocol, port and address, and the unbound wildcard before the specific ones |
| `Connections.AlwaysConsistent` | ansfw/vista/connections.c:65-198 | so does every sequence of adds and removes |
| `Connections.WildcardIsAdoptedFirst` | ansfw/vista/connections.c:85-89 | when an unbound wildcard entry fits, it is the one an add takes over |
| `Connections.InsertedIsFound` | ansfw/vista/connections.c:102-113 | after an add that inserted, lookup of the same tuple returns the new PID |
| `Connections.UpdatedIsFoundIff` | ansfw/vista/connections.c:80-99 | after an add that updated, the entry answers for the tuple if and only if no other entry outranked it before the call |
| `Connections.Table.AddConnection` | ansfw/vista/connections.c:65-121 | in place: the first entry that fits is taken over, else one is inserted at the head if there is memory |
| `Connections.Table.GetConnection` | ansfw/vista/connections.c:123-170 | the first entry with exactly the tuple, or none |
| `Connections.Table.RemoveConnection` | ansfw/vista/connections.c:173-198 | the entry is unlinked if it is in the table, and nothing else changes |
| `Connections.OutrankedHappens` | ansfw/vista/connections.c:80-99 | such a table is reachable: after three adds the connection just added with PID 3 is answered with PID 1 |
| `ControlDevice.RunKeepsInv` | ansfltr/nt/ndisrd.c:298-417 | the count is the number of adapters between entering registration and leaving, and the flag says which call is at work |
| `ControlDevice.CreationAndDeletionAlternate` | ansfltr/nt/ndisrd.c:298-417 | over every interleaving, of one adapter or many, creations and deletions strictly alternate and the handle tells which came last; of two different adapters, not both are creating or deleting |
| `ControlDevice.QuietDevice` | ansfltr/nt/ndisrd.c:298-417 | with no call in progress the device exists if and only if the count is positive and its creation did not fail, and the flag is ready |
| `ControlDevice.AssertionsHold` | ansfltr/nt/ndisrd.c:304 | the assertions in both routines hold in every reachable state |
| `ControlDevice.WaitIsForADeletion` | ansfltr/nt/ndisrd.c:311-316 | whoever waits, waits for a deletion whose next step is possible and ends the wait |
| `ControlDevice.GlobalsRemember` | ansfltr/nt/ndisrd.c:298-417 | the count is the registrations that got in less the deregistrations, and the handle is set exactly when the last call of NDIS left a device |
| `ControlDevice.FirstAndLast` | ansfltr/nt/ndisrd.c:298-417 | left alone, the first to register ends with a device and the last to deregister without one |
| `ControlDevice.Globals.EnterRegister` | ansfltr/nt/ndisrd.c:298-302 | in place: the count goes up and only the first one in goes on to create |
| `ControlDevice.Globals.TryStartCreation` | ansfltr/nt/ndisrd.c:311-318 | creation starts only from the ready state |
| `ControlDevice.Globals.EnterDeregister` | ansfltr/nt/ndisrd.c:384-405 | the count goes down and only the last one out goes on to delete |
| `ControlDevice.Globals.DeleteDevice` | ansfltr/nt/ndisrd.c:407-411 | the device is deleted if it was created |
| `ControlDevice.Globals.PerformAll` | ansfltr/nt/ndisrd.c:298-417 | any interleaving of the regions takes the globals where the state machine goes |
| `OidRequests.RunKeepsInv` | ansfltr/nt/protocol.c:713-772 | over every interleaving of handlers, lower completions, power events and unbinds: exactly one thread or the queue has the request NDIS is waiting for, and the flags say which |
| `OidRequests.CompletedExactlyOnce` | ansfltr/nt/miniport.c:377-449 | each completer tells NDIS on its own, with no check that the request is still there to complete; yet each request issued is completed exactly once, the one NDIS is waiting for excepted, and a queued request implies the lower edge is not at D0 and nothing is outstanding |
| `OidRequests.OneCompleter` | ansfltr/nt/protocol.c:713-772 | no two threads ever both mean to complete the request, and none does while it is queued |
| `OidRequests.NothingStartsAfterUnbind` | ansfltr/nt/protocol.c:405-420 | after the unbind flag is set nothing is queued, and nothing is outstanding that was not before |
| `OidRequests.RequestsMakeProgress` | ansfltr/nt/miniport.c:592-665 | a request in progress is either with a thread, each of whose steps brings it closer to completion, or queued, and then power-up, power-down and unbind each take it off; nothing sets it back |
| `OidRequests.PowerDownGetsThere` | ansfltr/nt/protocol.c:1685-1697 | while a request is queued the power-down that will take it has nothing to wait for |
| `OidRequests.AssertedOutstandingIff` | ansfltr/nt/protocol.c:716 | the assertion that a request is outstanding holds at a completion if and only if the request was forwarded |
| `OidRequests.PowerDownDrains` | ansfltr/nt/protocol.c:1696-1706 | a run in which the power-down fails a queued request, so the assertion does not hold |
| `OidRequests.UnbindDrains` | ansfltr/nt/protocol.c:405-420 | and one in which an unbind does |
| `OidRequests.ForwardedAtD0Iff` | ansfltr/nt/miniport.c:416-433 | a request goes on to be forwarded with the lower edge at D0, as last announced, if and only if no capabilities query was completed since the lower edge was announced to have powered down |
| `OidRequests.ForwardedWhileDown` | ansfltr/nt/miniport.c:508-509 | a run in which one was: the next query is forwarded while the lower edge is down, and is outstanding when the power-down gets to the assertion that nothing is |
| `OidRequests.PowerDownIsQuiet` | ansfltr/nt/protocol.c:1685-1708 | once a power-down has waited, nothing is outstanding, up to the assertion at its end and beyond, unless a power-up or a capabilities query has made the lower edge look powered since it began |
| `OidHistory.RequestsAreCurrent` | ansfltr/nt/miniport.c:394-399 | whatever a thread or the queue has is the request issued last, and pAdapt->Request holds it while a handler decides or it is queued |
| `OidHistory.PowerUpSendsQueued` | ansfltr/nt/protocol.c:1724-1741 | the power-up of the lower edge takes the queued request, marks it outstanding and goes on to forward exactly it |
| `OidHistory.UnforwardedWasDrained` | ansfltr/nt/protocol.c:1696-1706 | a request is failed without being forwarded only by the end of a power-down or an unbind that took it off the queue |
| `OidHistory.QueuedIsForwarded` | ansfltr/nt/protocol.c:1724-1741 | a run in which a request is queued, sent down at power-up, and completed |
| `OidHistory.HandlerDecides` | ansfltr/nt/miniport.c:404-435 | a handler forwards exactly when nothing is unbinding or standing by and the lower edge is at D0, queues exactly when only the lower edge is down, and fails everything else |
| `OidHistory.HandlerEnters` | ansfltr/nt/miniport.c:377-384 | a query or a set gets past the first test exactly when nothing is unbinding |
| `OidHistory.HandlerFindsPower` | ansfltr/nt/miniport.c:388-392 | and past the second exactly when the upper edge is at D0 |
| `OidHistory.LowerFinishes` | ansfltr/nt/miniport.c:440-449 | a pended request waits below; a set finished at once ends in its own handler; any other goes to the completion routine |
| `OidHistory.CompletionEnds` | ansfltr/nt/protocol.c:713-735 | a completion leaves nothing outstanding, and a successful capabilities query is filled in before NDIS is told |
| `OidHistory.FlagsRemember` | ansfltr/nt/protocol.c:1649-1720 | the unbind flag, StandingBy and the state of the upper edge are what the last event to change them said |
| `OidRequests.Adapter.EnterHandler` | ansfltr/nt/miniport.c:377-384 | in place: a set-power is not for the layer below; any other request is failed when unbinding |
| `OidRequests.Adapter.LookMiniportPower` | ansfltr/nt/miniport.c:388-399 | failed when the upper edge is not at D0, else pAdapt->Request is filled in, outside the lock |
| `OidRequests.Adapter.DecideRequest` | ansfltr/nt/miniport.c:404-435 | fail when unbinding, queue when the lower edge is down and not standing by, fail when standing by, else mark outstanding and go on to forward |
| `OidRequests.Adapter.CallLower` | ansfltr/nt/miniport.c:440-449 | pended requests are completed from below; a set finished at once is completed by the return of its handler, which clears the flag; every other goes through the completion routine |
| `OidRequests.Adapter.SetPowerDecide` | ansfltr/nt/miniport.c:720-763 | the set-power checks and the update of StandingBy |
| `OidRequests.Adapter.SetPowerWrite` | ansfltr/nt/miniport.c:768 | then the new state of the upper edge |
| `OidRequests.Adapter.EnterPowerChange` | ansfltr/nt/protocol.c:1649-1729 | the lower edge changes state: stand by on the way down, take the queued request to send it on the way up |
| `OidRequests.Adapter.WaitForRequests` | ansfltr/nt/protocol.c:1685-1691 | the power-down goes on once nothing is outstanding |
| `OidRequests.Adapter.DrainQueued` | ansfltr/nt/protocol.c:1696-1706 | a queued request is taken, its flag cleared, to be failed |
| `OidRequests.Adapter.UnbindRegion` | ansfltr/nt/protocol.c:405-420 | the unbind flag is set, and a queued request is taken, its flag cleared, to be failed |
| `OidRequests.Adapter.CompletionHead` | ansfltr/nt/protocol.c:713-718 | the request is outstanding no more |
| `OidRequests.Adapter.FillCapabilities` | ansfltr/nt/miniport.c:489-517 | a capabilities query that fits puts both edges at D0 |
| `OidRequests.Adapter.PerformAll` | ansfltr/nt/miniport.c:377-665 | any interleaving of the regions takes the adapter where the state machine goes |
| `PendedIrps.RunKeepsInv` | ansfw/nt/Firewall.c:179-407 | over every interleaving of pender, canceller, worker and clients: the cancel routine is set exactly while the IRP is listed and unclaimed, and whoever takes it off owns the IRP |
| `PendedIrps.DisposedOnceIff` | ansfw/nt/Firewall.c:387-407 | a finished IRP was disposed of exactly once, with no send through a cleared pointer, if and only if no injection found it while another still had it; its request was recycled exactly once |
| `PendedIrps.AtMostOneDisposition` | ansfw/nt/Firewall.c:179-407 | at every moment: none while the firewall owns the IRP, at most one unless injections overlapped |
| `PendedIrps.OverlapIsASecondFind` | ansfw/nt/Firewall.c:389-392 | overlapping injections are exactly those where a second one tests the pointer before the first has cleared it |
| `PendedIrps.OverlapSendsTwice` | ansfw/nt/Firewall.c:389-393 | a run in which overlapping injections send the IRP down twice |
| `PendedIrps.OverlapFaults` | ansfw/nt/Firewall.c:389-393 | a run in which the second send goes through the cleared pointer |
| `PendedIrps.ClaimedIsCancelled` | ansfw/nt/Firewall.c:179-212 | an IRP whose cancel routine ran is cancelled once and never forwarded or failed |
| `PendedIrps.FinishedIsFinal` | ansfw/nt/Firewall.c:179-407 | nothing is done to an IRP after its disposition |
| `PendedIrps.FullPassLeavesClaimed` | ansfw/nt/Firewall.c:304-380 | when a pass of the worker ends, everything left on the list has been claimed by a canceller |
| `PendedIrps.NoLostWakeup` | ansfw/nt/Firewall.c:252 | while the worker sleeps with its event reset, every listed IRP still has its pender's signal to come |
| `PendedIrps.PassAdvances` | ansfw/nt/Firewall.c:308-378 | a step of the pass ends it, shortens the list, or moves on: the restarts do not make it endless |
| `IrpFates.DisposedByFate` | ansfw/nt/Firewall.c:179-407 | which disposition: an IRP that could not be pended, or met no client or memory, is sent down; one whose cancel routine was taken is cancelled; one that went to the clients is sent down if an injection found it and failed if none did |
| `IrpFates.ReferencesAreHolders` | ansfw/nt/Firewall.c:344-352 | the count of the firewall request is the worker and the cloners that have not dropped it |
| `IrpFates.InjectionsAreCounted` | ansfw/nt/Firewall.c:387-394 | the pointer is set until an injection has cleared it, every test until then finds the IRP, and every send forwards it or goes through the cleared pointer |
| `IrpFates.NoLostCancel` | ansfw/nt/Firewall.c:227-245 | while a cancelled IRP is listed its canceller or its pender is still to look, and finds the cancel routine set |
| `IrpFates.ListIsInOrder` | ansfw/nt/Firewall.c:222-223 | the list is in the order in which the IRPs were pended |
| `IrpFates.OldestFirst` | ansfw/nt/Firewall.c:306-378 | the worker takes the oldest first: what was pended before the IRP it takes has been claimed by its canceller |
| `IrpFates.EventIsSignal` | ansfw/nt/Firewall.c:252 | the event is set exactly when a pender or canceller has signalled since the worker last woke |
| `PendedIrps.Firewall.ConnectionOk` | ansfw/nt/Firewall.c:272-288 | a request that cannot be copied is forwarded at once, else the copy is to be pended |
| `PendedIrps.Firewall.InsertPending` | ansfw/nt/Firewall.c:222-228 | insert at the tail and set the cancel routine, in one locked step |
| `PendedIrps.Firewall.LookForCancel` | ansfw/nt/Firewall.c:232-234 | the flag is looked at after the routine is set |
| `PendedIrps.Firewall.TakeRoutineBack` | ansfw/nt/Firewall.c:236-244 | the pender completes the IRP only if the routine was still there, and then removes the request |
| `PendedIrps.Firewall.SetEvent` | ansfw/nt/Firewall.c:252 | the worker is woken after the IRP is on the list |
| `PendedIrps.Firewall.SetCancelFlag` | ansfw/nt/Firewall.c:232-234 | the canceller sets the flag before it looks for the routine |
| `PendedIrps.Firewall.TakeRoutine` | ansfw/nt/Firewall.c:179-183 | the canceller calls the routine only if it was there |
| `PendedIrps.Firewall.RemovePending` | ansfw/nt/Firewall.c:191-203 | the loop that starts over at the head removes every entry of the IRP and no other |
| `PendedIrps.Firewall.CancelRemovePending` | ansfw/nt/Firewall.c:187-205 | the cancel routine takes its entry off the list |
| `PendedIrps.Firewall.WaitForEvent` | ansfw/nt/Firewall.c:297-306 | the worker wakes only on a signal, resets it, and starts at the head of the list |
| `PendedIrps.Firewall.LockList` | ansfw/nt/Firewall.c:304-306 | a pass starts at the head of the list, under the lock |
| `PendedIrps.Firewall.GetRequest` | ansfw/nt/Firewall.c:257-270 | the worker takes an entry only if its routine was still there |
| `PendedIrps.Firewall.EndPass` | ansfw/nt/Firewall.c:378-380 | at the end of the list the worker gives the lock back and waits |
| `PendedIrps.Firewall.DispatchTaken` | ansfw/nt/Firewall.c:324-369 | with a client and a firewall request the IRP goes to the clients with one reference, else it is sent at once and recycled |
| `PendedIrps.Firewall.TestPointer` | ansfw/nt/Firewall.c:389 | an injection goes on only if the pointer is set |
| `PendedIrps.Firewall.ClearPointer` | ansfw/nt/Firewall.c:392 | the pointer is cleared after the send |
| `PendedIrps.Firewall.Free` | ansfw/nt/Firewall.c:396-407 | the last reference fails an IRP whose pointer is still set, and recycles the request |
| `PendedIrps.Firewall.PerformAll` | ansfw/nt/Firewall.c:179-407 | any interleaving of pender, canceller, worker and clients takes the lists and fields where the state machine goes |
| `References.RunKeepsInv` | ansfltr/callbacks.c:139-164 | over every interleaving of single interlocked operations and locked regions all counts of both layers equal their holders and the drops still to be counted |
| `References.PacketConservation` | ansfltr/callbacks.c:151-164 | a packet's count is creator and clones + sends in flight + live firewall requests on it + drops begun and not yet counted; while it is positive the packet is listed and not released, and when it is zero it is released exactly once by the end of the one drop that made it so |
| `References.RequestConservation` | ansfw/callbacks.c:348-377 | the same for a firewall request: holders, reassembly and drops in progress; freed exactly once |
| `References.GroupConservation` | ansfw/callbacks.c:358-369 | the same for a reassembled request; recycled exactly once |
| `References.RequestKeepsPacket` | ansfw/callbacks.c:152-167 | a live firewall request holds a packet that is listed and not released |
| `References.GroupKeepsPackets` | ansfw/callbacks.c:358-369 | a live reassembled request holds all its fragments and their packets |
| `References.NoUseAfterFree` | ansfltr/vista/filter.c:740-785 | in every reachable state the next operation of every thread, drop or send, is on memory that has not been given back |
| `References.LastDropFreesFragments` | ansfw/callbacks.c:360-368 | after the last drop of a reassembled request a fragment nobody else has is freed exactly once, when the separate drops of the loop have ended |
| `References.NothingLeaks` | ansfw/callbacks.c:348-378 | when the last holder has gone and the drops have ended the packet list is empty and every packet, request and work buffer was given back exactly once |
| `References.ThreadsEnd` | ansfw/callbacks.c:348-378 | each operation of a drop or a send brings its thread closer to its end |
| `References.CallUsesOpenAdapterIff` | ansfltr/vista/filter.c:747-774 | NDIS is called through the handle of an open adapter if and only if the adapter was not closed between the locked read of the handle and the call |
| `References.ClosedAdapterIsUsed` | ansfltr/vista/filter.c:747-774 | a run in which it is not: a send reads the handle, the adapter is closed, and NDIS is called through the handle |
| `Ledgers.HandlesAreInHand` | ansfltr/callbacks.c:139-164 | the references in hand and the sends in flight are those taken and not given up, from what handlers, clients and threads did alone |
| `Ledgers.AllIsAsMade` | ansfw/callbacks.c:152-167 | every packet, request and reassembled request is on what it was made from, and only a closed adapter is detached |
| `Ledgers.AttachedWhileOpen` | ansfltr/callbacks.c:192-202 | a packet somebody has is on its adapter exactly as long as that is open |
| `Ledgers.HoldRemembers` | ansfw/callbacks.c:188-193 | a request waits with reassembly from being handed over until it is freed or becomes part of a reassembled one |
| `Ledgers.SendAlone` | ansfltr/vista/filter.c:740-785 | a send left alone hands the packet to NDIS with a reference of its own exactly when it has an adapter, and gives the sender its reference back |
| `Ledgers.SendItsPacketAlone` | ansfw/callbacks.c:325-331 | the same for the packet of a firewall request |
| `Ledgers.EachFragmentIsSent` | ansfw/callbacks.c:315-322 | injecting a reassembled request sends the packet of every fragment, in order |
| `References.Layers.CreateOn` | ansfltr/vista/filter.c:456-459 | a new packet has one reference and is at the tail of the list |
| `References.Layers.CloneOfPacket` | ansfltr/callbacks.c:139-149 | one more reference, which only a holder of the packet can take |
| `References.Layers.DecrementPacket` | ansfltr/callbacks.c:156 | one less; at zero the thread goes on to unlink the packet |
| `References.Layers.UnlinkPacket` | ansfltr/callbacks.c:158-160 | under the lock the packet comes off the list |
| `References.Layers.RemoveFromList` | ansfltr/callbacks.c:159 | the entry, and no other, leaves the list |
| `References.Layers.AllocateRequest` | ansfw/callbacks.c:152-167 | a request with one reference, whose packet gains one |
| `References.Layers.CloneOfRequest` | ansfw/callbacks.c:337-346 | one more reference on a firewall request |
| `References.Layers.CloneOfGroup` | ansfw/callbacks.c:337-346 | one more reference on a reassembled request |
| `References.Layers.AssembleGroup` | ansfw/reassembly.c:505-523 | the completed datagram takes over its fragments |
| `References.Layers.DecrementRequest` | ansfw/callbacks.c:352-376 | one less; at zero the thread goes on to drop the packet and then to free the request |
| `References.Layers.DecrementGroup` | ansfw/callbacks.c:352-368 | one less; at zero the thread goes on to drop the fragments, one by one, and then to recycle the buffer |
| `References.Layers.StartFragments` | ansfw/callbacks.c:315-322 | the sends of the fragments of a reassembled request, one by one |
| `References.Layers.ReadHandle` | ansfltr/vista/filter.c:747-749 | the handle is read under the lock; without an adapter the send ends |
| `References.Layers.TakeForSend` | ansfltr/vista/filter.c:755 | the reference for the send is taken after the lock was released |
| `References.Layers.DetachPackets` | ansfltr/callbacks.c:192-202 | the loop over the packet list detaches exactly the listed packets of the closing adapter |
| `References.Layers.PerformAll` | ansfltr/callbacks.c:139-202 | any interleaving of what holders and threads do takes the fields where the state machine goes |
| `ClientChain.LowerWalkIsLine` | ansfw/callbacks.c:169-198 | the nested walk through both layers is one walk along the clients in order, the firewall's in its place |
| `ClientChain.HeadInsertLeavesRest` | ansfltr/callbacks.c:75-77 | a registration below leaves what is ahead of a packet unchanged |
| `ClientChain.TailInsertExtends` | ansfw/callbacks.c:271-275 | a registration with the firewall only extends what is ahead of a packet, and leaves it unchanged past the firewall's clients |
| `ClientChain.OfferedOnceInOrder` | ansfltr/callbacks.c:115-127 | over every run with registrations in between, each client is offered the packet at most once, in list order across both layers |
| `ClientChain.SentOnceIfNobodyDrops` | ansfltr/callbacks.c:131-134 | it is sent at most once; when it is, everyone registered at injection was offered it and nobody dropped it; unless the adapter is closed, a packet everybody let go is sent |
| `ClientChain.RegisteredBelowIsFirst` | ansfltr/callbacks.c:75-77 | a client registered below is offered later packets first |
| `ClientChain.RegisteredAboveIsLast` | ansfw/callbacks.c:271-275 | a client registered with the firewall comes after its other clients, and is still offered a packet one of them keeps |
| `ClientChain.ClosedIsNotSent` | ansfltr/callbacks.c:192-202 | a packet not sent when its adapter is closed never is |
| `ClientChain.StepKeepsGoal` | ansfw/callbacks.c:216-227 | injecting again from a client's own position leads where not stopping would have led |
| `ClientChain.DeferringIsInvisible` | ansfw/callbacks.c:297-335 | once every deferring client has injected the packet again, the state is the one reached had nobody deferred |
| `ClientChain.RegisteringBelowIsInvisible` | ansfltr/callbacks.c:75-77 | so it is when clients are registered below between the deferrals and the injections: from every state on the way, what is still to come ends in the same clients offered, in the same order, and the packet sent or dropped alike |
| `ClientChain.SentIffNobodyDrops` | ansfltr/callbacks.c:99-137 | the packet is sent, once, if and only if no client of either layer drops it, the firewall gets memory for its request, and the adapter is still there; it was offered to everyone, or up to the first who drops it |
| `ClientChain.Chains.ProcessRequest` | ansfw/callbacks.c:200-232 | the loop from a position of the list offers the packet to the clients behind it until one does not accept |
| `ClientChain.Chains.RequestCallback` | ansfw/callbacks.c:169-198 | without clients the firewall lets the packet go; without memory it stops it; else it offers it to its own clients |
| `ClientChain.Chains.CallEntry` | ansfltr/callbacks.c:115-127 | the firewall's entry is `RequestCallback`, any other the client's own callback |
| `ClientChain.Chains.WalkBelow` | ansfltr/callbacks.c:110-127 | the loop below, from a position of the list |
| `ClientChain.Chains.FltInjectRequest` | ansfltr/callbacks.c:99-137 | the packet is sent if nobody stopped it and its adapter is still there |
| `ClientChain.Chains.InjectNew` | ansfltr/callbacks.c:99-137 | a new packet starts at the head of the chain |
| `ClientChain.Chains.Detach` | ansfltr/callbacks.c:192-202 | closing the adapter detaches the packet |
| `ClientChain.Chains.ResumeBelow` | ansfltr/callbacks.c:110-113 | a client below resumes behind itself |
| `ClientChain.Chains.ResumeAbove` | ansfw/callbacks.c:297-335 | a client of the firewall resumes behind itself, and then below behind the firewall |
| `ClientChain.Chains.RegisterBelow` | ansfltr/callbacks.c:75-77 | head insert |
| `ClientChain.Chains.RegisterAbove` | ansfw/callbacks.c:271-275 | tail insert |

## Left out

- NDIS, WFP and TDI registration, device attach, IOCTL dispatch, the INF and build scripts: glue to libraries that are not part of this model.
- Deadlock freedom and the IRQL rules: locked regions are single steps, and nothing is claimed about the order in which locks are taken.
- Threads and the intermediate queue: `IntermedThreadFunc` hands requests to `Analyze` one by one; the model starts at `Analyze`.
- Intrusive lists are sequences; the removal of a request that was already taken off the intermediate queue is left out.
- `WorkBuffers.DataList.CopyIn`: `RtlCopyMemory` is one assignment of a range, not a loop over bytes.
- `Reassembly.RunKeepsGood`: one run of the reassembly thread and the ageing thread; each event is atomic, as the queue lock makes it.
- `WorkBuffers.Reassembler.Release`: the last drop of a delivered datagram, which the queue lock does not cover, is one step here; `References` takes it apart into its decrements, frees and the recycling.
- `ReassemblyRuns.ExactReassembly`: supposes that the datagram does not expire and that a work buffer is there when its first fragment comes; both are conditions of the run, not of the payload.
- Requests that reassembly drops without freeing (ansfw/reassembly.c:268-271, 323-332, 363-372, 404-409, 417-421) are kept in the `abandoned` multiset of `Reassembly.State`.
- `Connections.Table.GetPidFromLocalInfo`: the four loops over the list (two for other protocols) are one loop over passes that calls one scan per pass.
- `Connections.UpdatedIsFoundIff`: the equivalence is about which entry answers; the PID returned can coincide by chance when another entry carries the same PID.
- `Receive.PtReceive`: a residual transferred asynchronously is left out; its stored status stays pending, so the packet is discarded (ansfltr/nt/protocol.c:1031-1038).
- The internal OID requests of `PtRequestComplete` (nothing ever queues one), the wait for outstanding sends (it depends on sends alone), and the data of the requests: only the flags and the device states are modelled.
- `IpHeader.DecodeSplitsFrame`: for a total length that covers the header; a shorter one has no payload to decode, and `Datagram.WritesStayInsideIff` says what becomes of it.
- `Datagram.WritesStayInside`: for fragments with a payload; `Datagram.WritesStayInsideIff` is the condition for all.
- `WorkBuffers.Reassembler.Analyze`: for such total lengths too; the copy of a shorter one leaves the buffer, and nothing is promised after that.
- `References.State`: allocation failures leave no trace and are not steps; firewall requests on held-back connections are in `PendedIrps` instead.
- `ClientChain.Chains.ResumeAbove`: one packet; a reassembled request, which goes on below with each of its fragments in turn, is not followed further.
- Deregistration of a client while a packet is held, driver unload and disconnection: runs have registrations only.
- `ClientChain.RegisteringBelowIsInvisible`: a registration with the firewall while a packet is held is no part of it; it can extend what is ahead of the packet (`ClientChain.TailInsertExtends`).
- `ansfw/nt/openConn.c` (completion-routine plumbing; its lookup is a smaller version of the one modelled), transport-header validation and the TCP flag table in `ansfw/tcpip.c`, and the local-address list in `ansfw/ipmon.c`: single-branch or finite checks.
