/** Datagrams split into fragments on 8-byte boundaries, and when the arrival bitmap tells that all of them came. */
module Split {
  import opened Bytes
  import opened IpHeader
  import opened Datagram

  /** A payload cut into |cuts| consecutive pieces; piece `i` starts at block `cuts[i]` of 8 bytes. The whole
      datagram fits the 16-bit total length. */
  ghost predicate IsSplit(payload: seq<byte>, cuts: seq<nat>) {
    && |cuts| >= 2 && cuts[0] == 0
    && (forall i, j :: 0 <= i < j < |cuts| ==> cuts[i] < cuts[j])
    && 8 * cuts[|cuts| - 1] <= |payload| <= 0xFFFF - IP_HDR_SIZE
  }

  ghost function PieceEnd(payload: seq<byte>, cuts: seq<nat>, i: nat): (end: nat)
    requires IsSplit(payload, cuts) && i < |cuts|
    ensures 8 * cuts[i] <= end <= |payload|
  {
    if i + 1 < |cuts| then
      assert i + 1 == |cuts| - 1 || cuts[i + 1] < cuts[|cuts| - 1];
      8 * cuts[i + 1]
    else |payload|
  }

  /** Fragment `f` is piece `i` of the split (or a duplicate of it). */
  ghost predicate IsPiece(f: Piece, payload: seq<byte>, cuts: seq<nat>, i: int)
    requires IsSplit(payload, cuts)
  {
    && 0 <= i < |cuts|
    && Placeable(f) && f.offset == cuts[i] && (f.more <==> i < |cuts| - 1)
    && f.payload == payload[8 * cuts[i]..PieceEnd(payload, cuts, i)]
  }

  ghost predicate IsSomePiece(f: Piece, payload: seq<byte>, cuts: seq<nat>)
    requires IsSplit(payload, cuts)
  {
    exists i :: IsPiece(f, payload, cuts, i)
  }

  /** Every fragment in the list is a piece of the split. */
  ghost predicate AllPieces(fs: seq<Piece>, payload: seq<byte>, cuts: seq<nat>)
    requires IsSplit(payload, cuts)
  {
    forall k :: 0 <= k < |fs| ==> IsSomePiece(fs[k], payload, cuts)
  }

  ghost predicate Arrived(fs: seq<Piece>, payload: seq<byte>, cuts: seq<nat>, i: int)
    requires IsSplit(payload, cuts)
  {
    exists k :: 0 <= k < |fs| && IsPiece(fs[k], payload, cuts, i)
  }

  ghost predicate AllArrived(fs: seq<Piece>, payload: seq<byte>, cuts: seq<nat>)
    requires IsSplit(payload, cuts)
  {
    forall i :: 0 <= i < |cuts| ==> Arrived(fs, payload, cuts, i)
  }

  /** Every piece strictly between the first and the last brings at least 24 bytes: more than its predecessor's
      claim on the bitmap reaches past the predecessor's end. */
  ghost predicate MiddlePiecesLarge(cuts: seq<nat>) {
    forall i :: 0 < i < |cuts| - 1 ==> cuts[i + 1] >= cuts[i] + 3
  }

  lemma PiecesPlaceable(fs: seq<Piece>, payload: seq<byte>, cuts: seq<nat>)
    requires IsSplit(payload, cuts) && AllPieces(fs, payload, cuts)
    ensures AllPlaceable(fs)
  {
    forall k | 0 <= k < |fs|
      ensures Placeable(fs[k])
    {
      assert IsSomePiece(fs[k], payload, cuts);
    }
  }

  /** The bits a piece claims: its own blocks and two more. */
  lemma PieceClaims(f: Piece, payload: seq<byte>, cuts: seq<nat>, i: nat, b: int)
    requires IsSplit(payload, cuts) && IsPiece(f, payload, cuts, i)
    ensures i < |cuts| - 1 ==> (Claims(f, b) <==> cuts[i] <= b < cuts[i + 1] + 2)
    ensures i == |cuts| - 1 ==> (Claims(f, b) <==> cuts[i] <= b < (|payload| + IP_HDR_SIZE) / 8)
  {
  }

  lemma LengthOfPieces(fs: seq<Piece>, payload: seq<byte>, cuts: seq<nat>)
    requires IsSplit(payload, cuts) && AllPieces(fs, payload, cuts)
    ensures AllPlaceable(fs)
    ensures HasLast(fs) <==> Arrived(fs, payload, cuts, |cuts| - 1)
    ensures HasLast(fs) ==> LengthOf(fs) == |payload| + IP_HDR_SIZE
  {
    PiecesPlaceable(fs, payload, cuts);
    if HasLast(fs) {
      var k := LengthFromLast(fs);
      assert IsSomePiece(fs[k], payload, cuts);
      var i :| IsPiece(fs[k], payload, cuts, i);
      assert i == |cuts| - 1;
    }
  }

  /** When every piece has arrived the bitmap is complete. */
  lemma AllArrivedIsComplete(fs: seq<Piece>, payload: seq<byte>, cuts: seq<nat>)
    requires IsSplit(payload, cuts) && AllPieces(fs, payload, cuts) && AllArrived(fs, payload, cuts)
    ensures AllPlaceable(fs) && Complete(fs)
  {
    LengthOfPieces(fs, payload, cuts);
    assert Arrived(fs, payload, cuts, |cuts| - 1);
    forall b | 0 <= b < LengthOf(fs) / 8
      ensures Claimed(fs, b)
    {
      var i := PieceHolding(payload, cuts, b);
      assert Arrived(fs, payload, cuts, i);
      var k :| 0 <= k < |fs| && IsPiece(fs[k], payload, cuts, i);
      PieceClaims(fs[k], payload, cuts, i, b);
      assert Claims(fs[k], b);
    }
  }

  /** The last piece that starts at or before block `b`. */
  lemma PieceHolding(payload: seq<byte>, cuts: seq<nat>, b: nat) returns (i: nat)
    requires IsSplit(payload, cuts)
    ensures i < |cuts| && cuts[i] <= b && (i + 1 < |cuts| ==> b < cuts[i + 1])
  {
    i := 0;
    while i + 1 < |cuts| && cuts[i + 1] <= b
      invariant i < |cuts| && cuts[i] <= b
    {
      i := i + 1;
    }
  }

  /** The bit that only piece `i` can set: its third block, or block 0 for the first piece. */
  ghost function Witness(cuts: seq<nat>, i: nat): nat
    requires i < |cuts|
  {
    if i == 0 then cuts[0] else cuts[i] + 2
  }

  lemma CutsOrdered(payload: seq<byte>, cuts: seq<nat>, i: nat, j: nat)
    requires IsSplit(payload, cuts) && i <= j < |cuts|
    ensures cuts[i] <= cuts[j]
  {
    assert i == j || cuts[i] < cuts[j];
  }

  lemma OthersDoNotClaimWitness(f: Piece, payload: seq<byte>, cuts: seq<nat>, i: nat, j: nat)
    requires IsSplit(payload, cuts) && MiddlePiecesLarge(cuts)
    requires i < |cuts| - 1 && IsPiece(f, payload, cuts, j)
    ensures i != j ==> !Claims(f, Witness(cuts, i))
  {
    PieceClaims(f, payload, cuts, j, Witness(cuts, i));
    if j < i {
      CutsOrdered(payload, cuts, j + 1, i);
    } else if i < j {
      CutsOrdered(payload, cuts, i + 1, j);
    }
  }

  /** With large middle pieces the bitmap is complete only when every piece has arrived. */
  lemma CompleteOnlyWhenAllArrived(fs: seq<Piece>, payload: seq<byte>, cuts: seq<nat>)
    requires IsSplit(payload, cuts) && AllPieces(fs, payload, cuts) && AllPlaceable(fs) && MiddlePiecesLarge(cuts)
    ensures Complete(fs) ==> AllArrived(fs, payload, cuts)
  {
    LengthOfPieces(fs, payload, cuts);
    if Complete(fs) {
      forall i | 0 <= i < |cuts| - 1
        ensures Arrived(fs, payload, cuts, i)
      {
        var w := Witness(cuts, i);
        CutsOrdered(payload, cuts, i + 1, |cuts| - 1);
        assert Claimed(fs, w);
        var k :| 0 <= k < |fs| && Claims(fs[k], w);
        assert IsSomePiece(fs[k], payload, cuts);
        var j :| IsPiece(fs[k], payload, cuts, j);
        OthersDoNotClaimWitness(fs[k], payload, cuts, i, j);
      }
    }
  }

  /** One copy of every piece except `missing`, in order. */
  ghost function AllBut(pieces: seq<Piece>, missing: nat): (rest: seq<Piece>)
    requires missing < |pieces|
    ensures |rest| == |pieces| - 1
    ensures forall k :: 0 <= k < |rest| ==> rest[k] == pieces[if k < missing then k else k + 1]
  {
    pieces[..missing] + pieces[missing + 1..]
  }

  ghost predicate ArePiecesInOrder(pieces: seq<Piece>, payload: seq<byte>, cuts: seq<nat>)
    requires IsSplit(payload, cuts)
  {
    |pieces| == |cuts| && forall i :: 0 <= i < |cuts| ==> IsPiece(pieces[i], payload, cuts, i)
  }

  lemma AllButMissesOne(pieces: seq<Piece>, payload: seq<byte>, cuts: seq<nat>, i: nat)
    requires IsSplit(payload, cuts) && ArePiecesInOrder(pieces, payload, cuts) && i < |cuts|
    ensures var fs := AllBut(pieces, i);
            AllPieces(fs, payload, cuts) && !Arrived(fs, payload, cuts, i)
  {
    var fs := AllBut(pieces, i);
    forall k | 0 <= k < |fs|
      ensures IsSomePiece(fs[k], payload, cuts) && !IsPiece(fs[k], payload, cuts, i)
    {
      assert IsPiece(fs[k], payload, cuts, if k < i then k else k + 1);
    }
  }

  /** Every piece but piece `i` has arrived. */
  ghost predicate OthersArrived(fs: seq<Piece>, payload: seq<byte>, cuts: seq<nat>, i: nat)
    requires IsSplit(payload, cuts)
  {
    forall j :: 0 <= j < |cuts| && j != i ==> Arrived(fs, payload, cuts, j)
  }

  /** A middle piece shorter than 24 bytes is not missed: as soon as the others have arrived, in any order and with any
      duplicates, the bitmap is complete. */
  lemma SmallMiddlePieceIsNotMissed(fs: seq<Piece>, payload: seq<byte>, cuts: seq<nat>, i: nat)
    requires IsSplit(payload, cuts) && AllPieces(fs, payload, cuts) && OthersArrived(fs, payload, cuts, i)
    requires 0 < i < |cuts| - 1 && cuts[i + 1] < cuts[i] + 3
    ensures AllPlaceable(fs) && Complete(fs)
  {
    LengthOfPieces(fs, payload, cuts);
    assert Arrived(fs, payload, cuts, |cuts| - 1);
    forall b | 0 <= b < LengthOf(fs) / 8
      ensures Claimed(fs, b)
    {
      var n := PieceHolding(payload, cuts, b);
      if n == i {
        n := i - 1;
      }
      assert Arrived(fs, payload, cuts, n);
      var k :| 0 <= k < |fs| && IsPiece(fs[k], payload, cuts, n);
      PieceClaims(fs[k], payload, cuts, n, b);
      assert Claims(fs[k], b);
    }
  }

  lemma OthersAreAllBut(pieces: seq<Piece>, payload: seq<byte>, cuts: seq<nat>, i: nat)
    requires IsSplit(payload, cuts) && ArePiecesInOrder(pieces, payload, cuts) && i < |cuts|
    ensures OthersArrived(AllBut(pieces, i), payload, cuts, i)
  {
    var fs := AllBut(pieces, i);
    forall j | 0 <= j < |cuts| && j != i
      ensures Arrived(fs, payload, cuts, j)
    {
      assert IsPiece(fs[if j < i then j else j - 1], payload, cuts, j);
    }
  }

  /** The bitmap is exact for a split -- complete precisely when every piece has arrived, whatever fragments of it
      have -- if and only if its middle pieces bring at least 24 bytes each. */
  lemma BitmapExactIff(pieces: seq<Piece>, payload: seq<byte>, cuts: seq<nat>)
    requires IsSplit(payload, cuts) && ArePiecesInOrder(pieces, payload, cuts)
    ensures MiddlePiecesLarge(cuts) <==>
            forall fs: seq<Piece> :: AllPieces(fs, payload, cuts) && AllPlaceable(fs) ==>
              (Complete(fs) <==> AllArrived(fs, payload, cuts))
  {
    if MiddlePiecesLarge(cuts) {
      forall fs: seq<Piece> | AllPieces(fs, payload, cuts) && AllPlaceable(fs)
        ensures Complete(fs) <==> AllArrived(fs, payload, cuts)
      {
        CompleteOnlyWhenAllArrived(fs, payload, cuts);
        if AllArrived(fs, payload, cuts) {
          AllArrivedIsComplete(fs, payload, cuts);
        }
      }
    } else {
      var i :| 0 < i < |cuts| - 1 && cuts[i + 1] < cuts[i] + 3;
      AllButMissesOne(pieces, payload, cuts, i);
      OthersAreAllBut(pieces, payload, cuts, i);
      SmallMiddlePieceIsNotMissed(AllBut(pieces, i), payload, cuts, i);
      assert !AllArrived(AllBut(pieces, i), payload, cuts);
    }
  }

  /** Once every piece has arrived, in any order and with any duplicates, the buffer holds the payload. */
  lemma {:induction false} PiecesRestorePayload(fs: seq<Piece>, payload: seq<byte>, cuts: seq<nat>, i: nat, p: nat)
    requires IsSplit(payload, cuts) && AllPieces(fs, payload, cuts) && AllPlaceable(fs)
    requires i < |cuts| && Arrived(fs, payload, cuts, i)
    requires 8 * cuts[i] <= p < PieceEnd(payload, cuts, i)
    ensures ByteAt(fs, p) == payload[p]
  {
    assert IsSomePiece(fs[0], payload, cuts);
    var j :| IsPiece(fs[0], payload, cuts, j);
    if j == i {
    } else {
      assert !Carries(fs[0], p) by {
        if j < i {
          assert j + 1 == i || cuts[j + 1] < cuts[i];
        } else {
          assert j == i + 1 || cuts[i + 1] < cuts[j];
        }
      }
      var k :| 0 <= k < |fs| && IsPiece(fs[k], payload, cuts, i);
      assert k > 0;
      assert IsPiece(fs[1..][k - 1], payload, cuts, i);
      PiecesRestorePayload(fs[1..], payload, cuts, i, p);
    }
  }

  lemma PayloadRestored(fs: seq<Piece>, payload: seq<byte>, cuts: seq<nat>, p: nat)
    requires IsSplit(payload, cuts) && AllPieces(fs, payload, cuts) && AllPlaceable(fs)
    requires AllArrived(fs, payload, cuts) && p < |payload|
    ensures ByteAt(fs, p) == payload[p]
  {
    var i := PieceHolding(payload, cuts, p / 8);
    assert Arrived(fs, payload, cuts, i);
    PiecesRestorePayload(fs, payload, cuts, i, p);
  }
}
