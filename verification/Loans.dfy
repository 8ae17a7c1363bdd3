/** Who still has a delivered datagram, what becomes of every fragment, and how many work buffers there are: the reassembly
    queue seen from what arrives and from what the clients do. */
module Loans {
  import opened Bytes
  import opened IpHeader
  import opened Datagram
  import opened Lists
  import opened Multisets
  import opened Reassembly
  import opened ReassemblyRuns

  // ---- The holders of a delivered datagram

  /** The deliveries somebody holds, in the order they were made; `holders` counts the holders of each. */
  ghost function OnLoan(holders: seq<nat>): (order: seq<nat>)
    ensures forall k :: 0 <= k < |order| ==> order[k] < |holders| && holders[order[k]] > 0
  {
    if holders == [] then []
    else OnLoan(holders[..|holders| - 1]) + if holders[|holders| - 1] > 0 then [|holders| - 1] else []
  }

  /** What an event does to the holders: a delivery is held by the clients that kept it while it was offered, by one more
      after a clone and by one less after a release. Clients name it by its place among the deliveries still held. */
  ghost function Recounted(holders: seq<nat>, e: Event, delivers: bool): seq<nat> {
    var order := OnLoan(holders);
    match e
    case Arrive(_, _, clones) => if delivers then holders + [clones] else holders
    case Tick => holders
    case CloneLoan(i) => if i < |order| then holders[order[i] := holders[order[i]] + 1] else holders
    case ReleaseLoan(i) => if i < |order| then holders[order[i] := holders[order[i]] - 1] else holders
  }

  ghost predicate Delivers(s: State, e: Event)
    requires AllShaped(s.queue) && ValidEvent(e)
  {
    |Step(s, e).delivered| > |s.delivered|
  }

  /** The holders of each delivery of a run. */
  ghost function Holders(es: seq<Event>): seq<nat>
    requires ValidEvents(es)
  {
    if es == [] then []
    else
      var front, e := es[..|es| - 1], es[|es| - 1];
      Recounted(Holders(front), e, Delivers(Run(INIT, front), e))
  }

  /** Changing the count of a held delivery leaves the others; at zero it is no longer among the held ones. */
  lemma {:induction false} OnLoanUpdate(holders: seq<nat>, k: nat, n: nat)
    requires k < |OnLoan(holders)|
    ensures var order := OnLoan(holders);
            OnLoan(holders[order[k] := n]) == if n > 0 then order else RemoveAt(order, k)
  {
    var last := |holders| - 1;
    var front, d := holders[..last], OnLoan(holders)[k];
    if k < |OnLoan(front)| {
      OnLoanUpdate(front, k, n);
      assert holders[d := n][..last] == front[d := n];
    } else {
      assert holders[d := n][..last] == front;
    }
  }

  lemma {:induction false} OnLoanIncreases(holders: seq<nat>, j: nat, k: nat)
    requires j < k < |OnLoan(holders)|
    ensures OnLoan(holders)[j] < OnLoan(holders)[k]
  {
    var front := holders[..|holders| - 1];
    if k < |OnLoan(front)| {
      OnLoanIncreases(front, j, k);
    }
  }

  lemma {:induction false} HeldIsOnLoan(holders: seq<nat>, d: nat) returns (k: nat)
    requires d < |holders| && holders[d] > 0
    ensures k < |OnLoan(holders)| && OnLoan(holders)[k] == d
  {
    if d == |holders| - 1 {
      k := |OnLoan(holders)| - 1;
    } else {
      k := HeldIsOnLoan(holders[..|holders| - 1], d);
    }
  }

  /** The buffer on loan is that of the delivery. */
  ghost predicate IsLoanOf(loan: Loan, v: Delivery) {
    && loan.datagram.fragments == v.fragments && loan.datagram.key == v.key && loan.datagram.info == v.info
    && v.buffer <= loan.datagram.finalbuf
  }

  /** The loan is that of delivery `d`, with one reference for every holder. */
  ghost predicate LoanFits(loan: Loan, delivered: seq<Delivery>, holders: seq<nat>, d: nat) {
    d < |delivered| == |holders| && loan.references == holders[d] && IsLoanOf(loan, delivered[d])
  }

  /** The loans are the held deliveries, in order. */
  ghost predicate LoansMatch(s: State, holders: seq<nat>) {
    var order := OnLoan(holders);
    && |holders| == |s.delivered| && |s.loaned| == |order|
    && forall k :: 0 <= k < |order| ==> LoanFits(s.loaned[k], s.delivered, holders, order[k])
  }

  /** A delivery the clients hold `clones` times. */
  lemma OfferKeepsLoans(s: State, s': State, v: Delivery, loan: Loan, holders: seq<nat>)
    requires LoansMatch(s, holders) && IsLoanOf(loan, v) && s'.delivered == s.delivered + [v]
    requires s'.loaned == if loan.references > 0 then s.loaned + [loan] else s.loaned
    ensures LoansMatch(s', holders + [loan.references])
  {
    var all := holders + [loan.references];
    assert all[..|holders|] == holders;
    var order, order' := OnLoan(holders), OnLoan(all);
    assert order' == order + if loan.references > 0 then [|holders|] else [];
    forall k | 0 <= k < |order'|
      ensures LoanFits(s'.loaned[k], s'.delivered, all, order'[k])
    {
      if k < |order| {
        assert LoanFits(s.loaned[k], s.delivered, holders, order[k]);
        assert s'.loaned[k] == s.loaned[k] && order'[k] == order[k];
      }
    }
  }

  lemma FinishedIsLoanOf(d: Datagram, direction: nat, clones: nat)
    requires Shaped(d) && d.totallen + ETHER_HDR_SIZE <= WORKBUF
    ensures IsLoanOf(Loan(Finished(d), clones), Delivered(d, direction))
  {
  }

  lemma QueuedKeepsLoans(s: State, k: nat, f: Piece, clones: nat, holders: seq<nat>)
    requires Good(s) && k < |s.queue| && LoansMatch(s, holders)
    requires 8 * f.offset + f.total <= WORKBUFSIZE ==> Placeable(f)
    ensures var s' := AnalyzeQueued(s, k, f, clones);
            LoansMatch(s', if |s'.delivered| > |s.delivered| then holders + [clones] else holders)
  {
    var s' := AnalyzeQueued(s, k, f, clones);
    if 8 * f.offset + f.total <= WORKBUFSIZE {
      var d := Merge(s.queue[k], f);
      if d.last && AllBitsSet(d) {
        FinishedIsLoanOf(d, f.request.direction, clones);
        OfferKeepsLoans(s, s', Delivered(d, f.request.direction), Loan(Finished(d), clones), holders);
      }
    }
  }

  lemma ArrivalKeepsLoans(s: State, r: Request, poolOk: bool, clones: nat, holders: seq<nat>)
    requires Good(s) && WellFormed(r) && LoansMatch(s, holders)
    ensures var s' := Analyze(s, r, poolOk, clones);
            LoansMatch(s', if |s'.delivered| > |s.delivered| then holders + [clones] else holders)
  {
    var f := Decode(r);
    if |f.header| <= IP_HDR_SIZE {
      var k := Find(s.queue, f.key, 0);
      if k < |s.queue| {
        QueuedKeepsLoans(s, k, f, clones, holders);
      } else {
        assert AnalyzeNew(s, f, poolOk).loaned == s.loaned && AnalyzeNew(s, f, poolOk).delivered == s.delivered;
      }
    }
  }

  lemma RecountKeepsLoans(s: State, i: nat, n: nat, holders: seq<nat>)
    requires LoansMatch(s, holders) && i < |s.loaned| && n > 0
    ensures LoansMatch(s.(loaned := WithReferences(s.loaned, i, n)), holders[OnLoan(holders)[i] := n])
  {
    OnLoanUpdate(holders, i, n);
    Apart(holders, i);
    var order, holders' := OnLoan(holders), holders[OnLoan(holders)[i] := n];
    forall k | 0 <= k < |order|
      ensures LoanFits(WithReferences(s.loaned, i, n)[k], s.delivered, holders', order[k])
    {
      assert LoanFits(s.loaned[k], s.delivered, holders, order[k]);
    }
  }

  lemma LastReleaseKeepsLoans(s: State, s': State, i: nat, holders: seq<nat>)
    requires LoansMatch(s, holders) && i < |s.loaned|
    requires s'.loaned == RemoveAt(s.loaned, i) && s'.delivered == s.delivered
    ensures LoansMatch(s', holders[OnLoan(holders)[i] := 0])
  {
    OnLoanUpdate(holders, i, 0);
    Apart(holders, i);
    var order, holders' := OnLoan(holders), holders[OnLoan(holders)[i] := 0];
    forall k | 0 <= k < |order| - 1
      ensures LoanFits(s'.loaned[k], s'.delivered, holders', OnLoan(holders')[k])
    {
      var j := if k < i then k else k + 1;
      assert LoanFits(s.loaned[j], s.delivered, holders, order[j]);
      assert s'.loaned[k] == s.loaned[j] && OnLoan(holders')[k] == order[j] != order[i];
    }
  }

  lemma Apart(holders: seq<nat>, i: nat)
    requires i < |OnLoan(holders)|
    ensures forall k :: 0 <= k < |OnLoan(holders)| && k != i ==> OnLoan(holders)[k] != OnLoan(holders)[i]
  {
    forall k | 0 <= k < |OnLoan(holders)| && k != i
      ensures OnLoan(holders)[k] != OnLoan(holders)[i]
    {
      if k < i {
        OnLoanIncreases(holders, k, i);
      } else {
        OnLoanIncreases(holders, i, k);
      }
    }
  }

  lemma ReleaseKeepsLoans(s: State, i: nat, holders: seq<nat>)
    requires LoansMatch(s, holders) && i < |s.loaned|
    ensures LoansMatch(Release(s, i), Recounted(holders, ReleaseLoan(i), false))
  {
    if s.loaned[i].references > 1 {
      RecountKeepsLoans(s, i, s.loaned[i].references - 1, holders);
    } else {
      LastReleaseKeepsLoans(s, Release(s, i), i, holders);
    }
  }

  lemma CloneKeepsLoans(s: State, i: nat, holders: seq<nat>)
    requires LoansMatch(s, holders) && i < |s.loaned|
    ensures LoansMatch(Clone(s, i), Recounted(holders, CloneLoan(i), false))
  {
    RecountKeepsLoans(s, i, s.loaned[i].references + 1, holders);
  }

  lemma SameLoans(s: State, s': State, holders: seq<nat>)
    requires LoansMatch(s, holders) && s'.loaned == s.loaned && s'.delivered == s.delivered
    ensures LoansMatch(s', holders)
  {
  }

  lemma StepKeepsLoans(s: State, e: Event, holders: seq<nat>)
    requires Good(s) && ValidEvent(e) && LoansMatch(s, holders)
    ensures LoansMatch(Step(s, e), Recounted(holders, e, Delivers(s, e)))
  {
    if e.Arrive? {
      ArrivalKeepsLoans(s, e.request, e.poolOk, e.clones, holders);
    } else if e.CloneLoan? && e.loan < |s.loaned| {
      CloneKeepsLoans(s, e.loan, holders);
    } else if e.ReleaseLoan? && e.loan < |s.loaned| {
      ReleaseKeepsLoans(s, e.loan, holders);
    } else {
      SameLoans(s, Step(s, e), holders);
    }
  }

  /** Over every run a delivered datagram is on loan, with its buffer and its fragments, exactly as long as somebody holds
      it, and its references are its holders. */
  lemma {:induction false} LoansAreHeld(es: seq<Event>)
    requires ValidEvents(es)
    ensures LoansMatch(Run(INIT, es), Holders(es))
  {
    if es != [] {
      var front := es[..|es| - 1];
      LoansAreHeld(front);
      RunKeepsGood(INIT, front);
      StepKeepsLoans(Run(INIT, front), es[|es| - 1], Holders(front));
    }
  }

  /** Nothing but the loan changes. */
  ghost predicate OnlyLoan(s: State, s': State) {
    s'.queue == s.queue && s'.delivered == s.delivered && s'.abandoned == s.abandoned && s'.created == s.created
  }

  lemma ReleaseEffects(s: State, holders: seq<nat>, i: nat)
    requires LoansMatch(s, holders) && i < |OnLoan(holders)|
    ensures var s', d := Release(s, i), OnLoan(holders)[i];
            && OnlyLoan(s, s')
            && (holders[d] > 1 ==>
                  && s'.freed == s.freed && s'.free == s.free
                  && |s'.loaned| == |s.loaned| && IsLoanOf(s'.loaned[i], s.delivered[d]))
            && (holders[d] == 1 ==>
                  && s'.freed == s.freed + RequestsOf(s.delivered[d].fragments) && s'.free == s.free + 1
                  && s'.loaned == RemoveAt(s.loaned, i))
  {
  }

  /** The release of a holder who is not the last takes nothing away; the last one frees the fragments, once, and gives the
      buffer back. */
  lemma LastHolderFrees(es: seq<Event>, d: nat) returns (i: nat)
    requires ValidEvents(es) && d < |Holders(es)| && Holders(es)[d] > 0
    ensures var s := Run(INIT, es);
            && d < |s.delivered| && i < |s.loaned| && IsLoanOf(s.loaned[i], s.delivered[d])
            && var s' := Release(s, i);
            && OnlyLoan(s, s')
            && (Holders(es)[d] > 1 ==>
                  && s'.freed == s.freed && s'.free == s.free
                  && |s'.loaned| == |s.loaned| && IsLoanOf(s'.loaned[i], s.delivered[d]))
            && (Holders(es)[d] == 1 ==>
                  && s'.freed == s.freed + RequestsOf(s.delivered[d].fragments) && s'.free == s.free + 1
                  && s'.loaned == RemoveAt(s.loaned, i))
  {
    LoansAreHeld(es);
    i := HeldIsOnLoan(Holders(es), d);
    ReleaseEffects(Run(INIT, es), Holders(es), i);
  }

  // ---- What becomes of the fragments

  /** What the lists hold besides the datagram itself is left alone. */
  ghost predicate NothingElse(s: State, s': State) {
    s'.delivered == s.delivered && s'.loaned == s.loaned && s'.freed == s.freed && s'.created == s.created
  }

  /** A fragment that cannot be used is dropped: one with IP options alone; one that ends past the largest datagram together
      with all that has arrived of its datagram, whose buffer is given back; and one that would need a buffer when 101 have
      been made, or memory is out, and none is free. */
  lemma FragmentsDropped(s: State, r: Request, poolOk: bool, clones: nat, fs: seq<Piece>)
    requires Good(s) && WellFormed(r) && Tracks(s, Decode(r).key, fs)
    ensures var f, s' := Decode(r), Analyze(s, r, poolOk, clones);
            && (|f.header| > 20 ==> s' == s.(abandoned := s.abandoned + multiset{r}))
            && (|f.header| == 20 && 8 * f.offset + f.total > 0x1_0000 ==>
                  && NothingElse(s, s') && !InQueue(s', f.key)
                  && s'.abandoned == s.abandoned + RequestsOf([f] + fs) && s'.free == s.free + One(fs != []))
            && (|f.header| == 20 && 8 * f.offset + f.total <= 0x1_0000 && fs == [] && s.free == 0
                && (s.created > 100 || !poolOk) ==>
                  s' == s.(abandoned := s.abandoned + multiset{r}))
  {
    var f := Decode(r);
    FindInQueue(s, f.key);
    if |f.header| == 20 && 8 * f.offset + f.total > 0x1_0000 {
      OversizeDrops(s, f, poolOk, clones, fs);
    }
  }

  lemma OversizeDrops(s: State, f: Piece, poolOk: bool, clones: nat, fs: seq<Piece>)
    requires Good(s) && Tracks(s, f.key, fs) && 8 * f.offset + f.total > 0x1_0000
    ensures var k := Find(s.queue, f.key, 0);
            var s' := if k < |s.queue| then AnalyzeQueued(s, k, f, clones) else AnalyzeNew(s, f, poolOk);
            && NothingElse(s, s') && !InQueue(s', f.key)
            && s'.abandoned == s.abandoned + RequestsOf([f] + fs) && s'.free == s.free + One(fs != [])
  {
    var k := Find(s.queue, f.key, 0);
    FindInQueue(s, f.key);
    RequestsCons(f, []);
    if k < |s.queue| {
      assert s.queue[k].fragments == fs;
    }
  }

  /** A fragment that is used is not dropped; if it completes a datagram that no client keeps, the fragments are freed. */
  lemma FragmentsKept(s: State, r: Request, poolOk: bool, clones: nat, fs: seq<Piece>)
    requires Good(s) && WellFormed(r) && Tracks(s, Decode(r).key, fs) && Placeable(Decode(r))
    requires fs != [] || s.free > 0 || (s.created <= 100 && poolOk)
    ensures var f, s' := Decode(r), Analyze(s, r, poolOk, clones);
            && AllPlaceable([f] + fs) && s'.abandoned == s.abandoned
            && s'.freed == if Complete([f] + fs) && clones == 0 then s.freed + RequestsOf([f] + fs) else s.freed
  {
    var f := Decode(r);
    FindInQueue(s, f.key);
    var k := Find(s.queue, f.key, 0);
    if k < |s.queue| {
      assert s.queue[k].fragments == fs;
      MergeIsFaithful(s.queue[k], f);
      VerifyMeansComplete(Merge(s.queue[k], f));
    } else {
      SingleIsNotComplete(f);
      assert [f] + fs == [f];
    }
  }

  /** A tick drops nothing: what it takes from the queue it frees. */
  lemma TickFrees(s: State)
    requires Good(s)
    ensures var s' := Step(s, Tick);
            && s'.abandoned == s.abandoned && s'.loaned == s.loaned && s'.delivered == s.delivered
            && s'.freed + Held(s'.queue) == s.freed + Held(s.queue)
  {
    ScanFrees(s.queue, 0);
    var r := Scan(s.queue, 0);
    Move(s.freed, r.freed, Held(r.queue));
  }

  // ---- How many work buffers there are

  ghost function InUse(s: State): nat {
    |s.queue| + |s.loaned|
  }

  /** The most work buffers that were in use at once. */
  ghost function Peak(es: seq<Event>): nat
    requires ValidEvents(es)
  {
    if es == [] then 0
    else
      var before, now := Peak(es[..|es| - 1]), InUse(Run(INIT, es));
      if now > before then now else before
  }

  /** What a step does to the buffers: a new one is made only when none is free. */
  lemma StepOnPool(s: State, e: Event)
    requires Good(s) && ValidEvent(e)
    ensures var s' := Step(s, e);
            Good(s') && s'.created == if InUse(s') > s.created then InUse(s') else s.created
  {
    StepKeepsGood(s, e);
    if e.Arrive? {
      ArrivalOnPool(s, e.request, e.poolOk, e.clones);
    }
  }

  lemma ArrivalOnPool(s: State, r: Request, poolOk: bool, clones: nat)
    requires Good(s) && WellFormed(r) && Good(Analyze(s, r, poolOk, clones))
    ensures var s' := Analyze(s, r, poolOk, clones);
            s'.created == if InUse(s') > s.created then InUse(s') else s.created
  {
    var f := Decode(r);
    if |f.header| <= IP_HDR_SIZE {
      var k := Find(s.queue, f.key, 0);
      if k < |s.queue| {
        assert AnalyzeQueued(s, k, f, clones).created == s.created;
      }
    }
  }

  /** No more work buffers are ever made than were in use at once. */
  lemma {:induction false} PoolIsPeak(es: seq<Event>)
    requires ValidEvents(es)
    ensures Run(INIT, es).created == Peak(es) <= 101
  {
    RunKeepsGood(INIT, es);
    if es != [] {
      PoolIsPeak(es[..|es| - 1]);
      RunKeepsGood(INIT, es[..|es| - 1]);
      StepOnPool(Run(INIT, es[..|es| - 1]), es[|es| - 1]);
    }
  }
}
