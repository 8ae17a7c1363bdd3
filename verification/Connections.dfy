/** The connection table that associates packets with processes. */
module Connections {
  import opened Bytes
  import opened Lists

  const IPPROTO_TCP := 6
  const IPPROTO_UDP := 17
  const IPPROTO_ANY_RAW := 255

  /** Who owns an endpoint. An address of 0 is a wildcard; a remote of 0:0 means not bound to a peer yet. */
  datatype Entry = Entry(pid: nat, ipProto: word, localAddr: dword, localPort: word, remoteAddr: dword, remotePort: word)

  /** `FW_PID_REQUEST` without its answer. */
  datatype Query = Query(ipProto: word, localAddr: dword, localPort: word, remoteAddr: dword, remotePort: word)

  // ---- Looking up a PID

  predicate HasPorts(q: Query) {
    q.ipProto == IPPROTO_TCP || q.ipProto == IPPROTO_UDP
  }

  function Passes(q: Query): nat {
    if HasPorts(q) then 4 else 2
  }

  predicate Exact(c: Entry, q: Query) {
    && c.localPort == q.localPort && c.ipProto == q.ipProto && c.localAddr == q.localAddr
    && c.remotePort == q.remotePort && c.remoteAddr == q.remoteAddr
  }

  /** The condition of pass `pass` of `GetPidFromLocalInfo`. */
  predicate Matches(c: Entry, q: Query, pass: int) {
    if HasPorts(q) then
      && c.localPort == q.localPort && c.ipProto == q.ipProto
      && (if pass == 1 || pass == 3 then c.localAddr == q.localAddr
          else c.localAddr == 0 || c.localAddr == q.localAddr)
      && (if pass <= 2 then c.remotePort == q.remotePort && c.remoteAddr == q.remoteAddr
          else c.remotePort == 0 && c.remoteAddr == 0)
    else
      && c.ipProto == (if pass == 1 then q.ipProto else IPPROTO_ANY_RAW)
      && c.remoteAddr == q.remoteAddr
  }

  /** How specifically an entry fits a query: the first pass it matches; one more than the passes when it does not. */
  function Rank(c: Entry, q: Query): nat {
    if Matches(c, q, 1) then 1
    else if Matches(c, q, 2) then 2
    else if HasPorts(q) && Matches(c, q, 3) then 3
    else if HasPorts(q) && Matches(c, q, 4) then 4
    else Passes(q) + 1
  }

  /** Entry `k` is the winner: matching, and minimal in specificity first, position in the list second. */
  ghost predicate Best(list: seq<Entry>, q: Query, k: int) {
    && 0 <= k < |list| && Rank(list[k], q) <= Passes(q)
    && forall j :: 0 <= j < |list| ==>
         Rank(list[k], q) < Rank(list[j], q) || (Rank(list[k], q) == Rank(list[j], q) && k <= j)
  }

  ghost predicate NoneMatch(list: seq<Entry>, q: Query) {
    forall j :: 0 <= j < |list| ==> Rank(list[j], q) > Passes(q)
  }

  /** One scan that keeps the best entry seen so far; |list| when none matches. */
  function BestIn(list: seq<Entry>, q: Query, n: nat): (k: nat)
    requires n <= |list|
    ensures k < n || k == |list|
  {
    if n == 0 then |list|
    else
      var k := BestIn(list, q, n - 1);
      if Rank(list[n - 1], q) <= Passes(q) && (k == |list| || Rank(list[n - 1], q) < Rank(list[k], q)) then n - 1 else k
  }

  lemma {:induction false} BestInIsBest(list: seq<Entry>, q: Query, n: nat)
    requires n <= |list|
    ensures var k := BestIn(list, q, n);
            if k == |list| then NoneMatch(list[..n], q) else Best(list[..n], q, k)
  {
    if n > 0 {
      BestInIsBest(list, q, n - 1);
      assert forall j :: 0 <= j < n - 1 ==> list[..n][j] == list[..n - 1][j];
    }
  }

  lemma BestIsUnique(list: seq<Entry>, q: Query, k: nat)
    requires Best(list, q, k)
    ensures BestIn(list, q, |list|) == k
  {
    BestInIsBest(list, q, |list|);
    assert list[..|list|] == list;
  }

  /** The answer `GetPidFromLocalInfo` gives: the winner's PID, or 0. */
  function Lookup(list: seq<Entry>, q: Query): nat {
    var k := BestIn(list, q, |list|);
    if k < |list| then list[k].pid else 0
  }

  // ---- The answer, in plain words

  /** The entry stands for the query's own protocol and port and is connected to its peer. */
  predicate AtPeer(c: Entry, q: Query) {
    && c.ipProto == q.ipProto && c.localPort == q.localPort
    && c.remoteAddr == q.remoteAddr && c.remotePort == q.remotePort
  }

  /** The entry stands for the query's own protocol and port and is connected to nobody. */
  predicate AtNobody(c: Entry, q: Query) {
    c.ipProto == q.ipProto && c.localPort == q.localPort && c.remoteAddr == 0 && c.remotePort == 0
  }

  /** `k` is the first entry on the local address `addr` that is at the peer, or at nobody. */
  ghost predicate FirstAt(list: seq<Entry>, q: Query, addr: dword, peer: bool, k: nat) {
    && k < |list| && list[k].localAddr == addr && (if peer then AtPeer(list[k], q) else AtNobody(list[k], q))
    && forall j :: 0 <= j < k ==> list[j].localAddr == addr ==>
         !(if peer then AtPeer(list[j], q) else AtNobody(list[j], q))
  }

  ghost predicate NobodyAt(list: seq<Entry>, q: Query, addr: dword, peer: bool) {
    forall j :: 0 <= j < |list| && list[j].localAddr == addr ==>
      !(if peer then AtPeer(list[j], q) else AtNobody(list[j], q))
  }

  /** A connection to the peer on the very local address answers before anything else; without one, a connection to the peer on
      the wildcard address. */
  lemma ConnectedAnswers(list: seq<Entry>, q: Query, k: nat)
    requires HasPorts(q)
    requires || FirstAt(list, q, q.localAddr, true, k)
             || (NobodyAt(list, q, q.localAddr, true) && FirstAt(list, q, 0, true, k))
    ensures Lookup(list, q) == list[k].pid
  {
    assert Best(list, q, k);
    BestIsUnique(list, q, k);
  }

  /** Without any connection to the peer, a socket bound to nobody on the very local address; without one, a socket bound to
      nobody on the wildcard address. */
  lemma ListenerAnswers(list: seq<Entry>, q: Query, k: nat)
    requires HasPorts(q) && NobodyAt(list, q, q.localAddr, true) && NobodyAt(list, q, 0, true)
    requires || FirstAt(list, q, q.localAddr, false, k)
             || (NobodyAt(list, q, q.localAddr, false) && FirstAt(list, q, 0, false, k))
    ensures Lookup(list, q) == list[k].pid
  {
    assert Best(list, q, k);
    BestIsUnique(list, q, k);
  }

  /** The first entry of the protocol with the remote address. */
  ghost predicate FirstOf(list: seq<Entry>, ipProto: word, remoteAddr: dword, k: nat) {
    && k < |list| && list[k].ipProto == ipProto && list[k].remoteAddr == remoteAddr
    && forall j :: 0 <= j < k ==> list[j].ipProto != ipProto || list[j].remoteAddr != remoteAddr
  }

  ghost predicate NoneOf(list: seq<Entry>, ipProto: word, remoteAddr: dword) {
    forall j :: 0 <= j < |list| ==> list[j].ipProto != ipProto || list[j].remoteAddr != remoteAddr
  }

  /** For a protocol without ports a socket of the protocol itself answers; without one, a raw socket, number 255. */
  lemma RawAnswers(list: seq<Entry>, q: Query, k: nat)
    requires q.ipProto != 6 && q.ipProto != 17
    requires || FirstOf(list, q.ipProto, q.remoteAddr, k)
             || (NoneOf(list, q.ipProto, q.remoteAddr) && FirstOf(list, 255, q.remoteAddr, k))
    ensures Lookup(list, q) == list[k].pid
  {
    assert Best(list, q, k);
    BestIsUnique(list, q, k);
  }

  /** The entry could answer the query. */
  predicate Fits(c: Entry, q: Query) {
    if q.ipProto == 6 || q.ipProto == 17 then
      (c.localAddr == 0 || c.localAddr == q.localAddr) && (AtPeer(c, q) || AtNobody(c, q))
    else (c.ipProto == q.ipProto || c.ipProto == 255) && c.remoteAddr == q.remoteAddr
  }

  /** The answer is the PID of an entry that fits, and 0 when none does. */
  lemma AnswerFits(list: seq<Entry>, q: Query)
    ensures (forall j :: 0 <= j < |list| ==> !Fits(list[j], q)) ==> Lookup(list, q) == 0
    ensures (exists j :: 0 <= j < |list| && Fits(list[j], q)) ==>
              exists j :: 0 <= j < |list| && Fits(list[j], q) && Lookup(list, q) == list[j].pid
  {
    BestInIsBest(list, q, |list|);
    assert list[..|list|] == list;
    assert forall j :: 0 <= j < |list| ==> (Fits(list[j], q) <==> Rank(list[j], q) <= Passes(q));
  }

  // ---- Adding and removing

  predicate Unbound(c: Entry) {
    c.remotePort == 0 && c.remoteAddr == 0
  }

  /** The entry an add would take over: unbound, same protocol and port, same or wildcard local address. */
  predicate Adopts(c: Entry, e: Entry) {
    && c.ipProto == e.ipProto && c.localPort == e.localPort
    && (c.localAddr == 0 || c.localAddr == e.localAddr) && Unbound(c)
  }

  function FirstAdopting(list: seq<Entry>, e: Entry, from: nat): (k: nat)
    requires from <= |list|
    ensures from <= k <= |list|
    ensures k < |list| ==> Adopts(list[k], e)
    ensures forall j :: from <= j < k ==> !Adopts(list[j], e)
    decreases |list| - from
  {
    if from == |list| || Adopts(list[from], e) then from else FirstAdopting(list, e, from + 1)
  }

  /** The entry taken over keeps its local address. */
  function Bound(c: Entry, e: Entry): Entry {
    c.(remoteAddr := e.remoteAddr, remotePort := e.remotePort, pid := e.pid)
  }

  function Add(list: seq<Entry>, e: Entry, poolOk: bool): seq<Entry> {
    var k := FirstAdopting(list, e, 0);
    if k < |list| then list[k := Bound(list[k], e)]
    else if poolOk then [e] + list
    else list
  }

  /** The first entry on the protocol and port that is bound to nobody, on the same or the wildcard local address, is connected
      to the peer in the name of the new owner; if there is none, a new entry goes to the head of the table, memory allowing. */
  lemma AddConnects(list: seq<Entry>, e: Entry, poolOk: bool, k: nat)
    requires k <= |list|
    requires forall j :: 0 <= j < k ==>
               list[j].ipProto != e.ipProto || list[j].localPort != e.localPort || list[j].remoteAddr != 0
               || list[j].remotePort != 0 || (list[j].localAddr != 0 && list[j].localAddr != e.localAddr)
    requires k < |list| ==>
               list[k].ipProto == e.ipProto && list[k].localPort == e.localPort && list[k].remoteAddr == 0
               && list[k].remotePort == 0 && (list[k].localAddr == 0 || list[k].localAddr == e.localAddr)
    ensures Add(list, e, poolOk) ==
            if k < |list| then
              list[k := Entry(e.pid, e.ipProto, list[k].localAddr, e.localPort, e.remoteAddr, e.remotePort)]
            else if poolOk then [e] + list else list
  {
    assert FirstAdopting(list, e, 0) == k;
  }

  // ---- The table invariant

  predicate SameEndpoint(a: Entry, b: Entry) {
    a.ipProto == b.ipProto && a.localPort == b.localPort
  }

  /** At most one unbound entry per protocol, port and local address; and an unbound wildcard entry precedes every
      unbound specific entry of its protocol and port. */
  ghost predicate Consistent(list: seq<Entry>) {
    forall i, j :: 0 <= i < j < |list| && Unbound(list[i]) && Unbound(list[j]) && SameEndpoint(list[i], list[j]) ==>
      list[i].localAddr != list[j].localAddr && list[j].localAddr != 0
  }

  datatype Operation = AddEntry(e: Entry, poolOk: bool) | RemoveEntry(k: nat)

  function Perform(list: seq<Entry>, op: Operation): seq<Entry> {
    match op
    case AddEntry(e, poolOk) => Add(list, e, poolOk)
    case RemoveEntry(k) => if k < |list| then RemoveAt(list, k) else list
  }

  function PerformAll(list: seq<Entry>, ops: seq<Operation>): seq<Entry> {
    if ops == [] then list else Perform(PerformAll(list, ops[..|ops| - 1]), ops[|ops| - 1])
  }

  lemma AddKeepsConsistent(list: seq<Entry>, e: Entry, poolOk: bool)
    requires Consistent(list)
    ensures Consistent(Add(list, e, poolOk))
  {
    var k := FirstAdopting(list, e, 0);
    if k == |list| {
      assert forall j :: 0 < j < |[e] + list| ==> ([e] + list)[j] == list[j - 1];
    }
  }

  /** Over every sequence of adds and removes the table stays consistent. */
  lemma {:induction false} AlwaysConsistent(ops: seq<Operation>)
    ensures Consistent(PerformAll([], ops))
  {
    if ops != [] {
      AlwaysConsistent(ops[..|ops| - 1]);
      var list, op := PerformAll([], ops[..|ops| - 1]), ops[|ops| - 1];
      if op.AddEntry? {
        AddKeepsConsistent(list, op.e, op.poolOk);
      }
    }
  }

  /** In a consistent table the wildcard entry is the one taken over, even when a specific one exists. */
  lemma WildcardIsAdoptedFirst(list: seq<Entry>, e: Entry, w: nat)
    requires Consistent(list) && w < |list| && Adopts(list[w], e) && list[w].localAddr == 0
    ensures FirstAdopting(list, e, 0) == w
  {
  }

  // ---- Read your write

  function QueryOf(e: Entry): Query {
    Query(e.ipProto, e.localAddr, e.localPort, e.remoteAddr, e.remotePort)
  }

  /** An entry other than the one taken over would be preferred for the added tuple. */
  ghost predicate Outranked(list: seq<Entry>, e: Entry, k: nat)
    requires k < |list|
  {
    var q := QueryOf(e);
    if list[k].localAddr == e.localAddr then exists j :: 0 <= j < k && Exact(list[j], q)
    else
      || (exists j :: 0 <= j < |list| && Exact(list[j], q))
      || (exists j :: 0 <= j < k && Matches(list[j], q, 2))
  }

  /** A new entry is found at once by its own tuple. */
  lemma InsertedIsFound(list: seq<Entry>, e: Entry)
    requires HasPorts(QueryOf(e)) && FirstAdopting(list, e, 0) == |list|
    ensures Best(Add(list, e, true), QueryOf(e), 0) && Lookup(Add(list, e, true), QueryOf(e)) == e.pid
  {
    var added, q := Add(list, e, true), QueryOf(e);
    assert Rank(added[0], q) == 1;
    assert Best(added, q, 0);
    BestIsUnique(added, q, 0);
  }

  /** An entry taken over answers for the added tuple exactly when no other entry outranks it, which a caller could
      check before the call. */
  lemma UpdatedIsFoundIff(list: seq<Entry>, e: Entry, poolOk: bool)
    requires HasPorts(QueryOf(e)) && FirstAdopting(list, e, 0) < |list|
    ensures var k := FirstAdopting(list, e, 0);
            Best(Add(list, e, poolOk), QueryOf(e), k) <==> !Outranked(list, e, k)
    ensures !Outranked(list, e, FirstAdopting(list, e, 0)) ==> Lookup(Add(list, e, poolOk), QueryOf(e)) == e.pid
  {
    var k, q := FirstAdopting(list, e, 0), QueryOf(e);
    var added := Add(list, e, poolOk);
    assert added[k] == Bound(list[k], e) && forall j :: 0 <= j < |list| && j != k ==> added[j] == list[j];
    assert Rank(added[k], q) == if list[k].localAddr == e.localAddr then 1 else 2;
    if Outranked(list, e, k) {
      OutrankedLoses(list, e, k, added);
    } else {
      NotOutrankedWins(list, e, k, added);
      BestIsUnique(added, q, k);
    }
  }

  /** It does happen: a connection, a socket of another process bound to the wildcard address, and the connection again
      with a new owner. The socket's entry is taken over for it, but the old entry still answers. */
  lemma OutrankedHappens() returns (ops: seq<Operation>, e: Entry)
    ensures HasPorts(QueryOf(e)) && e.pid == 3
    ensures Lookup(PerformAll([], ops + [AddEntry(e, true)]), QueryOf(e)) == 1
  {
    var first := Entry(1, IPPROTO_TCP, 7, 80, 9, 90);
    var socket := Entry(2, IPPROTO_TCP, 0, 80, 0, 0);
    e := Entry(3, IPPROTO_TCP, 7, 80, 9, 90);
    ops := [AddEntry(first, true), AddEntry(socket, true)];
    assert PerformAll([], [ops[0]]) == [first];
    assert ops[..1] == [ops[0]];
    assert PerformAll([], ops) == [socket, first];
    assert (ops + [AddEntry(e, true)])[..2] == ops;
    var table := [Bound(socket, e), first];
    assert PerformAll([], ops + [AddEntry(e, true)]) == table;
    assert Best(table, QueryOf(e), 1);
    BestIsUnique(table, QueryOf(e), 1);
  }

  lemma OutrankedLoses(list: seq<Entry>, e: Entry, k: nat, added: seq<Entry>)
    requires HasPorts(QueryOf(e)) && k < |list| == |added| && Adopts(list[k], e) && Outranked(list, e, k)
    requires added[k] == Bound(list[k], e) && forall j :: 0 <= j < |list| && j != k ==> added[j] == list[j]
    ensures !Best(added, QueryOf(e), k)
  {
    var q := QueryOf(e);
    if list[k].localAddr == e.localAddr {
      var j :| 0 <= j < k && Exact(list[j], q);
      assert Rank(added[j], q) == 1;
    } else if exists j :: 0 <= j < |list| && Exact(list[j], q) {
      var j :| 0 <= j < |list| && Exact(list[j], q);
      assert Rank(added[j], q) == 1;
    } else {
      var j :| 0 <= j < k && Matches(list[j], q, 2);
      assert Rank(added[j], q) <= 2;
    }
  }

  lemma NotOutrankedWins(list: seq<Entry>, e: Entry, k: nat, added: seq<Entry>)
    requires HasPorts(QueryOf(e)) && k < |list| == |added| && Adopts(list[k], e) && !Outranked(list, e, k)
    requires added[k] == Bound(list[k], e) && forall j :: 0 <= j < |list| && j != k ==> added[j] == list[j]
    ensures Best(added, QueryOf(e), k)
  {
    var q := QueryOf(e);
    forall j | 0 <= j < |added|
      ensures Rank(added[k], q) < Rank(added[j], q) || (Rank(added[k], q) == Rank(added[j], q) && k <= j)
    {
      assert j != k ==> (Rank(added[j], q) == 1 <==> Exact(list[j], q));
    }
  }

  // ---- The table as the program keeps it

  /** `CONNECTION`. */
  class Connection {
    var pid: nat
    var ipProto: word
    var localAddr: dword
    var localPort: word
    var remoteAddr: dword
    var remotePort: word

    constructor (e: Entry)
      ensures Abs() == e
    {
      pid, ipProto, localAddr, localPort, remoteAddr, remotePort :=
        e.pid, e.ipProto, e.localAddr, e.localPort, e.remoteAddr, e.remotePort;
    }

    function Abs(): Entry
      reads this
    {
      Entry(pid, ipProto, localAddr, localPort, remoteAddr, remotePort)
    }
  }

  /** `g_ConnectionsList`. */
  class Table {
    var list: seq<Connection>
    ghost var model: seq<Entry>

    ghost predicate Valid()
      reads this, list
    {
      && |model| == |list| && (forall k :: 0 <= k < |list| ==> list[k].Abs() == model[k])
      && (forall i, j :: 0 <= i < j < |list| ==> list[i] != list[j])
    }

    constructor ()
      ensures Valid() && model == []
    {
      list, model := [], [];
    }

    /** `AddConnection`: take over the first unbound entry that fits, else insert at the head. The result is the
        entry that now stands for the tuple, or null when there was no memory for it. */
    method AddConnection(e: Entry, poolOk: bool) returns (c: Connection?)
      requires Valid()
      modifies this, list
      ensures Valid() && model == Add(old(model), e, poolOk)
      ensures c == null <==> FirstAdopting(old(model), e, 0) == |old(model)| && !poolOk
      ensures c != null ==> c in list && c.Abs() == if FirstAdopting(old(model), e, 0) < |old(model)|
                                                    then Bound(old(model)[FirstAdopting(old(model), e, 0)], e) else e
    {
      var k := 0;
      while k < |list|
        invariant k <= |list| && FirstAdopting(model, e, k) == FirstAdopting(model, e, 0)
      {
        c := list[k];
        assert c.Abs() == model[k];
        if c.ipProto == e.ipProto && c.localPort == e.localPort && (c.localAddr == 0 || c.localAddr == e.localAddr)
           && c.remotePort == 0 && c.remoteAddr == 0 {
          c.remoteAddr := e.remoteAddr;
          c.remotePort := e.remotePort;
          c.pid := e.pid;
          model := model[k := Bound(model[k], e)];
          return;
        }
        k := k + 1;
      }
      if !poolOk {
        return null;
      }
      c := new Connection(e);
      list := [c] + list;
      model := [e] + model;
    }

    /** `GetConnection`: the first entry with exactly this tuple. */
    method GetConnection(q: Query) returns (c: Connection?)
      requires Valid()
      ensures c == null <==> forall j :: 0 <= j < |model| ==> !Exact(model[j], q)
      ensures c != null ==> exists k :: 0 <= k < |list| && c == list[k] && Exact(model[k], q)
                                        && forall j :: 0 <= j < k ==> !Exact(model[j], q)
    {
      for k := 0 to |list|
        invariant forall j :: 0 <= j < k ==> !Exact(model[j], q)
      {
        assert list[k].Abs() == model[k];
        if Exact(list[k].Abs(), q) {
          return list[k];
        }
      }
      return null;
    }

    /** `RemoveConnection`: unlink the entry if it is in the table. */
    method RemoveConnection(c: Connection)
      requires Valid()
      modifies this
      ensures Valid() && c !in list
      ensures c !in old(list) ==> model == old(model) && list == old(list)
      ensures forall k :: 0 <= k < |old(list)| && old(list)[k] == c ==> model == RemoveAt(old(model), k)
    {
      var k := 0;
      while k < |list|
        invariant k <= |list| && Valid() && list == old(list) && model == old(model)
        invariant c !in list[..k]
      {
        if list[k] == c {
          model := RemoveAt(model, k);
          list := list[..k] + list[k + 1..];
          return;
        }
        k := k + 1;
      }
    }

    /** One pass over the list: the first entry that matches, or the length of the list. */
    method FirstMatch(q: Query, pass: int) returns (k: nat)
      requires Valid()
      ensures k <= |model| && (k < |model| ==> Matches(model[k], q, pass))
      ensures forall j :: 0 <= j < k ==> !Matches(model[j], q, pass)
    {
      k := 0;
      while k < |list|
        invariant k <= |list| && forall j :: 0 <= j < k ==> !Matches(model[j], q, pass)
      {
        assert list[k].Abs() == model[k];
        if Matches(list[k].Abs(), q, pass) {
          return;
        }
        k := k + 1;
      }
    }

    /** `GetPidFromLocalInfo`: the passes in order of specificity give the PID of the single best entry, 0 when no
        entry matches. */
    method GetPidFromLocalInfo(q: Query) returns (pid: nat)
      requires Valid()
      ensures pid == Lookup(model, q)
      ensures NoneMatch(model, q) ==> pid == 0
    {
      var pass := 1;
      while pass <= Passes(q)
        invariant 1 <= pass <= Passes(q) + 1
        invariant forall j :: 0 <= j < |model| ==> Rank(model[j], q) >= pass
      {
        var k := FirstMatch(q, pass);
        if k < |list| {
          assert list[k].Abs() == model[k];
          assert Best(model, q, k);
          BestIsUnique(model, q, k);
          return list[k].pid;
        }
        pass := pass + 1;
      }
      BestInIsBest(model, q, |model|);
      assert model[..|model|] == model;
      return 0;
    }
  }
}
