/** One packet on its way through the callback chains: the clients of the filter below, one of which is the firewall, and
    the clients of the firewall. A client may stop the packet, keep a clone, and later inject it again behind itself. */
module ClientChain {
  import opened Lists

  /** `Firewall` is the firewall's own callback, which needs memory for a request when it has clients. */
  datatype Client = Lower(id: nat) | Firewall | Upper(id: nat)

  /** What a client does with a packet offered to it: it returns STATUS_SUCCESS, or an error after keeping a clone it
      will inject again, or an error for good. The firewall's callback drops the packet when it gets no memory. */
  datatype Answer = Accepts | Defers | Drops

  /** `PastUpper`: the clients of the firewall have let the packet go, the rest of the chain below is still to come.
      `Sent`: everybody has, and `SendPacket` has been called. */
  datatype Place = Outside | At(c: Client) | PastUpper | Sent | Gone

  /** `lower` is g_FltInstancesList, where `firewall` is g_pFltInstance; `upper` is g_FwInstancesList. `line` remembers
      the clients of both layers, in order, as they were when the packet came in; `attached` says that the packet's
      adapter has not been closed. */
  datatype State = State(lower: seq<nat>, firewall: nat, upper: seq<nat>, place: Place, offered: seq<Client>, sends: nat,
                         line: seq<Client>, attached: bool)

  datatype Stop = Through | StoppedAt(c: Client)

  /** The clients a walk offers the packet to, and where it stops. */
  datatype Walk = Walk(offered: seq<Client>, stop: Stop)

  /** The firewall's own callback keeps no clone. */
  type Answers = f: Client -> Answer | f(Firewall) != Defers witness ((c: Client) => Accepts)

  function Then(w: Walk, rest: Walk): Walk {
    if w.stop == Through then Walk(w.offered + rest.offered, rest.stop) else w
  }

  function Offer(c: Client, answers: Answers): Walk {
    Walk([c], if answers(c) == Accepts then Through else StoppedAt(c))
  }

  /** `ProcessRequest` from the entry that heads `clients` on. */
  function UpperWalk(clients: seq<nat>, answers: Answers): Walk {
    if clients == [] then Walk([], Through)
    else Then(Offer(Upper(clients[0]), answers), UpperWalk(clients[1..], answers))
  }

  /** `RequestCallback`: with no client there is nothing to do; else a request is allocated and offered to the clients. */
  function FirewallWalk(upper: seq<nat>, answers: Answers): Walk {
    if upper == [] then Walk([], Through) else Then(Offer(Firewall, answers), UpperWalk(upper, answers))
  }

  /** The callback of an entry of the list below. */
  function Entry(id: nat, firewall: nat, upper: seq<nat>, answers: Answers): Walk {
    if id == firewall then FirewallWalk(upper, answers) else Offer(Lower(id), answers)
  }

  /** `FLTInjectRequest` from the entry that heads `clients` on. */
  function LowerWalk(clients: seq<nat>, firewall: nat, upper: seq<nat>, answers: Answers): Walk {
    if clients == [] then Walk([], Through)
    else
      Then(Entry(clients[0], firewall, upper, answers), LowerWalk(clients[1..], firewall, upper, answers))
  }

  /** The entries behind `id`. */
  function After(list: seq<nat>, id: nat): seq<nat> {
    if list == [] then [] else if list[0] == id then list[1..] else After(list[1..], id)
  }

  // ---- The chain as one line

  function UpperRoute(upper: seq<nat>): (route: seq<Client>)
    ensures |route| == |upper| && forall k :: 0 <= k < |upper| ==> route[k] == Upper(upper[k])
  {
    seq(|upper|, k requires 0 <= k < |upper| => Upper(upper[k]))
  }

  function FirewallRoute(upper: seq<nat>): seq<Client> {
    if upper == [] then [] else [Firewall] + UpperRoute(upper)
  }

  /** The stretch of the line a client of the layer below stands for. */
  function Stretch(id: nat, firewall: nat, upper: seq<nat>): seq<Client> {
    if id == firewall then FirewallRoute(upper) else [Lower(id)]
  }

  /** The clients below in list order, with the clients of the firewall in the firewall's place. */
  function Route(lower: seq<nat>, firewall: nat, upper: seq<nat>): seq<Client> {
    if lower == [] then []
    else Stretch(lower[0], firewall, upper) + Route(lower[1..], firewall, upper)
  }

  // ---- The steps

  datatype Action = Inject | Resume | Continue | RegisterLower(id: nat) | RegisterUpper(id: nat) | CloseAdapter

  predicate Enabled(s: State, a: Action) {
    match a
    case Inject => s.place == Outside
    case Resume => s.place.At?
    case Continue => s.place == PastUpper
    case RegisterLower(id) => id !in s.lower
    case RegisterUpper(id) => id !in s.upper
    case CloseAdapter => true
  }

  function Held(c: Client, answers: Answers): Place {
    if answers(c) == Defers then At(c) else Gone
  }

  /** After a walk along the rest of the chain below: a packet nobody stopped goes to `SendPacket`, which sends it if its
      adapter is still there. */
  function AfterLower(s: State, w: Walk, answers: Answers): State {
    match w.stop
    case Through => s.(offered := s.offered + w.offered, place := Sent, sends := s.sends + One(s.attached))
    case StoppedAt(c) => s.(offered := s.offered + w.offered, place := Held(c, answers))
  }

  function AfterUpper(s: State, w: Walk, answers: Answers): State {
    match w.stop
    case Through => s.(offered := s.offered + w.offered, place := PastUpper)
    case StoppedAt(c) => s.(offered := s.offered + w.offered, place := Held(c, answers))
  }

  function Step(s: State, a: Action, answers: Answers): State {
    if !Enabled(s, a) then s
    else
      match a
      case Inject =>
        AfterLower(s, LowerWalk(s.lower, s.firewall, s.upper, answers), answers).(
          line := Route(s.lower, s.firewall, s.upper))
      case Resume =>
        (match s.place.c
         case Lower(id) => AfterLower(s, LowerWalk(After(s.lower, id), s.firewall, s.upper, answers), answers)
         case Upper(id) => AfterUpper(s, UpperWalk(After(s.upper, id), answers), answers)
         case Firewall => s)
      case Continue => AfterLower(s, LowerWalk(After(s.lower, s.firewall), s.firewall, s.upper, answers), answers)
      case RegisterLower(id) => s.(lower := [id] + s.lower)
      case RegisterUpper(id) => s.(upper := s.upper + [id])
      case CloseAdapter => s.(attached := false)
  }

  function Run(s: State, acts: seq<Action>, answers: Answers): State {
    if acts == [] then s else Step(Run(s, acts[..|acts| - 1], answers), acts[|acts| - 1], answers)
  }

  // ---- The walks follow the line

  /** Offering the packet along a line. */
  function LineWalk(line: seq<Client>, answers: Answers): Walk {
    if line == [] then Walk([], Through) else Then(Offer(line[0], answers), LineWalk(line[1..], answers))
  }

  lemma ThenAssociates(u: Walk, v: Walk, w: Walk)
    ensures Then(Then(u, v), w) == Then(u, Then(v, w))
    ensures Then(Walk([], Through), w) == w
  {
  }

  lemma {:induction false} LineWalkAppend(a: seq<Client>, b: seq<Client>, answers: Answers)
    ensures LineWalk(a + b, answers) == Then(LineWalk(a, answers), LineWalk(b, answers))
  {
    if a == [] {
      assert a + b == b;
      ThenAssociates(LineWalk(a, answers), LineWalk(a, answers), LineWalk(b, answers));
    } else {
      LineWalkAppend(a[1..], b, answers);
      assert (a + b)[1..] == a[1..] + b;
      ThenAssociates(Offer(a[0], answers), LineWalk(a[1..], answers), LineWalk(b, answers));
    }
  }

  lemma {:induction false} UpperWalkIsLine(upper: seq<nat>, answers: Answers)
    ensures UpperWalk(upper, answers) == LineWalk(UpperRoute(upper), answers)
  {
    if upper != [] {
      UpperWalkIsLine(upper[1..], answers);
      assert UpperRoute(upper)[1..] == UpperRoute(upper[1..]);
    }
  }

  lemma EntryIsLine(id: nat, firewall: nat, upper: seq<nat>, answers: Answers)
    ensures Entry(id, firewall, upper, answers) == LineWalk(Stretch(id, firewall, upper), answers)
  {
    if id != firewall {
      assert LineWalk([Lower(id)], answers) == Offer(Lower(id), answers);
    } else if upper != [] {
      UpperWalkIsLine(upper, answers);
      assert FirewallRoute(upper)[1..] == UpperRoute(upper);
    }
  }

  /** The nested walk through both layers is one walk along the line. */
  lemma {:induction false} LowerWalkIsLine(lower: seq<nat>, firewall: nat, upper: seq<nat>, answers: Answers)
    ensures LowerWalk(lower, firewall, upper, answers) == LineWalk(Route(lower, firewall, upper), answers)
  {
    if lower != [] {
      LowerWalkIsLine(lower[1..], firewall, upper, answers);
      EntryIsLine(lower[0], firewall, upper, answers);
      LineWalkAppend(Stretch(lower[0], firewall, upper), Route(lower[1..], firewall, upper), answers);
    }
  }

  /** What is still ahead of the packet. */
  function Remaining(s: State): seq<Client> {
    match s.place
    case Outside => Route(s.lower, s.firewall, s.upper)
    case At(Lower(id)) => Route(After(s.lower, id), s.firewall, s.upper)
    case At(Upper(id)) => UpperRoute(After(s.upper, id)) + Route(After(s.lower, s.firewall), s.firewall, s.upper)
    case PastUpper => Route(After(s.lower, s.firewall), s.firewall, s.upper)
    case _ => []
  }

  /** What is behind it. */
  function Passed(s: State): seq<Client> {
    match s.place
    case Outside => []
    case At(Lower(id)) => Route(UpTo(s.lower, id), s.firewall, s.upper)
    case At(Upper(id)) =>
      Route(Before(s.lower, s.firewall), s.firewall, s.upper) + ([Firewall] + UpperRoute(UpTo(s.upper, id)))
    case PastUpper => Route(UpTo(s.lower, s.firewall), s.firewall, s.upper)
    case _ => Route(s.lower, s.firewall, s.upper)
  }

  /** The entries up to and including `id`, */
  function UpTo(list: seq<nat>, id: nat): seq<nat> {
    if list == [] then [] else if list[0] == id then [id] else [list[0]] + UpTo(list[1..], id)
  }

  /** and those before it. */
  function Before(list: seq<nat>, id: nat): seq<nat> {
    if list == [] || list[0] == id then [] else [list[0]] + Before(list[1..], id)
  }

  lemma {:induction false} ListSplits(list: seq<nat>, id: nat)
    ensures list == UpTo(list, id) + After(list, id)
    ensures id in list ==> UpTo(list, id) == Before(list, id) + [id]
  {
    if list != [] {
      ListSplits(list[1..], id);
      assert list == [list[0]] + list[1..];
      Associative([list[0]], UpTo(list[1..], id), After(list[1..], id));
      Associative([list[0]], Before(list[1..], id), [id]);
    }
  }

  lemma Associative<T>(a: seq<T>, b: seq<T>, c: seq<T>)
    ensures (a + b) + c == a + (b + c)
  {
  }

  lemma {:induction false} RouteAppend(a: seq<nat>, b: seq<nat>, firewall: nat, upper: seq<nat>)
    ensures Route(a + b, firewall, upper) == Route(a, firewall, upper) + Route(b, firewall, upper)
  {
    if a == [] {
      assert a + b == b;
    } else {
      RouteAppend(a[1..], b, firewall, upper);
      assert (a + b)[1..] == a[1..] + b;
      Associative(Stretch(a[0], firewall, upper), Route(a[1..], firewall, upper), Route(b, firewall, upper));
    }
  }

  lemma UpperRouteAppend(a: seq<nat>, b: seq<nat>)
    ensures UpperRoute(a + b) == UpperRoute(a) + UpperRoute(b)
  {
  }

  /** The place names a client that is on the lists. */
  ghost predicate PlaceKnown(s: State) {
    match s.place
    case At(Lower(id)) => id in s.lower && id != s.firewall
    case At(Upper(id)) => id in s.upper
    case At(Firewall) => false
    case _ => true
  }

  ghost predicate ListsInv(s: State) {
    NoDuplicates(s.lower) && NoDuplicates(s.upper) && s.firewall in s.lower && PlaceKnown(s)
  }

  lemma RouteSplits(s: State, id: nat)
    ensures Route(s.lower, s.firewall, s.upper)
         == Route(UpTo(s.lower, id), s.firewall, s.upper) + Route(After(s.lower, id), s.firewall, s.upper)
  {
    ListSplits(s.lower, id);
    RouteAppend(UpTo(s.lower, id), After(s.lower, id), s.firewall, s.upper);
  }

  lemma RouteSplitsInUpper(s: State, id: nat)
    requires s.firewall in s.lower && id in s.upper
    ensures Route(s.lower, s.firewall, s.upper)
         == (Route(Before(s.lower, s.firewall), s.firewall, s.upper) + ([Firewall] + UpperRoute(UpTo(s.upper, id))))
            + (UpperRoute(After(s.upper, id)) + Route(After(s.lower, s.firewall), s.firewall, s.upper))
  {
    var front := Route(Before(s.lower, s.firewall), s.firewall, s.upper);
    var seen, ahead := [Firewall] + UpperRoute(UpTo(s.upper, id)), UpperRoute(After(s.upper, id));
    RouteSplits(s, s.firewall);
    ListSplits(s.lower, s.firewall);
    RouteAppend(Before(s.lower, s.firewall), [s.firewall], s.firewall, s.upper);
    assert Route([s.firewall], s.firewall, s.upper) == FirewallRoute(s.upper);
    ListSplits(s.upper, id);
    UpperRouteAppend(UpTo(s.upper, id), After(s.upper, id));
    Associative([Firewall], UpperRoute(UpTo(s.upper, id)), ahead);
    assert FirewallRoute(s.upper) == seen + ahead;
    Associative(front, seen, ahead);
    Associative(front + seen, ahead, Route(After(s.lower, s.firewall), s.firewall, s.upper));
  }

  /** The line is what is behind the packet followed by what is ahead of it. */
  lemma LineSplits(s: State)
    requires s.firewall in s.lower && PlaceKnown(s)
    ensures Route(s.lower, s.firewall, s.upper) == Passed(s) + Remaining(s)
  {
    match s.place
    case At(Lower(id)) => RouteSplits(s, id);
    case At(Upper(id)) => RouteSplitsInUpper(s, id);
    case PastUpper => RouteSplits(s, s.firewall);
    case _ =>
  }

  // ---- Subsequences

  predicate Subsequence(a: seq<Client>, b: seq<Client>)
    decreases |b|
  {
    a == [] || (b != [] && ((a[0] == b[0] && Subsequence(a[1..], b[1..])) || Subsequence(a, b[1..])))
  }

  lemma {:induction false} SubsequenceReflexive(a: seq<Client>)
    ensures Subsequence(a, a)
  {
    if a != [] {
      SubsequenceReflexive(a[1..]);
    }
  }

  lemma {:induction false} SubsequencePrepend(a: seq<Client>, more: seq<Client>, b: seq<Client>)
    requires Subsequence(a, b)
    ensures Subsequence(a, more + b)
  {
    if more == [] {
      assert more + b == b;
    } else {
      SubsequencePrepend(a, more[1..], b);
      assert (more + b)[1..] == more[1..] + b;
    }
  }

  lemma {:induction false} SubsequenceAppend(a: seq<Client>, b: seq<Client>, c: seq<Client>, d: seq<Client>)
    requires Subsequence(a, b) && Subsequence(c, d)
    ensures Subsequence(a + c, b + d)
    decreases |b|
  {
    if a == [] {
      assert a + c == c;
      SubsequencePrepend(c, b, d);
    } else {
      assert (b + d)[1..] == b[1..] + d;
      if a[0] == b[0] && Subsequence(a[1..], b[1..]) {
        SubsequenceAppend(a[1..], b[1..], c, d);
        assert (a + c)[1..] == a[1..] + c;
      } else {
        SubsequenceAppend(a, b[1..], c, d);
      }
    }
  }

  lemma {:induction false} SubsequenceTransitive(a: seq<Client>, b: seq<Client>, c: seq<Client>)
    requires Subsequence(a, b) && Subsequence(b, c)
    ensures Subsequence(a, c)
    decreases |c|
  {
    if a != [] {
      if b[0] == c[0] && Subsequence(b[1..], c[1..]) {
        if a[0] == b[0] && Subsequence(a[1..], b[1..]) {
          SubsequenceTransitive(a[1..], b[1..], c[1..]);
        } else {
          SubsequenceTransitive(a, b[1..], c[1..]);
        }
      } else {
        SubsequenceTransitive(a, b, c[1..]);
      }
    }
  }

  lemma {:induction false} SubsequenceMember(a: seq<Client>, b: seq<Client>, c: Client)
    requires Subsequence(a, b) && c in a
    ensures c in b
    decreases |b|
  {
    if a[0] == b[0] && Subsequence(a[1..], b[1..]) {
      if c != a[0] {
        SubsequenceMember(a[1..], b[1..], c);
      }
    } else {
      SubsequenceMember(a, b[1..], c);
    }
  }

  lemma TailDistinct(b: seq<Client>)
    requires NoDuplicates(b) && b != []
    ensures NoDuplicates(b[1..]) && b[0] !in b[1..]
  {
  }

  lemma HeadDistinct(a: seq<Client>)
    requires a != [] && NoDuplicates(a[1..]) && a[0] !in a[1..]
    ensures NoDuplicates(a)
  {
    assert forall k :: 0 < k < |a| ==> a[k] == a[1..][k - 1];
  }

  /** A subsequence of a line without duplicates has none. */
  lemma {:induction false} SubsequenceDistinct(a: seq<Client>, b: seq<Client>)
    requires Subsequence(a, b) && NoDuplicates(b)
    ensures NoDuplicates(a)
    decreases |b|
  {
    if a != [] {
      TailDistinct(b);
      if a[0] == b[0] && Subsequence(a[1..], b[1..]) {
        SubsequenceDistinct(a[1..], b[1..]);
        if a[0] in a[1..] {
          SubsequenceMember(a[1..], b[1..], a[0]);
        }
        HeadDistinct(a);
      } else {
        SubsequenceDistinct(a, b[1..]);
      }
    }
  }

  // ---- The line has no duplicates

  lemma {:induction false} RouteMember(lower: seq<nat>, firewall: nat, upper: seq<nat>, c: Client)
    requires c in Route(lower, firewall, upper)
    ensures c.Lower? ==> c.id in lower && c.id != firewall
    ensures c.Upper? ==> c.id in upper && firewall in lower
    ensures c.Firewall? ==> firewall in lower
  {
    if c !in Stretch(lower[0], firewall, upper) {
      RouteMember(lower[1..], firewall, upper, c);
    }
  }

  lemma DistinctAppend(a: seq<Client>, b: seq<Client>)
    requires NoDuplicates(a) && NoDuplicates(b) && forall c :: c in a ==> c !in b
    ensures NoDuplicates(a + b)
  {
    var ab := a + b;
    forall j, k | 0 <= j < k < |ab|
      ensures ab[j] != ab[k]
    {
      assert j < |a| ==> ab[j] in a;
      assert k >= |a| ==> ab[k] in b;
    }
  }

  lemma FirewallRouteDistinct(upper: seq<nat>)
    requires NoDuplicates(upper)
    ensures NoDuplicates(FirewallRoute(upper))
  {
    if upper != [] {
      DistinctAppend([Firewall], UpperRoute(upper));
    }
  }

  lemma {:induction false} RouteDistinct(lower: seq<nat>, firewall: nat, upper: seq<nat>)
    requires NoDuplicates(lower) && NoDuplicates(upper)
    ensures NoDuplicates(Route(lower, firewall, upper))
  {
    if lower != [] {
      var rest := Route(lower[1..], firewall, upper);
      assert lower[0] !in lower[1..];
      RouteDistinct(lower[1..], firewall, upper);
      forall c | c in Stretch(lower[0], firewall, upper)
        ensures c !in rest
      {
        if c in rest {
          RouteMember(lower[1..], firewall, upper, c);
        }
      }
      FirewallRouteDistinct(upper);
      DistinctAppend(Stretch(lower[0], firewall, upper), rest);
    }
  }

  /** In a line without duplicates there is one place right behind a client. */
  lemma UniqueSplit(x: seq<Client>, y: seq<Client>, x': seq<Client>, y': seq<Client>)
    requires x + y == x' + y' && NoDuplicates(x + y) && x != [] && x' != [] && x[|x| - 1] == x'[|x'| - 1]
    ensures x == x' && y == y'
  {
    var line := x + y;
    assert line[|x| - 1] == x[|x| - 1] && line[|x'| - 1] == x'[|x'| - 1];
    assert x == line[..|x|] && x' == line[..|x'|];
  }

  lemma CancelRight(x: seq<Client>, x': seq<Client>, y: seq<Client>)
    requires x + y == x' + y
    ensures x == x'
  {
    assert |x| == |x'|;
    assert x == (x + y)[..|x|] && x' == (x' + y)[..|x|];
  }

  // ---- Walking

  /** What a walk `w` along `line` covers: all of it if everybody accepts, else the stretch up to the first who does
      not. */
  predicate Covers(w: Walk, line: seq<Client>, answers: Answers) {
    match w.stop
    case Through => w.offered == line && forall c :: c in line ==> answers(c) == Accepts
    case StoppedAt(c) =>
      && w.offered != [] && w.offered[|w.offered| - 1] == c && answers(c) != Accepts
      && forall d :: d in w.offered[..|w.offered| - 1] ==> answers(d) == Accepts
  }

  lemma CoversMore(c: Client, w: Walk, line: seq<Client>, answers: Answers)
    requires Covers(w, line, answers) && answers(c) == Accepts
    ensures Covers(Walk([c] + w.offered, w.stop), [c] + line, answers)
  {
    if w.stop.StoppedAt? {
      assert ([c] + w.offered)[..|w.offered|] == [c] + w.offered[..|w.offered| - 1];
    }
  }

  lemma {:induction false} WalkCovers(line: seq<Client>, answers: Answers)
    ensures Covers(LineWalk(line, answers), line, answers)
  {
    if line != [] {
      WalkCovers(line[1..], answers);
      if answers(line[0]) == Accepts {
        CoversMore(line[0], LineWalk(line[1..], answers), line[1..], answers);
        assert [line[0]] + line[1..] == line;
      }
    }
  }

  lemma {:induction false} WalkIsPrefix(line: seq<Client>, answers: Answers)
    ensures var w := LineWalk(line, answers); |w.offered| <= |line| && line == w.offered + line[|w.offered|..]
  {
    if line != [] {
      WalkIsPrefix(line[1..], answers);
      var rest := LineWalk(line[1..], answers);
      Associative([line[0]], rest.offered, line[1..][|rest.offered|..]);
    }
  }

  lemma {:induction false} UpToRouteEnds(lower: seq<nat>, firewall: nat, upper: seq<nat>, id: nat)
    requires id in lower && id != firewall
    ensures var passed := Route(UpTo(lower, id), firewall, upper);
            passed != [] && passed[|passed| - 1] == Lower(id)
  {
    if lower[0] != id {
      UpToRouteEnds(lower[1..], firewall, upper, id);
      assert UpTo(lower, id)[1..] == UpTo(lower[1..], id);
    }
  }

  lemma PassedEnds(s: State)
    requires PlaceKnown(s) && s.place.At?
    ensures Passed(s) != [] && Passed(s)[|Passed(s)| - 1] == s.place.c
  {
    match s.place
    case At(Lower(id)) => UpToRouteEnds(s.lower, s.firewall, s.upper, id);
    case At(Upper(id)) => ListSplits(s.upper, id);
  }

  lemma SplitAdvances(p: seq<Client>, o: seq<Client>, r: seq<Client>, p': seq<Client>, r': seq<Client>)
    requires p + (o + r) == p' + r' && NoDuplicates(p' + r')
    requires o != [] && p' != [] && o[|o| - 1] == p'[|p'| - 1]
    ensures p' == p + o && r' == r
  {
    Associative(p, o, r);
    UniqueSplit(p + o, r, p', r');
  }

  lemma StopIsKnown(s: State, s': State, offered: seq<Client>, rest: seq<Client>)
    requires ListsInv(s) && Remaining(s) == offered + rest && offered != [] && !offered[|offered| - 1].Firewall?
    requires s'.lower == s.lower && s'.firewall == s.firewall && s'.upper == s.upper
    requires s'.place == At(offered[|offered| - 1])
    ensures ListsInv(s')
  {
    var c := offered[|offered| - 1];
    LineSplits(s);
    assert c in offered + rest;
    assert c in Passed(s) + Remaining(s);
    RouteMember(s.lower, s.firewall, s.upper, c);
  }

  /** The packet stops at the last client of `offered`; what was ahead of it is now `rest`. */
  lemma StopAdvances(s: State, s': State, offered: seq<Client>, rest: seq<Client>)
    requires ListsInv(s) && Remaining(s) == offered + rest && offered != [] && !offered[|offered| - 1].Firewall?
    requires s'.lower == s.lower && s'.firewall == s.firewall && s'.upper == s.upper
    requires s'.place == At(offered[|offered| - 1])
    ensures ListsInv(s') && Remaining(s') == rest && Passed(s') == Passed(s) + offered
  {
    StopIsKnown(s, s', offered, rest);
    LineSplits(s);
    LineSplits(s');
    RouteDistinct(s.lower, s.firewall, s.upper);
    PassedEnds(s');
    SplitAdvances(Passed(s), offered, rest, Passed(s'), Remaining(s'));
  }

  // ---- The invariant

  /** The packet has been offered to clients behind it only, in the order of the line. */
  ghost predicate OrderInv(s: State) {
    Subsequence(s.offered, Passed(s)) && (s.place == Outside ==> s.offered == [])
  }

  /** Nobody who was there when the packet came in is left out. */
  ghost predicate CoverInv(s: State) {
    s.place != Outside && s.place != Gone ==> Subsequence(s.line, s.offered + Remaining(s))
  }

  ghost predicate NoneDrops(clients: seq<Client>, answers: Answers) {
    forall c :: c in clients ==> answers(c) != Drops
  }

  ghost predicate AnswersInv(s: State, answers: Answers) {
    && s.sends <= 1 && (s.sends == 1 ==> s.place == Sent) && (s.place == Sent && s.sends == 0 ==> !s.attached)
    && (s.place != Gone ==> NoneDrops(s.offered, answers))
    && (s.place == Gone ==>
          && s.offered != [] && answers(s.offered[|s.offered| - 1]) == Drops
          && NoneDrops(s.offered[..|s.offered| - 1], answers))
    && (s.place.At? ==> answers(s.place.c) == Defers)
  }

  ghost predicate Inv(s: State, answers: Answers) {
    ListsInv(s) && OrderInv(s) && CoverInv(s) && AnswersInv(s, answers)
  }

  /** The line to hold the packet's history to: the one it came in on. */
  function History(s: State): seq<Client> {
    if s.place == Outside then Route(s.lower, s.firewall, s.upper) else s.line
  }

  /** `w` has moved from ahead of the packet to behind it. */
  ghost predicate MovedOn(s: State, s': State, w: seq<Client>) {
    && s'.offered == s.offered + w && s'.line == History(s)
    && s'.place != Outside && s.place != Gone
    && Remaining(s) == w + Remaining(s') && Passed(s') == Passed(s) + w
  }

  lemma MovedOnKeeps(s: State, s': State, w: seq<Client>)
    requires OrderInv(s) && CoverInv(s) && MovedOn(s, s', w)
    ensures OrderInv(s') && CoverInv(s')
  {
    SubsequenceReflexive(w);
    SubsequenceAppend(s.offered, Passed(s), w, w);
    Associative(s.offered, w, Remaining(s'));
    if s.place == Outside {
      assert s.offered + Remaining(s) == Remaining(s);
      SubsequenceReflexive(Remaining(s));
    }
  }

  /** The packet is dropped on the way through `w`. */
  lemma DroppedKeeps(s: State, s': State, w: seq<Client>, rest: seq<Client>)
    requires ListsInv(s) && OrderInv(s) && Remaining(s) == w + rest
    requires s'.lower == s.lower && s'.firewall == s.firewall && s'.upper == s.upper
    requires s'.offered == s.offered + w && s'.place == Gone
    ensures ListsInv(s') && OrderInv(s') && CoverInv(s')
  {
    LineSplits(s);
    SubsequenceReflexive(w);
    SubsequenceAppend(s.offered, Passed(s), w, w);
    SubsequenceAppend(s.offered + w, Passed(s) + w, [], rest);
    assert (s.offered + w) + [] == s.offered + w;
    Associative(Passed(s), w, rest);
  }

  /** The part of a walk before its last client never drops the packet. */
  lemma WalkAnswers(s: State, line: seq<Client>, answers: Answers)
    requires AnswersInv(s, answers) && s.place != Gone
    ensures var w := LineWalk(line, answers);
            && (w.stop == Through ==> NoneDrops(s.offered + w.offered, answers))
            && (w.stop.StoppedAt? ==>
                  && w.offered != []
                  && NoneDrops((s.offered + w.offered)[..|s.offered + w.offered| - 1], answers)
                  && (answers(w.stop.c) == Defers ==> NoneDrops(s.offered + w.offered, answers)))
  {
    WalkCovers(line, answers);
    WalkIsPrefix(line, answers);
    var w := LineWalk(line, answers);
    if w.stop.StoppedAt? {
      var all, n := s.offered + w.offered, |w.offered| - 1;
      assert all[..|all| - 1] == s.offered + w.offered[..n];
      assert w.offered == w.offered[..n] + [w.stop.c];
    }
  }

  /** A walk along `line`, with `rest` beyond it, that stopped. */
  lemma StoppedKeepsInv(s: State, s': State, line: seq<Client>, rest: seq<Client>, answers: Answers)
    requires Inv(s, answers) && s.place != Gone && s.place != Sent && Remaining(s) == line + rest
    requires var w := LineWalk(line, answers);
             && w.stop.StoppedAt?
             && s' == s.(offered := s.offered + w.offered, place := Held(w.stop.c, answers), line := History(s))
    ensures Inv(s', answers)
  {
    var w := LineWalk(line, answers);
    WalkCovers(line, answers);
    WalkIsPrefix(line, answers);
    var ahead := line[|w.offered|..] + rest;
    WalkAnswers(s, line, answers);
    Associative(w.offered, line[|w.offered|..], rest);
    if answers(w.stop.c) == Defers {
      StopAdvances(s, s', w.offered, ahead);
      MovedOnKeeps(s, s', w.offered);
    } else {
      DroppedKeeps(s, s', w.offered, ahead);
    }
  }

  /** A walk along `line` that went through: the packet is where `rest` is ahead of it. */
  lemma ThroughKeepsInv(s: State, s': State, line: seq<Client>, answers: Answers)
    requires Inv(s, answers) && s.place != Gone && s.place != Sent && LineWalk(line, answers).stop == Through
    requires s' == s.(offered := s.offered + line, place := s'.place, line := History(s), sends := s'.sends)
    requires s'.place == Sent || s'.place == PastUpper
    requires s'.sends == if s'.place == Sent then s.sends + One(s.attached) else s.sends
    requires Remaining(s) == line + Remaining(s')
    ensures Inv(s', answers)
  {
    WalkCovers(line, answers);
    WalkIsPrefix(line, answers);
    WalkAnswers(s, line, answers);
    LineSplits(s);
    LineSplits(s');
    Associative(Passed(s), line, Remaining(s'));
    CancelRight(Passed(s) + line, Passed(s'), Remaining(s'));
    MovedOnKeeps(s, s', line);
  }

  // ---- Each step keeps the invariant

  lemma LowerStepKeepsInv(s: State, s': State, clients: seq<nat>, answers: Answers)
    requires Inv(s, answers) && s.place != Gone && s.place != Sent
    requires Remaining(s) == Route(clients, s.firewall, s.upper)
    requires s' == AfterLower(s, LowerWalk(clients, s.firewall, s.upper, answers), answers).(line := History(s))
    ensures Inv(s', answers)
  {
    var line := Remaining(s);
    LowerWalkIsLine(clients, s.firewall, s.upper, answers);
    WalkCovers(line, answers);
    WalkIsPrefix(line, answers);
    assert line == line + [];
    if LineWalk(line, answers).stop == Through {
      ThroughKeepsInv(s, s', line, answers);
    } else {
      StoppedKeepsInv(s, s', line, [], answers);
    }
  }

  lemma UpperStepKeepsInv(s: State, s': State, clients: seq<nat>, answers: Answers)
    requires Inv(s, answers) && s.place.At?
    requires Remaining(s) == UpperRoute(clients) + Route(After(s.lower, s.firewall), s.firewall, s.upper)
    requires s' == AfterUpper(s, UpperWalk(clients, answers), answers)
    ensures Inv(s', answers)
  {
    var line := UpperRoute(clients);
    UpperWalkIsLine(clients, answers);
    WalkCovers(line, answers);
    WalkIsPrefix(line, answers);
    if LineWalk(line, answers).stop == Through {
      ThroughKeepsInv(s, s', line, answers);
    } else {
      StoppedKeepsInv(s, s', line, Route(After(s.lower, s.firewall), s.firewall, s.upper), answers);
    }
  }

  lemma WalkStepKeepsInv(s: State, a: Action, answers: Answers)
    requires Inv(s, answers) && Enabled(s, a) && (a.Inject? || a.Resume? || a.Continue?)
    ensures Inv(Step(s, a, answers), answers)
  {
    var s' := Step(s, a, answers);
    match a
    case Inject => LowerStepKeepsInv(s, s', s.lower, answers);
    case Continue => LowerStepKeepsInv(s, s', After(s.lower, s.firewall), answers);
    case Resume =>
      match s.place.c
      case Lower(id) => LowerStepKeepsInv(s, s', After(s.lower, id), answers);
      case Upper(id) => UpperStepKeepsInv(s, s', After(s.upper, id), answers);
  }

  // ---- Registrations in between

  /** A client registered below goes to the head of the list: nothing changes ahead of the packet. */
  lemma HeadInsertLeavesRest(s: State, id: nat)
    requires ListsInv(s) && id !in s.lower && s.place != Outside
    ensures var s' := s.(lower := [id] + s.lower);
            Remaining(s') == Remaining(s) && Passed(s') == [Lower(id)] + Passed(s)
  {
    var lower := [id] + s.lower;
    assert lower[1..] == s.lower;
    assert Route(lower, s.firewall, s.upper) == [Lower(id)] + Route(s.lower, s.firewall, s.upper);
    match s.place
    case At(Lower(j)) =>
      assert Route([id] + UpTo(s.lower, j), s.firewall, s.upper)
          == [Lower(id)] + Route(UpTo(s.lower, j), s.firewall, s.upper) by {
        RouteAppend([id], UpTo(s.lower, j), s.firewall, s.upper);
        assert Route([id], s.firewall, s.upper) == [Lower(id)];
      }
    case At(Upper(j)) =>
      RouteAppend([id], Before(s.lower, s.firewall), s.firewall, s.upper);
      assert Route([id], s.firewall, s.upper) == [Lower(id)];
      Associative([Lower(id)], Route(Before(s.lower, s.firewall), s.firewall, s.upper),
                  [Firewall] + UpperRoute(UpTo(s.upper, j)));
    case PastUpper =>
      RouteAppend([id], UpTo(s.lower, s.firewall), s.firewall, s.upper);
      assert Route([id], s.firewall, s.upper) == [Lower(id)];
    case _ =>
  }

  lemma StretchGrows(entry: nat, firewall: nat, upper: seq<nat>, id: nat)
    ensures Subsequence(Stretch(entry, firewall, upper), Stretch(entry, firewall, upper + [id]))
  {
    var stretch := Stretch(entry, firewall, upper);
    SubsequenceReflexive(stretch);
    if entry == firewall && upper != [] {
      UpperRouteAppend(upper, [id]);
      SubsequenceAppend(stretch, stretch, [], UpperRoute([id]));
      assert stretch + [] == stretch;
      assert Stretch(entry, firewall, upper + [id]) == stretch + UpperRoute([id]);
    }
  }

  lemma {:induction false} RouteGrows(lower: seq<nat>, firewall: nat, upper: seq<nat>, id: nat)
    ensures Subsequence(Route(lower, firewall, upper), Route(lower, firewall, upper + [id]))
    ensures firewall !in lower ==> Route(lower, firewall, upper) == Route(lower, firewall, upper + [id])
  {
    if lower != [] {
      RouteGrows(lower[1..], firewall, upper, id);
      StretchGrows(lower[0], firewall, upper, id);
      SubsequenceAppend(Stretch(lower[0], firewall, upper), Stretch(lower[0], firewall, upper + [id]),
                        Route(lower[1..], firewall, upper), Route(lower[1..], firewall, upper + [id]));
    }
  }

  lemma {:induction false} AppendBehind(list: seq<nat>, id: nat, more: nat)
    requires id in list
    ensures UpTo(list + [more], id) == UpTo(list, id) && After(list + [more], id) == After(list, id) + [more]
  {
    assert (list + [more])[1..] == list[1..] + [more];
    if list[0] != id {
      AppendBehind(list[1..], id, more);
    }
  }

  lemma NotAround(list: seq<nat>, id: nat)
    requires NoDuplicates(list) && id in list
    ensures id !in Before(list, id) && id !in After(list, id)
  {
    ListSplits(list, id);
    var n := |Before(list, id)|;
    assert list[n] == id;
    assert forall k :: 0 <= k < n ==> list[k] == Before(list, id)[k];
    assert forall k :: n < k < |list| ==> list[k] == After(list, id)[k - n - 1];
  }

  /** A client registered with the firewall goes to the tail of its list: what is ahead of the packet, and what is behind
      it, can only grow; past the firewall's clients nothing ahead changes. */
  lemma TailInsertExtends(s: State, id: nat)
    requires ListsInv(s) && id !in s.upper
    ensures var s' := s.(upper := s.upper + [id]);
            && Subsequence(Remaining(s), Remaining(s')) && Subsequence(Passed(s), Passed(s'))
            && (s.place == PastUpper ==> Remaining(s') == Remaining(s))
  {
    var upper := s.upper + [id];
    SubsequenceReflexive(Remaining(s));
    SubsequenceReflexive(Passed(s));
    NotAround(s.lower, s.firewall);
    match s.place
    case Outside => RouteGrows(s.lower, s.firewall, s.upper, id);
    case At(Lower(j)) =>
      RouteGrows(After(s.lower, j), s.firewall, s.upper, id);
      RouteGrows(UpTo(s.lower, j), s.firewall, s.upper, id);
    case At(Upper(j)) =>
      RouteGrows(After(s.lower, s.firewall), s.firewall, s.upper, id);
      RouteGrows(Before(s.lower, s.firewall), s.firewall, s.upper, id);
      AppendBehind(s.upper, j, id);
      GrowsInside(UpperRoute(After(s.upper, j)), UpperRoute([id]), Route(After(s.lower, s.firewall), s.firewall, s.upper));
      UpperRouteAppend(After(s.upper, j), [id]);
    case PastUpper =>
      RouteGrows(After(s.lower, s.firewall), s.firewall, s.upper, id);
      RouteGrows(UpTo(s.lower, s.firewall), s.firewall, s.upper, id);
    case _ => RouteGrows(s.lower, s.firewall, s.upper, id);
  }

  lemma GrowsInside(a: seq<Client>, more: seq<Client>, b: seq<Client>)
    ensures Subsequence(a + b, (a + more) + b)
  {
    SubsequenceReflexive(a);
    SubsequenceReflexive(b);
    SubsequenceAppend(a, a, [], more);
    assert a + [] == a;
    SubsequenceAppend(a, a + more, b, b);
  }

  lemma RegisterLowerKeepsInv(s: State, id: nat, answers: Answers)
    requires Inv(s, answers) && Enabled(s, RegisterLower(id))
    ensures Inv(Step(s, RegisterLower(id), answers), answers)
  {
    if s.place != Outside {
      HeadInsertLeavesRest(s, id);
      SubsequencePrepend(s.offered, [Lower(id)], Passed(s));
    }
  }

  lemma RegisterUpperKeepsInv(s: State, id: nat, answers: Answers)
    requires Inv(s, answers) && Enabled(s, RegisterUpper(id))
    ensures Inv(Step(s, RegisterUpper(id), answers), answers)
  {
    var s' := Step(s, RegisterUpper(id), answers);
    TailInsertExtends(s, id);
    SubsequenceTransitive(s.offered, Passed(s), Passed(s'));
    SubsequenceReflexive(s.offered);
    SubsequenceAppend(s.offered, s.offered, Remaining(s), Remaining(s'));
    if s.place != Outside && s.place != Gone {
      SubsequenceTransitive(s.line, s.offered + Remaining(s), s.offered + Remaining(s'));
    }
  }

  lemma StepKeepsInv(s: State, a: Action, answers: Answers)
    requires Inv(s, answers)
    ensures Inv(Step(s, a, answers), answers)
  {
    if Enabled(s, a) {
      match a
      case RegisterLower(id) => RegisterLowerKeepsInv(s, id, answers);
      case RegisterUpper(id) => RegisterUpperKeepsInv(s, id, answers);
      case CloseAdapter =>
      case _ => WalkStepKeepsInv(s, a, answers);
    }
  }

  ghost predicate Initial(s: State) {
    ListsInv(s) && s.place == Outside && s.offered == [] && s.sends == 0
  }

  lemma {:induction false} RunKeepsInv(s: State, acts: seq<Action>, answers: Answers)
    requires Initial(s)
    ensures Inv(Run(s, acts, answers), answers)
  {
    if acts != [] {
      RunKeepsInv(s, acts[..|acts| - 1], answers);
      StepKeepsInv(Run(s, acts[..|acts| - 1], answers), acts[|acts| - 1], answers);
    }
  }

  // ---- What holds over every run, registrations included

  /** Each client is offered the packet at most once, in list order across both layers. */
  lemma OfferedOnceInOrder(s: State, acts: seq<Action>, answers: Answers)
    requires Initial(s)
    ensures var t := Run(s, acts, answers);
            Subsequence(t.offered, Route(t.lower, t.firewall, t.upper)) && NoDuplicates(t.offered)
  {
    var t := Run(s, acts, answers);
    RunKeepsInv(s, acts, answers);
    LineSplits(t);
    SubsequenceAppend(t.offered, Passed(t), [], Remaining(t));
    assert t.offered + [] == t.offered;
    RouteDistinct(t.lower, t.firewall, t.upper);
    SubsequenceDistinct(t.offered, Route(t.lower, t.firewall, t.upper));
  }

  lemma {:induction false} StaysAttached(s: State, acts: seq<Action>, answers: Answers)
    requires s.attached && CloseAdapter !in acts
    ensures Run(s, acts, answers).attached
  {
    if acts != [] {
      StaysAttached(s, acts[..|acts| - 1], answers);
    }
  }

  /** The packet is sent at most once. When it is, everyone who was registered when it came in has been offered it, and
      nobody who was offered it dropped it; when it is gone instead, the last it was offered to dropped it. A packet that
      everybody let go is not sent only when its adapter has been closed. */
  lemma SentOnceIfNobodyDrops(s: State, acts: seq<Action>, answers: Answers)
    requires Initial(s)
    ensures var t := Run(s, acts, answers);
            && t.sends <= 1 && (t.sends == 1 ==> t.place == Sent)
            && (t.place == Sent ==> Subsequence(t.line, t.offered) && NoneDrops(t.offered, answers))
            && (t.place == Sent && s.attached && CloseAdapter !in acts ==> t.sends == 1)
            && (t.place == Gone ==> t.offered != [] && answers(t.offered[|t.offered| - 1]) == Drops)
  {
    var t := Run(s, acts, answers);
    RunKeepsInv(s, acts, answers);
    if s.attached && CloseAdapter !in acts {
      StaysAttached(s, acts, answers);
    }
    assert t.offered + [] == t.offered;
  }

  /** A client registered below is offered every later packet first. */
  lemma RegisteredBelowIsFirst(s: State, id: nat, answers: Answers)
    requires ListsInv(s) && id !in s.lower
    ensures var s' := Step(s, RegisterLower(id), answers);
            Route(s'.lower, s'.firewall, s'.upper) == [Lower(id)] + Route(s.lower, s.firewall, s.upper)
  {
    assert ([id] + s.lower)[1..] == s.lower;
  }

  /** A client registered with the firewall comes last of its clients: later packets are offered to it after the others, and a
      packet one of the others has kept is still going to be. */
  lemma RegisteredAboveIsLast(s: State, id: nat, answers: Answers)
    requires ListsInv(s) && id !in s.upper
    ensures var s' := Step(s, RegisterUpper(id), answers);
            && UpperRoute(s'.upper) == UpperRoute(s.upper) + [Upper(id)]
            && (s.place.At? && s.place.c.Upper? ==>
                  Remaining(s') == UpperRoute(After(s.upper, s.place.c.id)) + [Upper(id)]
                                   + Route(After(s.lower, s.firewall), s.firewall, s.upper))
  {
    UpperRouteAppend(s.upper, [id]);
    assert UpperRoute([id]) == [Upper(id)];
    if s.place.At? && s.place.c.Upper? {
      AppendBehind(s.upper, s.place.c.id, id);
      UpperRouteAppend(After(s.upper, s.place.c.id), [id]);
      NotAround(s.lower, s.firewall);
      RouteGrows(After(s.lower, s.firewall), s.firewall, s.upper, id);
    }
  }

  /** Once the adapter is closed a packet that has not been sent never is. */
  lemma {:induction false} ClosedIsNotSent(s: State, acts: seq<Action>, answers: Answers)
    ensures var t := Run(Step(s, CloseAdapter, answers), acts, answers); !t.attached && t.sends == s.sends
  {
    if acts != [] {
      ClosedIsNotSent(s, acts[..|acts| - 1], answers);
    }
  }

  // ---- Deferring is as good as never having stopped

  /** The same clients, had those who defer let the packet go at once. */
  function Straight(answers: Answers): Answers {
    (c: Client) => if answers(c) == Defers then Accepts else answers(c)
  }

  function StepsLeft(s: State): nat {
    match s.place
    case At(_) => 2 * |Remaining(s)| + 2
    case PastUpper => 2 * |Remaining(s)| + 1
    case _ => 0
  }

  function NextAction(s: State): Action {
    if s.place.At? then Resume else Continue
  }

  lemma NextGetsCloser(s: State, answers: Answers)
    requires Inv(s, answers) && (s.place.At? || s.place == PastUpper)
    ensures Inv(Step(s, NextAction(s), answers), answers)
    ensures StepsLeft(Step(s, NextAction(s), answers)) < StepsLeft(s)
  {
    var s' := Step(s, NextAction(s), answers);
    StepKeepsInv(s, NextAction(s), answers);
    AheadShrinks(s, answers);
  }

  /** Every client who defers injects the packet again, until it is sent or gone. */
  ghost function Settle(s: State, answers: Answers): State
    requires Inv(s, answers)
    decreases StepsLeft(s)
  {
    if s.place.At? || s.place == PastUpper then
      NextGetsCloser(s, answers);
      Settle(Step(s, NextAction(s), answers), answers)
    else s
  }

  /** The walk an injection makes, and what is ahead of the packet beyond it. */
  ghost predicate WalksAlong(s: State, s': State, line: seq<Client>, rest: seq<Client>, answers: Answers) {
    var w := LineWalk(line, answers);
    && Remaining(s) == line + rest
    && (w.stop == Through ==>
          && Remaining(s') == rest && (s'.place == PastUpper || (s'.place == Sent && rest == []))
          && s'.sends == (if s'.place == Sent then s.sends + One(s.attached) else s.sends))
    && (w.stop.StoppedAt? ==> s'.place == Held(w.stop.c, answers) && s'.sends == s.sends)
    && s' == s.(offered := s.offered + w.offered, place := s'.place, sends := s'.sends)
  }

  lemma LowerStepWalks(s: State, clients: seq<nat>, answers: Answers)
    requires Inv(s, answers) && (s.place.At? || s.place == PastUpper)
    requires Remaining(s) == Route(clients, s.firewall, s.upper)
    ensures WalksAlong(s, AfterLower(s, LowerWalk(clients, s.firewall, s.upper, answers), answers), Remaining(s), [], answers)
  {
    LowerWalkIsLine(clients, s.firewall, s.upper, answers);
    assert Remaining(s) == Remaining(s) + [];
  }

  lemma UpperStepWalks(s: State, clients: seq<nat>, rest: seq<Client>, answers: Answers)
    requires rest == Route(After(s.lower, s.firewall), s.firewall, s.upper)
    requires Remaining(s) == UpperRoute(clients) + rest
    ensures WalksAlong(s, AfterUpper(s, UpperWalk(clients, answers), answers), UpperRoute(clients), rest, answers)
  {
    UpperWalkIsLine(clients, answers);
  }

  lemma NextWalks(s: State, answers: Answers) returns (line: seq<Client>, rest: seq<Client>)
    requires Inv(s, answers) && (s.place.At? || s.place == PastUpper)
    ensures WalksAlong(s, Step(s, NextAction(s), answers), line, rest, answers)
  {
    match s.place
    case At(Lower(id)) =>
      LowerStepWalks(s, After(s.lower, id), answers);
      line, rest := Remaining(s), [];
    case At(Upper(id)) =>
      line, rest := UpperRoute(After(s.upper, id)), Route(After(s.lower, s.firewall), s.firewall, s.upper);
      UpperStepWalks(s, After(s.upper, id), rest, answers);
    case PastUpper =>
      LowerStepWalks(s, After(s.lower, s.firewall), answers);
      line, rest := Remaining(s), [];
  }

  /** What is ahead after a walk that ended with a deferral or went through. */
  lemma WalkLeaves(s: State, s': State, line: seq<Client>, rest: seq<Client>, answers: Answers)
    requires Inv(s, answers) && s.place != Gone && s.place != Sent && WalksAlong(s, s', line, rest, answers)
    ensures var w := LineWalk(line, answers);
            && |w.offered| <= |line|
            && (s'.place != Gone ==> Remaining(s) == w.offered + Remaining(s'))
            && (w.stop.StoppedAt? ==> w.offered != [])
  {
    var w := LineWalk(line, answers);
    WalkCovers(line, answers);
    WalkIsPrefix(line, answers);
    if w.stop.StoppedAt? && s'.place != Gone {
      var ahead := line[|w.offered|..] + rest;
      Associative(w.offered, line[|w.offered|..], rest);
      StopAdvances(s, s', w.offered, ahead);
    }
  }

  lemma AheadShrinks(s: State, answers: Answers)
    requires Inv(s, answers) && (s.place.At? || s.place == PastUpper)
    ensures StepsLeft(Step(s, NextAction(s), answers)) < StepsLeft(s)
  {
    var s' := Step(s, NextAction(s), answers);
    var line, rest := NextWalks(s, answers);
    WalkLeaves(s, s', line, rest, answers);
  }

  lemma {:induction false} StraightOverWalk(line: seq<Client>, answers: Answers)
    ensures var w := LineWalk(line, answers);
            LineWalk(w.offered, Straight(answers))
            == Walk(w.offered, if w.stop.StoppedAt? && answers(w.stop.c) == Drops then w.stop else Through)
  {
    if line != [] {
      StraightOverWalk(line[1..], answers);
      var rest := LineWalk(line[1..], answers);
      if answers(line[0]) == Accepts {
        assert ([line[0]] + rest.offered)[1..] == rest.offered;
      } else {
        assert [line[0]][1..] == [];
      }
    }
  }

  /** Where the packet ends up if nobody ahead of it defers. */
  function Goal(s: State, answers: Answers): State {
    if s.place == Sent || s.place == Gone then s
    else
      var w := LineWalk(Remaining(s), Straight(answers));
      s.(offered := s.offered + w.offered, place := if w.stop == Through then Sent else Gone,
         sends := if w.stop == Through then s.sends + One(s.attached) else s.sends)
  }

  /** One injection more brings the packet no nearer to, and no farther from, where it would have ended up. */
  lemma StepKeepsGoal(s: State, answers: Answers)
    requires Inv(s, answers) && (s.place.At? || s.place == PastUpper)
    ensures Goal(Step(s, NextAction(s), answers), answers) == Goal(s, answers)
  {
    var s' := Step(s, NextAction(s), answers);
    var line, rest := NextWalks(s, answers);
    WalkKeepsGoal(s, s', line, rest, answers);
  }

  /** The packet is gone: nobody who did not defer would have let it get further. */
  lemma GoneKeepsGoal(s: State, s': State, line: seq<Client>, rest: seq<Client>, answers: Answers)
    requires Inv(s, answers) && s.place != Gone && s.place != Sent && WalksAlong(s, s', line, rest, answers)
    requires s'.place == Gone
    ensures Goal(s', answers) == Goal(s, answers)
  {
    var w := LineWalk(line, answers);
    StraightOverWalk(line, answers);
    WalkCovers(line, answers);
    WalkIsPrefix(line, answers);
    var beyond := line[|w.offered|..] + rest;
    Associative(w.offered, line[|w.offered|..], rest);
    LineWalkAppend(w.offered, beyond, Straight(answers));
  }

  /** The packet went through, or a client keeps it: what is ahead then is what was ahead before, without the walk. */
  lemma WentOnKeepsGoal(s: State, s': State, line: seq<Client>, rest: seq<Client>, answers: Answers)
    requires Inv(s, answers) && s.place != Gone && s.place != Sent && WalksAlong(s, s', line, rest, answers)
    requires s'.place != Gone
    ensures Goal(s', answers) == Goal(s, answers)
  {
    var w := LineWalk(line, answers);
    StraightOverWalk(line, answers);
    WalkLeaves(s, s', line, rest, answers);
    LineWalkAppend(w.offered, Remaining(s'), Straight(answers));
    Associative(s.offered, w.offered, LineWalk(Remaining(s'), Straight(answers)).offered);
  }

  lemma WalkKeepsGoal(s: State, s': State, line: seq<Client>, rest: seq<Client>, answers: Answers)
    requires Inv(s, answers) && s.place != Gone && s.place != Sent && WalksAlong(s, s', line, rest, answers)
    ensures Goal(s', answers) == Goal(s, answers)
  {
    if s'.place == Gone {
      GoneKeepsGoal(s, s', line, rest, answers);
    } else {
      WentOnKeepsGoal(s, s', line, rest, answers);
    }
  }

  lemma {:induction false} SettleReachesGoal(s: State, answers: Answers)
    requires Inv(s, answers) && s.place != Outside
    ensures Settle(s, answers) == Goal(s, answers)
    decreases StepsLeft(s)
  {
    if s.place.At? || s.place == PastUpper {
      NextGetsCloser(s, answers);
      StepKeepsGoal(s, answers);
      NextIsInside(s, answers);
      SettleReachesGoal(Step(s, NextAction(s), answers), answers);
    }
  }

  lemma NextIsInside(s: State, answers: Answers)
    requires s.place.At? || s.place == PastUpper
    ensures Step(s, NextAction(s), answers).place != Outside
  {
  }

  /** Injecting a packet is a walk along the whole line, */
  lemma InjectWalks(s: State, answers: Answers)
    requires Initial(s)
    ensures var line := Route(s.lower, s.firewall, s.upper);
            WalksAlong(s.(line := line), Step(s, Inject, answers), line, [], answers)
  {
    var line := Route(s.lower, s.firewall, s.upper);
    var s1, w := s.(line := line), LineWalk(line, answers);
    LowerWalkIsLine(s.lower, s.firewall, s.upper, answers);
    assert Step(s, Inject, answers) == AfterLower(s1, w, answers);
    assert Remaining(s1) == line + [];
  }

  /** and if nobody defers it is all there is to it. */
  lemma StraightInjectIsGoal(s: State, answers: Answers)
    requires Initial(s)
    ensures Goal(s.(line := Route(s.lower, s.firewall, s.upper)), answers) == Step(s, Inject, Straight(answers))
  {
    var line := Route(s.lower, s.firewall, s.upper);
    LowerWalkIsLine(s.lower, s.firewall, s.upper, Straight(answers));
    WalkCovers(line, Straight(answers));
  }

  lemma InjectKeepsGoal(s: State, answers: Answers)
    requires Initial(s)
    ensures Goal(Step(s, Inject, answers), answers) == Step(s, Inject, Straight(answers))
  {
    var line := Route(s.lower, s.firewall, s.upper);
    InjectWalks(s, answers);
    StraightInjectIsGoal(s, answers);
    WalkKeepsGoal(s.(line := line), Step(s, Inject, answers), line, [], answers);
  }

  /** Resuming equals never having stopped: however many clients defer, at either layer, the packet has in the end been
      offered to the same clients in the same order, and been sent or dropped, as if they had let it go at once. */
  lemma DeferringIsInvisible(s: State, answers: Answers)
    requires Initial(s)
    ensures Inv(Step(s, Inject, answers), answers)
    ensures Settle(Step(s, Inject, answers), answers) == Step(s, Inject, Straight(answers))
  {
    StepKeepsInv(s, Inject, answers);
    SettleReachesGoal(Step(s, Inject, answers), answers);
    InjectKeepsGoal(s, answers);
  }

  /** What may happen to a packet that was injected: it is injected again, and clients are registered below. */
  predicate Resumption(a: Action) {
    a.Resume? || a.Continue? || a.RegisterLower?
  }

  lemma RegisterKeepsGoal(s: State, id: nat, answers: Answers)
    requires Inv(s, answers) && s.place != Outside
    ensures var s' := Step(s, RegisterLower(id), answers);
            Goal(s', answers) == Goal(s, answers).(lower := s'.lower) && StepsLeft(s') == StepsLeft(s)
  {
    if Enabled(s, RegisterLower(id)) {
      HeadInsertLeavesRest(s, id);
    }
  }

  lemma ResumptionKeepsGoal(s: State, a: Action, answers: Answers)
    requires Inv(s, answers) && s.place != Outside && Resumption(a)
    ensures var s' := Step(s, a, answers);
            && Inv(s', answers) && s'.place != Outside && StepsLeft(s') <= StepsLeft(s)
            && Goal(s', answers) == Goal(s, answers).(lower := s'.lower)
  {
    StepKeepsInv(s, a, answers);
    if a.RegisterLower? {
      RegisterKeepsGoal(s, a.id, answers);
    } else if Enabled(s, a) {
      StepKeepsGoal(s, answers);
      NextGetsCloser(s, answers);
    }
  }

  lemma {:induction false} RunKeepsGoal(s: State, acts: seq<Action>, answers: Answers)
    requires Inv(s, answers) && s.place != Outside && forall a :: a in acts ==> Resumption(a)
    ensures var t := Run(s, acts, answers);
            Inv(t, answers) && t.place != Outside && Goal(t, answers) == Goal(s, answers).(lower := t.lower)
  {
    if acts != [] {
      var front := acts[..|acts| - 1];
      RunKeepsGoal(s, front, answers);
      ResumptionKeepsGoal(Run(s, front, answers), acts[|acts| - 1], answers);
    }
  }

  /** Registrations below, between the deferrals and the injections that end them, are invisible too: at any moment, what
      the packet has still before it ends where it would have ended had nobody deferred, in the list it was injected in. */
  lemma RegisteringBelowIsInvisible(s: State, acts: seq<Action>, answers: Answers)
    requires Initial(s) && forall a :: a in acts ==> Resumption(a)
    ensures Inv(Run(Step(s, Inject, answers), acts, answers), answers)
    ensures var t := Run(Step(s, Inject, answers), acts, answers);
            Settle(t, answers) == Step(s, Inject, Straight(answers)).(lower := t.lower)
  {
    var injected := Step(s, Inject, answers);
    StepKeepsInv(s, Inject, answers);
    InjectKeepsGoal(s, answers);
    RunKeepsGoal(injected, acts, answers);
    SettleReachesGoal(Run(injected, acts, answers), answers);
  }

  /** `offered` is the stretch of the line up to the first client who drops the packet. */
  ghost predicate StopsAtFirstDrop(offered: seq<Client>, line: seq<Client>, answers: Answers) {
    && offered != [] && offered <= line
    && answers(offered[|offered| - 1]) == Drops
    && NoneDrops(offered[..|offered| - 1], answers)
  }

  lemma StraightLine(line: seq<Client>, answers: Answers)
    ensures var w := LineWalk(line, Straight(answers));
            && (w.stop == Through <==> NoneDrops(line, answers))
            && (w.stop == Through ==> w.offered == line)
            && (w.stop.StoppedAt? ==> StopsAtFirstDrop(w.offered, line, answers))
  {
    WalkCovers(line, Straight(answers));
    WalkIsPrefix(line, Straight(answers));
    var w := LineWalk(line, Straight(answers));
    if w.stop.StoppedAt? {
      assert line[|w.offered| - 1] == w.stop.c;
    }
  }

  /** And it is sent, once, exactly when none of the clients of either layer drops it, the firewall gets the memory it
      needs, and the adapter is still there; otherwise it was offered to all of the line, or up to the first who drops it. */
  lemma SentIffNobodyDrops(s: State, answers: Answers)
    requires Initial(s)
    ensures var line := Route(s.lower, s.firewall, s.upper);
            var t := Step(s, Inject, Straight(answers));
            && t.sends == (if NoneDrops(line, answers) && s.attached then 1 else 0)
            && (NoneDrops(line, answers) ==> t.offered == line)
            && (!NoneDrops(line, answers) ==> StopsAtFirstDrop(t.offered, line, answers))
  {
    StraightInject(s, answers);
    StraightLine(Route(s.lower, s.firewall, s.upper), answers);
  }

  lemma StraightInject(s: State, answers: Answers)
    requires Initial(s)
    ensures var w, t := LineWalk(Route(s.lower, s.firewall, s.upper), Straight(answers)), Step(s, Inject, Straight(answers));
            t.offered == w.offered && t.sends == if w.stop == Through then One(s.attached) else 0
  {
    LowerWalkIsLine(s.lower, s.firewall, s.upper, Straight(answers));
  }

  // ---- The chains as the program walks them

  /** The walk from `start` is what has been done so far, then the walk from `k`. */
  ghost predicate HasWalked(lower: seq<nat>, start: nat, k: nat, firewall: nat, upper: seq<nat>, answers: Answers,
                            done: seq<Client>, stop: Stop)
    requires start <= k <= |lower|
  {
    LowerWalk(lower[start..], firewall, upper, answers)
    == Then(Walk(done, stop), LowerWalk(lower[k..], firewall, upper, answers))
  }

  /** The same for the walk along the firewall's clients. */
  ghost predicate HasOffered(upper: seq<nat>, start: nat, k: nat, answers: Answers, done: seq<Client>, stop: Stop)
    requires start <= k <= |upper|
  {
    UpperWalk(upper[start..], answers) == Then(Walk(done, stop), UpperWalk(upper[k..], answers))
  }

  lemma OffersOneMore(upper: seq<nat>, start: nat, k: nat, answers: Answers, done: seq<Client>)
    requires start <= k < |upper| && HasOffered(upper, start, k, answers, done, Through)
    ensures var w := Offer(Upper(upper[k]), answers);
            HasOffered(upper, start, k + 1, answers, done + w.offered, w.stop)
  {
    assert upper[k..][1..] == upper[k + 1..];
    ThenAssociates(Walk(done, Through), Offer(Upper(upper[k]), answers), UpperWalk(upper[k + 1..], answers));
  }

  lemma HasOfferedAll(upper: seq<nat>, start: nat, k: nat, answers: Answers, done: seq<Client>, stop: Stop)
    requires start <= k <= |upper| && HasOffered(upper, start, k, answers, done, stop)
    requires k == |upper| || stop != Through
    ensures UpperWalk(upper[start..], answers) == Walk(done, stop)
  {
    assert done + [] == done;
  }

  lemma WalksOneMore(lower: seq<nat>, start: nat, k: nat, firewall: nat, upper: seq<nat>, answers: Answers,
                     done: seq<Client>)
    requires start <= k < |lower| && HasWalked(lower, start, k, firewall, upper, answers, done, Through)
    ensures var w := Entry(lower[k], firewall, upper, answers);
            HasWalked(lower, start, k + 1, firewall, upper, answers, done + w.offered, w.stop)
  {
    assert lower[k..][1..] == lower[k + 1..];
    ThenAssociates(Walk(done, Through), Entry(lower[k], firewall, upper, answers),
                   LowerWalk(lower[k + 1..], firewall, upper, answers));
  }

  lemma HasWalkedAll(lower: seq<nat>, start: nat, k: nat, firewall: nat, upper: seq<nat>, answers: Answers,
                     done: seq<Client>, stop: Stop)
    requires start <= k <= |lower| && HasWalked(lower, start, k, firewall, upper, answers, done, stop)
    requires k == |lower| || stop != Through
    ensures LowerWalk(lower[start..], firewall, upper, answers) == Walk(done, stop)
  {
    assert done + [] == done;
  }

  /** The number of entries up to and including `id`: where the walk goes on from an instance's own link. */
  function Behind(list: seq<nat>, id: nat): (n: nat)
    ensures n <= |list| && After(list, id) == list[n..]
  {
    if list == [] then 0 else if list[0] == id then 1 else 1 + Behind(list[1..], id)
  }

  /** The instance lists, and one packet on its way. */
  class Chains {
    var fltInstances: seq<nat>
    const firewall: nat
    var fwInstances: seq<nat>
    ghost var offered: seq<Client>
    var sends: nat
    var attached: bool

    constructor (firewall: nat)
      ensures this.firewall == firewall && fltInstances == [firewall] && fwInstances == []
      ensures offered == [] && sends == 0 && attached
    {
      this.firewall := firewall;
      fltInstances, fwInstances, offered, sends, attached := [firewall], [], [], 0, true;
    }

    /** The packet and the lists as a state of the protocol. */
    ghost function Model(place: Place, line: seq<Client>): State
      reads this
    {
      State(fltInstances, firewall, fwInstances, place, offered, sends, line, attached)
    }

    /** `FLTRegisterCallbacks`. */
    method RegisterBelow(id: nat, ghost place: Place, ghost line: seq<Client>)
      requires id !in fltInstances
      modifies this`fltInstances
      ensures forall answers :: Model(place, line) == Step(old(Model(place, line)), RegisterLower(id), answers)
    {
      fltInstances := [id] + fltInstances;
    }

    /** `FWRegisterRequestCallback`. */
    method RegisterAbove(id: nat, ghost place: Place, ghost line: seq<Client>)
      requires id !in fwInstances
      modifies this`fwInstances
      ensures forall answers :: Model(place, line) == Step(old(Model(place, line)), RegisterUpper(id), answers)
    {
      fwInstances := fwInstances + [id];
    }

    /** `CloseAdapter` detaches the packet. */
    method Detach(ghost place: Place, ghost line: seq<Client>)
      modifies this`attached
      ensures forall answers :: Model(place, line) == Step(old(Model(place, line)), CloseAdapter, answers)
    {
      attached := false;
    }

    /** A client's callback. */
    method Call(c: Client, answers: Answers) returns (stop: Stop)
      modifies this`offered
      ensures Walk([c], stop) == Offer(c, answers) && offered == old(offered) + [c]
    {
      offered := offered + [c];
      stop := if answers(c) == Accepts then Through else StoppedAt(c);
    }

    /** `ProcessRequest`, from position `start` of the list. */
    method ProcessRequest(start: nat, answers: Answers) returns (stop: Stop)
      requires start <= |fwInstances|
      modifies this`offered
      ensures var w := UpperWalk(fwInstances[start..], answers);
              stop == w.stop && offered == old(offered) + w.offered
    {
      ghost var upper := fwInstances;
      var k := start;
      stop := Through;
      ghost var done: seq<Client> := [];
      ThenAssociates(Walk([], Through), Walk([], Through), UpperWalk(upper[start..], answers));
      while k < |fwInstances| && stop == Through
        invariant start <= k <= |fwInstances| && offered == old(offered) + done
        invariant HasOffered(upper, start, k, answers, done, stop)
      {
        OffersOneMore(upper, start, k, answers, done);
        stop := Call(Upper(fwInstances[k]), answers);
        Associative(old(offered), done, [Upper(upper[k])]);
        done := done + [Upper(upper[k])];
        k := k + 1;
      }
      HasOfferedAll(upper, start, k, answers, done, stop);
    }

    /** `RequestCallback`: nothing to do without clients; else a request is allocated, and its clients are called. */
    method RequestCallback(answers: Answers) returns (stop: Stop)
      modifies this`offered
      ensures var w := FirewallWalk(fwInstances, answers);
              stop == w.stop && offered == old(offered) + w.offered
    {
      stop := Through;
      if fwInstances != [] {
        stop := Call(Firewall, answers);
        if stop == Through {
          assert fwInstances[0..] == fwInstances;
          stop := ProcessRequest(0, answers);
        }
      }
    }

    /** The callback of an entry of the list below. */
    method CallEntry(id: nat, answers: Answers) returns (stop: Stop)
      modifies this`offered
      ensures var w := Entry(id, firewall, fwInstances, answers);
              stop == w.stop && offered == old(offered) + w.offered
    {
      if id == firewall {
        stop := RequestCallback(answers);
      } else {
        stop := Call(Lower(id), answers);
      }
    }

    /** The loop of `FLTInjectRequest`, from position `start` of the list. */
    method WalkBelow(start: nat, answers: Answers) returns (stop: Stop)
      requires start <= |fltInstances|
      modifies this`offered
      ensures var w := LowerWalk(fltInstances[start..], firewall, fwInstances, answers);
              stop == w.stop && offered == old(offered) + w.offered
    {
      ghost var lower, upper := fltInstances, fwInstances;
      var k := start;
      stop := Through;
      ghost var done: seq<Client> := [];
      ThenAssociates(Walk([], Through), Walk([], Through), LowerWalk(lower[start..], firewall, upper, answers));
      while k < |fltInstances| && stop == Through
        invariant start <= k <= |fltInstances| && offered == old(offered) + done
        invariant HasWalked(lower, start, k, firewall, upper, answers, done, stop)
      {
        ghost var more := Entry(lower[k], firewall, upper, answers).offered;
        WalksOneMore(lower, start, k, firewall, upper, answers, done);
        stop := CallEntry(fltInstances[k], answers);
        Associative(old(offered), done, more);
        done := done + more;
        k := k + 1;
      }
      HasWalkedAll(lower, start, k, firewall, upper, answers, done, stop);
    }

    /** `FLTInjectRequest`: a packet nobody stopped goes to `SendPacket`, which sends it if it has an adapter. */
    method FltInjectRequest(start: nat, answers: Answers) returns (stop: Stop)
      requires start <= |fltInstances|
      modifies this`offered, this`sends
      ensures var w := LowerWalk(fltInstances[start..], firewall, fwInstances, answers);
              && stop == w.stop && offered == old(offered) + w.offered
              && sends == if stop == Through && attached then old(sends) + 1 else old(sends)
    {
      stop := WalkBelow(start, answers);
      if stop == Through && attached {
        sends := sends + 1;
      }
    }

    /** The handlers inject a new packet at the head of the chain. */
    method InjectNew(answers: Answers, ghost line: seq<Client>) returns (stop: Stop)
      modifies this`offered, this`sends
      ensures Step(old(Model(Outside, line)), Inject, answers)
           == Model(if stop == Through then Sent else Held(stop.c, answers), Route(fltInstances, firewall, fwInstances))
    {
      assert fltInstances[0..] == fltInstances;
      stop := FltInjectRequest(0, answers);
    }

    /** A client below injects the packet again, behind itself. */
    method ResumeBelow(id: nat, answers: Answers, ghost line: seq<Client>) returns (stop: Stop)
      modifies this`offered, this`sends
      ensures Step(old(Model(At(Lower(id)), line)), Resume, answers)
           == Model(if stop == Through then Sent else Held(stop.c, answers), line)
    {
      stop := FltInjectRequest(Behind(fltInstances, id), answers);
    }

    /** `FWInjectRequest`: first the rest of the firewall's clients, then the rest of the chain below the firewall. */
    method ResumeAbove(id: nat, answers: Answers, ghost line: seq<Client>) returns (stop: Stop)
      modifies this`offered, this`sends
      ensures Step(Step(old(Model(At(Upper(id)), line)), Resume, answers), Continue, answers)
           == Model(if stop == Through then Sent else Held(stop.c, answers), line)
    {
      stop := ProcessRequest(Behind(fwInstances, id), answers);
      if stop == Through {
        stop := FltInjectRequest(Behind(fltInstances, firewall), answers);
      }
    }
  }
}
