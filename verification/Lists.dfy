/** Lists of identifiers -- the intrusive lists of the program, as sequences -- and counting. */
module Lists {

  ghost predicate NoDuplicates<T>(list: seq<T>) {
    forall j, k :: 0 <= j < k < |list| ==> list[j] != list[k]
  }

  /** What a fact adds to a count. */
  function One(b: bool): nat { if b then 1 else 0 }

  /** The list with every `i` taken out. */
  function Without(list: seq<nat>, i: nat): (rest: seq<nat>)
    ensures forall j :: j in rest <==> j in list && j != i
    ensures i !in list ==> rest == list
  {
    if list == [] then []
    else if list[0] == i then Without(list[1..], i)
    else [list[0]] + Without(list[1..], i)
  }

  lemma {:induction false} WithoutKeepsDistinct(list: seq<nat>, i: nat)
    requires NoDuplicates(list)
    ensures NoDuplicates(Without(list, i))
  {
    if list != [] {
      WithoutKeepsDistinct(list[1..], i);
      assert list[0] !in list[1..];
    }
  }

  /** `rest` is what `list` has at the places `from`, in order. */
  ghost predicate Selects(list: seq<nat>, rest: seq<nat>, from: seq<nat>) {
    && |from| == |rest|
    && (forall k :: 0 <= k < |from| ==> from[k] < |list| && rest[k] == list[from[k]])
    && forall j, k :: 0 <= j < k < |from| ==> from[j] < from[k]
  }

  function Later(from: seq<nat>): (later: seq<nat>)
    ensures |later| == |from| && forall k :: 0 <= k < |from| ==> later[k] == from[k] + 1
  {
    seq(|from|, k requires 0 <= k < |from| => from[k] + 1)
  }

  lemma SelectsLater(list: seq<nat>, rest: seq<nat>, from: seq<nat>)
    requires list != [] && Selects(list[1..], rest, from)
    ensures Selects(list, rest, Later(from))
  {
    forall k | 0 <= k < |from|
      ensures Later(from)[k] < |list| && rest[k] == list[Later(from)[k]]
    {
      assert list[1..][from[k]] == list[from[k] + 1];
    }
  }

  lemma SelectsFirst(list: seq<nat>, rest: seq<nat>, from: seq<nat>)
    requires list != [] && Selects(list, rest, from) && forall k :: 0 <= k < |from| ==> from[k] > 0
    ensures Selects(list, [list[0]] + rest, [0] + from)
  {
    var kept, more := [0] + from, [list[0]] + rest;
    forall k | 0 <= k < |kept|
      ensures kept[k] < |list| && more[k] == list[kept[k]]
    {
      assert k > 0 ==> kept[k] == from[k - 1] && more[k] == rest[k - 1];
    }
    forall j, k | 0 <= j < k < |kept|
      ensures kept[j] < kept[k]
    {
      assert j > 0 ==> kept[j] == from[j - 1];
      assert kept[k] == from[k - 1];
    }
  }

  /** `Without` keeps the order of what it leaves. */
  lemma {:induction false} WithoutKeepsOrder(list: seq<nat>, i: nat) returns (from: seq<nat>)
    ensures Selects(list, Without(list, i), from)
  {
    from := [];
    if list != [] {
      var rest := WithoutKeepsOrder(list[1..], i);
      SelectsLater(list, Without(list[1..], i), rest);
      from := Later(rest);
      if list[0] != i {
        SelectsFirst(list, Without(list[1..], i), from);
        from := [0] + from;
      }
    }
  }

  /** Taking the entry at `k` out of a list without duplicates takes exactly that value out. */
  lemma RemoveFromDistinct(list: seq<nat>, k: nat)
    requires NoDuplicates(list) && k < |list|
    ensures var rest := list[..k] + list[k + 1..];
            NoDuplicates(rest) && forall j :: j in rest <==> j in list && j != list[k]
  {
    var rest := list[..k] + list[k + 1..];
    forall j | j in list && j != list[k]
      ensures j in rest
    {
      var n :| 0 <= n < |list| && list[n] == j;
      assert rest[if n < k then n else n - 1] == j;
    }
  }

  lemma {:induction false} WithoutSkips(list: seq<nat>, k: nat)
    requires k < |list|
    ensures Without(list[..k] + list[k + 1..], list[k]) == Without(list, list[k])
  {
    var shorter := list[..k] + list[k + 1..];
    if k == 0 {
      assert shorter == list[1..];
    } else {
      WithoutSkips(list[1..], k - 1);
      assert shorter[1..] == list[1..][..k - 1] + list[1..][k..];
    }
  }

  lemma FrontAndLast<T>(list: seq<T>)
    requires list != []
    ensures list[..|list| - 1] + [list[|list| - 1]] == list
  {
  }

  lemma HeadAndRest<T>(list: seq<T>, n: nat)
    requires n < |list|
    ensures [list[n]] + list[n + 1..] == list[n..]
  {
  }

  /** The list with the entry at `k` taken out. */
  function RemoveAt<T>(q: seq<T>, k: nat): (rest: seq<T>)
    requires k < |q|
    ensures |rest| == |q| - 1
    ensures forall j :: 0 <= j < |rest| ==> rest[j] == q[if j < k then j else j + 1]
  {
    q[..k] + q[k + 1..]
  }
}
