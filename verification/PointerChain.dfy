/**
  The random pointer chain of the latency probe: an in-place shuffle, links written line by line, and a
  walk that follows them.
*/
module PointerChain {

  /** Every line number below the length occurs, and none twice. */
  ghost predicate IsPermutation(s: seq<nat>) {
    && (forall i :: 0 <= i < |s| ==> s[i] < |s|)
    && (forall i, j | 0 <= i < j < |s| :: s[i] != s[j])
    && (forall v: nat :: v < |s| ==> v in s)
  }

  function Swapped(s: seq<nat>, i: nat, j: nat): (r: seq<nat>)
    requires i < |s| && j < |s|
  {
    s[i := s[j]][j := s[i]]
  }

  lemma SwapKeepsPermutation(s: seq<nat>, i: nat, j: nat)
    requires IsPermutation(s) && i < |s| && j < |s|
    ensures IsPermutation(Swapped(s, i, j))
  {
    var r := Swapped(s, i, j);
    forall v: nat | 0 <= v < |r| ensures v in r {
      assert v in s;
      var k :| 0 <= k < |s| && s[k] == v;
      assert r[if k == i then j else if k == j then i else k] == v;
    }
  }

  /** The identity, then swaps from the top down; `draw(i)` is whatever the generator yields for `i`. */
  method Shuffle(order: array<nat>, draw: nat -> nat)
    requires order.Length > 0
    modifies order
    ensures IsPermutation(order[..])
  {
    for i := 0 to order.Length
      invariant forall j :: 0 <= j < i ==> order[j] == j
    {
      order[i] := i;
    }
    forall v: nat | v < order.Length ensures v in order[..] { assert order[..][v] == v; }
    var i := order.Length - 1;
    while i > 0
      invariant i < order.Length && IsPermutation(order[..])
    {
      var other := draw(i) % (i + 1);
      ghost var before := order[..];
      var tmp := order[i];
      order[i] := order[other];
      order[other] := tmp;
      assert order[..] == Swapped(before, i, other);
      SwapKeepsPermutation(before, i, other);
      i := i - 1;
    }
  }

  // ---- the links ----

  /** Each line of the order links to the next, the last to the first. */
  ghost predicate Linked(next: seq<nat>, order: seq<nat>) {
    && |next| == |order| && IsPermutation(order)
    && forall i :: 0 <= i < |order| ==> next[order[i]] == order[Succ(i, |order|)]
  }

  function Succ(i: nat, n: nat): (r: nat)
    requires i < n
    ensures r < n && r == (i + 1) % n
  {
    if i + 1 == n then 0 else i + 1
  }

  method Link(next: array<nat>, order: array<nat>)
    requires next != order && next.Length == order.Length && IsPermutation(order[..])
    modifies next
    ensures Linked(next[..], order[..])
  {
    for i := 0 to order.Length
      invariant forall j :: 0 <= j < i ==> next[order[j]] == order[Succ(j, order.Length)]
    {
      next[order[i]] := order[(i + 1) % order.Length];
    }
    assert forall i :: 0 <= i < order.Length ==> order[..][i] == order[i];
  }

  // ---- following the links ----

  /** Where `k` links lead from `v`. */
  ghost function Follow(next: seq<nat>, v: nat, k: nat): (r: nat)
    requires v < |next| && forall i :: 0 <= i < |next| ==> next[i] < |next|
    ensures r < |next|
  {
    if k == 0 then v else next[Follow(next, v, k - 1)]
  }

  lemma LinksStayInside(next: seq<nat>, order: seq<nat>)
    requires Linked(next, order)
    ensures forall i :: 0 <= i < |next| ==> next[i] < |next|
  {
    forall v: nat | 0 <= v < |next| ensures next[v] < |next| {
      assert v in order;
      var i :| 0 <= i < |order| && order[i] == v;
      assert next[order[i]] == order[Succ(i, |order|)];
    }
  }

  /** The k-th line after the i-th, counting round. */
  function Around(i: nat, k: nat, n: nat): (r: nat)
    requires i < n && k <= n
    ensures r < n
  {
    if i + k < n then i + k else i + k - n
  }

  lemma {:induction false} FollowGoesRound(next: seq<nat>, order: seq<nat>, i: nat, k: nat)
    requires Linked(next, order) && i < |order| && k <= |order| && forall j :: 0 <= j < |next| ==> next[j] < |next|
    ensures Follow(next, order[i], k) == order[Around(i, k, |order|)]
    decreases k
  {
    if k > 0 {
      FollowGoesRound(next, order, i, k - 1);
      var j := Around(i, k - 1, |order|);
      assert next[order[j]] == order[Succ(j, |order|)];
    }
  }

  /** Every line is somewhere in the order. */
  lemma PositionOf(order: seq<nat>, v: nat) returns (i: nat)
    requires IsPermutation(order) && v < |order|
    ensures i < |order| && order[i] == v
  {
    assert v in order;
    i :| i < |order| && order[i] == v;
  }

  ghost predicate Reaches(next: seq<nat>, v: nat, w: nat)
    requires v < |next| && forall i :: 0 <= i < |next| ==> next[i] < |next|
  {
    exists j: nat :: j < |next| && Follow(next, v, j) == w
  }

  lemma ReachesEveryLine(next: seq<nat>, order: seq<nat>, v: nat, w: nat) returns (j: nat)
    requires Linked(next, order) && v < |next| && w < |next| && forall i :: 0 <= i < |next| ==> next[i] < |next|
    ensures j < |next| && Follow(next, v, j) == w
  {
    var i := PositionOf(order, v);
    var m := PositionOf(order, w);
    j := if m >= i then m - i else m - i + |order|;
    FollowGoesRound(next, order, i, j);
  }

  /**
    The links form one single cycle: from every line, following them reaches every line, and comes back
    for the first time after exactly as many steps as there are lines.
  */
  lemma OneSingleCycle(next: seq<nat>, order: seq<nat>, v: nat, k: nat)
    requires Linked(next, order) && v < |next| && 0 < k <= |next|
    ensures forall j :: 0 <= j < |next| ==> next[j] < |next|
    ensures Follow(next, v, k) == v <==> k == |next|
    ensures forall w: nat :: w < |next| ==> Reaches(next, v, w)
  {
    LinksStayInside(next, order);
    var i := PositionOf(order, v);
    FollowGoesRound(next, order, i, k);
    forall w: nat | w < |next| ensures Reaches(next, v, w) {
      var j := ReachesEveryLine(next, order, v, w);
    }
  }

  /** The first walk over the chain, before any is timed: it reads each line exactly once, in the shuffled order, and ends where it began. */
  method Walk(next: array<nat>, ghost order: seq<nat>, start: nat) returns (index: nat, ghost visited: seq<nat>)
    requires Linked(next[..], order) && |order| > 0 && start == order[0]
    ensures index == start && visited == order
  {
    index, visited := start, [];
    for i := 0 to next.Length
      invariant visited == order[..i] && index == order[if i == |order| then 0 else i]
    {
      assert next[..][order[i]] == order[Succ(i, |order|)];
      visited := visited + [index];
      index := next[index];
    }
    assert order[..|order|] == order;
  }

  /** The probe as a whole, for every number of lines and every random stream. */
  method Probe(lines: nat, draw: nat -> nat) returns (order: array<nat>, index: nat, ghost visited: seq<nat>)
    requires lines > 0
    ensures order.Length == lines && IsPermutation(order[..]) && visited == order[..] && index == order[0]
  {
    order := new nat[lines];
    Shuffle(order, draw);
    var next := new nat[lines];
    Link(next, order);
    index, visited := Walk(next, order[..], order[0]);
  }
}
