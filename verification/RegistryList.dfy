/**
  The registry as the library keeps it: a linked list of import nodes that regions point into, and a
  process-wide SDK count.  Each method is one critical section, proved against the step functions.
*/
module RegistryList {
  import opened Common
  import opened Registry

  class Node {
    var next: Node?
    var refs: nat
    const name: string
    const base: nat
    const size: nat
    ghost const id: nat

    constructor (name: string, base: nat, size: nat, next: Node?, ghost id: nat)
      ensures this.name == name && this.base == base && this.size == size && this.next == next
      ensures this.id == id && refs == 1
    {
      this.name, this.base, this.size, this.next, this.refs := name, base, size, next, 1;
      this.id := id;
    }

    ghost function Value(): (m: Import)
      reads this
    {
      Import(id, name, base, size, refs)
    }
  }

  /** The caller's region descriptor. */
  class Handle {
    const name: string
    const size: nat
    var initialized: bool
    var owner: bool
    var mapped: bool
    var base: nat
    var shared: Node?

    constructor (name: string, size: nat)
      ensures this.name == name && this.size == size
      ensures !initialized && !owner && !mapped && base == 0 && shared == null
    {
      this.name, this.size := name, size;
      initialized, owner, mapped, base, shared := false, false, false, 0, null;
    }

    ghost function Value(): (r: Region)
      reads this
    {
      Region(name, size, initialized, owner, mapped, base, if shared == null then None else Some(shared.id))
    }

    method Join(n: Node)
      modifies this
      ensures Value() == old(Value()).(base := n.base, mapped := true, shared := Some(n.id)) && shared == n
    {
      base, mapped, shared := n.base, true, n;
    }

    method Leave()
      modifies this
      ensures Value() == old(Value()).(base := 0, mapped := false, shared := None) && shared == null
    {
      base, mapped, shared := 0, false, null;
    }
  }

  /** No node and no identity twice, and all identities used up. */
  ghost predicate Distinct(nodes: seq<Node>, nextId: nat) {
    && (forall i, j | 0 <= i < j < |nodes| :: nodes[i] != nodes[j] && nodes[i].id != nodes[j].id)
    && (forall i :: 0 <= i < |nodes| ==> nodes[i].id < nextId)
  }

  lemma DistinctWithout(nodes: seq<Node>, nextId: nat, k: nat)
    requires Distinct(nodes, nextId) && k < |nodes|
    ensures Distinct(nodes[..k] + nodes[k + 1..], nextId)
  {
    var rest := nodes[..k] + nodes[k + 1..];
    assert forall i :: 0 <= i < |rest| ==> rest[i] == nodes[if i < k then i else i + 1];
  }

  class Imports {
    var head: Node?
    ghost var nodes: seq<Node>
    ghost var nextId: nat

    ghost function NodeAt(i: nat): (n: Node?)
      reads this
    {
      if i < |nodes| then nodes[i] else null
    }

    ghost predicate Linked()
      reads this, nodes
    {
      && head == NodeAt(0)
      && (forall i {:trigger nodes[i].next} :: 0 <= i < |nodes| ==> nodes[i].next == NodeAt(i + 1))
    }

    ghost predicate Valid()
      reads this, nodes
    {
      Linked() && Distinct(nodes, nextId)
    }

    ghost function Table(): (t: seq<Import>)
      reads this, nodes
      ensures |t| == |nodes| && forall i :: 0 <= i < |t| ==> t[i] == nodes[i].Value()
    {
      seq(|nodes|, i requires 0 <= i < |nodes| reads this, nodes => nodes[i].Value())
    }

    constructor ()
      ensures Valid() && Table() == []
    {
      head, nodes, nextId := null, [], 0;
    }

    /** Walks the list for a name; null when no import has it. */
    method Lookup(name: string) returns (n: Node?, ghost k: nat)
      requires Valid()
      ensures k == FindName(Table(), name)
      ensures n == NodeAt(k)
    {
      n, k := head, 0;
      while n != null && n.name != name
        invariant k <= |nodes| && n == NodeAt(k)
        invariant forall j :: 0 <= j < k ==> nodes[j].name != name
        decreases |nodes| - k
      {
        n, k := n.next, k + 1;
      }
      FirstName(Table(), name, k);
    }

    /** One more or one fewer region on import `k`. */
    method Recount(n: Node, ghost k: nat, refs: nat)
      requires Valid() && k < |nodes| && n == nodes[k]
      modifies n`refs
      ensures Valid() && Table() == old(Table())[k := old(Table())[k].(refs := refs)]
    {
      n.refs := refs;
    }

    /** Puts a node whose link is the old head in front. */
    method PushFront(m: Node)
      requires Valid() && m !in nodes && m.next == head && m.id == nextId
      modifies this
      ensures Valid() && nodes == [m] + old(nodes) && nextId == old(nextId) + 1
    {
      head, nodes, nextId := m, [m] + nodes, nextId + 1;
      forall i | 0 <= i < |nodes| ensures nodes[i].next == NodeAt(i + 1) {
        if i > 0 { assert nodes[i] == old(nodes[i - 1]) && nodes[i].next == old(NodeAt(i)); }
      }
    }

    method Prepend(name: string, base: nat, size: nat) returns (m: Node)
      requires Valid()
      modifies this
      ensures Valid() && fresh(m) && nodes == [m] + old(nodes) && nextId == old(nextId) + 1
      ensures m.id == old(nextId) && m.base == base
      ensures Table() == [Import(old(nextId), name, base, size, 1)] + old(Table())
    {
      m := new Node(name, base, size, head, nextId);
      PushFront(m);
    }

    /** Another region of the same name and size shares the mapping. */
    method JoinKnown(h: Handle, n: Node, ghost k: nat)
      requires Valid() && k < |nodes| && n == nodes[k]
      modifies n`refs, h
      ensures Valid() && Table() == old(Table())[k := old(Table())[k].(refs := old(Table())[k].refs + 1)]
      ensures h.Value() == old(h.Value()).(base := n.base, mapped := true, shared := Some(n.id)) && h.shared == n
    {
      Recount(n, k, n.refs + 1);
      h.Join(n);
    }

    method JoinNew(h: Handle, base: nat)
      requires Valid()
      modifies this, h
      ensures Valid() && Table() == [Import(old(nextId), h.name, base, h.size, 1)] + old(Table())
      ensures nextId == old(nextId) + 1 && |nodes| > 0 && h.shared == nodes[0]
      ensures h.Value() == old(h.Value()).(base := base, mapped := true, shared := Some(old(nextId)))
    {
      var m := Prepend(h.name, base, h.size);
      h.Join(m);
    }

    /** The critical section of a remote open. */
    method Attach(h: Handle, mapOk: bool, base: nat) returns (ok: bool)
      requires Valid() && h.shared == null
      modifies this, nodes, h
      ensures Valid()
      ensures var o := old(AttachTo(Table(), h.Value(), nextId, mapOk, base));
        Table() == o.imports && h.Value() == o.region && ok == o.ok && nextId == old(nextId) + (if o.sdkCall then 1 else 0)
      ensures ok ==> h.shared in nodes
    {
      var n; ghost var k;
      n, k := Lookup(h.name);
      if n != null {
        if n.size != h.size { return false; }
        JoinKnown(h, n, k);
      } else if !mapOk {
        return false;
      } else {
        JoinNew(h, base);
      }
      return true;
    }

    /** The node whose link leads to `n`, found by address. */
    method FindLink(n: Node, ghost k: nat) returns (link: Node)
      requires Valid() && 0 < k < |nodes| && n == nodes[k]
      ensures link == nodes[k - 1]
    {
      link := head; ghost var j := 0;
      while link.next != n
        invariant j < k && link == nodes[j]
        decreases k - j
      {
        link, j := link.next, j + 1;
      }
    }

    method UnlinkHead(n: Node)
      requires Valid() && 0 < |nodes| && n == nodes[0]
      modifies this`head, this`nodes
      ensures Valid() && Table() == old(Table())[1..]
    {
      head, nodes := n.next, nodes[1..];
    }

    method UnlinkAfter(link: Node, n: Node, ghost k: nat)
      requires Valid() && 0 < k < |nodes| && n == nodes[k] && link == nodes[k - 1]
      modifies this`nodes, link`next
      ensures Valid() && nodes == old(nodes[..k] + nodes[k + 1..])
    {
      ghost var before := nodes;
      link.next := n.next;
      nodes := before[..k] + before[k + 1..];
      DistinctWithout(before, nextId, k);
      forall i | 0 <= i < |nodes| ensures nodes[i].next == NodeAt(i + 1) {
        if i < k {
          assert nodes[i] == before[i];
        } else {
          assert nodes[i] == before[i + 1] && nodes[i].next == old(NodeAt(i + 2));
        }
      }
    }

    /** Takes a node out of the list, leaving the order of the others. */
    method Unlink(n: Node, ghost k: nat)
      requires Valid() && k < |nodes| && n == nodes[k]
      modifies this, nodes
      ensures Valid() && nextId == old(nextId) && Table() == RemoveAt(old(Table()), k)
    {
      if head == n {
        UnlinkHead(n);
      } else {
        var link := FindLink(n, k);
        UnlinkAfter(link, n, k);
        assert Table() == RemoveAt(old(Table()), k);
      }
    }

    /** The critical section of a close: the last region unmaps, the others drop their reference. */
    method Detach(h: Handle, ghost k: nat, unmapOk: bool) returns (ok: bool)
      requires Valid() && k < |nodes| && h.shared == nodes[k] && nodes[k].refs > 0
      modifies this, nodes, h
      ensures Valid()
      ensures var o := old(DetachFrom(Table(), h.Value(), unmapOk));
        Table() == o.imports && h.Value() == o.region && ok == o.ok
    {
      FirstId(Table(), nodes[k].id, k);
      var n := h.shared;
      if n.refs == 1 {
        if !unmapOk { return false; }
        Unlink(n, k);
      } else {
        Recount(n, k, n.refs - 1);
      }
      h.Leave();
      return true;
    }
  }

  /** The process-wide SDK count; each method is one critical section under its lock. */
  class SdkCount {
    var refs: nat
    var external: bool
    ghost var up: bool

    ghost function Value(): (s: Sdk)
      reads this
    {
      Sdk(refs, external, up)
    }

    constructor ()
      ensures Value() == Sdk(0, false, false)
    {
      refs, external, up := 0, false, false;
    }

    /** `sdkOk` is what the SDK's own initialization would answer. */
    method Initialize(wantExternal: bool, sdkOk: bool) returns (ok: bool)
      modifies this
      ensures ok == old(InitOk(Value(), wantExternal, sdkOk))
      ensures Value() == if ok then old(InitSdk(Value(), wantExternal)) else old(Value())
    {
      ok := true;
      if refs > 0 && external != wantExternal { ok := false; }
      if refs == 0 && !wantExternal {
        ok := sdkOk;
        up := up || ok;
      }
      if ok {
        external := wantExternal;
        refs := refs + 1;
      }
    }

    method Release(sdkOk: bool) returns (ok: bool)
      modifies this
      ensures ok == old(FinalOk(Value(), sdkOk))
      ensures Value() == if ok then old(FinalSdk(Value())) else old(Value())
    {
      if refs == 0 { return false; }
      if refs == 1 && !external {
        if !sdkOk { return false; }
        up := false;
      }
      refs := refs - 1;
      return true;
    }
  }

  lemma FirstName(t: seq<Import>, name: string, k: nat)
    requires k <= |t| && (k < |t| ==> t[k].name == name) && forall j :: 0 <= j < k ==> t[j].name != name
    ensures FindName(t, name) == k
  {
  }

  lemma FirstId(t: seq<Import>, id: nat, k: nat)
    requires k <= |t| && (k < |t| ==> t[k].id == id) && forall j :: 0 <= j < k ==> t[j].id != id
    ensures FindId(t, id) == k
  {
  }
}
