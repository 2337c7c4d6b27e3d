/**
  The experiment planner and its independent checker.  The planner turns a common configuration and a CPU
  topology into one configuration per host; the checker decides on each host whether it can run.
*/
module Planner {
  import opened Common
  import opened CpuBlocks

  datatype Name = Client | Nginx | LoadBalance | PostStorage | UserTimeline | HomeTimeline | Other(k: nat)

  datatype Address = Address(host: nat, port: nat)

  datatype Endpoint = Endpoint(addr: Address, rpcId: int, offset: int)

  datatype ClientEntry = ClientEntry(id: nat, at: Endpoint)

  /** What a generated configuration says about services, placement and workload. */
  datatype Config = Config(names: seq<Name>, services: map<Name, Endpoint>, lanes: (nat, nat), numaClient: nat,
                           numaServer: nat, userNum: nat, homeNum: nat, writeNum: nat,
                           clients: seq<ClientEntry>, nginx: seq<Endpoint>, clientId: Option<nat>)

  /** The common input: services in the order of the file, and the id the client section may carry. */
  datatype Original = Original(names: seq<Name>, services: map<Name, Endpoint>, clientId: Option<nat>)

  datatype Topology = Topology(nodes: map<nat, seq<nat>>, allowed: set<nat>)

  datatype Workload = User | Home

  datatype Plan = Plan(a: nat, b: nat, workload: Workload, clients: nat, nginxCount: nat,
                       aBlocks: seq<nat>, bBlocks: seq<nat>)

  function Timeline(w: Workload): (n: Name) { if w == User then UserTimeline else HomeTimeline }

  ghost predicate WellFormed(o: Original) {
    && (forall n :: n in o.names <==> n in o.services)
    && (forall i, j | 0 <= i < j < |o.names| :: o.names[i] != o.names[j])
  }

  /** CPU lists come out of a sorted set. */
  ghost predicate Sorted(cpus: seq<nat>) { forall i, j | 0 <= i < j < |cpus| :: cpus[i] < cpus[j] }

  // ---- what the planner writes ----

  /** Clients and the timeline run on A, everything else on B. */
  function HostOf(p: Plan, n: Name): (h: nat) {
    if n == Client || n == Timeline(p.workload) then p.a else p.b
  }

  predicate PlanOk(p: Plan) {
    && p.a != p.b && 1 <= p.clients <= 4 && (p.nginxCount == 1 || p.nginxCount == 3)
    && |p.aBlocks| == p.clients + 1 && |p.bBlocks| == (if p.nginxCount == 3 then 5 else 3)
  }

  function OffsetOf(p: Plan, n: Name, before: int): (o: int)
    requires PlanOk(p)
  {
    if n == Client then p.aBlocks[0]
    else if n == Timeline(p.workload) then p.aBlocks[p.clients]
    else if n == Nginx then p.bBlocks[0]
    else if n == LoadBalance then p.bBlocks[1]
    else if n == PostStorage then p.bBlocks[2]
    else before
  }

  function Placed(p: Plan, n: Name, e: Endpoint): (r: Endpoint)
    requires PlanOk(p)
  {
    Endpoint(Address(HostOf(p, n), e.addr.port), e.rpcId, OffsetOf(p, n, e.offset))
  }

  function ClientPort(port: nat, index: nat): (r: nat) { if index == 0 then port else port + 10 + index - 1 }

  function RegistryEntry(p: Plan, c: Endpoint, index: nat): (r: ClientEntry)
    requires PlanOk(p) && index < p.clients
  {
    ClientEntry(index + 1, Endpoint(Address(p.a, ClientPort(c.addr.port, index)),
                                    if index == 0 then c.rpcId else 10 + index, p.aBlocks[index]))
  }

  function Registry(p: Plan, c: Endpoint, n: nat): (r: seq<ClientEntry>)
    requires PlanOk(p) && n <= p.clients
    ensures |r| == n && forall i :: 0 <= i < n ==> r[i] == RegistryEntry(p, c, i)
  {
    if n == 0 then [] else Registry(p, c, n - 1) + [RegistryEntry(p, c, n - 1)]
  }

  function NginxInstances(p: Plan, first: Endpoint): (r: seq<Endpoint>)
    requires PlanOk(p) && p.nginxCount == 3
  {
    [first,
     Endpoint(Address(p.b, first.addr.port + 18), 16, p.bBlocks[3]),
     Endpoint(Address(p.b, first.addr.port + 19), 17, p.bBlocks[4])]
  }

  /** The configuration of one host; both differ only in the NUMA node. */
  function Generated(o: Original, p: Plan, numa: nat): (c: Config)
    requires WellFormed(o) && PlanOk(p) && Client in o.services && (p.nginxCount == 3 ==> Nginx in o.services)
  {
    var services := map n | n in o.services :: Placed(p, n, o.services[n]);
    Config(o.names, services, (1, 1), numa, numa,
           if p.workload == User then 1 else 0, if p.workload == Home then 1 else 0, 0,
           if p.clients > 1 then Registry(p, o.services[Client], p.clients) else [],
           if p.nginxCount == 3 then NginxInstances(p, services[Nginx]) else [], o.clientId)
  }

  /** Ports the planner insists on. */
  predicate PortsOk(o: Original, p: Plan)
    requires Client in o.services && p.clients >= 1 && (p.nginxCount == 3 ==> Nginx in o.services)
  {
    && (forall n :: n in o.services ==> 1 <= o.services[n].addr.port <= 65535)
    && ClientPort(o.services[Client].addr.port, p.clients - 1) <= 65535
    && (p.nginxCount == 3 ==> o.services[Nginx].addr.port + 19 <= 65535)
  }

  // ---- the checker ----

  /** Which services run on a side, or an error. */
  function ServicesFor(c: Config, onA: bool, domain: bool): (r: Option<seq<Name>>)
  {
    if !(Client in c.services && Nginx in c.services) then None
    else
      var a, b := c.services[Client].addr.host, c.services[Nginx].addr.host;
      var timeline := if c.homeNum != 0 then HomeTimeline else UserTimeline;
      if c.clients != [] && !RegisteredOk(c, a) then None
      else if !((c.userNum == 1 && c.homeNum == 0) || (c.userNum == 0 && c.homeNum == 1)) || c.writeNum != 0 then None
      else if !(timeline in c.services && LoadBalance in c.services && PostStorage in c.services) then None
      else if a == b || c.services[timeline].addr.host != a || c.services[LoadBalance].addr.host != b
           || c.services[PostStorage].addr.host != b then None
      else if onA then Some([timeline, Client])
      else if domain then Some([PostStorage])
      else Some([PostStorage, Nginx, LoadBalance])
  }

  predicate IdsInOrder(cs: seq<ClientEntry>) { forall i :: 0 <= i < |cs| ==> cs[i].id == i + 1 }

  predicate RegisteredOk(c: Config, a: nat)
    requires Client in c.services && c.clients != []
  {
    && 1 <= |c.clients| <= 4 && IdsInOrder(c.clients)
    && c.clients[0].at.addr == c.services[Client].addr && c.clients[0].at.rpcId == c.services[Client].rpcId
    && (forall i :: 0 <= i < |c.clients| ==> c.clients[i].at.addr.host == a)
  }

  function Offsets(c: Config, names: seq<Name>): (r: Option<seq<int>>)
  {
    if names == [] then Some([])
    else if names[0] !in c.services then None
    else match Offsets(c, names[1..]) case None => None case Some(r) => Some([c.services[names[0]].offset] + r)
  }

  function Without(names: seq<Name>, n: Name): (r: seq<Name>) {
    if names == [] then [] else if names[0] == n then Without(names[1..], n) else [names[0]] + Without(names[1..], n)
  }

  function NginxOffsets(c: Config): (r: seq<int>) { seq(|c.nginx|, i requires 0 <= i < |c.nginx| => c.nginx[i].offset) }

  function ClientOffsets(c: Config): (r: seq<int>) { seq(|c.clients|, i requires 0 <= i < |c.clients| => c.clients[i].at.offset) }

  /** The blocks to be checked: registered clients and three nginx instances replace the single entries. */
  function Placements(c: Config, names: seq<Name>): (r: Option<seq<int>>)
  {
    var three := Nginx in names && |c.nginx| == 3;
    var many := Client in names && c.clients != [];
    if Nginx in names && c.nginx != [] && |c.nginx| != 1 && |c.nginx| != 3 then None
    else if three && !(Nginx in c.services && c.nginx[0].addr == c.services[Nginx].addr && c.nginx[0].rpcId == c.services[Nginx].rpcId)
    then None
    else if many && !(1 <= |c.clients| <= 4 && IdsInOrder(c.clients)) then None
    else
      var rest := if three then Without(names, Nginx) else names;
      var base := if many then Without(rest, Client) else rest;
      match Offsets(c, base)
      case None => None
      case Some(r) => Some(r + (if three then NginxOffsets(c) else []) + (if many then ClientOffsets(c) else []))
  }

  /** The CPU of role `k` (client, server, worker) of the block at `base`, if it exists. */
  function CpuOf(c: Config, t: Topology, base: int, k: nat): (cpu: Option<nat>)
  {
    var node := if k == 0 then c.numaClient else c.numaServer;
    if base < 0 || node !in t.nodes || base + k >= |t.nodes[node]| then None else Some(t.nodes[node][base + k])
  }

  /** The j-th CPU of the placement: three roles per block, block after block. */
  function CpuNo(c: Config, t: Topology, bases: seq<int>, j: nat): (cpu: Option<nat>)
    requires j < 3 * |bases|
  {
    CpuOf(c, t, bases[j / 3], j % 3)
  }

  /** The first `n` CPUs exist, may be used, and are all different. */
  ghost predicate CpusOk(c: Config, t: Topology, bases: seq<int>, n: nat)
    requires n <= 3 * |bases|
  {
    && (forall j :: 0 <= j < n ==> CpuNo(c, t, bases, j).Some? && CpuNo(c, t, bases, j).value in t.allowed)
    && (forall i, j | 0 <= i < j < n :: CpuNo(c, t, bases, i) != CpuNo(c, t, bases, j))
  }

  /** What the checker demands of a placement. */
  ghost predicate Runnable(c: Config, t: Topology, bases: seq<int>) {
    c.lanes == (1, 1) && CpusOk(c, t, bases, 3 * |bases|)
  }

  /** The set the loop keeps is the set of CPUs seen so far. */
  ghost predicate Collected(c: Config, t: Topology, bases: seq<int>, n: nat, used: set<nat>)
    requires n <= 3 * |bases|
  {
    && (forall j :: 0 <= j < n ==> CpuNo(c, t, bases, j).Some? && CpuNo(c, t, bases, j).value in used)
    && (forall x :: x in used ==> exists j :: 0 <= j < n && CpuNo(c, t, bases, j) == Some(x))
  }

  lemma CollectOne(c: Config, t: Topology, bases: seq<int>, n: nat, used: set<nat>, cpu: nat)
    requires n < 3 * |bases| && CpusOk(c, t, bases, n) && Collected(c, t, bases, n, used)
    requires CpuNo(c, t, bases, n) == Some(cpu) && cpu in t.allowed && cpu !in used
    ensures CpusOk(c, t, bases, n + 1) && Collected(c, t, bases, n + 1, used + {cpu})
  {
    assert CpuNo(c, t, bases, n) == Some(cpu);
    forall x | x in used ensures exists j :: 0 <= j < n + 1 && CpuNo(c, t, bases, j) == Some(x) {
      var j :| 0 <= j < n && CpuNo(c, t, bases, j) == Some(x);
    }
  }

  /** One role of one block. */
  method CheckRole(c: Config, t: Topology, bases: seq<int>, i: nat, k: nat, used: set<nat>) returns (ok: bool, more: set<nat>)
    requires i < |bases| && k < 3 && CpusOk(c, t, bases, 3 * i + k) && Collected(c, t, bases, 3 * i + k, used)
    ensures ok ==> CpusOk(c, t, bases, 3 * i + k + 1) && Collected(c, t, bases, 3 * i + k + 1, more)
    ensures !ok ==> !CpusOk(c, t, bases, 3 * i + k + 1)
  {
    ghost var n := 3 * i + k;
    assert CpuNo(c, t, bases, n) == CpuOf(c, t, bases[i], k);
    var cpu := CpuOf(c, t, bases[i], k);
    if cpu.None? || cpu.value !in t.allowed || cpu.value in used {
      assert !CpusOk(c, t, bases, n + 1) by {
        if cpu.Some? && cpu.value in used {
          var j :| 0 <= j < n && CpuNo(c, t, bases, j) == Some(cpu.value);
        }
      }
      return false, used;
    }
    CollectOne(c, t, bases, n, used, cpu.value);
    return true, used + {cpu.value};
  }

  lemma CpusOkShrinks(c: Config, t: Topology, bases: seq<int>, n: nat, m: nat)
    requires n <= m <= 3 * |bases| && CpusOk(c, t, bases, m)
    ensures CpusOk(c, t, bases, n)
  {
  }

  /** The checker accepts exactly the runnable placements. */
  method CheckBlocks(c: Config, t: Topology, bases: seq<int>) returns (ok: bool)
    ensures ok <==> Runnable(c, t, bases)
  {
    if c.lanes != (1, 1) { return false; }
    var used: set<nat> := {};
    for i := 0 to |bases|
      invariant CpusOk(c, t, bases, 3 * i) && Collected(c, t, bases, 3 * i, used)
    {
      for k := 0 to 3
        invariant CpusOk(c, t, bases, 3 * i + k) && Collected(c, t, bases, 3 * i + k, used)
      {
        ok, used := CheckRole(c, t, bases, i, k, used);
        if !ok {
          assert !CpusOk(c, t, bases, 3 * |bases|) by {
            if CpusOk(c, t, bases, 3 * |bases|) { CpusOkShrinks(c, t, bases, 3 * i + k + 1, 3 * |bases|); }
          }
          return false;
        }
      }
    }
    ok := true;
  }

  // ---- planner and checker agree ----

  /** Different blocks of one choice have different CPUs. */
  lemma BlocksRun(c: Config, t: Topology, blocks: seq<nat>, bases: seq<int>)
    requires c.lanes == (1, 1) && c.numaClient == c.numaServer && c.numaClient in t.nodes
    requires Sorted(t.nodes[c.numaClient]) && Chosen(t.nodes[c.numaClient], t.allowed, blocks)
    requires forall i :: 0 <= i < |bases| ==> bases[i] in blocks
    requires forall i, j | 0 <= i < j < |bases| :: bases[i] != bases[j]
    ensures Runnable(c, t, bases)
  {
    var cpus := t.nodes[c.numaClient];
    forall j | 0 <= j < 3 * |bases| ensures CpuNo(c, t, bases, j) == Some(cpus[bases[j / 3] + j % 3]) && cpus[bases[j / 3] + j % 3] in t.allowed {
      assert bases[j / 3] in blocks;
    }
    forall i, j | 0 <= i < j < 3 * |bases| ensures CpuNo(c, t, bases, i) != CpuNo(c, t, bases, j) {
      assert bases[i / 3] in blocks && bases[j / 3] in blocks;
      assert i / 3 < j / 3 || (i / 3 == j / 3 && i % 3 < j % 3);
      assert bases[i / 3] + i % 3 != bases[j / 3] + j % 3;
    }
  }

  /** Blocks of the choice are pairwise different. */
  lemma DifferentBlocks(cpus: seq<nat>, allowed: set<nat>, blocks: seq<nat>)
    requires Chosen(cpus, allowed, blocks)
    ensures forall i, j | 0 <= i < |blocks| && 0 <= j < |blocks| && i != j :: blocks[i] != blocks[j]
  {
  }

  /** The services both sides need. */
  predicate Complete(o: Original, w: Workload) {
    && Client in o.services && Nginx in o.services && LoadBalance in o.services && PostStorage in o.services
    && Timeline(w) in o.services
  }

  function SideServices(w: Workload, onA: bool, domain: bool): (names: seq<Name>) {
    if onA then [Timeline(w), Client] else if domain then [PostStorage] else [PostStorage, Nginx, LoadBalance]
  }

  /** The checker finds the services of a generated configuration exactly if the input names them all. */
  lemma ServicesFoundIff(o: Original, p: Plan, numa: nat, onA: bool, domain: bool)
    requires WellFormed(o) && PlanOk(p) && Client in o.services && (p.nginxCount == 3 ==> Nginx in o.services)
    ensures ServicesFor(Generated(o, p, numa), onA, domain) ==
      if Complete(o, p.workload) then Some(SideServices(p.workload, onA, domain)) else None
  {
    var c := Generated(o, p, numa);
    if c.clients != [] && Nginx in o.services {
      assert c.clients[0] == RegistryEntry(p, o.services[Client], 0);
      assert RegisteredOk(c, p.a);
    }
  }

  /** Where the checker looks on side A: the timeline's block, then the clients'. */
  function PlacementsA(p: Plan): (r: seq<int>)
    requires PlanOk(p)
  {
    [p.aBlocks[p.clients]] + seq(p.clients, i requires 0 <= i < p.clients => p.aBlocks[i])
  }

  lemma PlacementsOnA(o: Original, p: Plan, numa: nat)
    requires WellFormed(o) && PlanOk(p) && Complete(o, p.workload)
    ensures Placements(Generated(o, p, numa), SideServices(p.workload, true, true)) == Some(PlacementsA(p))
  {
    var c := Generated(o, p, numa);
    var tl := Timeline(p.workload);
    var names := [tl, Client];
    OffsetsOfThree(c, Client, tl, Client);
    OffsetsOfThree(c, Client, Client, tl);
    assert names[1..] == [Client] && [Client][1..] == [];
    if c.clients != [] {
      assert Without(names, Client) == [tl];
      assert ClientOffsets(c) == seq(p.clients, i requires 0 <= i < p.clients => p.aBlocks[i]);
      assert [c.services[tl].offset] + [] + ClientOffsets(c) == PlacementsA(p);
    } else {
      assert [c.services[tl].offset, c.services[Client].offset] + [] + [] == PlacementsA(p);
    }
  }

  function PlacementsB(p: Plan, domain: bool): (r: seq<int>)
    requires PlanOk(p)
  {
    if domain then [p.bBlocks[2]]
    else if p.nginxCount == 3 then [p.bBlocks[2], p.bBlocks[1], p.bBlocks[0], p.bBlocks[3], p.bBlocks[4]]
    else [p.bBlocks[2], p.bBlocks[0], p.bBlocks[1]]
  }

  lemma OffsetsOfThree(c: Config, x: Name, y: Name, z: Name)
    requires x in c.services && y in c.services && z in c.services
    ensures Offsets(c, [z]) == Some([c.services[z].offset])
    ensures Offsets(c, [y, z]) == Some([c.services[y].offset, c.services[z].offset])
    ensures Offsets(c, [x, y, z]) == Some([c.services[x].offset, c.services[y].offset, c.services[z].offset])
  {
    assert [z][1..] == [] && [y, z][1..] == [z] && [x, y, z][1..] == [y, z];
    var a, b, d := c.services[x].offset, c.services[y].offset, c.services[z].offset;
    assert [d] + [] == [d] && [b] + [d] == [b, d] && [a] + [b, d] == [a, b, d];
  }

  lemma BaseWithoutNginx()
    ensures Without([PostStorage, Nginx, LoadBalance], Nginx) == [PostStorage, LoadBalance]
  {
    var names := [PostStorage, Nginx, LoadBalance];
    assert names[1..] == [Nginx, LoadBalance] && [Nginx, LoadBalance][1..] == [LoadBalance] && [LoadBalance][1..] == [];
    assert Without([LoadBalance], Nginx) == [LoadBalance];
    assert Without([Nginx, LoadBalance], Nginx) == [LoadBalance];
  }

  lemma ThreeNginxOnB(o: Original, p: Plan, numa: nat)
    requires WellFormed(o) && PlanOk(p) && Complete(o, p.workload) && p.nginxCount == 3
    ensures Placements(Generated(o, p, numa), [PostStorage, Nginx, LoadBalance]) == Some(PlacementsB(p, false))
  {
    var c := Generated(o, p, numa);
    OffsetsOfThree(c, Nginx, PostStorage, LoadBalance);
    BaseWithoutNginx();
    ThreeOffsets(o, p, numa);
    assert [p.bBlocks[2], p.bBlocks[1]] + NginxOffsets(c) + [] == PlacementsB(p, false);
  }

  lemma ThreeOffsets(o: Original, p: Plan, numa: nat)
    requires WellFormed(o) && PlanOk(p) && Complete(o, p.workload) && p.nginxCount == 3
    ensures NginxOffsets(Generated(o, p, numa)) == [p.bBlocks[0], p.bBlocks[3], p.bBlocks[4]]
  {
  }

  lemma PlacementsOnB(o: Original, p: Plan, numa: nat, domain: bool)
    requires WellFormed(o) && PlanOk(p) && Complete(o, p.workload)
    ensures Placements(Generated(o, p, numa), SideServices(p.workload, false, domain)) == Some(PlacementsB(p, domain))
  {
    if !domain && p.nginxCount == 3 {
      ThreeNginxOnB(o, p, numa);
    } else {
      var c, none := Generated(o, p, numa), [];
      OffsetsOfThree(c, PostStorage, Nginx, LoadBalance);
      OffsetsOfThree(c, LoadBalance, Nginx, PostStorage);
      assert PlacementsB(p, domain) + none + none == PlacementsB(p, domain);
    }
  }

  /** The blocks of a plan come out of the greedy choice on the given topologies. */
  ghost predicate FromTopology(p: Plan, ta: Topology, tb: Topology, numaA: nat, numaB: nat) {
    && PlanOk(p)
    && numaA in ta.nodes && Sorted(ta.nodes[numaA]) && Chosen(ta.nodes[numaA], ta.allowed, p.aBlocks)
    && numaB in tb.nodes && Sorted(tb.nodes[numaB]) && Chosen(tb.nodes[numaB], tb.allowed, p.bBlocks)
  }

  /** The checker's verdict on roles and CPUs of one host. */
  ghost predicate Passes(c: Config, t: Topology, onA: bool, domain: bool) {
    var names := ServicesFor(c, onA, domain);
    names.Some? && Placements(c, names.value).Some? && Runnable(c, t, Placements(c, names.value).value)
  }

  /**
    Planner and checker agree: a generated configuration passes on its own host, on both sides and in both
    modes, if and only if the input names the five services involved.
  */
  lemma GeneratedPassesIff(o: Original, p: Plan, ta: Topology, tb: Topology, numaA: nat, numaB: nat, onA: bool, domain: bool)
    requires WellFormed(o) && FromTopology(p, ta, tb, numaA, numaB)
    requires Client in o.services && (p.nginxCount == 3 ==> Nginx in o.services)
    ensures Passes(Generated(o, p, if onA then numaA else numaB), if onA then ta else tb, onA, domain)
         <==> Complete(o, p.workload)
  {
    ServicesFoundIff(o, p, if onA then numaA else numaB, onA, domain);
    if Complete(o, p.workload) {
      if onA {
        PlacementsOnA(o, p, numaA);
        SideARuns(o, p, ta, tb, numaA, numaB);
      } else {
        PlacementsOnB(o, p, numaB, domain);
        SideBRuns(o, p, ta, tb, numaA, numaB, domain);
      }
    }
  }

  lemma SideARuns(o: Original, p: Plan, ta: Topology, tb: Topology, numaA: nat, numaB: nat)
    requires WellFormed(o) && FromTopology(p, ta, tb, numaA, numaB) && Complete(o, p.workload)
    ensures Runnable(Generated(o, p, numaA), ta, PlacementsA(p))
  {
    var bases := PlacementsA(p);
    DifferentBlocks(ta.nodes[numaA], ta.allowed, p.aBlocks);
    forall i | 0 <= i < |bases| ensures bases[i] == p.aBlocks[if i == 0 then p.clients else i - 1] {
    }
    BlocksRun(Generated(o, p, numaA), ta, p.aBlocks, bases);
  }

  lemma SideBRuns(o: Original, p: Plan, ta: Topology, tb: Topology, numaA: nat, numaB: nat, domain: bool)
    requires WellFormed(o) && FromTopology(p, ta, tb, numaA, numaB) && Complete(o, p.workload)
    ensures Runnable(Generated(o, p, numaB), tb, PlacementsB(p, domain))
  {
    DifferentBlocks(tb.nodes[numaB], tb.allowed, p.bBlocks);
    BlocksRun(Generated(o, p, numaB), tb, p.bBlocks, PlacementsB(p, domain));
  }

  // ---- the endpoints a side will bind ----

  datatype Label = Of(name: Name) | ClientNo(id: nat) | NginxNo(i: nat)

  datatype Probe = Probe(who: Label, addr: Address)

  /** Registered clients, or else the client section itself, which must then carry an id. */
  function ClientProbes(c: Config): (r: Option<seq<Probe>>)
    requires Client in c.services
  {
    if c.clients != [] then
      Some(seq(|c.clients|, i requires 0 <= i < |c.clients| => Probe(ClientNo(c.clients[i].id), c.clients[i].at.addr)))
    else if c.clientId.None? then None
    else Some([Probe(ClientNo(c.clientId.value), c.services[Client].addr)])
  }

  function NginxProbes(c: Config): (r: seq<Probe>)
    requires Nginx in c.services
  {
    if c.nginx != [] then seq(|c.nginx|, i requires 0 <= i < |c.nginx| => Probe(NginxNo(i + 1), c.nginx[i].addr))
    else [Probe(NginxNo(1), c.services[Nginx].addr)]
  }

  function ProbesOf(c: Config, n: Name): (r: Option<seq<Probe>>) {
    if n !in c.services then None
    else if n == Client then ClientProbes(c)
    else if n == Nginx then Some(NginxProbes(c))
    else Some([Probe(Of(n), c.services[n].addr)])
  }

  function EndpointsFor(c: Config, names: seq<Name>): (r: Option<seq<Probe>>) {
    if names == [] then Some([])
    else
      var first, rest := ProbesOf(c, names[0]), EndpointsFor(c, names[1..]);
      if first.None? || rest.None? then None else Some(first.value + rest.value)
  }

  ghost predicate AllOn(ps: seq<Probe>, host: nat) { forall i :: 0 <= i < |ps| ==> ps[i].addr.host == host }

  /** Every service has its endpoints, and they are on its host, except the client without registry and id. */
  lemma ProbesOfGenerated(o: Original, p: Plan, numa: nat, n: Name)
    requires WellFormed(o) && PlanOk(p) && Complete(o, p.workload) && n in o.services
    ensures var ps := ProbesOf(Generated(o, p, numa), n);
      && (ps.Some? <==> !(n == Client && p.clients == 1 && o.clientId.None?))
      && (ps.Some? ==> AllOn(ps.value, HostOf(p, n)))
  {
    var c := Generated(o, p, numa);
    if n == Client && p.clients > 1 { assert forall i :: 0 <= i < p.clients ==> c.clients[i] == RegistryEntry(p, o.services[Client], i); }
  }

  lemma {:induction false} EndpointsOfGenerated(o: Original, p: Plan, numa: nat, names: seq<Name>, host: nat)
    requires WellFormed(o) && PlanOk(p) && Complete(o, p.workload)
    requires forall i :: 0 <= i < |names| ==> names[i] in o.services && HostOf(p, names[i]) == host
    ensures var es := EndpointsFor(Generated(o, p, numa), names);
      && (es.Some? <==> !(Client in names && p.clients == 1 && o.clientId.None?))
      && (es.Some? ==> AllOn(es.value, host))
  {
    if names != [] {
      ProbesOfGenerated(o, p, numa, names[0]);
      EndpointsOfGenerated(o, p, numa, names[1..], host);
      assert Client in names <==> names[0] == Client || Client in names[1..];
    }
  }

  /** The preflight up to the point where it probes the ports of this host. */
  ghost predicate Preflight(c: Config, t: Topology, onA: bool, domain: bool) {
    Passes(c, t, onA, domain) && EndpointsFor(c, ServicesFor(c, onA, domain).value).Some?
  }

  /** A lone client is known to the endpoint list only by an id that the planner does not write. */
  predicate ClientNamed(o: Original, p: Plan, onA: bool) { onA && p.clients == 1 ==> o.clientId.Some? }

  lemma SideIsOnOneHost(o: Original, p: Plan, onA: bool, domain: bool, i: nat)
    requires PlanOk(p) && Complete(o, p.workload) && i < |SideServices(p.workload, onA, domain)|
    ensures var n := SideServices(p.workload, onA, domain)[i];
      n in o.services && HostOf(p, n) == (if onA then p.a else p.b) && (n == Client ==> onA)
  {
  }

  /** All endpoints of a side are on its own host. */
  lemma SideEndpoints(o: Original, p: Plan, numa: nat, onA: bool, domain: bool)
    requires WellFormed(o) && PlanOk(p) && Complete(o, p.workload)
    ensures var es := EndpointsFor(Generated(o, p, numa), SideServices(p.workload, onA, domain));
      (es.Some? <==> ClientNamed(o, p, onA)) && (es.Some? ==> AllOn(es.value, if onA then p.a else p.b))
  {
    var names := SideServices(p.workload, onA, domain);
    forall i | 0 <= i < |names| ensures names[i] in o.services && HostOf(p, names[i]) == (if onA then p.a else p.b) && (names[i] == Client ==> onA) {
      SideIsOnOneHost(o, p, onA, domain, i);
    }
    assert onA ==> names[1] == Client;
    EndpointsOfGenerated(o, p, numa, names, if onA then p.a else p.b);
  }

  /**
    The preflight accepts a generated configuration on its own host exactly if the input names the five services
    and, on the client's side with one client, its client section carries an id.
  */
  lemma PreflightIff(o: Original, p: Plan, ta: Topology, tb: Topology, numaA: nat, numaB: nat, onA: bool, domain: bool)
    requires WellFormed(o) && FromTopology(p, ta, tb, numaA, numaB)
    requires Client in o.services && (p.nginxCount == 3 ==> Nginx in o.services)
    ensures Preflight(Generated(o, p, if onA then numaA else numaB), if onA then ta else tb, onA, domain)
         <==> Complete(o, p.workload) && ClientNamed(o, p, onA)
  {
    var numa := if onA then numaA else numaB;
    GeneratedPassesIff(o, p, ta, tb, numaA, numaB, onA, domain);
    ServicesFoundIff(o, p, numa, onA, domain);
    if Complete(o, p.workload) { SideEndpoints(o, p, numa, onA, domain); }
  }

  // ---- identifiers and addresses ----

  function Ids(e: Endpoint): (s: set<int>) { {e.rpcId, e.rpcId + 20} }

  /** No two endpoints share an identifier, its reserved partner, or an address. */
  ghost predicate NoCollision(es: seq<Endpoint>) {
    forall j :: 0 <= j < |es| ==> Alone(es, j)
  }

  /** Endpoint `j` collides with none before it. */
  ghost predicate Alone(es: seq<Endpoint>, j: nat)
    requires j < |es|
  {
    forall i :: 0 <= i < j ==> Ids(es[i]) !! Ids(es[j]) && es[i].addr != es[j].addr
  }

  predicate IdInRange(e: Endpoint) { 0 <= e.rpcId && e.rpcId + 20 < 64 }

  ghost predicate Recorded(es: seq<Endpoint>, n: nat, used: set<int>, addresses: set<Address>)
    requires n <= |es|
  {
    && (forall x :: x in used <==> exists i :: 0 <= i < n && x in Ids(es[i]))
    && (forall a :: a in addresses <==> exists i :: 0 <= i < n && es[i].addr == a)
  }

  predicate Fresh(e: Endpoint, used: set<int>, addresses: set<Address>) {
    e.rpcId !in used && e.rpcId + 20 !in used && e.addr !in addresses
  }

  lemma RecordOne(es: seq<Endpoint>, n: nat, used: set<int>, addresses: set<Address>)
    requires n < |es| && Recorded(es, n, used, addresses)
    ensures Recorded(es, n + 1, used + Ids(es[n]), addresses + {es[n].addr})
  {
    forall x ensures x in used + Ids(es[n]) <==> exists i :: 0 <= i < n + 1 && x in Ids(es[i]) {
      if x in used { var i :| 0 <= i < n && x in Ids(es[i]); }
      assert x in Ids(es[n]) ==> exists i :: 0 <= i < n + 1 && x in Ids(es[i]);
    }
    forall a ensures a in addresses + {es[n].addr} <==> exists i :: 0 <= i < n + 1 && es[i].addr == a {
      if a in addresses { var i :| 0 <= i < n && es[i].addr == a; }
      assert es[n].addr == a ==> exists i :: 0 <= i < n + 1 && es[i].addr == a;
    }
  }

  lemma FreshIsAlone(es: seq<Endpoint>, n: nat, used: set<int>, addresses: set<Address>)
    requires n < |es| && Recorded(es, n, used, addresses)
    ensures Fresh(es[n], used, addresses) <==> Alone(es, n)
  {
    var e := es[n];
    if Fresh(e, used, addresses) {
      forall i | 0 <= i < n ensures Ids(es[i]) !! Ids(e) && es[i].addr != e.addr {
        assert forall x :: x in Ids(es[i]) ==> x in used;
        assert es[i].addr in addresses;
      }
    } else if e.rpcId in used || e.rpcId + 20 in used {
      var x := if e.rpcId in used then e.rpcId else e.rpcId + 20;
      var i :| 0 <= i < n && x in Ids(es[i]);
      assert x in Ids(e);
    }
  }

  /** The first `n` endpoints have been found good and are on record. */
  ghost predicate AuditedTo(es: seq<Endpoint>, ranged: nat, n: nat, used: set<int>, addresses: set<Address>) {
    && n <= |es| && Recorded(es, n, used, addresses)
    && (forall j :: 0 <= j < n ==> Alone(es, j))
    && (forall i :: 0 <= i < n && i < ranged ==> IdInRange(es[i]))
  }

  /** The test of one turn of the loops. */
  predicate Good(e: Endpoint, service: bool, used: set<int>, addresses: set<Address>) {
    (service ==> IdInRange(e)) && Fresh(e, used, addresses)
  }

  lemma AuditOne(es: seq<Endpoint>, ranged: nat, n: nat, used: set<int>, addresses: set<Address>)
    requires n < |es| && AuditedTo(es, ranged, n, used, addresses)
    ensures Good(es[n], n < ranged, used, addresses) ==>
      AuditedTo(es, ranged, n + 1, used + Ids(es[n]), addresses + {es[n].addr})
    ensures !Good(es[n], n < ranged, used, addresses) ==> !Alone(es, n) || (n < ranged && !IdInRange(es[n]))
  {
    FreshIsAlone(es, n, used, addresses);
    RecordOne(es, n, used, addresses);
  }

  /** The collision audit; the first `ranged` endpoints are services, whose identifiers must be in range. */
  method Audit(es: seq<Endpoint>, ranged: nat) returns (ok: bool)
    requires ranged <= |es|
    ensures ok <==> NoCollision(es) && forall i :: 0 <= i < ranged ==> IdInRange(es[i])
  {
    var used: set<int>, addresses: set<Address> := {}, {};
    for n := 0 to |es|
      invariant AuditedTo(es, ranged, n, used, addresses)
    {
      AuditOne(es, ranged, n, used, addresses);
      if !Good(es[n], n < ranged, used, addresses) { return false; }
      used, addresses := used + Ids(es[n]), addresses + {es[n].addr};
    }
    ok := true;
  }

  function ServiceEndpoints(c: Config, n: nat): (es: seq<Endpoint>)
    requires n <= |c.names| && forall m :: m in c.names ==> m in c.services
    ensures |es| == n
  {
    if n == 0 then [] else ServiceEndpoints(c, n - 1) + [c.services[c.names[n - 1]]]
  }

  function ClientEndpoints(cs: seq<ClientEntry>): (es: seq<Endpoint>) {
    seq(|cs|, i requires 0 <= i < |cs| => cs[i].at)
  }

  /** Services, then registered clients and nginx instances beyond the first. */
  function Endpoints(c: Config): (es: seq<Endpoint>)
    requires forall m :: m in c.names ==> m in c.services
    ensures |es| >= |c.names|
  {
    ServiceEndpoints(c, |c.names|)
    + (if c.clients == [] then [] else ClientEndpoints(c.clients[1..]))
    + (if c.nginx == [] then [] else c.nginx[1..])
  }

  datatype Request = Request(a: nat, b: nat, samples: nat, numaA: nat, numaB: nat, workload: Workload,
                             clients: nat, nginxCount: nat)

  predicate RequestOk(q: Request) {
    && (q.nginxCount == 1 || q.nginxCount == 3) && q.a != q.b && 1 <= q.samples <= 5000 && 1 <= q.clients <= 4
  }

  /** Nothing is missing that the planner reads. */
  predicate InputOk(o: Original, q: Request, ta: Topology, tb: Topology) {
    && Client in o.services && (q.nginxCount == 3 ==> Nginx in o.services)
    && q.numaA in ta.nodes && q.numaB in tb.nodes
  }

  ghost predicate SortedNodes(t: Topology) { forall n :: n in t.nodes ==> Sorted(t.nodes[n]) }

  /** Some family of disjoint usable windows is that large. */
  ghost predicate Enough(t: Topology, numa: nat, count: nat)
    requires numa in t.nodes
  {
    exists f :: Family(t.nodes[numa], t.allowed, f) && |f| >= count
  }

  /** A choice of blocks on the node, exactly if there is one. */
  method Blocks(t: Topology, numa: nat, count: nat) returns (r: Option<seq<nat>>)
    requires numa in t.nodes && count > 0
    ensures r.Some? <==> Enough(t, numa, count)
    ensures r.Some? ==> |r.value| == count && Chosen(t.nodes[numa], t.allowed, r.value)
  {
    r := Select(t.nodes[numa], t.allowed, count);
    if r.Some? { ChosenAreEnough(t, numa, r.value); }
  }

  /** The request can be met at all: what it asks for is allowed, present and available. */
  ghost predicate Feasible(o: Original, q: Request, ta: Topology, tb: Topology) {
    && RequestOk(q) && InputOk(o, q, ta, tb) && Enough(ta, q.numaA, q.clients + 1)
    && Enough(tb, q.numaB, if q.nginxCount == 3 then 5 else 3)
  }

  /** The plan is for this request. */
  ghost predicate Serves(p: Plan, q: Request) {
    p.a == q.a && p.b == q.b && p.workload == q.workload && p.clients == q.clients && p.nginxCount == q.nginxCount
  }

  /** Ports, identifiers and addresses of what the plan writes. */
  ghost predicate Audited(o: Original, p: Plan, numa: nat)
    requires WellFormed(o) && PlanOk(p) && Client in o.services && (p.nginxCount == 3 ==> Nginx in o.services)
  {
    var es := Endpoints(Generated(o, p, numa));
    PortsOk(o, p) && NoCollision(es) && forall i :: 0 <= i < |o.names| ==> IdInRange(es[i])
  }

  /** A plan for the request, exactly if there can be one. */
  method ChoosePlan(o: Original, q: Request, ta: Topology, tb: Topology) returns (p: Option<Plan>)
    requires WellFormed(o) && SortedNodes(ta) && SortedNodes(tb)
    ensures p.Some? <==> Feasible(o, q, ta, tb)
    ensures p.Some? ==> FromTopology(p.value, ta, tb, q.numaA, q.numaB) && Serves(p.value, q)
  {
    if !RequestOk(q) || !InputOk(o, q, ta, tb) { return None; }
    var aBlocks := Blocks(ta, q.numaA, q.clients + 1);
    var bBlocks := Blocks(tb, q.numaB, if q.nginxCount == 3 then 5 else 3);
    if aBlocks.None? || bBlocks.None? { return None; }
    p := Some(Plan(q.a, q.b, q.workload, q.clients, q.nginxCount, aBlocks.value, bBlocks.value));
  }

  method AuditPlan(o: Original, p: Plan, numa: nat) returns (ok: bool)
    requires WellFormed(o) && PlanOk(p) && Client in o.services && (p.nginxCount == 3 ==> Nginx in o.services)
    ensures ok <==> Audited(o, p, numa)
  {
    if !PortsOk(o, p) { return false; }
    var c := Generated(o, p, numa);
    ok := Audit(Endpoints(c), |c.names|);
  }

  /**
    The planner with CPU topologies.  It succeeds exactly if there are enough blocks and nothing collides;
    what it returns passes the checker on both hosts and in both modes if the input names the five services.
  */
  method Prepare(o: Original, q: Request, ta: Topology, tb: Topology) returns (r: Option<(Config, Config)>, ghost p: Plan)
    requires WellFormed(o) && SortedNodes(ta) && SortedNodes(tb)
    ensures Feasible(o, q, ta, tb) ==> FromTopology(p, ta, tb, q.numaA, q.numaB) && Serves(p, q)
    ensures r.Some? <==> Feasible(o, q, ta, tb) && Audited(o, p, q.numaA)
    ensures r.Some? ==> r.value == (Generated(o, p, q.numaA), Generated(o, p, q.numaB))
    ensures r.Some? ==> NoCollision(Endpoints(r.value.0)) && NoCollision(Endpoints(r.value.1))
    ensures r.Some? ==> forall domain: bool ::
      && (Passes(r.value.0, ta, true, domain) <==> Complete(o, q.workload))
      && (Passes(r.value.1, tb, false, domain) <==> Complete(o, q.workload))
      && (Preflight(r.value.0, ta, true, domain) <==> Complete(o, q.workload) && (q.clients == 1 ==> o.clientId.Some?))
      && (Preflight(r.value.1, tb, false, domain) <==> Complete(o, q.workload))
  {
    var plan := ChoosePlan(o, q, ta, tb);
    p := if plan.Some? then plan.value else SMALL_PLAN;
    if plan.None? { return None, p; }
    var ok := AuditPlan(o, plan.value, q.numaA);
    if !ok { return None, p; }
    var ca, cb := Generated(o, plan.value, q.numaA), Generated(o, plan.value, q.numaB);
    assert Endpoints(ca) == Endpoints(cb) by { SameServices(ca, cb, |ca.names|); }
    r := Some((ca, cb));
    forall domain: bool
      ensures Passes(ca, ta, true, domain) <==> Complete(o, q.workload)
      ensures Passes(cb, tb, false, domain) <==> Complete(o, q.workload)
      ensures Preflight(ca, ta, true, domain) <==> Complete(o, q.workload) && (q.clients == 1 ==> o.clientId.Some?)
      ensures Preflight(cb, tb, false, domain) <==> Complete(o, q.workload)
    {
      VerdictsOn(o, plan.value, ta, tb, q.numaA, q.numaB, domain);
    }
  }

  lemma VerdictsOn(o: Original, p: Plan, ta: Topology, tb: Topology, numaA: nat, numaB: nat, domain: bool)
    requires WellFormed(o) && FromTopology(p, ta, tb, numaA, numaB)
    requires Client in o.services && (p.nginxCount == 3 ==> Nginx in o.services)
    ensures Passes(Generated(o, p, numaA), ta, true, domain) <==> Complete(o, p.workload)
    ensures Passes(Generated(o, p, numaB), tb, false, domain) <==> Complete(o, p.workload)
    ensures Preflight(Generated(o, p, numaA), ta, true, domain) <==> Complete(o, p.workload) && (p.clients == 1 ==> o.clientId.Some?)
    ensures Preflight(Generated(o, p, numaB), tb, false, domain) <==> Complete(o, p.workload)
  {
    GeneratedPassesIff(o, p, ta, tb, numaA, numaB, true, domain);
    GeneratedPassesIff(o, p, ta, tb, numaA, numaB, false, domain);
    PreflightIff(o, p, ta, tb, numaA, numaB, true, domain);
    PreflightIff(o, p, ta, tb, numaA, numaB, false, domain);
  }

  // ---- inputs on which planner and preflight disagree ----

  /** Nine CPUs on one node, all allowed. */
  function NineCpus(): (t: Topology) { Topology(map[0 := seq(9, i => i)], {0, 1, 2, 3, 4, 5, 6, 7, 8}) }

  const SMALL_PLAN: Plan := Plan(1, 2, User, 1, 1, [0, 3], [0, 3, 6])
  const SMALL_REQUEST: Request := Request(1, 2, 10, 0, 0, User, 1, 1)

  lemma PlanFits(p: Plan, t: Topology, numa: nat)
    requires PlanOk(p) && numa in t.nodes && Sorted(t.nodes[numa])
    requires Chosen(t.nodes[numa], t.allowed, p.aBlocks) && Chosen(t.nodes[numa], t.allowed, p.bBlocks)
    ensures FromTopology(p, t, t, numa, numa) && Enough(t, numa, |p.aBlocks|) && Enough(t, numa, |p.bBlocks|)
  {
    ChosenAreEnough(t, numa, p.aBlocks);
    ChosenAreEnough(t, numa, p.bBlocks);
  }

  lemma SmallPlanFits()
    ensures FromTopology(SMALL_PLAN, NineCpus(), NineCpus(), 0, 0)
    ensures Enough(NineCpus(), 0, |SMALL_PLAN.aBlocks|) && Enough(NineCpus(), 0, |SMALL_PLAN.bBlocks|)
  {
    PlanFits(SMALL_PLAN, NineCpus(), 0);
  }

  lemma ChosenAreEnough(t: Topology, numa: nat, blocks: seq<nat>)
    requires numa in t.nodes && Chosen(t.nodes[numa], t.allowed, blocks)
    ensures Enough(t, numa, |blocks|)
  {
    ChosenIsFamily(t.nodes[numa], t.allowed, blocks);
    assert Family(t.nodes[numa], t.allowed, Bases(blocks));
  }

  /** An input that names only the client is planned by `prepare` and refused by the preflight on either side. */
  lemma MissingServiceSlipsThrough(e: Endpoint, id: Option<nat>, onA: bool, domain: bool)
    requires 1 <= e.addr.port <= 65535 && IdInRange(e)
    ensures var o := Original([Client], map[Client := e], id);
      && WellFormed(o) && Feasible(o, SMALL_REQUEST, NineCpus(), NineCpus()) && Audited(o, SMALL_PLAN, 0)
      && FromTopology(SMALL_PLAN, NineCpus(), NineCpus(), 0, 0) && Serves(SMALL_PLAN, SMALL_REQUEST)
      && !Passes(Generated(o, SMALL_PLAN, 0), NineCpus(), onA, domain)
  {
    var o := Original([Client], map[Client := e], id);
    SmallPlanFits();
    GeneratedPassesIff(o, SMALL_PLAN, NineCpus(), NineCpus(), 0, 0, onA, domain);
    var c := Generated(o, SMALL_PLAN, 0);
    assert ServiceEndpoints(c, 0) == [];
    assert Endpoints(c) == [c.services[Client]];
  }

  const FIVE: seq<Name> := [Client, Nginx, LoadBalance, PostStorage, UserTimeline]

  function Rank(n: Name): (k: nat) {
    match n
    case Client => 0
    case Nginx => 1
    case LoadBalance => 2
    case PostStorage => 3
    case _ => 4
  }

  /** The five services of the user workload, each with its own port and identifier; the client has no id. */
  function FiveServices(): (o: Original) {
    Original(FIVE, map n | n in FIVE :: Endpoint(Address(0, 31850 + Rank(n)), Rank(n), 0), None)
  }

  /** The input numbers its services. */
  ghost predicate InputNumbered(o: Original) {
    && WellFormed(o) && |o.names| <= 20
    && forall i :: 0 <= i < |o.names| ==>
         o.services[o.names[i]].rpcId == i && o.services[o.names[i]].addr.port == 31850 + i
  }

  lemma FiveServicesNumbered()
    ensures InputNumbered(FiveServices()) && Complete(FiveServices(), User)
  {
    assert FIVE[0] == Client && FIVE[1] == Nginx && FIVE[2] == LoadBalance && FIVE[3] == PostStorage && FIVE[4] == UserTimeline;
  }

  /** Services numbered from zero, each with its own port, and nothing registered besides. */
  ghost predicate Numbered(c: Config) {
    && (forall m :: m in c.names ==> m in c.services) && |c.names| <= 20 && c.clients == [] && c.nginx == []
    && forall i :: 0 <= i < |c.names| ==> c.services[c.names[i]].rpcId == i && c.services[c.names[i]].addr.port == 31850 + i
  }

  lemma {:induction false} NumberedEndpoints(c: Config, n: nat)
    requires Numbered(c) && n <= |c.names|
    ensures forall i :: 0 <= i < n ==>
      ServiceEndpoints(c, n)[i].rpcId == i && ServiceEndpoints(c, n)[i].addr.port == 31850 + i
  {
    if n > 0 { NumberedEndpoints(c, n - 1); }
  }

  lemma NumberedIsClean(c: Config)
    requires Numbered(c)
    ensures NoCollision(Endpoints(c)) && forall i :: 0 <= i < |c.names| ==> IdInRange(Endpoints(c)[i])
  {
    var es := Endpoints(c);
    NumberedEndpoints(c, |c.names|);
    assert es == ServiceEndpoints(c, |c.names|);
    forall j | 0 <= j < |es| ensures Alone(es, j) {
      forall i | 0 <= i < j ensures Ids(es[i]) !! Ids(es[j]) && es[i].addr != es[j].addr {
        assert es[i].rpcId == i && es[j].rpcId == j;
      }
    }
  }

  lemma PlanKeepsNumbers(o: Original, p: Plan, numa: nat)
    requires InputNumbered(o) && PlanOk(p) && Client in o.services && p.clients == 1 && p.nginxCount == 1
    ensures Numbered(Generated(o, p, numa)) && PortsOk(o, p)
  {
    forall n | n in o.services ensures 1 <= o.services[n].addr.port <= 65535 {
      var i :| 0 <= i < |o.names| && o.names[i] == n;
    }
  }

  /** A lone client without an id: planned, good on roles and CPUs, and refused by the preflight on its own side. */
  lemma LoneClientIsRefused(domain: bool)
    ensures InputNumbered(FiveServices()) && Complete(FiveServices(), User)
    ensures Feasible(FiveServices(), SMALL_REQUEST, NineCpus(), NineCpus()) && Audited(FiveServices(), SMALL_PLAN, 0)
    ensures FromTopology(SMALL_PLAN, NineCpus(), NineCpus(), 0, 0) && Serves(SMALL_PLAN, SMALL_REQUEST)
    ensures var c := Generated(FiveServices(), SMALL_PLAN, 0);
      Passes(c, NineCpus(), true, domain) && !Preflight(c, NineCpus(), true, domain)
  {
    SmallPlanFits();
    FiveServicesNumbered();
    VerdictsOn(FiveServices(), SMALL_PLAN, NineCpus(), NineCpus(), 0, 0, domain);
    PlanKeepsNumbers(FiveServices(), SMALL_PLAN, 0);
    NumberedIsClean(Generated(FiveServices(), SMALL_PLAN, 0));
  }

  lemma {:induction false} SameServices(c: Config, d: Config, n: nat)
    requires c.names == d.names && c.services == d.services && n <= |c.names|
    requires forall m :: m in c.names ==> m in c.services
    ensures ServiceEndpoints(c, n) == ServiceEndpoints(d, n)
  {
    if n > 0 { SameServices(c, d, n - 1); }
  }
}
