/** What the planner's audit lets through: which numbers a plan hands out, and that ordinary inputs pass. */
module PlannerAudit {
  import opened Common
  import opened CpuBlocks
  import opened Planner

  // ---- the numbers of registered clients and nginx instances ----

  /** Clients beyond the first take ports and identifiers from ten on, nginx instances beyond the first from 18 and 16 on. */
  lemma RegisteredNumbers(o: Original, p: Plan, numa: nat, i: nat)
    requires WellFormed(o) && PlanOk(p) && Client in o.services && (p.nginxCount == 3 ==> Nginx in o.services)
    ensures var c, client := Generated(o, p, numa), o.services[Client];
      && (p.clients > 1 && i < p.clients ==>
            && |c.clients| == p.clients && c.clients[i].id == i + 1
            && c.clients[i].at.addr == Address(p.a, if i == 0 then client.addr.port else client.addr.port + 9 + i)
            && c.clients[i].at.rpcId == (if i == 0 then client.rpcId else 10 + i)
            && c.clients[i].at.offset == p.aBlocks[i])
      && (p.nginxCount == 3 && i < 3 ==>
            && |c.nginx| == 3
            && c.nginx[i].addr == Address(p.b, if i == 0 then o.services[Nginx].addr.port else o.services[Nginx].addr.port + 17 + i)
            && c.nginx[i].rpcId == (if i == 0 then o.services[Nginx].rpcId else 15 + i)
            && c.nginx[i].offset == p.bBlocks[if i == 0 then 0 else i + 2])
  {
  }

  lemma {:induction false} ServiceAt(c: Config, n: nat, i: nat)
    requires n <= |c.names| && i < n && forall m :: m in c.names ==> m in c.services
    ensures ServiceEndpoints(c, n)[i] == c.services[c.names[i]]
  {
    if i < n - 1 { ServiceAt(c, n - 1, i); }
  }

  function Further(k: nat): (n: nat) { if k == 0 then 0 else k - 1 }

  /** Services come first, then clients and then nginx instances beyond the first. */
  lemma EndpointAt(c: Config, i: nat)
    requires (forall m :: m in c.names ==> m in c.services) && i < |Endpoints(c)|
    ensures |Endpoints(c)| == |c.names| + Further(|c.clients|) + Further(|c.nginx|)
    ensures var n, m := |c.names|, Further(|c.clients|);
      Endpoints(c)[i] == if i < n then c.services[c.names[i]]
                         else if i < n + m then c.clients[i - n + 1].at else c.nginx[i - n - m + 1]
  {
    if i < |c.names| { ServiceAt(c, |c.names|, i); }
  }

  /** An endpoint of a plan, by its place in the audit. */
  lemma EndpointIs(o: Original, p: Plan, numa: nat, i: nat)
    requires WellFormed(o) && PlanOk(p) && Client in o.services && (p.nginxCount == 3 ==> Nginx in o.services)
    requires i < |Endpoints(Generated(o, p, numa))|
    ensures var es, n, m := Endpoints(Generated(o, p, numa)), |o.names|, p.clients - 1;
      && |es| == n + m + (if p.nginxCount == 3 then 2 else 0)
      && (i < n ==> es[i].rpcId == o.services[o.names[i]].rpcId && es[i].addr.port == o.services[o.names[i]].addr.port)
      && (n <= i < n + m ==> es[i].rpcId == 11 + i - n && es[i].addr == Address(p.a, o.services[Client].addr.port + 10 + i - n))
      && (n + m <= i ==> p.nginxCount == 3 && es[i].rpcId == 16 + i - n - m
                         && es[i].addr == Address(p.b, o.services[Nginx].addr.port + 18 + i - n - m))
  {
    var c, n, m := Generated(o, p, numa), |o.names|, p.clients - 1;
    EndpointAt(c, i);
    if n <= i < n + m { RegisteredNumbers(o, p, numa, i - n + 1); }
    if n + m <= i { RegisteredNumbers(o, p, numa, i - n - m + 1); }
  }

  /** Every endpoint of a plan that the planner lets through has a port that exists. */
  lemma PortsExist(o: Original, p: Plan, numa: nat, i: nat)
    requires WellFormed(o) && PlanOk(p) && Client in o.services && (p.nginxCount == 3 ==> Nginx in o.services)
    requires PortsOk(o, p) && i < |Endpoints(Generated(o, p, numa))|
    ensures 1 <= Endpoints(Generated(o, p, numa))[i].addr.port <= 65535
  {
    EndpointIs(o, p, numa, i);
  }

  // ---- ordinary inputs pass ----

  /** Up to ten services, numbered from zero, each with its own port. */
  ghost predicate Ordinary(o: Original) { InputNumbered(o) && |o.names| <= 10 && Client in o.services && Nginx in o.services }

  /** The endpoints of a plan for an ordinary input, one by one. */
  ghost predicate Laid(es: seq<Endpoint>, n: nat, m: nat, p: Plan, clientPort: nat, nginxPort: nat) {
    && n <= 10 && 31850 <= clientPort < 31850 + n && 31850 <= nginxPort < 31850 + n && n + m <= |es| <= n + m + 2 && m <= 3
    && (forall i :: 0 <= i < n ==> es[i].rpcId == i && es[i].addr.port == 31850 + i)
    && (forall i :: n <= i < n + m ==> es[i].rpcId == 11 + i - n && es[i].addr == Address(p.a, clientPort + 10 + i - n))
    && (forall i :: n + m <= i < |es| ==> es[i].rpcId == 16 + i - n - m && es[i].addr == Address(p.b, nginxPort + 18 + i - n - m))
  }

  lemma LaidIsClean(es: seq<Endpoint>, n: nat, m: nat, p: Plan, clientPort: nat, nginxPort: nat)
    requires Laid(es, n, m, p, clientPort, nginxPort) && p.a != p.b
    ensures NoCollision(es) && forall i :: 0 <= i < n ==> IdInRange(es[i])
  {
    forall j | 0 <= j < |es| ensures Alone(es, j) {
      forall i | 0 <= i < j ensures Ids(es[i]) !! Ids(es[j]) && es[i].addr != es[j].addr {
        assert 0 <= es[i].rpcId < es[j].rpcId < 20;
      }
    }
  }

  lemma PlanIsLaid(o: Original, p: Plan, numa: nat)
    requires Ordinary(o) && PlanOk(p)
    ensures Laid(Endpoints(Generated(o, p, numa)), |o.names|, p.clients - 1, p,
                 o.services[Client].addr.port, o.services[Nginx].addr.port)
  {
    var es, n, m := Endpoints(Generated(o, p, numa)), |o.names|, p.clients - 1;
    OwnPorts(o);
    EndpointIs(o, p, numa, 0);
    forall i | 0 <= i < |es|
      ensures i < n ==> es[i].rpcId == i && es[i].addr.port == 31850 + i
      ensures n <= i < n + m ==>
        es[i].rpcId == 11 + i - n && es[i].addr == Address(p.a, o.services[Client].addr.port + 10 + i - n)
      ensures n + m <= i ==>
        es[i].rpcId == 16 + i - n - m && es[i].addr == Address(p.b, o.services[Nginx].addr.port + 18 + i - n - m)
    {
      EndpointIs(o, p, numa, i);
    }
  }

  lemma OwnPorts(o: Original)
    requires Ordinary(o)
    ensures forall s :: s in o.services ==> 31850 <= o.services[s].addr.port < 31850 + |o.names|
  {
    forall s | s in o.services ensures 31850 <= o.services[s].addr.port < 31850 + |o.names| {
      var i :| 0 <= i < |o.names| && o.names[i] == s;
    }
  }

  /** Whatever number of clients and instances is asked for, an ordinary input passes the audit. */
  lemma OrdinaryInputIsAudited(o: Original, p: Plan, numa: nat)
    requires Ordinary(o) && PlanOk(p)
    ensures Audited(o, p, numa)
  {
    PlanIsLaid(o, p, numa);
    LaidIsClean(Endpoints(Generated(o, p, numa)), |o.names|, p.clients - 1, p, o.services[Client].addr.port, o.services[Nginx].addr.port);
    OwnPorts(o);
  }

  // ---- what the checker and the planner insist on ----

  /** A configuration, however it came about, in which both hosts are different and every role is on its side. */
  ghost predicate RolesPlaced(c: Config) {
    && (forall n :: n in {Client, Nginx, LoadBalance, PostStorage} ==> n in c.services)
    && (c.userNum, c.homeNum, c.writeNum) in {(1, 0, 0), (0, 1, 0)}
    && var timeline := if c.homeNum == 1 then HomeTimeline else UserTimeline;
       && timeline in c.services
       && var a, b := c.services[Client].addr.host, c.services[Nginx].addr.host;
          && a != b && c.services[timeline].addr.host == a
          && c.services[LoadBalance].addr.host == b && c.services[PostStorage].addr.host == b
          && (forall i :: 0 <= i < |c.clients| ==> c.clients[i].id == i + 1 && c.clients[i].at.addr.host == a)
          && |c.clients| <= 4
          && (c.clients != [] ==> c.clients[0].at.addr == c.services[Client].addr && c.clients[0].at.rpcId == c.services[Client].rpcId)
  }

  lemma ServicesForIff(c: Config, onA: bool, domain: bool)
    ensures ServicesFor(c, onA, domain).Some? <==> RolesPlaced(c)
  {
  }

  /** What can be planned at all. */
  lemma FeasibleMeans(o: Original, q: Request, ta: Topology, tb: Topology)
    requires Feasible(o, q, ta, tb)
    ensures q.a != q.b && 1 <= q.samples <= 5000 && 1 <= q.clients <= 4 && q.nginxCount in {1, 3} && Client in o.services
  {
  }
}
