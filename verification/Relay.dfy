/** The relay address taken from a Kubernetes service (`KubernetesExternalIPResolver.GetRelayIP`). */
module Relay {
  import opened Wrappers

  /** An IPv4 address (plain or mapped) or a proper IPv6 one. */
  datatype IP = V4(a: int) | V6(b: int)

  /** An ingress entry with an address or else with a host name. */
  datatype Ingress = Ingress(ip: string, hostname: string)

  /** What `GetService` answers. */
  datatype Service = Unavailable | Service(loadBalancerIP: string, ingress: seq<Ingress>)

  /** The parts of the standard library the resolver calls: parsing, printing and resolving. */
  datatype Net = Net(parse: string -> Option<IP>, print4: int -> string, lookup: string -> Option<seq<IP>>)

  function V4Strings(net: Net, ips: seq<IP>): seq<string> {
    if ips == [] then []
    else V4Strings(net, ips[..|ips| - 1]) + if ips[|ips| - 1].V4? then [net.print4(ips[|ips| - 1].a)] else []
  }

  function CandidatesOf(net: Net, i: Ingress): seq<string> {
    if i.ip != "" then [i.ip]
    else if i.hostname != "" && net.lookup(i.hostname).Some? then V4Strings(net, net.lookup(i.hostname).value)
    else []
  }

  /** The external addresses a service lists, in order. */
  function Candidates(net: Net, ingress: seq<Ingress>): seq<string> {
    if ingress == [] then []
    else Candidates(net, ingress[..|ingress| - 1]) + CandidatesOf(net, ingress[|ingress| - 1])
  }

  /** The address of a service, if it has exactly one: the load balancer's, or else the only candidate. */
  function AddressOf(net: Net, s: Service): Option<IP> {
    match s
    case Unavailable => None
    case Service(lb, ingress) =>
      if net.parse(lb).Some? then net.parse(lb)
      else
        var ips := Candidates(net, ingress);
        if |ips| == 1 then net.parse(ips[0]) else None
  }

  // ---------- usable addresses ----------

  /** How many IPv4 addresses a list holds. */
  function V4Count(ips: seq<IP>): nat {
    if ips == [] then 0 else V4Count(ips[..|ips| - 1]) + if ips[|ips| - 1].V4? then 1 else 0
  }

  /** How many addresses an ingress entry gives: one if it names one, or else the IPv4 addresses of its host name. */
  function Usable(net: Net, i: Ingress): nat {
    if i.ip != "" then 1
    else if i.hostname == "" then 0
    else match net.lookup(i.hostname)
         case None => 0
         case Some(ips) => V4Count(ips)
  }

  function UsableIn(net: Net, ingress: seq<Ingress>): nat {
    if ingress == [] then 0 else UsableIn(net, ingress[..|ingress| - 1]) + Usable(net, ingress[|ingress| - 1])
  }

  lemma {:induction false} V4Counted(net: Net, ips: seq<IP>)
    ensures |V4Strings(net, ips)| == V4Count(ips)
    ensures forall t | t in V4Strings(net, ips) :: exists ip :: ip in ips && ip.V4? && t == net.print4(ip.a)
  {
    if ips != [] { V4Counted(net, ips[..|ips| - 1]); }
  }

  /** Text t is an address that entry i names, or one of the IPv4 addresses of its host name. */
  ghost predicate Names(net: Net, i: Ingress, t: string) {
    if i.ip != "" then t == i.ip
    else net.lookup(i.hostname).Some? && exists ip :: ip in net.lookup(i.hostname).value && ip.V4? && t == net.print4(ip.a)
  }

  lemma {:induction false} CandidatesCounted(net: Net, ingress: seq<Ingress>)
    ensures |Candidates(net, ingress)| == UsableIn(net, ingress)
    ensures forall t | t in Candidates(net, ingress) :: exists i :: i in ingress && Names(net, i, t)
  {
    if ingress != [] {
      var front, last := ingress[..|ingress| - 1], ingress[|ingress| - 1];
      CandidatesCounted(net, front);
      if net.lookup(last.hostname).Some? { V4Counted(net, net.lookup(last.hostname).value); }
      forall t | t in Candidates(net, ingress) ensures exists i :: i in ingress && Names(net, i, t) {
        if t !in Candidates(net, front) { assert Names(net, last, t); }
      }
    }
  }

  /** The address of a service: that of its load balancer, or else of the one usable address of its ingress list. */
  ghost predicate Gives(net: Net, s: Service, a: IP) {
    && s.Service?
    && match net.parse(s.loadBalancerIP)
       case Some(ip) => a == ip
       case None => UsableIn(net, s.ingress) == 1 && exists i, t :: i in s.ingress && Names(net, i, t) && net.parse(t) == Some(a)
  }

  /** Without a load balancer address the lookup fails unless exactly one address is usable, and it parses. */
  lemma AddressIsTheOnlyOne(net: Net, s: Service)
    ensures AddressOf(net, s).Some? ==> Gives(net, s, AddressOf(net, s).value)
    ensures s.Service? && net.parse(s.loadBalancerIP).Some? ==> AddressOf(net, s) == net.parse(s.loadBalancerIP)
    ensures s.Service? && net.parse(s.loadBalancerIP).None? && UsableIn(net, s.ingress) != 1 ==> AddressOf(net, s).None?
    ensures s.Service? && net.parse(s.loadBalancerIP).None? && UsableIn(net, s.ingress) == 1 && AddressOf(net, s).None? ==>
              exists i, t :: i in s.ingress && Names(net, i, t) && net.parse(t).None?
  {
    if s.Service? && net.parse(s.loadBalancerIP).None? {
      CandidatesCounted(net, s.ingress);
      if UsableIn(net, s.ingress) == 1 {
        var t := Candidates(net, s.ingress)[0];
        assert t in Candidates(net, s.ingress);
        var i :| i in s.ingress && Names(net, i, t);
      }
    }
  }

  /** The text that `ip.To4().String()` gives, as far as it tells addresses apart: all but IPv4 give "<nil>". */
  function Text4(ip: Option<IP>): Option<int> {
    if ip.Some? && ip.value.V4? then Some(ip.value.a) else None
  }

  /** `last` after a successful lookup; the second branch compares with the load balancer's address, which is nil there. */
  function LastAfter(net: Net, last: Option<IP>, s: Service, found: IP): Option<IP> {
    if s.Service? && net.parse(s.loadBalancerIP).Some? then
      if last.None? || Text4(last) != Text4(Some(found)) then Some(found) else last
    else
      if last.None? || Text4(last).Some? then Some(found) else last
  }

  /** `last` after a sequence of lookups by a new resolver. */
  function LastOf(net: Net, services: seq<Service>): Option<IP> {
    if services == [] then None
    else
      var front, s := services[..|services| - 1], services[|services| - 1];
      match AddressOf(net, s)
      case None => LastOf(net, front)
      case Some(ip) => LastAfter(net, LastOf(net, front), s, ip)
  }

  class Resolver {
    var last: Option<IP>

    constructor ()
      ensures last == None
    {
      last := None;
    }

    /** Succeeds exactly when the service has one address, and otherwise falls back on `last`. */
    method GetRelayIP(net: Net, s: Service) returns (ip: Option<IP>, ok: bool)
      modifies this
      ensures ok <==> AddressOf(net, s).Some?
      ensures ok ==> ip == AddressOf(net, s) && last == LastAfter(net, old(last), s, ip.value)
      ensures !ok ==> ip == old(last) && last == old(last)
      ensures ok ==> ip.Some? && Gives(net, s, ip.value)
      ensures s.Service? && net.parse(s.loadBalancerIP).None? && UsableIn(net, s.ingress) != 1 ==> !ok
    {
      AddressIsTheOnlyOne(net, s);
      if s.Unavailable? {
        return last, false;
      }
      var lbip := net.parse(s.loadBalancerIP);
      if lbip.Some? {
        if last.None? || Text4(last) != Text4(lbip) {
          last := lbip;
        }
        return lbip, true;
      }
      var ips := [];
      for n := 0 to |s.ingress|
        invariant ips == Candidates(net, s.ingress[..n])
        invariant last == old(last)
      {
        var i := s.ingress[n];
        assert s.ingress[..n + 1][..n] == s.ingress[..n];
        if i.ip != "" {
          ips := ips + [i.ip];
        } else if i.hostname != "" {
          var tmp := net.lookup(i.hostname);
          if tmp.Some? {
            var more := Addresses(net, tmp.value);
            ips := ips + more;
          }
        }
      }
      assert s.ingress[..|s.ingress|] == s.ingress;
      if |ips| != 1 {
        return last, false;
      }
      var parsed := net.parse(ips[0]);
      if parsed.Some? {
        if last.None? || Text4(last) != Text4(lbip) {
          last := parsed;
        }
        return parsed, true;
      }
      return last, false;
    }

    static method Addresses(net: Net, ips: seq<IP>) returns (texts: seq<string>)
      ensures texts == V4Strings(net, ips)
    {
      texts := [];
      for n := 0 to |ips|
        invariant texts == V4Strings(net, ips[..n])
      {
        assert ips[..n + 1][..n] == ips[..n];
        if ips[n].V4? {
          texts := texts + [net.print4(ips[n].a)];
        }
      }
      assert ips[..|ips|] == ips;
    }

    /** The answers to a sequence of lookups. */
    method Resolve(net: Net, services: seq<Service>) returns (answers: seq<Option<IP>>)
      requires last == None
      modifies this
      ensures |answers| == |services| && last == LastOf(net, services)
      ensures forall n | 0 <= n < |services| ::
                answers[n] == if AddressOf(net, services[n]).Some? then AddressOf(net, services[n]) else LastOf(net, services[..n])
    {
      answers := [];
      for n := 0 to |services|
        invariant |answers| == n && last == LastOf(net, services[..n])
        invariant forall m | 0 <= m < n ::
                    answers[m] == if AddressOf(net, services[m]).Some? then AddressOf(net, services[m]) else LastOf(net, services[..m])
      {
        assert services[..n + 1][..n] == services[..n];
        var ip, ok := GetRelayIP(net, services[n]);
        answers := answers + [ip];
      }
      assert services[..|services|] == services;
    }
  }

  /** The address of the most recent successful lookup. */
  function MostRecent(net: Net, services: seq<Service>): Option<IP> {
    if services == [] then None
    else
      var found := AddressOf(net, services[|services| - 1]);
      if found.Some? then found else MostRecent(net, services[..|services| - 1])
  }

  /** The address comes from the load balancer field and not from the ingress list. */
  predicate FromLoadBalancer(net: Net, s: Service) {
    s.Service? && net.parse(s.loadBalancerIP).Some?
  }

  /**
   * A success after address `previous` does not get into `last`: `previous` is a different IPv6 address,
   * and the new one comes from the ingress list or is an IPv6 one as well.
   */
  predicate Sticks(net: Net, previous: Option<IP>, s: Service) {
    && previous.Some? && previous.value.V6?
    && AddressOf(net, s).Some? && AddressOf(net, s) != previous
    && (!FromLoadBalancer(net, s) || AddressOf(net, s).value.V6?)
  }

  ghost predicate NeverSticks(net: Net, services: seq<Service>) {
    forall n | 0 <= n < |services| :: !Sticks(net, MostRecent(net, services[..n]), services[n])
  }

  ghost predicate AlwaysCurrent(net: Net, services: seq<Service>) {
    forall n | 0 <= n <= |services| :: LastOf(net, services[..n]) == MostRecent(net, services[..n])
  }

  lemma LookupStep(net: Net, services: seq<Service>, n: nat)
    requires n < |services| && LastOf(net, services[..n]) == MostRecent(net, services[..n])
    ensures LastOf(net, services[..n + 1]) == MostRecent(net, services[..n + 1]) <==>
              !Sticks(net, MostRecent(net, services[..n]), services[n])
  {
    assert services[..n + 1][..n] == services[..n];
  }

  lemma {:induction false} CurrentUpTo(net: Net, services: seq<Service>, n: nat)
    requires NeverSticks(net, services) && n <= |services|
    ensures LastOf(net, services[..n]) == MostRecent(net, services[..n])
  {
    if n > 0 {
      CurrentUpTo(net, services, n - 1);
      LookupStep(net, services, n - 1);
    }
  }

  /**
   * Over any sequence of lookups `last` is at every point the address of the most recent success exactly
   * when no success is stuck behind an IPv6 address.
   */
  lemma AlwaysCurrentIff(net: Net, services: seq<Service>)
    ensures AlwaysCurrent(net, services) <==> NeverSticks(net, services)
  {
    if AlwaysCurrent(net, services) {
      forall n | 0 <= n < |services| ensures !Sticks(net, MostRecent(net, services[..n]), services[n]) {
        assert LastOf(net, services[..n + 1]) == MostRecent(net, services[..n + 1]);
        LookupStep(net, services, n);
      }
    }
    if NeverSticks(net, services) {
      forall n | 0 <= n <= |services| ensures LastOf(net, services[..n]) == MostRecent(net, services[..n]) {
        CurrentUpTo(net, services, n);
      }
    }
  }

  lemma {:induction false} MostRecentIsV4(net: Net, services: seq<Service>)
    requires forall i | 0 <= i < |services| && AddressOf(net, services[i]).Some? :: AddressOf(net, services[i]).value.V4?
    ensures MostRecent(net, services).Some? ==> MostRecent(net, services).value.V4?
  {
    if services != [] {
      var front := services[..|services| - 1];
      assert forall i | 0 <= i < |front| :: front[i] == services[i];
      MostRecentIsV4(net, front);
    }
  }

  /** While every address found is an IPv4 one, `last` is always the address of the most recent success. */
  lemma IPv4IsAlwaysCurrent(net: Net, services: seq<Service>)
    requires forall i | 0 <= i < |services| && AddressOf(net, services[i]).Some? :: AddressOf(net, services[i]).value.V4?
    ensures AlwaysCurrent(net, services)
  {
    forall n | 0 <= n < |services| ensures !Sticks(net, MostRecent(net, services[..n]), services[n]) {
      MostRecentIsV4(net, services[..n]);
    }
    AlwaysCurrentIff(net, services);
  }
}
