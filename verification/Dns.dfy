/**
  The DNS repair of a hosted domain (go-service/internal/service/manager.go): a list of
  record requests that any failure may cut off, with or without the effect of the
  request that failed.
 */
module Dns {
  datatype RecordType = A | AAAA | CNAME

  datatype Name = Name(fqdn: string, kind: RecordType)

  /** The record sets that are there; RFC 1034, section 3.6.2 wants a CNAME to stand alone. */
  type Zone = map<Name, seq<string>>

  datatype Request = Put(name: Name, values: seq<string>) | Delete(name: Name)

  /** How the requests of a call end: all answered, or cut off at one that may have been applied. */
  datatype Fate = Answered | CutAt(n: nat, applied: bool)

  function Alias(domain: string): string {
    "www." + domain
  }

  function Values(zone: Zone, name: Name): seq<string> {
    if name in zone then zone[name] else []
  }

  function Perform(zone: Zone, request: Request): Zone {
    match request
    case Put(name, values) => zone[name := values]
    case Delete(name) => zone - {name}
  }

  /** The requests that callDNSAPI makes after reading the two records. */
  function Requests(zone: Zone, domain: string, ip: string): seq<Request> {
    var alias := Alias(domain);
    (if Values(zone, Name(domain, A)) == [ip] then []
     else [Put(Name(domain, A), [ip]), Delete(Name(domain, AAAA))])
    + (if Values(zone, Name(alias, CNAME)) == [domain] then []
       else [Delete(Name(alias, A)), Delete(Name(alias, AAAA)), Put(Name(alias, CNAME), [domain])])
  }

  /** The zone after the first n requests. */
  function After(zone: Zone, requests: seq<Request>, n: nat): Zone
    requires n <= |requests|
  {
    if n == 0 then zone else Perform(After(zone, requests, n - 1), requests[n - 1])
  }

  predicate Completes(requests: seq<Request>, fate: Fate) {
    fate.Answered? || fate.n >= |requests|
  }

  /** How many requests were performed. */
  function Performed(requests: seq<Request>, fate: Fate): (n: nat)
    ensures n <= |requests|
  {
    if Completes(requests, fate) then |requests| else if fate.applied then fate.n + 1 else fate.n
  }

  function Outcome(zone: Zone, requests: seq<Request>, fate: Fate): Zone {
    After(zone, requests, Performed(requests, fate))
  }

  // --------------------------------------------------------- never beside a CNAME

  predicate HasData(zone: Zone, name: Name) {
    name in zone && zone[name] != []
  }

  /** No address data beside a CNAME at this name. */
  predicate Alone(zone: Zone, fqdn: string) {
    HasData(zone, Name(fqdn, CNAME)) ==> !HasData(zone, Name(fqdn, A)) && !HasData(zone, Name(fqdn, AAAA))
  }

  lemma AliasDiffers(domain: string)
    ensures Alias(domain) != domain
  {
    assert |Alias(domain)| == |domain| + 4;
  }

  /** Wherever the requests are cut off, the alias keeps or gets its CNAME only once the addresses are gone. */
  lemma CutRequestsKeepAlone(zone: Zone, domain: string, ip: string, n: nat, fqdn: string)
    requires n <= |Requests(zone, domain, ip)| && Alone(zone, fqdn) && fqdn != domain
    ensures Alone(After(zone, Requests(zone, domain, ip), n), fqdn)
  {
    var requests := Requests(zone, domain, ip);
    AliasDiffers(domain);
    var apex := if Values(zone, Name(domain, A)) == [ip] then 0 else 2;
    ApexRequestsLeaveOthers(zone, domain, ip, if n <= apex then n else apex, fqdn);
    if n > apex {
      AliasRequestsKeepAlone(zone, domain, ip, n, fqdn);
    }
  }

  lemma ApexRequestsLeaveOthers(zone: Zone, domain: string, ip: string, n: nat, fqdn: string)
    requires n <= (if Values(zone, Name(domain, A)) == [ip] then 0 else 2) && fqdn != domain
    ensures n <= |Requests(zone, domain, ip)|
    ensures
      forall kind ::
        Values(After(zone, Requests(zone, domain, ip), n), Name(fqdn, kind)) == Values(zone, Name(fqdn, kind))
  {
    var requests := Requests(zone, domain, ip);
    if n > 0 {
      assert After(zone, requests, 1) == Perform(zone, requests[0]);
    }
  }

  /** The three steps at the alias, in their order. */
  lemma AliasStepsKeepAlone(zone: Zone, alias: string, domain: string, fqdn: string)
    requires Alone(zone, fqdn)
    ensures Alone(zone - {Name(alias, A)}, fqdn)
    ensures Alone(zone - {Name(alias, A)} - {Name(alias, AAAA)}, fqdn)
    ensures Alone((zone - {Name(alias, A)} - {Name(alias, AAAA)})[Name(alias, CNAME) := [domain]], fqdn)
  {
  }

  lemma AliasRequestsKeepAlone(zone: Zone, domain: string, ip: string, n: nat, fqdn: string)
    requires
      var apex: nat := if Values(zone, Name(domain, A)) == [ip] then 0 else 2;
      apex < n <= |Requests(zone, domain, ip)| && Alone(After(zone, Requests(zone, domain, ip), apex), fqdn)
    ensures Alone(After(zone, Requests(zone, domain, ip), n), fqdn)
  {
    var requests := Requests(zone, domain, ip);
    var apex: nat := if Values(zone, Name(domain, A)) == [ip] then 0 else 2;
    var alias := Alias(domain);
    AfterAlias(zone, requests, apex, alias, domain);
    AliasStepsKeepAlone(After(zone, requests, apex), alias, domain, fqdn);
  }

  /** The zone after one, two and three of the requests at the alias. */
  lemma AfterAlias(zone: Zone, requests: seq<Request>, apex: nat, alias: string, domain: string)
    requires |requests| == apex + 3
    requires requests[apex..] == [Delete(Name(alias, A)), Delete(Name(alias, AAAA)), Put(Name(alias, CNAME), [domain])]
    ensures
      var z := After(zone, requests, apex);
      && After(zone, requests, apex + 1) == z - {Name(alias, A)}
      && After(zone, requests, apex + 2) == z - {Name(alias, A)} - {Name(alias, AAAA)}
      && After(zone, requests, apex + 3) == (z - {Name(alias, A)} - {Name(alias, AAAA)})[Name(alias, CNAME) := [domain]]
  {
    assert forall i :: 0 <= i < 3 ==> requests[apex + i] == requests[apex..][i];
    assert requests[apex] == Delete(Name(alias, A));
    assert requests[apex + 1] == Delete(Name(alias, AAAA));
    assert requests[apex + 2] == Put(Name(alias, CNAME), [domain]);
  }

  // ------------------------------------------------------------------ what a call ends in

  /** A call that reads both records and is not cut off leaves exactly the two wanted records. */
  lemma CompleteCallRepairs(zone: Zone, domain: string, ip: string)
    ensures
      var requests := Requests(zone, domain, ip);
      var n := After(zone, requests, |requests|);
      && Values(n, Name(domain, A)) == [ip] && Values(n, Name(Alias(domain), CNAME)) == [domain]
      && (Values(zone, Name(Alias(domain), CNAME)) != [domain] ==> Alone(n, Alias(domain)))
      && Requests(n, domain, ip) == []
  {
    var requests := Requests(zone, domain, ip);
    AliasDiffers(domain);
    var apex: nat := if Values(zone, Name(domain, A)) == [ip] then 0 else 2;
    var z0 := After(zone, requests, apex);
    if apex == 2 {
      assert After(zone, requests, 1) == Perform(zone, requests[0]);
    }
    assert Values(z0, Name(domain, A)) == [ip];
    if |requests| > apex {
      AfterAlias(zone, requests, apex, Alias(domain), domain);
    }
  }

  /**
    The exact case in which a call cut off at its n-th request, and then a complete one,
    leave old AAAA data at the apex: the new A record was written, its partner not deleted.
   */
  lemma OldAaaaSurvivesIff(zone: Zone, domain: string, ip: string, fate: Fate)
    requires HasData(zone, Name(domain, AAAA)) && Values(zone, Name(domain, A)) != [ip] && !fate.Answered?
    ensures
      var z1 := Outcome(zone, Requests(zone, domain, ip), fate);
      var again := Requests(z1, domain, ip);
      HasData(After(z1, again, |again|), Name(domain, AAAA)) <==> fate.n == (if fate.applied then 0 else 1)
  {
    AliasDiffers(domain);
    var requests := Requests(zone, domain, ip);
    var z1 := Outcome(zone, requests, fate);
    ApexAfter(zone, domain, ip, Performed(requests, fate));
    ApexAfter(z1, domain, ip, |Requests(z1, domain, ip)|);
  }

  /** The apex after the first n requests of a call. */
  lemma {:induction false} ApexAfter(zone: Zone, domain: string, ip: string, n: nat)
    requires n <= |Requests(zone, domain, ip)|
    ensures
      var matches := Values(zone, Name(domain, A)) == [ip];
      var z := After(zone, Requests(zone, domain, ip), n);
      && Values(z, Name(domain, A)) == (if matches || n == 0 then Values(zone, Name(domain, A)) else [ip])
      && HasData(z, Name(domain, AAAA)) == (HasData(zone, Name(domain, AAAA)) && (matches || n < 2))
  {
    AliasDiffers(domain);
    if n > 0 {
      ApexAfter(zone, domain, ip, n - 1);
    }
  }

  /** No other name is touched, wherever a repair is cut off. */
  lemma {:induction false} RepairsStayInTheDomain(zone: Zone, domain: string, ip: string, n: nat)
    requires n <= |Requests(zone, domain, ip)|
    ensures forall name: Name :: name.fqdn != domain && name.fqdn != "www." + domain ==>
              Values(After(zone, Requests(zone, domain, ip), n), name) == Values(zone, name)
  {
    if n > 0 {
      RepairsStayInTheDomain(zone, domain, ip, n - 1);
    }
  }

  /** A complete repair of the alias leaves it no address. */
  lemma AliasesGo(zone: Zone, domain: string, ip: string)
    ensures
      var requests := Requests(zone, domain, ip);
      Values(zone, Name("www." + domain, CNAME)) != [domain] ==>
        && !HasData(After(zone, requests, |requests|), Name("www." + domain, A))
        && !HasData(After(zone, requests, |requests|), Name("www." + domain, AAAA))
  {
    if Values(zone, Name("www." + domain, CNAME)) != [domain] {
      AfterAlias(zone, Requests(zone, domain, ip), |Requests(zone, domain, ip)| - 3, "www." + domain, domain);
    }
  }

  // ------------------------------------------------------------------------- clean-up

  function Without(values: seq<string>, ip: string): (r: seq<string>)
    ensures |r| <= |values|
    ensures forall v :: v in r <==> v in values && v != ip
    ensures forall v :: multiset(r)[v] == if v == ip then 0 else multiset(values)[v]
    ensures |r| == |values| ==> r == values
  {
    if values == [] then []
    else
      var rest := Without(values[..|values| - 1], ip);
      var last := values[|values| - 1];
      assert values == values[..|values| - 1] + [last];
      if last == ip then rest else rest + [last]
  }

  /**
    The requests of cleanupOldDNS: the old address goes, other addresses stay, the old
    alias goes if its record can be read.
   */
  function CleanupRequests(zone: Zone, domain: string, ip: string, aliasReadable: bool): seq<Request> {
    var values := Values(zone, Name(domain, A));
    var remaining := Without(values, ip);
    (if |remaining| == |values| then []
     else if remaining == [] then [Delete(Name(domain, A))]
     else [Put(Name(domain, A), remaining)])
    + (if !aliasReadable || Values(zone, Name(Alias(domain), CNAME)) == [] then []
       else [Delete(Name(Alias(domain), CNAME))])
  }

  /** A clean-up only takes away, wherever it is cut off. */
  lemma {:induction false} CleanupOnlyRemoves(
    zone: Zone, domain: string, ip: string, aliasReadable: bool, n: nat, name: Name)
    requires n <= |CleanupRequests(zone, domain, ip, aliasReadable)|
    ensures
      var z := After(zone, CleanupRequests(zone, domain, ip, aliasReadable), n);
      && (forall v :: v in Values(z, name) ==> v in Values(zone, name))
      && (forall v :: v in Values(zone, name) && v !in Values(z, name) ==>
            name == Name(Alias(domain), CNAME) || (name == Name(domain, A) && v == ip))
      && (HasData(z, name) ==> HasData(zone, name))
  {
    var requests := CleanupRequests(zone, domain, ip, aliasReadable);
    if n > 0 {
      CleanupOnlyRemoves(zone, domain, ip, aliasReadable, n - 1, name);
      assert n == 2 ==> After(zone, requests, 1) == Perform(zone, requests[0]);
    }
  }

  lemma CompleteCleanupCleans(zone: Zone, domain: string, ip: string, aliasReadable: bool)
    ensures
      var requests := CleanupRequests(zone, domain, ip, aliasReadable);
      var z := After(zone, requests, |requests|);
      && Values(z, Name(domain, A)) == Without(Values(zone, Name(domain, A)), ip)
      && Values(z, Name("www." + domain, CNAME)) ==
           if aliasReadable then [] else Values(zone, Name("www." + domain, CNAME))
  {
    var requests := CleanupRequests(zone, domain, ip, aliasReadable);
    if |requests| == 2 {
      assert After(zone, requests, 1) == Perform(zone, requests[0]);
    }
  }

  // -------------------------------------------------------------------- whole histories

  /** One call: its domain, its address, whether its reads are answered, and the fate of its requests. */
  datatype Call =
    | Repair(domain: string, ip: string, readable: bool, fate: Fate)
    | Cleanup(domain: string, ip: string, readable: bool, aliasReadable: bool, fate: Fate)

  function CallRequests(zone: Zone, c: Call): seq<Request> {
    match c
    case Repair(domain, ip, _, _) => Requests(zone, domain, ip)
    case Cleanup(domain, ip, _, aliasReadable, _) => CleanupRequests(zone, domain, ip, aliasReadable)
  }

  function Made(zone: Zone, c: Call): Zone {
    if !c.readable then zone
    else Outcome(zone, CallRequests(zone, c), c.fate)
  }

  function MadeAll(zone: Zone, calls: seq<Call>): Zone
    decreases |calls|
  {
    if calls == [] then zone else MadeAll(Made(zone, calls[0]), calls[1..])
  }

  /**
    Whatever calls are made, for whatever domains and however each is cut off, no CNAME is
    ever placed beside address data at a name that is not itself a repaired apex.
   */
  lemma {:induction false} NoCnameBesideAddresses(zone: Zone, calls: seq<Call>, fqdn: string)
    requires Alone(zone, fqdn)
    requires forall i :: 0 <= i < |calls| && calls[i].Repair? ==> calls[i].domain != fqdn
    ensures Alone(MadeAll(zone, calls), fqdn)
    decreases |calls|
  {
    if calls != [] {
      CallKeepsAlone(zone, calls[0], fqdn);
      NoCnameBesideAddresses(Made(zone, calls[0]), calls[1..], fqdn);
    }
  }

  lemma CallKeepsAlone(zone: Zone, c: Call, fqdn: string)
    requires Alone(zone, fqdn) && (c.Repair? ==> c.domain != fqdn)
    ensures Alone(Made(zone, c), fqdn)
  {
    if c.readable {
      var requests := CallRequests(zone, c);
      var n := Performed(requests, c.fate);
      if c.Cleanup? {
        CleanupOnlyRemoves(zone, c.domain, c.ip, c.aliasReadable, n, Name(fqdn, A));
        CleanupOnlyRemoves(zone, c.domain, c.ip, c.aliasReadable, n, Name(fqdn, AAAA));
        CleanupOnlyRemoves(zone, c.domain, c.ip, c.aliasReadable, n, Name(fqdn, CNAME));
      } else {
        CutRequestsKeepAlone(zone, c.domain, c.ip, n, fqdn);
      }
    }
  }

  // --------------------------------------------------------------------------- the code

  class Server {
    var zone: Zone

    constructor (initial: Zone)
      ensures zone == initial
    {
      zone := initial;
    }

    /** callDNSRecord: an error says nothing about the effect. */
    method CallRecord(request: Request, answered: bool, applied: bool) returns (ok: bool)
      modifies this
      ensures ok == answered
      ensures zone == if answered || applied then Perform(old(zone), request) else old(zone)
    {
      if answered || applied {
        match request {
          case Put(name, values) => zone := zone[name := values];
          case Delete(name) => zone := zone - {name};
        }
      }
      return answered;
    }

    /** callDNSAPI: whether anything was to be changed, and whether every request was answered. */
    method CallDnsApi(domain: string, ip: string, readable: bool, fate: Fate) returns (changed: bool, ok: bool)
      modifies this
      ensures zone == Made(old(zone), Repair(domain, ip, readable, fate))
      ensures ok <==> readable && Completes(Requests(old(zone), domain, ip), fate)
      ensures changed <==>
              readable && !(Values(old(zone), Name(domain, A)) == [ip]
                            && Values(old(zone), Name("www." + domain, CNAME)) == [domain])
      ensures ok ==>
                && Values(zone, Name(domain, A)) == [ip] && Values(zone, Name("www." + domain, CNAME)) == [domain]
                && (changed && Values(old(zone), Name(domain, A)) != [ip] ==> !HasData(zone, Name(domain, AAAA)))
                && (Values(old(zone), Name("www." + domain, CNAME)) != [domain] ==>
                      !HasData(zone, Name("www." + domain, A)) && !HasData(zone, Name("www." + domain, AAAA)))
      ensures forall name: Name :: name.fqdn != domain && name.fqdn != "www." + domain ==>
                Values(zone, name) == Values(old(zone), name)
    {
      if !readable {
        return false, false;
      }
      var apex := Values(zone, Name(domain, A));
      var alias := Alias(domain);
      var cname := Values(zone, Name(alias, CNAME));
      var apexMatches := |apex| == 1 && apex[0] == ip;
      var cnameMatches := |cname| == 1 && cname[0] == domain;
      if apexMatches && cnameMatches {
        return false, true;
      }
      var requests: seq<Request> := [];
      if !apexMatches {
        requests := requests + [Put(Name(domain, A), [ip]), Delete(Name(domain, AAAA))];
      }
      if !cnameMatches {
        requests := requests + [Delete(Name(alias, A)), Delete(Name(alias, AAAA)), Put(Name(alias, CNAME), [domain])];
      }
      assert requests == Requests(zone, domain, ip);
      RepairsStayInTheDomain(zone, domain, ip, Performed(requests, fate));
      CompleteCallRepairs(zone, domain, ip);
      ApexAfter(zone, domain, ip, |requests|);
      AliasesGo(zone, domain, ip);
      ok := Send(requests, fate);
      changed := true;
    }

    /** cleanupOldDNS. */
    method CleanupOldDns(domain: string, ip: string, readable: bool, aliasReadable: bool, fate: Fate) returns (ok: bool)
      modifies this
      ensures zone == Made(old(zone), Cleanup(domain, ip, readable, aliasReadable, fate))
      ensures ok <==> readable && aliasReadable && Completes(CleanupRequests(old(zone), domain, ip, true), fate)
      ensures ok ==>
                && (forall v :: multiset(Values(zone, Name(domain, A)))[v] ==
                      if v == ip then 0 else multiset(Values(old(zone), Name(domain, A)))[v])
                && Values(zone, Name("www." + domain, CNAME)) == []
    {
      if !readable {
        return false;
      }
      var values := Values(zone, Name(domain, A));
      var remaining := Remaining(values, ip);
      var requests: seq<Request> := [];
      if |remaining| != |values| {
        requests := [if |remaining| == 0 then Delete(Name(domain, A)) else Put(Name(domain, A), remaining)];
      }
      var alias := Alias(domain);
      if aliasReadable && |Values(zone, Name(alias, CNAME))| > 0 {
        requests := requests + [Delete(Name(alias, CNAME))];
      }
      assert requests == CleanupRequests(zone, domain, ip, aliasReadable);
      CompleteCleanupCleans(zone, domain, ip, aliasReadable);
      ok := Send(requests, fate);
      ok := ok && aliasReadable;
    }

    static method Remaining(values: seq<string>, ip: string) returns (remaining: seq<string>)
      ensures remaining == Without(values, ip)
      ensures forall v :: multiset(remaining)[v] == if v == ip then 0 else multiset(values)[v]
    {
      remaining := [];
      for i := 0 to |values|
        invariant remaining == Without(values[..i], ip)
      {
        if values[i] != ip {
          remaining := remaining + [values[i]];
        }
        assert values[..i + 1][..i] == values[..i];
      }
      assert values[..|values|] == values;
    }

    /** The requests in order, up to the first error. */
    method Send(requests: seq<Request>, fate: Fate) returns (ok: bool)
      modifies this
      ensures zone == Outcome(old(zone), requests, fate)
      ensures ok <==> Completes(requests, fate)
    {
      for i := 0 to |requests|
        invariant zone == After(old(zone), requests, i)
        invariant fate.CutAt? ==> i <= fate.n
      {
        var answered := fate.Answered? || i != fate.n;
        ok := CallRecord(requests[i], answered, fate.CutAt? && fate.applied);
        if !ok {
          return;
        }
      }
      return true;
    }
  }
}
