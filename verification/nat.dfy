/** Package `p2p/nat` (file nat.go): the NAT mechanism grammar, the fixed-address mechanism,
    the auto-discovering wrapper that caches the router it finds, and the port-mapping
    keep-alive loop `Map`. */
module Nat {
  import opened Base
  import opened Pmp

  // ---------------------------------------------------------------------------
  // The mechanism grammar (`Parse`)
  // ---------------------------------------------------------------------------

  /** The mechanism a NAT spec names. `Open` builds the corresponding NAT. */
  datatype Choice = ExtIPChoice(ip: IP) | AnyChoice | UPnPChoice | PMPChoice(gateway: Option<IP>)

  const InvalidIPAddress: string := "invalid IP address"
  const MissingIPAddress: string := "missing IP address"

  /** `fmt.Errorf("unknown mechanism %q", name)`. */
  function UnknownMechanism(name: string): string
  {
    "unknown mechanism \"" + name + "\""
  }

  /** `unicode.ToLower` on the ASCII range. */
  function LowerChar(c: char): char
  {
    if 'A' <= c <= 'Z' then (c as int + 32) as char else c
  }

  /** `strings.ToLower`, character by character. */
  function ToLower(s: string): (r: string)
    ensures |r| == |s|
    ensures forall i :: 0 <= i < |s| ==> r[i] == LowerChar(s[i])
  {
    if s == [] then [] else [LowerChar(s[0])] + ToLower(s[1..])
  }

  /** `strings.SplitN(s, ":", 2)`: the text before the first ':' and, when there is a ':',
      everything after it (which may contain further ':'). */
  function SplitFirstColon(s: string): (parts: (string, Option<string>))
    ensures ':' !in parts.0
    ensures parts.1.None? ==> parts.0 == s
    ensures parts.1.Some? ==> s == parts.0 + ":" + parts.1.value
  {
    if s == [] then ([], None)
    else if s[0] == ':' then ([], Some(s[1..]))
    else
      var rest := SplitFirstColon(s[1..]);
      ([s[0]] + rest.0, rest.1)
  }

  /** The spec a name and an optional IP part are written as. */
  function Join(name: string, ipPart: Option<string>): string
  {
    match ipPart
    case None => name
    case Some(a) => name + ":" + a
  }

  /** The lower-case names of each mechanism the grammar knows. */
  predicate NoneName(mech: string) { mech == "" || mech == "none" || mech == "off" }
  predicate AnyName(mech: string) { mech == "any" || mech == "auto" || mech == "on" }
  predicate ExtIPName(mech: string) { mech == "extip" || mech == "ip" }
  predicate PMPName(mech: string) { mech == "pmp" || mech == "natpmp" || mech == "nat-pmp" }

  /** The decision `Parse` takes once the spec is split: `name` is the text before the first
      ':' as written, `ipPart` what follows it. The IP part is checked before the name. */
  function Decide(name: string, ipPart: Option<string>, parseIP: string -> Option<IP>): Result<Option<Choice>>
  {
    var ip := if ipPart.Some? then parseIP(ipPart.value) else None;
    var mech := ToLower(name);
    if ipPart.Some? && ip.None? then Err(InvalidIPAddress)
    else if NoneName(mech) then Ok(None)
    else if AnyName(mech) then Ok(Some(AnyChoice))
    else if ExtIPName(mech) then
      (if ip.None? then Err(MissingIPAddress) else Ok(Some(ExtIPChoice(ip.value))))
    else if mech == "upnp" then Ok(Some(UPnPChoice))
    else if PMPName(mech) then Ok(Some(PMPChoice(ip)))
    else Err(UnknownMechanism(name))
  }

  /** `Parse`: `Ok(None)` stands for the nil NAT, `Err` for a parse error. `parseIP` is `net.ParseIP`. */
  function Parse(spec: string, parseIP: string -> Option<IP>): (r: Result<Option<Choice>>)
    ensures r.Err? ==> r.msg == InvalidIPAddress || r.msg == MissingIPAddress
                       || r.msg == UnknownMechanism(SplitFirstColon(spec).0)
    ensures r.Ok? && r.value.Some? && r.value.value.ExtIPChoice? ==>
              SplitFirstColon(spec).1.Some? && parseIP(SplitFirstColon(spec).1.value) == Some(r.value.value.ip)
  {
    var parts := SplitFirstColon(spec);
    Decide(parts.0, parts.1, parseIP)
  }

  /** Only the first ':' splits a spec: a name without ':' followed by ':' and any text,
      which may itself contain ':', splits back into exactly that name and text. */
  lemma {:induction false} SplitJoin(name: string, ipPart: Option<string>)
    requires ':' !in name
    ensures SplitFirstColon(Join(name, ipPart)) == (name, ipPart)
  {
    if name == [] {
      if ipPart.Some? {
        assert Join(name, ipPart)[1..] == ipPart.value;
      }
    } else {
      var s := Join(name, ipPart);
      assert name[0] in name;
      assert s[0] == name[0] && s[1..] == Join(name[1..], ipPart);
      SplitJoin(name[1..], ipPart);
      assert [name[0]] + name[1..] == name;
    }
  }

  /** `Parse` of a spec written as a name and an optional IP part is `Decide` on exactly those. */
  lemma ParseJoin(name: string, ipPart: Option<string>, parseIP: string -> Option<IP>)
    requires ':' !in name
    ensures Parse(Join(name, ipPart), parseIP) == Decide(name, ipPart, parseIP)
  {
    SplitJoin(name, ipPart);
  }

  /** Mechanism names are case-insensitive: two names that lower-case alike give the same
      result, except that an unknown name is quoted as written. */
  lemma ParseCaseInsensitive(a: string, b: string, ipPart: Option<string>, parseIP: string -> Option<IP>)
    requires ':' !in a && ':' !in b
    requires ToLower(a) == ToLower(b)
    ensures Parse(Join(a, ipPart), parseIP).Ok? <==> Parse(Join(b, ipPart), parseIP).Ok?
    ensures Parse(Join(a, ipPart), parseIP).Ok? ==> Parse(Join(a, ipPart), parseIP) == Parse(Join(b, ipPart), parseIP)
    ensures Parse(Join(a, ipPart), parseIP) != Parse(Join(b, ipPart), parseIP) ==>
              Parse(Join(a, ipPart), parseIP) == Err(UnknownMechanism(a))
              && Parse(Join(b, ipPart), parseIP) == Err(UnknownMechanism(b))
  {
    ParseJoin(a, ipPart, parseIP);
    ParseJoin(b, ipPart, parseIP);
    DecideCaseInsensitive(a, b, ipPart, parseIP);
  }

  /** `Decide` reads the name only through its lower-case form, except to quote an
      unknown one. */
  lemma DecideCaseInsensitive(a: string, b: string, ipPart: Option<string>, parseIP: string -> Option<IP>)
    requires ToLower(a) == ToLower(b)
    ensures Decide(a, ipPart, parseIP) == Decide(b, ipPart, parseIP)
            || (Decide(a, ipPart, parseIP) == Err(UnknownMechanism(a)) && Decide(b, ipPart, parseIP) == Err(UnknownMechanism(b)))
  {
  }

  /** Only the first ':' splits: the IP part is everything after it, colons included,
      so "extip:" followed by an IPv6 address yields that address. */
  lemma ParseExtIPWithColons(name: string, addr: string, ip: IP, parseIP: string -> Option<IP>)
    requires ':' !in name && ExtIPName(ToLower(name))
    requires parseIP(addr) == Some(ip)
    ensures Parse(name + ":" + addr, parseIP) == Ok(Some(ExtIPChoice(ip)))
  {
    ParseJoin(name, Some(addr), parseIP);
  }

  /** An IP part that `net.ParseIP` rejects fails with "invalid IP address", whatever the
      name (so "none:xyz" and "upnp:xyz" fail too); no other spec fails with that message. */
  lemma ParseInvalidIP(spec: string, parseIP: string -> Option<IP>)
    ensures Parse(spec, parseIP) == Err(InvalidIPAddress) <==>
              (SplitFirstColon(spec).1.Some? && parseIP(SplitFirstColon(spec).1.value).None?)
  {
  }

  /** "", "none" and "off", in any case, give no mechanism and no error, unless an invalid
      IP part follows; no other name gives no mechanism. */
  lemma ParseNoMechanism(name: string, ipPart: Option<string>, parseIP: string -> Option<IP>)
    requires ':' !in name
    ensures Parse(Join(name, ipPart), parseIP) == Ok(None) <==>
              (NoneName(ToLower(name)) && (ipPart.Some? ==> parseIP(ipPart.value).Some?))
  {
    ParseJoin(name, ipPart, parseIP);
    if ipPart.Some? && parseIP(ipPart.value).None? {
      assert Decide(name, ipPart, parseIP) == Err(InvalidIPAddress);
    } else if !NoneName(ToLower(name)) {
      assert Decide(name, ipPart, parseIP) != Ok(None);
    }
  }

  /** "extip"/"ip" without an IP part fails with "missing IP address"; with a valid one it
      yields a fixed mechanism that reports exactly that address and whose mapping
      operations succeed without doing anything. */
  lemma ParseExtIP(name: string, ipPart: Option<string>, parseIP: string -> Option<IP>)
    requires ':' !in name && ExtIPName(ToLower(name))
    ensures ipPart.None? ==> Parse(Join(name, ipPart), parseIP) == Err(MissingIPAddress)
    ensures ipPart.Some? && parseIP(ipPart.value).Some? ==>
              var ip := parseIP(ipPart.value).value;
              && Parse(Join(name, ipPart), parseIP) == Ok(Some(ExtIPChoice(ip)))
              && ExtIP(ip).GetExternalAddress() == Ok(Some(ip))
              && (forall protocol, extport, intport, description, timeout ::
                    ExtIP(ip).AddPortMapping(protocol, extport, intport, description, timeout) == Ok(0))
              && (forall protocol, extport, intport ::
                    ExtIP(ip).DeletePortMapping(protocol, extport, intport).None?)
  {
    ParseJoin(name, ipPart, parseIP);
  }

  /** Any name outside the grammar fails with "unknown mechanism" quoting the name as
      written (after a valid or absent IP part). */
  lemma ParseUnknown(name: string, ipPart: Option<string>, parseIP: string -> Option<IP>)
    requires ':' !in name
    requires !NoneName(ToLower(name)) && !AnyName(ToLower(name)) && !ExtIPName(ToLower(name))
    requires ToLower(name) != "upnp" && !PMPName(ToLower(name))
    requires ipPart.Some? ==> parseIP(ipPart.value).Some?
    ensures Parse(Join(name, ipPart), parseIP) == Err(UnknownMechanism(name))
  {
    ParseJoin(name, ipPart, parseIP);
  }

  /** The discovering names: "any"/"auto"/"on", "upnp", and the NAT-PMP names, whose IP
      part becomes the gateway. */
  lemma ParseDiscovering(name: string, ipPart: Option<string>, parseIP: string -> Option<IP>)
    requires ':' !in name
    requires ipPart.Some? ==> parseIP(ipPart.value).Some?
    ensures AnyName(ToLower(name)) ==> Parse(Join(name, ipPart), parseIP) == Ok(Some(AnyChoice))
    ensures ToLower(name) == "upnp" ==> Parse(Join(name, ipPart), parseIP) == Ok(Some(UPnPChoice))
    ensures PMPName(ToLower(name)) ==>
              Parse(Join(name, ipPart), parseIP)
                == Ok(Some(PMPChoice(if ipPart.Some? then parseIP(ipPart.value) else None)))
  {
    ParseJoin(name, ipPart, parseIP);
  }

  // ---------------------------------------------------------------------------
  // Concrete mechanisms
  // ---------------------------------------------------------------------------

  /** A router found by `DiscoverUPnP`. The UPnP client is not part of this model, so the
      answers it gives are fixed data. */
  datatype Device = Device(name: string, externalAddress: Result<Option<IP>>,
                           mapped: Result<int>, unmapped: Option<string>)

  /** A NAT mechanism that does not discover: `extIP`, the `pmp` client, or a UPnP router. */
  datatype Mechanism = ExtIP(ip: IP) | NatPmp(client: PmpClient) | UPnPRouter(device: Device) {

    /** `extIP` reports its own address; the NAT-PMP client reports none. */
    function GetExternalAddress(): (r: Result<Option<IP>>)
      ensures ExtIP? ==> r == Ok(Some(ip))
      ensures NatPmp? ==> r == Ok(None)
    {
      match this
      case ExtIP(ip) => Ok(Some(ip))
      case NatPmp(c) => c.GetExternalAddress()
      case UPnPRouter(d) => d.externalAddress
    }

    /** The `extIP` mapping operations do nothing and report port 0 and no error. */
    function AddPortMapping(protocol: string, externalPort: int, internalPort: int,
                            description: string, timeout: int): (r: Result<int>)
      ensures ExtIP? || NatPmp? ==> r == Ok(0)
    {
      match this
      case ExtIP(_) => Ok(0)
      case NatPmp(c) => c.AddPortMapping(protocol, externalPort, internalPort, description, timeout)
      case UPnPRouter(d) => d.mapped
    }

    function DeletePortMapping(protocol: string, externalPort: int, internalPort: int): (err: Option<string>)
      ensures ExtIP? || NatPmp? ==> err.None?
    {
      match this
      case ExtIP(_) => None
      case NatPmp(c) => c.DeletePortMapping(protocol, externalPort, internalPort)
      case UPnPRouter(d) => d.unmapped
    }

    /** `extIP.String` is "ExtIP(<ip>)". */
    function String(show: IP -> string): (s: string)
      ensures ExtIP? ==> |s| == 7 + |show(ip)| && s[..6] == "ExtIP(" && s[6..|s| - 1] == show(ip) && s[|s| - 1] == ')'
    {
      match this
      case ExtIP(ip) => "ExtIP(" + show(ip) + ")"
      case NatPmp(c) => c.String(show)
      case UPnPRouter(d) => d.name
    }
  }

  // ---------------------------------------------------------------------------
  // Discovery
  // ---------------------------------------------------------------------------

  /** Which discovery function an `autodisc` runs. */
  datatype Discoverer = AnyRouter | UPnPOnly | PMPOnly

  /** What the network answers: the results of the `DiscoverUPnP` calls, in the order they
      arrive. `UPnP()` makes one call and sees `first`; `Any()` makes two. */
  datatype Env = Env(first: Probe<Mechanism>, second: Probe<Mechanism>)

  /** The first arrival that carries a mechanism, with its error; `(nil, nil)` when none does. */
  function FirstFound(arrivals: seq<Probe<Mechanism>>): Probe<Mechanism>
  {
    if arrivals == [] then Probe(None, None)
    else if arrivals[0].mech.Some? then arrivals[0]
    else FirstFound(arrivals[1..])
  }

  /** `FirstFound` returns the earliest arrival carrying a mechanism, and `(nil, nil)`
      exactly when no arrival carries one. */
  lemma {:induction false} FirstFoundIsEarliest(arrivals: seq<Probe<Mechanism>>)
    ensures FirstFound(arrivals).mech.None? <==> forall i :: 0 <= i < |arrivals| ==> arrivals[i].mech.None?
    ensures FirstFound(arrivals).mech.None? ==> FirstFound(arrivals).err.None?
    ensures FirstFound(arrivals).mech.Some? ==>
              exists i :: 0 <= i < |arrivals| && FirstFound(arrivals) == arrivals[i]
                          && forall j :: 0 <= j < i ==> arrivals[j].mech.None?
  {
    if arrivals != [] && arrivals[0].mech.None? {
      FirstFoundIsEarliest(arrivals[1..]);
      if FirstFound(arrivals).mech.Some? {
        var i :| 0 <= i < |arrivals[1..]| && FirstFound(arrivals[1..]) == arrivals[1..][i]
                 && forall j :: 0 <= j < i ==> arrivals[1..][j].mech.None?;
        assert FirstFound(arrivals) == arrivals[i + 1];
      }
    } else if arrivals != [] {
      assert FirstFound(arrivals) == arrivals[0];
    }
  }

  /** The result-selection loop of `Any`'s discovery closure: read the arrivals in order and
      return the first one that carries a mechanism, error included. */
  method SelectFound(arrivals: seq<Probe<Mechanism>>) returns (p: Probe<Mechanism>)
    ensures p == FirstFound(arrivals)
  {
    for i := 0 to |arrivals|
      invariant FirstFound(arrivals) == FirstFound(arrivals[i..])
    {
      assert arrivals[i..][1..] == arrivals[i + 1..];
      if arrivals[i].mech.Some? {
        return arrivals[i];
      }
    }
    assert arrivals[|arrivals|..] == [];
    p := Probe(None, None);
  }

  /** What the discovery function of `d` returns against `env`. `Any()` races two
      `DiscoverUPnP` probes (not one UPnP and one NAT-PMP probe); `PMP()` runs `DiscoverPMP`. */
  function Discovered(d: Discoverer, env: Env): (p: Probe<Mechanism>)
    ensures d.AnyRouter? ==> (p.mech.Some? <==> env.first.mech.Some? || env.second.mech.Some?)
    ensures d.AnyRouter? && env.first.mech.Some? ==> p == env.first
    ensures d.AnyRouter? && env.first.mech.None? && env.second.mech.Some? ==> p == env.second
    ensures d.AnyRouter? && p.mech.None? ==> p.err.None?
    ensures d.UPnPOnly? ==> p == env.first
    ensures d.PMPOnly? ==> p.mech.None? && p.err.None?
  {
    match d
    case AnyRouter =>
      var arrivals := [env.first, env.second];
      FirstFoundIsEarliest(arrivals);
      FirstFound(arrivals)
    case UPnPOnly => env.first
    case PMPOnly => DiscoverPMP()
  }

  /** What `wait` keeps from a discovery result: the mechanism only when there is no error. */
  function Adopted(p: Probe<Mechanism>): (found: Option<Mechanism>)
    ensures found.Some? <==> p.mech.Some? && p.err.None?
    ensures found.Some? ==> found == p.mech
  {
    if p.err.None? then p.mech else None
  }

  /** The error of every operation of an `autodisc` that found nothing. */
  function NoRouter(what: string): string
  {
    "no " + what + " router discovered"
  }

  /** `autodisc`: a mechanism that runs its discovery once, on first use, and then delegates
      to what it found. `done` is the `sync.Once`; `runs` counts the runs of discovery. */
  class AutoDisc {
    const what: string
    const discoverer: Discoverer
    var done: bool
    var found: Option<Mechanism>
    ghost var runs: nat

    ghost predicate Valid()
      reads this
    {
      && runs == (if done then 1 else 0)
      && (!done ==> found.None?)
    }

    /** The state after `wait`, given the state before it: discovery has run, and `found`
        is what the first run adopted. */
    ghost predicate SettledFrom(wasDone: bool, wasFound: Option<Mechanism>, env: Env)
      reads this
    {
      && done && runs == 1
      && found == (if wasDone then wasFound else Adopted(Discovered(discoverer, env)))
    }

    /** `startautodisc`. */
    constructor (what: string, discoverer: Discoverer)
      ensures Valid()
      ensures this.what == what && this.discoverer == discoverer
      ensures !done && found.None? && runs == 0
    {
      this.what := what;
      this.discoverer := discoverer;
      done := false;
      found := None;
      runs := 0;
    }

    /** `wait`: runs discovery the first time only, keeps its mechanism only when it
        reports no error, and fails while nothing is found. Later calls never rediscover. */
    method Wait(env: Env) returns (err: Option<string>)
      requires Valid()
      modifies this
      ensures Valid() && SettledFrom(old(done), old(found), env)
      ensures err == if found.None? then Some(NoRouter(what)) else None
    {
      if !done {
        var p: Probe<Mechanism>;
        match discoverer {
          case AnyRouter => p := SelectFound([env.first, env.second]);
          case UPnPOnly => p := env.first;
          case PMPOnly => p := DiscoverPMP();
        }
        found := None;
        if p.err.None? {
          found := p.mech;
        }
        done := true;
        runs := runs + 1;
      }
      if found.None? {
        err := Some(NoRouter(what));
      } else {
        err := None;
      }
    }

    method AddPortMapping(env: Env, protocol: string, externalPort: int, internalPort: int,
                          description: string, timeout: int) returns (r: Result<int>)
      requires Valid()
      modifies this
      ensures Valid() && SettledFrom(old(done), old(found), env)
      ensures r == match found
                   case None => Err(NoRouter(what))
                   case Some(m) => m.AddPortMapping(protocol, externalPort, internalPort, description, timeout)
    {
      var err := Wait(env);
      if err.Some? {
        return Err(err.value);
      }
      r := found.value.AddPortMapping(protocol, externalPort, internalPort, description, timeout);
    }

    method DeletePortMapping(env: Env, protocol: string, externalPort: int, internalPort: int)
      returns (err: Option<string>)
      requires Valid()
      modifies this
      ensures Valid() && SettledFrom(old(done), old(found), env)
      ensures err == match found
                     case None => Some(NoRouter(what))
                     case Some(m) => m.DeletePortMapping(protocol, externalPort, internalPort)
    {
      err := Wait(env);
      if err.Some? {
        return;
      }
      err := found.value.DeletePortMapping(protocol, externalPort, internalPort);
    }

    method GetExternalAddress(env: Env) returns (r: Result<Option<IP>>)
      requires Valid()
      modifies this
      ensures Valid() && SettledFrom(old(done), old(found), env)
      ensures r == match found
                   case None => Err(NoRouter(what))
                   case Some(m) => m.GetExternalAddress()
    {
      var err := Wait(env);
      if err.Some? {
        return Err(err.value);
      }
      r := found.value.GetExternalAddress();
    }

    /** `String`: the kind of router sought until one is found, then the router's own name.
        It does not trigger discovery. */
    function String(show: IP -> string): (s: string)
      reads this
      ensures found.None? ==> s == what
      ensures found.Some? ==> s == found.value.String(show)
    {
      if found.None? then what else found.value.String(show)
    }
  }

  /** A NAT as `Parse` hands it out: a fixed mechanism, or an auto-discovering one. */
  datatype NAT = Fixed(mechanism: Mechanism) | Auto(disc: AutoDisc)

  /** The constructors `ExtIP`, `Any`, `UPnP` and `PMP`. `PMP` ignores its gateway and
      discovers with `DiscoverPMP`. */
  method Open(c: Choice) returns (n: NAT)
    ensures c.ExtIPChoice? ==> n == Fixed(ExtIP(c.ip))
    ensures !c.ExtIPChoice? ==> n.Auto? && fresh(n.disc) && n.disc.Valid() && !n.disc.done
    ensures c.AnyChoice? ==> n.Auto? && n.disc.what == "UPnP or NAT-PMP" && n.disc.discoverer == AnyRouter
    ensures c.UPnPChoice? ==> n.Auto? && n.disc.what == "UPnP" && n.disc.discoverer == UPnPOnly
    ensures c.PMPChoice? ==> n.Auto? && n.disc.what == "NAT-PMP" && n.disc.discoverer == PMPOnly
  {
    match c {
      case ExtIPChoice(ip) => n := Fixed(ExtIP(ip));
      case AnyChoice =>
        var d := new AutoDisc("UPnP or NAT-PMP", AnyRouter);
        n := Auto(d);
      case UPnPChoice =>
        var d := new AutoDisc("UPnP", UPnPOnly);
        n := Auto(d);
      case PMPChoice(_) =>
        var d := new AutoDisc("NAT-PMP", PMPOnly);
        n := Auto(d);
    }
  }

  /** Whatever the network answers and whatever gateway was named, a NAT-PMP mechanism
      finds no router, so every operation fails with "no NAT-PMP router discovered". */
  method PmpNeverDiscovers(gateway: Option<IP>, env1: Env, env2: Env, env3: Env,
                           protocol: string, extport: int, intport: int, name: string, show: IP -> string)
    returns (added: Result<int>, deleted: Option<string>, address: Result<Option<IP>>, described: string)
    ensures added == Err("no NAT-PMP router discovered")
    ensures deleted == Some("no NAT-PMP router discovered")
    ensures address == Err("no NAT-PMP router discovered")
    ensures described == "NAT-PMP"
  {
    var n := Open(PMPChoice(gateway));
    var d := n.disc;
    assert NoRouter(d.what) == "no NAT-PMP router discovered";
    added := d.AddPortMapping(env1, protocol, extport, intport, name, MapTimeoutSeconds);
    assert d.found.None?;
    deleted := d.DeletePortMapping(env2, protocol, extport, intport);
    address := d.GetExternalAddress(env3);
    described := d.String(show);
  }

  /** Discovery runs once: after a first operation, later ones see the same outcome
      whatever the network answers then. */
  method DiscoveryIsCached(c: Choice, env1: Env, env2: Env) returns (first: Option<string>, second: Option<string>)
    requires !c.ExtIPChoice?
    ensures first == second
    ensures first.None? <==> Adopted(Discovered(
              match c case AnyChoice => AnyRouter case UPnPChoice => UPnPOnly case _ => PMPOnly, env1)).Some?
  {
    var n := Open(c);
    var d := n.disc;
    first := d.Wait(env1);
    second := d.Wait(env2);
  }

  // ---------------------------------------------------------------------------
  // Map: keeping a port mapping alive
  // ---------------------------------------------------------------------------

  /** `mapTimeout / time.Second`: the lease of every mapping, 20 minutes in seconds. */
  const MapTimeoutSeconds: int := 20 * 60
  /** `mapUpdateInterval`: the refresh period, 15 minutes in seconds. */
  const MapUpdateIntervalSeconds: int := 15 * 60

  /** What wakes `Map`'s select: the refresh timer, a value on `c`, or `c` being closed. */
  datatype MapEvent = RefreshFired | ValueReceived | ChannelClosed

  /** A call `Map` makes on its mechanism. */
  datatype MappingCall =
    | AddMapping(protocol: string, extport: int, intport: int, name: string, lease: int)
    | DeleteMapping(protocol: string, extport: int, intport: int)

  /** Whether an event ends `Map`'s loop. */
  predicate IsClose(e: MapEvent)
  {
    e == ChannelClosed
  }

  /** The number of refresh events in `events`. */
  function Refreshes(events: seq<MapEvent>): nat
  {
    if events == [] then 0
    else Refreshes(events[..|events| - 1]) + (if events[|events| - 1] == RefreshFired then 1 else 0)
  }

  /** Successive adds made on the refresh timer: the first at `addedAt[0]`, each later
      one a refresh interval after the one before. */
  predicate OnTimer(addedAt: seq<int>)
  {
    forall i :: 0 < i < |addedAt| ==> addedAt[i] == addedAt[i - 1] + MapUpdateIntervalSeconds
  }

  /** Some add in `addedAt` holds a lease that is running at time `t`. */
  predicate Leased(addedAt: seq<int>, t: int)
  {
    exists i :: 0 <= i < |addedAt| && addedAt[i] <= t < addedAt[i] + MapTimeoutSeconds
  }

  /** Adds made on the refresh timer keep the mapping leased without a gap, from the first
      add until the next refresh is due: each lease runs longer than the refresh interval. */
  lemma {:induction false} LeaseNeverLapses(addedAt: seq<int>, t: int)
    requires |addedAt| > 0 && OnTimer(addedAt)
    requires addedAt[0] <= t < addedAt[|addedAt| - 1] + MapUpdateIntervalSeconds
    ensures Leased(addedAt, t)
  {
    var last := |addedAt| - 1;
    if addedAt[last] <= t {
      assert addedAt[last] <= t < addedAt[last] + MapTimeoutSeconds;
    } else {
      var prefix := addedAt[..last];
      assert OnTimer(prefix) by {
        forall i | 0 < i < |prefix|
          ensures prefix[i] == prefix[i - 1] + MapUpdateIntervalSeconds
        {
          assert prefix[i] == addedAt[i] && prefix[i - 1] == addedAt[i - 1];
        }
      }
      assert addedAt[last] == addedAt[last - 1] + MapUpdateIntervalSeconds;
      LeaseNeverLapses(prefix, t);
      var i :| 0 <= i < |prefix| && prefix[i] <= t < prefix[i] + MapTimeoutSeconds;
      assert addedAt[i] == prefix[i];
    }
  }

  /** `Map` over a trace of select wake-ups: add the mapping at start, add it again on
      every refresh, ignore values received, and on close stop and delete it once. Events
      after the close are never looked at; without a close the loop never returns and
      the deferred delete never runs. The timer is started at `start`, when the first add
      is made, and each refresh resets it; `addedAt` is when each add is made. */
  method Map(events: seq<MapEvent>, protocol: string, extport: int, intport: int, name: string, start: int)
    returns (calls: seq<MappingCall>, returned: bool, addedAt: seq<int>)
    ensures returned <==> ChannelClosed in events
    ensures |addedAt| == 1 + Refreshes(events[..FirstWhere(events, IsClose)])
    ensures addedAt[0] == start && OnTimer(addedAt)
    ensures forall t :: start <= t < addedAt[|addedAt| - 1] + MapUpdateIntervalSeconds ==> Leased(addedAt, t)
    ensures |calls| == 1 + Refreshes(events[..FirstWhere(events, IsClose)]) + (if returned then 1 else 0)
    ensures forall i :: 0 <= i < |calls| - (if returned then 1 else 0) ==>
              calls[i] == AddMapping(protocol, extport, intport, name, MapTimeoutSeconds)
    ensures returned ==> calls[|calls| - 1] == DeleteMapping(protocol, extport, intport)
  {
    var add := AddMapping(protocol, extport, intport, name, MapTimeoutSeconds);
    calls := [add];
    addedAt := [start];
    var i := 0;
    while i < |events| && events[i] != ChannelClosed
      invariant i <= |events|
      invariant forall j :: 0 <= j < i ==> events[j] != ChannelClosed
      invariant |calls| == 1 + Refreshes(events[..i]) == |addedAt|
      invariant forall k :: 0 <= k < |calls| ==> calls[k] == add
      invariant addedAt[0] == start && OnTimer(addedAt)
    {
      assert events[..i + 1][..i] == events[..i];
      if events[i] == RefreshFired {
        calls := calls + [add];
        addedAt := addedAt + [addedAt[|addedAt| - 1] + MapUpdateIntervalSeconds];
      }
      i := i + 1;
    }
    FirstWhereUnique(events, IsClose, i);
    forall t | start <= t < addedAt[|addedAt| - 1] + MapUpdateIntervalSeconds
      ensures Leased(addedAt, t)
    {
      LeaseNeverLapses(addedAt, t);
    }
    returned := i < |events|;
    if returned {
      calls := calls + [DeleteMapping(protocol, extport, intport)];
    }
  }
}
