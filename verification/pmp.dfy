/** The NAT-PMP stub of package `p2p/nat` (file pmp.go): discovery never finds a router,
    and the `pmp` mechanism answers every operation with zero values. */
module Pmp {
  import opened Base

  /** What one discovery call reports: the mechanism found (nil when none) and its error. */
  datatype Probe<+N> = Probe(mech: Option<N>, err: Option<string>)

  /** `DiscoverPMP`: returns `(nil, nil)` whatever the network looks like. */
  function DiscoverPMP<N>(): (p: Probe<N>)
    ensures p.mech.None? && p.err.None?
  {
    Probe(None, None)
  }

  /** `fmt.Sprintf("%v", ip)` for a possibly nil `net.IP`; a nil IP prints as "<nil>". */
  function ShowOptIP(show: IP -> string, ip: Option<IP>): string
  {
    match ip
    case None => "<nil>"
    case Some(a) => show(a)
  }

  /** The `pmp` struct: a NAT-PMP client for the gateway `gw` (nil when unknown). */
  datatype PmpClient = PmpClient(gw: Option<IP>) {

    /** `pmp.String`: "NAT-PMP(<gw>)". */
    function String(show: IP -> string): (s: string)
      ensures |s| >= 9 && s[..8] == "NAT-PMP(" && s[|s| - 1] == ')'
      ensures s[8..|s| - 1] == ShowOptIP(show, gw)
    {
      "NAT-PMP(" + ShowOptIP(show, gw) + ")"
    }

    /** `pmp.GetExternalAddress`: no address and no error. */
    function GetExternalAddress(): (r: Result<Option<IP>>)
      ensures r.Ok? && r.value.None?
    {
      Ok(None)
    }

    /** `pmp.AddPortMapping`: maps nothing, reports port 0 and no error. */
    function AddPortMapping(protocol: string, externalPort: int, internalPort: int,
                            description: string, timeout: int): (r: Result<int>)
      ensures r.Ok? && r.value == 0
    {
      Ok(0)
    }

    /** `pmp.DeletePortMapping`: no error. */
    function DeletePortMapping(protocol: string, externalPort: int, internalPort: int): (err: Option<string>)
      ensures err.None?
    {
      None
    }
  }
}
