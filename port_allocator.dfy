/** The ptvsd port allocator: the set of ports the extension has claimed for debug sessions.
    Socket probes are parameters: `portAvailable(p)` says whether a listening socket could be
    bound on 127.0.0.1:p, and `ephemeralPort` is the port the operating system hands out for a
    bind to port 0 (None when that bind fails). */
module PortAllocator {
  import opened Wrappers

  datatype Allocation = Allocation(port: int, isPreferred: bool)

  datatype AllocError = NoEphemeralPort

  /** `preferredPort && ...`: a preferred port is only tried when it is given and not 0. */
  predicate TriesPreferred(claimed: set<int>, preferred: Option<int>) {
    preferred.Some? && preferred.value != 0 && preferred.value !in claimed
  }

  /** What `allocatePort` hands out when `claimed` are the ports already claimed. */
  function Allocate(claimed: set<int>, preferred: Option<int>, portAvailable: int -> bool,
                    ephemeralPort: Option<int>): (r: Result<Allocation, AllocError>)
    ensures r.Success? && r.value.isPreferred <==>
              TriesPreferred(claimed, preferred) && portAvailable(preferred.value)
    ensures r.Success? && r.value.isPreferred ==> r.value.port == preferred.value
    ensures r.Success? && !r.value.isPreferred ==> Some(r.value.port) == ephemeralPort
    ensures r.Failure? <==>
              !(TriesPreferred(claimed, preferred) && portAvailable(preferred.value))
              && ephemeralPort.None?
  {
    if TriesPreferred(claimed, preferred) && portAvailable(preferred.value) then
      Success(Allocation(preferred.value, true))
    else if ephemeralPort.Some? then
      Success(Allocation(ephemeralPort.value, false))
    else
      Failure(NoEphemeralPort)
  }

  /** A port claimed by one allocation is never handed out again as someone's preferred port
      until it is released. */
  lemma PreferredPortClaimedOnce(claimed: set<int>, preferred: Option<int>,
                                 portAvailable: int -> bool, ephemeralPort: Option<int>,
                                 ephemeralPort2: Option<int>)
    requires Allocate(claimed, preferred, portAvailable, ephemeralPort).Success?
    ensures var a := Allocate(claimed, preferred, portAvailable, ephemeralPort).value;
            var b := Allocate(claimed + {a.port}, preferred, portAvailable, ephemeralPort2);
            a.isPreferred ==> !(b.Success? && b.value.isPreferred)
  {
  }

  /** After `releasePort`, a free preferred port is handed out as preferred again. */
  lemma ReleasedPortReused(claimed: set<int>, port: int, portAvailable: int -> bool,
                           ephemeralPort: Option<int>)
    requires port != 0 && portAvailable(port)
    ensures Allocate(claimed - {port}, Some(port), portAvailable, ephemeralPort)
            == Success(Allocation(port, true))
  {
  }

  class Allocator {
    /** The ports claimed for sessions. */
    var allocatedPorts: set<int>

    constructor ()
      ensures allocatedPorts == {}
    {
      allocatedPorts := {};
    }

    /** `allocatePort(preferredPort)`: claims and returns a port. */
    method AllocatePort(preferred: Option<int>, portAvailable: int -> bool,
                        ephemeralPort: Option<int>) returns (r: Result<Allocation, AllocError>)
      modifies this
      ensures r == Allocate(old(allocatedPorts), preferred, portAvailable, ephemeralPort)
      ensures r.Success? ==> allocatedPorts == old(allocatedPorts) + {r.value.port}
      ensures r.Failure? ==> allocatedPorts == old(allocatedPorts)
    {
      if preferred.Some? && preferred.value != 0 && preferred.value !in allocatedPorts {
        var available := portAvailable(preferred.value);
        if available {
          allocatedPorts := allocatedPorts + {preferred.value};
          return Success(Allocation(preferred.value, true));
        }
      }
      if ephemeralPort.None? {
        return Failure(NoEphemeralPort);
      }
      var port := ephemeralPort.value;
      allocatedPorts := allocatedPorts + {port};
      return Success(Allocation(port, false));
    }

    /** `releasePort(port)` */
    method ReleasePort(port: int)
      modifies this
      ensures allocatedPorts == old(allocatedPorts) - {port}
    {
      allocatedPorts := allocatedPorts - {port};
    }

    /** `getAllocatedPorts()`: a copy of the claimed ports. */
    method GetAllocatedPorts() returns (ports: set<int>)
      ensures ports == allocatedPorts
    {
      ports := allocatedPorts;
    }

    /** `releaseAllPorts()` */
    method ReleaseAllPorts()
      modifies this
      ensures allocatedPorts == {}
    {
      allocatedPorts := {};
    }
  }
}
