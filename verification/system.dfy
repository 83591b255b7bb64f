/**
 * The system context: the strategies chosen for this host, the control
 * channel to systemd when that strategy is chosen, the constructors every
 * resource check is built with, and the run-once port table.
 */
module SystemContext {
  import opened Wrappers
  import opened Detect
  import opened PortCache

  /** Service-strategy constructor: systemd over dbus, or init scripts. */
  datatype ServiceStrategy = NewServiceDbus | NewServiceInit

  /** The constructors bound the same way on every host. */
  datatype ResourceConstructor =
    NewFile | NewAddr | NewPort | NewUser | NewGroup | NewCommand | NewDNS | NewProcess | NewGossfile

  /** An open connection to systemd's dbus interface, as an opaque handle. */
  datatype DbusConn = DbusConn(id: nat)

  /** The process exit status after a failed dbus connection. */
  const FatalExitCode := 1

  /** Construction aborted: the message printed and the exit status. */
  datatype Fatal = Fatal(message: string, exitCode: int)

  /** The host-dependent part of a context. */
  datatype Wiring = Wiring(package: PackageStrategy, service: ServiceStrategy, dbus: Option<DbusConn>)

  /** The control-channel handle is present exactly with the dbus service strategy. */
  predicate HandleMatchesService(w: Wiring) {
    w.dbus.Some? <==> w.service == NewServiceDbus
  }

  /**
   * What construction decides, given the package override, the host probes
   * and the outcome `dial` that opening a dbus connection would have (only
   * looked at when systemd runs).
   */
  function Configure(override: string, h: Host, dial: Result<DbusConn, string>): (r: Result<Wiring, Fatal>)
    ensures r.Failure? <==> h.systemd && dial.Failure?
    ensures r.Failure? ==> r.error == Fatal(dial.error, FatalExitCode)
    ensures r.Success? ==> HandleMatchesService(r.value)
    ensures r.Success? ==> r.value.package == SelectPackage(override, h)
    ensures r.Success? ==> (r.value.service == NewServiceDbus <==> h.systemd)
    ensures r.Success? && r.value.dbus.Some? ==> dial == Success(r.value.dbus.value)
  {
    if h.systemd then
      match dial
      case Failure(e) => Failure(Fatal(e, FatalExitCode))
      case Success(conn) => Success(Wiring(SelectPackage(override, h), NewServiceDbus, Some(conn)))
    else
      Success(Wiring(SelectPackage(override, h), NewServiceInit, None))
  }

  /** Without systemd no connection is attempted, so construction cannot fail. */
  lemma InitHostNeverFails(override: string, h: Host, d1: Result<DbusConn, string>, d2: Result<DbusConn, string>)
    requires !h.systemd
    ensures Configure(override, h, d1) == Configure(override, h, d2)
    ensures Configure(override, h, d1) == Success(Wiring(SelectPackage(override, h), NewServiceInit, None))
  {
  }

  /** The package strategy never depends on the service side. */
  lemma PackageIndependentOfService(override: string, h: Host, dial: Result<DbusConn, string>)
    requires Configure(override, h, dial).Success?
    ensures Configure(override, h, dial).value.package == SelectPackage(override, Host(h.files, h.path, !h.systemd))
  {
  }

  class System {
    const newPackage: PackageStrategy
    const newFile: ResourceConstructor
    const newAddr: ResourceConstructor
    const newPort: ResourceConstructor
    const newService: ServiceStrategy
    const newUser: ResourceConstructor
    const newGroup: ResourceConstructor
    const newCommand: ResourceConstructor
    const newDNS: ResourceConstructor
    const newProcess: ResourceConstructor
    const newGossfile: ResourceConstructor
    const dbus: Option<DbusConn>
    /** The port table, once the first call to Ports has scanned. */
    var ports: Option<PortTable>
    /** How many scans this context has run. */
    ghost var scans: nat

    /** The nine resource constructors are bound to their own kinds. */
    predicate FixedBindings() {
      newFile == NewFile && newAddr == NewAddr && newPort == NewPort && newUser == NewUser
      && newGroup == NewGroup && newCommand == NewCommand && newDNS == NewDNS
      && newProcess == NewProcess && newGossfile == NewGossfile
    }

    function Strategies(): Wiring {
      Wiring(newPackage, newService, dbus)
    }

    ghost predicate Valid()
      reads this
    {
      FixedBindings() && HandleMatchesService(Strategies())
      && scans == (if ports.Some? then 1 else 0)
    }

    constructor (w: Wiring)
      requires HandleMatchesService(w)
      ensures Valid() && Strategies() == w
      ensures ports == None && scans == 0
    {
      newFile, newAddr, newPort, newUser := NewFile, NewAddr, NewPort, NewUser;
      newGroup, newCommand, newDNS := NewGroup, NewCommand, NewDNS;
      newProcess, newGossfile := NewProcess, NewGossfile;
      newPackage, newService, dbus := w.package, w.service, w.dbus;
      ports, scans := None, 0;
    }

    /**
     * The shared port table; `current` is what a scan of the host would
     * return now. The first call scans and stores; later calls return the
     * stored table untouched.
     */
    method Ports(current: PortTable) returns (table: PortTable)
      requires Valid()
      modifies this
      ensures Valid()
      ensures (ports, table) == Call(old(ports), current)
      ensures scans == old(scans) + (if old(ports).None? then 1 else 0)
      ensures old(ports).Some? ==> table == old(ports).value
    {
      if ports.None? {
        ports := Some(current);
        scans := scans + 1;
      }
      table := ports.value;
    }
  }

  /**
   * Builds the context: the service strategy first (opening the dbus
   * connection when systemd runs, and aborting if that fails), then the
   * package strategy from the override or detection.
   */
  method New(override: string, h: Host, dial: Result<DbusConn, string>) returns (r: Result<System, Fatal>)
    ensures r.Failure? <==> Configure(override, h, dial).Failure?
    ensures r.Failure? ==> r.error == Configure(override, h, dial).error
    ensures r.Success? ==> fresh(r.value) && r.value.Valid()
                           && r.value.Strategies() == Configure(override, h, dial).value
                           && r.value.ports == None
  {
    var service: ServiceStrategy;
    var conn: Option<DbusConn> := None;
    if h.systemd {
      service := NewServiceDbus;
      match dial
      case Failure(e) =>
        return Failure(Fatal(e, FatalExitCode));
      case Success(c) =>
        conn := Some(c);
    } else {
      service := NewServiceInit;
    }
    var package := SelectPackage(override, h);
    var system := new System(Wiring(package, service, conn));
    return Success(system);
  }
}
