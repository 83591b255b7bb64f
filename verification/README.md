# goss system context, modelled in Dafny

This project models the environment-detection and wiring layer of goss, a
server validation tool (`system/system.go`). Before any resource check
runs, goss builds one `System` context per run. It chooses a
package-manager strategy (RPM, Debian or null) and a service strategy
(systemd over dbus, or init scripts). When systemd is chosen, it opens the
dbus connection and aborts the run if that fails. It binds the nine other
resource constructors, and it shares a port table that is scanned at most
once.

Files:

- `wrappers.dfy`: `Option` and `Result`.
- `detect.dfy` (module `Detect`): the host probes are inputs. A `Host`
  holds the set of files that exist, the set of commands that resolve on the
  search path, and whether systemd runs. This module holds `isRpm`,
  `isDeb`, `detectPackage` and the override switch, all as pure functions.
- `ports.dfy` (module `PortCache`): the once-semantics of `Ports` as a pure
  state transition (`Call`), plus its sequential composition over a run of
  calls (`Replay`).
- `system.dfy` (module `SystemContext`): the `Configure` decision function;
  the `System` class, whose strategy fields are constants and whose port
  cache is a mutable field updated by the `Ports` method; and the `New`
  builder, which returns either a `System` or a `Fatal` value.

Detection follows the code as written: the whole RPM check runs before any
of the Debian check. A markers-first reading (`Detect.MarkersFirst`), in
which any marker file decides before the binary clues, differs from the code
on exactly one family of hosts: a Debian marker, no Red Hat marker, and
`rpm` but not `dpkg` on the path. The code picks RPM there.
`Detect.DetectVersusMarkersFirst` characterises this difference exactly.

## Model

| member | source | states |
|---|---|---|
| `Detect.IsDeb` | system/system.go:91-102 | true iff `/etc/debian_version` exists, or `dpkg` resolves and `rpm` does not |
| `Detect.IsRpm` | system/system.go:104-118 | true iff `/etc/redhat-release` or `/etc/system-release` exists, or `rpm` resolves and `dpkg` does not |
| `Detect.DetectPackage` | system/system.go:80-89 | RPM whenever the RPM check holds, even if the Debian check also holds; Debian iff only the Debian check holds; null iff there are no marker files and both or neither of `rpm`/`dpkg` resolve (ambiguity gives the null strategy, not an error) |
| `Detect.SelectPackage` | system/system.go:68-75 | an override of exactly `"rpm"` gives RPM and exactly `"deb"` gives Debian; any other string falls through to detection |
| `Detect.OverrideIgnoresHost` | system/system.go:68-72 | under an `"rpm"`/`"deb"` override, every pair of hosts gets the same strategy, namely the one named |
| `Detect.EmptyOverrideDetects` | system/system.go:73-74 | an unset (empty) override means detection |
| `Detect.DetectionReadsFiveProbes` | system/system.go:91-125 | detection depends only on the three marker files and the two commands; hosts that agree on those get the same strategy |
| `Detect.BinaryCluesExclusive` | system/system.go:96-101 | without marker files, at most one check holds, and each holds iff its binary is the only one of the two that resolves |
| `Detect.BothMarkersYieldRpm` | system/system.go:80-89 | with a Debian marker and a Red Hat marker, both checks hold and RPM is chosen |
| `Detect.DetectVersusMarkersFirst` | system/system.go:80-118 | detection differs from a markers-first reading iff there is a Debian marker, no Red Hat marker, and `rpm` but not `dpkg` resolves; there the code gives RPM and the markers-first reading gives Debian |
| `Detect.Scenarios` | system/system.go:68-118 | concrete hosts: Debian marker only gives Debian; `dpkg` only gives Debian; both binaries or neither gives null; `"rpm"` override on a Debian-marker host gives RPM; Debian marker with only `rpm` gives RPM |
| `PortCache.Call` | system/system.go:36-41 | after a call the cache holds exactly what the call returned; a filled cache is never replaced; the first call returns the fresh scan |
| `PortCache.Replay` | system/system.go:36-41 | a run of sequential calls yields one result per call |
| `PortCache.ReplayReady` | system/system.go:36-41 | from a filled cache, any number of calls scans nothing and returns the stored table each time |
| `PortCache.ReplayOnce` | system/system.go:36-41 | any non-empty run of calls scans at most once (exactly once from an empty cache); every call returns the same snapshot however the host changes between calls |
| `SystemContext.Configure` | system/system.go:56-75 | construction fails iff systemd runs and the dbus connection fails, with the connection's error and exit status 1; otherwise the handle is present iff the dbus service strategy is chosen, that strategy is chosen iff systemd runs, the handle is the opened connection, and the package strategy is the override-or-detection choice |
| `SystemContext.InitHostNeverFails` | system/system.go:56-66 | without systemd, the dbus outcome is never consulted: construction succeeds with the init strategy and no handle |
| `SystemContext.PackageIndependentOfService` | system/system.go:56-75 | the package strategy does not depend on the systemd probe |
| `SystemContext.System.constructor` | system/system.go:44-54 | the nine resource constructors are bound to their own kinds on every host; the strategies are those given; the port cache starts empty with no scan run |
| `SystemContext.System.Ports` | system/system.go:36-41 | one call is `PortCache.Call` on the cache; a scan runs only when the cache was empty; a filled cache is returned untouched; the scan count stays at most one |
| `SystemContext.New` | system/system.go:43-78 | fails exactly when `Configure` does, with the same fatal value; otherwise returns a fresh, valid `System` whose strategies and handle are `Configure`'s choice and whose port cache is empty |

## Left out

- Host probing (`os.Stat`, `exec.LookPath`, `util.IsRunningSystemd`): these are inputs. The `Host` value gives the files that exist, the commands that resolve and the systemd flag. `hasCommand` is membership in the set of resolvable commands.
- `dbus.New()`: its outcome is an input (`dial`), consulted only when systemd runs. The connection is an opaque handle.
- `GetPorts` and GOnetstat's process record: the table a scan would return is an argument to each `Ports` call. The process descriptor holds pid, name, port and protocol, not GOnetstat's exact layout. GOnetstat is not part of this model.
- `SystemContext.System.Ports`: models the sequential once-semantics of `sync.Once` only. It does not model blocking of concurrent callers during the scan, or the effect of a scan that panics. The table is returned by value: the model does not capture that Go hands every caller the one shared map, so a caller that mutated it would change what later callers see; the "same snapshot" results of `PortCache.ReplayOnce` hold of the contents only as long as no caller writes to the map.
- `fmt.Println` and `os.Exit(1)`: these become the `Fatal` result, carrying the message and exit status 1.
- `cli.Context.GlobalString("package")`: the override is a plain string parameter.
- The resource constructors themselves (`NewFile`, `NewPackageRpm`, `NewServiceDbus`, …): they are opaque tags. Their bodies are not part of this model.
- The Go struct's function-valued fields are assignable. In the model they are constants fixed at construction, since nothing in the core reassigns them.
