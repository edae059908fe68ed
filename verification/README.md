# Decloud deployment model

Decloud deploys services on one host. A deploy changes three stores that share no transaction:
docker's containers, two registry files per service, and the Caddyfile with Caddy's running
configuration. This project models that protocol, the registry under it, and the pure code it
rests on, and proves what holds after any history of failures and kills.

## How it is built

| file | models |
|---|---|
| `Text.dfy` | byte-order sorting, splitting and joining, decimal numerals |
| `Types.dfy` | the records of `internal/registry/types.go`, the run request, `internal/ids/ids.go` |
| `Mounts.dfy` | mount grammar, duplicate finder, `--mount` parsing, `-v` formatting |
| `EnvCapture.dfy` | the `key=value\0` stream and the difference against a bare shell |
| `DockerArgv.dfy` | the two `docker run` command lines and docker's reading of them |
| `Caddyfile.dfy` | normalising, rendering and reading back the Caddyfile |
| `Readiness.dfy` | the readiness loop |
| `Host.dfy` | the world, the environment's faults, docker and file-system calls, `class Process` |
| `Registry.dfy`, `RegistryLaws.dfy` | Load, Save, Delete, List, ListNames; crash refinement |
| `Orchestrator.dfy` | Deploy with its compensation, publication, lifecycle commands |
| `DeployLaws.dfy`, `DeployTheorems.dfy` | isolation, publication, rollback, convergence of one deploy |
| `LifecycleLaws.dfy` | start, restart, unregister, status |
| `Routes.dfy` | from a request's hosts to the site blocks Caddy serves |
| `FirstFault.dfy`, `LateFault.dfy` | which step a single failing call is reported as, and what it leaves |
| `Runs.dfy` | whole histories of commands |
| `Cli.dfy` | what the command line checks before a deploy |

The world is a value: containers by name, the services directory, one secrets directory per
service, the Caddy directory, and the configuration Caddy runs. A process (`Host.Process`) carries
the world, whether it is alive, and a script of fates for its next calls: a call is fine, fails
(before, halfway through, or after taking effect, with or without a context error), or the process
is killed at it. A script that has run out means no further fault, so a statement over all scripts is
a statement over all faults, and an empty script is an undisturbed run. A dead process changes nothing
more. Docker refuses a second container under a name, refuses to remove a running one, and a failed
`run` may leave nothing, a container that never started, or a running one. `rename` is atomic; a
write can be torn; a directory with a file in it cannot be removed.

The program's procedures are methods on that process, written as the source writes them. Each is
proved equal to a specification function, and the theorems are about those functions. The deploy's
specification is not the program's text: it is a forward path (`Attempting`), a compensation chosen
by where that path broke (`Compensating`), and a publication (`Publishing`).

What the platform fixes is a parameter: the umask, which files `caddy validate` accepts, and the
number a temporary file's name is drawn with, for each content of its directory. The TOML
encoding is taken to be injective: a whole file holds a record, a torn one holds nothing readable.

## What the proofs found

- A registry stays loadable through any history exactly when the umask keeps the owner's bits
  (`Runs.NeverWedgedExactly`): otherwise a kill between `mkdir` and `chmod` leaves a secrets directory
  whose mode every later Load, and so every later deploy, rejects.
- A temporary file left by a kill in Save (`Runs.KillBlocksUnregister` gives the run) makes every
  later `unregister` of that service fail, after any further history. A registered service can ever
  be unregistered again if and only if its files are not corrupt and nothing but the secrets file lies
  among its secrets (`Runs.UnregistrableExactly`), although `_docs/usage.md` names
  `unregister` as the way to clean up a config-only service. A deploy is not blocked by the file.
- Corrupt registry files are final: no command changes them again, and every deploy and unregister
  returns the error of their Load (`Runs.CorruptStays`, `DeployTheorems.CorruptRefused`).
- An `unregister` whose Delete went through but whose publication failed cannot be repeated: the
  repeat is refused, and live routes stay until another command publishes (`Runs.RepeatedUnregister`).
- `start` fails on a container that was created but never started, is paused, or is restarting: it
  runs a second container under the same name. `restart` fails on one that never started.
- A redeploy that gives up while clearing the old container does not roll back: the service is
  still up if and only if the stop took no effect (`DeployTheorems.RefusedRedeployStaysUpExactly`).
- The rollback of a redeploy (its image new) brings the previous container back if and only if it
  frees the name and its `docker run` goes through (`DeployTheorems.RedeployRollsBack`). It stops and
  removes the new container after every failure but that of `docker run` itself: what a failed run
  left stays, under the old registration, even when nothing else fails.
- A rollback that cannot remove the config after a partial write only logs it: the previous container
  then runs under the new config with the old secrets
  (`DeployTheorems.PartialWriteInStepExactly`).
- An error of the stop after which the container no longer runs is absorbed: the redeploy goes on as
  if undisturbed (`FirstFault.FaultNamesTheStep`).
- `restart` of a service that does not load stops its container and leaves it stopped.
- `unregister` can succeed and leave the container; `_docs/usage.md` calls it full removal. It does
  so if and only if the `docker rm` took no effect, of itself or because the stop took none and the
  container still runs (`LifecycleLaws.UnregisterLeavesContainerExactly`).
- One transient read error while List runs drops a service's routes from Caddy, and the command
  reports success.
- `_docs/usage.md` says a broken Caddyfile cannot reach disk. The first stub is written in place, so
  a kill can leave part of it as the live file: possible if and only if there is no live file yet
  (`DeployTheorems.StubTornExactly`). Every live file but the stub was accepted by Caddy.
- The label gate guards only names that do not load. A deploy of a registered service replaces
  whatever container stands under its name, whoever made it.
- A readiness timeout below one second is truncated to zero and becomes 60 seconds.
- Without any cancellation by the user, a readiness failure is still reported as an interrupt
  exactly when the last probe ran into its own time limit.
- `_ai/decisions/secrets-split.md` says files are synced before the rename and that schema versions are
  compared across the two files; the code does neither. The model follows the code and speaks of
  killed processes, not of power loss.

## Model

| member | source | states |
|---|---|---|
| Runs.AlwaysConverges | internal/deploy/service.go:158-384 | after any sequence of commands with any failures and kills, unless others put a container under this name, one undisturbed deploy brings the service up in step with what Load returns, and succeeds exactly when Caddy accepts the new file |
| Runs.ConvergesAfterAnything | internal/deploy/service.go:203-251 | the same when others may do anything to docker's containers: convergence holds exactly behind the gate (the name loads, or no container of another owner stands under it), and with the gate shut nothing changes |
| Runs.NeverWedgedExactly | internal/registry/store.go:148-154 | over every history Load answers only with success, not registered, or secrets missing, and the files are not corrupt, if and only if the umask keeps the owner's bits |
| Runs.LiveAlwaysAccepted | internal/deploy/service.go:413-426 | over every history, whatever the umask and the requests, the live Caddyfile is missing, the stub, a cut-short stub, or a file Caddy accepted |
| Runs.UnregistrableExactly | internal/deploy/lifecycle.go:15-35 | a registered service can be unregistered after some further history if and only if its files are not corrupt and nothing but the secrets file lies among its secrets; otherwise every Unregister fails, after any history and under any faults |
| Runs.KillBlocksUnregister | internal/registry/store.go:280-291 | a run whose kill leaves the service registered and every later Unregister of it failing |
| Runs.LeftoverStays | internal/registry/store.go:129-176 | no command, under any faults, ever removes a temporary file from a service's secrets |
| Runs.CorruptStays | internal/registry/store.go:62-127 | files that Load rejects for good, described without Load, stay as they are through every further history, with the same answer |
| Runs.RepeatedUnregister | internal/deploy/lifecycle.go:15-35 | repeating a failed or killed unregister: while the config is there it succeeds exactly when no leftover and not Caddy is in the way; once it is gone the repeat is refused and changes nothing, and one publication that Caddy accepts removes the routes |
| Runs.CommandIsolated | internal/registry/store.go:50-60 | no command, whatever fails, changes another service's container, config or secrets, or any container but its own |
| Runs.CommandKeepsOwned | internal/deploy/service.go:253-262 | no command puts a container of another owner under a service's name |
| Runs.InvAlways | internal/registry/store.go:129-176 | every history keeps all published registry files whole, valid and of the right mode |
| Runs.Execute | internal/deploy/lifecycle.go:15-89 | a command of a history is the program's procedure |
| DeployTheorems.Converges | internal/deploy/service.go:158-384 | one undisturbed deploy from any sound state: success if and only if the gate is open and Caddy accepts, and the stores then agree |
| DeployTheorems.ForwardSucceeds | internal/deploy/service.go:203-377 | behind an open gate the forward path ends with the requested container running and the request registered, no other container changed |
| DeployTheorems.RedeployRollsBack | internal/deploy/service.go:263-313 | a redeploy that breaks at run, readiness or save, whatever fails before and during the rollback: what stands under the name for each outcome of the cleanup calls, the previous container running if and only if the name was freed and the run went through; no other container changes; the registration is unchanged, or after a partial write gone, or new if its removal failed; the gate is open |
| DeployTheorems.PartialWriteInStepExactly | internal/deploy/service.go:351-375 | after a partial write in a redeploy: what Load returns, and that container and registration agree if and only if neither the removal of the config nor the stop took effect and the environment is the same |
| DeployTheorems.FirstDeployCleansUp | internal/deploy/service.go:263-375 | a first deploy that breaks likewise, whatever fails: its container is gone if and only if the cleanup freed the name; no config stays unless its removal failed; the gate is open |
| DeployTheorems.RefusalLeaves | internal/deploy/service.go:203-251 | a deploy that gives up before running starts nothing and touches no registry file; its container is unchanged, stopped or gone |
| DeployTheorems.RefusedRedeployStaysUpExactly | internal/deploy/service.go:203-221 | a redeploy that gives up while clearing leaves the running service up if and only if the stop took no effect; otherwise it is stopped or gone |
| DeployTheorems.RegisteredAndRunning | internal/deploy/service.go:378-430 | under any faults, success or a failure of the Caddy step leaves the service registered and running as requested |
| DeployTheorems.DeployedExactly | internal/deploy/service.go:253-350 | under any faults, a deploy that succeeds or fails only in the Caddy step leaves, field by field, the requested container, config file, secrets file and Load answer: environment from the script or empty, image, restart policy, network, label, tag, mounts, source, Dockerfile, port, routes, readiness, deploy id, file modes |
| FirstFault.FaultNamesTheStep | internal/deploy/service.go:158-313 | one failing call up to readiness, in a first deploy, one that meets its own orphan, or a redeploy over a container in any state or none, with or without an env script, whatever the call did first: it is reported as that step's error, in the deploy's order, except a stop error after which the container is removable; states what stands under the name for each step and effect, and that nothing else changes |
| LateFault.LateFaultNamesTheStep | internal/deploy/service.go:316-384 | one failing call from Save on: in Save it is the save error, partial exactly from the second file on; later the deploy is a publication from the requested state |
| LateFault.PublishNamesTheStep | internal/deploy/service.go:408-431 | one failing call of a publication is reported as listing, generating, validating, renaming or reloading, in this order; making the stub and reading a service are forgiven |
| LateFault.SaveFails | internal/registry/store.go:129-160 | one failing call of Save: up to the config's rename nothing at all has changed, after it the write is partial and no temporary file stays |
| LateFault.WriteFails | internal/registry/store.go:280-305 | one failing call of a whole-file write leaves all as before, except that the Caddyfile's writer leaves its temporary file when the rename fails |
| Routes.DeployedRoutesAreServed | internal/deploy/service.go:316-342 | after an undisturbed successful deploy, under any umask, the blocks Caddy runs for the container are exactly the requested non-empty hosts, with the requested port and compression, and the file reads back to them |
| Routes.SitesOfService | internal/caddy/generator.go:61-89 | in a sound registry the sites that proxy to a service's container are exactly the ones its registration asks for |
| DeployTheorems.ForeignContainerSafe | internal/deploy/service.go:222-251 | a name that does not load, met by a container of another owner: the deploy changes nothing whatever fails |
| DeployTheorems.CorruptRefused | internal/deploy/service.go:182-186 | onto corrupt files a deploy changes nothing under any faults, and undisturbed returns the error of its Load |
| DeployTheorems.ThreeBuildersOneContainer | internal/deploy/lifecycle.go:67-76 | after Save and Load, start and rollback ask docker for exactly what the deploy asked for |
| DeployTheorems.BuildersAsRegistered | internal/deploy/service.go:386-399 | start and rollback ask for exactly the container whose every field is the registration's |
| DeployTheorems.InStepExactly | internal/deploy/lifecycle.go:67-76 | what in step means: the named container runs and agrees with the loaded registration in every field |
| DeployTheorems.StoresAgree | internal/deploy/service.go:408-431 | a successful publication leaves Caddy's configuration and the live file equal to the rendering of what List saw: all loadable services if and only if no read of one failed |
| DeployTheorems.DeployedStoresAgree | internal/deploy/service.go:378-431 | under any faults, a successful deploy leaves the service in step with its registration, and Caddy's configuration and the live file equal to the rendering of what List saw, complete if and only if no read failed |
| DeployTheorems.TransientReadDropsRoutes | internal/registry/store.go:215-222 | one failed read of any listed service: publication succeeds if and only if Caddy accepts, and what goes live is the rendering of all loadable services but that one |
| DeployTheorems.StubTornExactly | internal/caddy/stub.go:18-28 | a publication can leave a torn live file if and only if there is no live file yet |
| DeployTheorems.PublishSucceedsExactly | internal/deploy/service.go:408-431 | undisturbed, publication succeeds if and only if Caddy accepts the rendering |
| DeployTheorems.PublishesExactly | internal/deploy/service.go:408-431 | undisturbed, byte for byte: an accepted file is live and loaded; for a rejected one validation's error, the live file and the configuration unchanged, or the stub where there was no file; no staged file left |
| DeployLaws.PublishedSafely | internal/deploy/service.go:408-431 | whatever fails, the live file is unchanged, a stub where none was, or an accepted rendering; failures before the rename never alter an existing file |
| DeployLaws.StagedSafely | internal/caddy/generator.go:91-115 | whatever fails, writing the stub and the staged file touches the live file only to write the stub where there was none; success leaves the staged file whole |
| DeployLaws.DeployIsolated | internal/deploy/service.go:158-384 | a deploy changes only its own service, for any faults, and keeps the registry sound |
| DeployLaws.ScanShows | internal/registry/store.go:209-224 | List returns a subsequence of the loadable services, complete exactly when no read of a loadable one fails |
| LifecycleLaws.StartSucceedsExactly | internal/deploy/lifecycle.go:48-82 | undisturbed, start succeeds if and only if the service loads and its container is running, exited or absent; which error it returns otherwise |
| LifecycleLaws.StartReports | internal/deploy/lifecycle.go:48-82 | under any faults: what start replies and what it leaves of the container for each outcome of its load, its inspection and its one docker call |
| LifecycleLaws.RestartSucceedsExactly | internal/deploy/lifecycle.go:84-89 | undisturbed, restart succeeds if and only if the service loads and its container is not one that never started; otherwise it can leave it stopped |
| LifecycleLaws.RestartReports | internal/deploy/lifecycle.go:84-89 | under any faults: a failed stop ends restart, an absent container does not |
| LifecycleLaws.StopSucceedsExactly | internal/deploy/lifecycle.go:37-46 | stop succeeds, undisturbed, if and only if there is a container; what it leaves of the container, under any faults |
| LifecycleLaws.UnregisterRemovesRoutes | internal/deploy/lifecycle.go:15-35 | after a successful unregister, under any faults, both files are gone and no site proxies to the container |
| LifecycleLaws.UnregisterSucceedsExactly | internal/deploy/lifecycle.go:15-35 | undisturbed, unregister succeeds if and only if the service is registered, no temporary file remains among its secrets and Caddy accepts; which error it returns otherwise |
| LifecycleLaws.UnregisterReports | internal/deploy/lifecycle.go:15-35 | under any faults: what each reply says of the two files |
| LifecycleLaws.UnregisterLeavesContainerExactly | internal/deploy/lifecycle.go:25-34 | over all faults, a successful unregister leaves the container if and only if the rm took no effect, of itself or because the container still ran; says which container stays |
| LifecycleLaws.UnregisterCanLeaveContainer | internal/deploy/lifecycle.go:25-30 | a run in which a running container outlives a successful unregister, for every loadable service without a leftover |
| LifecycleLaws.StatusTells | internal/deploy/lifecycle.go:91-118 | undisturbed, running, stopped and absent mean exactly that of the container, with the registered deploy id |
| LifecycleLaws.StatusExactly | internal/deploy/lifecycle.go:91-118 | under any faults: config-only exactly for a good config without secrets, error exactly for corrupt files, a failed read or a failed inspection, the container's state and the deploy id otherwise; and the error Status itself returns |
| LifecycleLaws.TwoReadersAgree | internal/deploy/lifecycle.go:136-158 | status has one row per config file in strict name order under any faults, each the right one for what could be read and inspected; undisturbed its broken rows are exactly what List skips, and have no site |
| RegistryLaws.SaveCrashSafe | internal/registry/store.go:129-160 | a kill anywhere in Save leaves old-old, new-old or new-new, never old-new or a torn file; the result says which, and no other service is touched |
| RegistryLaws.DeleteCrashSafe | internal/registry/store.go:162-176 | a kill anywhere in Delete leaves both files, the config alone, or neither |
| RegistryLaws.DeleteSucceedsExactly | internal/registry/store.go:165-174 | undisturbed, Delete succeeds if and only if nothing but the secrets file is in the directory |
| RegistryLaws.InterruptedSaveLoads | internal/registry/store.go:144-158 | an interrupted update still loads, as the old, the mixed or the new registration |
| RegistryLaws.KillBetweenTheFiles | internal/registry/store.go:145-150 | a kill between the files makes Load return the new config with the old secrets |
| RegistryLaws.InterruptedDeleteLoads | internal/registry/store.go:162-176 | after an interrupted Delete, Load answers as before, or secrets missing, or not registered |
| RegistryLaws.SavedLoads | internal/registry/store.go:62-127 | after a successful Save, Load returns what was saved if and only if its schema versions, mounts and strategy are the ones Load knows |
| RegistryLaws.SavedExactly | internal/registry/store.go:129-160 | what a successful Save has written: file names, modes, and every field with its default |
| RegistryLaws.SoundLoads | internal/registry/store.go:62-127 | in a sound registry a service loads if and only if both files are there, and the two other answers are exactly their absence |
| RegistryLaws.LoadExactly | internal/registry/store.go:62-127 | in every world, each of Load's nine answers exactly from the files: text, schema, mounts and strategy of the config, then presence, modes, text and schema of the secrets |
| RegistryLaws.MaskedOwnerWedges | internal/registry/store.go:149-154 | with an owner bit in the umask a killed first Save makes Load fail on the directory's mode |
| Host.WriteAtomicWhole | internal/registry/store.go:280-305 | a whole-file write leaves the old or the new file and at most one temporary file, and succeeds undisturbed |
| Host.CommandLineMakesTheContainer | internal/dockerdrv/cli_driver.go:47-74 | the container of a request is the one docker reads from Run's command line |
| Host.Process.WriteWhole | internal/registry/store.go:280-305 | the statements of the whole-file writers meet their specification |
| Registry.Save | internal/registry/store.go:129-160 | the statements of Save meet their specification |
| Registry.Delete | internal/registry/store.go:162-176 | the statements of Delete meet their specification |
| Registry.CollectNames | internal/registry/store.go:194-205 | the directory loop yields each registered name once |
| Registry.ListNames | internal/registry/store.go:186-207 | the sorted result is the strictly increasing list of the names with a config file |
| Registry.List | internal/registry/store.go:209-224 | the loop returns what its specification scans |
| Orchestrator.Deploy | internal/deploy/service.go:158-251 | the statements of Deploy are the forward path, its compensation and the publication |
| Orchestrator.DeployFrom | internal/deploy/service.go:253-384 | the same for the part that starts the new container |
| Orchestrator.RegenerateAndReload | internal/deploy/service.go:408-431 | the statements of the publication meet their specification |
| Orchestrator.Unregister | internal/deploy/lifecycle.go:15-35 | the statements of Unregister meet their specification |
| Orchestrator.StartService | internal/deploy/lifecycle.go:48-82 | the statements of Start meet their specification |
| Orchestrator.StopService | internal/deploy/lifecycle.go:37-46 | under any faults: success means the container is there and runs no longer, not-found that there is none and nothing changed; no other container is touched; when it succeeds is LifecycleLaws.StopSucceedsExactly |
| Orchestrator.RestartService | internal/deploy/lifecycle.go:84-89 | the statements of Restart meet their specification |
| Orchestrator.StatusAll | internal/deploy/lifecycle.go:136-158 | the loop returns the rows of its specification |
| Orchestrator.ListedNamesDiffer | internal/registry/store.go:209-224 | List never returns two services of one name, so the rendering is determined |
| Caddyfile.CanonicalForm | internal/caddy/generator.go:61-89 | the rendering does not depend on the order of services or of a service's routes |
| Caddyfile.SitesConserved | internal/caddy/generator.go:61-89 | exactly one site block per non-empty route, with its own service's upstream, port and compression |
| Caddyfile.DeclaredExactly | internal/caddy/generator.go:61-86 | how often a service declares a site: once for each time the non-empty host is among its routes, to its recorded container or decloud- and its name |
| Caddyfile.RowsInOrder | internal/caddy/generator.go:73-88 | rows stand in the byte order of service names, hosts of a row in byte order |
| Text.LeExactly | internal/registry/store.go:205 | the order of names and hosts is byte order: a prefix, or smaller at the first difference |
| Caddyfile.RenderReadsBack | internal/caddy/generator.go:36-59 | a line parser with its own idea of the text recovers the blocks: host, container, decimal port, encode flag, in order |
| Caddyfile.OneServiceText | internal/caddy/generator.go:36-59 | the file for one service with one host, line by line |
| Caddyfile.Generate | internal/caddy/generator.go:36-59 | the printing loops produce the document of the name-sorted rows, and Render when names differ |
| Caddyfile.CollectRows | internal/caddy/generator.go:61-86 | the collecting loops produce one row per routed service |
| DockerArgv.RunMeaning | internal/dockerdrv/cli_driver.go:47-75 | docker reads from Run's words exactly the name, network, restart, tag, label, env, ordered volumes and image |
| DockerArgv.RunWithOptionsMeaning | internal/dockerdrv/cli_driver.go:237-274 | the same for RunWithOptions, with its labels and ports |
| DockerArgv.BuildersAgree | internal/dockerdrv/cli_driver.go:237-274 | both builders refuse the same services and mean the same launch despite their flag order |
| DockerArgv.RefusedExactly | internal/dockerdrv/cli_driver.go:47-53 | a service without a name and one with a slash are refused, each with its own error, and no other |
| DockerArgv.KeysInOrder | internal/dockerdrv/cli_driver.go:61-68 | variables and labels are given in the byte order of their names |
| DockerArgv.PortMapReadsBack | internal/dockerdrv/cli_driver.go:310-319 | every published port reads back from its text, bracketed interfaces included; an empty protocol is tcp |
| DockerArgv.BuildRun | internal/dockerdrv/cli_driver.go:47-75 | the appending loops build Run's words |
| DockerArgv.BuildRunWithOptions | internal/dockerdrv/cli_driver.go:237-274 | the appending loops build RunWithOptions' words |
| Mounts.AcceptedIsVerbatim | internal/registry/mount.go:72-98 | an accepted mount string reaches docker's `-v` unchanged |
| Mounts.PrintedParsesBack | internal/dockerdrv/cli_driver.go:321-327 | every valid colon-free mount is recovered from its printed form |
| Mounts.AcceptedExactly | internal/registry/mount.go:72-98 | a string is accepted if and only if it prints a valid colon-free mount |
| Mounts.ParsedExactly | internal/registry/mount.go:23-98 | which mount each string parses to, character by character |
| Mounts.NamedExactly | internal/registry/mount.go:19-21 | on valid mounts the named flag holds exactly for volume names |
| Mounts.FindDuplicateTarget | internal/registry/mount.go:106-115 | the least index whose target occurred before and the one earlier index; nothing found if and only if targets are distinct |
| Mounts.ValidateMounts | internal/registry/mount.go:52-63 | accepts exactly lists of valid mounts with distinct targets |
| Mounts.ParseMountFlags | internal/cli/deploy_service.go:176-193 | accepts exactly lists that print valid mounts with distinct targets; the accepted list passes the loader |
| Mounts.ToVolumeMounts | internal/deploy/service.go:437-451 | the loop keeps order and derives the named flag |
| Cli.RunDeployService | internal/cli/deploy_service.go:74-138 | which fault of the flags is reported, in order; an accepted request carries every flag unchanged and meets the deploy's assumptions; docker receives the mount strings verbatim; which env script is used |
| EnvCapture.StreamRoundTrip | internal/envcap/capture.go:88-103 | reading the emitted stream, in any order, gives exactly the environment |
| EnvCapture.ReadAllExactly | internal/envcap/capture.go:88-103 | reading any stream: a variable has the value of the last record that assigns it; records without `=` say nothing |
| EnvCapture.ParseNullDelimited | internal/envcap/capture.go:88-103 | the record loop meets the reading function |
| EnvCapture.DiffEnv | internal/envcap/capture.go:105-117 | keeps exactly the new or changed non-internal keys: the least map that turns the baseline into the full environment on them |
| EnvCapture.InternalExactly | internal/envcap/capture.go:119-131 | exactly which variables are bash's own |
| EnvCapture.Capture | internal/envcap/capture.go:46-69 | each error exactly when it applies; otherwise, from the two shells' listings in any order, exactly the variables the script added or changed |
| Readiness.Wait | internal/deploy/readiness.go:38-76 | the three verdicts, the number of rounds and the end told exactly by the ends of the rounds, the deadline and the cancellation; the bound; when an interrupt is reported |
| Readiness.DeployProbes | internal/deploy/service.go:276-284 | the path, interval and whole seconds a deploy's probe is given |
| Readiness.TimeoutKeptFromOneSecond | internal/deploy/service.go:277-282 | a requested timeout is kept, to whole seconds, if and only if it is at least one second |

## Left out

- The concrete TOML encoding, JSON parsing and docker's error texts: foreign formats, taken as injective or as outcomes of a call.
- Running bash, docker, HTTP and Caddy: their outcomes are fates, their effects on the world are modelled.
- Power loss: a kill stops the process, what was written stays written.
- Two decloud processes at once: the code takes no locks, so commands are sequential.
- The contents of images and networks, timestamps, image and container ids in the registry, and the fields never set by a deploy.
- The ingress container beyond its running configuration: `decloud stop caddy` reaches it, because the name is not checked, and the failures of validate and reload that follow are fates of the later calls.
- `caddy up`, `caddy down` and path translation for the reloader.
- Logging, the `logs` command, table output, and the exit-code table.
- Registry names for which path joining would not be concatenation (empty, `.`, `..`, or with a slash); they load in the model like any other name.
- An absent services directory: it is an empty one, which is how ListNames reads it.
