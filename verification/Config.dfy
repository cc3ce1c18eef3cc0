/** What an arig stack is made of: service definitions, and the registry that
    says which runtimes and probes exist. */
module Config {

  datatype Option<+T> = None | Some(value: T)

  datatype ServiceKind = Service | Oneshot

  /** The parts of a service block the supervisor branches on. `body` stands for
      every field it only hands on to the runtime (command, image, env, ...). */
  datatype ServiceDef = ServiceDef(
    kind: ServiceKind,
    dependsOn: seq<string>,
    runtime: string,
    ready: Option<string>,
    body: string)

  /** Why a command, or startup as a whole, was answered with an error. */
  datatype Reason =
    | NoSuchService
    | IsOneshot
    | InProgress
    | AlreadyStopped
    | AlreadyRunning
    | NotRunning
    | CannotRead
    | NotInConfig
    | TypeChanged
    | DependsOnChanged
    | UnknownRuntime
    | RejectedByRuntime
    | RejectedProbe
    | NoBuild
    | CannotSpawn
    | Superseded
    | ShuttingDown
    | Because(text: string)

  datatype Verdict = Ok | Err(reason: Reason)

  datatype Result<+T> = Success(value: T) | Failure(error: Reason)

  /** What `Registry::ready_check` makes of a `ready:` block. */
  datatype Binding = Bound | Unbound | Refused

  /** The extension points, as the functions the supervisor calls on them. */
  datatype Registry = Registry(
    runtimes: set<string>,
    accepts: (string, ServiceDef) -> bool,
    builds: ServiceDef -> Option<ServiceDef>,
    binds: string -> Binding)

  /** Whether a readiness probe gates this definition. Oneshots never have one. */
  function ResolveProbe(registry: Registry, def: ServiceDef): Result<bool> {
    if def.kind.Oneshot? || def.ready.None? then Success(false)
    else match registry.binds(def.ready.value)
         case Refused => Failure(RejectedProbe)
         case Unbound => Success(false)
         case Bound => Success(true)
  }

  /** The definition asks for a readiness check and a probe serves it. */
  predicate Probed(registry: Registry, def: ServiceDef) {
    def.kind.Service? && def.ready.Some? && registry.binds(def.ready.value).Bound?
  }

  /** The definition asks for a readiness check that no probe can serve. */
  predicate Unservable(registry: Registry, def: ServiceDef) {
    def.kind.Service? && def.ready.Some? && registry.binds(def.ready.value).Refused?
  }

  /** A definition the registry can run under this name. */
  predicate Runs(registry: Registry, name: string, def: ServiceDef) {
    def.runtime in registry.runtimes && registry.accepts(name, def) && !Unservable(registry, def)
  }

  function ToSet(names: seq<string>): set<string> {
    set n | n in names
  }

  /** The part of a definition that a restart may not change. */
  predicate SameShape(a: ServiceDef, b: ServiceDef) {
    a.kind == b.kind && ToSet(a.dependsOn) == ToSet(b.dependsOn)
  }

  type Services = map<string, ServiceDef>

  /** Every dependency names a service, and sits in a strictly earlier wave. */
  ghost predicate Layered(services: Services, waveOf: map<string, nat>) {
    && services.Keys == waveOf.Keys
    && forall n, d | n in services && d in services[n].dependsOn ::
         d in services && waveOf[d] < waveOf[n]
  }
}
