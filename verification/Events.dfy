/** The bus vocabulary, and the supervisor's own commands and messages. */
module Events {
  import opened Config

  datatype Event =
    | ServiceStarted(name: string, wave: nat, kind: ServiceKind, pid: Option<nat>, probed: bool, dependsOn: seq<string>)
    | ServiceReady(name: string)
    | StartRequested(name: string)
    | StopRequested(name: string)
    | ServiceStopped(name: string)
    | BuildStarted(name: string, wave: nat, kind: ServiceKind, dependsOn: seq<string>)
    | BuildFinished(name: string)
    | OneshotCompleted(name: string, success: bool)
    | ServiceExited(name: string, status: string)
    | LogLine(service: string, line: string)
    | Supervisor(line: string)
    | ShutdownRequested

  /** Events that say nothing about any service's state. */
  predicate Chatter(e: Event) {
    e.LogLine? || e.Supervisor? || e.ShutdownRequested?
  }

  /** The service whose row an event may touch. */
  function About(e: Event): Option<string> {
    if Chatter(e) then None else Some(e.name)
  }
}

/** What reaches the kernel loop from outside it. */
module Messages {
  import opened Config

  datatype LifecycleReq =
    | Stop(service: string)
    | Start(service: string, noWait: bool)
    | Restart(service: string, build: bool, noWait: bool)
    | Build(service: string)

  /** Whether the client wants its answer at the spawn rather than at readiness. */
  predicate NoWait(req: LifecycleReq) {
    (req.Start? || req.Restart?) && req.noWait
  }

  datatype Phase = BuildPhase | StopPhase | StartPhase

  /** Identifies the command a completion belongs to. */
  type Seq = nat

  type ClientId = nat

  datatype KernelMsg =
    | Lifecycle(req: LifecycleReq, client: ClientId)
    | StopFinished(name: string, seqNo: Seq)
    | ProbeSettled(name: string, seqNo: Seq, result: Verdict)
    | BuildFinished(name: string, seqNo: Seq, result: Verdict)

  predicate Completion(m: KernelMsg) {
    !m.Lifecycle?
  }
}
