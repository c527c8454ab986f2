/** Handing an update over to its helper: the controller of the running application (its user
    interface thread and one worker thread), the helper processes, and the files of each update job
    they communicate through. */
module Handoff {
  import opened Options

  type JobId = nat
  type Version = nat

  datatype Phase = Ready | Failed | Cancelled | Installing | Recovering | Complete | RebootRequired | StartupFailed

  /** What install-authorized.json says. The token of a job is as unique as its directory. */
  datatype Authorization = Authorization(token: JobId, version: Version)

  /** Where the helper of a job is. */
  datatype Helper =
    | Unborn
    | Verifying                  // the payload, the version, the parent process
    | Waiting                    // for the application to exit
    | ParentGone                 // about to look for a cancellation
    | NotCancelled               // about to look for the authorization
    | Approved                   // about to install
    | Running                    // the installer was started, or the old application again
    | Ended

  /** A job directory. `requested` is job.json, `cancel` is cancel.json, both with the job's token.
      `installed` records that the installer was started. */
  datatype Job = Job(version: Version, requested: bool, state: Option<Phase>, cancel: bool,
                     authorization: Option<Authorization>, helper: Helper, installed: bool)

  function NewJob(version: Version): Job {
    Job(version, false, None, false, None, Unborn, false)
  }

  datatype Result =
    | Error
    | NoUpdate
    | Offer(version: Version)
    | Downloaded(job: JobId)
    | Paused(done: bool)
    | Launched(job: JobId)

  datatype Stage = CheckStage | DownloadStage | PauseStage | LaunchStage

  /** Where the worker thread is; it keeps the generation it was started in. */
  datatype Worker =
    | NoWorker
    | Working(generation: nat, stage: Stage)                 // checking, downloading, pausing
    | Requesting(generation: nat, target: JobId)             // write job.json
    | Spawning(generation: nat, target: JobId)               // start the helper
    | Polling(generation: nat, target: JobId)                // until the helper is ready
    | Abandoning(generation: nat, target: JobId)             // write cancel.json: the launch failed
    | Publishing(generation: nat, target: JobId)             // hand the job to the controller
    | Revoking(generation: nat, target: JobId, read: bool)   // cancel it at once; `read`: state.json was read
    | Finished(generation: nat, stage: Stage, result: Result)

  /** What the interface thread does after cancelling a job. */
  datatype After = AfterClose | AfterFailure | AfterBegin

  datatype Interface =
    | Free
    | Cancelling(target: JobId, read: bool, after: After)
    | Authorizing(target: JobId, read: bool)
    | Committing(target: JobId)          // the authorization is written

  // ----- the controller -----

  /** The fields of the update controller; `inProgress` is the application scope it froze. */
  datatype Controller = Controller(
    busy: bool,
    closed: bool,
    cancelled: bool,
    generation: nat,
    plan: Option<Version>,
    downloaded: Option<JobId>,
    job: Option<JobId>,
    dialog: bool,
    visible: bool,
    paused: bool,
    handoffStarted: bool,
    handoffCommitted: bool,
    inProgress: bool)

  const NEW_CONTROLLER :=
    Controller(false, false, false, 0, None, None, None, false, false, false, false, false, false)

  /** What the interface thread does next. */
  datatype Action =
    | Rest
    | Start(stage: Stage)
    | Launch(job: JobId)
    | Cancel(target: JobId, after: After)
    | Authorize(job: JobId)

  type Move = (Controller, Action)

  function Begin(c: Controller, stage: Stage): Move {
    (c.(busy := true), Start(stage))
  }

  function ReleaseHandoff(c: Controller): Controller {
    if c.handoffStarted then c.(paused := false, handoffStarted := false, inProgress := false) else c
  }

  /** The window, the profile and the input state are `fit` for the installation. */
  predicate HandoffValid(c: Controller, fit: bool) {
    !c.closed && !c.cancelled && c.dialog && c.visible && fit
  }

  function BeginHandoff(c: Controller, fit: bool): Move {
    if !c.dialog || c.downloaded == None || !fit || c.inProgress then (c, Rest)
    else Begin(c.(handoffStarted := true, paused := true, inProgress := true), PauseStage)
  }

  /** Going on after a job was cancelled; `works` tells whether it could be. */
  function Continue(c: Controller, after: After, works: bool, fit: bool): Move {
    match after
    case AfterClose => (if !c.busy && !c.handoffCommitted then ReleaseHandoff(c) else c, Rest)
    case AfterFailure => (ReleaseHandoff(c), Rest)
    case AfterBegin =>
      if !works then (c, Rest)
      else
        var next := c.(generation := c.generation + 1, cancelled := false);
        if next.downloaded.Some? then BeginHandoff(next, fit) else Begin(next, DownloadStage)
  }

  /** Cancelling the job the controller has, if any, then going on. */
  function CancelJob(c: Controller, after: After, fit: bool): Move {
    match c.job
    case None => Continue(c, after, true, fit)
    case Some(j) => (c.(downloaded := None), Cancel(j, after))
  }

  function CheckForUpdates(c: Controller): Move {
    if c.closed || c.busy || (c.dialog && c.visible) then (c, Rest)
    else Begin(c.(generation := c.generation + 1, cancelled := false), CheckStage)
  }

  function BeginInstall(c: Controller, fit: bool): Move {
    if c.closed || c.busy || c.plan == None || !c.dialog then (c, Rest)
    else CancelJob(c, AfterBegin, fit)
  }

  function UserCancels(c: Controller): Controller {
    if c.dialog then c.(cancelled := true, visible := false) else c
  }

  function DialogDestroyed(c: Controller): Move {
    var gone := c.(dialog := false, visible := false);
    if !c.dialog then (c, Rest)
    else if c.handoffCommitted then (gone, Rest)
    else if c.busy then (gone.(cancelled := true), Rest)
    else CancelJob(gone.(cancelled := true), AfterFailure, false)
  }

  function Close(c: Controller): Move {
    if c.handoffCommitted then Continue(c.(closed := true), AfterClose, true, false)
    else CancelJob(c.(closed := true, cancelled := true), AfterClose, false)
  }

  /** The result of an operation of the current generation arrives. */
  function Completed(c: Controller, stage: Stage, result: Result, fit: bool): Move {
    TakeResult(c.(busy := false), stage, result, fit)
  }

  function TakeResult(c: Controller, stage: Stage, result: Result, fit: bool): Move {
    if c.closed then (ReleaseHandoff(c), Rest)
    else match result
      case Error =>
        var failed := if stage == LaunchStage then c.(downloaded := None) else c;
        if stage == CheckStage then (failed, Rest) else CancelJob(failed, AfterFailure, fit)
      case NoUpdate => (c, Rest)
      case Offer(version) =>
        (c.(plan := Some(version), downloaded := None, dialog := true, visible := true), Rest)
      case Downloaded(j) =>
        if c.cancelled then (c, Rest) else BeginHandoff(c.(downloaded := Some(j)), fit)
      case Paused(done) =>
        if !HandoffValid(c, fit) || !done || c.downloaded == None then CancelJob(c, AfterFailure, fit)
        else (c.(busy := true), Launch(c.downloaded.value))
      case Launched(j) =>
        if !HandoffValid(c, fit) then CancelJob(c, AfterFailure, fit) else (c, Authorize(j))
  }

  function Commit(c: Controller): Controller {
    c.(handoffCommitted := true, job := None, visible := false)
  }

  // ----- the application -----

  datatype System = System(
    jobs: map<JobId, Job>,
    updateMutex: Option<JobId>,    // held by the helper of a job
    exited: bool,                  // the process of the application
    interface: Interface,
    worker: Worker,
    c: Controller)

  const START := System(map[], None, false, Free, NoWorker, NEW_CONTROLLER)

  function With(y: System, j: JobId, job: Job): System {
    y.(jobs := y.jobs[j := job])
  }

  function Perform(y: System, move: Move): System {
    var next := y.(c := move.0, interface := Free);
    match move.1
    case Rest => next
    case Start(stage) => next.(worker := Working(move.0.generation, stage))
    case Launch(j) => next.(worker := Requesting(move.0.generation, j))
    case Cancel(j, after) => next.(interface := Cancelling(j, false, after))
    case Authorize(j) => next.(interface := Authorizing(j, false))
  }

  /** The worker is not between publishing a job and having cancelled it. */
  predicate LockFree(y: System) {
    !y.worker.Revoking?
  }

  /** The end of a worker arrives at the interface thread. */
  function Arrive(y: System, fit: bool): System
    requires y.worker.Finished?
  {
    var ended := y.(worker := NoWorker);
    if y.worker.generation != y.c.generation then ended    // an older operation, see NoStaleCompletion
    else Perform(ended, Completed(y.c, y.worker.stage, y.worker.result, fit))
  }

  function StateOf(y: System, j: JobId): Option<Phase> {
    if j in y.jobs then y.jobs[j].state else None
  }

  datatype Reading = Nothing | Write | Refuse

  /** What cancel_update does after reading the state. */
  function ReadForCancel(state: Option<Phase>): Reading {
    match state
    case Some(Ready) => Write
    case Some(Failed) => Nothing
    case Some(Cancelled) => Nothing
    case _ => Refuse
  }

  function CancelFile(y: System, j: JobId): System {
    if j in y.jobs then With(y, j, y.jobs[j].(cancel := true)) else y
  }

  function GoOn(y: System, after: After, works: bool, fit: bool): System {
    Perform(y, Continue(if works then y.c.(job := None) else y.c, after, works, fit))
  }

  /** One step of cancelling a job on the interface thread; `works` tells whether the file can be
      read or written. A failure keeps the job. */
  function CancelStep(y: System, works: bool, fit: bool): System
    requires y.interface.Cancelling?
  {
    var i := y.interface;
    if !works then GoOn(y, i.after, false, fit)
    else if i.read then GoOn(CancelFile(y, i.target), i.after, true, fit)
    else match ReadForCancel(StateOf(y, i.target))
      case Nothing => GoOn(y, i.after, true, fit)
      case Write => y.(interface := Cancelling(i.target, true, i.after))
      case Refuse => GoOn(y, i.after, false, fit)
  }

  /** One step of authorizing: reading the files, then writing the authorization. */
  function AuthorizeStep(y: System, works: bool): System
    requires y.interface.Authorizing?
  {
    var j := y.interface.target;
    if !works || j !in y.jobs then Perform(y, CancelJob(y.c, AfterFailure, false))
    else if !y.interface.read then
      if y.jobs[j].state == Some(Ready) && y.jobs[j].requested && !y.jobs[j].cancel
      then y.(interface := Authorizing(j, true))
      else Perform(y, CancelJob(y.c, AfterFailure, false))
    else
      With(y, j, y.jobs[j].(authorization := Some(Authorization(j, y.jobs[j].version)))).(interface := Committing(j))
  }

  datatype InterfaceStep =
    | CheckForUpdatesStep
    | BeginInstallStep(fit: bool)
    | UserCancelsStep
    | DialogDestroyedStep
    | CloseStep
    | ArriveStep(fit: bool)
    | FileStep(works: bool, fit: bool)
    | CommitStep

  /** What cancels a job needs the lock. */
  predicate NeedsLock(s: InterfaceStep) {
    s.BeginInstallStep? || s.DialogDestroyedStep? || s.CloseStep?
  }

  /** One step of the interface thread: an event when it is free, else the next file operation. */
  function NextInterface(y: System, s: InterfaceStep): System {
    if y.interface.Cancelling? then (if s.FileStep? then CancelStep(y, s.works, s.fit) else y)
    else if y.interface.Authorizing? then (if s.FileStep? then AuthorizeStep(y, s.works) else y)
    else if y.interface.Committing? then (if s.CommitStep? then y.(c := Commit(y.c), interface := Free) else y)
    else if NeedsLock(s) && !LockFree(y) then y
    else match s
      case CheckForUpdatesStep => Perform(y, CheckForUpdates(y.c))
      case BeginInstallStep(fit) => Perform(y, BeginInstall(y.c, fit))
      case UserCancelsStep => y.(c := UserCancels(y.c))
      case DialogDestroyedStep => Perform(y, DialogDestroyed(y.c))
      case CloseStep => Perform(y, Close(y.c))
      case ArriveStep(fit) => if y.worker.Finished? then Arrive(y, fit) else y
      case FileStep(_, _) => y
      case CommitStep => y
  }

  // ----- the worker thread -----

  function Finish(y: System, stage: Stage, result: Result): System
    requires y.worker != NoWorker
  {
    y.(worker := Finished(y.worker.generation, stage, result))
  }

  datatype WorkerStep =
    | FindStep(found: Option<Version>, works: bool)
    | DownloadStep(named: JobId, works: bool)
    | PauseStep(done: bool, works: bool)
    | RequestStep(works: bool)
    | SpawnStep(works: bool)
    | PollStep(givesUp: bool)
    | AbandonStep(works: bool)
    | PublishStep
    | RevokeStep(works: bool)

  function Request(y: System, works: bool): System
    requires y.worker.Requesting?
  {
    var j := y.worker.target;
    if !works || j !in y.jobs || y.jobs[j].requested then Finish(y, LaunchStage, Error)
    else With(y, j, y.jobs[j].(requested := true)).(worker := Spawning(y.worker.generation, j))
  }

  function Spawn(y: System, works: bool): System
    requires y.worker.Spawning?
  {
    var j := y.worker.target;
    if !works || j !in y.jobs then Finish(y, LaunchStage, Error)
    else With(y, j, y.jobs[j].(helper := Verifying)).(worker := Polling(y.worker.generation, j))
  }

  function Poll(y: System, givesUp: bool): System
    requires y.worker.Polling?
  {
    var j := y.worker.target;
    if StateOf(y, j) == Some(Ready) then y.(worker := Publishing(y.worker.generation, j))
    else if StateOf(y, j) == Some(Failed) || givesUp then y.(worker := Abandoning(y.worker.generation, j))
    else y
  }

  function Publish(y: System): System
    requires y.worker.Publishing?
  {
    var j := y.worker.target;
    if y.interface != Free then y
    else if y.c.closed || y.c.cancelled
    then y.(c := y.c.(job := Some(j), downloaded := None), worker := Revoking(y.worker.generation, j, false))
    else Finish(y.(c := y.c.(job := Some(j))), LaunchStage, Launched(j))
  }

  function Revoke(y: System, works: bool): System
    requires y.worker.Revoking?
  {
    var j := y.worker.target;
    var failed := Finish(y, LaunchStage, Error);
    var revoked := Finish(y.(c := y.c.(job := None)), LaunchStage, Launched(j));
    if !works then failed
    else if y.worker.read then CancelFile(revoked, j)
    else match ReadForCancel(StateOf(y, j))
      case Nothing => revoked
      case Write => y.(worker := Revoking(y.worker.generation, j, true))
      case Refuse => failed
  }

  function Download(y: System, named: JobId, works: bool): System
    requires y.worker.Working?
  {
    if !works || named in y.jobs || y.c.plan == None then Finish(y, DownloadStage, Error)
    else With(y, named, NewJob(y.c.plan.value))
           .(worker := Finished(y.worker.generation, DownloadStage, Downloaded(named)))
  }

  function Abandon(y: System, works: bool): System
    requires y.worker.Abandoning?
  {
    var ended := Finish(y, LaunchStage, Error);
    if works then CancelFile(ended, y.worker.target) else ended
  }

  /** Checking, downloading or pausing ends. */
  function EndStage(y: System, s: WorkerStep): System
    requires y.worker.Working?
  {
    match y.worker.stage
    case CheckStage =>
      if !s.FindStep? then y
      else Finish(y, CheckStage, if !s.works then Error else if s.found.Some? then Offer(s.found.value) else NoUpdate)
    case DownloadStage => if s.DownloadStep? then Download(y, s.named, s.works) else y
    case PauseStage => if s.PauseStep? then Finish(y, PauseStage, if s.works then Paused(s.done) else Error) else y
    case LaunchStage => y
  }

  /** One step of the worker thread. */
  function NextWorker(y: System, s: WorkerStep): System {
    match y.worker
    case Working(_, _) => EndStage(y, s)
    case Requesting(_, _) => if s.RequestStep? then Request(y, s.works) else y
    case Spawning(_, _) => if s.SpawnStep? then Spawn(y, s.works) else y
    case Polling(_, _) => if s.PollStep? then Poll(y, s.givesUp) else y
    case Abandoning(_, _) => if s.AbandonStep? then Abandon(y, s.works) else y
    case Publishing(_, _) => if s.PublishStep? then Publish(y) else y
    case Revoking(_, _, _) => if s.RevokeStep? then Revoke(y, s.works) else y
    case _ => y
  }

  // ----- the helper of a job -----

  datatype HelperStep =
    | VerifyStep(works: bool)
    | WaitStep(works: bool, timesOut: bool)
    | CheckCancelStep(works: bool)
    | CheckAuthorizationStep(works: bool)
    | InstallStep(works: bool, starts: bool)
    | EndStep(phase: Phase)

  /** The helper ends, leaving the mutex. Its last state may not get written. */
  function EndHelper(y: System, j: JobId, phase: Phase, writes: bool): System
    requires j in y.jobs
  {
    With(y, j, y.jobs[j].(helper := Ended, state := if writes then Some(phase) else y.jobs[j].state))
      .(updateMutex := if y.updateMutex == Some(j) then None else y.updateMutex)
  }

  /** One step of the helper of job `j`; not `works` stands for any error, which ends it. */
  function NextHelper(y: System, j: JobId, s: HelperStep, writes: bool): System
    requires j in y.jobs
  {
    var job := y.jobs[j];
    match job.helper
    case Verifying =>
      if !s.VerifyStep? then y
      else if !s.works || y.updateMutex.Some? || y.exited || !job.requested then EndHelper(y, j, Failed, writes)
      else With(y, j, job.(helper := Waiting, state := Some(Ready))).(updateMutex := Some(j))
    case Waiting =>
      if !s.WaitStep? then y
      else if !s.works then EndHelper(y, j, Failed, writes)
      else if y.exited then With(y, j, job.(helper := ParentGone))
      else if job.cancel then EndHelper(y, j, Cancelled, writes)
      else if s.timesOut then EndHelper(y, j, Failed, writes)
      else y
    case ParentGone =>
      if !s.CheckCancelStep? then y
      else if !s.works then EndHelper(y, j, Failed, writes)
      else if job.cancel then EndHelper(y, j, Cancelled, writes)
      else With(y, j, job.(helper := NotCancelled))
    case NotCancelled =>
      if !s.CheckAuthorizationStep? then y
      else if !s.works then EndHelper(y, j, Failed, writes)
      else if job.authorization == None then EndHelper(y, j, Cancelled, writes)
      else if job.authorization != Some(Authorization(j, job.version)) then EndHelper(y, j, Failed, writes)
      else With(y, j, job.(helper := Approved))
    case Approved =>
      if !s.InstallStep? then y
      else if !s.works then EndHelper(y, j, Failed, writes)
      else With(y, j, job.(helper := Running, installed := s.starts,
                           state := Some(if s.starts then Installing else Recovering)))
    case Running =>
      if s.EndStep? then EndHelper(y, j, s.phase, writes) else y
    case _ => y
  }

  // ----- runs -----

  datatype Step =
    | OfInterface(interface: InterfaceStep)
    | OfWorker(worker: WorkerStep)
    | OfHelper(job: JobId, helper: HelperStep, writes: bool)
    | ApplicationExits     // by itself or not, at any point

  /** One step of a process or thread; a step that is not possible now changes nothing. */
  function Next(y: System, s: Step): System {
    match s
    case OfInterface(i) => if y.exited then y else NextInterface(y, i)
    case OfWorker(w) => if y.exited then y else NextWorker(y, w)
    case OfHelper(j, h, writes) => if j in y.jobs then NextHelper(y, j, h, writes) else y
    case ApplicationExits => y.(exited := true)
  }

  function Run(y: System, steps: seq<Step>): System {
    if steps == [] then y else Next(Run(y, steps[..|steps| - 1]), steps[|steps| - 1])
  }
}
