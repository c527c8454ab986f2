/** What holds between the application and its update helpers at every point of every run. */
module HandoffSafety {
  import opened Options
  import opened Handoff

  /** Holding the update mutex. */
  predicate Active(h: Helper) {
    h.Waiting? || h.ParentGone? || h.NotCancelled? || h.Approved? || h.Running?
  }

  /** An authorization is written; the controller knows, or is about to note it. */
  predicate Committed(y: System) {
    y.c.handoffCommitted || y.interface.Committing?
  }

  predicate JobOk(y: System, j: JobId)
    requires j in y.jobs
  {
    var job := y.jobs[j];
    && !(job.cancel && job.authorization.Some?)
    && (!job.requested ==> job.helper == Unborn)
    && (job.authorization.Some? ==>
          job.requested && Committed(y) && job.authorization == Some(Authorization(j, job.version)))
    && (Active(job.helper) && job.helper != Waiting ==> y.exited)
    && (job.helper.Approved? || job.helper.Running? ==> job.authorization.Some?)
    && (Active(job.helper) <==> y.updateMutex == Some(j))
    && (job.installed ==> y.exited && job.authorization.Some? && (job.helper.Running? || job.helper.Ended?))
  }

  /** Once an installer was started, no other helper is at work and none started one. */
  ghost predicate OneInstaller(y: System) {
    forall j, k ::
      j in y.jobs && k in y.jobs && y.jobs[j].installed && (y.jobs[k].installed || Active(y.jobs[k].helper)) ==> j == k
  }

  /** Somebody may still cancel the job. */
  predicate Revocable(y: System, j: JobId) {
    || (y.c.job == Some(j) && !y.interface.Committing?)
    || (y.interface.Cancelling? && y.interface.target == j)
    || ((y.worker.Spawning? || y.worker.Polling? || y.worker.Abandoning? || y.worker.Publishing? || y.worker.Revoking?)
        && y.worker.target == j)
  }

  predicate InHandoff(w: Worker) {
    match w
    case NoWorker => false
    case Working(_, stage) => stage == PauseStage
    case Finished(_, stage, _) => stage == PauseStage || stage == LaunchStage
    case _ => true
  }

  /** The results an operation of the stage can have. */
  predicate Fits(stage: Stage, result: Result) {
    match result
    case Error => true
    case NoUpdate => stage == CheckStage
    case Offer(_) => stage == CheckStage
    case Downloaded(_) => stage == DownloadStage
    case Paused(_) => stage == PauseStage
    case Launched(_) => stage == LaunchStage
  }

  predicate WorkerOk(y: System) {
    && (y.worker.Finished? ==> Fits(y.worker.stage, y.worker.result))
    && (y.worker.Working? ==> y.worker.stage != LaunchStage)
    && (y.worker.Spawning? ==>
          y.worker.target in y.jobs && y.jobs[y.worker.target].helper == Unborn && y.jobs[y.worker.target].requested)
  }

  /** The controller is busy with its worker, which it started in its current generation. */
  predicate InStep(c: Controller, w: Worker) {
    && (c.busy <==> w != NoWorker)
    && (w != NoWorker ==> w.generation == c.generation)
    && c.handoffStarted == c.inProgress == c.paused
  }

  /** The profile stays frozen only while a handoff is under way, or was committed. */
  predicate Released(c: Controller, w: Worker) {
    c.handoffStarted ==> c.handoffCommitted || InHandoff(w)
  }

  predicate InterfaceOk(y: System) {
    match y.interface
    case Free => Released(y.c, y.worker)
    case Cancelling(_, _, after) =>
      && (after != AfterClose ==> y.worker == NoWorker)
      && (after != AfterFailure ==> Released(y.c, y.worker))
    case Authorizing(j, read) =>
      && y.worker == NoWorker && !y.c.closed
      && (read ==> j in y.jobs && y.jobs[j].requested && !y.jobs[j].cancel)
    case Committing(j) =>
      && y.worker == NoWorker && !y.c.closed
      && j in y.jobs && y.jobs[j].authorization.Some?
  }

  ghost predicate FilesOk(y: System) {
    && (forall j :: j in y.jobs ==> JobOk(y, j))
    && (forall j :: j in y.jobs && Revocable(y, j) ==> y.jobs[j].authorization == None)
    && (y.updateMutex.Some? ==> y.updateMutex.value in y.jobs)
    && OneInstaller(y)
  }

  ghost predicate SystemOk(y: System) {
    FilesOk(y) && WorkerOk(y) && InStep(y.c, y.worker) && InterfaceOk(y)
  }

  // ----- what the controller decides -----

  /** The move fits the worker it was decided beside. */
  predicate Sound(move: Move, w: Worker) {
    var c := move.0;
    && c.handoffStarted == c.inProgress == c.paused
    && match move.1
       case Rest => InStep(c, w) && Released(c, w)
       case Start(stage) =>
         w == NoWorker && c.busy && stage != LaunchStage
         && (c.handoffStarted ==> c.handoffCommitted || stage == PauseStage)
       case Launch(_) => w == NoWorker && c.busy
       case Cancel(j, after) =>
         InStep(c, w) && c.job == Some(j)
         && (after != AfterClose ==> w == NoWorker)
         && (after != AfterFailure ==> Released(c, w))
       case Authorize(_) => InStep(c, w) && w == NoWorker && !c.closed
  }

  /** Deciding neither commits nor takes up another job. */
  predicate Modest(c: Controller, c': Controller) {
    c'.handoffCommitted == c.handoffCommitted && (c'.job == c.job || c'.job == None)
  }

  predicate MayGoOn(c: Controller, w: Worker, after: After) {
    && InStep(c, w)
    && (after != AfterClose ==> w == NoWorker)
    && (after != AfterFailure ==> Released(c, w))
  }

  lemma ContinueSound(c: Controller, w: Worker, after: After, works: bool, fit: bool)
    requires MayGoOn(c, w, after)
    ensures Sound(Continue(c, after, works, fit), w)
    ensures Modest(c, Continue(c, after, works, fit).0)
    ensures Continue(c, after, works, fit).0.closed == c.closed
  {
  }

  lemma CancelJobSound(c: Controller, w: Worker, after: After, fit: bool)
    requires MayGoOn(c, w, after)
    ensures Sound(CancelJob(c, after, fit), w)
    ensures Modest(c, CancelJob(c, after, fit).0)
    ensures CancelJob(c, after, fit).0.closed == c.closed
  {
    if c.job == None {
      ContinueSound(c, w, after, true, fit);
    }
  }

  /** The move fits every worker beside which the event may go on. */
  ghost predicate SoundBeside(c: Controller, after: After, move: Move) {
    forall w :: MayGoOn(c, w, after) ==> Sound(move, w)
  }

  /** The move fits every worker the controller can be in step with. */
  ghost predicate SoundAlways(c: Controller, move: Move) {
    forall w :: InStep(c, w) && Released(c, w) ==> Sound(move, w)
  }

  lemma CancelJobSoundBeside(c: Controller, after: After, fit: bool)
    ensures SoundBeside(c, after, CancelJob(c, after, fit))
  {
    var move := CancelJob(c, after, fit);
    forall w | MayGoOn(c, w, after) ensures Sound(move, w) {
      CancelJobSound(c, w, after, fit);
    }
  }

  /** Modest, and neither opened nor closed. */
  predicate Discreet(c: Controller, c': Controller) {
    Modest(c, c') && c'.closed == c.closed
  }

  lemma ReleaseDiscreet(c: Controller)
    ensures Discreet(c, ReleaseHandoff(c))
  {
  }

  lemma BeginHandoffDiscreet(c: Controller, fit: bool)
    ensures Discreet(c, BeginHandoff(c, fit).0)
  {
  }

  lemma ContinueDiscreet(c: Controller, after: After, works: bool, fit: bool)
    ensures Discreet(c, Continue(c, after, works, fit).0)
  {
    match after
    case AfterClose => ReleaseDiscreet(c);
    case AfterFailure => ReleaseDiscreet(c);
    case AfterBegin => BeginHandoffDiscreet(c.(generation := c.generation + 1, cancelled := false), fit);
  }

  lemma CancelJobDiscreet(c: Controller, after: After, fit: bool)
    ensures Discreet(c, CancelJob(c, after, fit).0)
  {
    if c.job == None {
      ContinueDiscreet(c, after, true, fit);
    }
  }

  lemma EventsSoundAlways(c: Controller, fit: bool)
    ensures SoundAlways(c, CheckForUpdates(c)) && SoundAlways(c, BeginInstall(c, fit))
  {
    forall w | InStep(c, w) && Released(c, w)
      ensures Sound(CheckForUpdates(c), w) && Sound(BeginInstall(c, fit), w)
    {
      EventsSound(c, w, fit);
    }
  }

  lemma EventsSound(c: Controller, w: Worker, fit: bool)
    requires InStep(c, w) && Released(c, w)
    ensures Sound(CheckForUpdates(c), w) && Modest(c, CheckForUpdates(c).0)
    ensures Sound(BeginInstall(c, fit), w) && Modest(c, BeginInstall(c, fit).0)
    ensures Sound(DialogDestroyed(c), w) && Modest(c, DialogDestroyed(c).0)
    ensures Sound(Close(c), w) && Modest(c, Close(c).0)
  {
    if !c.busy {
      CancelJobSound(c, w, AfterBegin, fit);
      CancelJobSound(c.(dialog := false, visible := false, cancelled := true), w, AfterFailure, false);
    }
    ContinueSound(c.(closed := true), w, AfterClose, true, false);
    CancelJobSound(c.(closed := true, cancelled := true), w, AfterClose, false);
  }

  /** The controller takes a result with its worker gone. */
  predicate Taking(c: Controller, stage: Stage) {
    && InStep(c, NoWorker)
    && (stage != PauseStage && stage != LaunchStage ==> Released(c, NoWorker))
  }

  lemma FailedSound(c: Controller, stage: Stage, fit: bool)
    requires Taking(c, stage)
    ensures Sound(TakeResult(c, stage, Error, fit), NoWorker)
    ensures Modest(c, TakeResult(c, stage, Error, fit).0)
  {
    if stage != CheckStage {
      CancelJobSound(if stage == LaunchStage then c.(downloaded := None) else c, NoWorker, AfterFailure, fit);
    }
  }

  lemma PausedSound(c: Controller, done: bool, fit: bool)
    requires Taking(c, PauseStage)
    ensures Sound(TakeResult(c, PauseStage, Paused(done), fit), NoWorker)
    ensures Modest(c, TakeResult(c, PauseStage, Paused(done), fit).0)
  {
    CancelJobSound(c, NoWorker, AfterFailure, fit);
  }

  lemma LaunchedSound(c: Controller, j: JobId, fit: bool)
    requires Taking(c, LaunchStage)
    ensures Sound(TakeResult(c, LaunchStage, Launched(j), fit), NoWorker)
    ensures Modest(c, TakeResult(c, LaunchStage, Launched(j), fit).0)
  {
    CancelJobSound(c, NoWorker, AfterFailure, fit);
  }

  lemma FoundSound(c: Controller, stage: Stage, result: Result, fit: bool)
    requires Taking(c, stage) && Fits(stage, result)
    requires result.NoUpdate? || result.Offer? || result.Downloaded?
    ensures Sound(TakeResult(c, stage, result, fit), NoWorker)
    ensures Modest(c, TakeResult(c, stage, result, fit).0)
  {
  }

  lemma CompletedSound(c: Controller, w: Worker, fit: bool)
    requires InStep(c, w) && Released(c, w) && w.Finished? && Fits(w.stage, w.result)
    ensures Sound(Completed(c, w.stage, w.result, fit), NoWorker)
    ensures Modest(c, Completed(c, w.stage, w.result, fit).0)
  {
    var ended := c.(busy := false);
    match w.result
    case Error => FailedSound(ended, w.stage, fit);
    case Paused(done) => PausedSound(ended, done, fit);
    case Launched(j) => LaunchedSound(ended, j, fit);
    case _ => FoundSound(ended, w.stage, w.result, fit);
  }

  // ----- steps that touch no file -----

  lemma FilesStay(y: System, y': System)
    requires FilesOk(y)
    requires y'.jobs == y.jobs && y'.updateMutex == y.updateMutex && y'.exited == y.exited
    requires Committed(y) ==> Committed(y')
    requires forall j :: j in y.jobs && Revocable(y', j) ==> Revocable(y, j) || y.jobs[j].authorization == None
    ensures FilesOk(y')
  {
    forall j | j in y'.jobs ensures JobOk(y', j) { assert JobOk(y, j); }
  }

  lemma PerformKeeps(y: System, move: Move)
    requires FilesOk(y) && WorkerOk(y) && !y.interface.Committing?
    requires Sound(move, y.worker) && Modest(y.c, move.0)
    ensures SystemOk(Perform(y, move))
  {
    FilesStay(y, Perform(y, move));
  }

  lemma ArriveKeeps(y: System, fit: bool)
    requires SystemOk(y) && y.interface == Free && y.worker.Finished?
    ensures SystemOk(Arrive(y, fit))
  {
    var ended := y.(worker := NoWorker);
    FilesStay(y, ended);
    CompletedSound(y.c, y.worker, fit);
    PerformKeeps(ended, Completed(y.c, y.worker.stage, y.worker.result, fit));
  }

  lemma UserCancelsKeeps(y: System)
    requires SystemOk(y) && y.interface == Free
    ensures SystemOk(y.(c := UserCancels(y.c)))
  {
    FilesStay(y, y.(c := UserCancels(y.c)));
  }

  // ----- steps on the files -----

  /** Writing cancel.json for a job that is not authorized. */
  lemma CancelFileKeeps(y: System, j: JobId)
    requires FilesOk(y) && WorkerOk(y)
    requires j in y.jobs ==> y.jobs[j].authorization == None
    ensures FilesOk(CancelFile(y, j)) && WorkerOk(CancelFile(y, j))
  {
    var y' := CancelFile(y, j);
    forall k | k in y'.jobs ensures JobOk(y', k) { assert JobOk(y, k); }
  }

  lemma GoOnKeeps(y: System, after: After, works: bool, fit: bool)
    requires FilesOk(y) && WorkerOk(y) && !y.interface.Committing? && MayGoOn(y.c, y.worker, after)
    ensures SystemOk(GoOn(y, after, works, fit))
  {
    var c := if works then y.c.(job := None) else y.c;
    ContinueSound(c, y.worker, after, works, fit);
    PerformKeeps(y, Continue(c, after, works, fit));
  }

  lemma CancelStepKeeps(y: System, works: bool, fit: bool)
    requires SystemOk(y) && y.interface.Cancelling?
    ensures SystemOk(CancelStep(y, works, fit))
  {
    var i := y.interface;
    assert Revocable(y, i.target);
    if works && !i.read {
      match ReadForCancel(StateOf(y, i.target))
      case Nothing => GoOnKeeps(y, i.after, true, fit);
      case Write => FilesStay(y, CancelStep(y, works, fit));
      case Refuse => GoOnKeeps(y, i.after, false, fit);
    } else if works {
      CancelFileKeeps(y, i.target);
      GoOnKeeps(CancelFile(y, i.target), i.after, true, fit);
    } else {
      GoOnKeeps(y, i.after, false, fit);
    }
  }

  /** Writing the authorization: nobody can cancel the job any more. */
  lemma AuthorizationKeeps(y: System)
    requires SystemOk(y) && y.interface.Authorizing? && y.interface.read
    ensures SystemOk(AuthorizeStep(y, true))
  {
    var y' := AuthorizeStep(y, true);
    forall k | k in y'.jobs ensures JobOk(y', k) { assert JobOk(y, k); }
  }

  /** Noting the commitment. */
  lemma CommitKeeps(y: System)
    requires SystemOk(y) && y.interface.Committing?
    ensures SystemOk(y.(c := Commit(y.c), interface := Free))
  {
    FilesStay(y, y.(c := Commit(y.c), interface := Free));
  }

  lemma AuthorizeStepKeeps(y: System, works: bool)
    requires SystemOk(y) && y.interface.Authorizing?
    ensures SystemOk(AuthorizeStep(y, works))
  {
    var j := y.interface.target;
    if works && j in y.jobs && y.interface.read {
      AuthorizationKeeps(y);
    } else if works && j in y.jobs && y.jobs[j].state == Some(Ready) && y.jobs[j].requested && !y.jobs[j].cancel {
      FilesStay(y, y.(interface := Authorizing(j, true)));
    } else {
      CancelJobSound(y.c, y.worker, AfterFailure, false);
      PerformKeeps(y, CancelJob(y.c, AfterFailure, false));
    }
  }

  lemma InterfaceKeeps(y: System, s: InterfaceStep)
    requires SystemOk(y)
    ensures SystemOk(NextInterface(y, s))
  {
    if y.interface.Cancelling? {
      if s.FileStep? { CancelStepKeeps(y, s.works, s.fit); }
    } else if y.interface.Authorizing? {
      if s.FileStep? { AuthorizeStepKeeps(y, s.works); }
    } else if y.interface.Committing? {
      if s.CommitStep? { CommitKeeps(y); }
    } else if !(NeedsLock(s) && !LockFree(y)) {
      match s
      case CheckForUpdatesStep =>
        EventsSound(y.c, y.worker, false);
        PerformKeeps(y, CheckForUpdates(y.c));
      case BeginInstallStep(fit) =>
        EventsSound(y.c, y.worker, fit);
        PerformKeeps(y, BeginInstall(y.c, fit));
      case UserCancelsStep => UserCancelsKeeps(y);
      case DialogDestroyedStep =>
        EventsSound(y.c, y.worker, false);
        PerformKeeps(y, DialogDestroyed(y.c));
      case CloseStep =>
        EventsSound(y.c, y.worker, false);
        PerformKeeps(y, Close(y.c));
      case ArriveStep(fit) =>
        if y.worker.Finished? { ArriveKeeps(y, fit); }
      case FileStep(_, _) =>
      case CommitStep =>
    }
  }

  // ----- the worker thread -----

  /** The worker writes into one job, which stays unauthorized. */
  lemma WorkerWrites(y: System, j: JobId, job: Job, w: Worker)
    requires SystemOk(y) && y.worker != NoWorker && w != NoWorker && w.generation == y.worker.generation
    requires InHandoff(y.worker) ==> InHandoff(w)
    requires j in y.jobs ==> y.jobs[j].authorization == None
    requires !job.installed && job.authorization == None && !Active(job.helper)
    requires !job.requested ==> job.helper == Unborn
    requires j in y.jobs ==> !Active(y.jobs[j].helper)
    requires !w.Working?
    requires w.Finished? ==> Fits(w.stage, w.result)
    requires w.Spawning? ==> w.target == j && job.helper == Unborn && job.requested
    requires forall k :: k in y.jobs && Revocable(y.(worker := w), k) ==> k == j || Revocable(y, k)
    ensures SystemOk(With(y, j, job).(worker := w))
  {
    var y' := With(y, j, job).(worker := w);
    forall k | k in y'.jobs ensures JobOk(y', k) { assert k in y.jobs ==> JobOk(y, k); }
  }

  /** The worker goes on without writing a file. */
  lemma WorkerGoes(y: System, y': System)
    requires SystemOk(y) && y.worker != NoWorker && y'.worker != NoWorker
    requires y' == y.(worker := y'.worker, c := y.c.(job := y'.c.job, downloaded := y'.c.downloaded))
    requires y'.worker.generation == y.worker.generation
    requires InHandoff(y.worker) ==> InHandoff(y'.worker)
    requires y'.worker.Finished? ==> Fits(y'.worker.stage, y'.worker.result)
    requires !y'.worker.Working? && !y'.worker.Spawning?
    requires forall k :: k in y.jobs && Revocable(y', k) ==> Revocable(y, k)
    ensures SystemOk(y')
  {
    FilesStay(y, y');
  }

  lemma WorkerFinishes(y: System, stage: Stage, result: Result)
    requires SystemOk(y) && y.worker != NoWorker && Fits(stage, result)
    requires InHandoff(y.worker) ==> stage == PauseStage || stage == LaunchStage
    ensures SystemOk(Finish(y, stage, result))
  {
    WorkerGoes(y, Finish(y, stage, result));
  }

  lemma RequestKeeps(y: System, works: bool)
    requires SystemOk(y) && y.worker.Requesting?
    ensures SystemOk(Request(y, works))
  {
    var j := y.worker.target;
    if !works || j !in y.jobs || y.jobs[j].requested {
      WorkerFinishes(y, LaunchStage, Error);
    } else {
      assert JobOk(y, j);
      WorkerWrites(y, j, y.jobs[j].(requested := true), Spawning(y.worker.generation, j));
    }
  }

  lemma SpawnKeeps(y: System, works: bool)
    requires SystemOk(y) && y.worker.Spawning?
    ensures SystemOk(Spawn(y, works))
  {
    var j := y.worker.target;
    if !works {
      WorkerFinishes(y, LaunchStage, Error);
    } else {
      assert JobOk(y, j) && Revocable(y, j);
      WorkerWrites(y, j, y.jobs[j].(helper := Verifying), Polling(y.worker.generation, j));
    }
  }

  lemma RevokeWriteKeeps(y: System)
    requires SystemOk(y) && y.worker.Revoking? && y.worker.read
    ensures SystemOk(Revoke(y, true))
  {
    var j := y.worker.target;
    var revoked := Finish(y.(c := y.c.(job := None)), LaunchStage, Launched(j));
    WorkerGoes(y, revoked);
    assert Revocable(y, j);
    CancelFileKeeps(revoked, j);
  }

  lemma RevokeReadKeeps(y: System)
    requires SystemOk(y) && y.worker.Revoking? && !y.worker.read
    ensures SystemOk(Revoke(y, true))
  {
    var j := y.worker.target;
    match ReadForCancel(StateOf(y, j))
    case Nothing =>
      WorkerGoes(y, Finish(y.(c := y.c.(job := None)), LaunchStage, Launched(j)));
    case Write => WorkerGoes(y, y.(worker := Revoking(y.worker.generation, j, true)));
    case Refuse => WorkerFinishes(y, LaunchStage, Error);
  }

  lemma RevokeKeeps(y: System, works: bool)
    requires SystemOk(y) && y.worker.Revoking?
    ensures SystemOk(Revoke(y, works))
  {
    if !works {
      WorkerFinishes(y, LaunchStage, Error);
    } else if y.worker.read {
      RevokeWriteKeeps(y);
    } else {
      RevokeReadKeeps(y);
    }
  }

  lemma AbandonKeeps(y: System, works: bool)
    requires SystemOk(y) && y.worker.Abandoning?
    ensures SystemOk(Abandon(y, works))
  {
    var ended := Finish(y, LaunchStage, Error);
    WorkerFinishes(y, LaunchStage, Error);
    assert Revocable(y, y.worker.target);
    CancelFileKeeps(ended, y.worker.target);
  }

  lemma DownloadKeeps(y: System, named: JobId, works: bool)
    requires SystemOk(y) && y.worker.Working? && y.worker.stage == DownloadStage
    ensures SystemOk(Download(y, named, works))
  {
    if !works || named in y.jobs || y.c.plan == None {
      WorkerFinishes(y, DownloadStage, Error);
    } else {
      WorkerWrites(y, named, NewJob(y.c.plan.value), Finished(y.worker.generation, DownloadStage, Downloaded(named)));
    }
  }

  lemma StageKeeps(y: System, s: WorkerStep)
    requires SystemOk(y) && y.worker.Working?
    ensures SystemOk(EndStage(y, s))
  {
    match y.worker.stage
    case CheckStage =>
      if s.FindStep? {
        WorkerFinishes(y, CheckStage,
                       if !s.works then Error else if s.found.Some? then Offer(s.found.value) else NoUpdate);
      }
    case DownloadStage =>
      if s.DownloadStep? { DownloadKeeps(y, s.named, s.works); }
    case PauseStage =>
      if s.PauseStep? { WorkerFinishes(y, PauseStage, if s.works then Paused(s.done) else Error); }
    case LaunchStage =>
  }

  lemma PollKeeps(y: System, givesUp: bool)
    requires SystemOk(y) && y.worker.Polling?
    ensures SystemOk(Poll(y, givesUp))
  {
    if Poll(y, givesUp) != y {
      WorkerGoes(y, Poll(y, givesUp));
    }
  }

  lemma PublishKeeps(y: System)
    requires SystemOk(y) && y.worker.Publishing?
    ensures SystemOk(Publish(y))
  {
    if y.interface == Free {
      WorkerGoes(y, Publish(y));
    }
  }

  lemma WorkerKeeps(y: System, s: WorkerStep)
    requires SystemOk(y)
    ensures SystemOk(NextWorker(y, s))
  {
    match y.worker
    case NoWorker =>
    case Finished(_, _, _) =>
    case Working(_, _) => StageKeeps(y, s);
    case Requesting(_, _) =>
      if s.RequestStep? { RequestKeeps(y, s.works); }
    case Spawning(_, _) =>
      if s.SpawnStep? { SpawnKeeps(y, s.works); }
    case Polling(_, _) =>
      if s.PollStep? { PollKeeps(y, s.givesUp); }
    case Abandoning(_, _) =>
      if s.AbandonStep? { AbandonKeeps(y, s.works); }
    case Publishing(_, _) =>
      if s.PublishStep? { PublishKeeps(y); }
    case Revoking(_, _, _) =>
      if s.RevokeStep? { RevokeKeeps(y, s.works); }
  }

  // ----- the helpers -----

  /** A helper moves on, holding the mutex as before. */
  lemma HelperMoves(y: System, j: JobId, job: Job)
    requires SystemOk(y) && j in y.jobs && Active(y.jobs[j].helper)
    requires Active(job.helper)
    requires job == y.jobs[j].(helper := job.helper, state := job.state, installed := job.installed)
    requires y.jobs[j].installed ==> job.installed
    requires job.helper != Waiting ==> y.exited
    requires job.helper.Approved? || job.helper.Running? ==> job.authorization.Some?
    requires job.installed ==> job.helper.Running?
    ensures SystemOk(With(y, j, job))
  {
    var y' := With(y, j, job);
    assert JobOk(y, j);
    forall k | k in y'.jobs ensures JobOk(y', k) { assert JobOk(y, k); }
    forall k, l |
      k in y'.jobs && l in y'.jobs && y'.jobs[k].installed && (y'.jobs[l].installed || Active(y'.jobs[l].helper))
      ensures k == l
    {
      assert JobOk(y, k) && JobOk(y, l);
      assert JobOk(y', k) && JobOk(y', l);
    }
  }

  lemma HelperEnds(y: System, j: JobId, phase: Phase, writes: bool)
    requires SystemOk(y) && j in y.jobs && (Active(y.jobs[j].helper) || y.jobs[j].helper == Verifying)
    ensures SystemOk(EndHelper(y, j, phase, writes))
  {
    var y' := EndHelper(y, j, phase, writes);
    assert JobOk(y, j);
    forall k | k in y'.jobs ensures JobOk(y', k) { assert JobOk(y, k); }
  }

  lemma HelperEnters(y: System, j: JobId)
    requires SystemOk(y) && j in y.jobs && y.jobs[j].helper == Verifying
    requires y.updateMutex == None && !y.exited && y.jobs[j].requested
    ensures SystemOk(With(y, j, y.jobs[j].(helper := Waiting, state := Some(Ready))).(updateMutex := Some(j)))
  {
    var y' := With(y, j, y.jobs[j].(helper := Waiting, state := Some(Ready))).(updateMutex := Some(j));
    assert JobOk(y, j);
    forall k | k in y'.jobs ensures JobOk(y', k) { assert JobOk(y, k); }
  }

  lemma HelperKeeps(y: System, j: JobId, s: HelperStep, writes: bool)
    requires SystemOk(y) && j in y.jobs
    ensures SystemOk(NextHelper(y, j, s, writes))
  {
    var job := y.jobs[j];
    assert JobOk(y, j);
    match job.helper
    case Verifying =>
      if !s.VerifyStep? {
      } else if !s.works || y.updateMutex.Some? || y.exited || !job.requested {
        HelperEnds(y, j, Failed, writes);
      } else {
        HelperEnters(y, j);
      }
    case Waiting =>
      if !s.WaitStep? {
      } else if !s.works || (!y.exited && !job.cancel && s.timesOut) {
        HelperEnds(y, j, Failed, writes);
      } else if y.exited {
        HelperMoves(y, j, job.(helper := ParentGone));
      } else if job.cancel {
        HelperEnds(y, j, Cancelled, writes);
      }
    case ParentGone =>
      if !s.CheckCancelStep? {
      } else if !s.works || job.cancel {
        HelperEnds(y, j, if s.works then Cancelled else Failed, writes);
      } else {
        HelperMoves(y, j, job.(helper := NotCancelled));
      }
    case NotCancelled =>
      if !s.CheckAuthorizationStep? {
      } else if !s.works || job.authorization != Some(Authorization(j, job.version)) {
        HelperEnds(y, j, if s.works && job.authorization == None then Cancelled else Failed, writes);
      } else {
        HelperMoves(y, j, job.(helper := Approved));
      }
    case Approved =>
      if !s.InstallStep? {
      } else if !s.works {
        HelperEnds(y, j, Failed, writes);
      } else {
        HelperMoves(y, j, job.(helper := Running, installed := s.starts,
                               state := Some(if s.starts then Installing else Recovering)));
      }
    case Running =>
      if s.EndStep? { HelperEnds(y, j, s.phase, writes); }
    case _ =>
  }

  lemma ExitKeeps(y: System)
    requires SystemOk(y)
    ensures SystemOk(y.(exited := true))
  {
    var y' := y.(exited := true);
    forall k | k in y'.jobs ensures JobOk(y', k) { assert JobOk(y, k); }
  }
}
