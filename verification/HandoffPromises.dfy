/** What the update handoff promises in every interleaving of the application and its helpers. */
module HandoffPromises {
  import opened Options
  import opened Handoff
  import opened HandoffSafety

  lemma StepKeeps(y: System, s: Step)
    requires SystemOk(y)
    ensures SystemOk(Next(y, s))
  {
    match s
    case OfInterface(i) => InterfaceKeeps(y, i);
    case OfWorker(w) => WorkerKeeps(y, w);
    case OfHelper(j, h, writes) =>
      if j in y.jobs { HelperKeeps(y, j, h, writes); }
    case ApplicationExits => ExitKeeps(y);
  }

  lemma {:induction false} RunKeeps(y: System, steps: seq<Step>)
    requires SystemOk(y)
    ensures SystemOk(Run(y, steps))
  {
    if steps != [] {
      RunKeeps(y, steps[..|steps| - 1]);
      StepKeeps(Run(y, steps[..|steps| - 1]), steps[|steps| - 1]);
    }
  }

  lemma {:induction false} ReachableOk(steps: seq<Step>)
    ensures SystemOk(Run(START, steps))
  {
    RunKeeps(START, steps);
  }

  /** An installer that was started belongs to a job this application authorized, for exactly the
      version of the job, and never cancelled; and the application had exited. */
  lemma {:induction false} InstallsOnlyWhenCommitted(steps: seq<Step>, j: JobId)
    requires j in Run(START, steps).jobs && Run(START, steps).jobs[j].installed
    ensures var y := Run(START, steps);
            && y.exited && Committed(y)
            && y.jobs[j].authorization == Some(Authorization(j, y.jobs[j].version))
            && !y.jobs[j].cancel
  {
    ReachableOk(steps);
    assert JobOk(Run(START, steps), j);
  }

  /** No job is ever both cancelled and authorized. */
  lemma {:induction false} NeverBoth(steps: seq<Step>, j: JobId)
    requires j in Run(START, steps).jobs
    ensures !(Run(START, steps).jobs[j].cancel && Run(START, steps).jobs[j].authorization.Some?)
  {
    ReachableOk(steps);
    assert JobOk(Run(START, steps), j);
  }

  /** In one run of the application at most one installer is ever started, and while one is at work
      no other helper is. */
  lemma {:induction false} OneInstallerAtMost(steps: seq<Step>, j: JobId, k: JobId)
    requires j in Run(START, steps).jobs && k in Run(START, steps).jobs
    requires Run(START, steps).jobs[j].installed
    requires Run(START, steps).jobs[k].installed || Active(Run(START, steps).jobs[k].helper)
    ensures j == k
  {
    ReachableOk(steps);
  }

  /** The profile is frozen only while a handoff is under way: with both threads at rest and no
      commitment it has been released. */
  lemma {:induction false} FreezeIsReleased(steps: seq<Step>)
    ensures var y := Run(START, steps);
            y.interface == Free && !y.c.busy && !y.c.handoffCommitted ==>
              !y.c.inProgress && !y.c.handoffStarted && !y.c.paused
  {
    ReachableOk(steps);
  }

  /** Every operation that ends was started in the current generation, so a result is never taken
      for an older one's. */
  lemma {:induction false} NoStaleCompletion(steps: seq<Step>)
    ensures var y := Run(START, steps);
            y.worker != NoWorker ==> y.c.busy && y.worker.generation == y.c.generation
  {
    ReachableOk(steps);
  }

  // ----- closing before the commitment -----

  /** Closed, or gone, without having authorized an installation. */
  predicate Over(y: System) {
    (y.c.closed || y.exited) && !Committed(y)
  }

  lemma ResultStaysClosed(c: Controller, stage: Stage, result: Result, fit: bool)
    requires c.closed
    ensures Completed(c, stage, result, fit).0.closed
  {
  }

  lemma DecisionsStayClosed(c: Controller, fit: bool)
    requires c.closed
    ensures CheckForUpdates(c).0.closed && BeginInstall(c, fit).0.closed
    ensures DialogDestroyed(c).0.closed && Close(c).0.closed
  {
  }

  /** A closed controller without commitment stays so. */
  predicate StaysOver(c: Controller, c': Controller) {
    c.closed && !c.handoffCommitted ==> c'.closed && !c'.handoffCommitted
  }

  lemma GoOnStaysOver(y: System, after: After, works: bool, fit: bool)
    requires MayGoOn(y.c, y.worker, after)
    ensures StaysOver(y.c, GoOn(y, after, works, fit).c)
  {
    ContinueSound(if works then y.c.(job := None) else y.c, y.worker, after, works, fit);
  }

  lemma CancelStepStaysOver(y: System, works: bool, fit: bool)
    requires SystemOk(y) && y.interface.Cancelling?
    ensures StaysOver(y.c, CancelStep(y, works, fit).c)
  {
    GoOnStaysOver(y, y.interface.after, true, fit);
    GoOnStaysOver(y, y.interface.after, false, fit);
    GoOnStaysOver(CancelFile(y, y.interface.target), y.interface.after, true, fit);
  }

  lemma ArriveStaysOver(y: System, fit: bool)
    requires SystemOk(y) && y.interface == Free && y.worker.Finished?
    ensures StaysOver(y.c, Arrive(y, fit).c)
  {
    if y.c.closed {
      CompletedSound(y.c, y.worker, fit);
      ResultStaysClosed(y.c, y.worker.stage, y.worker.result, fit);
    }
  }

  lemma InterfaceStaysOver(y: System, s: InterfaceStep)
    requires SystemOk(y) && y.c.closed && !y.c.handoffCommitted
    ensures StaysOver(y.c, NextInterface(y, s).c)
  {
    if y.interface.Cancelling? {
      if s.FileStep? { CancelStepStaysOver(y, s.works, s.fit); }
    } else if s.ArriveStep? {
      if y.worker.Finished? { ArriveStaysOver(y, s.fit); }
    } else {
      var fit := s.BeginInstallStep? && s.fit;
      EventsSound(y.c, y.worker, fit);
      DecisionsStayClosed(y.c, fit);
    }
  }

  lemma StageLeavesFlags(y: System, s: WorkerStep)
    requires y.worker.Working?
    ensures EndStage(y, s).c == y.c && EndStage(y, s).exited == y.exited
  {
  }

  lemma LaunchLeavesFlags(y: System, flag: bool)
    ensures y.worker.Requesting? ==> Request(y, flag).c == y.c && Request(y, flag).exited == y.exited
    ensures y.worker.Spawning? ==> Spawn(y, flag).c == y.c && Spawn(y, flag).exited == y.exited
    ensures y.worker.Polling? ==> Poll(y, flag).c == y.c && Poll(y, flag).exited == y.exited
    ensures y.worker.Abandoning? ==> Abandon(y, flag).c == y.c && Abandon(y, flag).exited == y.exited
  {
  }

  lemma PublishStaysOver(y: System, works: bool)
    ensures y.worker.Publishing? ==> StaysOver(y.c, Publish(y).c) && Publish(y).exited == y.exited
    ensures y.worker.Revoking? ==> StaysOver(y.c, Revoke(y, works).c) && Revoke(y, works).exited == y.exited
  {
  }

  lemma WorkerStaysOver(y: System, s: WorkerStep)
    ensures StaysOver(y.c, NextWorker(y, s).c)
    ensures NextWorker(y, s).exited == y.exited
  {
    match y.worker
    case NoWorker =>
    case Finished(_, _, _) =>
    case Working(_, _) => StageLeavesFlags(y, s);
    case Requesting(_, _) =>
      if s.RequestStep? { LaunchLeavesFlags(y, s.works); }
    case Spawning(_, _) =>
      if s.SpawnStep? { LaunchLeavesFlags(y, s.works); }
    case Polling(_, _) =>
      if s.PollStep? { LaunchLeavesFlags(y, s.givesUp); }
    case Abandoning(_, _) =>
      if s.AbandonStep? { LaunchLeavesFlags(y, s.works); }
    case Publishing(_, _) => PublishStaysOver(y, false);
    case Revoking(_, _, _) =>
      if s.RevokeStep? { PublishStaysOver(y, s.works); }
  }

  lemma HelperLeavesController(y: System, j: JobId, s: HelperStep, writes: bool)
    requires j in y.jobs
    ensures NextHelper(y, j, s, writes).c == y.c && NextHelper(y, j, s, writes).exited == y.exited
    ensures NextHelper(y, j, s, writes).interface == y.interface
  {
  }

  lemma WorkerLeavesInterface(y: System, s: WorkerStep)
    ensures NextWorker(y, s).interface == y.interface
  {
  }

  /** A closed controller does not begin to authorize, so it is never about to note a commitment. */
  lemma ClosedNeverCommits(y: System, s: InterfaceStep)
    requires SystemOk(y) && y.c.closed
    ensures !NextInterface(y, s).interface.Committing?
  {
    if y.interface.Cancelling? && s.FileStep? {
      PerformNeverCommits(y, Continue(y.c.(job := None), y.interface.after, true, s.fit));
      PerformNeverCommits(y, Continue(y.c, y.interface.after, false, s.fit));
    }
  }

  lemma PerformNeverCommits(y: System, move: Move)
    ensures !Perform(y, move).interface.Committing?
  {
  }

  lemma InterfaceStepStaysOver(y: System, s: InterfaceStep)
    requires SystemOk(y) && Over(y) && !y.exited
    ensures Over(NextInterface(y, s))
  {
    InterfaceStaysOver(y, s);
    ClosedNeverCommits(y, s);
  }

  lemma WorkerStepStaysOver(y: System, s: WorkerStep)
    requires SystemOk(y) && Over(y)
    ensures Over(NextWorker(y, s))
  {
    WorkerStaysOver(y, s);
    WorkerLeavesInterface(y, s);
  }

  lemma HelperStepStaysOver(y: System, j: JobId, s: HelperStep, writes: bool)
    requires Over(y) && j in y.jobs
    ensures Over(NextHelper(y, j, s, writes))
  {
    HelperLeavesController(y, j, s, writes);
  }

  lemma StepStaysOver(y: System, s: Step)
    requires SystemOk(y) && Over(y)
    ensures Over(Next(y, s))
  {
    match s
    case OfInterface(i) =>
      if !y.exited { InterfaceStepStaysOver(y, i); }
    case OfWorker(w) =>
      if !y.exited { WorkerStepStaysOver(y, w); }
    case OfHelper(j, h, writes) =>
      if j in y.jobs { HelperStepStaysOver(y, j, h, writes); }
    case ApplicationExits =>
  }

  lemma {:induction false} RunStaysOver(y: System, steps: seq<Step>)
    requires SystemOk(y) && Over(y)
    ensures SystemOk(Run(y, steps)) && Over(Run(y, steps))
  {
    if steps != [] {
      RunStaysOver(y, steps[..|steps| - 1]);
      StepKeeps(Run(y, steps[..|steps| - 1]), steps[|steps| - 1]);
      StepStaysOver(Run(y, steps[..|steps| - 1]), steps[|steps| - 1]);
    }
  }

  /** Closing the controller before it committed, or losing the process, ends without installation,
      whatever the other thread and the helpers do before and afterwards, and even when the
      cancellation cannot be written. */
  lemma {:induction false} NoInstallationAfterClosing(before: seq<Step>, after: seq<Step>, j: JobId)
    requires Over(Run(START, before))
    requires j in Run(Run(START, before), after).jobs
    ensures !Run(Run(START, before), after).jobs[j].installed
    ensures Run(Run(START, before), after).jobs[j].authorization == None
  {
    ReachableOk(before);
    RunStaysOver(Run(START, before), after);
    assert JobOk(Run(Run(START, before), after), j);
  }

  /** Closing does close, unless the worker is just cancelling the job it published. */
  lemma ClosingIsOver(y: System)
    requires SystemOk(y) && y.interface == Free && !y.exited && LockFree(y) && !y.c.handoffCommitted
    ensures Over(Next(y, OfInterface(CloseStep)))
  {
    EventsSound(y.c, y.worker, false);
    DecisionsStayClosed(y.c.(closed := true), false);
  }

  // ----- an authorized job is installed -----

  function HelperStepAt(y: System, j: JobId, s: HelperStep): System {
    Next(y, OfHelper(j, s, true))
  }

  /** The job is there and authorized as it was. */
  predicate StaysAuthorized(y: System, y': System, j: JobId) {
    j in y.jobs && y.jobs[j].authorization.Some? ==> j in y'.jobs && y'.jobs[j].authorization == y.jobs[j].authorization
  }

  lemma PerformLeavesJobs(y: System, move: Move)
    ensures Perform(y, move).jobs == y.jobs
  {
  }

  lemma CancelStepKeepsAuthorization(y: System, works: bool, fit: bool, j: JobId)
    requires y.interface.Cancelling?
    ensures StaysAuthorized(y, CancelStep(y, works, fit), j)
  {
    var i := y.interface;
    if !works || !i.read {
      GoOnLeavesJobs(y, i.after, true, fit);
      GoOnLeavesJobs(y, i.after, false, fit);
    } else {
      GoOnLeavesJobs(CancelFile(y, i.target), i.after, true, fit);
    }
  }

  lemma GoOnLeavesJobs(y: System, after: After, works: bool, fit: bool)
    ensures GoOn(y, after, works, fit).jobs == y.jobs
  {
    PerformLeavesJobs(y, Continue(if works then y.c.(job := None) else y.c, after, works, fit));
  }

  lemma AuthorizeStepKeepsAuthorization(y: System, works: bool, j: JobId)
    requires SystemOk(y) && y.interface.Authorizing?
    ensures StaysAuthorized(y, AuthorizeStep(y, works), j)
  {
    PerformLeavesJobs(y, CancelJob(y.c, AfterFailure, false));
    if j in y.jobs {
      assert JobOk(y, j);
    }
  }

  lemma InterfaceKeepsAuthorization(y: System, s: InterfaceStep, j: JobId)
    requires SystemOk(y)
    ensures StaysAuthorized(y, NextInterface(y, s), j)
  {
    if y.interface.Cancelling? {
      if s.FileStep? { CancelStepKeepsAuthorization(y, s.works, s.fit, j); }
    } else if y.interface.Authorizing? {
      if s.FileStep? { AuthorizeStepKeepsAuthorization(y, s.works, j); }
    } else {
      EventLeavesJobs(y, s);
    }
  }

  lemma EventLeavesJobs(y: System, s: InterfaceStep)
    requires !y.interface.Cancelling? && !y.interface.Authorizing?
    ensures NextInterface(y, s).jobs == y.jobs
  {
    match s
    case CheckForUpdatesStep => PerformLeavesJobs(y, CheckForUpdates(y.c));
    case BeginInstallStep(fit) => PerformLeavesJobs(y, BeginInstall(y.c, fit));
    case DialogDestroyedStep => PerformLeavesJobs(y, DialogDestroyed(y.c));
    case CloseStep => PerformLeavesJobs(y, Close(y.c));
    case ArriveStep(fit) =>
      if y.worker.Finished? {
        PerformLeavesJobs(y.(worker := NoWorker), Completed(y.c, y.worker.stage, y.worker.result, fit));
      }
    case _ =>
  }

  lemma WorkerKeepsAuthorization(y: System, s: WorkerStep, j: JobId)
    ensures StaysAuthorized(y, NextWorker(y, s), j)
  {
  }

  lemma HelperKeepsAuthorization(y: System, k: JobId, s: HelperStep, writes: bool, j: JobId)
    requires k in y.jobs
    ensures StaysAuthorized(y, NextHelper(y, k, s, writes), j)
  {
  }

  lemma {:induction false} AuthorizationStays(y: System, steps: seq<Step>, j: JobId)
    requires SystemOk(y)
    ensures SystemOk(Run(y, steps)) && StaysAuthorized(y, Run(y, steps), j)
  {
    RunKeeps(y, steps);
    if steps != [] {
      var before := Run(y, steps[..|steps| - 1]);
      AuthorizationStays(y, steps[..|steps| - 1], j);
      match steps[|steps| - 1]
      case OfInterface(i) => InterfaceKeepsAuthorization(before, i, j);
      case OfWorker(w) => WorkerKeepsAuthorization(before, w, j);
      case OfHelper(k, h, writes) =>
        if k in before.jobs { HelperKeepsAuthorization(before, k, h, writes, j); }
      case ApplicationExits =>
    }
  }

  /** Writing the authorization of a job that was found ready commits the installation for good:
      whatever runs afterwards, the job stays authorized and is never cancelled, and the controller has
      noted it or will at once. */
  lemma {:induction false} AuthorizingCommits(y: System, steps: seq<Step>)
    requires SystemOk(y) && !y.exited && y.interface.Authorizing? && y.interface.read
    ensures var j, written := y.interface.target, Next(y, OfInterface(FileStep(true, true)));
            var later := Run(written, steps);
            && j in later.jobs && j in y.jobs
            && later.jobs[j].authorization == Some(Authorization(j, y.jobs[j].version)) && !later.jobs[j].cancel
            && Committed(later)
    ensures var written := Next(y, OfInterface(FileStep(true, true)));
            var noted := Next(written, OfInterface(CommitStep));
            noted.c.handoffCommitted && noted.c.job == None && noted.interface == Free && noted.jobs == written.jobs
  {
    var j, written := y.interface.target, Next(y, OfInterface(FileStep(true, true)));
    StepKeeps(y, OfInterface(FileStep(true, true)));
    AuthorizationStays(written, steps, j);
    assert JobOk(Run(written, steps), j);
  }

  /** Once the application has exited, a waiting helper whose job is authorized starts the installer
      if none of its own four steps fails; without authorization, or cancelled, it never does. */
  lemma WaitingHelperDecides(y: System, j: JobId)
    requires SystemOk(y) && y.exited && j in y.jobs && y.jobs[j].helper == Waiting
    ensures var gone := HelperStepAt(y, j, WaitStep(true, false));
            var looked := HelperStepAt(gone, j, CheckCancelStep(true));
            var allowed := HelperStepAt(looked, j, CheckAuthorizationStep(true));
            var last := HelperStepAt(allowed, j, InstallStep(true, true));
            && j in last.jobs
            && (last.jobs[j].installed <==> y.jobs[j].authorization.Some?)
            && (y.jobs[j].authorization == None ==> last.jobs[j].state == Some(Cancelled) && last.updateMutex == None)
  {
    assert JobOk(y, j);
    var gone := With(y, j, y.jobs[j].(helper := ParentGone));
    assert HelperStepAt(y, j, WaitStep(true, false)) == gone;
    if y.jobs[j].cancel {
      assert HelperStepAt(gone, j, CheckCancelStep(true)) == EndHelper(gone, j, Cancelled, true);
    } else {
      assert HelperStepAt(gone, j, CheckCancelStep(true)) == With(gone, j, gone.jobs[j].(helper := NotCancelled));
    }
  }
}
