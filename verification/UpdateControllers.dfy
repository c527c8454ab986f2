/** The update controller as the object it is, tied method by method to the decisions the handoff
    model makes. Starting threads and touching files is left to the returned action. */
module UpdateControllers {
  import opened Options
  import opened Handoff
  import HandoffSafety

  class UpdateController {
    var busy: bool
    var closed: bool
    var cancelled: bool
    var generation: nat
    var plan: Option<Version>
    var downloaded: Option<JobId>
    var job: Option<JobId>
    var dialog: bool
    var visible: bool
    var paused: bool
    var handoffStarted: bool
    var handoffCommitted: bool
    var inProgress: bool

    ghost function Model(): Controller
      reads this
    {
      Controller(busy, closed, cancelled, generation, plan, downloaded, job, dialog, visible, paused,
                 handoffStarted, handoffCommitted, inProgress)
    }

    constructor ()
      ensures Model() == NEW_CONTROLLER
    {
      busy, closed, cancelled, generation := false, false, false, 0;
      plan, downloaded, job := None, None, None;
      dialog, visible, paused := false, false, false;
      handoffStarted, handoffCommitted, inProgress := false, false, false;
    }

    /** Beside any worker there may be, a check is started only when none runs, in a generation of its
        own; it neither freezes the profile nor lets it go. */
    method CheckForUpdates() returns (action: Action)
      modifies this
      ensures (Model(), action) == Handoff.CheckForUpdates(old(Model()))
      ensures HandoffSafety.Modest(old(Model()), Model())
      ensures HandoffSafety.SoundAlways(old(Model()), (Model(), action))
      ensures action != Rest ==> old(generation) < generation && !closed && !cancelled
      ensures inProgress == old(inProgress) && handoffStarted == old(handoffStarted) && paused == old(paused)
    {
      HandoffSafety.EventsSoundAlways(Model(), false);
      if closed || busy || (dialog && visible) {
        return Rest;
      }
      generation := generation + 1;
      cancelled := false;
      busy := true;
      action := Start(CheckStage);
    }

    /** Lets the profile go: at most once for each handoff that was started. */
    method ReleaseHandoff()
      modifies this
      ensures Model() == Handoff.ReleaseHandoff(old(Model()))
      ensures !handoffStarted
    {
      if !handoffStarted {
        return;
      }
      paused := false;
      handoffStarted := false;
      inProgress := false;
    }

    method BeginHandoff(fit: bool) returns (action: Action)
      modifies this
      ensures (Model(), action) == Handoff.BeginHandoff(old(Model()), fit)
      ensures action != Rest ==> !old(inProgress) && inProgress && old(downloaded).Some?
    {
      if !dialog || downloaded == None {
        return Rest;
      }
      if !fit || inProgress {
        return Rest;
      }
      inProgress := true;
      handoffStarted := true;
      paused := true;
      busy := true;
      action := Start(PauseStage);
    }

    /** The rest of an event whose job was cancelled, or could not be. */
    method GoOn(after: After, works: bool, fit: bool) returns (action: Action)
      modifies this
      ensures (Model(), action) == Continue(old(Model()), after, works, fit)
      ensures after == AfterFailure ==> !handoffStarted
    {
      match after
      case AfterClose =>
        if !busy && !handoffCommitted {
          ReleaseHandoff();
        }
        action := Rest;
      case AfterFailure =>
        ReleaseHandoff();
        action := Rest;
      case AfterBegin =>
        if !works {
          return Rest;
        }
        generation := generation + 1;
        cancelled := false;
        if downloaded.Some? {
          action := BeginHandoff(fit);
        } else {
          busy := true;
          action := Start(DownloadStage);
        }
    }

    /** A job that is there is cancelled before anything else happens, and kept until that has worked;
        without one the event goes on. Beside any worker that allows the event, the result is sound. */
    method CancelJob(after: After, fit: bool) returns (action: Action)
      modifies this
      ensures (Model(), action) == Handoff.CancelJob(old(Model()), after, fit)
      ensures HandoffSafety.Discreet(old(Model()), Model())
      ensures HandoffSafety.SoundBeside(old(Model()), after, (Model(), action))
      ensures old(job).Some? ==> job == old(job) && downloaded == None && handoffStarted == old(handoffStarted)
      ensures old(job) == None && after == AfterFailure ==> !handoffStarted && action == Rest
      ensures !action.Authorize? && !action.Launch?
    {
      HandoffSafety.CancelJobSoundBeside(Model(), after, fit);
      HandoffSafety.CancelJobDiscreet(Model(), after, fit);
      if job.Some? {
        downloaded := None;
        return Cancel(job.value, after);
      }
      action := GoOn(after, true, fit);
    }

    /** An installation begins only beside no worker; it never authorizes or launches by itself, and
        freezes the profile only for a download that is there, after the old job is gone. */
    method BeginInstall(fit: bool) returns (action: Action)
      modifies this
      ensures (Model(), action) == Handoff.BeginInstall(old(Model()), fit)
      ensures HandoffSafety.Discreet(old(Model()), Model())
      ensures HandoffSafety.SoundAlways(old(Model()), (Model(), action))
      ensures inProgress && !old(inProgress) ==>
                fit && job == None && downloaded.Some? && busy && !closed && action == Start(PauseStage)
      ensures action.Start? ==> old(generation) < generation && !cancelled
      ensures !action.Authorize? && !action.Launch?
    {
      HandoffSafety.EventsSoundAlways(Model(), fit);
      if closed || busy || plan == None || !dialog {
        return Rest;
      }
      action := CancelJob(AfterBegin, fit);
    }

    method Close() returns (action: Action)
      modifies this
      ensures (Model(), action) == Handoff.Close(old(Model()))
      ensures closed
      ensures !old(handoffCommitted) && old(job).Some? ==> action == Cancel(old(job).value, AfterClose)
    {
      closed := true;
      if handoffCommitted {
        action := GoOn(AfterClose, true, false);
      } else {
        cancelled := true;
        action := CancelJob(AfterClose, false);
      }
    }

    method DialogDestroyed() returns (action: Action)
      modifies this
      ensures (Model(), action) == Handoff.DialogDestroyed(old(Model()))
    {
      if !dialog {
        return Rest;
      }
      dialog, visible := false, false;
      if handoffCommitted {
        return Rest;
      }
      cancelled := true;
      if busy {
        return Rest;
      }
      action := CancelJob(AfterFailure, false);
    }

    method OnFailed(stage: Stage, fit: bool) returns (action: Action)
      requires !closed && !busy
      modifies this
      ensures (Model(), action) == TakeResult(old(Model()), stage, Error, fit)
      ensures !action.Authorize?
    {
      if stage == LaunchStage {
        downloaded := None;
      }
      if stage == CheckStage {
        return Rest;
      }
      action := CancelJob(AfterFailure, fit);
    }

    method OnPaused(done: bool, fit: bool) returns (action: Action)
      requires !closed && !busy
      modifies this
      ensures (Model(), action) == TakeResult(old(Model()), PauseStage, Paused(done), fit)
      ensures !action.Authorize?
    {
      if cancelled || !dialog || !visible || !fit || !done || downloaded == None {
        action := CancelJob(AfterFailure, fit);
      } else {
        busy := true;
        action := Launch(downloaded.value);
      }
    }

    method OnLaunched(j: JobId, fit: bool) returns (action: Action)
      requires !closed && !busy
      modifies this
      ensures (Model(), action) == TakeResult(old(Model()), LaunchStage, Launched(j), fit)
      ensures action.Authorize? ==> !closed && !cancelled && dialog && visible && fit && action.job == j
    {
      if cancelled || !dialog || !visible || !fit {
        action := CancelJob(AfterFailure, fit);
      } else {
        action := Authorize(j);
      }
    }

    method ShowOffer(version: Version)
      requires !closed && !busy
      modifies this
      ensures (Model(), Rest) == TakeResult(old(Model()), CheckStage, Offer(version), false)
    {
      plan := Some(version);
      downloaded := None;
      dialog, visible := true, true;
    }

    method OnDownloaded(j: JobId, fit: bool) returns (action: Action)
      requires !closed && !busy
      modifies this
      ensures (Model(), action) == TakeResult(old(Model()), DownloadStage, Downloaded(j), fit)
      ensures !action.Authorize?
    {
      if cancelled {
        return Rest;
      }
      downloaded := Some(j);
      action := BeginHandoff(fit);
    }

    method OnResult(stage: Stage, result: Result, fit: bool) returns (action: Action)
      requires !closed && !busy
      modifies this
      ensures (Model(), action) == TakeResult(old(Model()), stage, result, fit)
      ensures action.Authorize? ==> !closed && !cancelled && dialog && visible && fit && result == Launched(action.job)
    {
      match result
      case Error => action := OnFailed(stage, fit);
      case NoUpdate => action := Rest;
      case Offer(version) =>
        ShowOffer(version);
        action := Rest;
      case Downloaded(j) => action := OnDownloaded(j, fit);
      case Paused(done) => action := OnPaused(done, fit);
      case Launched(j) => action := OnLaunched(j, fit);
    }

    /** The result of an operation of the stage. Installing is authorized only by a controller that
        is open, not cancelled, and whose window and profile still fit. */
    method OnCompleted(stage: Stage, result: Result, fit: bool) returns (action: Action)
      modifies this
      ensures (Model(), action) == Completed(old(Model()), stage, result, fit)
      ensures action.Authorize? ==> !closed && !cancelled && dialog && visible && fit && result == Launched(action.job)
    {
      busy := false;
      if closed {
        ReleaseHandoff();
        return Rest;
      }
      action := OnResult(stage, result, fit);
    }
  }
}
