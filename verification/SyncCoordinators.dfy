/** The sync coordinator as the object it is: the fields its lock protects, updated in place. The
    ghost argument is the state of the model the call starts in. */
module SyncCoordinators {
  import opened Options
  import Coordinator

  type State = Coordinator.State
  type ThreadId = Coordinator.ThreadId

  class SyncCoordinator {
    var thread: Option<ThreadId>
    var resumeRequested: bool
    var stopEvent: bool
    var wakeEvent: bool
    var starts: nat

    ghost predicate Shows(y: State)
      reads this
    {
      && thread == y.thread && resumeRequested == y.resumeRequested
      && stopEvent == y.stop && wakeEvent == y.wake && starts == y.starts
    }

    constructor ()
      ensures Shows(Coordinator.START)
    {
      thread, resumeRequested, stopEvent, wakeEvent, starts := None, false, false, false, 0;
    }

    method StartLocked(ghost y: State)
      requires Shows(y) && thread == None
      modifies this
      ensures Shows(Coordinator.StartLocked(y))
      ensures thread.Some? && !stopEvent
    {
      stopEvent := false;
      thread := Some(starts);
      starts := starts + 1;
    }

    method Start(ghost y: State)
      requires Shows(y)
      modifies this
      ensures Shows(Coordinator.Start(y))
      ensures thread.Some?
      ensures stopEvent && !resumeRequested <==> old(thread.Some? && stopEvent && !resumeRequested)
      ensures Coordinator.StateOk(y) ==>
                forall steps :: Coordinator.Undirected(steps) ==>
                  (Coordinator.KeepsRunning(Coordinator.Run(Coordinator.Start(y), steps))
                   <==> !stopEvent || resumeRequested)
    {
      if Coordinator.StateOk(y) {
        forall steps | Coordinator.Undirected(steps)
          ensures Coordinator.KeepsRunning(Coordinator.Run(Coordinator.Start(y), steps))
                  <==> !(y.thread.Some? && y.stop && !y.resumeRequested)
        {
          Coordinator.StartTakesEffectUnless(y, steps);
        }
      }
      if thread == None {
        StartLocked(y);
      }
    }

    method Resume(ghost y: State)
      requires Shows(y)
      modifies this
      ensures Shows(Coordinator.Resume(y))
      ensures thread.Some? && (resumeRequested || !stopEvent)
    {
      if thread.Some? {
        if stopEvent {
          resumeRequested := true;
        } else {
          wakeEvent := true;
        }
        return;
      }
      StartLocked(y);
    }

    method Stop(ghost y: State)
      requires Shows(y)
      modifies this
      ensures Shows(Coordinator.Stop(y))
      ensures forall w :: Coordinator.End(Coordinator.Stop(y), w).thread == None
      ensures Coordinator.StateOk(y) ==>
                forall steps :: Coordinator.StartStep !in steps && Coordinator.ResumeStep !in steps ==>
                  var last := Coordinator.Run(Coordinator.Stop(y), steps);
                  last.starts == starts && (last.thread == None || last.thread == thread)
    {
      if Coordinator.StateOk(y) {
        forall steps | Coordinator.StartStep !in steps && Coordinator.ResumeStep !in steps
          ensures var last := Coordinator.Run(Coordinator.Stop(y), steps);
                  last.starts == y.starts && (last.thread == None || last.thread == y.thread)
        {
          Coordinator.StopCancelsResume(y, steps);
        }
      }
      resumeRequested := false;
      stopEvent := true;
      wakeEvent := true;
    }

    /** The last region of a worker. */
    method End(ghost y: State, ghost w: ThreadId)
      requires Shows(y) && thread == Some(w)
      modifies this
      ensures Shows(Coordinator.End(y, w))
      ensures old(resumeRequested) <==> thread.Some?
      ensures starts == old(starts) + if old(resumeRequested) then 1 else 0
    {
      thread := None;
      if resumeRequested {
        resumeRequested := false;
        StartLocked(y.(thread := None, place := y.place - {w}, resumeRequested := false));
      }
    }
  }
}
