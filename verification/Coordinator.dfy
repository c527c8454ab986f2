/** The lifecycle of the background sync worker of one profile: starting, stopping, resuming, and
    the queue of conflict resolutions. Threads interleave at every step. */
module Coordinator {
  import opened Options

  type ThreadId = nat
  type Request = nat

  /** Where a worker thread is. The comment names the step it takes next. */
  datatype Place =
    | LoopHead                       // look at the stop flag
    | Resolving                      // take the next queued resolution, if any
    | Executing(request: Request)    // resolve the conflict
    | Ticking                        // one synchronisation
    | Waiting                        // sleep until woken or the interval is over
    | Woken                          // clear the wake flag
    | Discarding                     // drop the queue
    | Ending                         // leave under the lock

  /** `place` holds the threads whose loop has not ended. `wakers` counts the callers that queued a
      request and have not set the wake flag yet. The fields after it are history. */
  datatype State = State(
    stop: bool,
    wake: bool,
    thread: Option<ThreadId>,
    resumeRequested: bool,
    queue: seq<Request>,
    place: map<ThreadId, Place>,
    wakers: nat,
    starts: nat,
    known: set<Request>,
    executed: seq<Request>)

  const START := State(false, false, None, false, [], map[], 0, 0, {}, [])

  // ----- the callers -----

  /** A new worker thread; a thread object is used once. */
  function StartLocked(y: State): State {
    y.(stop := false, thread := Some(y.starts), place := y.place[y.starts := LoopHead], starts := y.starts + 1)
  }

  function Start(y: State): State {
    if y.thread.Some? then y else StartLocked(y)
  }

  function Resume(y: State): State {
    if y.thread == None then StartLocked(y)
    else if y.stop then y.(resumeRequested := true)
    else y.(wake := true)
  }

  function Stop(y: State): State {
    y.(resumeRequested := false, stop := true, wake := true)
  }

  /** Queueing a resolution with a new identifier; the caller looked at the stop flag before. */
  function Put(y: State, r: Request): State {
    if r in y.known then y else y.(queue := y.queue + [r], known := y.known + {r}, wakers := y.wakers + 1)
  }

  function Wake(y: State): State {
    if y.wakers == 0 then y else y.(wake := true, wakers := y.wakers - 1)
  }

  /** Asking for a synchronisation, without a request in the queue. */
  function RequestSync(y: State): State {
    y.(wake := true)
  }

  function Drop(y: State): State {
    if y.queue == [] then y else y.(queue := y.queue[1..])
  }

  // ----- the worker -----

  function Go(y: State, w: ThreadId, place: Place): State {
    y.(place := y.place[w := place])
  }

  /** The end of a worker, under the lock: it restarts the loop when that was asked for. */
  function End(y: State, w: ThreadId): State {
    var ended := y.(thread := None, place := y.place - {w});
    if y.resumeRequested then StartLocked(ended.(resumeRequested := false)) else ended
  }

  /** One step of a worker; `again` tells whether more work follows at once, `timesOut` whether the
      interval is over. */
  function Work(y: State, w: ThreadId, again: bool, timesOut: bool): State
    requires w in y.place
  {
    match y.place[w]
    case LoopHead => Go(y, w, if y.stop then Discarding else Resolving)
    case Resolving =>
      if y.stop then Go(y, w, Discarding)
      else if y.queue == [] then Go(y, w, Ticking)
      else Go(y.(queue := y.queue[1..]), w, Executing(y.queue[0]))
    case Executing(r) => Go(y.(executed := y.executed + [r]), w, Resolving)
    case Ticking => Go(y, w, if again then LoopHead else Waiting)
    case Waiting => if y.wake || timesOut then Go(y, w, Woken) else y
    case Woken => Go(y.(wake := false), w, LoopHead)
    case Discarding => if y.queue == [] then Go(y, w, Ending) else Drop(y)
    case Ending => End(y, w)
  }

  datatype Step =
    | StartStep
    | ResumeStep
    | StopStep
    | PutStep(request: Request)
    | WakeStep
    | RequestSyncStep
    | DropStep                                            // a finished stop drains the queue
    | WorkStep(thread: ThreadId, again: bool, timesOut: bool)

  function Next(y: State, s: Step): State {
    match s
    case StartStep => Start(y)
    case ResumeStep => Resume(y)
    case StopStep => Stop(y)
    case PutStep(r) => Put(y, r)
    case WakeStep => Wake(y)
    case RequestSyncStep => RequestSync(y)
    case DropStep => Drop(y)
    case WorkStep(w, again, timesOut) => if w in y.place then Work(y, w, again, timesOut) else y
  }

  function Run(y: State, steps: seq<Step>): State {
    if steps == [] then y else Next(Run(y, steps[..|steps| - 1]), steps[|steps| - 1])
  }

  // ----- what holds in every state -----

  function Executions(y: State, r: Request): nat {
    multiset(y.executed)[r]
  }

  /** The request a worker has taken from the queue and not finished. */
  predicate InHand(y: State, r: Request) {
    y.thread.Some? && y.thread.value in y.place && y.place[y.thread.value] == Executing(r)
  }

  /** How often a request is queued, in hand or done. */
  function Uses(y: State, r: Request): nat {
    multiset(y.queue)[r] + (if InHand(y, r) then 1 else 0) + Executions(y, r)
  }

  /** About to sleep, or asleep. */
  predicate BeforeSleep(place: Place) {
    place.Ticking? || place.Waiting?
  }

  predicate LifeOk(y: State) {
    && y.place.Keys == (if y.thread.Some? then {y.thread.value} else {})
    && (y.thread.Some? ==> y.thread.value < y.starts)
    && (y.resumeRequested ==> y.thread.Some? && y.stop)
    && (y.thread.Some? && (y.place[y.thread.value].Discarding? || y.place[y.thread.value].Ending?) ==> y.stop)
    && (y.thread.Some? && BeforeSleep(y.place[y.thread.value]) && (y.stop || y.queue != []) ==>
          y.wake || y.wakers > 0)
  }

  ghost predicate UsesOk(y: State) {
    forall r :: Uses(y, r) <= if r in y.known then 1 else 0
  }

  ghost predicate StateOk(y: State) {
    LifeOk(y) && UsesOk(y)
  }

  lemma WorkLife(y: State, w: ThreadId, again: bool, timesOut: bool)
    requires LifeOk(y) && w in y.place
    ensures LifeOk(Work(y, w, again, timesOut))
  {
    assert w in y.place.Keys;
    match y.place[w]
    case Ending => EndLife(y, w);
    case Waiting => GoLife(y, w, Woken);
    case Ticking => GoLife(y, w, if again then LoopHead else Waiting);
    case _ =>
  }

  lemma EndLife(y: State, w: ThreadId)
    requires LifeOk(y) && y.thread == Some(w) && y.place[w] == Ending
    ensures LifeOk(End(y, w))
  {
  }

  lemma GoLife(y: State, w: ThreadId, place: Place)
    requires LifeOk(y) && y.thread == Some(w)
    requires !place.Discarding? && !place.Ending? && (BeforeSleep(place) ==> BeforeSleep(y.place[w]))
    ensures LifeOk(Go(y, w, place))
  {
  }

  lemma FirstOut(queue: seq<Request>, r: Request)
    requires queue != []
    ensures multiset(queue)[r] == multiset(queue[1..])[r] + if queue[0] == r then 1 else 0
  {
    assert queue == [queue[0]] + queue[1..];
  }

  lemma LastIn(items: seq<Request>, q: Request, r: Request)
    ensures multiset(items + [q])[r] == multiset(items)[r] + if q == r then 1 else 0
  {
  }

  lemma TakeUses(y: State, w: ThreadId, r: Request)
    requires LifeOk(y) && y.thread == Some(w) && y.place[w] == Resolving && y.queue != []
    ensures Uses(Go(y.(queue := y.queue[1..]), w, Executing(y.queue[0])), r) == Uses(y, r)
  {
    FirstOut(y.queue, r);
  }

  lemma DoneUses(y: State, w: ThreadId, r: Request)
    requires LifeOk(y) && y.thread == Some(w) && y.place[w].Executing?
    ensures Uses(Go(y.(executed := y.executed + [y.place[w].request]), w, Resolving), r) == Uses(y, r)
  {
    LastIn(y.executed, y.place[w].request, r);
  }

  lemma EndUses(y: State, w: ThreadId, r: Request)
    requires LifeOk(y) && y.thread == Some(w) && y.place[w] == Ending
    ensures Uses(End(y, w), r) == Uses(y, r)
  {
  }

  lemma MoveUses(y: State, w: ThreadId, place: Place, r: Request)
    requires LifeOk(y) && y.thread == Some(w) && !y.place[w].Executing? && !place.Executing?
    ensures Uses(Go(y, w, place), r) == Uses(y, r)
    ensures Uses(Go(y.(wake := false), w, place), r) == Uses(y, r)
  {
  }

  lemma WorkUses(y: State, w: ThreadId, again: bool, timesOut: bool, r: Request)
    requires LifeOk(y) && w in y.place
    ensures Uses(Work(y, w, again, timesOut), r) <= Uses(y, r)
  {
    assert w in y.place.Keys;
    match y.place[w]
    case LoopHead => MoveUses(y, w, if y.stop then Discarding else Resolving, r);
    case Resolving =>
      if !y.stop && y.queue != [] {
        TakeUses(y, w, r);
      } else {
        MoveUses(y, w, if y.stop then Discarding else Ticking, r);
      }
    case Executing(_) => DoneUses(y, w, r);
    case Ticking => MoveUses(y, w, if again then LoopHead else Waiting, r);
    case Waiting => MoveUses(y, w, Woken, r);
    case Woken => MoveUses(y, w, LoopHead, r);
    case Discarding =>
      if y.queue == [] {
        MoveUses(y, w, Ending, r);
      } else {
        FirstOut(y.queue, r);
      }
    case Ending => EndUses(y, w, r);
  }

  lemma CallerLife(y: State, s: Step)
    requires LifeOk(y) && !s.WorkStep?
    ensures LifeOk(Next(y, s))
    ensures y.known <= Next(y, s).known
    ensures s.PutStep? ==> s.request in Next(y, s).known
  {
  }

  lemma PutUses(y: State, q: Request, r: Request)
    requires LifeOk(y)
    ensures Uses(Put(y, q), r) <= Uses(y, r) + if q == r && r !in y.known then 1 else 0
  {
    LastIn(y.queue, q, r);
  }

  lemma DropUses(y: State, r: Request)
    requires LifeOk(y)
    ensures Uses(Drop(y), r) <= Uses(y, r)
  {
    if y.queue != [] {
      FirstOut(y.queue, r);
    }
  }

  lemma FlagUses(y: State, s: Step, r: Request)
    requires LifeOk(y) && (s.StartStep? || s.ResumeStep? || s.StopStep? || s.WakeStep? || s.RequestSyncStep?)
    ensures Uses(Next(y, s), r) == Uses(y, r)
  {
  }

  lemma CallerUses(y: State, s: Step, r: Request)
    requires LifeOk(y) && !s.WorkStep?
    ensures Uses(Next(y, s), r) <= Uses(y, r) + if s == PutStep(r) && r !in y.known then 1 else 0
  {
    match s
    case PutStep(q) => PutUses(y, q, r);
    case DropStep => DropUses(y, r);
    case _ => FlagUses(y, s, r);
  }

  lemma WorkKeepsUses(y: State, s: Step)
    requires StateOk(y) && s.WorkStep? && s.thread in y.place
    ensures UsesOk(Next(y, s))
  {
    WorkKnows(y, s.thread, s.again, s.timesOut);
    forall r ensures Uses(Next(y, s), r) <= if r in Next(y, s).known then 1 else 0 {
      WorkUses(y, s.thread, s.again, s.timesOut, r);
    }
  }

  lemma WorkKnows(y: State, w: ThreadId, again: bool, timesOut: bool)
    requires w in y.place
    ensures Work(y, w, again, timesOut).known == y.known
  {
  }

  lemma CallerKeepsUses(y: State, s: Step)
    requires StateOk(y) && !s.WorkStep?
    ensures UsesOk(Next(y, s))
  {
    CallerLife(y, s);
    forall r ensures Uses(Next(y, s), r) <= if r in Next(y, s).known then 1 else 0 {
      CallerUses(y, s, r);
    }
  }

  lemma StepKeeps(y: State, s: Step)
    requires StateOk(y)
    ensures StateOk(Next(y, s))
  {
    if !s.WorkStep? {
      CallerLife(y, s);
      CallerKeepsUses(y, s);
    } else if s.thread in y.place {
      WorkLife(y, s.thread, s.again, s.timesOut);
      WorkKeepsUses(y, s);
    }
  }

  lemma {:induction false} RunKeeps(y: State, steps: seq<Step>)
    requires StateOk(y)
    ensures StateOk(Run(y, steps))
  {
    if steps != [] {
      RunKeeps(y, steps[..|steps| - 1]);
      StepKeeps(Run(y, steps[..|steps| - 1]), steps[|steps| - 1]);
    }
  }

  lemma {:induction false} ReachableOk(steps: seq<Step>)
    ensures StateOk(Run(START, steps))
  {
    RunKeeps(START, steps);
  }

  // ----- promises -----

  /** At most one sync loop runs, and it is the one the coordinator knows. */
  lemma {:induction false} OneLoop(steps: seq<Step>, v: ThreadId, w: ThreadId)
    requires v in Run(START, steps).place && w in Run(START, steps).place
    ensures v == w && Run(START, steps).thread == Some(v)
  {
    ReachableOk(steps);
    assert v in Run(START, steps).place.Keys && w in Run(START, steps).place.Keys;
  }

  /** Every queued resolution is executed at most once, and none that was not queued. */
  lemma {:induction false} ResolvedAtMostOnce(steps: seq<Step>, r: Request)
    ensures Executions(Run(START, steps), r) <= 1
    ensures Executions(Run(START, steps), r) == 1 ==> r in Run(START, steps).known && r !in Run(START, steps).queue
  {
    ReachableOk(steps);
    var y := Run(START, steps);
    assert Uses(y, r) <= 1;
  }

  /** The worker never sleeps on a queued resolution or on a stop: either the wake flag is set, or a
      caller is about to set it. */
  lemma {:induction false} NeverSleepsOnWork(steps: seq<Step>, w: ThreadId)
    requires var y := Run(START, steps);
             w in y.place && y.place[w] == Waiting && (y.stop || y.queue != [])
    ensures Run(START, steps).wake || Run(START, steps).wakers > 0
  {
    ReachableOk(steps);
    assert w in Run(START, steps).place.Keys;
  }

  /** A worker that is leaving and will be replaced by exactly one new loop. */
  predicate Leaving(y: State, w: ThreadId, starts: nat) {
    y.thread == Some(w) && y.stop && y.resumeRequested && y.starts == starts
  }

  /** The replacement runs, and nothing asks it to end. */
  predicate Restarted(y: State, starts: nat) {
    y.thread == Some(starts) && !y.stop && !y.resumeRequested && y.starts == starts + 1
  }

  lemma StepRestartsOnce(y: State, s: Step, w: ThreadId, starts: nat)
    requires StateOk(y) && s != StopStep
    requires Leaving(y, w, starts) || Restarted(y, starts)
    ensures Leaving(Next(y, s), w, starts) || Restarted(Next(y, s), starts)
    ensures Restarted(y, starts) ==> Restarted(Next(y, s), starts)
  {
    if s.WorkStep? && s.thread in y.place {
      assert s.thread in y.place.Keys;
    }
  }

  /** A resume while the worker is stopping restarts the loop exactly once, whatever else happens:
      as long as there is no other stop, either the old worker is still leaving, or one new loop
      runs. Further resumes and starts make no second one. */
  lemma {:induction false} ResumeRestartsOnce(y: State, steps: seq<Step>)
    requires StateOk(y) && y.thread.Some? && y.stop
    requires StopStep !in steps
    ensures var last := Run(Resume(y), steps);
            && StateOk(last)
            && (Leaving(last, y.thread.value, y.starts) || Restarted(last, y.starts))
  {
    StepKeeps(y, ResumeStep);
    RunKeeps(Resume(y), steps);
    if steps != [] {
      ResumeRestartsOnce(y, steps[..|steps| - 1]);
      StepRestartsOnce(Run(Resume(y), steps[..|steps| - 1]), steps[|steps| - 1], y.thread.value, y.starts);
    }
  }

  /** A stop cancels the resume: without another start or resume no loop is started again. */
  lemma {:induction false} StopCancelsResume(y: State, steps: seq<Step>)
    requires StateOk(y)
    requires StartStep !in steps && ResumeStep !in steps
    ensures var last := Run(Stop(y), steps);
            last.starts == y.starts && last.stop && !last.resumeRequested
            && (last.thread == y.thread || last.thread == None)
  {
    if steps != [] {
      StopCancelsResume(y, steps[..|steps| - 1]);
      StepKeeps(y, StopStep);
      RunKeeps(Stop(y), steps[..|steps| - 1]);
      var before := Run(Stop(y), steps[..|steps| - 1]);
      var s := steps[|steps| - 1];
      if s.WorkStep? && s.thread in before.place {
        assert s.thread in before.place.Keys;
      }
    }
  }

  /** A loop runs that nothing asks to end, or that will be replaced when it ends. */
  predicate KeepsRunning(y: State) {
    y.thread.Some? && (!y.stop || y.resumeRequested)
  }

  /** No caller starts, resumes or stops the worker. */
  predicate Undirected(steps: seq<Step>) {
    StartStep !in steps && ResumeStep !in steps && StopStep !in steps
  }

  lemma UndirectedStep(y: State, s: Step)
    requires StateOk(y) && s != StartStep && s != ResumeStep && s != StopStep
    ensures KeepsRunning(y) ==> KeepsRunning(Next(y, s))
    ensures y.stop && !y.resumeRequested ==>
              Next(y, s).stop && !Next(y, s).resumeRequested && Next(y, s).starts == y.starts
  {
    if s.WorkStep? && s.thread in y.place {
      assert s.thread in y.place.Keys;
    }
  }

  /** A start takes effect, whatever worker and waiting callers do afterwards, exactly unless a worker
      is stopping that no resume asked to replace. Then the start is dropped: no loop is ever started. */
  lemma {:induction false} StartTakesEffectUnless(y: State, steps: seq<Step>)
    requires StateOk(y) && Undirected(steps)
    ensures var last, dropped := Run(Start(y), steps), y.thread.Some? && y.stop && !y.resumeRequested;
            && StateOk(last)
            && (KeepsRunning(last) <==> !dropped)
            && (dropped ==> last.starts == y.starts && last.stop && !last.resumeRequested)
  {
    StepKeeps(y, StartStep);
    RunKeeps(Start(y), steps);
    if steps != [] {
      StartTakesEffectUnless(y, steps[..|steps| - 1]);
      UndirectedStep(Run(Start(y), steps[..|steps| - 1]), steps[|steps| - 1]);
    }
  }

  /** Started, stopped and started again before the worker noticed: the worker ends and none follows. */
  lemma StartWhileStoppingIsDropped(again: bool, timesOut: bool)
    ensures var work := WorkStep(0, again, timesOut);
            var y := Run(START, [StartStep, StopStep, StartStep, work, work, work]);
            y.thread == None && y.starts == 1
  {
    var work := WorkStep(0, again, timesOut);
    var y1 := Run(START, [StartStep]);
    assert [StartStep][..0] == [] && y1 == Start(START);
    var s3 := [StartStep, StopStep, StartStep];
    assert s3[..2] == [StartStep, StopStep] && [StartStep, StopStep][..1] == [StartStep];
    assert Run(START, s3) == Start(Stop(y1));
    var s4, s5, s6 := s3 + [work], s3 + [work, work], s3 + [work, work, work];
    assert s4[..3] == s3 && s5[..4] == s4 && s6[..5] == s5;
    assert Run(START, s4) == Go(Stop(y1), 0, Discarding);
    assert Run(START, s5) == Go(Run(START, s4), 0, Ending);
    assert s6 == [StartStep, StopStep, StartStep, work, work, work];
  }

  /** The steps a stopping worker still has to take, not counting the queue. */
  function Left(place: Place): nat {
    match place
    case LoopHead => 2
    case Resolving => 2
    case Executing(_) => 3
    case Ticking => 5
    case Waiting => 4
    case Woken => 3
    case Discarding => 1
    case Ending => 0
  }

  /** A stopping worker makes progress with every step of its own: it ends, or is nearer its end,
      or the queue it drops is shorter. */
  lemma StoppingEnds(y: State, w: ThreadId, again: bool, timesOut: bool)
    requires StateOk(y) && w in y.place && y.stop
    requires y.place[w].Waiting? ==> y.wake || timesOut
    ensures var y' := Work(y, w, again, timesOut);
            || w !in y'.place
            || Left(y'.place[w]) < Left(y.place[w])
            || (y'.place[w] == y.place[w] && |y'.queue| < |y.queue|)
  {
    assert w in y.place.Keys;
  }
}
