/** Runner.Run (internal/workflow/runner.go): the method itself, the function it computes, and the
    log of rows one run writes. */
module Runner {
  import opened Wrappers
  import opened Errors
  import opened Records
  import opened Steps

  /** Everything one run cannot decide for itself: the fate of each repository call and the way
      each step ends. A run executes each step and saves each position at most once. */
  datatype Script = Script(
    get: Fate, create: Fate, running: Fate, step: nat -> Choice, save: nat -> Fate, failed: Fate, completed: Fate)

  ghost predicate LegalScript(steps: seq<Step>, sc: Script) {
    forall i: nat :: i < |steps| ==> LegalChoice(steps[i], sc.step(i))
  }

  /** The arguments of one run that say which workflow it is. */
  datatype Job = Job(jobID: int, workflowType: string, clientID: string, initial: Option<Data>)

  function NewState(job: Job): State {
    State("", job.jobID, job.workflowType, job.clientID, "", 0, Pending, "", job.initial)
  }

  function MarkedRunning(s: State): State {
    s.(status := Running, error := "")
  }

  function Advanced(s: State, step: Step, i: nat): State {
    s.(data := FinishedData(step, s.data), currentStep := i + 1)
  }

  function MarkedFailed(s: State, step: Step, err: Error, wrote: Data): State {
    s.(data := HalfData(step, s.data, wrote), status := Failed, error := Text(err))
  }

  function MarkedCompleted(s: State): State {
    s.(status := Completed)
  }

  /** The outcome of one run: the stored states, the external world, what Run returned, the states
      its UpdateStep calls stored, and the steps it executed, both in order. */
  datatype Outcome = Outcome(db: map<int, State>, world: World, call: CallResult, log: seq<State>, ran: seq<nat>)

  function Prefixed(log: seq<State>, ran: seq<nat>, o: Outcome): Outcome {
    o.(log := log + o.log, ran := ran + o.ran)
  }

  lemma PrefixedTwice(log: seq<State>, ran: seq<nat>, more: seq<State>, moreRan: seq<nat>, o: Outcome)
    ensures Prefixed(log, ran, Prefixed(more, moreRan, o)) == Prefixed(log + more, ran + moreRan, o)
  {
    assert log + (more + o.log) == (log + more) + o.log;
    assert ran + (moreRan + o.ran) == (ran + moreRan) + o.ran;
  }

  /** The log entry of one UpdateStep call, if the call took effect. */
  function Entry(db: map<int, State>, s: State, fate: Fate): seq<State> {
    if Marshals(s.data) && s.jobID in db && (fate.Works? || fate == Kills(true)) then [s] else []
  }

  function RunFrom(steps: seq<Step>, job: Job, id: string, db: map<int, State>, world: World, sc: Script): Outcome {
    match sc.get
    case Kills(_) => Outcome(db, world, Killed, [], [])
    case Errs(e) =>
      if IsRowNotFound(e) then CreateFrom(steps, job, id, db, world, sc)
      else Outcome(db, world, Returned(Some(Wrap("load workflow state: ", Wrap("query workflow state: ", e)))), [], [])
    case Works =>
      if job.jobID in db then Start(steps, db[job.jobID], db, world, sc)
      else CreateFrom(steps, job, id, db, world, sc)
  }

  /** What a run does when Get reports that there is no row. */
  function CreateFrom(steps: seq<Step>, job: Job, id: string, db: map<int, State>, world: World, sc: Script): Outcome {
    var s := NewState(job);
    var (db', r) := Put(db, s, id, sc.create);
    match r
    case Killed => Outcome(db', world, Killed, [], [])
    case Returned(Some(e)) => Outcome(db', world, Returned(Some(Wrap("create workflow state: ", e))), [], [])
    case Returned(None) => Start(steps, s.(id := id), db', world, sc)
  }

  function Start(steps: seq<Step>, loaded: State, db: map<int, State>, world: World, sc: Script): Outcome {
    var s := MarkedRunning(loaded);
    var (db', r) := Change(db, s, sc.running);
    var log := Entry(db, s, sc.running);
    match r
    case Killed => Outcome(db', world, Killed, log, [])
    case Returned(Some(e)) => Outcome(db', world, Returned(Some(Wrap("update status to running: ", e))), log, [])
    case Returned(None) => Prefixed(log, [], Loop(steps, 0, s, db', world, sc))
  }

  function Loop(steps: seq<Step>, i: nat, s: State, db: map<int, State>, world: World, sc: Script): Outcome
    requires i <= |steps|
    decreases |steps| - i
  {
    if i == |steps| then Finish(s, db, world, sc)
    else if i < s.currentStep then Loop(steps, i + 1, s, db, world, sc)
    else
      match sc.step(i)
      case Dies(did) => Outcome(db, HalfWorld(steps[i], s.data, world, did), Killed, [], [i])
      case Fails(err, wrote, did) =>
        Fail(MarkedFailed(s, steps[i], err, wrote), err, i, db, HalfWorld(steps[i], s.data, world, did), sc)
      case Succeeds =>
        var s' := Advanced(s, steps[i], i);
        var world' := FinishedWorld(steps[i], s.data, world);
        var (db', r) := Change(db, s', sc.save(i));
        var log := Entry(db, s', sc.save(i));
        match r
        case Killed => Outcome(db', world', Killed, log, [i])
        case Returned(Some(e)) =>
          Outcome(db', world', Returned(Some(Wrap("update step " + Decimal(i) + ": ", e))), log, [i])
        case Returned(None) => Prefixed(log, [i], Loop(steps, i + 1, s', db', world', sc))
  }

  function UpdateFailed(updateErr: Error, stepErr: Error): Error {
    WrapBoth("update failed state: ", updateErr, " (step error: ", stepErr, ")")
  }

  function Fail(s: State, err: Error, i: nat, db: map<int, State>, world: World, sc: Script): Outcome {
    var (db', r) := Change(db, s, sc.failed);
    var call := match r
      case Killed => Killed
      case Returned(Some(updateErr)) => Returned(Some(UpdateFailed(updateErr, err)))
      case Returned(None) => Returned(Some(err));
    Outcome(db', world, call, Entry(db, s, sc.failed), [i])
  }

  function Finish(s: State, db: map<int, State>, world: World, sc: Script): Outcome {
    var s' := MarkedCompleted(s);
    var (db', r) := Change(db, s', sc.completed);
    var call := match r
      case Returned(Some(e)) => Returned(Some(Wrap("update status to completed: ", e)))
      case _ => r;
    Outcome(db', world, call, Entry(db, s', sc.completed), [])
  }

  // ---------- The method ----------

  /** The external systems the steps act on. */
  class ExternalSystems {
    var world: World

    constructor (world: World)
      ensures this.world == world
    {
      this.world := world;
    }
  }

  class Runner {
    const repo: PgxRepository
    const steps: seq<Step>

    constructor (repo: PgxRepository, steps: seq<Step>)
      ensures this.repo == repo && this.steps == steps
    {
      this.repo, this.steps := repo, steps;
    }

    /** UpdateStep, seen from the map that the rows stand for. */
    method Save(tx: Tx, state: WorkflowState, fate: Fate, ghost log0: seq<State>)
      returns (r: CallResult, ghost log: seq<State>)
      modifies tx`rows
      ensures (Table(tx.rows), r) == Change(Table(old(tx.rows)), state.Value(), fate)
      ensures log == log0 + Entry(Table(old(tx.rows)), state.Value(), fate)
    {
      UpdateRefinesChange(tx.rows, state.Value(), tx.now, fate);
      log := log0 + Entry(Table(tx.rows), state.Value(), fate);
      r := repo.UpdateStep(tx, state, fate);
    }

    /** The first part of Run: the stored state, or a new row for it. */
    method LoadOrCreate(tx: Tx, jobID: int, workflowType: string, clientID: string,
                        initialData: Option<Data>, id: string, sc: Script)
      returns (call: CallResult, state: Option<WorkflowState>)
      modifies tx`rows
      ensures call == Returned(None) <==> state.Some?
      ensures state.Some? ==> fresh(state.value)
      ensures forall world: World ::
                RunFrom(steps, Job(jobID, workflowType, clientID, initialData), id, Table(old(tx.rows)), world, sc)
                == if state.Some? then Start(steps, state.value.Value(), Table(tx.rows), world, sc)
                   else Outcome(Table(tx.rows), world, call, [], [])
    {
      var loaded, r := repo.Get(tx, jobID, sc.get);
      if r.Killed? {
        return Killed, None;
      }
      if loaded.Some? {
        return Returned(None), loaded;
      }
      if !IsRowNotFound(r.err.value) {
        return Returned(Some(Wrap("load workflow state: ", r.err.value))), None;
      }
      var created := new WorkflowState(NewState(Job(jobID, workflowType, clientID, initialData)));
      CreateRefinesPut(tx.rows, created.Value(), id, tx.now, sc.create);
      r := repo.Create(tx, created, id, sc.create);
      if r.Killed? {
        return Killed, None;
      }
      if r.err.Some? {
        return Returned(Some(Wrap("create workflow state: ", r.err.value))), None;
      }
      return Returned(None), Some(created);
    }

    method Run(tx: Tx, systems: ExternalSystems, jobID: int, workflowType: string, clientID: string,
               initialData: Option<Data>, id: string, sc: Script)
      returns (call: CallResult, ghost log: seq<State>, ghost ran: seq<nat>)
      modifies tx`rows, systems
      ensures Outcome(Table(tx.rows), systems.world, call, log, ran)
           == RunFrom(steps, Job(jobID, workflowType, clientID, initialData), id,
                      Table(old(tx.rows)), old(systems.world), sc)
    {
      hide Change, Table, Entry;
      log, ran := [], [];
      var found: Option<WorkflowState>;
      call, found := LoadOrCreate(tx, jobID, workflowType, clientID, initialData, id, sc);
      if found.None? {
        return;
      }
      var state := found.value;
      ghost var spec := Start(steps, state.Value(), Table(tx.rows), systems.world, sc);

      state.status := Running;
      state.error := "";
      var r;
      r, log := Save(tx, state, sc.running, log);
      if r.Killed? {
        return Killed, log, ran;
      }
      if r.err.Some? {
        return Returned(Some(Wrap("update status to running: ", r.err.value))), log, ran;
      }

      for i := 0 to |steps|
        invariant fresh(state)
        invariant spec == Prefixed(log, ran, Loop(steps, i, state.Value(), Table(tx.rows), systems.world, sc))
      {
        if i < state.currentStep {
          continue;
        }
        ghost var entry;
        call, entry := RunStep(tx, systems, state, i, sc);
        PrefixedTwice(log, ran, entry, [i], Loop(steps, i + 1, state.Value(), Table(tx.rows), systems.world, sc));
        log, ran := log + entry, ran + [i];
        if call != Returned(None) {
          return;
        }
      }

      state.status := Completed;
      r, log := Save(tx, state, sc.completed, log);
      if r.Killed? {
        return Killed, log, ran;
      }
      if r.err.Some? {
        return Returned(Some(Wrap("update status to completed: ", r.err.value))), log, ran;
      }
      return Returned(None), log, ran;
    }

    /** The body of the step loop: nil means that the loop goes on. */
    method RunStep(tx: Tx, systems: ExternalSystems, state: WorkflowState, i: nat, sc: Script)
      returns (call: CallResult, ghost entry: seq<State>)
      requires i < |steps| && i >= state.currentStep
      modifies tx`rows, systems, state
      ensures Loop(steps, i, old(state.Value()), Table(old(tx.rows)), old(systems.world), sc)
           == if call == Returned(None)
              then Prefixed(entry, [i], Loop(steps, i + 1, state.Value(), Table(tx.rows), systems.world, sc))
              else Outcome(Table(tx.rows), systems.world, call, entry, [i])
    {
      hide Change, Table, Entry, FinishedData, FinishedWorld, HalfWorld, Fail, Decimal;
      var step := steps[i];
      match sc.step(i) {
        case Dies(did) =>
          systems.world := HalfWorld(step, state.data, systems.world, did);
          return Killed, [];
        case Fails(err, wrote, did) =>
          call, entry := FailStep(tx, systems, state, i, sc, err, wrote, did);
        case Succeeds =>
          systems.world := FinishedWorld(step, state.data, systems.world);
          state.data := FinishedData(step, state.data);
          state.currentStep := i + 1;
          call, entry := Save(tx, state, sc.save(i), []);
          if call.Returned? && call.err.Some? {
            call := Returned(Some(Wrap("update step " + Decimal(i) + ": ", call.err.value)));
          }
      }
    }

    method FailStep(tx: Tx, systems: ExternalSystems, state: WorkflowState, i: nat, sc: Script,
                    err: Error, wrote: Data, did: World)
      returns (call: CallResult, ghost entry: seq<State>)
      requires i < |steps|
      modifies tx`rows, systems, state
      ensures call != Returned(None)
      ensures Fail(MarkedFailed(old(state.Value()), steps[i], err, wrote), err, i,
                   Table(old(tx.rows)), HalfWorld(steps[i], old(state.data), old(systems.world), did), sc)
           == Outcome(Table(tx.rows), systems.world, call, entry, [i])
    {
      hide Change, Table, Entry, HalfData, HalfWorld, Text;
      systems.world := HalfWorld(steps[i], state.data, systems.world, did);
      state.data := HalfData(steps[i], state.data, wrote);
      state.status := Failed;
      state.error := Text(err);
      var r;
      r, entry := Save(tx, state, sc.failed, []);
      if r.Killed? {
        return Killed, entry;
      }
      if r.err.Some? {
        return Returned(Some(UpdateFailed(r.err.value, err))), entry;
      }
      return Returned(Some(err)), entry;
    }
  }
}
