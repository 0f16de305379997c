/** Interrupted runs over a repository that keeps every update: resuming ends where one
    uninterrupted run ends, and only interrupted steps run again (internal/workflow/runner.go,
    with the in-memory repository of internal/workflow/runner_test.go). */
module Resume {
  import opened Wrappers
  import opened Errors
  import opened Records
  import opened Steps
  import opened Runner

  /** One call of Run: the id a new row would get, and everything that happens to the call. */
  datatype Attempt = Attempt(id: string, sc: Script)

  ghost predicate Legal(steps: seq<Step>, attempts: seq<Attempt>) {
    forall a :: a in attempts ==> LegalScript(steps, a.sc)
  }

  /** The outcomes of a sequence of runs, each starting from what the one before it left. */
  function Outcomes(steps: seq<Step>, job: Job, db: map<int, State>, world: World, attempts: seq<Attempt>): (r: seq<Outcome>)
    ensures |r| == |attempts|
    decreases |attempts|
  {
    if attempts == [] then [] else
    var o := RunFrom(steps, job, attempts[0].id, db, world, attempts[0].sc);
    [o] + Outcomes(steps, job, o.db, o.world, attempts[1..])
  }

  function Position(db: map<int, State>, jobID: int): int {
    if jobID in db then db[jobID].currentStep else 0
  }

  // ---------- What every run keeps ----------

  ghost predicate BelongsTo(s: State, job: Job) {
    s.jobID == job.jobID && s.workflowType == job.workflowType && s.clientID == job.clientID && s.orderID == ""
  }

  ghost predicate GoodState(steps: seq<Step>, job: Job, start: World, s: State, world: World) {
    && BelongsTo(s, job)
    && 0 <= s.currentStep <= |steps|
    && OnTrack(steps, Contents(job.initial), start, s.currentStep, Contents(s.data), world)
    && (job.initial.Some? ==> s.data.Some?)
  }

  /** The stored state, or the lack of one, is a point from which a run can go on. */
  ghost predicate Resumable(steps: seq<Step>, job: Job, start: World, db: map<int, State>, world: World) {
    if job.jobID in db then GoodState(steps, job, start, db[job.jobID], world)
    else AgreeOutside(world, start, TouchedFrom(steps, Contents(job.initial), 0))
  }

  lemma HalfDataContents(step: Step, data: Option<Data>, wrote: Data)
    requires wrote.Keys <= step.keys
    ensures Contents(HalfData(step, data, wrote)) == (Contents(data) - step.keys) + wrote
  {
    if step.keys == {} {
      assert wrote == map[] && Contents(data) - {} == Contents(data);
    }
  }

  lemma FinishedDataContents(step: Step, data: Option<Data>)
    requires SetsItsOwn(step)
    ensures Contents(FinishedData(step, data)) == Contents(data) + step.writes(Contents(data))
  {
    if step.keys == {} {
      assert step.writes(Contents(data)) == map[];
    }
  }

  /** UpdateStep either stores the state or leaves the table alone. */
  lemma ChangeStoresOrKeeps(db: map<int, State>, s: State, fate: Fate, stored: State)
    requires s.jobID in db && db[s.jobID] == stored
    requires s.id == stored.id && s.workflowType == stored.workflowType && s.clientID == stored.clientID
             && s.jobID == stored.jobID && s.orderID == stored.orderID
    ensures Change(db, s, fate).0 == db || Change(db, s, fate).0 == db[s.jobID := s]
    ensures Change(db, s, fate).1 == Returned(None) ==> Change(db, s, fate).0 == db[s.jobID := s]
  {
    assert Merge(stored, s) == s;
  }

  ghost predicate Done(s: State, n: nat) {
    s.status == Completed && s.error == "" && s.currentStep == n
  }

  /** A step that finished but was not saved is like one that failed with all its work done. */
  lemma UnsavedStaysOnTrack(steps: seq<Step>, initial: Data, start: World, c: nat, data: Data, world: World)
    requires Contract(steps) && c < |steps| && OnTrack(steps, initial, start, c, data, world)
    ensures OnTrack(steps, initial, start, c, data, world + steps[c].effects(data))
  {
    FailingStaysOnTrack(steps, initial, start, c, data, world, map[], steps[c].effects(data));
    FinishedIsHalfWorld(steps[c], Some(data), world);
  }

  lemma FinishedIsHalfWorld(step: Step, data: Option<Data>, world: World)
    ensures HalfWorld(step, data, world, step.effects(Contents(data))) == FinishedWorld(step, data, world)
  {
  }

  lemma FinishingKeepsGoodState(steps: seq<Step>, job: Job, start: World, s: State, world: World)
    requires Contract(steps) && GoodState(steps, job, start, s, world) && s.currentStep < |steps|
    ensures var i := s.currentStep;
            var world' := FinishedWorld(steps[i], s.data, world);
            GoodState(steps, job, start, Advanced(s, steps[i], i), world') && GoodState(steps, job, start, s, world')
  {
    var i, initial, data := s.currentStep, Contents(job.initial), Contents(s.data);
    assert StepContract(steps, i);
    FinishingStaysOnTrack(steps, initial, start, i, data, world);
    FinishedDataContents(steps[i], s.data);
    UnsavedStaysOnTrack(steps, initial, start, i, data, world);
  }

  lemma FailingKeepsGoodState(steps: seq<Step>, job: Job, start: World, s: State, world: World,
                              err: Error, wrote: Data, did: World)
    requires Contract(steps) && GoodState(steps, job, start, s, world) && s.currentStep < |steps|
    requires wrote.Keys <= steps[s.currentStep].keys
    ensures var step := steps[s.currentStep];
            var world' := HalfWorld(step, s.data, world, did);
            && GoodState(steps, job, start, MarkedFailed(s, step, err, wrote), world')
            && GoodState(steps, job, start, s, world')
  {
    var i := s.currentStep;
    FailingStaysOnTrack(steps, Contents(job.initial), start, i, Contents(s.data), world, wrote, did);
    HalfDataContents(steps[i], s.data, wrote);
    assert HalfWorld(steps[i], Some(Contents(s.data)), world, did) == HalfWorld(steps[i], s.data, world, did);
  }

  lemma {:induction false} LoopKeepsTrack(steps: seq<Step>, job: Job, start: World, i: nat, s: State,
                                          db: map<int, State>, world: World, sc: Script)
    requires Contract(steps) && LegalScript(steps, sc)
    requires i <= |steps| && i <= s.currentStep
    requires job.jobID in db && db[job.jobID] == s && GoodState(steps, job, start, s, world)
    requires s.status == Running && s.error == ""
    ensures var o := Loop(steps, i, s, db, world, sc);
            && Resumable(steps, job, start, o.db, o.world)
            && job.jobID in o.db
            && (o.call == Returned(None) ==> Done(o.db[job.jobID], |steps|))
    decreases |steps| - i
  {
    hide Change, Contract, StepContract, OnTrack, Entry, Text;
    if i == |steps| {
      ChangeStoresOrKeeps(db, MarkedCompleted(s), sc.completed, s);
    } else if i < s.currentStep {
      LoopKeepsTrack(steps, job, start, i + 1, s, db, world, sc);
    } else {
      assert LegalChoice(steps[i], sc.step(i));
      match sc.step(i)
      case Dies(did) =>
        FailingKeepsGoodState(steps, job, start, s, world, RowNotFound, map[], did);
      case Fails(err, wrote, did) =>
        FailingKeepsGoodState(steps, job, start, s, world, err, wrote, did);
        ChangeStoresOrKeeps(db, MarkedFailed(s, steps[i], err, wrote), sc.failed, s);
      case Succeeds =>
        var s', world' := Advanced(s, steps[i], i), FinishedWorld(steps[i], s.data, world);
        FinishingKeepsGoodState(steps, job, start, s, world);
        ChangeStoresOrKeeps(db, s', sc.save(i), s);
        var (db', r) := Change(db, s', sc.save(i));
        if r == Returned(None) {
          LoopKeepsTrack(steps, job, start, i + 1, s', db', world', sc);
        }
    }
  }

  lemma StartKeepsTrack(steps: seq<Step>, job: Job, start: World, loaded: State,
                        db: map<int, State>, world: World, sc: Script)
    requires Contract(steps) && LegalScript(steps, sc)
    requires job.jobID in db && db[job.jobID] == loaded && GoodState(steps, job, start, loaded, world)
    ensures var o := Start(steps, loaded, db, world, sc);
            && Resumable(steps, job, start, o.db, o.world)
            && job.jobID in o.db
            && (o.call == Returned(None) ==> Done(o.db[job.jobID], |steps|))
  {
    hide Change, OnTrack;
    var s := MarkedRunning(loaded);
    ChangeStoresOrKeeps(db, s, sc.running, loaded);
    var (db', r) := Change(db, s, sc.running);
    if r == Returned(None) {
      LoopKeepsTrack(steps, job, start, 0, s, db', world, sc);
    }
  }

  lemma RunKeepsResumable(steps: seq<Step>, job: Job, start: World, id: string,
                          db: map<int, State>, world: World, sc: Script)
    requires Contract(steps) && LegalScript(steps, sc) && Resumable(steps, job, start, db, world)
    ensures var o := RunFrom(steps, job, id, db, world, sc);
            && Resumable(steps, job, start, o.db, o.world)
            && (o.call == Returned(None) ==> job.jobID in o.db && Done(o.db[job.jobID], |steps|))
  {
    hide Start, CreateFrom, OnTrack, AgreeOutside;
    if job.jobID in db {
      StartKeepsTrack(steps, job, start, db[job.jobID], db, world, sc);
      CreateKeepsStored(steps, job, id, db, world, sc);
    } else {
      CreateKeepsTrack(steps, job, start, id, db, world, sc);
    }
  }

  /** Creating fails, in one way or another, when there is a row. */
  lemma CreateKeepsStored(steps: seq<Step>, job: Job, id: string, db: map<int, State>, world: World, sc: Script)
    requires job.jobID in db
    ensures var o := CreateFrom(steps, job, id, db, world, sc);
            o.db == db && o.world == world && o.ran == [] && o.call != Returned(None)
  {
  }

  lemma CreateKeepsTrack(steps: seq<Step>, job: Job, start: World, id: string,
                         db: map<int, State>, world: World, sc: Script)
    requires Contract(steps) && LegalScript(steps, sc) && Resumable(steps, job, start, db, world) && job.jobID !in db
    ensures var o := CreateFrom(steps, job, id, db, world, sc);
            && Resumable(steps, job, start, o.db, o.world)
            && (o.call == Returned(None) ==> job.jobID in o.db && Done(o.db[job.jobID], |steps|))
  {
    hide Start;
    var s := NewState(job);
    var (db', r) := Put(db, s, id, sc.create);
    assert GoodState(steps, job, start, s.(id := id), world);
    if r == Returned(None) {
      StartKeepsTrack(steps, job, start, s.(id := id), db', world, sc);
    }
  }

  lemma {:induction false} RunsKeepResumable(steps: seq<Step>, job: Job, start: World,
                                             db: map<int, State>, world: World, attempts: seq<Attempt>)
    requires Contract(steps) && Legal(steps, attempts) && Resumable(steps, job, start, db, world)
    ensures forall k :: 0 <= k < |attempts| ==>
              var o := Outcomes(steps, job, db, world, attempts)[k];
              && Resumable(steps, job, start, o.db, o.world)
              && (o.call == Returned(None) ==> job.jobID in o.db && Done(o.db[job.jobID], |steps|))
    decreases |attempts|
  {
    if attempts != [] {
      var a := attempts[0];
      assert a in attempts;
      RunKeepsResumable(steps, job, start, a.id, db, world, a.sc);
      var o := RunFrom(steps, job, a.id, db, world, a.sc);
      RunsKeepResumable(steps, job, start, o.db, o.world, attempts[1..]);
    }
  }

  // ---------- One uninterrupted run ----------

  const SMOOTH := Script(Works, Works, Works, (i: nat) => Succeeds, (i: nat) => Works, Works, Works)

  /** Nothing but the payload can keep a smooth run from succeeding. */
  lemma SmoothRunSucceeds(steps: seq<Step>, job: Job, id: string, db: map<int, State>, world: World)
    requires Contract(steps) && Marshals(job.initial) && job.jobID !in db
    ensures RunFrom(steps, job, id, db, world, SMOOTH).call == Returned(None)
  {
    var s := NewState(job).(id := id);
    var db' := db[job.jobID := s];
    var s' := MarkedRunning(s);
    SmoothLoopSucceeds(steps, 0, s', Change(db', s', Works).0, world);
  }

  lemma FinishingMarshals(steps: seq<Step>, i: nat, s: State)
    requires Contract(steps) && i < |steps| && Marshals(s.data)
    ensures Marshals(Advanced(s, steps[i], i).data)
  {
    assert StepContract(steps, i);
    var s', wrote := Advanced(s, steps[i], i), steps[i].writes(Contents(s.data));
    FinishedDataContents(steps[i], s.data);
    forall k | k in Contents(s'.data) ensures !Contents(s'.data)[k].JInvalid? {
      assert k in wrote ==> !Contents(Some(wrote))[k].JInvalid?;
    }
  }

  lemma {:induction false} SmoothLoopSucceeds(steps: seq<Step>, i: nat, s: State, db: map<int, State>, world: World)
    requires Contract(steps) && i <= |steps| && Marshals(s.data) && s.jobID in db
    ensures Loop(steps, i, s, db, world, SMOOTH).call == Returned(None)
    decreases |steps| - i
  {
    if i < |steps| {
      if i < s.currentStep {
        SmoothLoopSucceeds(steps, i + 1, s, db, world);
      } else {
        var s' := Advanced(s, steps[i], i);
        FinishingMarshals(steps, i, s);
        SmoothLoopSucceeds(steps, i + 1, s', Change(db, s', Works).0, FinishedWorld(steps[i], s.data, world));
      }
    }
  }

  /** A run that starts without a row can only succeed with a payload that marshals. */
  lemma SuccessfulRunMarshals(steps: seq<Step>, job: Job, id: string, db: map<int, State>, world: World, sc: Script)
    requires job.jobID !in db
    ensures var o := RunFrom(steps, job, id, db, world, sc);
            !Marshals(job.initial) ==> o.call != Returned(None) && o.db == db
  {
  }

  lemma {:induction false} SuccessNeedsMarshalling(steps: seq<Step>, job: Job, db: map<int, State>, world: World, attempts: seq<Attempt>)
    requires job.jobID !in db && attempts != []
    requires Outcomes(steps, job, db, world, attempts)[|attempts| - 1].call == Returned(None)
    ensures Marshals(job.initial)
    decreases |attempts|
  {
    var a := attempts[0];
    var o := RunFrom(steps, job, a.id, db, world, a.sc);
    SuccessfulRunMarshals(steps, job, a.id, db, world, a.sc);
    if !Marshals(job.initial) && |attempts| > 1 {
      SuccessNeedsMarshalling(steps, job, o.db, o.world, attempts[1..]);
    }
  }

  // ---------- Resuming is like never having been interrupted ----------

  /** The state that a run without any interruption stores in the end. */
  ghost predicate CleanState(steps: seq<Step>, job: Job, s: State) {
    && BelongsTo(s, job) && Done(s, |steps|) && Marshals(job.initial)
    && Contents(s.data) == CleanData(steps, Contents(job.initial), |steps|)
    && (job.initial.Some? ==> s.data.Some?)
  }

  lemma ResumableAndDoneIsClean(steps: seq<Step>, job: Job, start: World, db: map<int, State>, world: World)
    requires Resumable(steps, job, start, db, world) && Marshals(job.initial)
    requires job.jobID in db && Done(db[job.jobID], |steps|)
    ensures CleanState(steps, job, db[job.jobID])
    ensures world == CleanWorld(steps, Contents(job.initial), start, |steps|)
  {
    OnTrackAtTheEnd(steps, Contents(job.initial), start, Contents(db[job.jobID].data), world);
  }

  /** The final state and world of a sequence of runs that ends in success. */
  lemma SuccessIsClean(steps: seq<Step>, job: Job, db: map<int, State>, world: World, attempts: seq<Attempt>)
    requires Contract(steps) && Legal(steps, attempts) && job.jobID !in db && attempts != []
    requires Outcomes(steps, job, db, world, attempts)[|attempts| - 1].call == Returned(None)
    ensures var o := Outcomes(steps, job, db, world, attempts)[|attempts| - 1];
            && job.jobID in o.db
            && CleanState(steps, job, o.db[job.jobID])
            && o.world == CleanWorld(steps, Contents(job.initial), world, |steps|)
  {
    RunsKeepResumable(steps, job, world, db, world, attempts);
    SuccessNeedsMarshalling(steps, job, db, world, attempts);
    var o := Outcomes(steps, job, db, world, attempts)[|attempts| - 1];
    ResumableAndDoneIsClean(steps, job, world, o.db, o.world);
  }

  /** Whatever interrupts the runs before the one that succeeds (errors, crashes before or after a
      write, half-done steps whose partial data was stored), the stored workflow and the external
      world end up as after a single run that nothing interrupts. The row id is the one thing the
      two can differ in, and a nil payload may end as nil or as an empty map. */
  lemma ResumedRunsEqualOneRun(steps: seq<Step>, job: Job, db: map<int, State>, world: World,
                               attempts: seq<Attempt>, id: string)
    requires Contract(steps) && Legal(steps, attempts) && job.jobID !in db && attempts != []
    requires Outcomes(steps, job, db, world, attempts)[|attempts| - 1].call == Returned(None)
    ensures var resumed := Outcomes(steps, job, db, world, attempts)[|attempts| - 1];
            var single := RunFrom(steps, job, id, db, world, SMOOTH);
            && single.call == Returned(None)
            && resumed.world == single.world
            && job.jobID in resumed.db && job.jobID in single.db
            && var a, b := resumed.db[job.jobID], single.db[job.jobID];
               && a.(id := "", data := None) == b.(id := "", data := None)
               && Contents(a.data) == Contents(b.data)
               && (job.initial.Some? ==> a.data == b.data)
  {
    SuccessNeedsMarshalling(steps, job, db, world, attempts);
    SmoothRunSucceeds(steps, job, id, db, world);
    SuccessIsClean(steps, job, db, world, attempts);
    var smooth := [Attempt(id, SMOOTH)];
    assert smooth[1..] == [];
    assert Outcomes(steps, job, db, world, smooth) == [RunFrom(steps, job, id, db, world, SMOOTH)];
    SuccessIsClean(steps, job, db, world, smooth);
  }

  // ---------- How often each step runs ----------

  /** One run executes the steps from its start position on, one after another; the position it
      leaves is behind the last of them, or at it when that one did not finish or was not saved. */
  ghost predicate RanFrom(c: int, p: int, ran: seq<nat>) {
    && 0 <= c
    && (forall k :: 0 <= k < |ran| ==> ran[k] == c + k)
    && (p == c + |ran| || (ran != [] && p == c + |ran| - 1))
  }

  lemma {:induction false} LoopRuns(steps: seq<Step>, i: nat, s: State, db: map<int, State>, world: World, sc: Script)
    requires i <= |steps| && i <= s.currentStep
    requires s.jobID in db && db[s.jobID] == s
    ensures var o := Loop(steps, i, s, db, world, sc);
            && RanFrom(s.currentStep, Position(o.db, s.jobID), o.ran)
            && s.jobID in o.db && KeyedAt(o.db, s.jobID)
    decreases |steps| - i
  {
    hide Change, Entry, Text;
    if i == |steps| {
      ChangeStoresOrKeeps(db, MarkedCompleted(s), sc.completed, s);
    } else if i < s.currentStep {
      LoopRuns(steps, i + 1, s, db, world, sc);
    } else {
      match sc.step(i)
      case Dies(_) =>
      case Fails(err, wrote, _) =>
        ChangeStoresOrKeeps(db, MarkedFailed(s, steps[i], err, wrote), sc.failed, s);
      case Succeeds =>
        var s' := Advanced(s, steps[i], i);
        ChangeStoresOrKeeps(db, s', sc.save(i), s);
        var (db', r) := Change(db, s', sc.save(i));
        if r == Returned(None) {
          var world' := FinishedWorld(steps[i], s.data, world);
          LoopRuns(steps, i + 1, s', db', world', sc);
          var rest := Loop(steps, i + 1, s', db', world', sc);
          assert forall k :: 1 <= k < |[i] + rest.ran| ==> ([i] + rest.ran)[k] == rest.ran[k - 1];
        }
    }
  }

  ghost predicate KeyedAt(db: map<int, State>, jobID: int) {
    jobID in db ==> db[jobID].jobID == jobID && db[jobID].currentStep >= 0
  }

  lemma RunRuns(steps: seq<Step>, job: Job, id: string, db: map<int, State>, world: World, sc: Script)
    requires KeyedAt(db, job.jobID)
    ensures var o := RunFrom(steps, job, id, db, world, sc);
            RanFrom(Position(db, job.jobID), Position(o.db, job.jobID), o.ran) && KeyedAt(o.db, job.jobID)
  {
    hide Start;
    if job.jobID in db {
      StartRuns(steps, db[job.jobID], db, world, sc);
    } else {
      var s := NewState(job);
      StartRuns(steps, s.(id := id), db[job.jobID := s.(id := id)], world, sc);
    }
  }

  lemma StartRuns(steps: seq<Step>, loaded: State, db: map<int, State>, world: World, sc: Script)
    requires loaded.jobID in db && db[loaded.jobID] == loaded && loaded.currentStep >= 0
    ensures var o := Start(steps, loaded, db, world, sc);
            RanFrom(loaded.currentStep, Position(o.db, loaded.jobID), o.ran) && KeyedAt(o.db, loaded.jobID)
            && loaded.jobID in o.db
  {
    hide Change, Entry;
    var s := MarkedRunning(loaded);
    ChangeStoresOrKeeps(db, s, sc.running, loaded);
    var (db', r) := Change(db, s, sc.running);
    if r == Returned(None) {
      LoopRuns(steps, 0, s, db', world, sc);
    }
  }

  /** How many of the runs executed step i. */
  function Executions(outcomes: seq<Outcome>, i: nat): nat {
    if outcomes == [] then 0 else (if i in outcomes[0].ran then 1 else 0) + Executions(outcomes[1..], i)
  }

  /** How many of them executed step i and left the stored position at it. */
  function Stops(outcomes: seq<Outcome>, jobID: int, i: nat): nat {
    if outcomes == [] then 0
    else (if i in outcomes[0].ran && Position(outcomes[0].db, jobID) <= i then 1 else 0) + Stops(outcomes[1..], jobID, i)
  }

  lemma OneRunBalances(p: int, p': int, ran: seq<nat>, i: nat)
    requires RanFrom(p, p', ran)
    ensures p <= p' && (i in ran && p' > i <==> p <= i < p')
  {
    if p <= i < p' { assert ran[i - p] == i; }
  }

  lemma {:induction false} ExecutionsBalance(steps: seq<Step>, job: Job, db: map<int, State>, world: World,
                                             attempts: seq<Attempt>, i: nat)
    requires KeyedAt(db, job.jobID)
    ensures var os := Outcomes(steps, job, db, world, attempts);
            var p := Position(db, job.jobID);
            var p' := if os == [] then p else Position(os[|os| - 1].db, job.jobID);
            && p <= p'
            && Executions(os, i) == Stops(os, job.jobID, i) + (if p <= i < p' then 1 else 0)
    decreases |attempts|
  {
    hide RunFrom, RanFrom;
    if attempts != [] {
      var a := attempts[0];
      RunRuns(steps, job, a.id, db, world, a.sc);
      var o := RunFrom(steps, job, a.id, db, world, a.sc);
      var rest := Outcomes(steps, job, o.db, o.world, attempts[1..]);
      ExecutionsBalance(steps, job, o.db, o.world, attempts[1..], i);
      assert ([o] + rest)[1..] == rest;
      OneRunBalances(Position(db, job.jobID), Position(o.db, job.jobID), o.ran, i);
    }
  }

  /** Over a whole history that ends in success, step i executes once, and once more for every run
      that was interrupted at step i itself; no other interruption repeats it. */
  lemma OnlyInterruptedStepsRepeat(steps: seq<Step>, job: Job, db: map<int, State>, world: World,
                                   attempts: seq<Attempt>, i: nat)
    requires Contract(steps) && Legal(steps, attempts) && job.jobID !in db && attempts != []
    requires Outcomes(steps, job, db, world, attempts)[|attempts| - 1].call == Returned(None)
    requires i < |steps|
    ensures var os := Outcomes(steps, job, db, world, attempts);
            Executions(os, i) == 1 + Stops(os, job.jobID, i)
  {
    SuccessIsClean(steps, job, db, world, attempts);
    ExecutionsBalance(steps, job, db, world, attempts, i);
  }
}
