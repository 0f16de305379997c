/** What the rows of a run say, one after another, and what its error tells (internal/workflow/runner.go). */
module RunStory {
  import opened Wrappers
  import opened Errors
  import opened Records
  import opened Steps
  import opened Runner
  import opened RunLog
  import opened Resume

  // ---------- The rows ----------

  /** `next` is what a run may write after `prev`: the next step's finished row, a failed row with that
      step's message and leftovers, or the completed row. */
  ghost predicate WritesNext(steps: seq<Step>, sc: Script, prev: State, next: State) {
    && prev.status == Running && prev.currentStep >= 0
    && var i := prev.currentStep;
       match next.status
       case Running =>
         && i < |steps| && sc.step(i).Succeeds?
         && next == prev.(currentStep := i + 1, data := next.data)
         && Contents(next.data) == Contents(prev.data) + steps[i].writes(Contents(prev.data))
       case Failed =>
         && i < |steps| && sc.step(i).Fails?
         && next == prev.(status := Failed, error := Text(sc.step(i).err), data := next.data)
         && Contents(next.data) == (Contents(prev.data) - steps[i].keys) + sc.step(i).wrote
       case Completed => i >= |steps| && next == prev.(status := Completed)
       case Pending => false
  }

  ghost predicate Story(steps: seq<Step>, sc: Script, log: seq<State>) {
    forall k :: 0 < k < |log| ==> WritesNext(steps, sc, log[k - 1], log[k])
  }

  lemma StoryGrows(steps: seq<Step>, sc: Script, first: State, log: seq<State>)
    requires Story(steps, sc, log) && (log != [] ==> WritesNext(steps, sc, first, log[0]))
    ensures Story(steps, sc, [first] + log)
  {
    hide WritesNext;
    var all := [first] + log;
    forall k | 0 < k < |all| ensures WritesNext(steps, sc, all[k - 1], all[k]) {
      assert all[k] == log[k - 1];
      assert k > 1 ==> all[k - 1] == log[k - 2];
    }
  }

  lemma EntryIsState(db: map<int, State>, s: State, fate: Fate)
    ensures Entry(db, s, fate) == [] || Entry(db, s, fate) == [s]
    ensures Change(db, s, fate).1 == Returned(None) ==> Entry(db, s, fate) == [s]
  {
  }

  lemma {:induction false} LoopStory(steps: seq<Step>, i: nat, s: State, db: map<int, State>, world: World, sc: Script)
    requires Contract(steps) && LegalScript(steps, sc)
    requires i <= |steps| && i <= s.currentStep && s.status == Running
    ensures Story(steps, sc, [s] + Loop(steps, i, s, db, world, sc).log)
    decreases |steps| - i
  {
    hide Change, Entry, Text, HalfWorld, FinishedWorld, FinishedData, HalfData, Story, Decimal;
    StoryOfOne(steps, sc, s);
    if i == |steps| {
      EntryIsState(db, MarkedCompleted(s), sc.completed);
      StoryOfTwo(steps, sc, s, MarkedCompleted(s));
    } else if i < s.currentStep {
      LoopStory(steps, i + 1, s, db, world, sc);
    } else {
      assert LegalChoice(steps[i], sc.step(i));
      match sc.step(i)
      case Dies(_) =>
      case Fails(err, wrote, _) =>
        var s' := MarkedFailed(s, steps[i], err, wrote);
        HalfDataContents(steps[i], s.data, wrote);
        EntryIsState(db, s', sc.failed);
        StoryOfTwo(steps, sc, s, s');
      case Succeeds =>
        var s' := Advanced(s, steps[i], i);
        assert StepContract(steps, i);
        FinishedDataContents(steps[i], s.data);
        EntryIsState(db, s', sc.save(i));
        StoryOfTwo(steps, sc, s, s');
        var (db', r) := Change(db, s', sc.save(i));
        if r == Returned(None) {
          var world' := FinishedWorld(steps[i], s.data, world);
          LoopStory(steps, i + 1, s', db', world', sc);
          StoryContinues(steps, sc, s, s', Loop(steps, i + 1, s', db', world', sc).log);
        }
    }
  }

  lemma StoryOfOne(steps: seq<Step>, sc: Script, s: State)
    ensures Story(steps, sc, [s]) && [s] + [] == [s]
  {
  }

  lemma StoryOfTwo(steps: seq<Step>, sc: Script, s: State, s': State)
    requires WritesNext(steps, sc, s, s')
    ensures Story(steps, sc, [s] + [s'])
  {
  }

  lemma StoryContinues(steps: seq<Step>, sc: Script, s: State, s': State, log: seq<State>)
    requires WritesNext(steps, sc, s, s') && Story(steps, sc, [s'] + log)
    ensures Story(steps, sc, [s] + ([s'] + log))
  {
    StoryGrows(steps, sc, s, [s'] + log);
  }

  /** The state a run starts from: the stored one, or a new one for the job. */
  function Loaded(job: Job, id: string, db: map<int, State>): State {
    if job.jobID in db then db[job.jobID]
    else State(id, job.jobID, job.workflowType, job.clientID, "", 0, Pending, "", job.initial)
  }

  lemma StartStory(steps: seq<Step>, loaded: State, db: map<int, State>, world: World, sc: Script)
    requires Contract(steps) && LegalScript(steps, sc) && loaded.currentStep >= 0
    ensures var log := Start(steps, loaded, db, world, sc).log;
            Story(steps, sc, log) && (log != [] ==> log[0] == loaded.(status := Running, error := ""))
  {
    hide Change, Entry, Loop;
    var s := MarkedRunning(loaded);
    EntryIsState(db, s, sc.running);
    var (db', r) := Change(db, s, sc.running);
    if r == Returned(None) {
      LoopStory(steps, 0, s, db', world, sc);
    }
  }

  /** Every row a run writes, in full: the first is the loaded or new state marked as running, and each
      later one follows from the row before it and from how the step between them ended. A run that
      writes no such row has left the table alone, or has added the new row. */
  lemma RunTellsItsStory(steps: seq<Step>, job: Job, id: string, db: map<int, State>, world: World, sc: Script)
    requires Contract(steps) && LegalScript(steps, sc)
    requires Keyed(db) && (job.jobID in db ==> db[job.jobID].currentStep >= 0)
    ensures var o := RunFrom(steps, job, id, db, world, sc);
            && Story(steps, sc, o.log)
            && (o.log != [] ==> o.log[0] == Loaded(job, id, db).(status := Running, error := ""))
            && (o.log == [] ==> o.db == db || o.db == db[job.jobID := Loaded(job, id, db)])
  {
    hide Start, Story;
    StoryOfNone(steps, sc);
    StartStory(steps, Loaded(job, id, db), db, world, sc);
    StartStory(steps, Loaded(job, id, db), db[job.jobID := Loaded(job, id, db)], world, sc);
    RunWithoutRows(steps, job, id, db, world, sc);
  }

  lemma StoryOfNone(steps: seq<Step>, sc: Script)
    ensures Story(steps, sc, [])
  {
  }

  lemma RunWithoutRows(steps: seq<Step>, job: Job, id: string, db: map<int, State>, world: World, sc: Script)
    requires Keyed(db) && (job.jobID in db ==> db[job.jobID].currentStep >= 0)
    ensures var o := RunFrom(steps, job, id, db, world, sc);
            o.log == [] ==> o.db == db || o.db == db[job.jobID := Loaded(job, id, db)]
  {
    hide Start;
    var s := Loaded(job, id, db);
    if job.jobID in db {
      StartWritesLog(steps, s, db, world, sc);
    } else {
      StartWritesLog(steps, s, db[job.jobID := s], world, sc);
    }
  }

  // ---------- The error ----------

  /** When Get reports an error that is not a not-found, in any depth, the run ends before anything
      happens, and its error reports that one. */
  lemma FailedGetEndsTheRun(steps: seq<Step>, job: Job, id: string, db: map<int, State>, world: World, sc: Script)
    requires sc.get.Errs? && RowNotFound !in Preorder(sc.get.e)
    ensures var o := RunFrom(steps, job, id, db, world, sc);
            && o.db == db && o.world == world && o.log == [] && o.ran == []
            && o.call.Returned? && o.call.err.Some? && Reports(o.call.err.value, sc.get.e)
  {
    IsRowNotFoundMeaning(sc.get.e);
    ReportsItself(sc.get.e);
    WrapReports("query workflow state: ", sc.get.e, sc.get.e);
    WrapReports("load workflow state: ", Wrap("query workflow state: ", sc.get.e), sc.get.e);
  }

  /** With a not-found anywhere in the tree it goes on just as without a row. */
  lemma NotFoundIsNoRow(steps: seq<Step>, job: Job, id: string, db: map<int, State>, world: World, sc: Script)
    requires sc.get.Errs? && RowNotFound in Preorder(sc.get.e) && job.jobID !in db
    ensures RunFrom(steps, job, id, db, world, sc) == RunFrom(steps, job, id, db, world, sc.(get := Works))
  {
    hide CreateFrom;
    IsRowNotFoundMeaning(sc.get.e);
    ScriptWithoutGet(steps, job, id, db, world, sc);
  }

  lemma ScriptWithoutGet(steps: seq<Step>, job: Job, id: string, db: map<int, State>, world: World, sc: Script)
    ensures CreateFrom(steps, job, id, db, world, sc) == CreateFrom(steps, job, id, db, world, sc.(get := Works))
  {
    hide Loop, Change;
    var s := NewState(job).(id := id);
    var db', s' := Put(db, NewState(job), id, sc.create).0, MarkedRunning(s);
    LoopWithoutGet(steps, 0, s', Change(db', s', sc.running).0, world, sc);
  }

  lemma {:induction false} LoopWithoutGet(steps: seq<Step>, i: nat, s: State, db: map<int, State>, world: World, sc: Script)
    requires i <= |steps|
    ensures Loop(steps, i, s, db, world, sc) == Loop(steps, i, s, db, world, sc.(get := Works))
    decreases |steps| - i
  {
    hide Change, Entry, Text, HalfWorld, FinishedWorld, Advanced, MarkedFailed, MarkedCompleted;
    if i < |steps| {
      if i < s.currentStep {
        LoopWithoutGet(steps, i + 1, s, db, world, sc);
      } else if sc.step(i).Succeeds? {
        var s' := Advanced(s, steps[i], i);
        LoopWithoutGet(steps, i + 1, s', Change(db, s', sc.save(i)).0, FinishedWorld(steps[i], s.data, world), sc);
      }
    }
  }

  /** What a call reports by itself, when the database has nothing to say. */
  ghost predicate OwnError(jobID: int, e: Error) {
    e == DUPLICATE_KEY || e == Plain("json: error") || e == RowMissing(jobID)
  }

  /** `cause` is what the repository call with this fate reports. */
  ghost predicate ReportedBy(jobID: int, fate: Fate, cause: Error) {
    OwnError(jobID, cause) || fate == Errs(cause)
  }

  /** The error reports what the update of the last step executed reports, or the last update. */
  ghost predicate LateCallFailed(jobID: int, o: Outcome, sc: Script, e: Error, cause: Error) {
    && Reports(e, cause)
    && ((o.ran != [] && ReportedBy(jobID, sc.save(o.ran[|o.ran| - 1]), cause)) || ReportedBy(jobID, sc.completed, cause))
  }

  /** ... or, when no step was executed, what getting, creating or marking the row reports. */
  ghost predicate CallFailed(jobID: int, o: Outcome, sc: Script, e: Error, cause: Error) {
    || LateCallFailed(jobID, o, sc, e, cause)
    || (o.ran == [] && Reports(e, cause)
        && (ReportedBy(jobID, sc.get, cause) || ReportedBy(jobID, sc.create, cause) || ReportedBy(jobID, sc.running, cause)))
  }

  /** The step's own error comes back unchanged when the failed row could be stored; otherwise the
      error holds it and what storing reported. */
  ghost predicate StepErrorComesBack(jobID: int, o: Outcome, sc: Script, e: Error)
    requires StepFailed(o, sc)
  {
    var err := sc.step(o.ran[|o.ran| - 1]).err;
    if o.log != [] && o.log[|o.log| - 1].status == Failed then e == err
    else err in Preorder(e) && exists u :: ReportedBy(jobID, sc.failed, u) && u in Preorder(e)
  }

  /** The error of the step loop tells what ended it. */
  ghost predicate LoopTells(jobID: int, o: Outcome, sc: Script) {
    o.call.Returned? && o.call.err.Some? ==>
      if StepFailed(o, sc) then StepErrorComesBack(jobID, o, sc, o.call.err.value)
      else exists cause :: LateCallFailed(jobID, o, sc, o.call.err.value, cause)
  }

  /** What UpdateStep reports. */
  lemma UpdateReports(db: map<int, State>, s: State, fate: Fate) returns (cause: Error)
    ensures var r := Change(db, s, fate).1;
            r.Returned? && r.err.Some? ==> Reports(r.err.value, cause) && ReportedBy(s.jobID, fate, cause)
  {
    var r := Change(db, s, fate).1;
    cause := RowNotFound;
    if !Marshals(s.data) {
      cause := Plain("json: error");
      ReportsItself(cause);
      WrapReports("marshal data: ", cause, cause);
    } else if r.Returned? && r.err.Some? {
      cause := r.err.value;
      ReportsItself(cause);
    }
  }

  lemma BothCauses(u: Error, cause: Error, err: Error)
    requires Reports(u, cause)
    ensures cause in Preorder(UpdateFailed(u, err)) && err in Preorder(UpdateFailed(u, err))
  {
    assert Preorder(err)[0] == err;
  }

  lemma {:induction false} LoopTellsWhy(steps: seq<Step>, i: nat, s: State, db: map<int, State>, world: World, sc: Script)
    requires i <= |steps| && s.status == Running
    ensures LoopTells(s.jobID, Loop(steps, i, s, db, world, sc), sc)
    decreases |steps| - i
  {
    hide Change, Entry, Text, HalfWorld, FinishedWorld, FinishedData, HalfData, Decimal, Reports, ReportedBy, UpdateFailed;
    var o := Loop(steps, i, s, db, world, sc);
    if i == |steps| {
      var cause := UpdateReports(db, MarkedCompleted(s), sc.completed);
      if o.call.Returned? && o.call.err.Some? {
        WrapReports("update status to completed: ", Change(db, MarkedCompleted(s), sc.completed).1.err.value, cause);
        assert LateCallFailed(s.jobID, o, sc, o.call.err.value, cause);
      }
    } else if i < s.currentStep {
      LoopTellsWhy(steps, i + 1, s, db, world, sc);
    } else {
      match sc.step(i)
      case Dies(_) =>
      case Fails(err, wrote, did) =>
        FailTellsWhy(MarkedFailed(s, steps[i], err, wrote), err, i, db, HalfWorld(steps[i], s.data, world, did), sc);
      case Succeeds =>
        var s' := Advanced(s, steps[i], i);
        var (db', r) := Change(db, s', sc.save(i));
        var cause := UpdateReports(db, s', sc.save(i));
        EntryIsState(db, s', sc.save(i));
        if r == Returned(None) {
          var world' := FinishedWorld(steps[i], s.data, world);
          LoopTellsWhy(steps, i + 1, s', db', world', sc);
          LongerRunTells(s.jobID, [s'], [i], Loop(steps, i + 1, s', db', world', sc), sc);
        } else if o.call.Returned? && o.call.err.Some? {
          WrapReports("update step " + Decimal(i) + ": ", r.err.value, cause);
          assert LateCallFailed(s.jobID, o, sc, o.call.err.value, cause);
        }
    }
  }

  lemma FailTellsWhy(s: State, err: Error, i: nat, db: map<int, State>, world: World, sc: Script)
    requires sc.step(i).Fails? && sc.step(i).err == err && s.status == Failed
    ensures LoopTells(s.jobID, Fail(s, err, i, db, world, sc), sc)
  {
    hide Change, Reports, ReportedBy;
    var r := Change(db, s, sc.failed).1;
    var u := UpdateReports(db, s, sc.failed);
    EntryIsState(db, s, sc.failed);
    if r.Returned? && r.err.Some? {
      FailedUpdateStoresNothing(db, s, sc.failed);
      BothCauses(r.err.value, u, err);
    }
  }

  lemma FailedUpdateStoresNothing(db: map<int, State>, s: State, fate: Fate)
    requires Change(db, s, fate).1.Returned? && Change(db, s, fate).1.err.Some?
    ensures Entry(db, s, fate) == []
  {
  }

  lemma LongerRunTells(jobID: int, entry: seq<State>, ran: seq<nat>, o: Outcome, sc: Script)
    requires LoopTells(jobID, o, sc) && (forall s :: s in entry ==> s.status == Running)
    requires o.ran == [] ==> !(ran != [] && sc.step(ran[|ran| - 1]).Fails?)
    ensures LoopTells(jobID, Prefixed(entry, ran, o), sc)
  {
    hide Reports, ReportedBy;
    var longer := Prefixed(entry, ran, o);
    assert o.ran != [] ==> longer.ran[|longer.ran| - 1] == o.ran[|o.ran| - 1];
    assert o.log != [] ==> longer.log[|longer.log| - 1] == o.log[|o.log| - 1];
    if o.call.Returned? && o.call.err.Some? && !StepFailed(longer, sc) {
      var cause :| LateCallFailed(jobID, o, sc, o.call.err.value, cause);
      assert LateCallFailed(jobID, longer, sc, longer.call.err.value, cause);
    }
  }

  lemma StartTellsWhy(steps: seq<Step>, loaded: State, db: map<int, State>, world: World, sc: Script)
    ensures TellsWhy(loaded.jobID, Start(steps, loaded, db, world, sc), sc)
  {
    hide Change, Entry, Reports, ReportedBy, Loop;
    var s := MarkedRunning(loaded);
    var (db', r) := Change(db, s, sc.running);
    var cause := UpdateReports(db, s, sc.running);
    EntryIsState(db, s, sc.running);
    var o := Start(steps, loaded, db, world, sc);
    if r == Returned(None) {
      LoopTellsWhy(steps, 0, s, db', world, sc);
      LongerRunTells(loaded.jobID, [s], [], Loop(steps, 0, s, db', world, sc), sc);
      LateIsAFailure(loaded.jobID, o, sc);
    } else if o.call.Returned? && o.call.err.Some? {
      WrapReports("update status to running: ", r.err.value, cause);
      assert CallFailed(loaded.jobID, o, sc, o.call.err.value, cause);
    }
  }

  lemma LateIsAFailure(jobID: int, o: Outcome, sc: Script)
    requires LoopTells(jobID, o, sc)
    ensures TellsWhy(jobID, o, sc)
  {
    if o.call.Returned? && o.call.err.Some? && !StepFailed(o, sc) {
      var cause :| LateCallFailed(jobID, o, sc, o.call.err.value, cause);
      assert CallFailed(jobID, o, sc, o.call.err.value, cause);
    }
  }

  /** Every error a run returns tells what ended it. */
  ghost predicate TellsWhy(jobID: int, o: Outcome, sc: Script) {
    o.call.Returned? && o.call.err.Some? ==>
      if StepFailed(o, sc) then StepErrorComesBack(jobID, o, sc, o.call.err.value)
      else exists cause :: CallFailed(jobID, o, sc, o.call.err.value, cause)
  }

  /** For every run that returns an error: it is the failed step's own error, unchanged when the failed
      row could be stored; or it reports, classified alike, what the repository call that ended the
      run reported. */
  lemma RunTellsWhy(steps: seq<Step>, job: Job, id: string, db: map<int, State>, world: World, sc: Script)
    requires Keyed(db)
    ensures TellsWhy(job.jobID, RunFrom(steps, job, id, db, world, sc), sc)
  {
    hide Start, Reports, TellsWhy, CreateFrom;
    if sc.get.Errs? && RowNotFound !in Preorder(sc.get.e) {
      FailedGetEndsTheRun(steps, job, id, db, world, sc);
      EarlyCallFailed(job.jobID, RunFrom(steps, job, id, db, world, sc), sc, sc.get.e);
    } else if sc.get.Errs? || (sc.get.Works? && job.jobID !in db) {
      IsRowNotFoundHere(sc.get);
      CreateTellsWhy(steps, job, id, db, world, sc);
    } else if sc.get.Works? {
      StartTellsWhy(steps, db[job.jobID], db, world, sc);
    } else {
      KilledTellsNothing(job.jobID, RunFrom(steps, job, id, db, world, sc), sc);
    }
  }

  lemma IsRowNotFoundHere(fate: Fate)
    ensures fate.Errs? ==> (IsRowNotFound(fate.e) <==> RowNotFound in Preorder(fate.e))
  {
    if fate.Errs? { IsRowNotFoundMeaning(fate.e); }
  }

  lemma KilledTellsNothing(jobID: int, o: Outcome, sc: Script)
    requires o.call.Killed?
    ensures TellsWhy(jobID, o, sc)
  {
  }

  lemma EarlyCallFailed(jobID: int, o: Outcome, sc: Script, cause: Error)
    requires o.ran == [] && o.call.Returned? && o.call.err.Some? && Reports(o.call.err.value, cause)
    requires ReportedBy(jobID, sc.get, cause) || ReportedBy(jobID, sc.create, cause) || ReportedBy(jobID, sc.running, cause)
    ensures TellsWhy(jobID, o, sc)
  {
    hide Reports;
    assert CallFailed(jobID, o, sc, o.call.err.value, cause);
  }

  lemma CreateTellsWhy(steps: seq<Step>, job: Job, id: string, db: map<int, State>, world: World, sc: Script)
    ensures TellsWhy(job.jobID, CreateFrom(steps, job, id, db, world, sc), sc)
  {
    hide Start, TellsWhy, Reports;
    var s := NewState(job);
    var o, r := CreateFrom(steps, job, id, db, world, sc), Put(db, s, id, sc.create).1;
    if r.Killed? {
      KilledTellsNothing(job.jobID, o, sc);
    } else if r.err.None? {
      StartTellsWhy(steps, s.(id := id), db[job.jobID := s.(id := id)], world, sc);
    } else {
      var cause := if !Marshals(s.data) then Plain("json: error") else r.err.value;
      ReportsItself(cause);
      if !Marshals(s.data) { WrapReports("marshal data: ", cause, cause); }
      WrapReports("create workflow state: ", r.err.value, cause);
      EarlyCallFailed(job.jobID, o, sc, cause);
    }
  }
}
