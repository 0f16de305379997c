/** The rows one run writes, and the error it returns (internal/workflow/runner.go). */
module RunLog {
  import opened Wrappers
  import opened Errors
  import opened Records
  import opened Steps
  import opened Runner

  // ---------- The shape of a log ----------

  predicate IsRunning(s: State, p: int) {
    s.status == Running && s.error == "" && s.currentStep == p
  }

  /** `log` continues a run of n steps that stands at position p: it is cut off, or fails at a step
      that is left, or completes with no step left, or goes on at the next position. */
  ghost predicate ContinuesFrom(log: seq<State>, p: int, n: nat) {
    log == []
    || (|log| == 1 && log[0].status == Failed && log[0].currentStep == p && p < n)
    || (|log| == 1 && log[0].status == Completed && log[0].error == "" && log[0].currentStep == p && p >= n)
    || (p < n && IsRunning(log[0], p + 1) && ContinuesFrom(log[1..], p + 1, n))
  }

  /** The log of one run that starts at position c. */
  ghost predicate LogOf(log: seq<State>, c: int, n: nat) {
    log == [] || (IsRunning(log[0], c) && ContinuesFrom(log[1..], c, n))
  }

  ghost predicate SameJob(a: State, b: State) {
    a.id == b.id && a.jobID == b.jobID && a.workflowType == b.workflowType
    && a.clientID == b.clientID && a.orderID == b.orderID
  }

  /** Every state is stored under its own job id. */
  ghost predicate Keyed(db: map<int, State>) {
    forall j :: j in db ==> db[j].jobID == j
  }

  /** After writing `log`, the job's entry is the last state written and nothing else changed. */
  ghost predicate LastWritten(before: map<int, State>, after: map<int, State>, jobID: int, log: seq<State>) {
    after == if log == [] then before else before[jobID := log[|log| - 1]]
  }

  /** One UpdateStep call. */
  lemma ChangeWritesEntry(db: map<int, State>, s: State, fate: Fate)
    requires s.jobID in db && SameJob(db[s.jobID], s)
    ensures var (db', r) := Change(db, s, fate);
            && LastWritten(db, db', s.jobID, Entry(db, s, fate))
            && (Entry(db, s, fate) == [] || Entry(db, s, fate) == [s])
            && (r == Returned(None) ==> Entry(db, s, fate) == [s])
  {
    assert Merge(db[s.jobID], s) == s;
  }

  lemma LastWrittenTwice(before: map<int, State>, s: State, after: map<int, State>, log: seq<State>)
    requires LastWritten(before[s.jobID := s], after, s.jobID, log)
    ensures LastWritten(before, after, s.jobID, [s] + log)
  {
    if log != [] {
      assert ([s] + log)[|log|] == log[|log| - 1];
    }
  }

  lemma {:induction false} LoopWritesLog(steps: seq<Step>, i: nat, s: State, db: map<int, State>, world: World, sc: Script)
    requires i <= |steps| && i <= s.currentStep
    requires s.status == Running && s.error == ""
    requires s.jobID in db && SameJob(db[s.jobID], s)
    ensures var o := Loop(steps, i, s, db, world, sc);
            && ContinuesFrom(o.log, s.currentStep, |steps|)
            && LastWritten(db, o.db, s.jobID, o.log)
            && (o.call == Returned(None) ==> o.log != [] && o.log[|o.log| - 1].status == Completed)
    decreases |steps| - i
  {
    hide Change, Entry, Text, HalfData, HalfWorld, FinishedData, FinishedWorld, Decimal;
    if i == |steps| {
      ChangeWritesEntry(db, MarkedCompleted(s), sc.completed);
    } else if i < s.currentStep {
      LoopWritesLog(steps, i + 1, s, db, world, sc);
    } else {
      match sc.step(i)
      case Dies(_) =>
      case Fails(err, wrote, _) =>
        ChangeWritesEntry(db, MarkedFailed(s, steps[i], err, wrote), sc.failed);
      case Succeeds =>
        var s' := Advanced(s, steps[i], i);
        ChangeWritesEntry(db, s', sc.save(i));
        var (db', r) := Change(db, s', sc.save(i));
        if r == Returned(None) {
          var world' := FinishedWorld(steps[i], s.data, world);
          LoopWritesLog(steps, i + 1, s', db', world', sc);
          var rest := Loop(steps, i + 1, s', db', world', sc);
          assert ([s'] + rest.log)[1..] == rest.log;
          LastWrittenTwice(db, s', rest.db, rest.log);
        }
    }
  }

  lemma StartWritesLog(steps: seq<Step>, loaded: State, db: map<int, State>, world: World, sc: Script)
    requires loaded.currentStep >= 0 && loaded.jobID in db && SameJob(db[loaded.jobID], loaded)
    ensures var o := Start(steps, loaded, db, world, sc);
            && LogOf(o.log, loaded.currentStep, |steps|)
            && LastWritten(db, o.db, loaded.jobID, o.log)
            && (o.call == Returned(None) ==> o.log != [] && o.log[|o.log| - 1].status == Completed)
  {
    hide Change, Entry;
    var s := MarkedRunning(loaded);
    ChangeWritesEntry(db, s, sc.running);
    var (db', r) := Change(db, s, sc.running);
    if r == Returned(None) {
      LoopWritesLog(steps, 0, s, db', world, sc);
      var rest := Loop(steps, 0, s, db', world, sc);
      assert ([s] + rest.log)[1..] == rest.log;
      LastWrittenTwice(db, s, rest.db, rest.log);
    }
  }

  /** For every run: the log it writes has the right shape for the position it starts from, the
      table ends with the last state of the log, and success means that `completed` was written. */
  lemma RunWritesLog(steps: seq<Step>, job: Job, id: string, db: map<int, State>, world: World, sc: Script)
    requires Keyed(db) && (job.jobID in db ==> db[job.jobID].currentStep >= 0)
    ensures var o := RunFrom(steps, job, id, db, world, sc);
            var c := if job.jobID in db then db[job.jobID].currentStep else 0;
            && LogOf(o.log, c, |steps|)
            && (o.log != [] ==> o.db == db[job.jobID := o.log[|o.log| - 1]])
            && (o.call == Returned(None) ==> o.log != [] && o.log[|o.log| - 1].status == Completed)
  {
    hide Start, CreateFrom;
    if job.jobID in db {
      StartWritesLog(steps, db[job.jobID], db, world, sc);
    }
    CreateWritesLog(steps, job, id, db, world, sc);
  }

  lemma CreateWritesLog(steps: seq<Step>, job: Job, id: string, db: map<int, State>, world: World, sc: Script)
    ensures var o := CreateFrom(steps, job, id, db, world, sc);
            && LogOf(o.log, 0, |steps|)
            && (job.jobID in db ==> o.log == [] && o.db == db)
            && (o.log != [] ==> o.db == db[job.jobID := o.log[|o.log| - 1]])
            && (o.call == Returned(None) ==> o.log != [] && o.log[|o.log| - 1].status == Completed)
  {
    hide Start;
    var created := NewState(job).(id := id);
    if job.jobID !in db {
      var db' := db[job.jobID := created];
      StartWritesLog(steps, created, db', world, sc);
      var o := Start(steps, created, db', world, sc);
      assert o.log != [] ==> o.db == db[job.jobID := o.log[|o.log| - 1]];
    }
  }

  /** What the shape means: positions never decrease, only the last entry can be failed or
      completed, a completed entry has no step left, and running and completed entries carry no
      error. */
  lemma {:induction false} LogFacts(log: seq<State>, p: int, n: nat)
    requires ContinuesFrom(log, p, n)
    ensures forall k :: 0 <= k < |log| ==> log[k].currentStep >= p
    ensures forall j, k :: 0 <= j < k < |log| ==> log[j].currentStep < log[k].currentStep || k == |log| - 1
    ensures forall j, k :: 0 <= j < k < |log| ==> log[j].currentStep <= log[k].currentStep
    ensures forall k :: 0 <= k < |log| - 1 ==> IsRunning(log[k], p + 1 + k)
    ensures log != [] ==> log[|log| - 1].status != Pending
    ensures forall k :: 0 <= k < |log| ==> (log[k].status != Failed ==> log[k].error == "")
    ensures forall k :: 0 <= k < |log| && log[k].status == Completed ==> log[k].currentStep >= n
    ensures forall k :: 0 <= k < |log| && log[k].status == Failed ==> log[k].currentStep < n
  {
    if log != [] && log[0].status == Running {
      LogFacts(log[1..], p + 1, n);
      assert forall k :: 1 <= k < |log| ==> log[k] == log[1..][k - 1];
    }
  }

  // ---------- The error a run returns ----------

  /** Storing the failure of a step reports the error of `fate`: that is what goes wrong, unless the
      step has left something behind that cannot be marshalled at all. */
  predicate ReportsFate(step: Step, wrote: Data, fate: Fate) {
    fate.Errs? && (step.keys == {} || Marshals(Some(wrote)))
  }

  lemma UpdateFailedClassification(s: State, step: Step, err: Error, wrote: Data, db: map<int, State>, fate: Fate)
    requires Marshals(s.data)
    ensures var r := Change(db, MarkedFailed(s, step, err, wrote), fate).1;
            r.Returned? && r.err.Some? ==>
              IsPermanent(UpdateFailed(r.err.value, err)) == (IsPermanent(err) || (ReportsFate(step, wrote, fate) && IsPermanent(fate.e)))
    ensures var r := Change(db, MarkedFailed(s, step, err, wrote), fate).1;
            r.Returned? && r.err.None? ==> !ReportsFate(step, wrote, fate)
  {
    var s' := MarkedFailed(s, step, err, wrote);
    FailedDataMarshals(step, s.data, wrote);
    var r := Change(db, s', fate).1;
    if r.Returned? && r.err.Some? {
      SiblingsClassifyToo("update failed state: ", r.err.value, " (step error: ", err, ")");
      assert !IsPermanent(Wrap("marshal data: ", Plain("json: error"))) by { assert !IsPermanent(Plain("json: error")); }
      assert !IsPermanent(RowMissing(s'.jobID));
    }
  }

  lemma FailedDataMarshals(step: Step, data: Option<Data>, wrote: Data)
    requires Marshals(data)
    ensures Marshals(HalfData(step, data, wrote)) <==> step.keys == {} || Marshals(Some(wrote))
  {
    if step.keys != {} {
      var half := Contents(HalfData(step, data, wrote));
      assert forall k :: k in wrote ==> k in half && half[k] == Contents(Some(wrote))[k];
      assert forall k :: k in half && k !in wrote ==> k in Contents(data) && half[k] == Contents(data)[k];
    }
  }

  /** The last step executed failed, and the process lived to return an error. */
  ghost predicate StepFailed(o: Outcome, sc: Script) {
    o.ran != [] && sc.step(o.ran[|o.ran| - 1]).Fails? && o.call.Returned?
  }

  /** The error that comes out is permanent exactly when the step's error is, or the one that storing
      the failure reports. */
  ghost predicate ClassifiedByBoth(steps: seq<Step>, o: Outcome, sc: Script)
    requires StepFailed(o, sc)
  {
    var i := o.ran[|o.ran| - 1];
    var choice := sc.step(i);
    && i < |steps| && o.call.err.Some?
    && IsPermanent(o.call.err.value)
       == (IsPermanent(choice.err) || (ReportsFate(steps[i], choice.wrote, sc.failed) && IsPermanent(sc.failed.e)))
  }

  lemma SavedDataMarshals(db: map<int, State>, s: State, fate: Fate)
    requires Change(db, s, fate).1 == Returned(None)
    ensures Marshals(s.data)
  {
  }

  lemma {:induction false} LoopClassification(steps: seq<Step>, i: nat, s: State, db: map<int, State>, world: World, sc: Script)
    requires i <= |steps| && Marshals(s.data)
    ensures var o := Loop(steps, i, s, db, world, sc); StepFailed(o, sc) ==> ClassifiedByBoth(steps, o, sc)
    decreases |steps| - i
  {
    hide IsPermanent, Entry, Text, HalfWorld, Change, Marshals, ReportsFate, MarkedFailed, Advanced;
    if i < |steps| {
      if i < s.currentStep {
        LoopClassification(steps, i + 1, s, db, world, sc);
      } else {
        match sc.step(i)
        case Dies(_) =>
        case Fails(err, wrote, _) =>
          UpdateFailedClassification(s, steps[i], err, wrote, db, sc.failed);
        case Succeeds =>
          var s' := Advanced(s, steps[i], i);
          var (db', r) := Change(db, s', sc.save(i));
          if r == Returned(None) {
            SavedDataMarshals(db, s', sc.save(i));
            LoopClassification(steps, i + 1, s', db', FinishedWorld(steps[i], s.data, world), sc);
          }
      }
    }
  }

  lemma StartClassification(steps: seq<Step>, loaded: State, db: map<int, State>, world: World, sc: Script)
    ensures var o := Start(steps, loaded, db, world, sc); StepFailed(o, sc) ==> ClassifiedByBoth(steps, o, sc)
  {
    var s := MarkedRunning(loaded);
    if Marshals(s.data) {
      LoopClassification(steps, 0, s, Change(db, s, sc.running).0, world, sc);
    }
  }

  lemma RunClassification(steps: seq<Step>, job: Job, id: string, db: map<int, State>, world: World, sc: Script)
    ensures var o := RunFrom(steps, job, id, db, world, sc); StepFailed(o, sc) ==> ClassifiedByBoth(steps, o, sc)
  {
    hide Start;
    if job.jobID in db {
      StartClassification(steps, db[job.jobID], db, world, sc);
    } else {
      var s := NewState(job);
      StartClassification(steps, s.(id := id), Put(db, s, id, sc.create).0, world, sc);
    }
  }

  /** When a step fails, the run returns an error that is permanent exactly when the step's error is,
      if and only if storing the failure does not report a permanent error of its own for a step
      error that is not permanent. */
  lemma StepErrorKeepsClassification(steps: seq<Step>, job: Job, id: string, db: map<int, State>, world: World, sc: Script)
    requires StepFailed(RunFrom(steps, job, id, db, world, sc), sc)
    ensures var o := RunFrom(steps, job, id, db, world, sc);
            var i := o.ran[|o.ran| - 1];
            var choice := sc.step(i);
            && i < |steps| && o.call.err.Some?
            && (IsPermanent(o.call.err.value) == IsPermanent(choice.err)
                <==> (ReportsFate(steps[i], choice.wrote, sc.failed) && IsPermanent(sc.failed.e) ==> IsPermanent(choice.err)))
  {
    hide RunFrom, IsPermanent;
    RunClassification(steps, job, id, db, world, sc);
  }

  /** A run in which it does: the step times out, and storing that meets a permanent error. */
  lemma PermanentUpdateErrorMisclassifies(job: Job)
    requires Marshals(job.initial)
    ensures var timeout, lost := Plain("timeout"), Permanent(Plain("connection lost"));
            var sc := Script(Works, Works, Works, (i: nat) => Fails(timeout, map[], map[]), (i: nat) => Works, Errs(lost), Works);
            var o := RunFrom([Stub("check_org")], job, "r", map[], map[], sc);
            && StepFailed(o, sc) && o.call == Returned(Some(UpdateFailed(lost, timeout)))
            && IsPermanent(o.call.err.value) && !IsPermanent(timeout)
  {
    var s := MarkedRunning(NewState(job).(id := "r"));
    var db := map[job.jobID := NewState(job).(id := "r")];
    var sc := Script(Works, Works, Works, (i: nat) => Fails(Plain("timeout"), map[], map[]), (i: nat) => Works,
                     Errs(Permanent(Plain("connection lost"))), Works);
    assert Change(db, s, Works).1 == Returned(None);
    assert sc.step(0).Fails?;
  }
}
