/** OnboardOrgWorker.Work (internal/jobs/onboard_org.go): one run inside one transaction that is
    committed only when the run succeeds. */
module Work {
  import opened Wrappers
  import opened Errors
  import opened Records
  import opened Steps
  import opened Runner
  import opened RunLog
  import opened Resume
  import opened RunStory

  /** What becomes of COMMIT: it works, it is refused, it works but its answer is lost, or the
      process dies, before or after it took effect. */
  datatype CommitFate = Commits | Refused(e: Error) | AnswerLost(e: Error) | Dying(applied: bool)

  /** One attempt to work the job. */
  datatype Delivery = Delivery(begin: Fate, attempt: Attempt, commit: CommitFate)

  predicate TakesEffect(c: CommitFate) {
    c.Commits? || c.AnswerLost? || c == Dying(true)
  }

  function CommitCall(c: CommitFate): CallResult {
    match c
    case Commits => Returned(None)
    case Refused(e) => Returned(Some(e))
    case AnswerLost(e) => Returned(Some(e))
    case Dying(_) => Killed
  }

  /** The committed states, the external world and the executed steps after one attempt. Whatever
      the run stored is dropped unless the commit takes effect; what it did outside stays. */
  datatype Worked = Worked(db: map<int, State>, world: World, call: CallResult, ran: seq<nat>)

  function WorkFrom(steps: seq<Step>, job: Job, db: map<int, State>, world: World, d: Delivery): Worked {
    match d.begin
    case Kills(_) => Worked(db, world, Killed, [])
    case Errs(e) => Worked(db, world, Returned(Some(Wrap("begin tx: ", e))), [])
    case Works =>
      var o := RunFrom(steps, job, d.attempt.id, db, world, d.attempt.sc);
      if o.call != Returned(None) then Worked(db, o.world, o.call, o.ran)
      else Worked(if TakesEffect(d.commit) then o.db else db, o.world, CommitCall(d.commit), o.ran)
  }

  /** The connection pool: the committed rows and the clock. */
  class Pool {
    var rows: map<int, Row>
    var now: nat

    constructor (rows: map<int, Row>, now: nat)
      ensures this.rows == rows && this.now == now
    {
      this.rows, this.now := rows, now;
    }
  }

  class Worker {
    const pool: Pool
    const runner: Runner

    constructor (pool: Pool, runner: Runner)
      ensures this.pool == pool && this.runner == runner
    {
      this.pool, this.runner := pool, runner;
    }

    method Work(systems: ExternalSystems, job: Job, d: Delivery) returns (call: CallResult, ghost ran: seq<nat>)
      modifies pool`rows, systems
      ensures Worked(Table(pool.rows), systems.world, call, ran)
           == WorkFrom(runner.steps, job, Table(old(pool.rows)), old(systems.world), d)
    {
      if d.begin.Kills? {
        return Killed, [];
      }
      if d.begin.Errs? {
        return Returned(Some(Wrap("begin tx: ", d.begin.e))), [];
      }
      var tx := new Tx(pool.rows, pool.now);
      ghost var log;
      call, log, ran := runner.Run(tx, systems, job.jobID, job.workflowType, job.clientID, job.initial,
                                   d.attempt.id, d.attempt.sc);
      if call != Returned(None) {
        return;
      }
      if TakesEffect(d.commit) {
        pool.rows := tx.rows;
      }
      call := CommitCall(d.commit);
    }
  }

  // ---------- What one attempt returns ----------

  /** Work returns nil exactly when the transaction began, the run succeeded and the commit was
      reported as done. Otherwise its error says why: it is the run's own error, unchanged and so with
      the same cause and classification, or what beginning or committing reported. */
  lemma WorkTellsWhy(steps: seq<Step>, job: Job, db: map<int, State>, world: World, d: Delivery)
    requires Keyed(db)
    ensures var w := WorkFrom(steps, job, db, world, d);
            var o := RunFrom(steps, job, d.attempt.id, db, world, d.attempt.sc);
            && (w.call == Returned(None) <==> d.begin.Works? && o.call == Returned(None) && d.commit == Commits)
            && (d.begin.Works? && o.call != Returned(None) ==> w.db == db && w.call == o.call && TellsWhy(job.jobID, o, d.attempt.sc))
            && (d.begin.Errs? ==> w.call.Returned? && w.call.err.Some? && Reports(w.call.err.value, d.begin.e))
            && (d.begin.Works? && o.call == Returned(None) && (d.commit.Refused? || d.commit.AnswerLost?) ==>
                  w.call == Returned(Some(d.commit.e)))
  {
    hide RunFrom, TellsWhy;
    RunTellsWhy(steps, job, d.attempt.id, db, world, d.attempt.sc);
    if d.begin.Errs? {
      ReportsItself(d.begin.e);
      WrapReports("begin tx: ", d.begin.e, d.begin.e);
    }
  }

  /** The rows of a run become visible all together or not at all: exactly when the run succeeded and
      its commit took effect, whether or not that was reported. What it did outside stays anyway. */
  lemma RowsAppearExactlyWhen(steps: seq<Step>, job: Job, db: map<int, State>, world: World, d: Delivery)
    ensures var w := WorkFrom(steps, job, db, world, d);
            var o := RunFrom(steps, job, d.attempt.id, db, world, d.attempt.sc);
            && w.db == (if d.begin.Works? && o.call == Returned(None) && (d.commit == Commits || d.commit.AnswerLost? || d.commit == Dying(true))
                        then o.db else db)
            && (d.begin.Works? ==> w.world == o.world && w.ran == o.ran)
            && (!d.begin.Works? ==> w.world == world && w.ran == [])
  {
    hide RunFrom;
  }

  /** When a step fails and the process lives, Work's error is permanent exactly when the step's error
      is or the error reported by storing the failure is; and it is the step's error itself when the
      failed row could be stored, although that row is then rolled back. */
  lemma WorkKeepsStepError(steps: seq<Step>, job: Job, db: map<int, State>, world: World, d: Delivery)
    requires Keyed(db) && d.begin.Works?
    requires StepFailed(RunFrom(steps, job, d.attempt.id, db, world, d.attempt.sc), d.attempt.sc)
    ensures var w, sc := WorkFrom(steps, job, db, world, d), d.attempt.sc;
            var choice := sc.step(w.ran[|w.ran| - 1]);
            && w.db == db && w.call.Returned? && w.call.err.Some? && w.ran[|w.ran| - 1] < |steps|
            && IsPermanent(w.call.err.value)
               == (IsPermanent(choice.err) || (ReportsFate(steps[w.ran[|w.ran| - 1]], choice.wrote, sc.failed) && IsPermanent(sc.failed.e)))
            && StepErrorComesBack(job.jobID, RunFrom(steps, job, d.attempt.id, db, world, sc), sc, w.call.err.value)
  {
    hide RunFrom, StepErrorComesBack, IsPermanent;
    RunTellsWhy(steps, job, d.attempt.id, db, world, d.attempt.sc);
    RunClassification(steps, job, d.attempt.id, db, world, d.attempt.sc);
  }

  // ---------- Histories of attempts ----------

  function WorkAll(steps: seq<Step>, job: Job, db: map<int, State>, world: World, ds: seq<Delivery>): (r: seq<Worked>)
    ensures |r| == |ds|
    decreases |ds|
  {
    if ds == [] then [] else
    var w := WorkFrom(steps, job, db, world, ds[0]);
    [w] + WorkAll(steps, job, w.db, w.world, ds[1..])
  }

  ghost predicate LegalDeliveries(steps: seq<Step>, ds: seq<Delivery>) {
    forall d :: d in ds ==> LegalScript(steps, d.attempt.sc)
  }

  /** Between attempts a job either has no row, and the world differs from its start at most in
      what the steps own, or it has its final row and the world is as the steps leave it. */
  ghost predicate Settled(steps: seq<Step>, job: Job, start: World, db: map<int, State>, world: World) {
    if job.jobID !in db then AgreeOutside(world, start, TouchedFrom(steps, Contents(job.initial), 0))
    else CleanState(steps, job, db[job.jobID]) && world == CleanWorld(steps, Contents(job.initial), start, |steps|)
  }

  lemma Agrees(world: World, hidden: set<string>)
    ensures AgreeOutside(world, world, hidden)
  {
  }

  lemma {:induction false} WorldStaysOutside(steps: seq<Step>, initial: Data, start: World, c: nat)
    requires c <= |steps|
    ensures AgreeOutside(CleanWorld(steps, initial, start, c), start, TouchedFrom(steps, initial, 0))
    ensures TouchedFrom(steps, initial, c) <= TouchedFrom(steps, initial, 0)
  {
    hide CleanData, AgreeOutside;
    if c == 0 {
      Agrees(start, TouchedFrom(steps, initial, 0));
    } else {
      WorldStaysOutside(steps, initial, start, c - 1);
      var before, did := CleanWorld(steps, initial, start, c - 1), CleanEffects(steps, initial, c - 1);
      DamageStaysHidden(before, start, did.Keys, did, TouchedFrom(steps, initial, 0));
      assert (before - did.Keys) + did == before + did;
    }
  }

  lemma AgreeThrough<V>(a: map<string, V>, b: map<string, V>, c: map<string, V>, few: set<string>, many: set<string>)
    requires AgreeOutside(a, b, few) && AgreeOutside(b, c, many) && few <= many
    ensures AgreeOutside(a, c, many)
  {
    forall k | k !in many
      ensures (k in a <==> k in c) && (k in a ==> a[k] == c[k])
    {
      AgreeOutsideLookup(a, b, few, k);
      AgreeOutsideLookup(b, c, many, k);
    }
    AgreeOutsidePointwise(a, c, many);
  }

  lemma ResumableWorld(steps: seq<Step>, job: Job, start: World, db: map<int, State>, world: World)
    requires Contract(steps) && Resumable(steps, job, start, db, world)
    ensures AgreeOutside(world, start, TouchedFrom(steps, Contents(job.initial), 0))
  {
    if job.jobID in db {
      var c, initial := db[job.jobID].currentStep, Contents(job.initial);
      WorldStaysOutside(steps, initial, start, c);
      AgreeThrough(world, CleanWorld(steps, initial, start, c), start, TouchedFrom(steps, initial, c), TouchedFrom(steps, initial, 0));
    }
  }

  /** Every attempt, however it ends, leaves the job settled. */
  lemma WorkKeepsSettled(steps: seq<Step>, job: Job, start: World, db: map<int, State>, world: World, d: Delivery)
    requires Contract(steps) && LegalScript(steps, d.attempt.sc) && Settled(steps, job, start, db, world)
    ensures var w := WorkFrom(steps, job, db, world, d);
            && Settled(steps, job, start, w.db, w.world)
            && (w.call == Returned(None) ==> job.jobID in w.db)
  {
    assert job.jobID !in db ==> Resumable(steps, job, start, db, world);
    hide RunFrom, Resumable;
    if job.jobID in db {
      RedeliveryDoesNothing(steps, job, db, world, d);
    } else if d.begin.Works? {
      var o := RunFrom(steps, job, d.attempt.id, db, world, d.attempt.sc);
      RunKeepsResumable(steps, job, start, d.attempt.id, db, world, d.attempt.sc);
      ResumableWorld(steps, job, start, o.db, o.world);
      SuccessfulRunMarshals(steps, job, d.attempt.id, db, world, d.attempt.sc);
      if o.call == Returned(None) {
        ResumableAndDoneIsClean(steps, job, start, o.db, o.world);
      }
    }
  }

  /** Working a job whose row is committed as completed, with a position at or beyond the last
      step, runs no step and leaves every stored column (but the update time) and the external
      world as they are, whatever happens to the attempt. */
  lemma RedeliveryDoesNothing(steps: seq<Step>, job: Job, db: map<int, State>, world: World, d: Delivery)
    requires job.jobID in db && db[job.jobID].jobID == job.jobID
    requires db[job.jobID].status == Completed && db[job.jobID].error == "" && db[job.jobID].currentStep >= |steps|
    ensures var w := WorkFrom(steps, job, db, world, d); w.db == db && w.world == world && w.ran == []
  {
    hide Start, CreateFrom;
    if d.begin.Works? {
      RestartDoesNothing(steps, db[job.jobID], db, world, d.attempt.sc);
      CreateKeepsStored(steps, job, d.attempt.id, db, world, d.attempt.sc);
    }
  }

  lemma RestartDoesNothing(steps: seq<Step>, loaded: State, db: map<int, State>, world: World, sc: Script)
    requires loaded.jobID in db && db[loaded.jobID] == loaded
    requires loaded.status == Completed && loaded.error == "" && loaded.currentStep >= |steps|
    ensures var o := Start(steps, loaded, db, world, sc);
            o.world == world && o.ran == [] && (o.call == Returned(None) ==> o.db == db)
  {
    var s := MarkedRunning(loaded);
    ChangeStoresOrKeeps(db, s, sc.running, loaded);
    var (db', r) := Change(db, s, sc.running);
    if r == Returned(None) {
      SkipsEverything(steps, 0, s, db', world, sc);
      ChangeStoresOrKeeps(db', MarkedCompleted(s), sc.completed, s);
      assert MarkedCompleted(s) == loaded;
      assert db'[loaded.jobID := loaded] == db;
    }
  }

  lemma {:induction false} SkipsEverything(steps: seq<Step>, i: nat, s: State, db: map<int, State>, world: World, sc: Script)
    requires i <= |steps| <= s.currentStep
    ensures Loop(steps, i, s, db, world, sc) == Finish(s, db, world, sc)
    decreases |steps| - i
  {
    if i < |steps| {
      SkipsEverything(steps, i + 1, s, db, world, sc);
    }
  }

  /** ... any number of times. */
  lemma {:induction false} RedeliveriesDoNothing(steps: seq<Step>, job: Job, db: map<int, State>, world: World, ds: seq<Delivery>)
    requires job.jobID in db && db[job.jobID].jobID == job.jobID
    requires db[job.jobID].status == Completed && db[job.jobID].error == "" && db[job.jobID].currentStep >= |steps|
    ensures forall k :: 0 <= k < |ds| ==>
              var w := WorkAll(steps, job, db, world, ds)[k]; w.db == db && w.world == world && w.ran == []
    decreases |ds|
  {
    if ds != [] {
      RedeliveryDoesNothing(steps, job, db, world, ds[0]);
      RedeliveriesDoNothing(steps, job, db, world, ds[1..]);
    }
  }

  lemma {:induction false} WorkAllKeepsSettled(steps: seq<Step>, job: Job, start: World,
                                               db: map<int, State>, world: World, ds: seq<Delivery>)
    requires Contract(steps) && LegalDeliveries(steps, ds) && Settled(steps, job, start, db, world)
    ensures forall k :: 0 <= k < |ds| ==>
              var w := WorkAll(steps, job, db, world, ds)[k];
              && Settled(steps, job, start, w.db, w.world)
              && (w.call == Returned(None) ==> job.jobID in w.db)
    decreases |ds|
  {
    if ds != [] {
      assert ds[0] in ds;
      WorkKeepsSettled(steps, job, start, db, world, ds[0]);
      var w := WorkFrom(steps, job, db, world, ds[0]);
      WorkAllKeepsSettled(steps, job, start, w.db, w.world, ds[1..]);
    }
  }

  /** After any number of failed, crashed and repeated attempts, a successful one leaves the same
      external world and the same row (up to its id) as a single failure-free attempt. */
  lemma AttemptsEqualOneAttempt(steps: seq<Step>, job: Job, db: map<int, State>, world: World,
                                ds: seq<Delivery>, id: string)
    requires Contract(steps) && LegalDeliveries(steps, ds) && job.jobID !in db && ds != []
    requires job.initial.Some?
    requires WorkAll(steps, job, db, world, ds)[|ds| - 1].call == Returned(None)
    ensures var last := WorkAll(steps, job, db, world, ds)[|ds| - 1];
            var single := WorkFrom(steps, job, db, world, Delivery(Works, Attempt(id, SMOOTH), Commits));
            && single.call == Returned(None)
            && last.world == single.world
            && job.jobID in last.db && job.jobID in single.db
            && last.db[job.jobID].(id := "") == single.db[job.jobID].(id := "")
  {
    var one := Delivery(Works, Attempt(id, SMOOTH), Commits);
    WorkAllKeepsSettled(steps, job, world, db, world, ds);
    SmoothRunSucceeds(steps, job, id, db, world);
    WorkKeepsSettled(steps, job, world, db, world, one);
  }

  // ---------- How often each step runs ----------

  function TimesRun(ws: seq<Worked>, i: nat): nat {
    if ws == [] then 0 else (if i in ws[0].ran then 1 else 0) + TimesRun(ws[1..], i)
  }

  /** How many of the attempts got as far as executing some step j >= i without committing. */
  function StoppedAtOrAfter(ws: seq<Worked>, jobID: int, i: nat): nat {
    if ws == [] then 0
    else (if jobID !in ws[0].db && ws[0].ran != [] && ws[0].ran[|ws[0].ran| - 1] >= i then 1 else 0)
         + StoppedAtOrAfter(ws[1..], jobID, i)
  }

  lemma WorkRuns(steps: seq<Step>, job: Job, db: map<int, State>, world: World, d: Delivery, i: nat)
    requires job.jobID !in db
    ensures var w := WorkFrom(steps, job, db, world, d);
            && RanFrom(0, |w.ran|, w.ran)
            && (i in w.ran <==> w.ran != [] && i <= w.ran[|w.ran| - 1])
  {
    if d.begin.Works? {
      RunRuns(steps, job, d.attempt.id, db, world, d.attempt.sc);
    }
    var ran := WorkFrom(steps, job, db, world, d).ran;
    if i < |ran| { assert ran[i] == i; }
  }

  /** A run that succeeds without a row to start from executes every step. */
  lemma SuccessRunsEveryStep(steps: seq<Step>, job: Job, db: map<int, State>, world: World, d: Delivery, i: nat)
    requires Contract(steps) && LegalScript(steps, d.attempt.sc) && job.jobID !in db && i < |steps|
    requires job.jobID in WorkFrom(steps, job, db, world, d).db
    ensures i in WorkFrom(steps, job, db, world, d).ran
  {
    hide RunFrom;
    var o := RunFrom(steps, job, d.attempt.id, db, world, d.attempt.sc);
    RunRuns(steps, job, d.attempt.id, db, world, d.attempt.sc);
    RunKeepsResumable(steps, job, world, d.attempt.id, db, world, d.attempt.sc);
    assert o.ran[i] == i;
  }

  /** Over a whole history that ends with a committed row, step i executes once, and once more for
      every attempt that stopped uncommitted at step i or at any later step. */
  lemma {:induction false} LaterStopsRepeatEarlierSteps(steps: seq<Step>, job: Job, db: map<int, State>, world: World,
                                                        ds: seq<Delivery>, i: nat)
    requires Contract(steps) && LegalDeliveries(steps, ds) && job.jobID !in db && ds != [] && i < |steps|
    requires job.jobID in WorkAll(steps, job, db, world, ds)[|ds| - 1].db
    ensures var ws := WorkAll(steps, job, db, world, ds);
            TimesRun(ws, i) == 1 + StoppedAtOrAfter(ws, job.jobID, i)
    decreases |ds|
  {
    var d := ds[0];
    assert d in ds;
    var w := WorkFrom(steps, job, db, world, d);
    var rest := WorkAll(steps, job, w.db, w.world, ds[1..]);
    assert WorkAll(steps, job, db, world, ds)[1..] == rest;
    WorkRuns(steps, job, db, world, d, i);
    if job.jobID in w.db {
      SuccessRunsEveryStep(steps, job, db, world, d, i);
      WorkKeepsSettled(steps, job, world, db, world, d);
      RedeliveriesDoNothing(steps, job, w.db, w.world, ds[1..]);
      NoMoreRuns(rest, job.jobID, i);
    } else {
      LaterStopsRepeatEarlierSteps(steps, job, w.db, w.world, ds[1..], i);
    }
  }

  lemma {:induction false} NoMoreRuns(ws: seq<Worked>, jobID: int, i: nat)
    requires forall k :: 0 <= k < |ws| ==> ws[k].ran == []
    ensures TimesRun(ws, i) == 0 && StoppedAtOrAfter(ws, jobID, i) == 0
  {
    if ws != [] { NoMoreRuns(ws[1..], jobID, i); }
  }

  /** A crash in the middle of step j, and then a success (see CrashesCanHappen). */
  ghost predicate CrashThenSuccess(ws: seq<Worked>, db: map<int, State>, j: nat) {
    && |ws| == 2
    && ws[0].call.Killed? && ws[0].db == db && ws[0].ran != [] && ws[0].ran[|ws[0].ran| - 1] == j
    && ws[1].call == Returned(None)
  }

  lemma CrashedPrefixRunsTwice(steps: seq<Step>, job: Job, db: map<int, State>, world: World,
                               ds: seq<Delivery>, j: nat, i: nat)
    requires Contract(steps) && LegalDeliveries(steps, ds) && job.jobID !in db && i < |steps|
    requires CrashThenSuccess(WorkAll(steps, job, db, world, ds), db, j)
    ensures TimesRun(WorkAll(steps, job, db, world, ds), i) == if i <= j then 2 else 1
  {
    hide WorkFrom, TimesRun, StoppedAtOrAfter;
    var ws := WorkAll(steps, job, db, world, ds);
    WorkAllKeepsSettled(steps, job, world, db, world, ds);
    LaterStopsRepeatEarlierSteps(steps, job, db, world, ds, i);
    StopsOfTwo(ws, job.jobID, i);
  }

  /** The project README says that a crash in the middle of a step makes only that step run again.
      Under Work the rows of the crashed attempt are rolled back, so this holds exactly when the
      step is the first one: every step before it runs twice as well. */
  lemma OnlyCrashedStepRepeatsExactlyWhenFirst(steps: seq<Step>, job: Job, db: map<int, State>, world: World,
                                               ds: seq<Delivery>, j: nat)
    requires Contract(steps) && LegalDeliveries(steps, ds) && job.jobID !in db && j < |steps|
    requires CrashThenSuccess(WorkAll(steps, job, db, world, ds), db, j)
    ensures (forall i: nat :: i < |steps| && i != j ==> TimesRun(WorkAll(steps, job, db, world, ds), i) == 1) <==> j == 0
  {
    hide WorkAll, TimesRun;
    forall i: nat | i < |steps|
      ensures TimesRun(WorkAll(steps, job, db, world, ds), i) == if i <= j then 2 else 1
    {
      CrashedPrefixRunsTwice(steps, job, db, world, ds, j, i);
    }
    var first: nat := 0;
    assert TimesRun(WorkAll(steps, job, db, world, ds), first) == 2;
    assert j > 0 ==> first < |steps| && first != j;
  }

  // Such a history exists for every step.

  function DyingAt(j: nat): Script {
    SMOOTH.(step := (i: nat) => if i == j then Dies(map[]) else Succeeds)
  }

  lemma {:induction false} DyingLoop(steps: seq<Step>, i: nat, s: State, db: map<int, State>, world: World, j: nat)
    requires Contract(steps) && i <= j < |steps| && s.currentStep == i && Marshals(s.data) && s.jobID in db
    ensures var o := Loop(steps, i, s, db, world, DyingAt(j));
            o.call == Killed && o.ran != [] && o.ran[|o.ran| - 1] == j
    decreases j - i
  {
    if i < j {
      var s' := Advanced(s, steps[i], i);
      FinishingMarshals(steps, i, s);
      DyingLoop(steps, i + 1, s', Change(db, s', Works).0, FinishedWorld(steps[i], s.data, world), j);
    }
  }

  lemma DyingAttempt(steps: seq<Step>, job: Job, db: map<int, State>, world: World, id: string, j: nat)
    requires Contract(steps) && Marshals(job.initial) && job.jobID !in db && j < |steps|
    ensures var o := RunFrom(steps, job, id, db, world, DyingAt(j));
            o.call == Killed && o.ran != [] && o.ran[|o.ran| - 1] == j
  {
    var created := NewState(job).(id := id);
    var s, db' := MarkedRunning(created), db[job.jobID := created];
    DyingLoop(steps, 0, s, Change(db', s, Works).0, world, j);
  }

  lemma CrashesCanHappen(steps: seq<Step>, job: Job, db: map<int, State>, world: World, id: string, j: nat)
    returns (ds: seq<Delivery>)
    requires Contract(steps) && Marshals(job.initial) && job.jobID !in db && j < |steps|
    ensures LegalDeliveries(steps, ds) && CrashThenSuccess(WorkAll(steps, job, db, world, ds), db, j)
  {
    hide RunFrom, Contract;
    var first, second := Delivery(Works, Attempt(id, DyingAt(j)), Commits), Delivery(Works, Attempt(id, SMOOTH), Commits);
    ds := [first, second];
    DyingAttempt(steps, job, db, world, id, j);
    var w := WorkFrom(steps, job, db, world, first);
    SmoothRunSucceeds(steps, job, id, w.db, w.world);
    assert ds[1..] == [second] && [second][1..] == [];
    assert WorkAll(steps, job, w.db, w.world, [second]) == [WorkFrom(steps, job, w.db, w.world, second)];
  }

  lemma StopsOfTwo(ws: seq<Worked>, jobID: int, i: nat)
    requires |ws| == 2 && jobID !in ws[0].db && jobID in ws[1].db && ws[0].ran != []
    ensures StoppedAtOrAfter(ws, jobID, i) == if ws[0].ran[|ws[0].ran| - 1] >= i then 1 else 0
  {
    var rest := ws[1..];
    assert rest[0] == ws[1] && rest[1..] == [];
    assert StoppedAtOrAfter(rest, jobID, i) == StoppedAtOrAfter(rest[1..], jobID, i);
  }
}
