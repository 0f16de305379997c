/** Many attempts at many jobs, interleaved at every database call and every step
    (internal/jobs/onboard_org.go with internal/workflow/runner.go). The store keeps one row per
    job id: an insert or update waits while another transaction holds the row, an insert of a
    committed key fails, a plain read sees committed rows only, and what a transaction wrote is
    lost unless it commits. */
module Attempts {
  import opened Wrappers
  import opened Errors
  import opened Records
  import opened Steps
  import opened Runner
  import opened Resume
  import opened Work
  import opened LateWorlds

  /** Where an attempt stands inside Work and Run. `st` is its in-memory workflow state. */
  datatype Pc =
    | Begun                        // the transaction is open, Get comes next
    | Inserting(st: State)         // Create comes next
    | Marking(st: State)           // the update to running comes next
    | Looping(st: State, i: nat)   // at the head of the step loop
    | Saving(st: State, i: nat)    // step i returned nil, its update comes next
    | Failing(st: State)           // a step failed, the update to failed comes next
    | RollingBack                  // Run returned an error, the rollback comes next
    | Completing(st: State)        // the update to completed comes next
    | Committing(st: State)        // Run returned nil, the commit comes next
    | Detached(st: State, i: nat)  // the connection is gone, but step i may still be acting
    | Ended

  datatype Trial = Trial(job: int, pc: Pc)

  /** A row written by a transaction that is still open. */
  datatype Held = Held(owner: nat, row: Row)

  /** `late[j][i]` is what a detached attempt last left on the items of step i, after the attempt at
      job j that counts had passed that step. */
  datatype System = System(
    queue: map<int, Job>, committed: map<int, Row>, held: map<int, Held>, trials: seq<Trial>,
    worlds: map<int, World>, starts: map<int, World>, late: map<int, map<nat, World>>)

  /** What one attempt can do next. */
  datatype Move =
    | Load
    | Insert(id: string, now: nat)
    | Mark(now: nat)
    | Skip
    | RunStep(choice: Choice)
    | Save(now: nat)
    | StoreFailure(now: nat)
    | Leave
    | Complete(now: nat)
    | Commit
    | Abort                   // any error, refusal or crash: the transaction is rolled back
    | Detach                  // the database drops the transaction behind the attempt's back
    | LateEffect(did: World)

  datatype Action =
    | Enqueue(job: Job, world: World)
    | Begin(jobID: int)
    | Moves(a: nat, move: Move)

  // ---------- Transitions ----------

  function At(s: System, a: nat, pc: Pc): System
    requires a < |s.trials|
  {
    s.(trials := s.trials[a := s.trials[a].(pc := pc)])
  }

  predicate Holds(s: System, a: nat, j: int) {
    j in s.held && s.held[j].owner == a
  }

  function LateOf(s: System, j: int): map<nat, World> {
    if j in s.late then s.late[j] else map[]
  }

  /** No attempt has passed any step yet, or not any more, unless the job is committed. */
  function Restarted(s: System, j: int): System {
    if j in s.committed then s else s.(late := s.late[j := map[]])
  }

  /** Rolling back, or losing, the attempt's transaction. */
  function Drop(s: System, a: nat, pc: Pc): (r: System)
    requires a < |s.trials|
    ensures r.committed == s.committed && r.queue == s.queue
  {
    var j := s.trials[a].job;
    At(if Holds(s, a, j) then Restarted(s, j).(held := s.held - {j}) else s, a, pc)
  }

  /** How far the attempt that holds the row has taken the external world. */
  function Reached(pc: Pc): int {
    if pc.Looping? || pc.Saving? || pc.Completing? || pc.Committing? || pc.Marking? then pc.st.currentStep else 0
  }

  /** The step that the attempt that counts comes to next: the one that committed the job, or else
      the one that holds its row. */
  function Front(s: System, j: int): int {
    if j in s.committed then s.committed[j].currentStep
    else if j in s.held && s.held[j].owner < |s.trials| then Reached(s.trials[s.held[j].owner].pc)
    else 0
  }

  /** Nobody else holds the row. */
  predicate Free(s: System, a: nat, j: int) {
    j !in s.held || s.held[j].owner == a
  }

  /** UPDATE ... WHERE job_id, in the attempt's transaction. */
  function Write(s: System, a: nat, st: State, now: nat, pc: Pc): (r: System)
    requires a < |s.trials|
    ensures r.committed == s.committed && r.queue == s.queue
  {
    var j := s.trials[a].job;
    if j in s.held then At(s.(held := s.held[j := Held(a, UpdatedRow(s.held[j].row, st, now))]), a, pc)
    else if j in s.committed then At(s.(held := s.held[j := Held(a, UpdatedRow(s.committed[j], st, now))]), a, pc)
    else Drop(s, a, Ended)
  }

  predicate CanWrite(s: System, a: nat, st: State)
    requires a < |s.trials|
  {
    Free(s, a, s.trials[a].job) && Marshals(st.data)
  }

  ghost predicate CanMove(steps: seq<Step>, s: System, a: nat, move: Move)
    requires a < |s.trials|
  {
    var j, pc := s.trials[a].job, s.trials[a].pc;
    match move
    case Load => pc.Begun? && j in s.queue
    case Insert(_, _) => pc.Inserting? && j !in s.held && Marshals(pc.st.data)
    case Mark(_) => pc.Marking? && CanWrite(s, a, pc.st)
    case Skip => pc.Looping? && pc.i < |steps| && pc.i < pc.st.currentStep
    case RunStep(choice) =>
      pc.Looping? && pc.i < |steps| && pc.i >= pc.st.currentStep && j in s.worlds && LegalChoice(steps[pc.i], choice)
    case Save(_) => pc.Saving? && CanWrite(s, a, pc.st)
    case StoreFailure(_) => pc.Failing? && CanWrite(s, a, pc.st)
    case Leave => pc.Looping? && pc.i == |steps|
    case Complete(_) => pc.Completing? && CanWrite(s, a, pc.st)
    case Commit => pc.Committing? && Holds(s, a, j)
    case Abort => !pc.Detached?
    case Detach => !pc.Detached?
    case LateEffect(_) => pc.Detached? && pc.i < |steps| && j in s.worlds
  }

  ghost function Moved(steps: seq<Step>, s: System, a: nat, move: Move): System
    requires a < |s.trials| && CanMove(steps, s, a, move)
  {
    var j, pc := s.trials[a].job, s.trials[a].pc;
    match move
    case Load =>
      if j in s.committed then At(s, a, Marking(MarkedRunning(Decode(s.committed[j]))))
      else At(s, a, Inserting(NewState(s.queue[j])))
    case Insert(id, now) =>
      if j in s.committed then Drop(s, a, Ended)
      else At(s.(held := s.held[j := Held(a, InsertedRow(pc.st, id, now))]), a, Marking(MarkedRunning(pc.st.(id := id))))
    case Mark(now) => Write(s, a, pc.st, now, Looping(pc.st, 0))
    case Skip => At(s, a, Looping(pc.st, pc.i + 1))
    case RunStep(choice) => Stepped(steps, s, a, choice)
    case Save(now) => Write(s, a, pc.st, now, Looping(pc.st, pc.i + 1))
    case StoreFailure(now) => Write(s, a, pc.st, now, RollingBack)
    case Leave => At(s, a, Completing(MarkedCompleted(pc.st)))
    case Complete(now) => Write(s, a, pc.st, now, Committing(pc.st))
    case Commit => At(s.(committed := s.committed[j := s.held[j].row], held := s.held - {j}), a, Ended)
    case Abort => Drop(s, a, Ended)
    case Detach =>
      if pc.Looping? && pc.i < |steps| && pc.i >= pc.st.currentStep
      then Drop(s, a, Detached(pc.st, pc.i))
      else Drop(s, a, Ended)
    case LateEffect(did) => At(ActedLate(steps, s, j, pc.st, pc.i, did), a, Ended)
  }

  /** Step i of job j acts once more, with the data of `st`. */
  function ActedLate(steps: seq<Step>, s: System, j: int, st: State, i: nat, did: World): (r: System)
    requires i < |steps| && j in s.worlds
    ensures r.committed == s.committed && r.queue == s.queue && r.trials == s.trials
  {
    var left := Only(did, Touched(steps[i], st.data));
    s.(worlds := s.worlds[j := HalfWorld(steps[i], st.data, s.worlds[j], did)],
       late := if i < Front(s, j) then s.late[j := LateOf(s, j)[i := left]] else s.late)
  }

  ghost predicate Enabled(steps: seq<Step>, s: System, action: Action) {
    match action
    case Enqueue(job, _) => job.jobID !in s.queue
    case Begin(j) => j in s.queue
    case Moves(a, move) => a < |s.trials| && CanMove(steps, s, a, move)
  }

  ghost function Apply(steps: seq<Step>, s: System, action: Action): System
    requires Enabled(steps, s, action)
  {
    match action
    case Enqueue(job, world) =>
      s.(queue := s.queue[job.jobID := job], worlds := s.worlds[job.jobID := world],
         starts := s.starts[job.jobID := world], late := s.late[job.jobID := map[]])
    case Begin(j) => s.(trials := s.trials + [Trial(j, Begun)])
    case Moves(a, move) => Moved(steps, s, a, move)
  }

  /** Executing the step the attempt stands at. */
  function Stepped(steps: seq<Step>, s: System, a: nat, choice: Choice): (r: System)
    requires a < |s.trials| && s.trials[a].pc.Looping? && s.trials[a].pc.i < |steps| && s.trials[a].job in s.worlds
    ensures r.committed == s.committed && r.queue == s.queue
  {
    var j, st, i := s.trials[a].job, s.trials[a].pc.st, s.trials[a].pc.i;
    match choice
    case Succeeds =>
      At(s.(worlds := s.worlds[j := FinishedWorld(steps[i], st.data, s.worlds[j])]), a, Saving(Advanced(st, steps[i], i), i))
    case Fails(err, wrote, did) =>
      At(Restarted(s, j).(worlds := s.worlds[j := HalfWorld(steps[i], st.data, s.worlds[j], did)]), a,
         Failing(MarkedFailed(st, steps[i], err, wrote)))
    case Dies(did) =>
      Drop(s.(worlds := s.worlds[j := HalfWorld(steps[i], st.data, s.worlds[j], did)]), a, Ended)
  }

  /** No move changes the queue, and only a commit changes the committed rows. */
  lemma MovesKeepQueueAndRows(steps: seq<Step>, s: System, a: nat, move: Move)
    requires a < |s.trials| && CanMove(steps, s, a, move)
    ensures var s' := Moved(steps, s, a, move); s'.queue == s.queue && (!move.Commit? ==> s'.committed == s.committed)
  {
    hide CanMove, Write, Drop, Stepped, ActedLate, InsertedRow, Decode, MarkedRunning, MarkedCompleted, NewState;
    match move
    case Load =>
    case Insert(_, _) =>
    case _ =>
  }

  const EMPTY := System(map[], map[], map[], [], map[], map[], map[])

  /** The states a schedule passes through, one after each action. */
  ghost predicate Follows(steps: seq<Step>, states: seq<System>, actions: seq<Action>) {
    && |states| == |actions| + 1 && states[0] == EMPTY
    && forall k :: 0 <= k < |actions| ==> Enabled(steps, states[k], actions[k]) && states[k + 1] == Apply(steps, states[k], actions[k])
  }

  // ---------- The invariant ----------

  /** The in-memory state of an attempt that holds its job's row. */
  ghost predicate Working(steps: seq<Step>, s: System, j: int, st: State)
    requires j in s.queue && j in s.held
  {
    var job := s.queue[j];
    && BelongsTo(st, job) && st.id == s.held[j].row.id && st.error == "" && Marshals(job.initial)
    && 0 <= st.currentStep <= |steps|
    && Contents(st.data) == CleanData(steps, Contents(job.initial), st.currentStep)
    && (job.initial.Some? ==> st.data.Some?)
    && (j in s.committed ==> st.(status := Completed) == Decode(s.committed[j]))
  }

  ghost predicate RowIdentity(row: Row, job: Job) {
    row.jobID == job.jobID && row.workflowType == job.workflowType && row.clientID == job.clientID && row.orderID == None
  }

  predicate Holding(pc: Pc) {
    pc.Looping? || pc.Saving? || pc.Failing? || pc.RollingBack? || pc.Completing? || pc.Committing?
  }

  ghost predicate GoodTrial(steps: seq<Step>, s: System, a: nat)
    requires a < |s.trials|
  {
    var j, pc := s.trials[a].job, s.trials[a].pc;
    && j in s.queue
    && (Holding(pc) ==> Holds(s, a, j))
    && match pc
       case Inserting(st) => !Holds(s, a, j) && st == NewState(s.queue[j])
       case Marking(st) =>
         if Holds(s, a, j) then j !in s.committed && Working(steps, s, j, st) && st.currentStep == 0
         else j in s.committed && st == MarkedRunning(Decode(s.committed[j]))
       case Looping(st, i) =>
         && Working(steps, s, j, st) && i <= |steps| && i <= st.currentStep
         && (j !in s.committed ==> i == st.currentStep)
       case Saving(st, i) => Working(steps, s, j, st) && i < |steps| && st.currentStep == i + 1 && j !in s.committed
       case Completing(st) => Working(steps, s, j, st) && Done(st, |steps|)
       case Committing(st) => Working(steps, s, j, st) && Done(st, |steps|) && Decode(s.held[j].row) == st && s.held[j].row.error == None
       case Failing(_) => j !in s.committed
       case RollingBack => j !in s.committed
       case Detached(st, i) =>
         !Holds(s, a, j) && i < |steps| && Contents(st.data) == CleanData(steps, Contents(s.queue[j].initial), i)
       case _ => !Holds(s, a, j)
  }

  ghost predicate GoodCommitted(steps: seq<Step>, s: System, j: int)
    requires j in s.committed
  {
    && j in s.queue && RowIdentity(s.committed[j], s.queue[j]) && s.committed[j].error == None
    && CleanState(steps, s.queue[j], Decode(s.committed[j]))
  }

  ghost predicate GoodHeld(steps: seq<Step>, s: System, j: int)
    requires j in s.held
  {
    && j in s.queue && RowIdentity(s.held[j].row, s.queue[j])
    && s.held[j].owner < |s.trials| && s.trials[s.held[j].owner].job == j
    && (Holding(s.trials[s.held[j].owner].pc) || s.trials[s.held[j].owner].pc.Marking?)
  }

  ghost predicate GoodWorld(steps: seq<Step>, s: System, j: int)
    requires j in s.queue
  {
    && j in s.worlds && j in s.starts
    && WorldAt(steps, Contents(s.queue[j].initial), s.starts[j], LateOf(s, j), Front(s, j), s.worlds[j])
  }

  ghost predicate Inv(steps: seq<Step>, s: System) {
    && (forall j :: j in s.queue ==> s.queue[j].jobID == j && GoodWorld(steps, s, j))
    && (forall j :: j in s.committed ==> GoodCommitted(steps, s, j))
    && (forall j :: j in s.held ==> GoodHeld(steps, s, j))
    && (forall a: nat :: a < |s.trials| ==> GoodTrial(steps, s, a))
  }

  // ---------- Every action keeps the invariant ----------

  /** What an action of attempt a leaves alone: everything of other jobs, other attempts, the row
      if somebody else holds it, and what is committed, except that a holder may commit a row that
      decodes to the same state. */
  ghost predicate Local(s: System, s': System, a: nat) {
    a < |s.trials| && (
      var j := s.trials[a].job;
      && s'.queue == s.queue && s'.starts == s.starts
      && |s'.trials| == |s.trials| && s'.trials[a].job == j
      && (forall b: nat :: b < |s.trials| && b != a ==> s'.trials[b] == s.trials[b])
      && (forall k :: k != j ==> (k in s'.held <==> k in s.held) && (k in s.held ==> s'.held[k] == s.held[k]))
      && (forall k :: k != j ==> (k in s'.committed <==> k in s.committed) && (k in s.committed ==> s'.committed[k] == s.committed[k]))
      && (forall k :: k != j ==> (k in s'.worlds <==> k in s.worlds) && (k in s.worlds ==> s'.worlds[k] == s.worlds[k]))
      && (forall k :: k != j ==> LateOf(s', k) == LateOf(s, k))
      && (if j in s.held && s.held[j].owner != a
          then j in s'.held && s'.held[j] == s.held[j]
          else j in s'.held ==> s'.held[j].owner == a)
      && (j in s.committed ==> j in s'.committed && Decode(s'.committed[j]) == Decode(s.committed[j]))
      && (!Holds(s, a, j) ==> (j in s'.committed ==> j in s.committed)))
  }

  lemma OthersStayGood(steps: seq<Step>, s: System, s': System, a: nat, b: nat)
    requires Inv(steps, s) && Local(s, s', a) && b < |s.trials| && b != a
    ensures GoodTrial(steps, s', b)
  {
    assert GoodTrial(steps, s, b);
    var j := s.trials[b].job;
    assert s'.trials[b] == s.trials[b];
    assert Holds(s', b, j) <==> Holds(s, b, j);
    if Holds(s, b, j) && j == s.trials[a].job {
      assert !Holds(s, a, j);
    }
  }

  /** Everything the invariant says about one job. */
  ghost predicate GoodJob(steps: seq<Step>, s: System, j: int) {
    && j in s.queue && s.queue[j].jobID == j && GoodWorld(steps, s, j)
    && (j in s.committed ==> GoodCommitted(steps, s, j))
    && (j in s.held ==> GoodHeld(steps, s, j))
  }

  lemma Unpack(steps: seq<Step>, s: System, a: nat)
    requires Inv(steps, s) && a < |s.trials|
    ensures GoodTrial(steps, s, a) && GoodJob(steps, s, s.trials[a].job)
  {
    hide GoodCommitted, GoodHeld, GoodWorld;
    assert GoodTrial(steps, s, a);
  }

  /** An action keeps the invariant if its own attempt and its job stay good. */
  lemma LocalKeepsInv(steps: seq<Step>, s: System, s': System, a: nat)
    requires Inv(steps, s) && Local(s, s', a)
    requires GoodTrial(steps, s', a) && GoodJob(steps, s', s.trials[a].job)
    ensures Inv(steps, s')
  {
    var j := s.trials[a].job;
    hide GoodTrial, CleanState, RowIdentity, WorldAt;
    forall b: nat | b < |s'.trials| ensures GoodTrial(steps, s', b) {
      if b != a { OthersStayGood(steps, s, s', a, b); }
    }
    forall k | k in s'.held && k != j ensures GoodHeld(steps, s', k) {
      assert GoodHeld(steps, s, k);
    }
    forall k | k in s'.committed && k != j ensures GoodCommitted(steps, s', k) {
      assert GoodCommitted(steps, s, k);
    }
    forall k | k in s'.queue && k != j ensures GoodWorld(steps, s', k) {
      assert GoodWorld(steps, s, k);
      if k in s.held { assert GoodHeld(steps, s, k); }
    }
    assert forall b: nat :: b < |s'.trials| ==> GoodTrial(steps, s', b);
    assert forall k :: k in s'.held ==> GoodHeld(steps, s', k);
    assert forall k :: k in s'.committed ==> GoodCommitted(steps, s', k);
    assert forall k :: k in s'.queue ==> s'.queue[k].jobID == k && GoodWorld(steps, s', k);
  }

  // What each kind of action leaves alone.

  lemma MovingIsLocal(s: System, a: nat, pc: Pc)
    requires a < |s.trials|
    ensures Local(s, At(s, a, pc), a)
  {
  }

  lemma DroppingIsLocal(s: System, a: nat, pc: Pc)
    requires a < |s.trials| && Holds(s, a, s.trials[a].job)
    ensures Local(s, Drop(s, a, pc), a)
  {
    hide Decode;
  }

  lemma InsertingIsLocal(s: System, a: nat, row: Row, pc: Pc)
    requires a < |s.trials| && s.trials[a].job !in s.held
    ensures Local(s, At(s.(held := s.held[s.trials[a].job := Held(a, row)]), a, pc), a)
  {
    hide Decode;
  }

  /** A successful update of the row, by the attempt that holds it or when nobody does. */
  lemma WritingIsLocal(s: System, a: nat, st: State, now: nat, pc: Pc)
    requires a < |s.trials| && CanWrite(s, a, st) && (s.trials[a].job in s.held || s.trials[a].job in s.committed)
    ensures Local(s, Write(s, a, st, now, pc), a)
  {
    hide UpdatedRow, Decode, Local;
    var j := s.trials[a].job;
    if j in s.held {
      RewritingIsLocal(s, a, UpdatedRow(s.held[j].row, st, now), pc);
    } else {
      InsertingIsLocal(s, a, UpdatedRow(s.committed[j], st, now), pc);
    }
  }

  lemma RewritingIsLocal(s: System, a: nat, row: Row, pc: Pc)
    requires a < |s.trials| && Holds(s, a, s.trials[a].job)
    ensures Local(s, At(s.(held := s.held[s.trials[a].job := Held(a, row)]), a, pc), a)
  {
    hide Decode;
  }

  lemma CommittingIsLocal(s: System, a: nat)
    requires a < |s.trials| && Holds(s, a, s.trials[a].job)
    requires var j := s.trials[a].job; j in s.committed ==> Decode(s.committed[j]) == Decode(s.held[j].row)
    ensures var j := s.trials[a].job;
            Local(s, At(s.(committed := s.committed[j := s.held[j].row], held := s.held - {j}), a, Ended), a)
  {
    hide Decode;
  }

  /** Acting on the world of the attempt's own job, with or without starting over. */
  lemma ActingIsLocal(s: System, a: nat, world: World, late: map<int, map<nat, World>>, pc: Pc)
    requires a < |s.trials| && s.trials[a].job in s.worlds
    requires forall k :: k != s.trials[a].job ==> (k in late <==> k in s.late) && (k in late ==> late[k] == s.late[k])
    ensures Local(s, At(s.(worlds := s.worlds[s.trials[a].job := world], late := late), a, pc), a)
  {
    hide Decode;
  }

  lemma DroppingKeepsWorld(steps: seq<Step>, s: System, a: nat, pc: Pc)
    requires a < |s.trials| && Holds(s, a, s.trials[a].job)
    requires s.trials[a].job in s.queue && GoodWorld(steps, s, s.trials[a].job)
    ensures GoodWorld(steps, Drop(s, a, pc), s.trials[a].job)
  {
    hide WorldAt;
    var j := s.trials[a].job;
    WorldStartsOver(steps, Contents(s.queue[j].initial), s.starts[j], LateOf(s, j), Front(s, j), s.worlds[j]);
  }

  /** An attempt that does not hold its job's row can move on without disturbing anything. */
  lemma MovingOnKeepsInv(steps: seq<Step>, s: System, a: nat, pc: Pc)
    requires Inv(steps, s) && a < |s.trials| && !Holds(s, a, s.trials[a].job)
    requires GoodTrial(steps, At(s, a, pc), a)
    ensures Inv(steps, At(s, a, pc))
  {
    hide Inv, Local, WorldAt, GoodTrial, CleanState;
    Unpack(steps, s, a);
    MovingIsLocal(s, a, pc);
    LocalKeepsInv(steps, s, At(s, a, pc), a);
  }

  /** A holder that gives its row up, for whatever reason. */
  lemma DroppingKeepsInv(steps: seq<Step>, s: System, a: nat)
    requires Inv(steps, s) && a < |s.trials|
    ensures Inv(steps, Drop(s, a, Ended))
  {
    hide Inv, Local, WorldAt, CleanState, Decode;
    Unpack(steps, s, a);
    if Holds(s, a, s.trials[a].job) {
      DroppingKeepsWorld(steps, s, a, Ended);
      DroppingIsLocal(s, a, Ended);
      LocalKeepsInv(steps, s, Drop(s, a, Ended), a);
    } else {
      MovingOnKeepsInv(steps, s, a, Ended);
    }
  }

  // ---------- Move by move ----------

  lemma LoadKeepsInv(steps: seq<Step>, s: System, a: nat)
    requires Inv(steps, s) && a < |s.trials| && CanMove(steps, s, a, Load)
    ensures Inv(steps, Moved(steps, s, a, Load))
  {
    hide Inv, WorldAt, CleanState;
    Unpack(steps, s, a);
    var j := s.trials[a].job;
    if j in s.committed {
      MovingOnKeepsInv(steps, s, a, Marking(MarkedRunning(Decode(s.committed[j]))));
    } else {
      MovingOnKeepsInv(steps, s, a, Inserting(NewState(s.queue[j])));
    }
  }

  lemma InsertKeepsInv(steps: seq<Step>, s: System, a: nat, id: string, now: nat)
    requires Inv(steps, s) && a < |s.trials| && CanMove(steps, s, a, Insert(id, now))
    ensures Inv(steps, Moved(steps, s, a, Insert(id, now)))
  {
    hide Inv, Local, WorldAt;
    Unpack(steps, s, a);
    var st := s.trials[a].pc.st;
    if s.trials[a].job in s.committed {
      DroppingKeepsInv(steps, s, a);
    } else {
      InsertingIsLocal(s, a, InsertedRow(st, id, now), Marking(MarkedRunning(st.(id := id))));
      LocalKeepsInv(steps, s, Moved(steps, s, a, Insert(id, now)), a);
    }
  }

  lemma MarkKeepsInv(steps: seq<Step>, s: System, a: nat, now: nat)
    requires Inv(steps, s) && a < |s.trials| && CanMove(steps, s, a, Mark(now))
    ensures Inv(steps, Moved(steps, s, a, Mark(now)))
  {
    hide Inv, Local, WorldAt;
    Unpack(steps, s, a);
    WritingIsLocal(s, a, s.trials[a].pc.st, now, Looping(s.trials[a].pc.st, 0));
    LocalKeepsInv(steps, s, Moved(steps, s, a, Mark(now)), a);
  }

  lemma SkipKeepsInv(steps: seq<Step>, s: System, a: nat)
    requires Inv(steps, s) && a < |s.trials| && CanMove(steps, s, a, Skip)
    ensures Inv(steps, Moved(steps, s, a, Skip))
  {
    hide Inv, Local, WorldAt;
    Unpack(steps, s, a);
    MovingIsLocal(s, a, Looping(s.trials[a].pc.st, s.trials[a].pc.i + 1));
    LocalKeepsInv(steps, s, Moved(steps, s, a, Skip), a);
  }

  lemma SaveKeepsInv(steps: seq<Step>, s: System, a: nat, now: nat)
    requires Inv(steps, s) && a < |s.trials| && CanMove(steps, s, a, Save(now))
    ensures Inv(steps, Moved(steps, s, a, Save(now)))
  {
    hide Inv, Local, WorldAt;
    Unpack(steps, s, a);
    WritingIsLocal(s, a, s.trials[a].pc.st, now, Looping(s.trials[a].pc.st, s.trials[a].pc.i + 1));
    LocalKeepsInv(steps, s, Moved(steps, s, a, Save(now)), a);
  }

  lemma StoreFailureKeepsInv(steps: seq<Step>, s: System, a: nat, now: nat)
    requires Inv(steps, s) && a < |s.trials| && CanMove(steps, s, a, StoreFailure(now))
    ensures Inv(steps, Moved(steps, s, a, StoreFailure(now)))
  {
    hide Inv, Local, WorldAt;
    Unpack(steps, s, a);
    WritingIsLocal(s, a, s.trials[a].pc.st, now, RollingBack);
    LocalKeepsInv(steps, s, Moved(steps, s, a, StoreFailure(now)), a);
  }

  lemma LeaveKeepsInv(steps: seq<Step>, s: System, a: nat)
    requires Inv(steps, s) && a < |s.trials| && CanMove(steps, s, a, Leave)
    ensures Inv(steps, Moved(steps, s, a, Leave))
  {
    hide Inv, Local, WorldAt;
    Unpack(steps, s, a);
    MovingIsLocal(s, a, Completing(MarkedCompleted(s.trials[a].pc.st)));
    LocalKeepsInv(steps, s, Moved(steps, s, a, Leave), a);
  }

  lemma CompleteKeepsInv(steps: seq<Step>, s: System, a: nat, now: nat)
    requires Inv(steps, s) && a < |s.trials| && CanMove(steps, s, a, Complete(now))
    ensures Inv(steps, Moved(steps, s, a, Complete(now)))
  {
    hide Inv, Local, WorldAt;
    Unpack(steps, s, a);
    WritingIsLocal(s, a, s.trials[a].pc.st, now, Committing(s.trials[a].pc.st));
    LocalKeepsInv(steps, s, Moved(steps, s, a, Complete(now)), a);
  }

  /** What is about to be committed is the final state. */
  lemma CommittingIsClean(steps: seq<Step>, s: System, a: nat)
    requires Inv(steps, s) && a < |s.trials| && s.trials[a].pc.Committing?
    ensures var j := s.trials[a].job;
            && j in s.queue && j in s.held && j in s.worlds && j in s.starts && s.held[j].row.error == None
            && RowIdentity(s.held[j].row, s.queue[j])
            && CleanState(steps, s.queue[j], Decode(s.held[j].row))
            && (j in s.committed ==> Decode(s.committed[j]) == Decode(s.held[j].row))
            && s.held[j].row.currentStep == |steps| == Front(s, j)
            && s.worlds[j] == LateWorld(steps, Contents(s.queue[j].initial), s.starts[j], LateOf(s, j), |steps|)
  {
    hide Inv, WorldAt;
    Unpack(steps, s, a);
    var j := s.trials[a].job;
    WorldAtTheEnd(steps, Contents(s.queue[j].initial), s.starts[j], LateOf(s, j), s.worlds[j]);
  }

  lemma CommitKeepsInv(steps: seq<Step>, s: System, a: nat)
    requires Inv(steps, s) && a < |s.trials| && CanMove(steps, s, a, Commit)
    ensures Inv(steps, Moved(steps, s, a, Commit))
  {
    hide Inv, Local, CleanState, RowIdentity, WorldAt, Decode, Working;
    Unpack(steps, s, a);
    CommittingIsClean(steps, s, a);
    CommittingIsLocal(s, a);
    LocalKeepsInv(steps, s, Moved(steps, s, a, Commit), a);
  }

  // ---------- Executing a step ----------

  /** The attempt at a step is the holder of its job's row, the job is not committed, and the
      step is the next one of the clean run. */
  lemma StepsRunUnderTheRow(steps: seq<Step>, s: System, a: nat, choice: Choice)
    requires Inv(steps, s) && a < |s.trials| && CanMove(steps, s, a, RunStep(choice))
    ensures var j, pc := s.trials[a].job, s.trials[a].pc;
            && Holds(s, a, j) && j !in s.committed && pc.i == pc.st.currentStep && Working(steps, s, j, pc.st)
  {
    assert GoodTrial(steps, s, a);
    var j := s.trials[a].job;
    assert j in s.committed ==> GoodCommitted(steps, s, j);
  }

  lemma FinishedStepData(steps: seq<Step>, s: System, j: int, st: State)
    requires Contract(steps) && j in s.queue && j in s.held && j !in s.committed
    requires Working(steps, s, j, st) && st.currentStep < |steps|
    ensures Working(steps, s, j, Advanced(st, steps[st.currentStep], st.currentStep))
  {
    assert StepContract(steps, st.currentStep);
    FinishedDataContents(steps[st.currentStep], st.data);
  }

  lemma FinishedStepKeepsInv(steps: seq<Step>, s: System, a: nat)
    requires Contract(steps)
    requires Inv(steps, s) && a < |s.trials| && CanMove(steps, s, a, RunStep(Succeeds))
    ensures Inv(steps, Stepped(steps, s, a, Succeeds))
  {
    hide Inv, Local, Contract, Working, FinishedWorld, WorldAt;
    Unpack(steps, s, a);
    StepsRunUnderTheRow(steps, s, a, Succeeds);
    FinishedStepKeepsTrial(steps, s, a);
    var j, st, i := s.trials[a].job, s.trials[a].pc.st, s.trials[a].pc.i;
    var world := FinishedWorld(steps[i], st.data, s.worlds[j]);
    WorkingIsClean(steps, s, j, st);
    WorldAdvances(steps, Contents(s.queue[j].initial), s.starts[j], LateOf(s, j), i, s.worlds[j], st.data);
    ActingIsLocal(s, a, world, s.late, Saving(Advanced(st, steps[i], i), i));
    assert s.(worlds := s.worlds[j := world], late := s.late) == s.(worlds := s.worlds[j := world]);
    LocalKeepsInv(steps, s, Stepped(steps, s, a, Succeeds), a);
  }

  lemma WorkingIsClean(steps: seq<Step>, s: System, j: int, st: State)
    requires j in s.queue && j in s.held && Working(steps, s, j, st)
    ensures 0 <= st.currentStep <= |steps|
    ensures Contents(st.data) == CleanData(steps, Contents(s.queue[j].initial), st.currentStep)
  {
  }

  lemma FinishedStepKeepsTrial(steps: seq<Step>, s: System, a: nat)
    requires Contract(steps)
    requires Inv(steps, s) && a < |s.trials| && CanMove(steps, s, a, RunStep(Succeeds))
    ensures GoodTrial(steps, Stepped(steps, s, a, Succeeds), a)
  {
    StepsRunUnderTheRow(steps, s, a, Succeeds);
    var j, st, s' := s.trials[a].job, s.trials[a].pc.st, Stepped(steps, s, a, Succeeds);
    FinishedStepData(steps, s, j, st);
    var st' := Advanced(st, steps[st.currentStep], st.currentStep);
    assert Working(steps, s', j, st') == Working(steps, s, j, st');
  }

  lemma FailedStepKeepsInv(steps: seq<Step>, s: System, a: nat, choice: Choice)
    requires Contract(steps) && !choice.Succeeds?
    requires Inv(steps, s) && a < |s.trials| && CanMove(steps, s, a, RunStep(choice))
    ensures Inv(steps, Stepped(steps, s, a, choice))
  {
    hide Inv, Contract, WorldAt, HalfWorld, Only, Working;
    Unpack(steps, s, a);
    StepsRunUnderTheRow(steps, s, a, choice);
    var j, st, i := s.trials[a].job, s.trials[a].pc.st, s.trials[a].pc.i;
    WorkingIsClean(steps, s, j, st);
    var initial, world := Contents(s.queue[j].initial), HalfWorld(steps[i], st.data, s.worlds[j], choice.did);
    WorldIsActedOn(steps, initial, s.starts[j], LateOf(s, j), i, s.worlds[j], i, st.data, choice.did);
    WorldStartsOver(steps, initial, s.starts[j], LateOf(s, j), i, world);
    FailedStepStartsOver(steps, s, a, choice, world);
  }

  lemma FailedStepStartsOver(steps: seq<Step>, s: System, a: nat, choice: Choice, world: World)
    requires !choice.Succeeds? && Inv(steps, s) && a < |s.trials| && CanMove(steps, s, a, RunStep(choice))
    requires GoodTrial(steps, s, a) && GoodJob(steps, s, s.trials[a].job)
    requires var j, st := s.trials[a].job, s.trials[a].pc.st;
             && world == HalfWorld(steps[s.trials[a].pc.i], st.data, s.worlds[j], choice.did)
             && j !in s.committed && WorldAt(steps, Contents(s.queue[j].initial), s.starts[j], map[], 0, world)
    ensures Inv(steps, Stepped(steps, s, a, choice))
  {
    hide Inv, Local, WorldAt, HalfWorld, Only, Working, MarkedFailed;
    var j, st, i := s.trials[a].job, s.trials[a].pc.st, s.trials[a].pc.i;
    var s', late := Stepped(steps, s, a, choice), s.late[j := map[]];
    if choice.Fails? {
      ActingIsLocal(s, a, world, late, Failing(MarkedFailed(st, steps[i], choice.err, choice.wrote)));
      assert s.(late := late).(worlds := s.worlds[j := world]) == s.(worlds := s.worlds[j := world], late := late);
    } else {
      DyingIsLocal(s, a, world);
    }
    LocalKeepsInv(steps, s, s', a);
  }

  lemma DyingIsLocal(s: System, a: nat, world: World)
    requires a < |s.trials| && Holds(s, a, s.trials[a].job) && s.trials[a].job in s.worlds
    ensures Local(s, Drop(s.(worlds := s.worlds[s.trials[a].job := world]), a, Ended), a)
  {
    hide Decode;
  }

  // ---------- Detached attempts ----------

  /** The step that the attempt stands at may go on without the row. */
  lemma DetachKeepsInv(steps: seq<Step>, s: System, a: nat)
    requires Inv(steps, s) && a < |s.trials| && CanMove(steps, s, a, Detach)
    ensures Inv(steps, Moved(steps, s, a, Detach))
  {
    hide Inv, Local, WorldAt, Decode;
    Unpack(steps, s, a);
    var pc := s.trials[a].pc;
    if pc.Looping? && pc.i < |steps| && pc.i >= pc.st.currentStep {
      var detached := Detached(pc.st, pc.i);
      StepsRunUnderTheRow(steps, s, a, Succeeds);
      DroppingKeepsWorld(steps, s, a, detached);
      DroppingIsLocal(s, a, detached);
      LocalKeepsInv(steps, s, Drop(s, a, detached), a);
    } else {
      DroppingKeepsInv(steps, s, a);
    }
  }

  lemma LateEffectKeepsWorld(steps: seq<Step>, s: System, j: int, st: State, i: nat, did: World)
    requires Contract(steps) && j in s.queue && GoodWorld(steps, s, j)
    requires i < |steps| && Contents(st.data) == CleanData(steps, Contents(s.queue[j].initial), i)
    ensures GoodWorld(steps, ActedLate(steps, s, j, st, i, did), j)
  {
    hide Contract, WorldAt, HalfWorld, Only;
    WorldIsActedOn(steps, Contents(s.queue[j].initial), s.starts[j], LateOf(s, j), Front(s, j), s.worlds[j], i, st.data, did);
  }

  lemma LateEffectKeepsInv(steps: seq<Step>, s: System, a: nat, did: World)
    requires Contract(steps)
    requires Inv(steps, s) && a < |s.trials| && CanMove(steps, s, a, LateEffect(did))
    ensures Inv(steps, Moved(steps, s, a, LateEffect(did)))
  {
    hide Inv, Local, Contract, WorldAt, HalfWorld, Only, CleanState, Decode;
    Unpack(steps, s, a);
    var j, st, i := s.trials[a].job, s.trials[a].pc.st, s.trials[a].pc.i;
    var acted := ActedLate(steps, s, j, st, i, did);
    LateEffectKeepsWorld(steps, s, j, st, i, did);
    ActingIsLocal(s, a, acted.worlds[j], acted.late, Ended);
    assert s.(worlds := s.worlds[j := acted.worlds[j]], late := acted.late) == acted;
    LocalKeepsInv(steps, s, At(acted, a, Ended), a);
  }

  lemma MoveKeepsInv(steps: seq<Step>, s: System, a: nat, move: Move)
    requires Contract(steps) && Inv(steps, s) && a < |s.trials| && CanMove(steps, s, a, move)
    ensures Inv(steps, Moved(steps, s, a, move))
  {
    hide Inv, Contract;
    match move
    case Load => LoadKeepsInv(steps, s, a);
    case Insert(id, now) => InsertKeepsInv(steps, s, a, id, now);
    case Mark(now) => MarkKeepsInv(steps, s, a, now);
    case Skip => SkipKeepsInv(steps, s, a);
    case RunStep(choice) =>
      if choice.Succeeds? { FinishedStepKeepsInv(steps, s, a); } else { FailedStepKeepsInv(steps, s, a, choice); }
    case Save(now) => SaveKeepsInv(steps, s, a, now);
    case StoreFailure(now) => StoreFailureKeepsInv(steps, s, a, now);
    case Leave => LeaveKeepsInv(steps, s, a);
    case Complete(now) => CompleteKeepsInv(steps, s, a, now);
    case Commit => CommitKeepsInv(steps, s, a);
    case Abort => DroppingKeepsInv(steps, s, a);
    case Detach => DetachKeepsInv(steps, s, a);
    case LateEffect(did) => LateEffectKeepsInv(steps, s, a, did);
  }

  /** Every move leaves alone what Local says. */
  lemma MoveIsLocal(steps: seq<Step>, s: System, a: nat, move: Move)
    requires Inv(steps, s) && a < |s.trials| && CanMove(steps, s, a, move)
    ensures Local(s, Moved(steps, s, a, move), a)
  {
    hide Inv, Local, WorldAt, CleanState, Decode, HalfWorld, FinishedWorld, Only, MarkedFailed, Advanced, Working;
    Unpack(steps, s, a);
    var j, pc := s.trials[a].job, s.trials[a].pc;
    match move
    case Load => MovingIsLocal(s, a, Moved(steps, s, a, move).trials[a].pc);
    case Insert(id, now) =>
      if j in s.committed { LosingIsLocal(s, a, Ended); }
      else { InsertingIsLocal(s, a, InsertedRow(pc.st, id, now), Marking(MarkedRunning(pc.st.(id := id)))); }
    case Mark(now) => WritingIsLocal(s, a, pc.st, now, Looping(pc.st, 0));
    case Skip => MovingIsLocal(s, a, Looping(pc.st, pc.i + 1));
    case RunStep(choice) => SteppingIsLocal(steps, s, a, choice);
    case Save(now) => WritingIsLocal(s, a, pc.st, now, Looping(pc.st, pc.i + 1));
    case StoreFailure(now) => WritingIsLocal(s, a, pc.st, now, RollingBack);
    case Leave => MovingIsLocal(s, a, Completing(MarkedCompleted(pc.st)));
    case Complete(now) => WritingIsLocal(s, a, pc.st, now, Committing(pc.st));
    case Commit =>
      CommittingIsClean(steps, s, a);
      CommittingIsLocal(s, a);
    case Abort => LosingIsLocal(s, a, Ended);
    case Detach =>
      LosingIsLocal(s, a, Ended);
      if pc.Looping? { LosingIsLocal(s, a, Detached(pc.st, pc.i)); }
    case LateEffect(did) =>
      var acted := ActedLate(steps, s, j, pc.st, pc.i, did);
      ActingIsLocal(s, a, acted.worlds[j], acted.late, Ended);
      assert s.(worlds := s.worlds[j := acted.worlds[j]], late := acted.late) == acted;
  }

  lemma LosingIsLocal(s: System, a: nat, pc: Pc)
    requires a < |s.trials|
    ensures Local(s, Drop(s, a, pc), a)
  {
    hide Local;
    if Holds(s, a, s.trials[a].job) { DroppingIsLocal(s, a, pc); } else { MovingIsLocal(s, a, pc); }
  }

  lemma SteppingIsLocal(steps: seq<Step>, s: System, a: nat, choice: Choice)
    requires a < |s.trials| && s.trials[a].pc.Looping? && s.trials[a].pc.i < |steps|
    requires s.trials[a].job in s.worlds && Holds(s, a, s.trials[a].job)
    ensures Local(s, Stepped(steps, s, a, choice), a)
  {
    hide Local, HalfWorld, FinishedWorld, MarkedFailed, Advanced;
    var j, st, i := s.trials[a].job, s.trials[a].pc.st, s.trials[a].pc.i;
    match choice
    case Succeeds =>
      var world := FinishedWorld(steps[i], st.data, s.worlds[j]);
      ActingIsLocal(s, a, world, s.late, Saving(Advanced(st, steps[i], i), i));
      assert s.(worlds := s.worlds[j := world], late := s.late) == s.(worlds := s.worlds[j := world]);
    case Fails(err, wrote, did) =>
      var world, late := HalfWorld(steps[i], st.data, s.worlds[j], did), Restarted(s, j).late;
      ActingIsLocal(s, a, world, late, Failing(MarkedFailed(st, steps[i], err, wrote)));
      assert Restarted(s, j).(worlds := s.worlds[j := world]) == s.(worlds := s.worlds[j := world], late := late);
    case Dies(did) => DyingIsLocal(s, a, HalfWorld(steps[i], st.data, s.worlds[j], did));
  }

  lemma BeginKeepsInv(steps: seq<Step>, s: System, j: int)
    requires Inv(steps, s) && j in s.queue
    ensures Inv(steps, Apply(steps, s, Begin(j)))
  {
    hide WorldAt, CleanState, Decode;
    var s' := Apply(steps, s, Begin(j));
    forall a: nat | a < |s'.trials| ensures GoodTrial(steps, s', a) {
      if a < |s.trials| {
        assert GoodTrial(steps, s, a);
      } else if j in s.held {
        assert GoodHeld(steps, s, j);
      }
    }
    forall k | k in s'.held ensures GoodHeld(steps, s', k) { assert GoodHeld(steps, s, k); }
    forall k | k in s'.committed ensures GoodCommitted(steps, s', k) { assert GoodCommitted(steps, s, k); }
    forall k | k in s'.queue ensures GoodWorld(steps, s', k) {
      assert GoodWorld(steps, s, k);
      if k in s.held { assert GoodHeld(steps, s, k); }
    }
  }

  lemma EnqueueKeepsTrial(steps: seq<Step>, s: System, job: Job, world: World, a: nat)
    requires job.jobID !in s.queue && a < |s.trials| && GoodTrial(steps, s, a)
    ensures GoodTrial(steps, Apply(steps, s, Enqueue(job, world)), a)
  {
    hide Decode;
  }

  /** A new job has no rows, and its world is as it was. */
  lemma EnqueueStartsWorld(steps: seq<Step>, s: System, job: Job, world: World)
    requires job.jobID !in s.queue && job.jobID !in s.held && job.jobID !in s.committed
    ensures GoodWorld(steps, Apply(steps, s, Enqueue(job, world)), job.jobID)
  {
  }

  lemma EnqueueKeepsInv(steps: seq<Step>, s: System, job: Job, world: World)
    requires Inv(steps, s) && job.jobID !in s.queue
    ensures Inv(steps, Apply(steps, s, Enqueue(job, world)))
  {
    hide GoodTrial, CleanState, Decode, WorldAt;
    var s' := Apply(steps, s, Enqueue(job, world));
    forall a: nat | a < |s'.trials| ensures GoodTrial(steps, s', a) { EnqueueKeepsTrial(steps, s, job, world, a); }
    forall k | k in s'.held ensures GoodHeld(steps, s', k) { assert GoodHeld(steps, s, k); }
    forall k | k in s'.committed ensures GoodCommitted(steps, s', k) { assert GoodCommitted(steps, s, k); }
    assert job.jobID in s.held ==> GoodHeld(steps, s, job.jobID);
    assert job.jobID in s.committed ==> GoodCommitted(steps, s, job.jobID);
    EnqueueStartsWorld(steps, s, job, world);
    forall k | k in s'.queue && k != job.jobID ensures GoodWorld(steps, s', k) { assert GoodWorld(steps, s, k); }
  }

  lemma ActionKeepsInv(steps: seq<Step>, s: System, action: Action)
    requires Contract(steps) && Inv(steps, s) && Enabled(steps, s, action)
    ensures Inv(steps, Apply(steps, s, action))
  {
    hide Inv, Contract, CanMove, Moved;
    match action
    case Enqueue(job, world) => EnqueueKeepsInv(steps, s, job, world);
    case Begin(j) => BeginKeepsInv(steps, s, j);
    case Moves(a, move) => MoveKeepsInv(steps, s, a, move);
  }
}
