/** What holds in every schedule of attempts (see Attempts). */
module Schedules {
  import opened Wrappers
  import opened Errors
  import opened Records
  import opened Steps
  import opened Runner
  import opened Resume
  import opened LateWorlds
  import opened Attempts

  lemma {:induction false} EveryStateIsGood(steps: seq<Step>, states: seq<System>, actions: seq<Action>, k: nat)
    requires Contract(steps) && Follows(steps, states, actions) && k < |states|
    ensures Inv(steps, states[k])
  {
    if k > 0 {
      EveryStateIsGood(steps, states, actions, k - 1);
      ActionKeepsInv(steps, states[k - 1], actions[k - 1]);
    }
  }

  /** In every schedule a job's committed row is absent or final: it belongs to the enqueued job,
      is completed with every step done and no error, and holds the data of a failure-free run. */
  lemma CommittedRowsAreFinal(steps: seq<Step>, states: seq<System>, actions: seq<Action>, k: nat, j: int)
    requires Contract(steps) && Follows(steps, states, actions) && k < |states| && j in states[k].committed
    ensures var s := states[k];
            && j in s.queue && s.queue[j].jobID == j
            && var row, job := s.committed[j], s.queue[j];
               && row.jobID == j && row.workflowType == job.workflowType && row.clientID == job.clientID
               && row.orderID == None && row.error == None
               && row.status == Completed && row.currentStep == |steps|
               && Contents(row.data) == CleanData(steps, Contents(job.initial), |steps|)
  {
    EveryStateIsGood(steps, states, actions, k);
    assert GoodCommitted(steps, states[k], j);
  }

  /** Rows that differ at most in their update time. */
  ghost predicate SameButTime(a: Row, b: Row) {
    a.(updatedAt := 0) == b.(updatedAt := 0)
  }

  lemma RecommitKeepsRow(steps: seq<Step>, s: System, a: nat)
    requires Inv(steps, s) && a < |s.trials| && CanMove(steps, s, a, Commit) && s.trials[a].job in s.committed
    ensures var j := s.trials[a].job; SameButTime(s.held[j].row, s.committed[j])
  {
    var j := s.trials[a].job;
    assert GoodTrial(steps, s, a) && GoodCommitted(steps, s, j) && GoodHeld(steps, s, j);
    assert Decode(s.held[j].row) == Decode(s.committed[j]);
  }

  lemma OneActionKeepsCommitted(steps: seq<Step>, s: System, action: Action, j: int)
    requires Contract(steps) && Inv(steps, s) && Enabled(steps, s, action) && j in s.committed
    ensures var s' := Apply(steps, s, action);
            j in s'.committed && SameButTime(s'.committed[j], s.committed[j])
  {
    hide Inv, Contract;
    if action.Moves? {
      if action.move.Commit? {
        if s.trials[action.a].job == j { RecommitKeepsRow(steps, s, action.a); }
      } else {
        MovesKeepQueueAndRows(steps, s, action.a, action.move);
      }
    }
  }

  /** A committed row never changes again, except for its update time: a job goes from absent to
      completed at most once. */
  lemma {:induction false} CommittedRowsStay(steps: seq<Step>, states: seq<System>, actions: seq<Action>, k: nat, m: nat, j: int)
    requires Contract(steps) && Follows(steps, states, actions) && k <= m < |states| && j in states[k].committed
    ensures j in states[m].committed && SameButTime(states[m].committed[j], states[k].committed[j])
  {
    if k < m {
      CommittedRowsStay(steps, states, actions, k, m - 1, j);
      EveryStateIsGood(steps, states, actions, m - 1);
      OneActionKeepsCommitted(steps, states[m - 1], actions[m - 1], j);
    }
  }

  /** Attempts that still have their transaction never execute steps of one job at the same time, and
      never a step of a committed job: whoever can is the one transaction that holds the job's
      uncommitted row. */
  lemma StepsAreSerialized(steps: seq<Step>, states: seq<System>, actions: seq<Action>, k: nat,
                           a: nat, b: nat, c1: Choice, c2: Choice)
    requires Contract(steps) && Follows(steps, states, actions) && k < |states|
    requires a < |states[k].trials| && CanMove(steps, states[k], a, RunStep(c1))
    requires b < |states[k].trials| && CanMove(steps, states[k], b, RunStep(c2))
    requires states[k].trials[a].job == states[k].trials[b].job
    ensures a == b && states[k].trials[a].job !in states[k].committed
  {
    EveryStateIsGood(steps, states, actions, k);
    StepsRunUnderTheRow(steps, states[k], a, c1);
    StepsRunUnderTheRow(steps, states[k], b, c2);
  }

  /** Attempt a can act on the external world of its job. */
  ghost predicate CanAct(steps: seq<Step>, s: System, a: nat, move: Move) {
    a < |s.trials| && (move.RunStep? || move.LateEffect?) && CanMove(steps, s, a, move)
  }

  /** Two attempts can act on one job's world at the same time only if one of them is detached; and
      only a detached one can act on the world of a committed job. */
  lemma OnlyDetachedAttemptsOverlap(steps: seq<Step>, states: seq<System>, actions: seq<Action>, k: nat,
                                    a: nat, b: nat, m1: Move, m2: Move)
    requires Contract(steps) && Follows(steps, states, actions) && k < |states|
    requires CanAct(steps, states[k], a, m1) && CanAct(steps, states[k], b, m2)
    requires states[k].trials[a].job == states[k].trials[b].job
    ensures a == b || states[k].trials[a].pc.Detached? || states[k].trials[b].pc.Detached?
    ensures states[k].trials[a].job in states[k].committed ==> states[k].trials[a].pc.Detached?
  {
    if m1.RunStep? {
      StepsAreSerialized(steps, states, actions, k, a, a, m1.choice, m1.choice);
      if m2.RunStep? {
        StepsAreSerialized(steps, states, actions, k, a, b, m1.choice, m2.choice);
      }
    }
  }

  // ---------- The external world ----------

  /** The effects of attempts stay inside what the steps touch: before, beside and after the commit,
      detached or not. */
  lemma WorldStaysInsideTheSteps(steps: seq<Step>, states: seq<System>, actions: seq<Action>, k: nat, j: int)
    requires Contract(steps) && Follows(steps, states, actions) && k < |states| && j in states[k].queue
    ensures var s := states[k];
            && j in s.worlds && j in s.starts
            && AgreeOutside(s.worlds[j], s.starts[j], TouchedFrom(steps, Contents(s.queue[j].initial), 0))
  {
    EveryStateIsGood(steps, states, actions, k);
    assert GoodWorld(steps, states[k], j);
  }

  /** Whatever other attempts failed, crashed or ran before, beside or after the one that committed:
      a committed job's external world is the one that a failure-free run leaves, overwritten by the
      late effects of detached attempts, step by step. So it is the failure-free world if and only if
      each of these left just what the step itself leaves. */
  lemma CommittedWorldIsClean(steps: seq<Step>, states: seq<System>, actions: seq<Action>, k: nat, j: int)
    requires Contract(steps) && Follows(steps, states, actions) && k < |states| && j in states[k].committed
    ensures var s := states[k];
            && j in s.queue && j in s.worlds && j in s.starts
            && var initial, late := Contents(s.queue[j].initial), LateOf(s, j);
               && LegalLate(steps, initial, late, |steps|)
               && s.worlds[j] == LateWorld(steps, initial, s.starts[j], late, |steps|)
               && (s.worlds[j] == CleanWorld(steps, initial, s.starts[j], |steps|)
                   <==> forall i :: i in late ==> late[i] == CleanEffects(steps, initial, i))
  {
    hide Inv;
    var s := states[k];
    EveryStateIsGood(steps, states, actions, k);
    CommittedWorldIsLate(steps, s, j);
    CleanExactlyWhen(steps, Contents(s.queue[j].initial), s.starts[j], LateOf(s, j), |steps|);
  }

  lemma CommittedWorldIsLate(steps: seq<Step>, s: System, j: int)
    requires Inv(steps, s) && j in s.committed
    ensures j in s.queue && j in s.worlds && j in s.starts
    ensures LegalLate(steps, Contents(s.queue[j].initial), LateOf(s, j), |steps|)
    ensures s.worlds[j] == LateWorld(steps, Contents(s.queue[j].initial), s.starts[j], LateOf(s, j), |steps|)
  {
    assert GoodCommitted(steps, s, j) && GoodWorld(steps, s, j);
    WorldAtTheEnd(steps, Contents(s.queue[j].initial), s.starts[j], LateOf(s, j), s.worlds[j]);
  }

  /** One late effect on a committed job whose world is the failure-free one keeps it so if and only
      if, on the items its step touches, it leaves what the step leaves. */
  lemma LateEffectKeepsCleanExactlyWhen(steps: seq<Step>, states: seq<System>, actions: seq<Action>, k: nat, a: nat, did: World)
    requires Contract(steps) && Follows(steps, states, actions) && k < |actions| && actions[k] == Moves(a, LateEffect(did))
    requires a < |states[k].trials| && states[k].trials[a].job in states[k].committed
    requires var s, j := states[k], states[k].trials[a].job;
             && j in s.queue && j in s.worlds && j in s.starts
             && s.worlds[j] == CleanWorld(steps, Contents(s.queue[j].initial), s.starts[j], |steps|)
    ensures var s, s', j := states[k], states[k + 1], states[k].trials[a].job;
            && CanMove(steps, s, a, LateEffect(did))
            && j in s'.worlds
            && var initial, did' := Contents(s.queue[j].initial), CleanEffects(steps, Contents(s.queue[j].initial), s.trials[a].pc.i);
               s'.worlds[j] == CleanWorld(steps, initial, s.starts[j], |steps|) <==> Only(did, did'.Keys) == did'
  {
    hide Inv, Contract, HalfWorld, Only, Front, GoodJob;
    var s, s', j := states[k], states[k + 1], states[k].trials[a].job;
    assert Enabled(steps, s, actions[k]) && s' == Apply(steps, s, actions[k]);
    EveryStateIsGood(steps, states, actions, k);
    Unpack(steps, s, a);
    var st, i, initial := s.trials[a].pc.st, s.trials[a].pc.i, Contents(s.queue[j].initial);
    ActingAgainExactlyWhen(steps, initial, s.starts[j], i, st.data, did);
  }

  /** A detached attempt at job j acts. */
  ghost predicate ActsLate(s: System, action: Action, j: int) {
    action.Moves? && action.move.LateEffect? && action.a < |s.trials| && s.trials[action.a].job == j
  }

  lemma DropKeepsNothingLate(s: System, a: nat, pc: Pc, j: int)
    requires a < |s.trials| && LateOf(s, j) == map[]
    ensures LateOf(Drop(s, a, pc), j) == map[]
  {
  }

  lemma StepKeepsNothingLate(steps: seq<Step>, s: System, a: nat, choice: Choice, j: int)
    requires a < |s.trials| && LateOf(s, j) == map[]
    requires s.trials[a].pc.Looping? && s.trials[a].pc.i < |steps| && s.trials[a].job in s.worlds
    ensures LateOf(Stepped(steps, s, a, choice), j) == map[]
  {
    hide HalfWorld, FinishedWorld;
  }

  lemma MoveKeepsNothingLate(steps: seq<Step>, s: System, a: nat, move: Move, j: int)
    requires a < |s.trials| && CanMove(steps, s, a, move) && LateOf(s, j) == map[] && !ActsLate(s, Moves(a, move), j)
    ensures LateOf(Moved(steps, s, a, move), j) == map[]
  {
    hide UpdatedRow, InsertedRow, Decode, Stepped, Drop, HalfWorld, Only;
    var pc := s.trials[a].pc;
    DropKeepsNothingLate(s, a, Ended, j);
    match move
    case RunStep(choice) => StepKeepsNothingLate(steps, s, a, choice, j);
    case Detach => if pc.Looping? { DropKeepsNothingLate(s, a, Detached(pc.st, pc.i), j); }
    case _ =>
  }

  lemma {:induction false} WithoutLateEffects(steps: seq<Step>, states: seq<System>, actions: seq<Action>, k: nat, j: int)
    requires Follows(steps, states, actions) && k < |states|
    requires forall m: nat :: m < k ==> !ActsLate(states[m], actions[m], j)
    ensures LateOf(states[k], j) == map[]
  {
    if k > 0 {
      WithoutLateEffects(steps, states, actions, k - 1, j);
      var s, action := states[k - 1], actions[k - 1];
      assert Enabled(steps, s, action) && states[k] == Apply(steps, s, action);
      hide Follows, CanMove, Moved, LateOf;
      if action.Moves? {
        MoveKeepsNothingLate(steps, s, action.a, action.move, j);
      } else {
        QueueingKeepsNothingLate(steps, s, action, j);
      }
    } else {
      NothingLateAtFirst(j);
    }
  }

  lemma QueueingKeepsNothingLate(steps: seq<Step>, s: System, action: Action, j: int)
    requires Enabled(steps, s, action) && !action.Moves? && LateOf(s, j) == map[]
    ensures LateOf(Apply(steps, s, action), j) == map[]
  {
  }

  lemma NothingLateAtFirst(j: int)
    ensures LateOf(EMPTY, j) == map[]
  {
  }

  /** In particular, losing its transaction does no harm as long as the attempt then keeps still. */
  lemma CleanWithoutLateEffects(steps: seq<Step>, states: seq<System>, actions: seq<Action>, k: nat, j: int)
    requires Contract(steps) && Follows(steps, states, actions) && k < |states| && j in states[k].committed
    requires forall m: nat :: m < k ==> !ActsLate(states[m], actions[m], j)
    ensures var s := states[k];
            && j in s.queue && j in s.worlds && j in s.starts
            && s.worlds[j] == CleanWorld(steps, Contents(s.queue[j].initial), s.starts[j], |steps|)
  {
    CommittedWorldIsClean(steps, states, actions, k, j);
    WithoutLateEffects(steps, states, actions, k, j);
  }
}
