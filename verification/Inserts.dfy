/** Attempts that found no row: the unique job id lets one of them in, and what becomes of the others;
    and what makes an attempt wait (internal/workflow/runner.go with
    internal/db/migrations/001_workflow_state.up.sql). */
module Inserts {
  import opened Wrappers
  import opened Errors
  import opened Records
  import opened Steps
  import opened Runner
  import opened Resume
  import opened LateWorlds
  import opened Attempts
  import opened Schedules

  /** Attempt a at job j has found no row, and comes to its insert next. */
  ghost predicate FoundNoRow(s: System, a: nat, j: int) {
    a < |s.trials| && s.trials[a].job == j && s.trials[a].pc.Inserting?
  }

  /** What can have become of it: it still waits to insert, or its row is in and nobody has committed
      the job, or it is out. */
  ghost predicate InOrOut(s: System, a: nat, j: int) {
    && a < |s.trials| && s.trials[a].job == j
    && (s.trials[a].pc.Inserting? || s.trials[a].pc.Ended? || s.trials[a].pc.Detached? || (Holds(s, a, j) && j !in s.committed))
  }

  /** It found no row, and meanwhile somebody else has committed the job. */
  ghost predicate Lost(s: System, a: nat, j: int) {
    && a < |s.trials| && s.trials[a].job == j && j in s.committed
    && (s.trials[a].pc.Inserting? || s.trials[a].pc.Ended?)
  }

  lemma DroppingIsOut(s: System, a: nat, pc: Pc)
    requires a < |s.trials| && (pc.Ended? || pc.Detached?)
    ensures InOrOut(Drop(s, a, pc), a, s.trials[a].job)
  {
  }

  lemma WritingStaysIn(s: System, a: nat, st: State, now: nat, pc: Pc)
    requires a < |s.trials| && InOrOut(s, a, s.trials[a].job) && !s.trials[a].pc.Inserting?
    requires !s.trials[a].pc.Ended? && !s.trials[a].pc.Detached?
    ensures InOrOut(Write(s, a, st, now, pc), a, s.trials[a].job)
  {
    hide UpdatedRow;
  }

  lemma SteppingStaysIn(steps: seq<Step>, s: System, a: nat, choice: Choice)
    requires a < |s.trials| && s.trials[a].pc.Looping? && s.trials[a].pc.i < |steps| && s.trials[a].job in s.worlds
    requires InOrOut(s, a, s.trials[a].job)
    ensures InOrOut(Stepped(steps, s, a, choice), a, s.trials[a].job)
  {
    hide HalfWorld, FinishedWorld, MarkedFailed, Advanced;
  }

  lemma OwnMoveKeepsInOrOut(steps: seq<Step>, s: System, a: nat, move: Move, j: int)
    requires a < |s.trials| && CanMove(steps, s, a, move) && InOrOut(s, a, j)
    ensures InOrOut(Moved(steps, s, a, move), a, j)
  {
    hide InsertedRow, Decode, HalfWorld, Only, Write, Drop, Stepped, Front, Marshals;
    var pc := s.trials[a].pc;
    DroppingIsOut(s, a, Ended);
    match move
    case Load =>
    case Insert(_, _) =>
    case Mark(now) => WritingStaysIn(s, a, pc.st, now, Looping(pc.st, 0));
    case RunStep(choice) => SteppingStaysIn(steps, s, a, choice);
    case Save(now) => WritingStaysIn(s, a, pc.st, now, Looping(pc.st, pc.i + 1));
    case StoreFailure(now) => WritingStaysIn(s, a, pc.st, now, RollingBack);
    case Complete(now) => WritingStaysIn(s, a, pc.st, now, Committing(pc.st));
    case Detach => if pc.Looping? { DroppingIsOut(s, a, Detached(pc.st, pc.i)); }
    case _ =>
  }

  lemma OtherMoveKeepsPlace(steps: seq<Step>, s: System, a: nat, b: nat, move: Move, j: int)
    requires Inv(steps, s) && b < |s.trials| && CanMove(steps, s, b, move) && a != b
    ensures InOrOut(s, a, j) ==> InOrOut(Moved(steps, s, b, move), a, j)
    ensures Lost(s, a, j) ==> Lost(Moved(steps, s, b, move), a, j)
  {
    hide Inv, Moved, CanMove, Decode;
    MoveIsLocal(steps, s, b, move);
  }

  lemma OneActionKeepsInOrOut(steps: seq<Step>, s: System, action: Action, a: nat, j: int)
    requires Inv(steps, s) && Enabled(steps, s, action) && InOrOut(s, a, j)
    ensures InOrOut(Apply(steps, s, action), a, j)
  {
    hide Inv, CanMove, Moved;
    if action.Moves? {
      if action.a == a { OwnMoveKeepsInOrOut(steps, s, a, action.move, j); }
      else { OtherMoveKeepsPlace(steps, s, a, action.a, action.move, j); }
    }
  }

  lemma {:induction false} FoundNoRowStays(steps: seq<Step>, states: seq<System>, actions: seq<Action>, m: nat, k: nat, a: nat, j: int)
    requires Contract(steps) && Follows(steps, states, actions) && m <= k < |states| && FoundNoRow(states[m], a, j)
    ensures InOrOut(states[k], a, j)
    decreases k
  {
    hide Inv, Enabled, Apply;
    if m < k {
      FoundNoRowStays(steps, states, actions, m, k - 1, a, j);
      EveryStateIsGood(steps, states, actions, k - 1);
      assert Enabled(steps, states[k - 1], actions[k - 1]) && states[k] == Apply(steps, states[k - 1], actions[k - 1]);
      OneActionKeepsInOrOut(steps, states[k - 1], actions[k - 1], a, j);
    }
  }

  /** An attempt that found no row can commit only a job that nobody has committed before. */
  lemma CommitsFirst(steps: seq<Step>, states: seq<System>, actions: seq<Action>, m: nat, k: nat, a: nat, j: int)
    requires Contract(steps) && Follows(steps, states, actions) && m <= k < |actions|
    requires FoundNoRow(states[m], a, j) && actions[k] == Moves(a, Commit)
    ensures j !in states[k].committed && j in states[k + 1].committed
  {
    FoundNoRowStays(steps, states, actions, m, k, a, j);
    assert Enabled(steps, states[k], actions[k]) && states[k + 1] == Apply(steps, states[k], actions[k]);
  }

  /** Of all attempts at one job that found no row, at most one ever commits, and only once. */
  lemma AtMostOneInsertCommits(steps: seq<Step>, states: seq<System>, actions: seq<Action>, j: int,
                               m: nat, k: nat, a: nat, m': nat, k': nat, a': nat)
    requires Contract(steps) && Follows(steps, states, actions) && m <= k < |actions| && m' <= k' < |actions|
    requires FoundNoRow(states[m], a, j) && actions[k] == Moves(a, Commit)
    requires FoundNoRow(states[m'], a', j) && actions[k'] == Moves(a', Commit)
    ensures a == a' && k == k'
  {
    CommitsFirst(steps, states, actions, m, k, a, j);
    CommitsFirst(steps, states, actions, m', k', a', j);
    if k < k' {
      CommittedRowsStay(steps, states, actions, k + 1, k', j);
      assert false;
    } else if k' < k {
      CommittedRowsStay(steps, states, actions, k' + 1, k, j);
      assert false;
    }
  }

  lemma OwnMoveKeepsLost(steps: seq<Step>, s: System, a: nat, move: Move, j: int)
    requires Inv(steps, s) && a < |s.trials| && CanMove(steps, s, a, move) && Lost(s, a, j)
    ensures var s' := Moved(steps, s, a, move);
            && Lost(s', a, j) && !move.Commit?
            && s'.committed == s.committed && s'.held == s.held && s'.worlds == s.worlds && s'.late == s.late
  {
    hide Inv, WorldAt, CleanState, Decode;
    Unpack(steps, s, a);
  }

  lemma {:induction false} LostStays(steps: seq<Step>, states: seq<System>, actions: seq<Action>, m: nat, k: nat, a: nat, j: int)
    requires Contract(steps) && Follows(steps, states, actions) && m <= k < |states| && Lost(states[m], a, j)
    ensures Lost(states[k], a, j)
    decreases k
  {
    hide Inv, CanMove, Moved;
    if m < k {
      LostStays(steps, states, actions, m, k - 1, a, j);
      EveryStateIsGood(steps, states, actions, k - 1);
      var s, action := states[k - 1], actions[k - 1];
      assert Enabled(steps, s, action) && states[k] == Apply(steps, s, action);
      if action.Moves? {
        if action.a == a { OwnMoveKeepsLost(steps, s, a, action.move, j); }
        else { OtherMoveKeepsPlace(steps, s, a, action.a, action.move, j); }
      }
    }
  }

  /** The insert of an attempt that found no row fails once somebody else has committed the job: from
      then on nothing the attempt does changes a row or the external world, and it never commits. */
  lemma LateInsertFails(steps: seq<Step>, states: seq<System>, actions: seq<Action>, m: nat, k: nat, a: nat, move: Move, j: int)
    requires Contract(steps) && Follows(steps, states, actions) && m <= k < |actions|
    requires FoundNoRow(states[m], a, j) && j in states[m].committed && actions[k] == Moves(a, move)
    ensures var s, s' := states[k], states[k + 1];
            && !move.Commit? && (move.Insert? ==> s'.trials[a].pc.Ended?)
            && s'.committed == s.committed && s'.held == s.held && s'.worlds == s.worlds && s'.late == s.late
  {
    LostStays(steps, states, actions, m, k, a, j);
    EveryStateIsGood(steps, states, actions, k);
    assert Enabled(steps, states[k], actions[k]) && states[k + 1] == Apply(steps, states[k], actions[k]);
    OwnMoveKeepsLost(steps, states[k], a, move, j);
  }

  // ---------- Waiting ----------

  /** The attempt comes to a statement that writes its job's row. */
  predicate WritesRow(pc: Pc) {
    pc.Inserting? || pc.Marking? || pc.Saving? || pc.Failing? || pc.Completing?
  }

  /** Some move other than giving up is possible. */
  ghost predicate CanGoOn(steps: seq<Step>, s: System, a: nat)
    requires a < |s.trials|
  {
    exists move: Move :: !move.Abort? && !move.Detach? && CanMove(steps, s, a, move)
  }

  /** Only rows that other transactions hold make an attempt wait, and only before a statement that
      writes: reading, executing steps, committing and the holder's own writes never wait. */
  lemma OnlyHeldRowsMakeAttemptsWait(steps: seq<Step>, states: seq<System>, actions: seq<Action>, k: nat, a: nat)
    requires Contract(steps) && Follows(steps, states, actions) && k < |states| && a < |states[k].trials|
    requires !states[k].trials[a].pc.Ended? && !states[k].trials[a].pc.RollingBack?
    ensures var s, j, pc := states[k], states[k].trials[a].job, states[k].trials[a].pc;
            CanGoOn(steps, s, a) <==> (WritesRow(pc) ==> Free(s, a, j) && Marshals(pc.st.data))
  {
    hide Follows, Inv, GoodTrial, CanGoOn;
    EveryStateIsGood(steps, states, actions, k);
    Unpack(steps, states[k], a);
    hide GoodJob;
    WorldIsThere(steps, states[k], a);
    MoveUnlessRowIsHeld(steps, states[k], a);
  }

  lemma WorldIsThere(steps: seq<Step>, s: System, a: nat)
    requires Inv(steps, s) && a < |s.trials|
    ensures s.trials[a].job in s.queue && s.trials[a].job in s.worlds
  {
    hide Inv, WorldAt;
    Unpack(steps, s, a);
  }

  lemma MoveUnlessRowIsHeld(steps: seq<Step>, s: System, a: nat)
    requires a < |s.trials| && s.trials[a].job in s.queue && s.trials[a].job in s.worlds && GoodTrial(steps, s, a)
    requires !s.trials[a].pc.Ended? && !s.trials[a].pc.RollingBack?
    ensures var j, pc := s.trials[a].job, s.trials[a].pc;
            CanGoOn(steps, s, a) <==> (WritesRow(pc) ==> Free(s, a, j) && Marshals(pc.st.data))
  {
    hide Decode, Working, Marshals;
    var j, pc := s.trials[a].job, s.trials[a].pc;
    match pc
    case Begun => assert CanMove(steps, s, a, Load);
    case Inserting(st) => assert Free(s, a, j) && Marshals(st.data) ==> CanMove(steps, s, a, Insert("", 0));
    case Marking(st) => assert CanWrite(s, a, st) ==> CanMove(steps, s, a, Mark(0));
    case Looping(st, i) =>
      assert i == |steps| ==> CanMove(steps, s, a, Leave);
      assert i < |steps| && i < st.currentStep ==> CanMove(steps, s, a, Skip);
      assert i < |steps| && i >= st.currentStep ==> CanMove(steps, s, a, RunStep(Succeeds));
    case Saving(st, _) => assert CanWrite(s, a, st) ==> CanMove(steps, s, a, Save(0));
    case Failing(st) => assert CanWrite(s, a, st) ==> CanMove(steps, s, a, StoreFailure(0));
    case Completing(st) => assert CanWrite(s, a, st) ==> CanMove(steps, s, a, Complete(0));
    case Committing(_) => assert CanMove(steps, s, a, Commit);
    case Detached(_, _) => assert CanMove(steps, s, a, LateEffect(map[]));
  }
}
