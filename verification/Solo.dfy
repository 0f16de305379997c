/** One attempt with nobody in its way: the moves of Attempts can always reproduce what Work does,
    so what holds in every schedule holds for Work. */
module Solo {
  import opened Wrappers
  import opened Errors
  import opened Records
  import opened Steps
  import opened Runner
  import opened RunLog
  import opened Resume
  import opened Work
  import opened Attempts

  /** Attempt a makes these moves, one after another, and gets from s to s'. */
  ghost predicate Makes(steps: seq<Step>, s: System, a: nat, moves: seq<Move>, s': System)
    decreases |moves|
  {
    if moves == [] then s == s'
    else a < |s.trials| && CanMove(steps, s, a, moves[0]) && Makes(steps, Moved(steps, s, a, moves[0]), a, moves[1..], s')
  }

  lemma {:induction false} MakesMore(steps: seq<Step>, s: System, a: nat, moves: seq<Move>, s1: System, more: seq<Move>, s2: System)
    requires Makes(steps, s, a, moves, s1) && Makes(steps, s1, a, more, s2)
    ensures Makes(steps, s, a, moves + more, s2)
    decreases |moves|
  {
    hide CanMove, Moved;
    if moves == [] {
      assert moves + more == more;
    } else {
      MakesMore(steps, Moved(steps, s, a, moves[0]), a, moves[1..], s1, more, s2);
      assert (moves + more)[1..] == moves[1..] + more;
    }
  }

  lemma MakesOne(steps: seq<Step>, s: System, a: nat, move: Move)
    requires a < |s.trials| && CanMove(steps, s, a, move)
    ensures Makes(steps, s, a, [move], Moved(steps, s, a, move))
  {
    assert [move][1..] == [];
  }

  lemma MakesFirst(steps: seq<Step>, s: System, a: nat, move: Move, more: seq<Move>, s': System)
    requires a < |s.trials| && CanMove(steps, s, a, move) && Makes(steps, Moved(steps, s, a, move), a, more, s')
    ensures Makes(steps, s, a, [move] + more, s')
  {
    assert ([move] + more)[1..] == more;
  }

  /** Only the attempt's own place, its job's pending row, its job's world and the record of what came
      late to it can differ. */
  ghost predicate Beside(s: System, s': System, a: nat, j: int) {
    && a < |s.trials| && |s'.trials| == |s.trials|
    && s' == s.(held := s'.held, worlds := s'.worlds, late := s'.late, trials := s.trials[a := Trial(j, s'.trials[a].pc)])
    && s'.held - {j} == s.held - {j}
  }

  /** Where the attempt gets to when its run ends as `o` says: in front of the commit with the run's
      last row in its hands, or rolled back. */
  ghost predicate EndsAs(s: System, s': System, a: nat, j: int, o: Outcome) {
    && Beside(s, s', a, j) && s'.worlds == s.worlds[j := o.world]
    && if o.call == Returned(None)
       then s'.trials[a].pc.Committing? && Holds(s', a, j) && j in o.db && o.db[j] == Decode(s'.held[j].row)
       else s'.trials[a].pc.Ended? && j !in s'.held
  }

  /** The attempt is at work: it holds the row that its transaction sees as db[j]. */
  ghost predicate AtWork(s: System, a: nat, j: int, db: map<int, State>) {
    && a < |s.trials| && s.trials[a].job == j && Holds(s, a, j) && j in s.worlds
    && j in db && db[j] == Decode(s.held[j].row)
  }

  lemma GivesUp(steps: seq<Step>, s: System, a: nat, j: int) returns (s': System)
    requires a < |s.trials| && s.trials[a].job == j && !s.trials[a].pc.Detached? && Free(s, a, j) && j in s.worlds
    ensures Makes(steps, s, a, [Abort], s')
    ensures Beside(s, s', a, j) && s'.worlds == s.worlds && s'.trials[a].pc.Ended? && j !in s'.held
  {
    MakesOne(steps, s, a, Abort);
    s' := Moved(steps, s, a, Abort);
  }

  /** An update by the holder, when it works. */
  lemma Writes(s: System, a: nat, j: int, st: State, pc: Pc, db: map<int, State>, fate: Fate) returns (s': System)
    requires AtWork(s, a, j, db) && st.jobID == j && Change(db, st, fate).1 == Returned(None)
    ensures CanWrite(s, a, st) && s' == Write(s, a, st, 0, pc)
    ensures Beside(s, s', a, j) && s'.worlds == s.worlds && s'.trials[a].pc == pc
    ensures AtWork(s', a, j, Change(db, st, fate).0)
  {
    s' := Write(s, a, st, 0, pc);
  }

  lemma BesideTwice(s: System, s1: System, s2: System, a: nat, j: int, o: Outcome)
    requires Beside(s, s1, a, j) && EndsAs(s1, s2, a, j, o) && j in s1.worlds && s1.worlds == s.worlds[j := s1.worlds[j]]
    ensures EndsAs(s, s2, a, j, o)
  {
  }

  lemma LoopEndAlone(steps: seq<Step>, s: System, a: nat, j: int, st: State, db: map<int, State>, sc: Script)
    returns (moves: seq<Move>, s': System)
    requires AtWork(s, a, j, db) && s.trials[a].pc == Looping(st, |steps|) && st.jobID == j
    ensures Makes(steps, s, a, moves, s') && EndsAs(s, s', a, j, Finish(st, db, s.worlds[j], sc))
  {
    var done := MarkedCompleted(st);
    var s1 := Moved(steps, s, a, Leave);
    if Change(db, done, sc.completed).1 == Returned(None) {
      s' := Writes(s1, a, j, done, Committing(done), db, sc.completed);
      MakesOne(steps, s1, a, Complete(0));
      moves := [Complete(0)];
    } else {
      s' := GivesUp(steps, s1, a, j);
      moves := [Abort];
    }
    MakesFirst(steps, s, a, Leave, moves, s');
    moves := [Leave] + moves;
  }

  lemma StepAlone(steps: seq<Step>, s: System, a: nat, j: int, st: State, i: nat, db: map<int, State>, sc: Script)
    returns (moves: seq<Move>, s': System)
    requires AtWork(s, a, j, db) && i < |steps| && s.trials[a].pc == Looping(st, i) && st.jobID == j && i >= st.currentStep
    requires LegalChoice(steps[i], sc.step(i))
    ensures Makes(steps, s, a, moves, s')
    ensures var st' := Advanced(st, steps[i], i);
            var (db', r) := Change(db, st', sc.save(i));
            if sc.step(i).Succeeds? && r == Returned(None)
            then AtWork(s', a, j, db') && Beside(s, s', a, j) && s'.trials[a].pc == Looping(st', i + 1)
                 && s'.worlds == s.worlds[j := FinishedWorld(steps[i], st.data, s.worlds[j])]
            else EndsAs(s, s', a, j, Loop(steps, i, st, db, s.worlds[j], sc))
  {
    hide HalfWorld, FinishedWorld, Loop, Text, Change, Makes, CanWrite, Write, Advanced, MarkedFailed;
    var move := RunStep(sc.step(i));
    var st' := Advanced(st, steps[i], i);
    var s1 := StepActs(steps, s, a, j, st, i, db, sc.step(i));
    if sc.step(i).Succeeds? && Change(db, st', sc.save(i)).1 == Returned(None) {
      AdvancedKeepsID(st, steps[i], i);
      s' := Writes(s1, a, j, st', Looping(st', i + 1), db, sc.save(i));
      MakesOne(steps, s1, a, Save(0));
      moves := [Save(0)];
    } else {
      StoppedLoop(steps, i, st, db, s.worlds[j], sc);
      if sc.step(i).Dies? {
        moves, s' := [], s1;
        MakesNothing(steps, s1, a);
      } else {
        s' := GivesUp(steps, s1, a, j);
        moves := [Abort];
      }
    }
    MakesFirst(steps, s, a, move, moves, s');
    moves := [move] + moves;
  }

  lemma AdvancedKeepsID(st: State, step: Step, i: nat)
    ensures Advanced(st, step, i).jobID == st.jobID
  {
  }

  lemma MakesNothing(steps: seq<Step>, s: System, a: nat)
    ensures Makes(steps, s, a, [], s)
  {
  }

  /** Where the step leaves the attempt. */
  lemma StepActs(steps: seq<Step>, s: System, a: nat, j: int, st: State, i: nat, db: map<int, State>, choice: Choice)
    returns (s': System)
    requires AtWork(s, a, j, db) && i < |steps| && s.trials[a].pc == Looping(st, i) && i >= st.currentStep
    requires LegalChoice(steps[i], choice)
    ensures CanMove(steps, s, a, RunStep(choice)) && s' == Moved(steps, s, a, RunStep(choice))
    ensures Beside(s, s', a, j)
    ensures s'.worlds == s.worlds[j := match choice
                                       case Succeeds => FinishedWorld(steps[i], st.data, s.worlds[j])
                                       case Fails(_, _, did) => HalfWorld(steps[i], st.data, s.worlds[j], did)
                                       case Dies(did) => HalfWorld(steps[i], st.data, s.worlds[j], did)]
    ensures match choice
            case Succeeds => AtWork(s', a, j, db) && s'.trials[a].pc == Saving(Advanced(st, steps[i], i), i)
            case Fails(err, wrote, _) => Holds(s', a, j) && s'.trials[a].pc.Failing?
            case Dies(_) => j !in s'.held && s'.trials[a].pc.Ended?
  {
    hide HalfWorld, FinishedWorld, Decode, Advanced, MarkedFailed;
    s' := Moved(steps, s, a, RunStep(choice));
  }

  /** How the loop ends at a step that did not finish or was not saved. */
  lemma StoppedLoop(steps: seq<Step>, i: nat, st: State, db: map<int, State>, world: World, sc: Script)
    requires i < |steps| && i >= st.currentStep
    requires !(sc.step(i).Succeeds? && Change(db, Advanced(st, steps[i], i), sc.save(i)).1 == Returned(None))
    ensures var o := Loop(steps, i, st, db, world, sc);
            && o.call != Returned(None)
            && o.world == match sc.step(i)
                          case Succeeds => FinishedWorld(steps[i], st.data, world)
                          case Fails(_, _, did) => HalfWorld(steps[i], st.data, world, did)
                          case Dies(did) => HalfWorld(steps[i], st.data, world, did)
  {
  }

  lemma {:induction false} LoopAlone(steps: seq<Step>, s: System, a: nat, j: int, st: State, i: nat, db: map<int, State>, sc: Script)
    returns (moves: seq<Move>, s': System)
    requires AtWork(s, a, j, db) && i <= |steps| && s.trials[a].pc == Looping(st, i) && st.jobID == j
    requires LegalScript(steps, sc)
    ensures Makes(steps, s, a, moves, s') && EndsAs(s, s', a, j, Loop(steps, i, st, db, s.worlds[j], sc))
    decreases |steps| - i
  {
    hide Change, HalfWorld, FinishedWorld;
    if i == |steps| {
      moves, s' := LoopEndAlone(steps, s, a, j, st, db, sc);
    } else if i < st.currentStep {
      var s1 := Moved(steps, s, a, Skip);
      moves, s' := LoopAlone(steps, s1, a, j, st, i + 1, db, sc);
      MakesFirst(steps, s, a, Skip, moves, s');
      moves := [Skip] + moves;
    } else {
      moves, s' := StepAlone(steps, s, a, j, st, i, db, sc);
      var st' := Advanced(st, steps[i], i);
      var (db', r) := Change(db, st', sc.save(i));
      if sc.step(i).Succeeds? && r == Returned(None) {
        var more, s'' := LoopAlone(steps, s', a, j, st', i + 1, db', sc);
        MakesMore(steps, s, a, moves, s', more, s'');
        var o := Loop(steps, i + 1, st', db', s'.worlds[j], sc);
        BesideTwice(s, s', s'', a, j, o);
        moves, s' := moves + more, s'';
      }
    }
  }

  /** The attempt has its loaded or created state, and marks it running next. Before it has written
      anything, the row it sees may still be the committed one. */
  ghost predicate Loaded(s: System, a: nat, j: int, loaded: State, db: map<int, State>) {
    && a < |s.trials| && s.trials[a] == Trial(j, Marking(MarkedRunning(loaded))) && j in s.worlds
    && loaded.jobID == j && j in db && db[j] == loaded
    && if j in s.held then s.held[j].owner == a && Decode(s.held[j].row) == loaded
       else j in s.committed && Decode(s.committed[j]) == loaded
  }

  lemma MarkAlone(s: System, a: nat, j: int, loaded: State, db: map<int, State>, fate: Fate) returns (s': System)
    requires Loaded(s, a, j, loaded, db) && Change(db, MarkedRunning(loaded), fate).1 == Returned(None)
    ensures var st := MarkedRunning(loaded);
            && CanWrite(s, a, st) && s' == Write(s, a, st, 0, Looping(st, 0))
            && Beside(s, s', a, j) && s'.worlds == s.worlds && s'.trials[a].pc == Looping(st, 0)
            && AtWork(s', a, j, Change(db, st, fate).0)
  {
    var st := MarkedRunning(loaded);
    s' := Write(s, a, st, 0, Looping(st, 0));
  }

  lemma StartAlone(steps: seq<Step>, s: System, a: nat, j: int, loaded: State, db: map<int, State>, sc: Script)
    returns (moves: seq<Move>, s': System)
    requires Loaded(s, a, j, loaded, db) && LegalScript(steps, sc)
    ensures Makes(steps, s, a, moves, s') && EndsAs(s, s', a, j, Start(steps, loaded, db, s.worlds[j], sc))
  {
    hide Change, Loop;
    var st := MarkedRunning(loaded);
    var (db', r) := Change(db, st, sc.running);
    if r == Returned(None) {
      var s1 := MarkAlone(s, a, j, loaded, db, sc.running);
      moves, s' := LoopAlone(steps, s1, a, j, st, 0, db', sc);
      BesideTwice(s, s1, s', a, j, Loop(steps, 0, st, db', s1.worlds[j], sc));
      MakesFirst(steps, s, a, Mark(0), moves, s');
      moves := [Mark(0)] + moves;
    } else {
      s' := GivesUp(steps, s, a, j);
      moves := [Abort];
    }
  }

  /** The attempt's transaction is open, and no other transaction holds its job's row. */
  ghost predicate Opened(steps: seq<Step>, s: System, a: nat, j: int) {
    && Inv(steps, s) && a < |s.trials| && s.trials[a] == Trial(j, Begun) && j !in s.held && j in s.queue
  }

  lemma ResumeAlone(steps: seq<Step>, s: System, a: nat, j: int, sc: Script) returns (moves: seq<Move>, s': System)
    requires Opened(steps, s, a, j) && LegalScript(steps, sc) && j in s.committed
    ensures j in s.worlds && Makes(steps, s, a, moves, s')
    ensures EndsAs(s, s', a, j, Start(steps, Decode(s.committed[j]), Table(s.committed), s.worlds[j], sc))
  {
    hide Start, LegalScript, CleanState, Decode;
    assert GoodWorld(steps, s, j) && GoodCommitted(steps, s, j);
    var db := Table(s.committed);
    CommittedID(steps, s, j);
    var s1 := Moved(steps, s, a, Load);
    moves, s' := StartAlone(steps, s1, a, j, db[j], db, sc);
    BesideTwice(s, s1, s', a, j, Start(steps, db[j], db, s.worlds[j], sc));
    MakesFirst(steps, s, a, Load, moves, s');
    moves := [Load] + moves;
  }

  lemma CommittedID(steps: seq<Step>, s: System, j: int)
    requires Inv(steps, s) && j in s.committed
    ensures Decode(s.committed[j]).jobID == j && Decode(s.committed[j]).currentStep >= 0
  {
    assert GoodCommitted(steps, s, j);
  }

  lemma CreateAlone(steps: seq<Step>, s: System, a: nat, j: int, id: string, sc: Script) returns (moves: seq<Move>, s': System)
    requires Opened(steps, s, a, j) && LegalScript(steps, sc) && j !in s.committed && Marshals(s.queue[j].initial)
    ensures j in s.worlds && Makes(steps, s, a, moves, s')
    ensures var created := NewState(s.queue[j]).(id := id);
            EndsAs(s, s', a, j, Start(steps, created, Table(s.committed)[j := created], s.worlds[j], sc))
  {
    hide Start, LegalScript;
    assert GoodWorld(steps, s, j);
    var created := NewState(s.queue[j]).(id := id);
    var db := Table(s.committed)[j := created];
    var s1 := Moved(steps, s, a, Load);
    var s2 := Moved(steps, s1, a, Insert(id, 0));
    moves, s' := StartAlone(steps, s2, a, j, created, db, sc);
    BesideTwice(s, s2, s', a, j, Start(steps, created, db, s.worlds[j], sc));
    MakesFirst(steps, s1, a, Insert(id, 0), moves, s');
    MakesFirst(steps, s, a, Load, [Insert(id, 0)] + moves, s');
    moves := [Load] + ([Insert(id, 0)] + moves);
  }

  lemma RunAlone(steps: seq<Step>, s: System, a: nat, j: int, id: string, sc: Script) returns (moves: seq<Move>, s': System)
    requires Opened(steps, s, a, j) && LegalScript(steps, sc)
    ensures j in s.worlds && Makes(steps, s, a, moves, s')
    ensures EndsAs(s, s', a, j, RunFrom(steps, s.queue[j], id, Table(s.committed), s.worlds[j], sc))
  {
    hide Start, LegalScript, Decode, Moved, CanMove, CleanState, Makes;
    assert GoodWorld(steps, s, j);
    var job := s.queue[j];
    assert job.jobID == j;
    if sc.get.Works? && j in s.committed {
      moves, s' := ResumeAlone(steps, s, a, j, sc);
    } else if (sc.get.Works? || (sc.get.Errs? && IsRowNotFound(sc.get.e))) && Put(Table(s.committed), NewState(job), id, sc.create).1 == Returned(None) {
      moves, s' := CreateAlone(steps, s, a, j, id, sc);
    } else {
      s' := GivesUp(steps, s, a, j);
      moves := [Abort];
    }
  }

  lemma RunKeepsRest(steps: seq<Step>, s: System, j: int, id: string, sc: Script)
    requires Inv(steps, s) && j in s.queue
    ensures j in s.worlds
    ensures var o := RunFrom(steps, s.queue[j], id, Table(s.committed), s.worlds[j], sc);
            o.call == Returned(None) ==> j in o.db && o.db == Table(s.committed)[j := o.db[j]]
  {
    hide RunFrom;
    assert GoodWorld(steps, s, j);
    forall k | k in s.committed ensures Table(s.committed)[k].jobID == k && Table(s.committed)[k].currentStep >= 0 {
      assert GoodCommitted(steps, s, k);
    }
    RunWritesLog(steps, s.queue[j], id, Table(s.committed), s.worlds[j], sc);
  }

  /** Whatever Work does with a delivery in a state that schedules can reach, an attempt that begins
      there can do by its own moves: the same committed rows, the same external world. So nothing
      that Work does is missing from the schedules. */
  lemma WorkIsASchedule(steps: seq<Step>, s: System, j: int, d: Delivery)
    returns (moves: seq<Move>, s': System)
    requires Inv(steps, s) && j in s.queue && j !in s.held && LegalScript(steps, d.attempt.sc)
    ensures Makes(steps, Apply(steps, s, Begin(j)), |s.trials|, moves, s')
    ensures j in s.worlds
    ensures var w := WorkFrom(steps, s.queue[j], Table(s.committed), s.worlds[j], d);
            && Table(s'.committed) == w.db && s'.worlds == s.worlds[j := w.world]
            && s'.held == s.held && s'.queue == s.queue && s'.trials == s.trials + [Trial(j, Ended)]
  {
    hide RunFrom;
    var a, s0 := |s.trials|, Apply(steps, s, Begin(j));
    BeginKeepsInv(steps, s, j);
    assert GoodWorld(steps, s, j);
    hide Inv, GoodWorld, Table, Makes;
    if d.begin.Works? {
      var o := RunFrom(steps, s.queue[j], d.attempt.id, Table(s.committed), s.worlds[j], d.attempt.sc);
      moves, s' := RunAlone(steps, s0, a, j, d.attempt.id, d.attempt.sc);
      RunKeepsRest(steps, s, j, d.attempt.id, d.attempt.sc);
      if o.call == Returned(None) {
        var last, s'' := Closes(steps, s0, s', a, j, TakesEffect(d.commit), o);
        MakesMore(steps, s0, a, moves, s', [last], s'');
        moves, s' := moves + [last], s'';
      }
    } else {
      s' := GivesUp(steps, s0, a, j);
      moves := [Abort];
    }
    assert s'.held == s.held by { SameRows(s.held, s'.held, j); }
  }

  /** The transaction's end. */
  lemma Closes(steps: seq<Step>, s: System, s': System, a: nat, j: int, commits: bool, o: Outcome) returns (last: Move, s'': System)
    requires EndsAs(s, s', a, j, o) && o.call == Returned(None) && j !in s.held && s'.trials[a].job == j
    requires o.db == Table(s.committed)[j := o.db[j]]
    ensures Makes(steps, s', a, [last], s'')
    ensures Table(s''.committed) == if commits then o.db else Table(s.committed)
    ensures s''.held == s'.held - {j} && s''.worlds == s'.worlds && s''.queue == s.queue && s''.trials == s.trials[a := Trial(j, Ended)]
  {
    hide Decode;
    last := if commits then Commit else Abort;
    MakesOne(steps, s', a, last);
    s'' := Moved(steps, s', a, last);
    if commits { CommitsRow(s, s', j); }
  }

  lemma SameRows(a: map<int, Held>, b: map<int, Held>, j: int)
    requires a - {j} == b - {j} && j !in a && j !in b
    ensures a == b
  {
    assert a - {j} == a && b - {j} == b;
  }

  lemma CommitsRow(s: System, s': System, j: int)
    requires j in s'.held && s'.committed == s.committed && s'.held - {j} == s.held - {j} && j !in s.held
    ensures Table(s'.committed[j := s'.held[j].row]) == Table(s.committed)[j := Decode(s'.held[j].row)]
  {
  }
}
