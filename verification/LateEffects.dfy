/** The one way a committed job's external world can end up unfinished: an attempt whose
    transaction the database has dropped, and whose step is still acting. */
module LateEffects {
  import opened Wrappers
  import opened Records
  import opened Steps
  import opened Runner
  import opened Attempts
  import opened Schedules

  /** A single step that sets one external item. */
  const NETWORK := Step("network_config", {}, {"network"}, (d: Data) => map[], (d: Data) => map["network" := "ready"])

  const ORDER := Job(1, "onboard_org", "167", Some(map[]))

  lemma NetworkMeetsContract()
    ensures Contract([NETWORK])
  {
    assert KeysFrom([NETWORK], 1) == {};
    assert StepContract([NETWORK], 0);
  }

  /** A schedule up to now; `last` is the state it has reached. */
  ghost predicate Reaches(states: seq<System>, actions: seq<Action>, last: System) {
    Follows([NETWORK], states, actions) && states[|states| - 1] == last
  }

  lemma Then(states: seq<System>, actions: seq<Action>, last: System, action: Action)
    returns (states': seq<System>, actions': seq<Action>)
    requires Reaches(states, actions, last) && Enabled([NETWORK], last, action)
    ensures Reaches(states', actions', Apply([NETWORK], last, action))
  {
    states', actions' := states + [Apply([NETWORK], last, action)], actions + [action];
  }

  function Queued(held: map<int, Held>, committed: map<int, Row>, world: World, trials: seq<Trial>): System {
    System(map[1 := ORDER], committed, held, trials, map[1 := world], map[1 := map[]], map[1 := map[]])
  }

  const FRESH := NewState(ORDER)
  const MARKED := MarkedRunning(FRESH.(id := "r"))
  const INSERTED := InsertedRow(FRESH, "r", 0)

  /** The first attempt gets to its step, and its transaction is dropped there. */
  lemma FirstAttemptIsDetached() returns (states: seq<System>, actions: seq<Action>)
    ensures Reaches(states, actions, Queued(map[], map[], map[], [Trial(1, Detached(MARKED, 0))]))
  {
    states, actions := [EMPTY], [];
    states, actions := Then(states, actions, EMPTY, Enqueue(ORDER, map[]));
    var s := Queued(map[], map[], map[], []);
    states, actions := Then(states, actions, s, Begin(1));
    s := Queued(map[], map[], map[], [Trial(1, Begun)]);
    states, actions := Then(states, actions, s, Moves(0, Load));
    s := Queued(map[], map[], map[], [Trial(1, Inserting(FRESH))]);
    states, actions := Then(states, actions, s, Moves(0, Insert("r", 0)));
    s := Queued(map[1 := Held(0, INSERTED)], map[], map[], [Trial(1, Marking(MARKED))]);
    states, actions := Then(states, actions, s, Moves(0, Mark(0)));
    s := Queued(map[1 := Held(0, UpdatedRow(INSERTED, MARKED, 0))], map[], map[], [Trial(1, Looping(MARKED, 0))]);
    states, actions := Then(states, actions, s, Moves(0, Detach));
    assert Apply([NETWORK], s, Moves(0, Detach)) == Queued(map[], map[], map[], [Trial(1, Detached(MARKED, 0))]);
  }

  const SAVED := MARKED.(currentStep := 1)
  const DONE_ROW := UpdatedRow(INSERTED, MarkedCompleted(SAVED), 0)

  function Beside(pc: Pc): seq<Trial> {
    [Trial(1, Detached(MARKED, 0)), Trial(1, pc)]
  }

  /** A second attempt inserts the row again ... */
  lemma SecondAttemptInserts() returns (states: seq<System>, actions: seq<Action>)
    ensures Reaches(states, actions, Queued(map[1 := Held(1, INSERTED)], map[], map[], Beside(Marking(MARKED))))
  {
    states, actions := FirstAttemptIsDetached();
    var s := Queued(map[], map[], map[], [Trial(1, Detached(MARKED, 0))]);
    states, actions := Then(states, actions, s, Begin(1));
    s := Queued(map[], map[], map[], Beside(Begun));
    states, actions := Then(states, actions, s, Moves(1, Load));
    s := Queued(map[], map[], map[], Beside(Inserting(FRESH)));
    states, actions := Then(states, actions, s, Moves(1, Insert("r", 0)));
    assert Apply([NETWORK], s, Moves(1, Insert("r", 0)))
        == Queued(map[1 := Held(1, INSERTED)], map[], map[], Beside(Marking(MARKED)));
  }

  /** ... and executes the step. */
  lemma SecondAttemptRuns() returns (states: seq<System>, actions: seq<Action>)
    ensures Reaches(states, actions,
                    Queued(map[1 := Held(1, UpdatedRow(INSERTED, MARKED, 0))], map[], map["network" := "ready"],
                           Beside(Saving(SAVED, 0))))
  {
    states, actions := SecondAttemptInserts();
    var s := Queued(map[1 := Held(1, INSERTED)], map[], map[], Beside(Marking(MARKED)));
    states, actions := Then(states, actions, s, Moves(1, Mark(0)));
    s := Queued(map[1 := Held(1, UpdatedRow(INSERTED, MARKED, 0))], map[], map[], Beside(Looping(MARKED, 0)));
    states, actions := Then(states, actions, s, Moves(1, RunStep(Succeeds)));
    assert Advanced(MARKED, NETWORK, 0) == SAVED;
    assert FinishedWorld(NETWORK, MARKED.data, map[]) == map["network" := "ready"];
    assert s.trials[1 := Trial(1, Saving(SAVED, 0))] == Beside(Saving(SAVED, 0));
    assert Apply([NETWORK], s, Moves(1, RunStep(Succeeds)))
        == Queued(s.held, map[], map["network" := "ready"], Beside(Saving(SAVED, 0)));
  }

  lemma SecondAttemptSaves() returns (states: seq<System>, actions: seq<Action>)
    ensures Reaches(states, actions,
                    Queued(map[1 := Held(1, UpdatedRow(INSERTED, SAVED, 0))], map[], map["network" := "ready"],
                           Beside(Looping(SAVED, 1))))
  {
    states, actions := SecondAttemptRuns();
    var s := Queued(map[1 := Held(1, UpdatedRow(INSERTED, MARKED, 0))], map[], map["network" := "ready"], Beside(Saving(SAVED, 0)));
    states, actions := Then(states, actions, s, Moves(1, Save(0)));
    assert Apply([NETWORK], s, Moves(1, Save(0)))
        == Queued(map[1 := Held(1, UpdatedRow(INSERTED, SAVED, 0))], map[], map["network" := "ready"], Beside(Looping(SAVED, 1)));
  }

  lemma SecondAttemptCommits() returns (states: seq<System>, actions: seq<Action>)
    ensures Reaches(states, actions, Queued(map[], map[1 := DONE_ROW], map["network" := "ready"], Beside(Ended)))
  {
    states, actions := SecondAttemptSaves();
    var world := map["network" := "ready"];
    var s := Queued(map[1 := Held(1, UpdatedRow(INSERTED, SAVED, 0))], map[], world, Beside(Looping(SAVED, 1)));
    states, actions := Then(states, actions, s, Moves(1, Leave));
    s := Queued(map[1 := Held(1, UpdatedRow(INSERTED, SAVED, 0))], map[], world, Beside(Completing(MarkedCompleted(SAVED))));
    states, actions := Then(states, actions, s, Moves(1, Complete(0)));
    s := Queued(map[1 := Held(1, DONE_ROW)], map[], world, Beside(Committing(MarkedCompleted(SAVED))));
    states, actions := Then(states, actions, s, Moves(1, Commit));
    assert Apply([NETWORK], s, Moves(1, Commit)) == Queued(map[], map[1 := DONE_ROW], world, Beside(Ended));
  }

  /** The condition of Schedules.CommittedWorldIsClean can fail: here a detached attempt undoes its
      step after the job was committed. */
  lemma DetachedAttemptCanSpoilTheWorld() returns (states: seq<System>, actions: seq<Action>)
    ensures Contract([NETWORK]) && Follows([NETWORK], states, actions)
    ensures var s := states[|states| - 1];
            && 1 in s.committed && s.queue == map[1 := ORDER]
            && 1 in s.worlds && 1 in s.starts
            && s.worlds[1] != CleanWorld([NETWORK], Contents(ORDER.initial), s.starts[1], 1)
  {
    NetworkMeetsContract();
    states, actions := SecondAttemptCommits();
    var s := Queued(map[], map[1 := DONE_ROW], map["network" := "ready"], Beside(Ended));
    states, actions := Then(states, actions, s, Moves(0, LateEffect(map[])));
    assert "network" in CleanWorld([NETWORK], map[], map[], 1);
    assert "network" !in Apply([NETWORK], s, Moves(0, LateEffect(map[]))).worlds[1];
  }
}
