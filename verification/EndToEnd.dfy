/** Requests, jobs and attempts together: where every workflow row comes from
    (internal/httpapi/handle_onboard_org.go with internal/jobs/onboard_org.go). Jobs enter the queue
    only through the handler, and every commit outcome is reported truthfully. */
module EndToEnd {
  import opened Wrappers
  import opened Records
  import opened Steps
  import R = Runner
  import A = Attempts
  import opened Onboarding

  /** The job that Work makes of the queued arguments. */
  function JobOf(jobID: int, args: Args): R.Job {
    R.Job(jobID, "onboard_org", args.clientID, Some(ArgsToData(args)))
  }

  datatype Exchange = Exchange(body: Body, response: Response)

  /** The queue and the attempts, the id the next job gets, and every request answered so far. */
  datatype Backend = Backend(sys: A.System, nextID: int, exchanges: seq<Exchange>)

  datatype Event =
    | Http(body: Body, env: Env, world: World)
    | Worker(action: A.Action)

  /** The next job id is always new (see Inv); a commit that took effect and was reported as failed
      is left out. */
  ghost predicate Possible(steps: seq<Step>, s: Backend, e: Event) {
    match e
    case Http(_, env, _) => !env.commit.CommitUnreported? && s.nextID !in s.sys.queue
    case Worker(action) => !action.Enqueue? && A.Enabled(steps, s.sys, action)
  }

  ghost function After(steps: seq<Step>, s: Backend, e: Event): Backend
    requires Possible(steps, s, e)
  {
    match e
    case Http(body, env, world) =>
      var answer := ResponseTo(s.nextID, body, env);
      var log := s.exchanges + [Exchange(body, answer)];
      if answer.Accepted? then
        Backend(A.Apply(steps, s.sys, A.Enqueue(JobOf(s.nextID, ArgsOf(DecodeValid(body).r)), world)), s.nextID + 1, log)
      else
        s.(nextID := s.nextID + (if ReachesCommit(body, env) then 1 else 0), exchanges := log)
    case Worker(action) => s.(sys := A.Apply(steps, s.sys, action))
  }

  ghost predicate Run(steps: seq<Step>, states: seq<Backend>, events: seq<Event>) {
    && |states| == |events| + 1 && states[0] == Backend(A.EMPTY, 1, [])
    && forall k :: 0 <= k < |events| ==> Possible(steps, states[k], events[k]) && states[k + 1] == After(steps, states[k], events[k])
  }

  // ---------- Requests and jobs ----------

  /** The k-th request was answered 202 with job j. */
  ghost predicate Source(s: Backend, k: int, j: int) {
    0 <= k < |s.exchanges| && s.exchanges[k].response == Accepted(j)
  }

  ghost predicate GoodSource(s: Backend, k: int, j: int)
    requires 0 <= k < |s.exchanges|
  {
    && j < s.nextID && j in s.sys.queue && DecodeValid(s.exchanges[k].body).Valid?
    && s.sys.queue[j] == JobOf(j, ArgsOf(DecodeValid(s.exchanges[k].body).r))
  }

  ghost predicate Inv(steps: seq<Step>, s: Backend) {
    && A.Inv(steps, s.sys)
    && (forall j :: j in s.sys.queue ==> j < s.nextID && exists k :: Source(s, k, j))
    && (forall k, j :: Source(s, k, j) ==> GoodSource(s, k, j))
    && (forall k, l, j :: Source(s, k, j) && Source(s, l, j) ==> k == l)
  }

  lemma WorkerKeepsQueue(steps: seq<Step>, sys: A.System, action: A.Action)
    requires A.Enabled(steps, sys, action) && !action.Enqueue?
    ensures A.Apply(steps, sys, action).queue == sys.queue
  {
    hide A.CanMove, A.Moved;
    if action.Moves? { A.MovesKeepQueueAndRows(steps, sys, action.a, action.move); }
  }

  lemma EventKeepsInv(steps: seq<Step>, s: Backend, e: Event)
    requires Contract(steps) && Inv(steps, s) && Possible(steps, s, e)
    ensures Inv(steps, After(steps, s, e))
  {
    var s' := After(steps, s, e);
    match e
    case Worker(action) =>
      WorkerKeepsQueue(steps, s.sys, action);
      A.ActionKeepsInv(steps, s.sys, action);
      forall j | j in s'.sys.queue ensures exists k :: Source(s', k, j) {
        var k :| Source(s, k, j);
        assert Source(s', k, j);
      }
      forall k, j | Source(s', k, j) ensures GoodSource(s', k, j) { assert Source(s, k, j); }
      forall k, l, j | Source(s', k, j) && Source(s', l, j) ensures k == l {
        assert Source(s, k, j) && Source(s, l, j);
      }
    case Http(body, env, world) =>
      RequestKeepsInv(steps, s, body, env, world);
  }

  lemma AcceptedMeans(nextID: int, body: Body, env: Env)
    ensures var r := ResponseTo(nextID, body, env);
            r.Accepted? ==> r.jobID == nextID && DecodeValid(body).Valid? && env.commit.CommitOk?
  {
    hide DecodeValid;
  }

  lemma JobOfKeepsID(jobID: int, args: Args)
    ensures JobOf(jobID, args).jobID == jobID
  {
  }

  lemma RequestKeepsInv(steps: seq<Step>, s: Backend, body: Body, env: Env, world: World)
    requires Contract(steps) && Inv(steps, s) && Possible(steps, s, Http(body, env, world))
    ensures Inv(steps, After(steps, s, Http(body, env, world)))
  {
    AcceptedMeans(s.nextID, body, env);
    hide A.Inv, Contract, A.Apply, JobOf, ResponseTo, DecodeValid;
    var s' := After(steps, s, Http(body, env, world));
    var answer, n := ResponseTo(s.nextID, body, env), |s.exchanges|;
    if answer.Accepted? {
      var enqueue := A.Enqueue(JobOf(s.nextID, ArgsOf(DecodeValid(body).r)), world);
      JobOfKeepsID(s.nextID, ArgsOf(DecodeValid(body).r));
      A.ActionKeepsInv(steps, s.sys, enqueue);
      EnqueueAdds(steps, s.sys, enqueue.job, world);
    }
    forall k, j | Source(s', k, j) ensures GoodSource(s', k, j) && (k < n ==> Source(s, k, j)) {
      if k < n { assert Source(s, k, j); }
    }
    forall j | j in s'.sys.queue ensures j < s'.nextID && exists k :: Source(s', k, j) {
      if j in s.sys.queue {
        var k :| Source(s, k, j);
        assert Source(s', k, j);
      } else {
        assert Source(s', n, j);
      }
    }
    forall k, l, j | Source(s', k, j) && Source(s', l, j) ensures k == l {
      assert k < n ==> Source(s, k, j);
      assert l < n ==> Source(s, l, j);
    }
  }

  lemma EnqueueAdds(steps: seq<Step>, sys: A.System, job: R.Job, world: World)
    requires job.jobID !in sys.queue
    ensures A.Apply(steps, sys, A.Enqueue(job, world)).queue == sys.queue[job.jobID := job]
  {
  }

  lemma {:induction false} EveryStateIsGood(steps: seq<Step>, states: seq<Backend>, events: seq<Event>, i: nat)
    requires Contract(steps) && Run(steps, states, events) && i < |states|
    ensures Inv(steps, states[i])
  {
    if i > 0 {
      EveryStateIsGood(steps, states, events, i - 1);
      EventKeepsInv(steps, states[i - 1], events[i - 1]);
    }
  }

  // ---------- Where rows come from ----------

  /** A payload key that no step owns, in the data of a failure-free run of an accepted request. */
  lemma PayloadIsKept(steps: seq<Step>, fields: Data, key: string)
    requires Contract(steps) && Decodes(fields) && key in PAYLOAD_KEYS && key !in KeysFrom(steps, 0)
    ensures var data := CleanData(steps, ArgsToData(ArgsOf(DecodeRequest(fields))), |steps|);
            && key in data
            && (key in STRING_KEYS ==> data[key] == JString(Str(fields, key)))
            && (key in INT_KEYS ==> data[key] == JInt(Int(fields, key)))
  {
    PayloadReachesTheData(fields);
    PayloadSurvives(steps, ArgsToData(ArgsOf(DecodeRequest(fields))), |steps|, key);
  }

  /** A valid request was an object that decodes, and names a client. */
  lemma ValidRequestsAreObjects(body: Body)
    requires DecodeValid(body).Valid?
    ensures body.Object? && Decodes(body.fields) && DecodeValid(body).r == DecodeRequest(body.fields)
    ensures Str(body.fields, "crm_id") == DecodeValid(body).r.clientID != ""
  {
    ValidationMeaning(DecodeValid(body).r);
  }

  /** In every reachable state every committed row comes from exactly one request, which was
      answered 202 with the row's job id and whose body was a valid object; the row's client id is
      the request's crm_id, and every payload key that no step owns still holds what the request
      said. */
  lemma EveryRowComesFromOneRequest(steps: seq<Step>, states: seq<Backend>, events: seq<Event>, i: nat, j: int)
    returns (k: nat)
    requires Contract(steps) && Run(steps, states, events) && i < |states| && j in states[i].sys.committed
    ensures Source(states[i], k, j) && forall l :: Source(states[i], l, j) ==> l == k
    ensures var row, body := states[i].sys.committed[j], states[i].exchanges[k].body;
            && row.workflowType == "onboard_org" && row.status == Completed && row.currentStep == |steps|
            && body.Object? && Decodes(body.fields)
            && row.clientID == Str(body.fields, "crm_id") != ""
            && row.data.Some?
            && forall key :: key in PAYLOAD_KEYS && key !in KeysFrom(steps, 0) ==>
                 && key in row.data.value
                 && (key in STRING_KEYS ==> row.data.value[key] == JString(Str(body.fields, key)))
                 && (key in INT_KEYS ==> row.data.value[key] == JInt(Int(body.fields, key)))
  {
    hide Contract, DecodeValid, DecodeRequest, Decodes, StringField, IntField, CleanData, ArgsToData;
    var s := states[i];
    EveryStateIsGood(steps, states, events, i);
    assert A.GoodCommitted(steps, s.sys, j);
    k :| Source(s, k, j);
    assert GoodSource(s, k, j);
    var body := s.exchanges[k].body;
    ValidRequestsAreObjects(body);
    forall key | key in PAYLOAD_KEYS && key !in KeysFrom(steps, 0)
      ensures var data := CleanData(steps, ArgsToData(ArgsOf(DecodeRequest(body.fields))), |steps|);
              && key in data
              && (key in STRING_KEYS ==> data[key] == JString(Str(body.fields, key)))
              && (key in INT_KEYS ==> data[key] == JInt(Int(body.fields, key)))
    {
      PayloadIsKept(steps, body.fields, key);
    }
  }

  /** A request that is accepted (a complete object, nothing failing on the way) adds one job, new and
      made of its own fields, and keeps all others; every other event leaves the queue as it was. An id
      that was given to a job is not given again, even if the job's commit failed. */
  lemma OnlyAcceptedRequestsEnqueue(steps: seq<Step>, states: seq<Backend>, events: seq<Event>, i: nat)
    requires Contract(steps) && Run(steps, states, events) && i < |events|
    ensures var s, s', e := states[i], states[i + 1], events[i];
            && (if e.Http? && Accepts(e.body) && Clear(e.env) && e.env.commit.CommitOk?
                then && s.nextID !in s.sys.queue && Decodes(e.body.fields)
                     && s'.sys.queue == s.sys.queue[s.nextID := JobOf(s.nextID, ArgsOf(DecodeRequest(e.body.fields)))]
                else s'.sys.queue == s.sys.queue)
            && s'.nextID == s.nextID + if e.Http? && Accepts(e.body) && Clear(e.env) then 1 else 0
  {
    hide DecodeValid, JobOf, ArgsOf, DecodeRequest, Decodes, Accepts, Clear;
    var s, e := states[i], events[i];
    assert Possible(steps, s, e) && states[i + 1] == After(steps, s, e);
    if e.Worker? {
      WorkerKeepsQueue(steps, s.sys, e.action);
    } else {
      StatusMeaning(s.nextID, e.body, e.env);
      DecodeValidMeaning(e.body);
      if ResponseTo(s.nextID, e.body, e.env).Accepted? {
        var args := ArgsOf(DecodeValid(e.body).r);
        JobOfKeepsID(s.nextID, args);
        EnqueueAdds(steps, s.sys, JobOf(s.nextID, args), e.world);
      }
    }
  }
}
