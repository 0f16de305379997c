/** One call with nobody in its way: the interleaved calls of TokenCache can always reproduce what
    the client's Do does, so what holds in every interleaving holds for Do. */
module SoloCall {
  import opened Wrappers
  import opened Errors
  import Retry
  import opened VcdClient
  import opened TokenCache

  /** These actions, one after another, lead from s to s'. */
  ghost predicate Leads(s: System, actions: seq<Action>, s': System)
    decreases |actions|
  {
    if actions == [] then s == s'
    else Enabled(s, actions[0]) && Leads(Apply(s, actions[0]), actions[1..], s')
  }

  lemma LeadsFirst(s: System, action: Action, more: seq<Action>, s': System)
    requires Enabled(s, action) && Leads(Apply(s, action), more, s')
    ensures Leads(s, [action] + more, s')
  {
    assert ([action] + more)[1..] == more;
  }

  lemma {:induction false} LeadsFurther(s: System, actions: seq<Action>, s1: System, more: seq<Action>, s2: System)
    requires Leads(s, actions, s1) && Leads(s1, more, s2)
    ensures Leads(s, actions + more, s2)
    decreases |actions|
  {
    hide Enabled, Apply;
    if actions == [] {
      assert actions + more == more;
    } else {
      LeadsFurther(Apply(s, actions[0]), actions[1..], s1, more, s2);
      assert (actions + more)[1..] == actions[1..] + more;
    }
  }

  /** Call t is about to start an attempt, and nobody is logging in. */
  ghost predicate AtRest(s: System, t: nat) {
    t < |s.calls| && s.calls[t].pc.Ready? && s.mutex.None?
  }

  /** Call t has got a token: from the cache, or by logging in. */
  lemma TokenAlone(s: System, t: nat, auth: AuthReply) returns (actions: seq<Action>, s': System)
    requires AtRest(s, t)
    ensures Leads(s, actions, s') && s'.mutex.None? && s'.epoch == s.epoch
    ensures var c := s.calls[t].(logins := s.calls[t].logins + if s.cache.text == "" then 1 else 0);
            match if s.cache.text != "" then Ok(s.cache.text) else AuthOutcome(auth)
            case Err(e) => s'.cache == s.cache && s'.calls == s.calls[t := FailedWith(c, TokenFailure(e))]
            case Ok(text) =>
              s'.cache.text == text && s'.cache.issued <= (if s.cache.text != "" then s.cache.issued else s.epoch)
              && s'.calls == s.calls[t := c.(pc := HasToken(s'.cache))]
  {
    if s.cache.text != "" {
      s' := Apply(s, Moves(t, TakeCached));
      actions := [];
      LeadsFirst(s, Moves(t, TakeCached), actions, s');
      actions := [Moves(t, TakeCached)] + actions;
    } else {
      var s1 := Apply(s, Moves(t, StartLogin));
      var s2 := Apply(s1, Moves(t, AnswerLogin(auth)));
      s' := Apply(s2, Moves(t, FinishLogin));
      LeadsFirst(s2, Moves(t, FinishLogin), [], s');
      LeadsFirst(s1, Moves(t, AnswerLogin(auth)), [Moves(t, FinishLogin)] + [], s');
      actions := [Moves(t, AnswerLogin(auth))] + ([Moves(t, FinishLogin)] + []);
      LeadsFirst(s, Moves(t, StartLogin), actions, s');
      actions := [Moves(t, StartLogin)] + actions;
    }
  }

  /** The request with that token is answered. */
  lemma ReplyAlone(s: System, t: nat, reply: Reply) returns (actions: seq<Action>, s': System)
    requires t < |s.calls| && s.calls[t].pc.HasToken? && s.mutex.None? && s.cache == s.calls[t].pc.token
    requires s.cache.issued <= s.epoch
    ensures Leads(s, actions, s') && s'.mutex.None? && s'.epoch >= s.epoch && |s'.calls| == |s.calls|
    ensures s'.cache == if IsUnauthorized(reply) then NO_TOKEN else s.cache
    ensures Results(s.calls[t], s'.calls[t], Judge(s.calls[t].q, reply))
    ensures s'.calls[t].logins == s.calls[t].logins
    ensures s'.calls[t].requests == s.calls[t].requests + if WasSent(reply) then 1 else 0
  {
    if IsUnauthorized(reply) {
      var s1 := Apply(s, Moves(t, Reject));
      s' := Apply(s1, Moves(t, Clear));
      LeadsFirst(s1, Moves(t, Clear), [], s');
      LeadsFirst(s, Moves(t, Reject), [Moves(t, Clear)] + [], s');
      actions := [Moves(t, Reject)] + ([Moves(t, Clear)] + []);
    } else {
      s' := Apply(s, Moves(t, Answer(reply)));
      LeadsFirst(s, Moves(t, Answer(reply)), [], s');
      actions := [Moves(t, Answer(reply))] + [];
    }
  }

  /** An attempt of call c that ended in `err` leaves it as c'. */
  ghost predicate Results(c: Call, c': Call, err: Option<Error>) {
    && c'.q == c.q && c'.cancel == c.cancel && c'.outcomes == c.outcomes + [err]
    && c'.pc == match err
                case None => Finished(None)
                case Some(e) => Attempted(e)
  }

  lemma AttemptAlone(s: System, t: nat, auth: AuthReply, reply: Reply) returns (actions: seq<Action>, s': System)
    requires AtRest(s, t) && s.cache.issued <= s.epoch
    ensures Leads(s, actions, s') && s'.mutex.None? && s'.cache.issued <= s'.epoch && |s'.calls| == |s.calls|
    ensures var c, c', a := s.calls[t], s'.calls[t], OneAttempt(s.calls[t].q, s.cache.text, auth, reply);
            && Results(c, c', a.err) && s'.cache.text == a.token
            && c'.logins == c.logins + (if a.authenticated then 1 else 0)
            && c'.requests == c.requests + (if a.sent then 1 else 0)
  {
    hide Judge, AuthOutcome, IsUnauthorized, WasSent, Leads;
    actions, s' := TokenAlone(s, t, auth);
    if s'.calls[t].pc.HasToken? {
      var more, s'' := ReplyAlone(s', t, reply);
      LeadsFurther(s, actions, s', more, s'');
      actions, s' := actions + more, s'';
    }
  }

  /** The call is in front of its attempt number |outcomes|, as Do is with the same answers. */
  ghost predicate InStep(s: System, t: nat, q: Request, token: string, env: Env, outcomes: seq<Option<Error>>) {
    && AtRest(s, t) && s.cache.issued <= s.epoch
    && var c, k := s.calls[t], |outcomes|;
       && c.q == q && c.cancel.None? && c.outcomes == outcomes
       && s.cache.text == TokenBefore(q, token, env, k)
       && c.requests == Sent(q, token, env, k) && c.logins == Authentications(q, token, env, k)
  }

  /** The call has finished as Do does. */
  ghost predicate FinishedAs(s: System, t: nat, q: Request, token: string, env: Env,
                             outcomes: seq<Option<Error>>, cancel: Option<Error>, err: Option<Error>) {
    && t < |s.calls| && s.mutex.None?
    && var c, k := s.calls[t], |outcomes|;
       && c.pc == Finished(err) && c.outcomes == outcomes && c.cancel == cancel
       && s.cache.text == TokenBefore(q, token, env, k)
       && c.requests == Sent(q, token, env, k) && c.logins == Authentications(q, token, env, k)
  }

  lemma {:induction false} RestAlone(s: System, t: nat, q: Request, token: string, env: Env, k: nat,
                                     outcomes: seq<Option<Error>>, cancel: Option<Error>, err: Option<Error>)
    returns (actions: seq<Action>, s': System)
    requires k < |outcomes| && InStep(s, t, q, token, env, outcomes[..k])
    requires Retry.ValidRun(MAX_ATTEMPTS, outcomes, cancel, err)
    requires forall i: nat :: i < |outcomes| ==> outcomes[i] == NthAttempt(q, token, env, i).err
    ensures Leads(s, actions, s') && FinishedAs(s', t, q, token, env, outcomes, cancel, err)
    decreases |outcomes| - k
  {
    hide OneAttempt, Leads;
    actions, s' := AttemptAlone(s, t, env.auths(k), env.replies(k));
    assert outcomes[..k] + [outcomes[k]] == outcomes[..k + 1];
    assert outcomes[..|outcomes|] == outcomes;
    if outcomes[k].Some? {
      var wait := Moves(t, Wait(if k == |outcomes| - 1 then cancel else None));
      var s1 := Apply(s', wait);
      var more, s'' := [], s1;
      if k < |outcomes| - 1 {
        more, s'' := RestAlone(s1, t, q, token, env, k + 1, outcomes, cancel, err);
      } else {
        LeadsNowhere(s1);
      }
      LeadsFirst(s', wait, more, s'');
      LeadsFurther(s, actions, s', [wait] + more, s'');
      actions, s' := actions + ([wait] + more), s'';
    }
  }

  lemma LeadsNowhere(s: System)
    ensures Leads(s, [], s)
  {
  }

  /** Whatever Do does with the answers in `env`, a new call can do by actions of its own, in any
      state that an interleaving can reach while nobody logs in: the same results, the same token
      left in the cache, as many requests and as many logins. */
  lemma DoIsAnInterleaving(s: System, q: Request, env: Env, outcomes: seq<Option<Error>>, cancel: Option<Error>, err: Option<Error>)
    returns (actions: seq<Action>, s': System)
    requires Inv(s) && s.mutex.None?
    requires Retry.ValidRun(MAX_ATTEMPTS, outcomes, cancel, err)
    requires Retry.AnsweredBy((k: nat) => NthAttempt(q, s.cache.text, env, k).err, env.done, outcomes, cancel)
    ensures Leads(s, actions, s') && FinishedAs(s', |s.calls|, q, s.cache.text, env, outcomes, cancel, err)
  {
    hide NthAttempt, Leads;
    var t, s1 := |s.calls|, Apply(s, NewCall(q));
    assert outcomes[..0] == [];
    actions, s' := RestAlone(s1, t, q, s.cache.text, env, 0, outcomes, cancel, err);
    LeadsFirst(s, NewCall(q), actions, s');
    actions := [NewCall(q)] + actions;
  }
}
