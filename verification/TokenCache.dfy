/** Concurrent calls of one VCD client (internal/clients/vcd/client.go): any number of goroutines
    share the cached token under the mutex, and the server's tokens expire. The mutex is held
    across a whole authentication, and briefly to read or clear the cache. Every expiry starts a
    new epoch; the server may answer 401 at any time, and a 401 is due to an expiry when the token
    was issued in an earlier epoch. */
module TokenCache {
  import opened Wrappers
  import opened Errors
  import Retry
  import opened VcdClient

  /** A token and the epoch in which the server issued it; the empty text means no token. */
  datatype Token = Token(text: string, issued: nat)

  const NO_TOKEN := Token("", 0)

  /** Where a call stands inside its current attempt. */
  datatype Pc =
    | Ready                                  // getToken comes next
    | AuthSent                               // holds the mutex, the login request is out
    | AuthReceived(auth: AuthReply, issued: nat) // holds the mutex, the login has been answered
    | HasToken(token: Token)                 // the request with this token is out
    | Rejected(token: Token, epoch: nat)     // got 401, clearToken comes next
    | Attempted(err: Error)                  // the attempt failed, the retry loop decides
    | Finished(result: Option<Error>)

  /** One call of do. `outcomes` are the results of its attempts so far, `cancel` the context error
      that ended a wait, `last` the answer to the request of its current or last attempt, and `floor`
      the epoch of the last 401 it has cleared the token for. */
  datatype Call = Call(
    q: Request, pc: Pc, outcomes: seq<Option<Error>>, cancel: Option<Error>,
    last: Option<Reply>, requests: nat, logins: nat, floor: nat)

  datatype System = System(
    epoch: nat, cache: Token, mutex: Option<nat>, calls: seq<Call>)

  datatype Move =
    | TakeCached
    | StartLogin
    | AnswerLogin(auth: AuthReply)
    | FinishLogin
    | Reject
    | Answer(reply: Reply)
    | Clear
    | Wait(cancel: Option<Error>)

  datatype Action = Expire | NewCall(q: Request) | Moves(t: nat, move: Move)

  function At(s: System, t: nat, c: Call): System
    requires t < |s.calls|
  {
    s.(calls := s.calls[t := c])
  }

  /** The attempt returned an error to the retry loop. */
  function FailedWith(c: Call, e: Error): Call {
    c.(pc := Attempted(e), outcomes := c.outcomes + [Some(e)])
  }

  predicate CanMove(s: System, t: nat, move: Move)
    requires t < |s.calls|
  {
    var pc := s.calls[t].pc;
    match move
    case TakeCached => pc.Ready? && s.mutex.None? && s.cache.text != ""
    case StartLogin => pc.Ready? && s.mutex.None? && s.cache.text == ""
    case AnswerLogin(_) => pc.AuthSent?
    case FinishLogin => pc.AuthReceived?
    case Reject => pc.HasToken?
    case Answer(reply) => pc.HasToken? && !IsUnauthorized(reply)
    case Clear => pc.Rejected? && s.mutex.None?
    case Wait(_) => pc.Attempted?
  }

  function Moved(s: System, t: nat, move: Move): System
    requires t < |s.calls| && CanMove(s, t, move)
  {
    var c := s.calls[t];
    match move
    case TakeCached => At(s, t, c.(pc := HasToken(s.cache)))
    case StartLogin => At(s.(mutex := Some(t)), t, c.(pc := AuthSent, logins := c.logins + 1))
    case AnswerLogin(reply) => At(s, t, c.(pc := AuthReceived(reply, s.epoch)))
    case FinishLogin =>
      (match AuthOutcome(c.pc.auth)
       case Err(e) => At(s.(mutex := None), t, FailedWith(c, TokenFailure(e)))
       case Ok(text) =>
         var token := Token(text, c.pc.issued);
         At(s.(mutex := None, cache := token), t, c.(pc := HasToken(token))))
    case Reject => At(s, t, c.(pc := Rejected(c.pc.token, s.epoch), requests := c.requests + 1))
    case Answer(reply) =>
      var c' := c.(last := Some(reply), requests := c.requests + if WasSent(reply) then 1 else 0);
      (match Judge(c.q, reply)
       case Some(e) => At(s, t, FailedWith(c', e))
       case None => At(s, t, c'.(pc := Finished(None), outcomes := c.outcomes + [None])))
    case Clear =>
      At(s.(cache := NO_TOKEN), t, FailedWith(c.(floor := c.pc.epoch), Api(401, "", c.q.verb, c.q.path)))
    case Wait(cancel) =>
      if |c.outcomes| == MAX_ATTEMPTS then At(s, t, c.(pc := Finished(Some(c.pc.err))))
      else (match cancel
            case Some(ctxErr) =>
              At(s, t, c.(pc := Finished(Some(Retry.RetryCancelled(ctxErr, c.pc.err))), cancel := cancel))
            case None => At(s, t, c.(pc := Ready, last := None)))
  }

  predicate Enabled(s: System, action: Action) {
    action.Moves? ==> action.t < |s.calls| && CanMove(s, action.t, action.move)
  }

  function Apply(s: System, action: Action): System
    requires Enabled(s, action)
  {
    match action
    case Expire => s.(epoch := s.epoch + 1)
    case NewCall(q) => s.(calls := s.calls + [Call(q, Ready, [], None, None, 0, 0, 0)])
    case Moves(t, move) => Moved(s, t, move)
  }

  const START := System(0, NO_TOKEN, None, [])

  ghost predicate Follows(states: seq<System>, actions: seq<Action>) {
    && |states| == |actions| + 1 && states[0] == START
    && forall k :: 0 <= k < |actions| ==> Enabled(states[k], actions[k]) && states[k + 1] == Apply(states[k], actions[k])
  }

  // ---------- The invariant ----------

  predicate LoggingIn(pc: Pc) {
    pc.AuthSent? || pc.AuthReceived?
  }

  /** Results of attempts that were all followed by another one. */
  ghost predicate AllFailed(outcomes: seq<Option<Error>>) {
    forall k :: 0 <= k < |outcomes| ==> outcomes[k].Some?
  }

  /** The request of the call's last attempt went out and delivered. */
  predicate DeliveredLast(c: Call) {
    c.last.Some? && Delivered(c.q, c.last.value)
  }

  ghost predicate GoodProgress(c: Call) {
    var n := |c.outcomes|;
    && n <= MAX_ATTEMPTS && c.logins <= n + 1 && c.requests <= n + 1
    && (c.pc.Finished? || c.pc.Attempted? || c.last.None?)
    && match c.pc
       case Finished(err) => (err.None? <==> DeliveredLast(c)) && Retry.ValidRun(MAX_ATTEMPTS, c.outcomes, c.cancel, err) && c.logins <= n && c.requests <= n
       case Attempted(e) =>
         !DeliveredLast(c) && c.cancel.None? && AllFailed(c.outcomes) && n > 0 && c.outcomes[n - 1] == Some(e) && c.logins <= n && c.requests <= n
       case Ready => c.cancel.None? && AllFailed(c.outcomes) && n < MAX_ATTEMPTS && c.logins <= n && c.requests <= n
       case Rejected(_, _) => c.cancel.None? && AllFailed(c.outcomes) && n < MAX_ATTEMPTS
       case _ => c.cancel.None? && AllFailed(c.outcomes) && n < MAX_ATTEMPTS && c.requests <= n
  }

  ghost predicate GoodTokens(s: System, c: Call) {
    && c.floor <= s.epoch
    && match c.pc
       case HasToken(token) => token.text != "" && c.floor <= token.issued <= s.epoch
       case Rejected(token, epoch) => token.text != "" && c.floor <= token.issued <= epoch <= s.epoch
       case AuthReceived(_, issued) => issued <= s.epoch
       case _ => true
  }

  /** Every token that a call can still be given was issued no earlier than its floor. */
  ghost predicate GoodSupply(s: System, floor: nat) {
    && (s.cache.text != "" ==> floor <= s.cache.issued)
    && ((s.mutex.Some? && s.mutex.value < |s.calls| && s.calls[s.mutex.value].pc.AuthReceived?)
          ==> floor <= s.calls[s.mutex.value].pc.issued)
  }

  ghost predicate Inv(s: System) {
    && (forall t: nat :: t < |s.calls| ==> GoodProgress(s.calls[t]) && GoodTokens(s, s.calls[t]))
    && (forall t: nat :: t < |s.calls| ==> GoodSupply(s, s.calls[t].floor))
    && (forall t: nat :: t < |s.calls| ==> (LoggingIn(s.calls[t].pc) <==> s.mutex == Some(t)))
    && (s.mutex.Some? ==> s.mutex.value < |s.calls| && s.cache.text == "")
    && s.cache.issued <= s.epoch
  }

  lemma LoginMovesKeepInv(s: System, t: nat, move: Move)
    requires Inv(s) && t < |s.calls| && CanMove(s, t, move)
    requires move.StartLogin? || move.AnswerLogin? || move.FinishLogin?
    ensures Inv(Moved(s, t, move))
  {
    hide Retry.ValidRun, AuthOutcome, Delivered;
    var s' := Moved(s, t, move);
    forall u: nat | u < |s'.calls|
      ensures GoodProgress(s'.calls[u]) && GoodTokens(s', s'.calls[u]) && GoodSupply(s', s'.calls[u].floor)
      ensures LoggingIn(s'.calls[u].pc) <==> s'.mutex == Some(u)
    {
      assert GoodProgress(s.calls[u]) && GoodTokens(s, s.calls[u]) && GoodSupply(s, s.calls[u].floor);
    }
  }

  /** A call outside its login moves on without touching the cache. */
  lemma CallMovesOn(s: System, t: nat, c: Call)
    requires Inv(s) && t < |s.calls| && !LoggingIn(s.calls[t].pc) && !LoggingIn(c.pc)
    requires c.floor == s.calls[t].floor && GoodProgress(c) && GoodTokens(s, c)
    ensures Inv(At(s, t, c))
  {
    hide GoodProgress;
    var s' := At(s, t, c);
    forall u: nat | u < |s'.calls|
      ensures GoodProgress(s'.calls[u]) && GoodTokens(s', s'.calls[u]) && GoodSupply(s', s'.calls[u].floor)
    {
      assert GoodProgress(s.calls[u]) && GoodTokens(s, s.calls[u]) && GoodSupply(s, s.calls[u].floor);
    }
  }

  lemma InvOf(s: System, t: nat)
    requires Inv(s) && t < |s.calls|
    ensures GoodProgress(s.calls[t]) && GoodTokens(s, s.calls[t])
    ensures s.cache.issued <= s.epoch && (s.cache.text != "" ==> s.calls[t].floor <= s.cache.issued)
    ensures LoggingIn(s.calls[t].pc) <==> s.mutex == Some(t)
  {
    assert GoodSupply(s, s.calls[t].floor);
  }

  lemma RequestMovesKeepInv(s: System, t: nat, move: Move)
    requires Inv(s) && t < |s.calls| && CanMove(s, t, move)
    requires move.TakeCached? || move.Reject? || move.Answer? || move.Wait?
    ensures Inv(Moved(s, t, move))
  {
    hide Inv, GoodSupply;
    InvOf(s, t);
    JudgeSucceedsExactlyWhen(s.calls[t].q, if move.Answer? then move.reply else NotBuilt(RowNotFound));
    hide Judge, Delivered;
    CallMovesOn(s, t, Moved(s, t, move).calls[t]);
  }

  lemma ClearKeepsInv(s: System, t: nat)
    requires Inv(s) && t < |s.calls| && CanMove(s, t, Clear)
    ensures Inv(Moved(s, t, Clear))
  {
    hide Retry.ValidRun;
    var s' := Moved(s, t, Clear);
    forall u: nat | u < |s'.calls|
      ensures GoodProgress(s'.calls[u]) && GoodTokens(s', s'.calls[u]) && GoodSupply(s', s'.calls[u].floor)
      ensures LoggingIn(s'.calls[u].pc) <==> s'.mutex == Some(u)
    {
      assert GoodProgress(s.calls[u]) && GoodTokens(s, s.calls[u]) && GoodSupply(s, s.calls[u].floor);
    }
  }

  lemma ActionKeepsInv(s: System, action: Action)
    requires Inv(s) && Enabled(s, action)
    ensures Inv(Apply(s, action))
  {
    match action
    case Moves(t, move) =>
      hide Inv;
      if move.Clear? {
        ClearKeepsInv(s, t);
      } else if move.TakeCached? || move.Reject? || move.Answer? || move.Wait? {
        RequestMovesKeepInv(s, t, move);
      } else {
        LoginMovesKeepInv(s, t, move);
      }
    case _ =>
      var s' := Apply(s, action);
      forall u: nat | u < |s'.calls|
        ensures GoodProgress(s'.calls[u]) && GoodTokens(s', s'.calls[u]) && GoodSupply(s', s'.calls[u].floor)
        ensures LoggingIn(s'.calls[u].pc) <==> s'.mutex == Some(u)
      {
        if u < |s.calls| {
          assert GoodProgress(s.calls[u]) && GoodTokens(s, s.calls[u]) && GoodSupply(s, s.calls[u].floor);
        }
      }
  }

  lemma {:induction false} EveryStateIsGood(states: seq<System>, actions: seq<Action>, k: nat)
    requires Follows(states, actions) && k < |states|
    ensures Inv(states[k])
  {
    if k > 0 {
      EveryStateIsGood(states, actions, k - 1);
      ActionKeepsInv(states[k - 1], actions[k - 1]);
    }
  }

  // ---------- What holds in every interleaving ----------

  /** At most one authentication is in flight, and it is the mutex holder's. */
  lemma OneLoginAtATime(states: seq<System>, actions: seq<Action>, k: nat, t: nat, u: nat)
    requires Follows(states, actions) && k < |states|
    requires t < |states[k].calls| && LoggingIn(states[k].calls[t].pc)
    requires u < |states[k].calls| && LoggingIn(states[k].calls[u].pc)
    ensures t == u && states[k].mutex == Some(t) && states[k].cache.text == ""
  {
    EveryStateIsGood(states, actions, k);
  }

  /** No request goes out without a token. */
  lemma NoRequestWithoutToken(states: seq<System>, actions: seq<Action>, k: nat, t: nat)
    requires Follows(states, actions) && k < |states| && t < |states[k].calls| && states[k].calls[t].pc.HasToken?
    ensures states[k].calls[t].pc.token.text != ""
  {
    EveryStateIsGood(states, actions, k);
    assert GoodTokens(states[k], states[k].calls[t]);
  }

  // Counting over the actions of an interleaving.

  predicate LogsIn(s: System, action: Action) {
    && action.Moves? && action.move.FinishLogin? && action.t < |s.calls|
    && s.calls[action.t].pc.AuthReceived? && AuthOutcome(s.calls[action.t].pc.auth).Ok?
  }

  /** A clear that finds a token in the cache, be it the rejected one or a new one. */
  predicate ClearsToken(s: System, action: Action) {
    action.Moves? && action.move.Clear? && s.cache.text != ""
  }

  function Logins(states: seq<System>, actions: seq<Action>, k: nat): nat
    requires k <= |actions| <= |states|
  {
    if k == 0 then 0 else Logins(states, actions, k - 1) + if LogsIn(states[k - 1], actions[k - 1]) then 1 else 0
  }

  function TokensCleared(states: seq<System>, actions: seq<Action>, k: nat): nat
    requires k <= |actions| <= |states|
  {
    if k == 0 then 0 else TokensCleared(states, actions, k - 1) + if ClearsToken(states[k - 1], actions[k - 1]) then 1 else 0
  }

  /** One action adds a token to the empty cache, or takes the token out of it, or keeps it. */
  lemma CacheBalance(s: System, action: Action)
    requires Inv(s) && Enabled(s, action)
    ensures var before, after := (if s.cache.text != "" then 1 else 0), if Apply(s, action).cache.text != "" then 1 else 0;
            before + (if LogsIn(s, action) then 1 else 0) == after + (if ClearsToken(s, action) then 1 else 0)
  {
    hide GoodProgress, GoodTokens, GoodSupply, Judge;
  }

  /** In every interleaving the successful logins are exactly the clears that found a token, and one
      more if a token is cached now: every token stored stays until a clear takes it, and every clear
      leaves nothing, whoever stored the token. */
  lemma {:induction false} LoginsArePaidForByClears(states: seq<System>, actions: seq<Action>, k: nat)
    requires Follows(states, actions) && k < |states|
    ensures Logins(states, actions, k)
         == TokensCleared(states, actions, k) + (if states[k].cache.text != "" then 1 else 0)
  {
    hide LogsIn, ClearsToken, Inv;
    if k > 0 {
      LoginsArePaidForByClears(states, actions, k - 1);
      EveryStateIsGood(states, actions, k - 1);
      var s, action := states[k - 1], actions[k - 1];
      assert Enabled(s, action) && states[k] == Apply(s, action);
      CacheBalance(s, action);
    }
  }

  // Where tokens come from.

  /** Before state k the server answered a login with this token, in the epoch it is marked with. */
  ghost predicate WasIssued(states: seq<System>, actions: seq<Action>, k: nat, token: Token)
    requires k <= |actions| <= |states|
  {
    exists m: nat, t: nat, auth: AuthReply ::
      m < k && actions[m] == Moves(t, AnswerLogin(auth)) && AuthOutcome(auth) == Ok(token.text) && token.issued == states[m].epoch
  }

  /** The same for a login that has been answered and not yet finished. */
  ghost predicate WasAnswered(states: seq<System>, actions: seq<Action>, k: nat, auth: AuthReply, issued: nat)
    requires k <= |actions| <= |states|
  {
    exists m: nat, t: nat :: m < k && actions[m] == Moves(t, AnswerLogin(auth)) && issued == states[m].epoch
  }

  ghost predicate TokensAreReal(states: seq<System>, actions: seq<Action>, k: nat)
    requires k <= |actions| && k < |states| && |actions| <= |states|
  {
    var s := states[k];
    && (s.cache.text != "" ==> WasIssued(states, actions, k, s.cache))
    && forall t: nat :: t < |s.calls| ==> RealTokens(states, actions, k, s.calls[t].pc)
  }

  ghost predicate RealTokens(states: seq<System>, actions: seq<Action>, k: nat, pc: Pc)
    requires k <= |actions| <= |states|
  {
    match pc
    case HasToken(token) => WasIssued(states, actions, k, token)
    case Rejected(token, _) => WasIssued(states, actions, k, token)
    case AuthReceived(auth, issued) => WasAnswered(states, actions, k, auth, issued)
    case _ => true
  }

  lemma StaysReal(states: seq<System>, actions: seq<Action>, k: nat, pc: Pc)
    requires k < |actions| <= |states| && RealTokens(states, actions, k, pc)
    ensures RealTokens(states, actions, k + 1, pc)
  {
  }

  lemma StaysIssued(states: seq<System>, actions: seq<Action>, k: nat, token: Token)
    requires k < |actions| <= |states| && WasIssued(states, actions, k, token)
    ensures WasIssued(states, actions, k + 1, token)
  {
  }

  lemma AnswerIsRecorded(states: seq<System>, actions: seq<Action>, k: nat, t: nat, auth: AuthReply)
    requires k < |actions| <= |states| && actions[k] == Moves(t, AnswerLogin(auth))
    ensures WasAnswered(states, actions, k + 1, auth, states[k].epoch)
  {
  }

  lemma AnsweredIsIssued(states: seq<System>, actions: seq<Action>, k: nat, auth: AuthReply, issued: nat)
    requires k <= |actions| <= |states| && WasAnswered(states, actions, k, auth, issued) && AuthOutcome(auth).Ok?
    ensures WasIssued(states, actions, k, Token(AuthOutcome(auth).value, issued))
  {
    var m: nat, t: nat :| m < k && actions[m] == Moves(t, AnswerLogin(auth)) && issued == states[m].epoch;
  }

  lemma OneMoreIsReal(states: seq<System>, actions: seq<Action>, k: nat)
    requires Follows(states, actions) && k < |actions| && TokensAreReal(states, actions, k)
    ensures TokensAreReal(states, actions, k + 1)
  {
    hide WasIssued, WasAnswered, AuthOutcome, Judge, IsUnauthorized;
    var s, action, s' := states[k], actions[k], states[k + 1];
    assert Enabled(s, action) && s' == Apply(s, action);
    if s.cache.text != "" { StaysIssued(states, actions, k, s.cache); }
    if action.Moves? {
      assert RealTokens(states, actions, k, s.calls[action.t].pc);
      StaysReal(states, actions, k, s.calls[action.t].pc);
      if action.move.AnswerLogin? { AnswerIsRecorded(states, actions, k, action.t, action.move.auth); }
      if action.move.FinishLogin? && AuthOutcome(s.calls[action.t].pc.auth).Ok? {
        AnsweredIsIssued(states, actions, k + 1, s.calls[action.t].pc.auth, s.calls[action.t].pc.issued);
      }
    }
    forall u: nat | u < |s'.calls| ensures RealTokens(states, actions, k + 1, s'.calls[u].pc) {
      if u < |s.calls| && !(action.Moves? && action.t == u) {
        assert RealTokens(states, actions, k, s.calls[u].pc);
        StaysReal(states, actions, k, s.calls[u].pc);
      }
    }
  }

  /** No token comes out of thin air: in every interleaving each token that is cached, or that a call
      sends, was the server's answer to a login, in the epoch the token is marked with. */
  lemma {:induction false} EveryTokenWasIssued(states: seq<System>, actions: seq<Action>, k: nat)
    requires Follows(states, actions) && k < |states|
    ensures TokensAreReal(states, actions, k)
  {
    if k > 0 {
      EveryTokenWasIssued(states, actions, k - 1);
      OneMoreIsReal(states, actions, k - 1);
    }
  }

  /** Since its 401 in epoch e, call t has not been given any token, or has cleared the cache and
      remembers e. */
  ghost predicate Remembers(c: Call, e: nat) {
    c.floor >= e || (c.pc.Rejected? && c.pc.epoch >= e)
  }

  lemma OneMoreRemembers(s: System, action: Action, t: nat, e: nat)
    requires Inv(s) && Enabled(s, action) && t < |s.calls| && Remembers(s.calls[t], e)
    ensures t < |Apply(s, action).calls| && Remembers(Apply(s, action).calls[t], e)
  {
    hide GoodProgress, GoodSupply, Judge, AuthOutcome;
    assert GoodTokens(s, s.calls[t]);
  }

  lemma {:induction false} RejectionsAreRemembered(states: seq<System>, actions: seq<Action>, k: nat, m: nat, t: nat)
    requires Follows(states, actions) && k < m < |states| && actions[k] == Moves(t, Reject)
    ensures t < |states[m].calls| && Remembers(states[m].calls[t], states[k].epoch)
    decreases m
  {
    assert Enabled(states[m - 1], actions[m - 1]) && states[m] == Apply(states[m - 1], actions[m - 1]);
    if k < m - 1 {
      RejectionsAreRemembered(states, actions, k, m - 1, t);
      EveryStateIsGood(states, actions, m - 1);
      OneMoreRemembers(states[m - 1], actions[m - 1], t, states[k].epoch);
    }
  }

  /** After a call's request is answered 401, every token that the call sends later was issued by a
      login that the server answered in the same epoch or a later one, whatever other calls clear or
      store meanwhile. */
  lemma LaterTokensAreFresh(states: seq<System>, actions: seq<Action>, k: nat, m: nat, t: nat)
    requires Follows(states, actions) && k < m < |states| && actions[k] == Moves(t, Reject)
    requires t < |states[m].calls| && states[m].calls[t].pc.HasToken?
    ensures var token := states[m].calls[t].pc.token;
            token.issued >= states[k].epoch && WasIssued(states, actions, m, token)
  {
    hide WasIssued;
    RejectionsAreRemembered(states, actions, k, m, t);
    EveryTokenWasIssued(states, actions, m);
    assert RealTokens(states, actions, m, states[m].calls[t].pc);
    EveryStateIsGood(states, actions, m);
    assert GoodTokens(states[m], states[m].calls[t]);
  }

  /** A 401 for call t that is due to an expiry: the token was issued in an earlier epoch. */
  predicate RejectsExpired(s: System, action: Action, t: nat) {
    && action == Moves(t, Reject) && t < |s.calls| && s.calls[t].pc.HasToken?
    && s.calls[t].pc.token.issued < s.epoch
  }

  function ExpiredRejections(states: seq<System>, actions: seq<Action>, k: nat, t: nat): nat
    requires k <= |actions| <= |states|
  {
    if k == 0 then 0
    else ExpiredRejections(states, actions, k - 1, t) + if RejectsExpired(states[k - 1], actions[k - 1], t) then 1 else 0
  }

  /** The epochs that a call's rejections have used up. */
  function UsedEpochs(s: System, t: nat): nat {
    if t >= |s.calls| then 0 else if s.calls[t].pc.Rejected? then s.calls[t].pc.epoch else s.calls[t].floor
  }

  lemma RejectionsUseEpochs(s: System, action: Action, t: nat)
    requires Inv(s) && Enabled(s, action)
    ensures UsedEpochs(Apply(s, action), t) >= UsedEpochs(s, t) + if RejectsExpired(s, action, t) then 1 else 0
  {
    hide GoodProgress, GoodSupply, Judge, AuthOutcome;
    if t < |s.calls| { assert GoodTokens(s, s.calls[t]); }
  }

  lemma {:induction false} RejectionsWithinUsedEpochs(states: seq<System>, actions: seq<Action>, k: nat, t: nat)
    requires Follows(states, actions) && k < |states|
    ensures ExpiredRejections(states, actions, k, t) <= UsedEpochs(states[k], t)
  {
    hide RejectsExpired, UsedEpochs, Inv;
    if k > 0 {
      RejectionsWithinUsedEpochs(states, actions, k - 1, t);
      EveryStateIsGood(states, actions, k - 1);
      assert Enabled(states[k - 1], actions[k - 1]) && states[k] == Apply(states[k - 1], actions[k - 1]);
      RejectionsUseEpochs(states[k - 1], actions[k - 1], t);
    }
  }

  /** One call sees at most one 401 per expiry: those that are due to an expiry are at most as many as
      the expiries so far, whatever other calls clear or store meanwhile. */
  lemma OneRejectionPerExpiry(states: seq<System>, actions: seq<Action>, k: nat, t: nat)
    requires Follows(states, actions) && k < |states|
    ensures ExpiredRejections(states, actions, k, t) <= states[k].epoch == Expiries(actions, k)
  {
    RejectionsWithinUsedEpochs(states, actions, k, t);
    EveryStateIsGood(states, actions, k);
    if t < |states[k].calls| { assert GoodTokens(states[k], states[k].calls[t]); }
    EpochsAreExpiries(states, actions, k);
  }

  function Expiries(actions: seq<Action>, k: nat): nat
    requires k <= |actions|
  {
    if k == 0 then 0 else Expiries(actions, k - 1) + if actions[k - 1].Expire? then 1 else 0
  }

  lemma {:induction false} EpochsAreExpiries(states: seq<System>, actions: seq<Action>, k: nat)
    requires Follows(states, actions) && k < |states|
    ensures states[k].epoch == Expiries(actions, k)
  {
    if k > 0 {
      EpochsAreExpiries(states, actions, k - 1);
      assert Enabled(states[k - 1], actions[k - 1]) && states[k] == Apply(states[k - 1], actions[k - 1]);
    }
  }

  // ---------- Waiting ----------

  /** A call that has not finished can go on, unless it needs the mutex and a login holds it; the call
      that is logging in never waits. */
  lemma OnlyLoginsMakeCallsWait(states: seq<System>, actions: seq<Action>, k: nat, t: nat)
    requires Follows(states, actions) && k < |states| && t < |states[k].calls| && !states[k].calls[t].pc.Finished?
    ensures (exists move :: CanMove(states[k], t, move))
            <==> !((states[k].calls[t].pc.Ready? || states[k].calls[t].pc.Rejected?) && states[k].mutex.Some?)
    ensures states[k].mutex.Some? ==>
              && states[k].mutex.value < |states[k].calls| && LoggingIn(states[k].calls[states[k].mutex.value].pc)
              && exists move :: CanMove(states[k], states[k].mutex.value, move)
  {
    EveryStateIsGood(states, actions, k);
    SomeMove(states[k], t);
    if states[k].mutex.Some? { SomeMove(states[k], states[k].mutex.value); }
  }

  lemma SomeMove(s: System, t: nat)
    requires t < |s.calls| && !s.calls[t].pc.Finished?
    ensures (exists move :: CanMove(s, t, move)) <==> !((s.calls[t].pc.Ready? || s.calls[t].pc.Rejected?) && s.mutex.Some?)
  {
    match s.calls[t].pc
    case Ready => assert s.mutex.None? ==> CanMove(s, t, TakeCached) || CanMove(s, t, StartLogin);
    case AuthSent => assert CanMove(s, t, AnswerLogin(AuthTransport(RowNotFound)));
    case AuthReceived(_, _) => assert CanMove(s, t, FinishLogin);
    case HasToken(_) => assert CanMove(s, t, Reject);
    case Rejected(_, _) => assert s.mutex.None? ==> CanMove(s, t, Clear);
    case Attempted(_) => assert CanMove(s, t, Wait(None));
  }

  /** A finished call obeys the rules of the retry loop, with at most three requests and at most
      three authentications, and returns nil exactly when its last request delivered. */
  lemma FinishedCallsFollowTheRetryRules(states: seq<System>, actions: seq<Action>, k: nat, t: nat)
    requires Follows(states, actions) && k < |states| && t < |states[k].calls| && states[k].calls[t].pc.Finished?
    ensures var c := states[k].calls[t];
            && Retry.ValidRun(MAX_ATTEMPTS, c.outcomes, c.cancel, c.pc.result)
            && c.requests <= |c.outcomes| <= 3 && c.logins <= |c.outcomes|
            && (c.pc.result.None? <==> DeliveredLast(c))
  {
    EveryStateIsGood(states, actions, k);
    assert GoodProgress(states[k].calls[t]);
  }
}
