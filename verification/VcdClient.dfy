/** The VCD client (internal/clients/vcd/client.go): lazy authentication, a cached token, and
    requests inside the retry loop. */
module VcdClient {
  import opened Wrappers
  import opened Errors
  import Retry

  const SESSION_PATH := "/cloudapi/1.0.0/sessions/provider"

  /** What comes of one authentication request. `Answered` carries the status, the token header
      ("" when it is missing) and the body. */
  datatype AuthReply = AuthNotBuilt(e: Error) | AuthTransport(e: Error) | AuthAnswered(status: int, token: string, body: string)

  /** What comes of one API request; `decode` is the decoder's error, if any. */
  datatype Reply = NotBuilt(e: Error) | Transport(e: Error) | Answered(status: int, body: string, decode: Option<Error>)

  function AuthOutcome(reply: AuthReply): (r: Result<string, Error>)
    ensures r.Ok? <==> reply.AuthAnswered? && reply.status == 200 && reply.token != ""
    ensures r.Ok? ==> r.value == reply.token
  {
    match reply
    case AuthNotBuilt(e) => Err(Wrap("create auth request: ", e))
    case AuthTransport(e) => Err(Wrap("auth request: ", e))
    case AuthAnswered(status, token, body) =>
      if status != 200 then Err(Api(status, body, "POST", SESSION_PATH))
      else if token == "" then Err(Plain("auth response missing X-VMWARE-VCLOUD-ACCESS-TOKEN header"))
      else Ok(token)
  }

  /** One API call: its method, its path, and whether the caller wants the response decoded. */
  datatype Request = Request(verb: string, path: string, wantResult: bool)

  predicate IsUnauthorized(reply: Reply) {
    reply.Answered? && reply.status == 401
  }

  predicate WasSent(reply: Reply) {
    !reply.NotBuilt?
  }

  /** The error that one attempt returns once it has a token and its request is through. */
  function Judge(q: Request, reply: Reply): Option<Error> {
    match reply
    case NotBuilt(e) => Some(Wrap("create request: ", e))
    case Transport(e) => Some(Wrap(q.verb + " " + q.path + ": ", e))
    case Answered(status, body, decode) =>
      if status == 401 then Some(Api(401, "", q.verb, q.path))
      else if status < 200 || status >= 300 then Some(Api(status, body, q.verb, q.path))
      else if q.wantResult && decode.Some? then Some(Wrap("decode " + q.verb + " " + q.path + ": ", decode.value))
      else None
  }

  /** The attempt got a 2xx answer, decoded if the caller wanted that. */
  predicate Delivered(q: Request, reply: Reply) {
    reply.Answered? && 200 <= reply.status < 300 && (q.wantResult ==> reply.decode.None?)
  }

  lemma JudgeSucceedsExactlyWhen(q: Request, reply: Reply)
    ensures Judge(q, reply).None? <==> Delivered(q, reply)
  {
  }

  /** The attempt succeeds exactly when it delivered. A failure without an answer, or with one that
      does not decode, reports what went wrong; an answer outside 2xx is reported as an API error that
      carries its status and, but for 401, its body. */
  lemma JudgeMeaning(q: Request, reply: Reply)
    ensures Judge(q, reply).None? <==> Delivered(q, reply)
    ensures Judge(q, reply).Some? ==>
              var e := Judge(q, reply).value;
              match reply
              case NotBuilt(cause) => Reports(e, cause)
              case Transport(cause) => Reports(e, cause)
              case Answered(status, body, decode) =>
                if 200 <= status < 300 then decode.Some? && Reports(e, decode.value)
                else && e == Api(status, if status == 401 then "" else body, q.verb, q.path)
                     && (IsNotFound(e) <==> status == 404) && (IsRetryable(e) <==> status in {429, 502, 503, 504})
  {
    match reply
    case NotBuilt(cause) => ReportsItself(cause);
    case Transport(cause) => ReportsItself(cause);
    case Answered(_, _, decode) => if decode.Some? { ReportsItself(decode.value); }
  }

  /** A login that fails reports what went wrong: an answer other than 200 as an API error with its
      status and body, and an answer without a token as an error that is neither. */
  lemma LoginFailureMeaning(reply: AuthReply)
    requires AuthOutcome(reply).Err?
    ensures var e := AuthOutcome(reply).error;
            match reply
            case AuthNotBuilt(cause) => Reports(e, cause)
            case AuthTransport(cause) => Reports(e, cause)
            case AuthAnswered(status, token, body) =>
              if status != 200 then e == Api(status, body, "POST", "/cloudapi/1.0.0/sessions/provider")
              else token == "" && FindApi(e).None? && !IsPermanent(e)
  {
    match reply
    case AuthNotBuilt(cause) => ReportsItself(cause);
    case AuthTransport(cause) => ReportsItself(cause);
    case _ =>
  }

  function TokenFailure(e: Error): Error {
    Wrap("get token: ", e)
  }

  /** Everything that can come back in the k-th attempt of one call. */
  datatype Env = Env(auths: nat -> AuthReply, replies: nat -> Reply, done: nat -> Option<Error>)

  /** One attempt, seen from outside: its error, the token it leaves in the cache, and what it
      sent. */
  datatype Attempt = Attempt(err: Option<Error>, token: string, authenticated: bool, sent: bool)

  function OneAttempt(q: Request, token: string, auth: AuthReply, reply: Reply): Attempt {
    var got := if token != "" then Ok(token) else AuthOutcome(auth);
    match got
    case Err(e) => Attempt(Some(TokenFailure(e)), "", true, false)
    case Ok(t) => Attempt(Judge(q, reply), if IsUnauthorized(reply) then "" else t, token == "", WasSent(reply))
  }

  /** The cached token before attempt k of a call that finds `token` in the cache. */
  function TokenBefore(q: Request, token: string, env: Env, k: nat): string {
    if k == 0 then token
    else OneAttempt(q, TokenBefore(q, token, env, k - 1), env.auths(k - 1), env.replies(k - 1)).token
  }

  function NthAttempt(q: Request, token: string, env: Env, k: nat): Attempt {
    OneAttempt(q, TokenBefore(q, token, env, k), env.auths(k), env.replies(k))
  }

  function Sent(q: Request, token: string, env: Env, k: nat): nat {
    if k == 0 then 0 else Sent(q, token, env, k - 1) + (if NthAttempt(q, token, env, k - 1).sent then 1 else 0)
  }

  function Authentications(q: Request, token: string, env: Env, k: nat): nat {
    if k == 0 then 0
    else Authentications(q, token, env, k - 1) + (if NthAttempt(q, token, env, k - 1).authenticated then 1 else 0)
  }

  const MAX_ATTEMPTS := 3

  class Client {
    var token: string

    constructor ()
      ensures token == ""
    {
      token := "";
    }

    method Authenticate(reply: AuthReply) returns (err: Option<Error>)
      modifies this
      ensures match AuthOutcome(reply)
              case Ok(t) => err.None? && token == t
              case Err(e) => err == Some(e) && token == old(token)
    {
      match AuthOutcome(reply) {
        case Err(e) => return Some(e);
        case Ok(t) =>
          token := t;
          return None;
      }
    }

    method GetToken(auth: AuthReply) returns (t: string, err: Option<Error>)
      modifies this
      ensures err.None? ==> t != "" && token == t
      ensures err.Some? ==> old(token) == "" && token == ""
      ensures var got := if old(token) != "" then Ok(old(token)) else AuthOutcome(auth);
              if got.Ok? then err.None? && t == got.value else err == Some(got.error)
    {
      if token != "" {
        return token, None;
      }
      err := Authenticate(auth);
      if err.Some? {
        return "", err;
      }
      return token, None;
    }

    method ClearToken()
      modifies this
      ensures token == ""
    {
      token := "";
    }

    /** The function that Do hands to the retry loop. */
    method Try(q: Request, auth: AuthReply, reply: Reply) returns (err: Option<Error>, ghost authenticated: bool, ghost sent: bool)
      modifies this
      ensures Attempt(err, token, authenticated, sent) == OneAttempt(q, old(token), auth, reply)
    {
      authenticated := token == "";
      sent := false;
      var t;
      t, err := GetToken(auth);
      if err.Some? {
        return Some(TokenFailure(err.value)), authenticated, sent;
      }
      sent := WasSent(reply);
      if IsUnauthorized(reply) {
        ClearToken();
      }
      return Judge(q, reply), authenticated, sent;
    }

    /** Do: at most three attempts, with the retry loop's rules for stopping. */
    method Do(q: Request, env: Env)
      returns (err: Option<Error>, ghost outcomes: seq<Option<Error>>, ghost cancel: Option<Error>,
               ghost sent: nat, ghost authentications: nat)
      modifies this
      ensures Retry.ValidRun(MAX_ATTEMPTS, outcomes, cancel, err)
      ensures Retry.AnsweredBy((k: nat) => NthAttempt(q, old(token), env, k).err, env.done, outcomes, cancel)
      ensures token == TokenBefore(q, old(token), env, |outcomes|)
      ensures sent == Sent(q, old(token), env, |outcomes|)
      ensures authentications == Authentications(q, old(token), env, |outcomes|)
    {
      hide OneAttempt, AuthOutcome, Judge, IsUnauthorized;
      ghost var start := token;
      outcomes, cancel, sent, authentications := [], None, 0, 0;
      var lastErr: Option<Error> := None;
      var i := 0;
      while i < MAX_ATTEMPTS
        invariant i <= 2 && |outcomes| == i && cancel.None?
        invariant token == TokenBefore(q, start, env, i)
        invariant forall k: nat :: k < i ==> outcomes[k] == NthAttempt(q, start, env, k).err && outcomes[k].Some?
        invariant forall k: nat :: k < i ==> env.done(k).None?
        invariant sent == Sent(q, start, env, i) && authentications == Authentications(q, start, env, i)
      {
        ghost var authenticated, wasSent;
        lastErr, authenticated, wasSent := Try(q, env.auths(i), env.replies(i));
        sent := sent + (if wasSent then 1 else 0);
        authentications := authentications + (if authenticated then 1 else 0);
        outcomes := outcomes + [lastErr];
        if lastErr.None? {
          return None, outcomes, None, sent, authentications;
        }
        if i == MAX_ATTEMPTS - 1 {
          break;
        }
        if env.done(i).Some? {
          return Some(Retry.RetryCancelled(env.done(i).value, lastErr.value)), outcomes, env.done(i), sent, authentications;
        }
        i := i + 1;
      }
      return lastErr, outcomes, None, sent, authentications;
    }
  }

  // ---------- What one call does ----------

  lemma {:induction false} TrafficIsBounded(q: Request, token: string, env: Env, k: nat)
    ensures Sent(q, token, env, k) <= k && Authentications(q, token, env, k) <= k
  {
    if k > 0 { TrafficIsBounded(q, token, env, k - 1); }
  }

  /** Whatever the server answers: a call returns nil exactly when its last attempt got a token and
      a 2xx answer that decoded; otherwise it made three attempts unless it was cancelled. The
      status codes that count as retryable make no difference. It sends at most three requests
      and authenticates at most three times. */
  lemma CallOutcome(q: Request, token: string, env: Env, outcomes: seq<Option<Error>>, cancel: Option<Error>, err: Option<Error>)
    requires Retry.ValidRun(MAX_ATTEMPTS, outcomes, cancel, err)
    requires Retry.AnsweredBy((k: nat) => NthAttempt(q, token, env, k).err, env.done, outcomes, cancel)
    ensures 1 <= |outcomes| <= 3
    ensures var last := NthAttempt(q, token, env, |outcomes| - 1);
            err.None? <==> last.sent && Delivered(q, env.replies(|outcomes| - 1))
    ensures err.Some? ==> |outcomes| == 3 || cancel.Some?
    ensures Sent(q, token, env, |outcomes|) <= 3 && Authentications(q, token, env, |outcomes|) <= 3
    ensures forall k: nat :: k < |outcomes| - 1 ==> NthAttempt(q, token, env, k).err.Some?
  {
    TrafficIsBounded(q, token, env, |outcomes|);
    JudgeMeaning(q, env.replies(|outcomes| - 1));
    assert forall k: nat :: k < |outcomes| ==> outcomes[k] == NthAttempt(q, token, env, k).err;
  }

  /** The classification of a finished call is that of its last attempt, cancelled or not. */
  lemma CallErrorKeepsClassification(outcomes: seq<Option<Error>>, cancel: Option<Error>, err: Option<Error>)
    requires Retry.ValidRun(MAX_ATTEMPTS, outcomes, cancel, err) && err.Some?
    requires cancel.Some? ==> !IsPermanent(cancel.value) && FindApi(cancel.value).None?
    ensures var last := outcomes[|outcomes| - 1];
            last.Some? && IsNotFound(err.value) == IsNotFound(last.value) && IsRetryable(err.value) == IsRetryable(last.value)
  {
    if cancel.Some? {
      Retry.CancelledRunKeepsBothErrors(cancel.value, outcomes[|outcomes| - 1].value);
    }
  }

  // ---------- What the error of a call reports ----------

  /** What went wrong with a login that failed. */
  function LoginTrouble(auth: AuthReply): Error {
    match auth
    case AuthNotBuilt(e) => e
    case AuthTransport(e) => e
    case AuthAnswered(status, _, body) =>
      if status != 200 then Api(status, body, "POST", "/cloudapi/1.0.0/sessions/provider")
      else Plain("auth response missing X-VMWARE-VCLOUD-ACCESS-TOKEN header")
  }

  /** What went wrong with a request that was not delivered. */
  function RequestTrouble(q: Request, reply: Reply): Error {
    match reply
    case NotBuilt(e) => e
    case Transport(e) => e
    case Answered(status, body, decode) =>
      if 200 <= status < 300 && decode.Some? then decode.value
      else Api(status, if status == 401 then "" else body, q.verb, q.path)
  }

  /** What went wrong in attempt k: its login if it needed one and that failed, else its request. */
  function Trouble(q: Request, token: string, env: Env, k: nat): Error {
    if TokenBefore(q, token, env, k) == "" && AuthOutcome(env.auths(k)).Err? then LoginTrouble(env.auths(k))
    else RequestTrouble(q, env.replies(k))
  }

  lemma LoginReportsTrouble(auth: AuthReply)
    requires AuthOutcome(auth).Err?
    ensures Reports(AuthOutcome(auth).error, LoginTrouble(auth))
  {
    LoginFailureMeaning(auth);
    ReportsItself(LoginTrouble(auth));
  }

  lemma RequestReportsTrouble(q: Request, reply: Reply)
    requires Judge(q, reply).Some?
    ensures Reports(Judge(q, reply).value, RequestTrouble(q, reply))
  {
    JudgeMeaning(q, reply);
    ReportsItself(RequestTrouble(q, reply));
  }

  lemma AttemptReportsTrouble(q: Request, token: string, env: Env, k: nat)
    requires NthAttempt(q, token, env, k).err.Some?
    ensures Reports(NthAttempt(q, token, env, k).err.value, Trouble(q, token, env, k))
  {
    hide AuthOutcome, Judge, Reports, LoginTrouble, RequestTrouble;
    var before, auth := TokenBefore(q, token, env, k), env.auths(k);
    if before == "" && AuthOutcome(auth).Err? {
      LoginReportsTrouble(auth);
      WrapReports("get token: ", AuthOutcome(auth).error, LoginTrouble(auth));
    } else {
      RequestReportsTrouble(q, env.replies(k));
    }
  }

  /** A context error, that is, one that is neither permanent nor an API error. */
  predicate Harmless(cancel: Option<Error>) {
    cancel.Some? ==> !IsPermanent(cancel.value) && FindApi(cancel.value).None?
  }

  /** Whatever a call ends with, a failed login, a request that got no answer, an answer outside 2xx or
      one that does not decode: its error reports just what went wrong in its last attempt, with the
      same classification, cancelled or not; a cancelled call's error holds the context's error too. */
  lemma CallReportsTrouble(q: Request, token: string, env: Env, outcomes: seq<Option<Error>>, cancel: Option<Error>, err: Option<Error>)
    requires Retry.ValidRun(MAX_ATTEMPTS, outcomes, cancel, err) && err.Some? && Harmless(cancel)
    requires Retry.AnsweredBy((k: nat) => NthAttempt(q, token, env, k).err, env.done, outcomes, cancel)
    ensures var cause := Trouble(q, token, env, |outcomes| - 1);
            && Reports(err.value, cause)
            && IsNotFound(err.value) == IsNotFound(cause) && IsRetryable(err.value) == IsRetryable(cause)
    ensures cancel.Some? ==> cancel.value in Preorder(err.value)
  {
    hide NthAttempt, Trouble;
    var k: nat := |outcomes| - 1;
    assert outcomes[k] == NthAttempt(q, token, env, k).err;
    var cause, last := Trouble(q, token, env, k), outcomes[k].value;
    AttemptReportsTrouble(q, token, env, k);
    if cancel.Some? { CancellingReports(cancel.value, last, cause); }
    ReportsClassify(err.value, cause);
  }

  lemma CancellingReports(ctxErr: Error, last: Error, cause: Error)
    requires Reports(last, cause) && !IsPermanent(ctxErr) && FindApi(ctxErr).None?
    ensures Reports(Retry.RetryCancelled(ctxErr, last), cause)
    ensures ctxErr in Preorder(Retry.RetryCancelled(ctxErr, last))
  {
    SiblingsClassifyToo("retry cancelled: ", ctxErr, " (last error: ", last, ")");
    assert Preorder(ctxErr)[0] == ctxErr;
  }

  /** So a call whose last attempt was answered outside 2xx is classified by that status. */
  lemma CallReportsLastStatus(q: Request, token: string, env: Env, outcomes: seq<Option<Error>>, cancel: Option<Error>, err: Option<Error>)
    requires Retry.ValidRun(MAX_ATTEMPTS, outcomes, cancel, err) && Harmless(cancel)
    requires Retry.AnsweredBy((k: nat) => NthAttempt(q, token, env, k).err, env.done, outcomes, cancel)
    requires var reply := env.replies(|outcomes| - 1);
             NthAttempt(q, token, env, |outcomes| - 1).sent && reply.Answered? && !(200 <= reply.status < 300)
    ensures var status, body := env.replies(|outcomes| - 1).status, env.replies(|outcomes| - 1).body;
            && err.Some? && FindApi(err.value) == Some(Api(status, if status == 401 then "" else body, q.verb, q.path))
            && (IsNotFound(err.value) <==> status == 404)
            && (IsRetryable(err.value) <==> status in {429, 502, 503, 504})
  {
    var k: nat := |outcomes| - 1;
    JudgeMeaning(q, env.replies(k));
    assert outcomes[k] == NthAttempt(q, token, env, k).err == Judge(q, env.replies(k));
    CallReportsTrouble(q, token, env, outcomes, cancel, err);
  }

  // ---------- How often one call authenticates ----------

  /** What the server answers in attempt k leaves the call without a token: a 401, or a login that
      fails when there was no token to begin with. */
  predicate LosesToken(q: Request, token: string, env: Env, k: nat) {
    if TokenBefore(q, token, env, k) == "" && AuthOutcome(env.auths(k)).Err? then true
    else env.replies(k).Answered? && env.replies(k).status == 401
  }

  function TokensLost(q: Request, token: string, env: Env, k: nat): nat {
    if k == 0 then 0 else TokensLost(q, token, env, k - 1) + (if LosesToken(q, token, env, k - 1) then 1 else 0)
  }

  /** An attempt sends its request exactly when it has a token and the request could be built. */
  lemma SendsExactlyWhen(q: Request, token: string, env: Env, k: nat)
    ensures NthAttempt(q, token, env, k).sent
            <==> (TokenBefore(q, token, env, k) != "" || AuthOutcome(env.auths(k)).Ok?) && !env.replies(k).NotBuilt?
  {
  }

  lemma AuthenticatesAfterLoss(q: Request, token: string, env: Env, k: nat)
    ensures NthAttempt(q, token, env, k + 1).authenticated <==> LosesToken(q, token, env, k)
  {
  }

  /** n attempts authenticate once for every token lost before the last of them, and once more if
      there was no token at first. */
  lemma {:induction false} AuthenticationsCountLostTokens(q: Request, token: string, env: Env, n: nat)
    requires n > 0
    ensures Authentications(q, token, env, n) == (if token == "" then 1 else 0) + TokensLost(q, token, env, n - 1)
  {
    hide OneAttempt, LosesToken;
    if n == 1 {
      FirstAttempt(q, token, env);
    } else {
      AuthenticationsCountLostTokens(q, token, env, n - 1);
      AuthenticatesAfterLoss(q, token, env, n - 2);
    }
  }

  lemma FirstAttempt(q: Request, token: string, env: Env)
    ensures Authentications(q, token, env, 1) == if token == "" then 1 else 0
  {
    assert Authentications(q, token, env, 0) == 0;
  }

  /** How often a call of n attempts authenticates again, not counting its first attempt. */
  function Reauthentications(q: Request, token: string, env: Env, n: nat): int {
    Authentications(q, token, env, n) - if token == "" then 1 else 0
  }

  /** The package comment says that a call authenticates once more after a 401. A call of n attempts
      authenticates again at most once if and only if at most one of the attempts before its last
      loses the token; that is, unless it gets to a third attempt and lost the token in both others. */
  lemma ReauthenticatesOnceExactlyWhen(q: Request, token: string, env: Env, n: nat)
    requires 1 <= n <= MAX_ATTEMPTS
    ensures Reauthentications(q, token, env, n) <= 1
            <==> !(n == 3 && LosesToken(q, token, env, 0) && LosesToken(q, token, env, 1))
  {
    hide LosesToken;
    AuthenticationsCountLostTokens(q, token, env, n);
    TokensLostAtFirst(q, token, env);
  }

  lemma TokensLostAtFirst(q: Request, token: string, env: Env)
    ensures TokensLost(q, token, env, 0) == 0
    ensures TokensLost(q, token, env, 1) == if LosesToken(q, token, env, 0) then 1 else 0
    ensures TokensLost(q, token, env, 2) == TokensLost(q, token, env, 1) + if LosesToken(q, token, env, 1) then 1 else 0
  {
    hide LosesToken;
  }

  /** A call that does: one that keeps getting 401 authenticates in every attempt. */
  lemma RepeatedRejectionsAuthenticateEveryTime(q: Request, env: Env)
    requires forall k: nat :: env.auths(k) == AuthAnswered(200, "t", "")
    requires forall k: nat :: IsUnauthorized(env.replies(k))
    ensures Authentications(q, "", env, 3) == 3 && Reauthentications(q, "", env, 3) == 2
  {
    assert TokenBefore(q, "", env, 1) == "";
    assert TokenBefore(q, "", env, 2) == "";
    assert Authentications(q, "", env, 1) == 1;
    assert Authentications(q, "", env, 2) == 2;
  }
}
