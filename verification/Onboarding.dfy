/** From request to job: the onboard-org handler (internal/httpapi/handle_onboard_org.go),
    and the job's arguments and their accumulator (internal/jobs/args.go, onboard_org.go). */
module Onboarding {
  import opened Wrappers
  import opened Errors
  import opened Records

  // ---------- The request ----------

  datatype Request = Request(
    organizationName: string, clientUsername: string, clientFirstName: string, clientLastName: string,
    clientEmail: string, clientID: string, accountID: int, country: string, state: string,
    postalCode: string, maxZertoStorage: int, maxZertoVMs: int, bandwidth: string, productID: string)

  /** A request body: not JSON, or a JSON value that is not an object, or null, or an object. */
  datatype Body = Malformed(e: Error) | NullBody | Object(fields: Data)

  /** A string field of a struct: left empty when the key is missing or null. */
  function StringField(fields: Data, key: string): Option<string> {
    if key !in fields || fields[key].JNull? then Some("")
    else if fields[key].JString? then Some(fields[key].s)
    else None
  }

  function IntField(fields: Data, key: string): Option<int> {
    if key !in fields || fields[key].JNull? then Some(0)
    else if fields[key].JInt? && FitsInt(fields[key].n) then Some(fields[key].n)
    else None
  }

  const STRING_KEYS := {
    "crm_id", "organization_name", "client_username", "client_first_name", "client_last_name", "client_email",
    "country", "state", "postal_code", "bandwidth", "product_id"}

  const INT_KEYS := {"account_id", "max_zerto_storage", "max_zerto_vms"}

  const PAYLOAD_KEYS := STRING_KEYS + INT_KEYS

  predicate Decodes(fields: Data) {
    && (forall k :: k in STRING_KEYS ==> StringField(fields, k).Some?)
    && (forall k :: k in INT_KEYS ==> IntField(fields, k).Some?)
  }

  function Str(fields: Data, key: string): string
    requires StringField(fields, key).Some?
  {
    StringField(fields, key).value
  }

  function Int(fields: Data, key: string): int
    requires IntField(fields, key).Some?
  {
    IntField(fields, key).value
  }

  function DecodeRequest(fields: Data): Request
    requires Decodes(fields)
  {
    Request(Str(fields, "organization_name"), Str(fields, "client_username"), Str(fields, "client_first_name"),
            Str(fields, "client_last_name"), Str(fields, "client_email"), Str(fields, "crm_id"),
            Int(fields, "account_id"), Str(fields, "country"), Str(fields, "state"), Str(fields, "postal_code"),
            Int(fields, "max_zerto_storage"), Int(fields, "max_zerto_vms"), Str(fields, "bandwidth"),
            Str(fields, "product_id"))
  }

  const ZERO_REQUEST := Request("", "", "", "", "", "", 0, "", "", "", 0, 0, "", "")

  function Required(name: string, value: string): map<string, string> {
    if value == "" then map[name := "required"] else map[]
  }

  const PROBLEM_KEYS := ["crm_id", "client_first_name", "client_last_name", "client_email", "bandwidth",
                         "account_id", "max_zerto_storage", "max_zerto_vms"]

  /** What each check of the validator adds. */
  function ProblemMaps(r: Request): seq<map<string, string>> {
    [Required("crm_id", r.clientID), Required("client_first_name", r.clientFirstName),
     Required("client_last_name", r.clientLastName), Required("client_email", r.clientEmail),
     Required("bandwidth", r.bandwidth),
     if r.accountID <= 0 then map["account_id" := "must be a positive integer"] else map[],
     if r.maxZertoStorage < 0 then map["max_zerto_storage" := "must be zero or greater"] else map[],
     if r.maxZertoVMs < 0 then map["max_zerto_vms" := "must be zero or greater"] else map[]]
  }

  function Union(maps: seq<map<string, string>>): map<string, string> {
    if maps == [] then map[] else maps[0] + Union(maps[1..])
  }

  function Problems(r: Request): map<string, string> {
    Union(ProblemMaps(r))
  }

  /** decodeValid: a request, or the problems that validation found, or a decoding error. */
  datatype Decoded = Valid(r: Request) | Invalid(problems: map<string, string>) | Undecodable(e: Error)

  function DecodeValid(body: Body): Decoded {
    if body.Malformed? then Undecodable(Wrap("decode json: ", body.e))
    else if body.Object? && !Decodes(body.fields) then Undecodable(Wrap("decode json: ", Plain("json: cannot unmarshal")))
    else
      var r := if body.NullBody? then ZERO_REQUEST else DecodeRequest(body.fields);
      if Problems(r) == map[] then Valid(r) else Invalid(Problems(r))
  }

  // ---------- The job's arguments ----------

  datatype Args = Args(
    clientID: string, organizationName: string, clientUsername: string, clientFirstName: string,
    clientLastName: string, clientEmail: string, accountID: int, country: string, state: string,
    postalCode: string, maxZertoStorage: int, maxZertoVMs: int, bandwidth: string, productID: string)

  /** The arguments the handler builds, field by field. */
  function ArgsOf(r: Request): Args {
    Args(r.clientID, r.organizationName, r.clientUsername, r.clientFirstName, r.clientLastName, r.clientEmail,
         r.accountID, r.country, r.state, r.postalCode, r.maxZertoStorage, r.maxZertoVMs, r.bandwidth, r.productID)
  }

  /** The value that json.Marshal stores for the field tagged `key`. */
  function Tagged(a: Args, key: string): Json {
    if key == "crm_id" then JString(a.clientID)
    else if key == "organization_name" then JString(a.organizationName)
    else if key == "client_username" then JString(a.clientUsername)
    else if key == "client_first_name" then JString(a.clientFirstName)
    else if key == "client_last_name" then JString(a.clientLastName)
    else if key == "client_email" then JString(a.clientEmail)
    else if key == "account_id" then JInt(a.accountID)
    else if key == "country" then JString(a.country)
    else if key == "state" then JString(a.state)
    else if key == "postal_code" then JString(a.postalCode)
    else if key == "max_zerto_storage" then JInt(a.maxZertoStorage)
    else if key == "max_zerto_vms" then JInt(a.maxZertoVMs)
    else if key == "bandwidth" then JString(a.bandwidth)
    else JString(a.productID)
  }

  function ArgsToData(a: Args): Data {
    map k | k in PAYLOAD_KEYS :: Tagged(a, k)
  }

  lemma KeyKindsDiffer()
    ensures STRING_KEYS !! INT_KEYS
  {
    assert "account_id"[0] == 'a' && "product_id"[0] == 'p';
    assert "max_zerto_storage"[0] == 'm' && "organization_name"[0] == 'o' && "client_first_name"[0] == 'c';
  }

  lemma TaggedStrings(fields: Data, key: string)
    requires Decodes(fields) && key in STRING_KEYS
    ensures Tagged(ArgsOf(DecodeRequest(fields)), key) == JString(Str(fields, key))
  {
    KeyKindsDiffer();
    assert key !in INT_KEYS;
  }

  lemma TaggedInts(fields: Data, key: string)
    requires Decodes(fields) && key in INT_KEYS
    ensures Tagged(ArgsOf(DecodeRequest(fields)), key) == JInt(Int(fields, key))
  {
    KeyKindsDiffer();
    assert key !in STRING_KEYS;
  }

  /** The accumulator starts with exactly the fourteen payload keys, and every one of them holds
      what the request body said under the same key, or the zero value if it said nothing: the
      two structs, their tags and the field-by-field copy between them lose and mix up nothing. */
  lemma PayloadReachesTheData(fields: Data)
    requires Decodes(fields)
    ensures var data := ArgsToData(ArgsOf(DecodeRequest(fields)));
            && data.Keys == PAYLOAD_KEYS && Marshals(Some(data))
            && (forall k :: k in STRING_KEYS ==> data[k] == JString(Str(fields, k)))
            && (forall k :: k in INT_KEYS ==> data[k] == JInt(Int(fields, k)))
            && (forall k :: k in PAYLOAD_KEYS && k in fields && !fields[k].JNull? ==> data[k] == fields[k])
  {
    hide Tagged, ArgsOf, DecodeRequest;
    forall k | k in STRING_KEYS
      ensures Tagged(ArgsOf(DecodeRequest(fields)), k) == JString(Str(fields, k))
    {
      TaggedStrings(fields, k);
    }
    forall k | k in INT_KEYS
      ensures Tagged(ArgsOf(DecodeRequest(fields)), k) == JInt(Int(fields, k))
    {
      TaggedInts(fields, k);
    }
  }

  // ---------- The handler ----------

  /** What becomes of the commit: it works, it fails, or it works but its answer is lost. */
  datatype CommitAnswer = CommitOk | CommitFailed(e: Error) | CommitUnreported(e: Error)

  /** Everything around one request that can go wrong. */
  datatype Env = Env(vcdConfigured: bool, lookup: Option<Error>, begin: Option<Error>, insert: Option<Error>, commit: CommitAnswer)

  datatype Response =
    | Accepted(jobID: int)
    | Rejected(status: int, error: string, problems: map<string, string>)

  function StatusOf(r: Response): int {
    if r.Accepted? then 202 else r.status
  }

  /** The request gets as far as asking for the commit of its job. */
  predicate ReachesCommit(body: Body, env: Env) {
    DecodeValid(body).Valid? && env.vcdConfigured && env.lookup.None? && env.begin.None? && env.insert.None?
  }

  /** The answer to a request when the next job id is `nextID`. */
  function ResponseTo(nextID: int, body: Body, env: Env): Response {
    match DecodeValid(body)
    case Invalid(problems) => Rejected(422, "validation failed", problems)
    case Undecodable(e) => Rejected(400, Text(e), map[])
    case Valid(_) =>
      if !env.vcdConfigured then Rejected(503, "vcd client not configured", map[])
      else if env.lookup.Some? then Rejected(502, "vcd lookup failed: " + Text(env.lookup.value), map[])
      else if env.begin.Some? then Rejected(500, "internal error", map[])
      else if env.insert.Some? then Rejected(500, "failed to enqueue job", map[])
      else if !env.commit.CommitOk? then Rejected(500, "internal error", map[])
      else Accepted(nextID)
  }

  class Service {
    var queue: map<int, Args>
    var nextID: int

    ghost predicate Valid()
      reads this
    {
      forall j :: j in queue ==> j < nextID
    }

    constructor ()
      ensures Valid() && queue == map[]
    {
      queue, nextID := map[], 1;
    }

    /** A request is answered 202 exactly when its job was committed and reported so; the job is the
        one new entry of the queue and carries the request's own fields. Any other answer leaves
        the queue alone, unless a commit took effect and was reported as failed. */
    method HandleOnboardOrg(body: Body, env: Env) returns (r: Response)
      requires Valid()
      modifies this
      ensures Valid() && nextID == old(nextID) + (if ReachesCommit(body, env) then 1 else 0)
      ensures r == ResponseTo(old(nextID), body, env)
      ensures StatusOf(r) == 202 <==> ReachesCommit(body, env) && env.commit.CommitOk?
      ensures r.Accepted? ==> r.jobID !in old(queue) && queue == old(queue)[r.jobID := ArgsOf(DecodeValid(body).r)]
      ensures !r.Accepted? ==> (queue == old(queue) <==> !(ReachesCommit(body, env) && env.commit.CommitUnreported?))
      ensures StatusOf(r) in {202, 400, 422, 500, 502, 503}
      ensures StatusOf(r) == 422 <==> DecodeValid(body).Invalid?
      ensures r.Rejected? && r.status == 422 ==> r.problems == DecodeValid(body).problems
      ensures StatusOf(r) == 400 <==> DecodeValid(body).Undecodable?
    {
      hide DecodeValid, ArgsOf, Text;
      var decoded := DecodeValid(body);
      if decoded.Invalid? {
        return Rejected(422, "validation failed", decoded.problems);
      }
      if decoded.Undecodable? {
        return Rejected(400, Text(decoded.e), map[]);
      }
      if !env.vcdConfigured {
        return Rejected(503, "vcd client not configured", map[]);
      }
      if env.lookup.Some? {
        return Rejected(502, "vcd lookup failed: " + Text(env.lookup.value), map[]);
      }
      if env.begin.Some? {
        return Rejected(500, "internal error", map[]);
      }
      if env.insert.Some? {
        return Rejected(500, "failed to enqueue job", map[]);
      }
      var id := nextID;
      nextID := nextID + 1;
      if !env.commit.CommitFailed? {
        queue := queue[id := ArgsOf(decoded.r)];
      }
      assert id !in old(queue);
      if !env.commit.CommitOk? {
        return Rejected(500, "internal error", map[]);
      }
      return Accepted(id);
    }
  }

  /** Each problem is reported under its own key, exactly when the field has it; so validation passes
      exactly when the five required strings are there and the numbers are in range. */
  lemma ValidationMeaning(r: Request)
    ensures "crm_id" in Problems(r) <==> r.clientID == ""
    ensures "client_first_name" in Problems(r) <==> r.clientFirstName == ""
    ensures "client_last_name" in Problems(r) <==> r.clientLastName == ""
    ensures "client_email" in Problems(r) <==> r.clientEmail == ""
    ensures "bandwidth" in Problems(r) <==> r.bandwidth == ""
    ensures "account_id" in Problems(r) <==> r.accountID <= 0
    ensures "max_zerto_storage" in Problems(r) <==> r.maxZertoStorage < 0
    ensures "max_zerto_vms" in Problems(r) <==> r.maxZertoVMs < 0
    ensures Problems(r) == map[] <==>
              && r.clientID != "" && r.clientFirstName != "" && r.clientLastName != "" && r.clientEmail != ""
              && r.bandwidth != "" && r.accountID > 0 && r.maxZertoStorage >= 0 && r.maxZertoVMs >= 0
  {
    hide Problems;
    ProblemsByKey(r);
    var maps := ProblemMaps(r);
    assert PROBLEM_KEYS[0] == "crm_id" && PROBLEM_KEYS[1] == "client_first_name" && PROBLEM_KEYS[2] == "client_last_name";
    assert PROBLEM_KEYS[3] == "client_email" && PROBLEM_KEYS[4] == "bandwidth" && PROBLEM_KEYS[5] == "account_id";
    assert PROBLEM_KEYS[6] == "max_zerto_storage" && PROBLEM_KEYS[7] == "max_zerto_vms";
  }

  /** The text that each problem comes with. */
  lemma ProblemTexts(r: Request, key: string)
    requires key in Problems(r)
    ensures key in PROBLEM_KEYS
    ensures Problems(r)[key] == if key == "account_id" then "must be a positive integer"
                                else if key == "max_zerto_storage" || key == "max_zerto_vms" then "must be zero or greater"
                                else "required"
  {
    hide Problems;
    ProblemsByKey(r);
    KeysDiffer();
    var i :| 0 <= i < |PROBLEM_KEYS| && PROBLEM_KEYS[i] == key;
    EachMapHasItsText(r, i);
    assert PROBLEM_KEYS[5] == "account_id" && PROBLEM_KEYS[6] == "max_zerto_storage" && PROBLEM_KEYS[7] == "max_zerto_vms";
  }

  lemma EachMapHasItsText(r: Request, i: nat)
    requires i < 8 && PROBLEM_KEYS[i] in ProblemMaps(r)[i]
    ensures ProblemMaps(r)[i][PROBLEM_KEYS[i]]
         == if i < 5 then "required" else if i == 5 then "must be a positive integer" else "must be zero or greater"
  {
  }

  lemma ProblemsByKey(r: Request)
    ensures forall i :: 0 <= i < 8 ==> (PROBLEM_KEYS[i] in Problems(r) <==> PROBLEM_KEYS[i] in ProblemMaps(r)[i])
    ensures forall i :: 0 <= i < 8 && PROBLEM_KEYS[i] in ProblemMaps(r)[i] ==>
              Problems(r)[PROBLEM_KEYS[i]] == ProblemMaps(r)[i][PROBLEM_KEYS[i]]
    ensures forall k :: k in Problems(r) ==> k in PROBLEM_KEYS
    ensures (forall i :: 0 <= i < 8 ==> PROBLEM_KEYS[i] !in Problems(r)) ==> Problems(r) == map[]
  {
    hide Union, ProblemMaps;
    KeysDiffer();
    EachMapHasItsKey(r);
    UnionByKey(PROBLEM_KEYS, ProblemMaps(r));
    if Problems(r) != map[] {
      var k :| k in Problems(r);
      assert k in PROBLEM_KEYS;
    }
  }

  lemma EachMapHasItsKey(r: Request)
    ensures |ProblemMaps(r)| == |PROBLEM_KEYS| == 8
    ensures forall i :: 0 <= i < 8 ==> ProblemMaps(r)[i].Keys <= {PROBLEM_KEYS[i]}
  {
  }

  lemma {:induction false} UnionByKey(keys: seq<string>, maps: seq<map<string, string>>)
    requires |keys| == |maps|
    requires forall m, n :: 0 <= m < n < |keys| ==> keys[m] != keys[n]
    requires forall m :: 0 <= m < |maps| ==> maps[m].Keys <= {keys[m]}
    ensures forall m :: 0 <= m < |keys| ==> (keys[m] in Union(maps) <==> keys[m] in maps[m])
    ensures forall m :: 0 <= m < |keys| && keys[m] in maps[m] ==> Union(maps)[keys[m]] == maps[m][keys[m]]
    ensures forall k :: k in Union(maps) ==> k in keys
  {
    if maps != [] {
      UnionByKey(keys[1..], maps[1..]);
      assert forall m :: 1 <= m < |keys| ==> keys[m] == keys[1..][m - 1] && maps[m] == maps[1..][m - 1];
    }
  }

  /** The validator's keys, told apart by a few of their letters. */
  lemma KeysDiffer()
    ensures forall m, n :: 0 <= m < n < |PROBLEM_KEYS| ==> PROBLEM_KEYS[m] != PROBLEM_KEYS[n]
  {
    assert "crm_id"[1] == 'r' && "bandwidth"[0] == 'b' && "account_id"[0] == 'a';
    assert "client_first_name"[7] == 'f' && "client_last_name"[7] == 'l' && "client_email"[7] == 'e';
    assert |"max_zerto_storage"| != |"max_zerto_vms"|;
  }

  // ---------- What a body and its surroundings lead to ----------

  /** Every known key that the object has holds null or a value of its field's type. */
  predicate WellTyped(fields: Data) {
    && (forall k :: k in STRING_KEYS && k in fields ==> fields[k].JString? || fields[k].JNull?)
    && (forall k :: k in INT_KEYS && k in fields ==>
          || fields[k].JNull?
          || (fields[k].JInt? && -0x8000_0000_0000_0000 <= fields[k].n <= 0x7FFF_FFFF_FFFF_FFFF))
  }

  /** The object has no text under this key. */
  predicate Blank(fields: Data, key: string) {
    key !in fields || fields[key].JNull? || fields[key] == JString("")
  }

  predicate Negative(fields: Data, key: string) {
    key in fields && fields[key].JInt? && fields[key].n < 0
  }

  predicate Positive(fields: Data, key: string) {
    key in fields && fields[key].JInt? && fields[key].n > 0
  }

  /** Nothing required is missing, and the numbers are in range. */
  predicate Complete(fields: Data) {
    && !Blank(fields, "crm_id") && !Blank(fields, "client_first_name") && !Blank(fields, "client_last_name")
    && !Blank(fields, "client_email") && !Blank(fields, "bandwidth")
    && Positive(fields, "account_id") && !Negative(fields, "max_zerto_storage") && !Negative(fields, "max_zerto_vms")
  }

  /** The problem that the object has under this key, if any. */
  function Problem(fields: Data, key: string): Option<string> {
    if key in {"crm_id", "client_first_name", "client_last_name", "client_email", "bandwidth"} then
      if Blank(fields, key) then Some("required") else None
    else if key == "account_id" then
      if Positive(fields, key) then None else Some("must be a positive integer")
    else if key in {"max_zerto_storage", "max_zerto_vms"} then
      if Negative(fields, key) then Some("must be zero or greater") else None
    else None
  }

  /** A null body is taken for an object without keys. */
  function FieldsOf(body: Body): Data
    requires !body.Malformed?
  {
    if body.NullBody? then map[] else body.fields
  }

  predicate Accepts(body: Body) {
    body.Object? && WellTyped(body.fields) && Complete(body.fields)
  }

  predicate Refuses(body: Body) {
    body.NullBody? || (body.Object? && WellTyped(body.fields) && !Complete(body.fields))
  }

  lemma WellTypedDecodes(fields: Data)
    ensures Decodes(fields) <==> WellTyped(fields)
  {
    if WellTyped(fields) {
      forall k | k in INT_KEYS ensures IntField(fields, k).Some? {}
    } else {
      if k :| k in STRING_KEYS && k in fields && !(fields[k].JString? || fields[k].JNull?) {
        assert StringField(fields, k).None?;
      } else {
        var k :| k in INT_KEYS && k in fields && !fields[k].JNull? && !(fields[k].JInt? && FitsInt(fields[k].n));
        assert IntField(fields, k).None?;
      }
    }
  }

  /** The request struct that a body gives. */
  lemma DecodedFields(fields: Data)
    requires Decodes(fields)
    ensures var r := DecodeRequest(fields);
            && (r.clientID == "" <==> Blank(fields, "crm_id"))
            && (r.clientFirstName == "" <==> Blank(fields, "client_first_name"))
            && (r.clientLastName == "" <==> Blank(fields, "client_last_name"))
            && (r.clientEmail == "" <==> Blank(fields, "client_email"))
            && (r.bandwidth == "" <==> Blank(fields, "bandwidth"))
            && (r.accountID > 0 <==> Positive(fields, "account_id"))
            && (r.maxZertoStorage < 0 <==> Negative(fields, "max_zerto_storage"))
            && (r.maxZertoVMs < 0 <==> Negative(fields, "max_zerto_vms"))
  {
  }

  lemma NullDecodes()
    ensures Decodes(map[])
  {
    assert forall k :: StringField(map[], k) == Some("");
    assert forall k :: IntField(map[], k) == Some(0);
  }

  lemma NullIsIncomplete()
    ensures !Complete(map[])
  {
    assert Blank(map[], "crm_id");
    hide Blank;
  }

  lemma NullIsEmpty()
    ensures Decodes(map[]) && DecodeRequest(map[]) == ZERO_REQUEST && !Complete(map[])
  {
    NullDecodes();
    NullIsIncomplete();
    hide Decodes, Complete;
    assert forall k | StringField(map[], k).Some? :: Str(map[], k) == "";
    assert forall k | IntField(map[], k).Some? :: Int(map[], k) == 0;
    hide Str, Int;
  }

  lemma ProblemsMeaning(fields: Data)
    requires Decodes(fields)
    ensures var problems := Problems(DecodeRequest(fields));
            && (problems == map[] <==> Complete(fields))
            && forall key :: (key in problems <==> Problem(fields, key).Some?)
                          && (key in problems ==> Some(problems[key]) == Problem(fields, key))
  {
    hide Decodes, DecodeRequest, Problems, Blank, Positive, Negative;
    var r := DecodeRequest(fields);
    DecodedFields(fields);
    ValidationMeaning(r);
    forall key ensures key in Problems(r) <==> Problem(fields, key).Some?
               ensures key in Problems(r) ==> Some(Problems(r)[key]) == Problem(fields, key)
    {
      OneProblem(fields, r, key);
    }
  }

  lemma OneProblem(fields: Data, r: Request, key: string)
    requires Decodes(fields) && r == DecodeRequest(fields)
    ensures key in Problems(r) <==> Problem(fields, key).Some?
    ensures key in Problems(r) ==> Some(Problems(r)[key]) == Problem(fields, key)
  {
    hide Decodes, DecodeRequest, Problems, Blank, Positive, Negative;
    DecodedFields(fields);
    ValidationMeaning(r);
    ProblemKeysListed(key);
    if key in Problems(r) { ProblemTexts(r, key); }
  }

  lemma ProblemKeysListed(key: string)
    ensures key in PROBLEM_KEYS <==>
              || key in {"crm_id", "client_first_name", "client_last_name", "client_email", "bandwidth"}
              || key == "account_id" || key in {"max_zerto_storage", "max_zerto_vms"}
  {
    var keys := PROBLEM_KEYS;
    assert keys[0] == "crm_id" && keys[1] == "client_first_name" && keys[2] == "client_last_name" && keys[3] == "client_email";
    assert keys[4] == "bandwidth" && keys[5] == "account_id" && keys[6] == "max_zerto_storage" && keys[7] == "max_zerto_vms";
  }

  /** Which bodies are requests, which have problems, and which do not decode, told from the body alone;
      the problems reported are exactly those of the object, key by key and with their texts. */
  lemma DecodeValidMeaning(body: Body)
    ensures DecodeValid(body).Valid? <==> Accepts(body)
    ensures DecodeValid(body).Invalid? <==> Refuses(body)
    ensures DecodeValid(body).Undecodable? <==> body.Malformed? || (body.Object? && !WellTyped(body.fields))
    ensures Accepts(body) ==> Decodes(body.fields) && DecodeValid(body).r == DecodeRequest(body.fields)
    ensures Refuses(body) ==>
              forall key :: (key in DecodeValid(body).problems <==> Problem(FieldsOf(body), key).Some?)
                         && (key in DecodeValid(body).problems ==> Some(DecodeValid(body).problems[key]) == Problem(FieldsOf(body), key))
    ensures body.Malformed? ==> Reports(DecodeValid(body).e, body.e)
  {
    hide Decodes, DecodeRequest, Problems, WellTyped, Complete, Problem;
    if body.Malformed? {
      ReportsItself(body.e);
    } else {
      var fields := FieldsOf(body);
      WellTypedDecodes(fields);
      NullIsEmpty();
      if Decodes(fields) { ProblemsMeaning(fields); }
    }
  }

  /** Nothing stands in the way of enqueuing. */
  predicate Clear(env: Env) {
    env.vcdConfigured && env.lookup.None? && env.begin.None? && env.insert.None?
  }

  /** Each status has its own cause, in the order of the handler's checks. */
  lemma StatusMeaning(nextID: int, body: Body, env: Env)
    ensures var r := ResponseTo(nextID, body, env);
            && (StatusOf(r) == 400 <==> body.Malformed? || (body.Object? && !WellTyped(body.fields)))
            && (StatusOf(r) == 422 <==> Refuses(body))
            && (StatusOf(r) == 503 <==> Accepts(body) && !env.vcdConfigured)
            && (StatusOf(r) == 502 <==> Accepts(body) && env.vcdConfigured && env.lookup.Some?)
            && (StatusOf(r) == 500 <==> Accepts(body) && env.vcdConfigured && env.lookup.None?
                                        && (env.begin.Some? || env.insert.Some? || !env.commit.CommitOk?))
            && (StatusOf(r) == 202 <==> Accepts(body) && Clear(env) && env.commit.CommitOk?)
            && (r.Accepted? ==> r.jobID == nextID)
    ensures ReachesCommit(body, env) <==> Accepts(body) && Clear(env)
  {
    hide DecodeValid, WellTyped, Complete, Text;
    DecodeValidMeaning(body);
  }

  /** A 422 lists exactly the problems of the object, each with its text. */
  lemma RefusalsListProblems(nextID: int, body: Body, env: Env, key: string)
    requires StatusOf(ResponseTo(nextID, body, env)) == 422
    ensures Refuses(body)
    ensures var problems := ResponseTo(nextID, body, env).problems;
            && (key in problems <==> Problem(FieldsOf(body), key).Some?)
            && (key in problems ==> Some(problems[key]) == Problem(FieldsOf(body), key))
  {
    DecodeValidMeaning(body);
    hide DecodeValid, WellTyped, Complete, Problem, Text;
  }

  /** The other refusals list none: they show the decoding error or the lookup's, or tell which part of
      enqueuing failed. */
  lemma RefusalsSayWhy(nextID: int, body: Body, env: Env)
    ensures var r := ResponseTo(nextID, body, env);
            && (StatusOf(r) in {400, 500, 502, 503} ==> r.problems == map[])
            && (StatusOf(r) == 400 && body.Malformed? ==> Shows(r.error, Text(body.e)))
            && (StatusOf(r) == 502 ==> env.lookup.Some? && Shows(r.error, Text(env.lookup.value)))
            && (StatusOf(r) == 500 ==> r.error == if env.begin.None? && env.insert.Some? then "failed to enqueue job" else "internal error")
  {
    hide DecodeValid, Shows, Text;
    if body.Malformed? { DecodingErrorShows(body); }
    if env.lookup.Some? {
      var text := Text(env.lookup.value);
      ShowsItself(text);
      ShowsAtTheEnd("vcd lookup failed: ", text, text);
    }
  }

  lemma DecodingErrorShows(body: Body)
    requires body.Malformed?
    ensures DecodeValid(body).Undecodable? && Shows(Text(DecodeValid(body).e), Text(body.e))
  {
    hide Shows;
    ReportsItself(body.e);
    TextShowsEveryCause(DecodeValid(body).e, body.e);
  }
}
