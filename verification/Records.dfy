/** Workflow records and their SQL rows (internal/workflow/state.go and the table in
    internal/db/migrations/001_workflow_state.up.sql). */
module Records {
  import opened Wrappers
  import opened Errors

  // ---------- JSON values and the accumulator ----------

  /** A raw JSON value, as far as the readers below can tell values apart. */
  datatype Json = JString(s: string) | JInt(n: int) | JNull | JOther | JInvalid

  type Data = map<string, Json>

  /** A Go int. */
  predicate FitsInt(n: int) {
    -0x8000_0000_0000_0000 <= n < 0x8000_0000_0000_0000
  }

  datatype Status = Pending | Running | Completed | Failed

  /** The values of one WorkflowState; a nil data map is None. */
  datatype State = State(
    id: string, jobID: int, workflowType: string, clientID: string, orderID: string,
    currentStep: int, status: Status, error: string, data: Option<Data>)

  function Contents(data: Option<Data>): Data {
    match data
    case None => map[]
    case Some(m) => m
  }

  /** json.Marshal of the data map fails when one raw value is not JSON. */
  predicate Marshals(data: Option<Data>) {
    forall k :: k in Contents(data) ==> !Contents(data)[k].JInvalid?
  }

  class WorkflowState {
    var id: string
    var jobID: int
    var workflowType: string
    var clientID: string
    var orderID: string
    var currentStep: int
    var status: Status
    var error: string
    var data: Option<Data>

    constructor (s: State)
      ensures Value() == s
    {
      id, jobID, workflowType, clientID, orderID := s.id, s.jobID, s.workflowType, s.clientID, s.orderID;
      currentStep, status, error, data := s.currentStep, s.status, s.error, s.data;
    }

    function Value(): State
      reads this
    {
      State(id, jobID, workflowType, clientID, orderID, currentStep, status, error, data)
    }

    /** JSON null decodes into the zero value without an error. */
    function GetString(key: string): (r: (string, bool))
      reads this`data
      ensures r.1 <==> key in Contents(data) && (Contents(data)[key].JString? || Contents(data)[key].JNull?)
      ensures r.1 && Contents(data)[key].JString? ==> r.0 == Contents(data)[key].s
      ensures !r.1 || Contents(data)[key].JNull? ==> r.0 == ""
    {
      if key !in Contents(data) then ("", false) else
      match Contents(data)[key]
      case JString(s) => (s, true)
      case JNull => ("", true)
      case _ => ("", false)
    }

    function GetInt(key: string): (r: (int, bool))
      reads this`data
      ensures r.1 <==> key in Contents(data)
                       && (Contents(data)[key].JNull? || (Contents(data)[key].JInt? && FitsInt(Contents(data)[key].n)))
      ensures r.1 && Contents(data)[key].JInt? ==> r.0 == Contents(data)[key].n
      ensures !r.1 || Contents(data)[key].JNull? ==> r.0 == 0
    {
      if key !in Contents(data) then (0, false) else
      match Contents(data)[key]
      case JInt(n) => if FitsInt(n) then (n, true) else (0, false)
      case JNull => (0, true)
      case _ => (0, false)
    }

    /** Set with the result of marshalling the value: None when it cannot be marshalled. */
    method Set(key: string, value: Option<Json>) returns (err: Option<Error>)
      modifies this`data
      ensures err.None? <==> value.Some?
      ensures value.Some? ==> data == Some(Contents(old(data))[key := value.value])
      ensures value.None? ==> data == old(data)
    {
      if value.None? {
        return Some(Wrap("marshal \"" + key + "\": ", Plain("json: unsupported type")));
      }
      if data.None? {
        data := Some(map[]);
      }
      data := Some(data.value[key := value.value]);
      return None;
    }
  }

  /** GetString's comment says the flag is false for a value that is not a string; JSON null is
      the one value for which that fails. */
  lemma GetStringAcceptsNull(w: WorkflowState, key: string)
    requires key in Contents(w.data)
    ensures (w.GetString(key).1 == Contents(w.data)[key].JString?) <==> !Contents(w.data)[key].JNull?
  {
  }

  // ---------- Rows ----------

  /** One row of workflow_state; NULL columns are None, and a nil data map is the JSON null. */
  datatype Row = Row(
    id: string, jobID: int, workflowType: string, clientID: string, orderID: Option<string>,
    currentStep: int, status: Status, error: Option<string>, data: Option<Data>, updatedAt: nat)

  function Nullable(s: string): Option<string> {
    if s == "" then None else Some(s)
  }

  function FromNullable(column: Option<string>): string {
    match column
    case None => ""
    case Some(s) => s
  }

  /** INSERT names neither current_step nor error, so both take their column defaults. */
  function InsertedRow(s: State, id: string, now: nat): Row {
    Row(id, s.jobID, s.workflowType, s.clientID, Nullable(s.orderID), 0, s.status, None, s.data, now)
  }

  function UpdatedRow(row: Row, s: State, now: nat): Row {
    row.(currentStep := s.currentStep, status := s.status, error := Nullable(s.error), data := s.data,
         updatedAt := now)
  }

  function Decode(row: Row): State {
    State(row.id, row.jobID, row.workflowType, row.clientID, FromNullable(row.orderID),
          row.currentStep, row.status, FromNullable(row.error), row.data)
  }

  /** What the database does with one call: it works, reports an error without an effect, or the
      process dies, before or after the call took effect. */
  datatype Fate = Works | Errs(e: Error) | Kills(applied: bool)

  datatype CallResult = Returned(err: Option<Error>) | Killed

  const DUPLICATE_KEY := Plain("duplicate key value violates unique constraint")

  function RowMissing(jobID: int): Error {
    Plain("workflow state row not found for job_id " + Decimal(jobID))
  }

  function CreateRow(rows: map<int, Row>, s: State, id: string, now: nat, fate: Fate): (map<int, Row>, CallResult) {
    if !Marshals(s.data) then (rows, Returned(Some(Wrap("marshal data: ", Plain("json: error")))))
    else match fate
      case Errs(e) => (rows, Returned(Some(e)))
      case Kills(false) => (rows, Killed)
      case _ =>
        var result := if fate.Kills? then Killed else if s.jobID in rows then Returned(Some(DUPLICATE_KEY)) else Returned(None);
        (if s.jobID in rows then rows else rows[s.jobID := InsertedRow(s, id, now)], result)
  }

  function UpdateRow(rows: map<int, Row>, s: State, now: nat, fate: Fate): (map<int, Row>, CallResult) {
    if !Marshals(s.data) then (rows, Returned(Some(Wrap("marshal data: ", Plain("json: error")))))
    else match fate
      case Errs(e) => (rows, Returned(Some(e)))
      case Kills(false) => (rows, Killed)
      case _ =>
        var result := if fate.Kills? then Killed else if s.jobID in rows then Returned(None) else Returned(Some(RowMissing(s.jobID)));
        (if s.jobID in rows then rows[s.jobID := UpdatedRow(rows[s.jobID], s, now)] else rows, result)
  }

  /** The rows one transaction sees. */
  class Tx {
    var rows: map<int, Row>
    var now: nat

    constructor (rows: map<int, Row>, now: nat)
      ensures this.rows == rows && this.now == now
    {
      this.rows, this.now := rows, now;
    }
  }

  class PgxRepository {
    constructor () {}

    method Create(tx: Tx, state: WorkflowState, id: string, fate: Fate) returns (r: CallResult)
      modifies tx`rows, state`id
      ensures (tx.rows, r) == CreateRow(old(tx.rows), old(state.Value()), id, tx.now, fate)
      ensures state.Value() == old(state.Value()).(id := if r == Returned(None) then id else old(state.id))
    {
      if !Marshals(state.data) {
        return Returned(Some(Wrap("marshal data: ", Plain("json: error"))));
      }
      match fate {
        case Errs(e) => return Returned(Some(e));
        case Kills(applied) =>
          if applied && state.jobID !in tx.rows {
            tx.rows := tx.rows[state.jobID := InsertedRow(state.Value(), id, tx.now)];
          }
          return Killed;
        case Works =>
          if state.jobID in tx.rows {
            return Returned(Some(DUPLICATE_KEY));
          }
          tx.rows := tx.rows[state.jobID := InsertedRow(state.Value(), id, tx.now)];
          state.id := id;
          return Returned(None);
      }
    }

    method Get(tx: Tx, jobID: int, fate: Fate) returns (s: Option<WorkflowState>, r: CallResult)
      ensures s.Some? ==> fresh(s.value) && jobID in tx.rows && s.value.Value() == Decode(tx.rows[jobID])
      ensures s.Some? <==> r == Returned(None)
      ensures fate.Works? ==> r == Returned(if jobID in tx.rows then None else Some(RowNotFound))
      ensures fate.Errs? ==> r == Returned(Some(Wrap("query workflow state: ", fate.e)))
      ensures fate.Kills? ==> r == Killed
    {
      match fate {
        case Errs(e) => return None, Returned(Some(Wrap("query workflow state: ", e)));
        case Kills(_) => return None, Killed;
        case Works =>
          if jobID !in tx.rows {
            return None, Returned(Some(RowNotFound));
          }
          var w := new WorkflowState(Decode(tx.rows[jobID]));
          return Some(w), Returned(None);
      }
    }

    method UpdateStep(tx: Tx, state: WorkflowState, fate: Fate) returns (r: CallResult)
      modifies tx`rows
      ensures (tx.rows, r) == UpdateRow(old(tx.rows), state.Value(), tx.now, fate)
    {
      if !Marshals(state.data) {
        return Returned(Some(Wrap("marshal data: ", Plain("json: error"))));
      }
      match fate {
        case Errs(e) => return Returned(Some(e));
        case Kills(applied) =>
          if applied && state.jobID in tx.rows {
            tx.rows := tx.rows[state.jobID := UpdatedRow(tx.rows[state.jobID], state.Value(), tx.now)];
          }
          return Killed;
        case Works =>
          if state.jobID !in tx.rows {
            return Returned(Some(RowMissing(state.jobID)));
          }
          tx.rows := tx.rows[state.jobID := UpdatedRow(tx.rows[state.jobID], state.Value(), tx.now)];
          return Returned(None);
      }
    }
  }

  // ---------- The plain map that the rows stand for ----------

  function Table(rows: map<int, Row>): map<int, State> {
    map j | j in rows :: Decode(rows[j])
  }

  /** Storing a state under its job id, unless something is stored there already. */
  function Put(db: map<int, State>, s: State, id: string, fate: Fate): (map<int, State>, CallResult) {
    if !Marshals(s.data) then (db, Returned(Some(Wrap("marshal data: ", Plain("json: error")))))
    else match fate
      case Errs(e) => (db, Returned(Some(e)))
      case Kills(applied) => (if applied && s.jobID !in db then db[s.jobID := s.(id := id)] else db, Killed)
      case Works =>
        if s.jobID in db then (db, Returned(Some(DUPLICATE_KEY))) else (db[s.jobID := s.(id := id)], Returned(None))
  }

  /** Everything an update changes; id, type, client and order stay as they were created. */
  function Merge(stored: State, s: State): State {
    stored.(currentStep := s.currentStep, status := s.status, error := s.error, data := s.data)
  }

  function Change(db: map<int, State>, s: State, fate: Fate): (map<int, State>, CallResult) {
    if !Marshals(s.data) then (db, Returned(Some(Wrap("marshal data: ", Plain("json: error")))))
    else match fate
      case Errs(e) => (db, Returned(Some(e)))
      case Kills(applied) =>
        (if applied && s.jobID in db then db[s.jobID := Merge(db[s.jobID], s)] else db, Killed)
      case Works =>
        if s.jobID in db then (db[s.jobID := Merge(db[s.jobID], s)], Returned(None))
        else (db, Returned(Some(RowMissing(s.jobID))))
  }

  lemma CreateRefinesPut(rows: map<int, Row>, s: State, id: string, now: nat, fate: Fate)
    requires s.currentStep == 0 && s.error == ""
    ensures var (rows', r) := CreateRow(rows, s, id, now, fate); Put(Table(rows), s, id, fate) == (Table(rows'), r)
  {
    assert Decode(InsertedRow(s, id, now)) == s.(id := id);
    assert Table(rows[s.jobID := InsertedRow(s, id, now)]) == Table(rows)[s.jobID := s.(id := id)];
  }

  lemma UpdateRefinesChange(rows: map<int, Row>, s: State, now: nat, fate: Fate)
    ensures var (rows', r) := UpdateRow(rows, s, now, fate); Change(Table(rows), s, fate) == (Table(rows'), r)
  {
    if s.jobID in rows {
      var row := UpdatedRow(rows[s.jobID], s, now);
      assert Table(rows[s.jobID := row]) == Table(rows)[s.jobID := Merge(Table(rows)[s.jobID], s)];
    }
  }

  /** A created row reads back as the state it was made from exactly when that state is at step 0
      without an error: INSERT leaves both columns out. */
  lemma CreateRoundTripExactlyWhen(s: State, id: string, now: nat)
    ensures Decode(InsertedRow(s, id, now)) == s.(id := id) <==> s.currentStep == 0 && s.error == ""
  {
  }

  // ---------- Any sequence of repository calls ----------

  datatype Op =
    | Create(s: State, id: string, now: nat, fate: Fate)
    | Update(s: State, now: nat, fate: Fate)
    | Get(jobID: int)

  /** What a caller sees of one operation. */
  datatype Seen = Answer(r: CallResult) | Read(found: Option<State>)

  function OnRows(rows: map<int, Row>, op: Op): (map<int, Row>, Seen) {
    match op
    case Create(s, id, now, fate) => var (rs, r) := CreateRow(rows, s, id, now, fate); (rs, Answer(r))
    case Update(s, now, fate) => var (rs, r) := UpdateRow(rows, s, now, fate); (rs, Answer(r))
    case Get(j) => (rows, Read(if j in rows then Some(Decode(rows[j])) else None))
  }

  function OnMap(db: map<int, State>, op: Op): (map<int, State>, Seen) {
    match op
    case Create(s, id, _, fate) => var (d, r) := Put(db, s, id, fate); (d, Answer(r))
    case Update(s, _, fate) => var (d, r) := Change(db, s, fate); (d, Answer(r))
    case Get(j) => (db, Read(if j in db then Some(db[j]) else None))
  }

  function RunOnRows(rows: map<int, Row>, ops: seq<Op>): (map<int, Row>, seq<Seen>)
    decreases |ops|
  {
    if ops == [] then (rows, []) else
    var (next, seen) := OnRows(rows, ops[0]);
    var (last, more) := RunOnRows(next, ops[1..]);
    (last, [seen] + more)
  }

  function RunOnMap(db: map<int, State>, ops: seq<Op>): (map<int, State>, seq<Seen>)
    decreases |ops|
  {
    if ops == [] then (db, []) else
    var (next, seen) := OnMap(db, ops[0]);
    var (last, more) := RunOnMap(next, ops[1..]);
    (last, [seen] + more)
  }

  lemma OpRefines(rows: map<int, Row>, op: Op)
    requires op.Create? ==> op.s.currentStep == 0 && op.s.error == ""
    ensures OnMap(Table(rows), op) == (Table(OnRows(rows, op).0), OnRows(rows, op).1)
  {
    match op
    case Create(s, id, now, fate) => CreateRefinesPut(rows, s, id, now, fate);
    case Update(s, now, fate) => UpdateRefinesChange(rows, s, now, fate);
    case Get(_) =>
  }

  /** For every sequence of calls that creates only fresh states, the rows decode to the entries
      of the plain map, and callers see the same answers from both. */
  lemma {:induction false} RowsRefineMap(rows: map<int, Row>, ops: seq<Op>)
    requires forall op :: op in ops && op.Create? ==> op.s.currentStep == 0 && op.s.error == ""
    ensures RunOnMap(Table(rows), ops) == (Table(RunOnRows(rows, ops).0), RunOnRows(rows, ops).1)
    decreases |ops|
  {
    if ops != [] {
      assert ops[0] in ops;
      OpRefines(rows, ops[0]);
      RowsRefineMap(OnRows(rows, ops[0]).0, ops[1..]);
    }
  }

  // ---------- The update time ----------

  /** The call changes the row of job j, with the clock at `now`. */
  predicate WritesAt(rows: map<int, Row>, op: Op, j: int, now: nat) {
    match op
    case Create(s, _, t, fate) =>
      s.jobID == j && j !in rows && t == now && Marshals(s.data) && (fate.Works? || fate == Kills(true))
    case Update(s, t, fate) =>
      s.jobID == j && j in rows && t == now && Marshals(s.data) && (fate.Works? || fate == Kills(true))
    case Get(_) => false
  }

  /** A row that a call changes carries the clock's time of that call, and a row that it does not
      change stays as it is. */
  lemma UpdateTimeIsLastWrite(rows: map<int, Row>, op: Op, j: int)
    ensures var rows' := OnRows(rows, op).0;
            && (forall now: nat :: WritesAt(rows, op, j, now) ==> j in rows' && rows'[j].updatedAt == now)
            && ((forall now: nat :: !WritesAt(rows, op, j, now)) ==>
                  (j in rows' <==> j in rows) && (j in rows ==> rows'[j] == rows[j]))
  {
    match op
    case Create(s, _, t, _) => assert WritesAt(rows, op, j, t) || forall now: nat :: !WritesAt(rows, op, j, now);
    case Update(s, t, _) => assert WritesAt(rows, op, j, t) || forall now: nat :: !WritesAt(rows, op, j, now);
    case Get(_) =>
  }

  /** The columns no update names. */
  ghost predicate SameIdentity(a: Row, b: Row) {
    && a.id == b.id && a.jobID == b.jobID && a.workflowType == b.workflowType
    && a.clientID == b.clientID && a.orderID == b.orderID
  }

  /** Whatever is called, a stored row keeps its id, job, type, client and order. */
  lemma {:induction false} CallsKeepIdentity(rows: map<int, Row>, ops: seq<Op>, j: int)
    requires j in rows
    ensures j in RunOnRows(rows, ops).0 && SameIdentity(RunOnRows(rows, ops).0[j], rows[j])
    decreases |ops|
  {
    if ops != [] {
      CallsKeepIdentity(OnRows(rows, ops[0]).0, ops[1..], j);
    }
  }
}
