/**
 * The event store of the dashboard database (internal/db/store.go): appending a CDEvent row,
 * updating the service projections it feeds, batching appends in one transaction, and listing
 * the environments named by stored service events.
 *
 * The SQL statements are not modelled. Each query is a parameter that gives its answer for the
 * arguments at hand, and the model records the writes a call issues, in order. A transaction
 * commits those writes or none of them.
 */
module EventStore {
  import opened Wrappers
  import opened GoStrings

  /** The fields of an event-store row that the append logic reads. */
  datatype AppendParams = AppendParams(organizationId: int, subjectType: String, subjectId: String, eventId: String)

  /** The answer of the event-store INSERT: the new sequence number, or no row on a conflict. */
  datatype InsertError = NoRows | Failed(message: String)

  /** The statements an append issues. */
  datatype Write =
    | EventRow(params: AppendParams, eventSeq: int)
    | EnvState(organizationId: int, eventSeq: int)
    | DailyStats(organizationId: int, eventSeq: int)
    | ChangeLink(organizationId: int, eventSeq: int)
    | CurrentState(organizationId: int, serviceName: String)

  /** What appendEventWithProjections returns, and the writes it issued. */
  datatype Appended = Appended(inserted: bool, err: Option<String>, writes: seq<Write>)

  /** The outcome of a transaction: its error and the writes it made durable. */
  datatype TxOutcome = TxOutcome(began: bool, err: Option<String>, committed: seq<Write>)

  // ---------------------------------------------------------------------------
  // Booleans as integers

  /** The 1/0 encoding of the enabled flags. */
  function BoolToInt(b: bool): (r: int)
    ensures r == 0 || r == 1
    ensures r != 0 <==> b
  {
    if b then 1 else 0
  }

  // ---------------------------------------------------------------------------
  // Service names

  /**
   * serviceNameFromSubjectID: the trimmed text after the last "/" of the trimmed id, or the
   * whole trimmed id when it has no "/" or ends in one.
   */
  function ServiceNameFromSubjectID(subjectId: String): (r: String)
    ensures r == [] <==> IsBlank(subjectId)
    ensures TrimmedBy(r, Spaces) && HasSuffix(TrimSpace(subjectId), r)
    ensures '/' in r ==> r == TrimSpace(subjectId) && r[|r| - 1] == '/'
    ensures var id := TrimSpace(subjectId);
            forall i :: 0 <= i && i + 1 < |id| && id[i] == '/' && '/' !in id[i + 1..] ==> r == TrimSpace(id[i + 1..])
  {
    var id := TrimSpace(subjectId);
    LastSlashUnique(id);
    if id == [] then []
    else
      var idx := LastIndexOf(id, '/');
      if idx >= 0 && idx + 1 < |id| then LastSegment(id, idx) else id
  }

  /** A "/" with none after it is the one LastIndexOf finds. */
  lemma LastSlashUnique(id: String)
    ensures forall i :: 0 <= i < |id| && id[i] == '/' && '/' !in id[i + 1..] ==> LastIndexOf(id, '/') == i
  {
    forall i | 0 <= i < |id| && id[i] == '/' && '/' !in id[i + 1..]
      ensures LastIndexOf(id, '/') == i
    {
      var r := LastIndexOf(id, '/');
      assert forall j :: i < j < |id| ==> id[j] == id[i + 1..][j - i - 1];
    }
  }

  /** The trimmed text after position `idx` of a trimmed id, when no "/" follows `idx`. */
  function LastSegment(id: String, idx: int): (r: String)
    requires id != [] && TrimmedBy(id, Spaces) && 0 <= idx && idx + 1 < |id|
    requires forall j :: idx < j < |id| ==> id[j] != '/'
    ensures r != [] && TrimmedBy(r, Spaces) && HasSuffix(id, r) && '/' !in r
  {
    var tail := id[idx + 1..];
    assert tail[|tail| - 1] == id[|id| - 1];
    assert HasSuffix(id, tail);
    assert '/' !in tail by {
      forall j | 0 <= j < |tail| ensures tail[j] != '/' {
        assert tail[j] == id[idx + 1 + j];
      }
    }
    TrimSpaceSuffix(tail);
    SuffixOfSuffix(id, tail, TrimSpace(tail), '/');
    TrimSpace(tail)
  }

  /** A suffix of a suffix is a suffix, and has no character the longer one lacks. */
  lemma SuffixOfSuffix(s: String, t: String, r: String, c: char)
    requires HasSuffix(s, t) && HasSuffix(t, r) && c !in t
    ensures HasSuffix(s, r) && c !in r
  {
    assert forall j :: 0 <= j < |r| ==> r[j] == t[|t| - |r| + j];
    assert forall j :: 0 <= j < |r| ==> r[j] == s[|s| - |r| + j];
  }

  /** The name at the end of a path-shaped subject id is the service name. */
  lemma ServiceNameOfPath(prefix: String, name: String)
    requires name != [] && TrimmedBy(name, Spaces) && '/' !in name
    requires prefix == [] || !IsSpace(prefix[0])
    ensures ServiceNameFromSubjectID(prefix + "/" + name) == name
  {
    PathShape(prefix, name);
  }

  lemma PathShape(prefix: String, name: String)
    requires name != [] && TrimmedBy(name, Spaces) && '/' !in name
    requires prefix == [] || !IsSpace(prefix[0])
    ensures var id := prefix + "/" + name;
            TrimSpace(id) == id && id != [] && LastIndexOf(id, '/') == |prefix| && id[|prefix| + 1..] == name
  {
    var id := prefix + ['/'] + name;
    assert id[0] == (if prefix == [] then '/' else prefix[0]);
    assert id[|id| - 1] == name[|name| - 1];
    LastIndexOfConcat(prefix, '/', name);
    assert id[|prefix| + 1..] == name;
  }

  // ---------------------------------------------------------------------------
  // Appending one event

  const ServiceSubject: String := "service"

  /** The subject type selects the service projections, compared trimmed and lower-cased. */
  predicate IsServiceSubject(p: AppendParams)
  {
    TrimSpace(ToLower(p.subjectType)) == ServiceSubject
  }

  /** The projection upserts for a service event with sequence number `eventSeq`, in issue order. */
  function ProjectionWrites(p: AppendParams, eventSeq: int): (r: seq<Write>)
    ensures |r| == 3 || |r| == 4
    ensures (|r| == 4) <==> ServiceNameFromSubjectID(p.subjectId) != []
  {
    var name := ServiceNameFromSubjectID(p.subjectId);
    [EnvState(p.organizationId, eventSeq), DailyStats(p.organizationId, eventSeq), ChangeLink(p.organizationId, eventSeq)]
    + (if name == [] then [] else [CurrentState(p.organizationId, name)])
  }

  /** Issues `todo` after `done`, stopping at the first statement that fails. */
  function RunWrites(done: seq<Write>, todo: seq<Write>, exec: Write -> Option<String>): (r: Appended)
    ensures r.inserted <==> r.err.None?
    ensures done <= r.writes <= done + todo
    ensures r.err.None? <==> (forall k :: 0 <= k < |todo| ==> exec(todo[k]).None?)
    ensures r.err.None? ==> r.writes == done + todo
    ensures r.err.Some? ==> |r.writes| < |done + todo| && exec((done + todo)[|r.writes|]) == r.err
    decreases |todo|
  {
    if todo == [] then Appended(true, None, done)
    else match exec(todo[0])
      case Some(e) => Appended(false, Some(e), done)
      case None =>
        var r := RunWrites(done + [todo[0]], todo[1..], exec);
        assert forall k :: 1 <= k < |todo| ==> todo[k] == todo[1..][k - 1];
        assert done + [todo[0]] + todo[1..] == done + todo;
        r
  }

  /**
   * appendEventWithProjections: the INSERT, then, for a service event, the three projection
   * upserts and, when the subject names a service, the current-state upsert.
   */
  function AppendWithProjections(p: AppendParams, insert: AppendParams -> Result<int, InsertError>,
                                 exec: Write -> Option<String>): Appended
  {
    match insert(p)
    case Err(NoRows) => Appended(false, None, [])
    case Err(Failed(m)) => Appended(false, Some(m), [])
    case Ok(eventSeq) =>
      var row := [EventRow(p, eventSeq)];
      if TrimSpace(ToLower(p.subjectType)) != ServiceSubject then Appended(true, None, row)
      else RunWrites(row, ProjectionWrites(p, eventSeq), exec)
  }

  /**
   * A conflicting INSERT is a duplicate: not inserted, no error, nothing written. A non-service
   * event is inserted without projections; a service event issues all its projections or fails.
   */
  lemma AppendOutcomes(p: AppendParams, insert: AppendParams -> Result<int, InsertError>, exec: Write -> Option<String>)
    ensures var r := AppendWithProjections(p, insert, exec);
            (insert(p) == Err(NoRows) ==> r == Appended(false, None, [])) &&
            (insert(p).Err? && insert(p).error.Failed? ==> r == Appended(false, Some(insert(p).error.message), [])) &&
            (r.inserted <==> r.err.None? && insert(p).Ok?) &&
            (insert(p).Ok? && !IsServiceSubject(p) ==> r == Appended(true, None, [EventRow(p, insert(p).value)])) &&
            (insert(p).Ok? && IsServiceSubject(p) && r.err.None? ==>
               r.writes == [EventRow(p, insert(p).value)] + ProjectionWrites(p, insert(p).value))
  {
  }

  /** Only a service event whose subject names a service updates the current state, for that name. */
  lemma CurrentStateOnlyForNamedService(p: AppendParams, insert: AppendParams -> Result<int, InsertError>,
                                        exec: Write -> Option<String>, w: Write)
    requires w in AppendWithProjections(p, insert, exec).writes && w.CurrentState?
    ensures IsServiceSubject(p) && w.serviceName == ServiceNameFromSubjectID(p.subjectId) != []
    ensures w.organizationId == p.organizationId
  {
    var eventSeq := insert(p).value;
    if IsServiceSubject(p) {
      var pw := ProjectionWrites(p, eventSeq);
      WrittenFrom([EventRow(p, eventSeq)], pw, exec, w);
      CurrentStateIsLast(p, eventSeq, w);
    }
  }

  lemma WrittenFrom(done: seq<Write>, todo: seq<Write>, exec: Write -> Option<String>, w: Write)
    requires w in RunWrites(done, todo, exec).writes
    ensures w in done || w in todo
  {
    var r := RunWrites(done, todo, exec).writes;
    var i :| 0 <= i < |r| && r[i] == w;
    assert (done + todo)[i] == w;
  }

  lemma CurrentStateIsLast(p: AppendParams, eventSeq: int, w: Write)
    requires w in ProjectionWrites(p, eventSeq) && w.CurrentState?
    ensures w == CurrentState(p.organizationId, ServiceNameFromSubjectID(p.subjectId))
    ensures ServiceNameFromSubjectID(p.subjectId) != []
  {
    CurrentStateWrite(p.organizationId, eventSeq, ServiceNameFromSubjectID(p.subjectId), w);
  }

  lemma CurrentStateWrite(organizationId: int, eventSeq: int, name: String, w: Write)
    requires w.CurrentState?
    requires w in [EnvState(organizationId, eventSeq), DailyStats(organizationId, eventSeq), ChangeLink(organizationId, eventSeq)]
                  + (if name == [] then [] else [CurrentState(organizationId, name)])
    ensures name != [] && w == CurrentState(organizationId, name)
  {
  }

  /** Every statement a successful service append issues names the new event's sequence or service. */
  lemma ProjectionsFollowInsert(p: AppendParams, insert: AppendParams -> Result<int, InsertError>,
                                exec: Write -> Option<String>)
    requires AppendWithProjections(p, insert, exec).writes != []
    ensures insert(p).Ok?
    ensures AppendWithProjections(p, insert, exec).writes[0] == EventRow(p, insert(p).value)
  {
  }

  // ---------------------------------------------------------------------------
  // Transactions

  /**
   * WithTx: a failed BEGIN is returned; a failed body is rolled back, and a rollback error
   * replaces the body's; otherwise the COMMIT's answer is returned.
   */
  function WithTx(beginErr: Option<String>, body: Appended, rollbackErr: Option<String>,
                  commitErr: Option<String>): (r: TxOutcome)
    ensures r.began <==> beginErr.None?
    ensures r.err.None? <==> beginErr.None? && body.err.None? && commitErr.None?
    ensures r.committed == (if r.err.None? then body.writes else [])
    ensures beginErr.None? && body.err.Some? ==> r.err == (if rollbackErr.Some? then rollbackErr else body.err)
  {
    if beginErr.Some? then TxOutcome(false, beginErr, [])
    else if body.err.Some? then TxOutcome(true, if rollbackErr.Some? then rollbackErr else body.err, [])
    else if commitErr.Some? then TxOutcome(true, commitErr, [])
    else TxOutcome(true, None, body.writes)
  }

  /** AppendEventStore: one append in its own transaction. */
  function AppendEventStore(p: AppendParams, insert: AppendParams -> Result<int, InsertError>,
                            exec: Write -> Option<String>, beginErr: Option<String>,
                            rollbackErr: Option<String>, commitErr: Option<String>): (r: TxOutcome)
    ensures r.err.None? && insert(p) == Err(NoRows) ==> r.committed == []
    ensures r.err.None? <==> beginErr.None? && commitErr.None? && AppendWithProjections(p, insert, exec).err.None?
  {
    WithTx(beginErr, AppendWithProjections(p, insert, exec), rollbackErr, commitErr)
  }

  /** The body of the batch transaction: each item in turn, stopping at the first error. */
  function BatchBody(items: seq<AppendParams>, insert: AppendParams -> Result<int, InsertError>,
                     exec: Write -> Option<String>): (r: Appended)
    ensures r.inserted <==> r.err.None?
  {
    if items == [] then Appended(true, None, [])
    else
      var first := AppendWithProjections(items[0], insert, exec);
      if first.err.Some? then Appended(false, first.err, [])
      else After(first.writes, BatchBody(items[1..], insert, exec))
  }

  /** `a` with `done` issued before it. */
  function After(done: seq<Write>, a: Appended): (r: Appended)
    ensures r.inserted == a.inserted && r.err == a.err && r.writes == done + a.writes
  {
    Appended(a.inserted, a.err, done + a.writes)
  }

  lemma AfterAfter(w1: seq<Write>, w2: seq<Write>, a: Appended)
    ensures After(w1, After(w2, a)) == After(w1 + w2, a)
  {
    assert w1 + (w2 + a.writes) == (w1 + w2) + a.writes;
  }

  /** The batch fails exactly when one of its items fails, with the first item's error. */
  lemma {:induction false} BatchBodyFails(items: seq<AppendParams>, insert: AppendParams -> Result<int, InsertError>,
                                          exec: Write -> Option<String>)
    ensures BatchBody(items, insert, exec).err.None? <==>
            forall k :: 0 <= k < |items| ==> AppendWithProjections(items[k], insert, exec).err.None?
  {
    if items != [] {
      BatchBodyFails(items[1..], insert, exec);
      assert forall k :: 1 <= k < |items| ==> items[k] == items[1..][k - 1];
    }
  }

  /** The writes of a batch are those of its items, in item order. */
  function AllWrites(items: seq<AppendParams>, insert: AppendParams -> Result<int, InsertError>,
                     exec: Write -> Option<String>): seq<Write>
  {
    if items == [] then [] else AppendWithProjections(items[0], insert, exec).writes + AllWrites(items[1..], insert, exec)
  }

  lemma {:induction false} BatchBodyWrites(items: seq<AppendParams>, insert: AppendParams -> Result<int, InsertError>,
                                           exec: Write -> Option<String>)
    requires BatchBody(items, insert, exec).err.None?
    ensures BatchBody(items, insert, exec).writes == AllWrites(items, insert, exec)
  {
    if items != [] {
      BatchBodyWrites(items[1..], insert, exec);
    }
  }

  /** A duplicate in a batch contributes no write, and the batch goes on. */
  lemma DuplicateInBatchSkipped(p: AppendParams, items: seq<AppendParams>,
                                insert: AppendParams -> Result<int, InsertError>, exec: Write -> Option<String>)
    requires insert(p) == Err(NoRows)
    ensures AllWrites([p] + items, insert, exec) == AllWrites(items, insert, exec)
    ensures BatchBody([p] + items, insert, exec) == BatchBody(items, insert, exec)
  {
    assert ([p] + items)[1..] == items;
  }

  /**
   * AppendEventStoreBatch: nothing at all for an empty batch; otherwise one transaction that
   * appends each item in turn and is rolled back as a whole on the first error.
   */
  method AppendEventStoreBatch(items: seq<AppendParams>, insert: AppendParams -> Result<int, InsertError>,
                               exec: Write -> Option<String>, beginErr: Option<String>,
                               rollbackErr: Option<String>, commitErr: Option<String>) returns (r: TxOutcome)
    ensures items == [] ==> r == TxOutcome(false, None, [])
    ensures items != [] ==> r == WithTx(beginErr, BatchBody(items, insert, exec), rollbackErr, commitErr)
    ensures r.err.None? && items != [] ==> r.committed == AllWrites(items, insert, exec)
  {
    if |items| == 0 {
      return TxOutcome(false, None, []);
    }
    if beginErr.Some? {
      return TxOutcome(false, beginErr, []);
    }
    var err, writes := AppendAll(items, insert, exec);
    if err.Some? {
      var e := if rollbackErr.Some? then rollbackErr else err;
      return TxOutcome(true, e, []);
    }
    BatchBodyWrites(items, insert, exec);
    if commitErr.Some? {
      return TxOutcome(true, commitErr, []);
    }
    return TxOutcome(true, None, writes);
  }

  /** The transaction body of the batch: each item in turn, returning the first error. */
  method AppendAll(items: seq<AppendParams>, insert: AppendParams -> Result<int, InsertError>,
                   exec: Write -> Option<String>) returns (err: Option<String>, writes: seq<Write>)
    ensures err == BatchBody(items, insert, exec).err
    ensures err.None? ==> writes == BatchBody(items, insert, exec).writes
  {
    writes := [];
    var i := 0;
    assert items[0..] == items;
    assert After([], BatchBody(items, insert, exec)) == BatchBody(items, insert, exec);
    while i < |items|
      invariant 0 <= i <= |items|
      invariant BatchBody(items, insert, exec) == After(writes, BatchBody(items[i..], insert, exec))
    {
      var a := AppendWithProjections(items[i], insert, exec);
      BatchStep(items, i, insert, exec);
      if a.err.Some? {
        return a.err, writes;
      }
      AfterAfter(writes, a.writes, BatchBody(items[i + 1..], insert, exec));
      writes := writes + a.writes;
      i := i + 1;
    }
    assert items[i..] == [];
    return None, writes;
  }

  /** One step of the batch loop: the item at `i` either fails the rest of the batch or is issued before it. */
  lemma BatchStep(items: seq<AppendParams>, i: int, insert: AppendParams -> Result<int, InsertError>,
                  exec: Write -> Option<String>)
    requires 0 <= i < |items|
    ensures var a := AppendWithProjections(items[i], insert, exec);
            var b := BatchBody(items[i..], insert, exec);
            (a.err.Some? ==> b.err == a.err) &&
            (a.err.None? ==> b == After(a.writes, BatchBody(items[i + 1..], insert, exec)))
  {
    assert items[i..][0] == items[i];
    assert items[i..][1..] == items[i + 1..];
  }

  /** A batch of one item commits what the single append commits. */
  lemma SingletonBatch(p: AppendParams, insert: AppendParams -> Result<int, InsertError>,
                       exec: Write -> Option<String>, beginErr: Option<String>,
                       rollbackErr: Option<String>, commitErr: Option<String>)
    ensures WithTx(beginErr, BatchBody([p], insert, exec), rollbackErr, commitErr)
            == AppendEventStore(p, insert, exec, beginErr, rollbackErr, commitErr)
  {
    var a := AppendWithProjections(p, insert, exec);
    assert [p][1..] == [];
    assert a.writes + [] == a.writes;
  }

  // ---------------------------------------------------------------------------
  // Discovered environments

  /** A value of the environment column: NULL, text, bytes, or any other value as fmt.Sprint prints it. */
  datatype Cell = Null | Text(text: String) | Bytes(bytes: String) | Other(printed: String)

  /** The non-blank trimmed text of a cell, if any. */
  function CellText(c: Cell): (r: Option<String>)
    ensures r.Some? ==> r.value != [] && TrimmedBy(r.value, Spaces)
    ensures c.Null? ==> r.None?
  {
    match c
    case Null => None
    case Text(t) => if TrimSpace(t) == [] then None else Some(TrimSpace(t))
    case Bytes(b) => if TrimSpace(b) == [] then None else Some(TrimSpace(b))
    case Other(s) => if TrimSpace(s) == [] then None else Some(TrimSpace(s))
  }

  /** The environments of the rows, in row order. */
  function EnvironmentsOf(rows: seq<Cell>): (r: seq<String>)
    ensures |r| <= |rows|
  {
    if rows == [] then []
    else match CellText(rows[0])
      case None => EnvironmentsOf(rows[1..])
      case Some(t) => [t] + EnvironmentsOf(rows[1..])
  }

  lemma {:induction false} EnvironmentsOfConcat(a: seq<Cell>, b: seq<Cell>)
    ensures EnvironmentsOf(a + b) == EnvironmentsOf(a) + EnvironmentsOf(b)
  {
    if a == [] {
      assert a + b == b;
    } else {
      assert (a + b)[1..] == a[1..] + b;
      EnvironmentsOfConcat(a[1..], b);
    }
  }

  /** Every listed environment is the non-blank trimmed text of a row. */
  lemma {:induction false} EnvironmentsComeFromRows(rows: seq<Cell>, e: String)
    requires e in EnvironmentsOf(rows)
    ensures e != [] && TrimmedBy(e, Spaces)
    ensures exists k :: 0 <= k < |rows| && CellText(rows[k]) == Some(e)
  {
    if CellText(rows[0]) != Some(e) {
      EnvironmentsComeFromRows(rows[1..], e);
      var k :| 0 <= k < |rows[1..]| && CellText(rows[1..][k]) == Some(e);
      assert rows[k + 1] == rows[1..][k];
    }
  }

  /** ListDistinctServiceEnvironmentsFromEvents: the query's error, or the non-blank trimmed values in order. */
  method ListDistinctServiceEnvironments(rows: Result<seq<Cell>, String>) returns (r: Result<seq<String>, String>)
    ensures rows.Err? ==> r == Err(rows.error)
    ensures rows.Ok? ==> r == Ok(EnvironmentsOf(rows.value))
  {
    if rows.Err? {
      return Err(rows.error);
    }
    var cells := rows.value;
    var result: seq<String> := [];
    var i := 0;
    while i < |cells|
      invariant 0 <= i <= |cells|
      invariant result == EnvironmentsOf(cells[..i])
    {
      EnvironmentsOfConcat(cells[..i], [cells[i]]);
      assert cells[..i + 1] == cells[..i] + [cells[i]];
      var text := CellText(cells[i]);
      if text.Some? {
        result := result + [text.value];
      }
      i := i + 1;
    }
    assert cells[..i] == cells;
    return Ok(result);
  }
}
