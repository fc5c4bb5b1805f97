/** The transaction protocol of ProcessListQuery (rest/pages-db.go): the page
    query and `SELECT FOUND_ROWS()` run inside one transaction; every failure
    closes what is open, rolls back and reports a ServerError, and only a
    fully successful run commits. The database is an abstract store whose
    operations fail as its `Faults` say, and which records every call it
    receives. */
module ListQuery {
  import opened Wrappers
  import opened GoInt
  import opened RestErrors
  import opened QueryAssembly

  /** How the store answers each call of one run: an error for a call that
      fails, the built results, whether the count query yields a row, and the
      scanned count. */
  datatype Faults<R> = Faults(
    begin: Option<GoError>,
    prepare: Option<GoError>,
    query: Option<GoError>,
    build: Result<R, GoError>,
    foundRows: Option<GoError>,
    noRow: bool,
    scan: Result<Int64, GoError>)

  /** One call on the store, with whether it succeeded. */
  datatype Event =
    | Begin(ok: bool)                       // conn.BeginTx
    | Prepare(stmt: string, ok: bool)       // txn.Prepare(queryStmt)
    | Query(args: seq<SqlArg>, ok: bool)    // query.Query(params...)
    | Build(ok: bool)                       // resultBuilder(rows)
    | CloseRows                             // rows.Close()
    | FoundRows(ok: bool)                   // txn.Query("SELECT FOUND_ROWS()")
    | Next(hasRow: bool)                    // countRows.Next()
    | Scan(ok: bool)                        // countRows.Scan(&count)
    | CloseCount                            // countRows.Close()
    | Rollback                              // txn.Rollback()
    | Commit                                // txn.Commit()

  /** The abstract database: a fixed answer per call and the trace of calls
      received so far. */
  class Store<R> {
    const faults: Faults<R>
    var trace: seq<Event>

    constructor (faults: Faults<R>)
      ensures this.faults == faults && trace == []
    {
      this.faults := faults;
      trace := [];
    }

    method BeginTx() returns (err: Option<GoError>)
      modifies this
      ensures err == faults.begin && trace == old(trace) + [Begin(err.None?)]
    {
      err := faults.begin;
      trace := trace + [Begin(err.None?)];
    }

    method PrepareQuery(stmt: string) returns (err: Option<GoError>)
      modifies this
      ensures err == faults.prepare && trace == old(trace) + [Prepare(stmt, err.None?)]
    {
      err := faults.prepare;
      trace := trace + [Prepare(stmt, err.None?)];
    }

    method ExecQuery(args: seq<SqlArg>) returns (err: Option<GoError>)
      modifies this
      ensures err == faults.query && trace == old(trace) + [Query(args, err.None?)]
    {
      err := faults.query;
      trace := trace + [Query(args, err.None?)];
    }

    method BuildResults() returns (r: Result<R, GoError>)
      modifies this
      ensures r == faults.build && trace == old(trace) + [Build(r.Ok?)]
    {
      r := faults.build;
      trace := trace + [Build(r.Ok?)];
    }

    method CloseResultRows()
      modifies this
      ensures trace == old(trace) + [CloseRows]
    {
      trace := trace + [CloseRows];
    }

    method QueryFoundRows() returns (err: Option<GoError>)
      modifies this
      ensures err == faults.foundRows && trace == old(trace) + [FoundRows(err.None?)]
    {
      err := faults.foundRows;
      trace := trace + [FoundRows(err.None?)];
    }

    method NextCountRow() returns (hasRow: bool)
      modifies this
      ensures hasRow == !faults.noRow && trace == old(trace) + [Next(hasRow)]
    {
      hasRow := !faults.noRow;
      trace := trace + [Next(hasRow)];
    }

    method ScanCount() returns (r: Result<Int64, GoError>)
      modifies this
      ensures r == faults.scan && trace == old(trace) + [Scan(r.Ok?)]
    {
      r := faults.scan;
      trace := trace + [Scan(r.Ok?)];
    }

    method CloseCountRows()
      modifies this
      ensures trace == old(trace) + [CloseCount]
    {
      trace := trace + [CloseCount];
    }

    method RollbackTxn()
      modifies this
      ensures trace == old(trace) + [Rollback]
    {
      trace := trace + [Rollback];
    }

    method CommitTxn()
      modifies this
      ensures trace == old(trace) + [Commit]
    {
      trace := trace + [Commit];
    }
  }

  const BeginFailedMessage := "Could not create package record."
  const PrepareFailedMessage := "Could not process query."
  const RetrieveFailedMessage := "Could not retrieve customers."

  /** The calls of the FOUND_ROWS part of a run, made once the page cursor is
      closed. */
  function CountTrace<R>(f: Faults<R>): seq<Event>
  {
    if f.foundRows.Some? then [FoundRows(false), Rollback]
    else if f.noRow then [FoundRows(true), Next(false), CloseCount, Rollback]
    else if f.scan.Err? then [FoundRows(true), Next(true), Scan(false), CloseCount, Rollback]
    else [FoundRows(true), Next(true), Scan(true), CloseCount, Commit]
  }

  /** The calls one run makes, given how the store answers them. */
  function ListQueryTrace<R>(f: Faults<R>, stmt: string, params: seq<SqlArg>): seq<Event>
  {
    if f.begin.Some? then [Begin(false), Rollback]
    else if f.prepare.Some? then [Begin(true), Prepare(stmt, false), Rollback]
    else if f.query.Some? then [Begin(true), Prepare(stmt, true), Query(params, false), Rollback]
    else if f.build.Err? then [Begin(true), Prepare(stmt, true), Query(params, true), Build(false), CloseRows, Rollback]
    else [Begin(true), Prepare(stmt, true), Query(params, true), Build(true), CloseRows] + CountTrace(f)
  }

  /** What one run returns: the built results and the scanned count, or the
      ServerError of the first failing call. After `Next` finds no row, Go's
      `err` still holds the nil of the previous call, so that error has no
      cause. */
  function ListQueryOutcome<R>(f: Faults<R>): (r: Result<(R, Int64), ErrorData>)
    ensures r.Ok? <==> f.begin.None? && f.prepare.None? && f.query.None? && f.build.Ok? && CountOutcome(f).Ok?
    ensures r.Ok? ==> r.value == (f.build.value, f.scan.value)
    ensures r.Err? ==> r.error.code == StatusInternalServerError
    ensures r.Err? ==> r.error.message in {BeginFailedMessage, PrepareFailedMessage, RetrieveFailedMessage}
    ensures r.Err? && r.error.message == BeginFailedMessage <==> f.begin.Some?
  {
    if f.begin.Some? then Err(ServerError(BeginFailedMessage, f.begin))
    else if f.prepare.Some? then Err(ServerError(PrepareFailedMessage, f.prepare))
    else if f.query.Some? then Err(ServerError(RetrieveFailedMessage, f.query))
    else if f.build.Err? then Err(ServerError(RetrieveFailedMessage, Some(f.build.error)))
    else
      match CountOutcome(f)
      case Err(e) => Err(e)
      case Ok(count) => Ok((f.build.value, count))
  }

  /** The outcome of the FOUND_ROWS part alone. */
  function CountOutcome<R>(f: Faults<R>): (r: Result<Int64, ErrorData>)
    ensures r.Ok? <==> f.foundRows.None? && !f.noRow && f.scan.Ok?
    ensures r.Ok? ==> r.value == f.scan.value
    ensures r.Err? ==> r.error.code == StatusInternalServerError && r.error.message == RetrieveFailedMessage
  {
    if f.foundRows.Some? then Err(ServerError(RetrieveFailedMessage, f.foundRows))
    else if f.noRow then Err(ServerError(RetrieveFailedMessage, None))
    else if f.scan.Err? then Err(ServerError(RetrieveFailedMessage, Some(f.scan.error)))
    else Ok(f.scan.value)
  }

  /** ProcessListQuery over the store: results, count and error as Go returns
      them (nil results and count 0 with every error). */
  method ProcessListQuery<R>(store: Store<R>, queryStmt: string, params: seq<SqlArg>)
      returns (results: Option<R>, count: Int64, err: Option<ErrorData>)
    modifies store
    ensures store.trace == old(store.trace) + ListQueryTrace(store.faults, queryStmt, params)
    ensures ListQueryOutcome(store.faults).Ok? ==>
      results == Some(ListQueryOutcome(store.faults).value.0) &&
      count == ListQueryOutcome(store.faults).value.1 && err.None?
    ensures ListQueryOutcome(store.faults).Err? ==>
      results.None? && count == 0 && err == Some(ListQueryOutcome(store.faults).error)
  {
    ghost var t0 := store.trace;
    var e := store.BeginTx();
    if e.Some? {
      store.RollbackTxn();
      assert store.trace == t0 + [Begin(false), Rollback];
      return None, 0, Some(ServerError(BeginFailedMessage, e));
    }
    e := store.PrepareQuery(queryStmt);
    if e.Some? {
      store.RollbackTxn();
      assert store.trace == t0 + [Begin(true), Prepare(queryStmt, false), Rollback];
      return None, 0, Some(ServerError(PrepareFailedMessage, e));
    }
    e := store.ExecQuery(params);
    if e.Some? {
      store.RollbackTxn();
      assert store.trace == t0 + [Begin(true), Prepare(queryStmt, true), Query(params, false), Rollback];
      return None, 0, Some(ServerError(RetrieveFailedMessage, e));
    }
    var built := store.BuildResults();
    if built.Err? {
      store.CloseResultRows();
      store.RollbackTxn();
      assert store.trace == t0 + [Begin(true), Prepare(queryStmt, true), Query(params, true), Build(false), CloseRows, Rollback];
      return None, 0, Some(ServerError(RetrieveFailedMessage, Some(built.error)));
    }
    store.CloseResultRows();
    ghost var page := store.trace;
    assert page == t0 + [Begin(true), Prepare(queryStmt, true), Query(params, true), Build(true), CloseRows];
    count, err := FetchFoundRows(store);
    assert store.trace == page + CountTrace(store.faults);
    if err.None? {
      results := Some(built.value);
    } else {
      results := None;
    }
  }

  /** The second half of ProcessListQuery, once the page cursor is closed:
      `SELECT FOUND_ROWS()`, one row scanned into the count, the count cursor
      closed, and the transaction committed, or rolled back on any failure. */
  method FetchFoundRows<R>(store: Store<R>) returns (count: Int64, err: Option<ErrorData>)
    modifies store
    ensures store.trace == old(store.trace) + CountTrace(store.faults)
    ensures CountOutcome(store.faults).Ok? ==> count == CountOutcome(store.faults).value && err.None?
    ensures CountOutcome(store.faults).Err? ==> count == 0 && err == Some(CountOutcome(store.faults).error)
  {
    var e := store.QueryFoundRows();
    if e.Some? {
      store.RollbackTxn();
      return 0, Some(ServerError(RetrieveFailedMessage, e));
    }
    var hasRow := store.NextCountRow();
    if !hasRow {
      store.CloseCountRows();
      store.RollbackTxn();
      return 0, Some(ServerError(RetrieveFailedMessage, e));
    }
    var scanned := store.ScanCount();
    if scanned.Err? {
      store.CloseCountRows();
      store.RollbackTxn();
      return 0, Some(ServerError(RetrieveFailedMessage, Some(scanned.error)));
    }
    store.CloseCountRows();
    store.CommitTxn();
    return scanned.value, None;
  }

  // ---------------------------------------------------------------------
  // The protocol every run must follow, as a state machine over events.
  // ---------------------------------------------------------------------

  /** Where the transaction is: not begun, begin failed (no transaction), open,
      or ended by a commit or a rollback. */
  datatype Phase = Idle | NoTxn | Open | Finished(committed: bool)

  /** The transaction phase, the two cursors, and whether a call has failed. */
  datatype Protocol = Protocol(phase: Phase, rowsOpen: bool, countOpen: bool, failed: bool)

  const Initial := Protocol(Idle, false, false, false)

  predicate Usable(s: Protocol) { s.phase == Open && !s.failed }

  /** The calls the protocol allows in state `s`, and the state after them:
      queries only in a healthy transaction and with no cursor open (so the
      page cursor is closed before FOUND_ROWS), cursors closed before the
      transaction ends, and a commit only when nothing has failed. */
  function Step(s: Protocol, e: Event): Option<Protocol>
  {
    match e
    case Begin(ok) =>
      if s.phase == Idle then Some(s.(phase := if ok then Open else NoTxn, failed := s.failed || !ok)) else None
    case Prepare(_, ok) =>
      if Usable(s) && !s.rowsOpen && !s.countOpen then Some(s.(failed := !ok)) else None
    case Query(_, ok) =>
      if Usable(s) && !s.rowsOpen && !s.countOpen then Some(s.(rowsOpen := ok, failed := !ok)) else None
    case Build(ok) =>
      if Usable(s) && s.rowsOpen then Some(s.(failed := !ok)) else None
    case CloseRows =>
      if s.phase == Open && s.rowsOpen then Some(s.(rowsOpen := false)) else None
    case FoundRows(ok) =>
      if Usable(s) && !s.rowsOpen && !s.countOpen then Some(s.(countOpen := ok, failed := !ok)) else None
    case Next(hasRow) =>
      if Usable(s) && s.countOpen then Some(s.(failed := !hasRow)) else None
    case Scan(ok) =>
      if Usable(s) && s.countOpen then Some(s.(failed := !ok)) else None
    case CloseCount =>
      if s.phase == Open && s.countOpen then Some(s.(countOpen := false)) else None
    case Rollback =>
      if (s.phase == Open || s.phase == NoTxn) && !s.rowsOpen && !s.countOpen then
        Some(Protocol(Finished(false), false, false, s.failed))
      else None
    case Commit =>
      if Usable(s) && !s.rowsOpen && !s.countOpen then Some(Protocol(Finished(true), false, false, false))
      else None
  }

  /** The state after a whole trace, or None when some call is not allowed. */
  function Run(s: Protocol, t: seq<Event>): Option<Protocol>
    decreases |t|
  {
    if t == [] then Some(s)
    else
      match Step(s, t[0])
      case None => None
      case Some(s') => Run(s', t[1..])
  }

  /** A call that reports failure. */
  predicate IsFailure(e: Event)
  {
    match e
    case Begin(ok) => !ok
    case Prepare(_, ok) => !ok
    case Query(_, ok) => !ok
    case Build(ok) => !ok
    case FoundRows(ok) => !ok
    case Next(hasRow) => !hasRow
    case Scan(ok) => !ok
    case _ => false
  }

  /** Nothing may follow the end of the transaction. */
  lemma FinishedIsFinal(s: Protocol, t: seq<Event>)
    requires s.phase.Finished?
    requires Run(s, t).Some?
    ensures t == [] && Run(s, t) == Some(s)
  {
  }

  /** The protocol's central guarantee: a trace it allows that contains a
      commit contains no failure, and the commit is its last call. */
  lemma {:induction false} CommitExcludesFailure(s: Protocol, t: seq<Event>)
    requires Run(s, t).Some?
    requires Commit in t
    ensures !s.failed
    ensures forall k :: 0 <= k < |t| ==> !IsFailure(t[k])
    ensures t[|t| - 1] == Commit && Commit !in t[..|t| - 1]
    decreases |t|
  {
    var s' := Step(s, t[0]).value;
    if t[0] == Commit {
      FinishedIsFinal(s', t[1..]);
    } else {
      assert Commit in t[1..];
      if s'.phase.Finished? {
        FinishedIsFinal(s', t[1..]);
        assert false;
      }
      CommitExcludesFailure(s', t[1..]);
      assert t == [t[0]] + t[1..];
    }
  }

  /** A trace that ends the transaction from a started one ends with the call
      that ended it: a commit exactly when the end is a commit. */
  lemma {:induction false} EndingCall(s: Protocol, t: seq<Event>)
    requires !s.phase.Finished?
    requires Run(s, t).Some? && Run(s, t).value.phase.Finished?
    ensures t != []
    ensures Run(s, t).value.phase.committed <==> Commit in t
    ensures Run(s, t).value.phase.committed ==> t[|t| - 1] == Commit
    ensures !Run(s, t).value.phase.committed ==> t[|t| - 1] == Rollback && Commit !in t
    decreases |t|
  {
    var s' := Step(s, t[0]).value;
    if s'.phase.Finished? {
      FinishedIsFinal(s', t[1..]);
      assert t == [t[0]];
    } else {
      EndingCall(s', t[1..]);
      assert t == [t[0]] + t[1..];
    }
  }

  // ---------------------------------------------------------------------
  // Every run of ProcessListQuery follows the protocol.
  // ---------------------------------------------------------------------

  /** An open transaction with no cursor and no failure. */
  const Healthy := Protocol(Open, false, false, false)

  /** Running a trace one call at a time. */
  lemma RunCons(s: Protocol, e: Event, t: seq<Event>)
    ensures Run(s, [e] + t) == if Step(s, e).None? then None else Run(Step(s, e).value, t)
  {
    assert ([e] + t)[0] == e;
    assert ([e] + t)[1..] == t;
  }

  /** Running two traces one after the other. */
  lemma {:induction false} RunConcat(s: Protocol, a: seq<Event>, b: seq<Event>)
    ensures Run(s, a + b) == if Run(s, a).None? then None else Run(Run(s, a).value, b)
    decreases |a|
  {
    if a != [] {
      assert a + b == [a[0]] + (a[1..] + b);
      assert a == [a[0]] + a[1..];
      RunCons(s, a[0], a[1..] + b);
      RunCons(s, a[0], a[1..]);
      if Step(s, a[0]).Some? {
        RunConcat(Step(s, a[0]).value, a[1..], b);
      }
    } else {
      assert a + b == b;
    }
  }

  /** After a failure, closing the count cursor and rolling back ends the
      transaction. */
  lemma CloseCountAndRollBack()
    ensures Run(Healthy.(countOpen := true, failed := true), [CloseCount, Rollback]) == Some(Protocol(Finished(false), false, false, true))
  {
    RunCons(Healthy.(countOpen := true, failed := true), CloseCount, [Rollback]);
    RunCons(Healthy.(failed := true), Rollback, []);
  }

  lemma CountPathCommits()
    ensures Run(Healthy, [FoundRows(true), Next(true), Scan(true), CloseCount, Commit]) == Some(Protocol(Finished(true), false, false, false))
  {
    var counting := Healthy.(countOpen := true);
    RunCons(Healthy, FoundRows(true), [Next(true), Scan(true), CloseCount, Commit]);
    RunCons(counting, Next(true), [Scan(true), CloseCount, Commit]);
    RunCons(counting, Scan(true), [CloseCount, Commit]);
    RunCons(counting, CloseCount, [Commit]);
    RunCons(Healthy, Commit, []);
  }

  lemma CountPathScanFails()
    ensures Run(Healthy, [FoundRows(true), Next(true), Scan(false), CloseCount, Rollback]) == Some(Protocol(Finished(false), false, false, true))
  {
    var counting := Healthy.(countOpen := true);
    RunCons(Healthy, FoundRows(true), [Next(true), Scan(false), CloseCount, Rollback]);
    RunCons(counting, Next(true), [Scan(false), CloseCount, Rollback]);
    RunCons(counting, Scan(false), [CloseCount, Rollback]);
    CloseCountAndRollBack();
  }

  lemma CountPathNoRow()
    ensures Run(Healthy, [FoundRows(true), Next(false), CloseCount, Rollback]) == Some(Protocol(Finished(false), false, false, true))
  {
    RunCons(Healthy, FoundRows(true), [Next(false), CloseCount, Rollback]);
    RunCons(Healthy.(countOpen := true), Next(false), [CloseCount, Rollback]);
    CloseCountAndRollBack();
  }

  lemma CountPathFoundRowsFails()
    ensures Run(Healthy, [FoundRows(false), Rollback]) == Some(Protocol(Finished(false), false, false, true))
  {
    RunCons(Healthy, FoundRows(false), [Rollback]);
    RunCons(Healthy.(failed := true), Rollback, []);
  }

  /** The FOUND_ROWS part, started in a healthy transaction, ends it with no
      cursor open, committing exactly when it succeeds. */
  lemma CountTraceFollowsProtocol<R>(f: Faults<R>)
    ensures Run(Healthy, CountTrace(f)) == Some(Protocol(Finished(CountOutcome(f).Ok?), false, false, CountOutcome(f).Err?))
  {
    if f.foundRows.Some? {
      CountPathFoundRowsFails();
    } else if f.noRow {
      CountPathNoRow();
    } else if f.scan.Err? {
      CountPathScanFails();
    } else {
      CountPathCommits();
    }
  }

  /** The page query opened and nothing failed yet. */
  lemma PagePathOpensRows(stmt: string, params: seq<SqlArg>)
    ensures Run(Initial, [Begin(true), Prepare(stmt, true), Query(params, true)]) == Some(Healthy.(rowsOpen := true))
  {
    RunCons(Initial, Begin(true), [Prepare(stmt, true), Query(params, true)]);
    RunCons(Healthy, Prepare(stmt, true), [Query(params, true)]);
    RunCons(Healthy, Query(params, true), []);
  }

  lemma EarlyFailuresRollBack<R>(f: Faults<R>, stmt: string, params: seq<SqlArg>)
    requires f.begin.Some? || f.prepare.Some? || f.query.Some?
    ensures Run(Initial, ListQueryTrace(f, stmt, params)) == Some(Protocol(Finished(false), false, false, true))
  {
    var failed := Healthy.(failed := true);
    if f.begin.Some? {
      RunCons(Initial, Begin(false), [Rollback]);
      RunCons(Protocol(NoTxn, false, false, true), Rollback, []);
    } else if f.prepare.Some? {
      RunCons(Initial, Begin(true), [Prepare(stmt, false), Rollback]);
      RunCons(Healthy, Prepare(stmt, false), [Rollback]);
      RunCons(failed, Rollback, []);
    } else {
      RunCons(Initial, Begin(true), [Prepare(stmt, true), Query(params, false), Rollback]);
      RunCons(Healthy, Prepare(stmt, true), [Query(params, false), Rollback]);
      RunCons(Healthy, Query(params, false), [Rollback]);
      RunCons(failed, Rollback, []);
    }
  }

  lemma BuildFailureRollsBack(stmt: string, params: seq<SqlArg>)
    ensures Run(Initial, [Begin(true), Prepare(stmt, true), Query(params, true), Build(false), CloseRows, Rollback])
      == Some(Protocol(Finished(false), false, false, true))
  {
    var head := [Begin(true), Prepare(stmt, true), Query(params, true)];
    var reading := Healthy.(rowsOpen := true);
    PagePathOpensRows(stmt, params);
    RunConcat(Initial, head, [Build(false), CloseRows, Rollback]);
    assert head + [Build(false), CloseRows, Rollback] == [Begin(true), Prepare(stmt, true), Query(params, true), Build(false), CloseRows, Rollback];
    RunCons(reading, Build(false), [CloseRows, Rollback]);
    RunCons(reading.(failed := true), CloseRows, [Rollback]);
    RunCons(Healthy.(failed := true), Rollback, []);
  }

  lemma PagePathClosesRows(stmt: string, params: seq<SqlArg>, rest: seq<Event>)
    ensures Run(Initial, [Begin(true), Prepare(stmt, true), Query(params, true), Build(true), CloseRows] + rest) == Run(Healthy, rest)
  {
    var head := [Begin(true), Prepare(stmt, true), Query(params, true)];
    var reading := Healthy.(rowsOpen := true);
    PagePathOpensRows(stmt, params);
    RunConcat(Initial, head, [Build(true)] + ([CloseRows] + rest));
    assert [Begin(true), Prepare(stmt, true), Query(params, true), Build(true), CloseRows] + rest == head + ([Build(true)] + ([CloseRows] + rest));
    RunCons(reading, Build(true), [CloseRows] + rest);
    RunCons(reading, CloseRows, rest);
  }

  /** The run is allowed by the protocol, leaves both cursors closed and ends
      the transaction, committing exactly when it succeeds. */
  lemma ListQueryTraceFollowsProtocol<R>(f: Faults<R>, stmt: string, params: seq<SqlArg>)
    ensures Run(Initial, ListQueryTrace(f, stmt, params)).Some?
    ensures var s := Run(Initial, ListQueryTrace(f, stmt, params)).value;
      s.phase == Finished(ListQueryOutcome(f).Ok?) && !s.rowsOpen && !s.countOpen
  {
    if f.begin.Some? || f.prepare.Some? || f.query.Some? {
      EarlyFailuresRollBack(f, stmt, params);
    } else if f.build.Err? {
      BuildFailureRollsBack(stmt, params);
    } else {
      PagePathClosesRows(stmt, params, CountTrace(f));
      CountTraceFollowsProtocol(f);
    }
  }

  /** When BeginTx fails the code still calls Rollback, on the nil
      transaction BeginTx returned with its error: the rollback is issued
      while no transaction exists. */
  lemma BeginFailureRollsBackWithoutTransaction<R>(f: Faults<R>, stmt: string, params: seq<SqlArg>)
    requires f.begin.Some?
    ensures ListQueryTrace(f, stmt, params) == [Begin(false), Rollback]
    ensures Run(Initial, [Begin(false)]) == Some(Protocol(NoTxn, false, false, true))
  {
    RunCons(Initial, Begin(false), []);
  }

  /** Every failure path rolls back as its last call, never commits, and
      reports a ServerError; the transaction could not begin only on the
      BeginTx path, and Prepare failures have their own message. */
  lemma FailureRollsBack<R>(f: Faults<R>, stmt: string, params: seq<SqlArg>)
    requires ListQueryOutcome(f).Err?
    ensures var t := ListQueryTrace(f, stmt, params);
      t[|t| - 1] == Rollback && Commit !in t
    ensures ListQueryOutcome(f).error.Code() == StatusInternalServerError
    ensures ListQueryOutcome(f).error.Error() in {BeginFailedMessage, PrepareFailedMessage, RetrieveFailedMessage}
    ensures exists k :: 0 <= k < |ListQueryTrace(f, stmt, params)| && IsFailure(ListQueryTrace(f, stmt, params)[k])
  {
    var t := ListQueryTrace(f, stmt, params);
    ListQueryTraceFollowsProtocol(f, stmt, params);
    EndingCall(Initial, t);
    assert IsFailure(t[|t| - 2]) || IsFailure(t[|t| - 3]);
  }

  /** The success path commits exactly once, as its last call, never rolls
      back, and returns what the builder built and the scanned count. */
  lemma SuccessCommitsOnce<R>(f: Faults<R>, stmt: string, params: seq<SqlArg>)
    requires ListQueryOutcome(f).Ok?
    ensures var t := ListQueryTrace(f, stmt, params);
      t[|t| - 1] == Commit && Commit !in t[..|t| - 1] && Rollback !in t
    ensures ListQueryOutcome(f).value == (f.build.value, f.scan.value)
  {
    var t := ListQueryTrace(f, stmt, params);
    ListQueryTraceFollowsProtocol(f, stmt, params);
    EndingCall(Initial, t);
    CommitExcludesFailure(Initial, t);
  }

  /** The page cursor is closed before `SELECT FOUND_ROWS()` is issued: any
      FoundRows call comes straight after a CloseRows. */
  lemma RowsClosedBeforeFoundRows<R>(f: Faults<R>, stmt: string, params: seq<SqlArg>)
    ensures var t := ListQueryTrace(f, stmt, params);
      forall i :: 0 <= i < |t| && t[i].FoundRows? ==> 0 < i && t[i - 1] == CloseRows
  {
  }
}
