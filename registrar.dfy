/**
 * The batch loop of the partition registrar (`handler`, lines 330-379 of
 * lambdas/create-partition/index.py). Records are handled in arrival order.
 * A key that does not unpack, or an unknown table, raises out of the handler
 * and the later records are never looked at. The Glue `create_partition`
 * call sits in a bare `try/except`, so whatever happens there (a duplicate
 * partition, any other service error, a missing `DATABASE_NAME`) is
 * swallowed and the loop goes on.
 */
module Registrar {
  import opened Wrappers
  import opened Partition

  /** What the per-record transformation gave for one record: its request, or the exception it raised. */
  type Built = Result<CatalogRequest, RecordError>

  /** How one invocation ends: it returns, or an exception escapes while handling record `index`. */
  datatype Termination = Returned | Raised(index: nat, error: RecordError)

  /** What one invocation does: the catalog requests it reaches, in order, and how it ends. */
  datatype Run = Run(requests: seq<CatalogRequest>, termination: Termination)

  /** What reaching the `try` block for one record came to. */
  datatype CallOutcome =
    | Created              // create_partition returned
    | Rejected             // create_partition raised (AlreadyExistsException or any other error); swallowed
    | DatabaseNameMissing  // os.environ["DATABASE_NAME"] raised KeyError before the call; swallowed

  /**
   * One attempted registration in the handler's trace: the `DatabaseName`
   * argument (None when the environment variable was unset and no call was
   * made), the table and partition, and what came of it.
   */
  datatype Attempt = Attempt(database: Option<string>, request: CatalogRequest, outcome: CallOutcome)

  /** The per-record results of a batch, record by record. */
  function Outcomes(records: seq<Record>): (built: seq<Built>)
    ensures |built| == |records|
    ensures forall i :: 0 <= i < |records| ==> built[i] == BuildRequest(records[i])
  {
    seq(|records|, i requires 0 <= i < |records| => BuildRequest(records[i]))
  }

  /**
   * The loop over per-record results, from the front of the batch: once a
   * record raises, the run is over; otherwise each record adds its request.
   */
  function Replay(built: seq<Built>): (run: Run)
    ensures |run.requests| <= |built|
    ensures run.termination.Returned? ==> |run.requests| == |built|
    ensures run.termination.Raised? ==>
      run.termination.index < |built| && |run.requests| == run.termination.index
    decreases |built|
  {
    if built == [] then Run([], Returned)
    else
      var before := Replay(built[..|built| - 1]);
      if before.termination.Raised? then before
      else match built[|built| - 1]
        case Failure(e) => Run(before.requests, Raised(|built| - 1, e))
        case Success(request) => Run(before.requests + [request], Returned)
  }

  /** The specification of one invocation of the handler on a batch of records. */
  function Handle(records: seq<Record>): Run
  {
    Replay(Outcomes(records))
  }

  /**
   * The Glue `create_partition(DatabaseName=…, TableName=…, PartitionInput=…)`
   * call, left abstract: it is made with exactly these arguments, and it may
   * succeed or raise; nothing here decides which.
   */
  method CreatePartition(databaseName: string, request: CatalogRequest) returns (attempt: Attempt)
    ensures attempt.database == Some(databaseName) && attempt.request == request
    ensures attempt.outcome != DatabaseNameMissing
  {
    var outcome: CallOutcome :| outcome != DatabaseNameMissing;
    attempt := Attempt(Some(databaseName), request, outcome);
  }

  /** The requests of a trace, in order. */
  function RequestsOf(trace: seq<Attempt>): seq<CatalogRequest>
    decreases |trace|
  {
    if trace == [] then [] else RequestsOf(trace[..|trace| - 1]) + [trace[|trace| - 1].request]
  }

  /** RequestsOf keeps one request per attempt, in the trace's order. */
  lemma {:induction false} RequestsOfIndex(trace: seq<Attempt>)
    ensures |RequestsOf(trace)| == |trace|
    ensures forall i :: 0 <= i < |trace| ==> RequestsOf(trace)[i] == trace[i].request
    decreases |trace|
  {
    if trace != [] {
      RequestsOfIndex(trace[..|trace| - 1]);
    }
  }

  /**
   * The `try` block of the loop: read `DATABASE_NAME` and call the catalog.
   * Every exception in it is swallowed, so it always yields an attempt.
   */
  method TryCreatePartition(databaseName: Option<string>, request: CatalogRequest) returns (attempt: Attempt)
    ensures attempt.request == request && attempt.database == databaseName
    ensures attempt.outcome == DatabaseNameMissing <==> databaseName.None?
  {
    match databaseName {
      case None =>
        attempt := Attempt(None, request, DatabaseNameMissing);
      case Some(name) =>
        attempt := CreatePartition(name, request);
    }
  }

  /**
   * Every attempt carries the configured database name; it reached the
   * catalog exactly when that name was set.
   */
  predicate ConfiguredAttempts(trace: seq<Attempt>, databaseName: Option<string>)
  {
    forall i :: 0 <= i < |trace| ==>
      trace[i].database == databaseName && (trace[i].outcome == DatabaseNameMissing <==> databaseName.None?)
  }

  /**
   * `handler(event, context)`: `databaseName` is the `DATABASE_NAME`
   * environment variable, None when it is unset. The trace holds one attempt
   * per record that reached the `try`, carrying exactly the requests of
   * Handle(records) and the configured database name, whatever the catalog
   * answered.
   */
  method Handler(records: seq<Record>, databaseName: Option<string>)
    returns (trace: seq<Attempt>, termination: Termination)
    ensures RequestsOf(trace) == Handle(records).requests
    ensures |trace| == |Handle(records).requests|
    ensures forall i :: 0 <= i < |trace| ==> trace[i].request == Handle(records).requests[i]
    ensures termination == Handle(records).termination
    ensures ConfiguredAttempts(trace, databaseName)
  {
    ghost var built := Outcomes(records);
    trace := [];
    var i := 0;
    while i < |records|
      invariant 0 <= i <= |records|
      invariant Replay(built[..i]) == Run(RequestsOf(trace), Returned)
      invariant |trace| == i
      invariant ConfiguredAttempts(trace, databaseName)
    {
      ReplayStep(built, i);
      match BuildRequest(records[i]) {
        case Failure(e) =>
          ReplayAfterRaise(built, i + 1);
          RequestsOfIndex(trace);
          termination := Raised(i, e);
          return;
        case Success(request) =>
          var attempt := TryCreatePartition(databaseName, request);
          assert (trace + [attempt])[..i] == trace;
          trace := trace + [attempt];
      }
      i := i + 1;
    }
    assert built[..i] == built;
    RequestsOfIndex(trace);
    termination := Returned;
  }

  // ---------------------------------------------------------------------------
  // Properties of the loop over per-record results

  /** One turn of the loop: Replay on the first i + 1 results extends Replay on the first i. */
  lemma ReplayStep(built: seq<Built>, i: nat)
    requires i < |built| && Replay(built[..i]).termination == Returned
    ensures built[i].Failure? ==> Replay(built[..i + 1]) == Run(Replay(built[..i]).requests, Raised(i, built[i].error))
    ensures built[i].Success? ==> Replay(built[..i + 1]) == Run(Replay(built[..i]).requests + [built[i].value], Returned)
  {
    assert built[..i + 1][..i] == built[..i];
  }

  /** Once the first k records have raised, the later records change nothing: the rest of the batch is never processed. */
  lemma {:induction false} ReplayAfterRaise(built: seq<Built>, k: nat)
    requires k <= |built| && Replay(built[..k]).termination.Raised?
    ensures Replay(built) == Replay(built[..k])
    decreases |built|
  {
    if k == |built| {
      assert built[..k] == built;
    } else {
      var front := built[..|built| - 1];
      assert front[..k] == built[..k];
      ReplayAfterRaise(front, k);
    }
  }

  /** While the first k records return, their requests are the first requests of the whole batch: later records only append. */
  lemma {:induction false} ReplayExtends(built: seq<Built>, k: nat)
    requires k <= |built| && Replay(built[..k]).termination == Returned
    ensures Replay(built[..k]).requests <= Replay(built).requests
    decreases |built|
  {
    if k == |built| {
      assert built[..k] == built;
    } else {
      var front := built[..|built| - 1];
      assert front[..k] == built[..k];
      ReplayExtends(front, k);
    }
  }

  /** The run returns exactly when no record raised. */
  lemma {:induction false} ReplayReturnsIff(built: seq<Built>)
    ensures Replay(built).termination == Returned <==> forall i :: 0 <= i < |built| ==> built[i].Success?
    decreases |built|
  {
    if built != [] {
      var front := built[..|built| - 1];
      ReplayReturnsIff(front);
      assert forall i :: 0 <= i < |front| ==> front[i] == built[i];
    }
  }

  /** The i-th request of the run is the i-th record's request. */
  lemma {:induction false} ReplayInOrder(built: seq<Built>, i: nat)
    requires i < |Replay(built).requests|
    ensures built[i] == Success(Replay(built).requests[i])
    decreases |built|
  {
    var front := built[..|built| - 1];
    if i < |Replay(front).requests| {
      ReplayInOrder(front, i);
    }
  }

  /** The run raises at record k with error e exactly when record k is the first to raise, and raises e. */
  lemma {:induction false} ReplayRaisesAtFirstFailure(built: seq<Built>, k: nat, e: RecordError)
    ensures Replay(built).termination == Raised(k, e) <==>
      k < |built| && built[k] == Failure(e) && forall j :: 0 <= j < k ==> built[j].Success?
    decreases |built|
  {
    if built != [] {
      var front := built[..|built| - 1];
      ReplayRaisesAtFirstFailure(front, k, e);
      ReplayReturnsIff(front);
      assert forall i :: 0 <= i < |front| ==> front[i] == built[i];
    }
  }

  // ---------------------------------------------------------------------------
  // Properties of the handler on records

  /** The invocation returns normally exactly when every record's key unpacks and names a known table; it then made one request per record. */
  lemma HandleReturnsIff(records: seq<Record>)
    ensures Handle(records).termination == Returned <==>
      forall i :: 0 <= i < |records| ==> BuildRequest(records[i]).Success?
    ensures Handle(records).termination == Returned ==> |Handle(records).requests| == |records|
  {
    ReplayReturnsIff(Outcomes(records));
  }

  /** The requests are those of the records, in arrival order, one per record: the i-th request is the i-th record's. */
  lemma HandleRequestsInOrder(records: seq<Record>, i: nat)
    requires i < |Handle(records).requests|
    ensures i < |records| && BuildRequest(records[i]) == Success(Handle(records).requests[i])
  {
    ReplayInOrder(Outcomes(records), i);
  }

  /**
   * The invocation raises at record k with error e exactly when record k is
   * the first whose key does not unpack or whose table is unknown; the
   * records from k on reach no catalog call.
   */
  lemma HandleRaisesAtFirstFailure(records: seq<Record>, k: nat, e: RecordError)
    ensures Handle(records).termination == Raised(k, e) <==>
      k < |records| && BuildRequest(records[k]) == Failure(e) &&
      forall j :: 0 <= j < k ==> BuildRequest(records[j]).Success?
    ensures Handle(records).termination == Raised(k, e) ==> |Handle(records).requests| == k
  {
    ReplayRaisesAtFirstFailure(Outcomes(records), k, e);
  }

  /**
   * The same record twice in one batch (the second attempt finds the
   * partition already registered) makes two identical requests and the
   * invocation still returns: the duplicate is only a catalog outcome, and
   * Handler's termination does not depend on catalog outcomes.
   */
  lemma HandleRepeatedRecord(r: Record)
    requires BuildRequest(r).Success?
    ensures Handle([r, r]) == Run([BuildRequest(r).value, BuildRequest(r).value], Returned)
  {
    var built := Outcomes([r, r]);
    assert built[..0] == [];
    ReplayStep(built, 0);
    ReplayStep(built, 1);
    assert built[..2] == built;
  }
}
